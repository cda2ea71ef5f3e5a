/** The request classifier: the category table, the keyword fallback, the
    resolution of the model's category name and the confidence clamp. */
module Classifier {
  import opened Wrappers
  import opened Strings
  import opened Models
  import Response

  // ---------------------------------------------------------------------------
  // The category table

  /** What the table records for one category. */
  datatype CategoryInfo = CategoryInfo(
    category: RequestCategory,
    description: string,
    typicalResolutionTime: string,
    escalationTriggers: seq<string>)

  /** A category object as read from the configuration file; a field is `None`
      when the object lacks it (or is not an object at all). */
  datatype RawCategory = RawCategory(
    description: Option<string>,
    typicalResolutionTime: Option<string>,
    escalationTriggers: Option<seq<string>>)

  /** The classifier's dictionary from readable name to category record:
      the names in insertion order and the record of each. */
  datatype Table = Table(names: seq<string>, entries: map<string, CategoryInfo>)

  /** The names are distinct and are exactly the dictionary's keys. */
  predicate ValidTable(t: Table) {
    && (forall i, j :: 0 <= i < j < |t.names| ==> t.names[i] != t.names[j])
    && t.entries.Keys == set n | n in t.names
  }

  const EmptyTable: Table := Table([], map[])

  /** `self.categories[name] = info`: a new name goes last, an existing name
      keeps its position. */
  function Put(t: Table, name: string, info: CategoryInfo): (r: Table)
    ensures r.entries == t.entries[name := info]
    ensures ValidTable(t) ==> ValidTable(r)
  {
    if name in t.entries then Table(t.names, t.entries[name := info])
    else Table(t.names + [name], t.entries[name := info])
  }

  /** The record of the first name, `list(self.categories.values())[0]`. */
  function First(t: Table): (r: Option<CategoryInfo>)
    requires ValidTable(t)
    ensures r.Some? <==> t.names != []
  {
    if t.names == [] then None else Some(t.entries[t.names[0]])
  }

  /** `key.replace('_', ' ').title()` */
  function ReadableName(key: string): string {
    TitleCase(ReplaceChar(key, '_', ' '))
  }

  /** The table used when the configuration cannot be read. */
  const BuiltInTable: Table := Table(
    ["Password Reset", "Software Installation"],
    map[
      "Password Reset" := CategoryInfo(PasswordReset,
        "User needs to reset or recover their password", "5 minutes", ["Multiple failed attempts"]),
      "Software Installation" := CategoryInfo(SoftwareInstallation,
        "User needs help installing or updating software", "15 minutes", ["Admin rights required"])])

  /** One turn of the loading loop: keys that are not a category value are
      skipped; a category object without one of its fields raises (`None`). */
  function LoadEntry(table: Table, key: string, raw: RawCategory): Option<Table> {
    match CategoryFromValue(key)
    case None => Some(table)
    case Some(category) =>
      if raw.description.None? || raw.typicalResolutionTime.None? || raw.escalationTriggers.None? then None
      else Some(Put(table, ReadableName(key), CategoryInfo(category,
        raw.description.value, raw.typicalResolutionTime.value, raw.escalationTriggers.value)))
  }

  /** The loading loop over the configuration's categories, in file order. */
  function LoadEntries(table: Table, entries: seq<(string, RawCategory)>): Option<Table>
    decreases |entries|
  {
    if entries == [] then Some(table)
    else
      match LoadEntries(table, entries[..|entries| - 1])
      case None => None
      case Some(t) => LoadEntry(t, entries[|entries| - 1].0, entries[|entries| - 1].1)
  }

  /** `_load_categories` on a table: `config` is `None` when the file cannot
      be read or has no `categories` object; any error yields the built-in table. */
  function LoadedTable(table: Table, config: Option<seq<(string, RawCategory)>>): Table {
    match config
    case None => BuiltInTable
    case Some(entries) =>
      match LoadEntries(table, entries)
      case None => BuiltInTable
      case Some(t) => t
  }

  /** Every name of the table is the readable form of its category's value. */
  predicate WellNamed(t: Table) {
    forall n :: n in t.entries ==> n == ReadableName(t.entries[n].category.Value())
  }

  lemma BuiltInValid()
    ensures ValidTable(BuiltInTable)
  {
    assert |"Password Reset"| != |"Software Installation"|;
  }

  lemma {:induction false} LoadEntriesWellNamed(t: Table, entries: seq<(string, RawCategory)>)
    requires ValidTable(t) && WellNamed(t)
    ensures LoadEntries(t, entries).Some? ==>
      ValidTable(LoadEntries(t, entries).value) && WellNamed(LoadEntries(t, entries).value)
    decreases |entries|
  {
    if entries != [] {
      LoadEntriesWellNamed(t, entries[..|entries| - 1]);
    }
  }

  /** Different categories have different readable names: each name is as
      long as its value, and the seven values differ in length. */
  lemma ReadableNameInjective(a: RequestCategory, b: RequestCategory)
    ensures ReadableName(a.Value()) == ReadableName(b.Value()) ==> a == b
  {
    ReadableNameShape(a);
    ReadableNameShape(b);
    if a != b {
      assert |a.Value()| != |b.Value()| by {
        match a
        case PasswordReset =>
        case SoftwareInstallation =>
        case HardwareFailure =>
        case NetworkConnectivity =>
        case EmailConfiguration =>
        case SecurityIncident =>
        case PolicyQuestion =>
      }
    }
  }

  /** No entry after the `i`-th repeats its key. */
  predicate LastOfKey(entries: seq<(string, RawCategory)>, i: nat)
    requires i < |entries|
  {
    forall j :: i < j < |entries| ==> entries[j].0 != entries[i].0
  }

  /** The record a configuration entry puts in the table holds its fields. */
  predicate HoldsFields(info: CategoryInfo, raw: RawCategory) {
    && Some(info.description) == raw.description
    && Some(info.typicalResolutionTime) == raw.typicalResolutionTime
    && Some(info.escalationTriggers) == raw.escalationTriggers
  }

  /** Every configuration key that is the value of a category `c` is in the
      loaded table, under its readable name and recording `c`; when no later
      entry repeats the key, the record holds that entry's fields. */
  lemma {:induction false} LoadEntriesKeepsConfigured(t: Table, entries: seq<(string, RawCategory)>, i: nat, c: RequestCategory)
    requires i < |entries| && LoadEntries(t, entries).Some?
    requires entries[i].0 == c.Value()
    ensures var r := LoadEntries(t, entries).value;
      && ReadableName(c.Value()) in r.entries
      && r.entries[ReadableName(c.Value())].category == c
      && (LastOfKey(entries, i) ==> HoldsFields(r.entries[ReadableName(c.Value())], entries[i].1))
    decreases |entries|
  {
    var n := |entries|;
    var prefix := entries[..n - 1];
    var prev := LoadEntriesStep(t, entries);
    var last := entries[n - 1];
    if i == n - 1 {
      LoadEntryAdds(prev, last.0, last.1, c);
    } else {
      assert prefix[i] == entries[i];
      LoadEntriesKeepsConfigured(t, prefix, i, c);
      LoadEntryKeepsName(prev, last.0, last.1, c);
      if LastOfKey(entries, i) {
        assert last.0 != entries[i].0;
        LastOfKeyPrefix(entries, i);
      }
    }
  }

  /** A successful load of `entries` is a successful load of all but the
      last entry followed by one turn on the last. */
  lemma LoadEntriesStep(t: Table, entries: seq<(string, RawCategory)>) returns (prev: Table)
    requires entries != [] && LoadEntries(t, entries).Some?
    ensures LoadEntries(t, entries[..|entries| - 1]) == Some(prev)
    ensures LoadEntries(t, entries) == LoadEntry(prev, entries[|entries| - 1].0, entries[|entries| - 1].1)
  {
    prev := LoadEntries(t, entries[..|entries| - 1]).value;
  }

  /** The value of a category `c` enters the table under its readable name,
      with `c` and the entry's fields. */
  lemma LoadEntryAdds(table: Table, key: string, raw: RawCategory, c: RequestCategory)
    requires LoadEntry(table, key, raw).Some? && key == c.Value()
    ensures var r := LoadEntry(table, key, raw).value;
      && ReadableName(key) in r.entries
      && r.entries[ReadableName(key)].category == c
      && HoldsFields(r.entries[ReadableName(key)], raw)
  {
    ValueInjective(CategoryFromValue(key).value, c);
  }

  lemma LastOfKeyPrefix(entries: seq<(string, RawCategory)>, i: nat)
    requires i < |entries| - 1 && LastOfKey(entries, i)
    ensures LastOfKey(entries[..|entries| - 1], i)
  {
    var prefix := entries[..|entries| - 1];
    forall j | i < j < |prefix| ensures prefix[j].0 != prefix[i].0 {
      assert prefix[j] == entries[j] && prefix[i] == entries[i];
    }
  }

  /** One turn of the loading loop keeps the category recorded under the
      readable name of `c`, and leaves that record alone unless the key is
      `c`'s value. */
  lemma LoadEntryKeepsName(table: Table, key: string, raw: RawCategory, c: RequestCategory)
    requires LoadEntry(table, key, raw).Some?
    requires ReadableName(c.Value()) in table.entries && table.entries[ReadableName(c.Value())].category == c
    ensures var name := ReadableName(c.Value()); var r := LoadEntry(table, key, raw).value;
      && name in r.entries && r.entries[name].category == c
      && (key != c.Value() ==> r.entries[name] == table.entries[name])
  {
    match CategoryFromValue(key)
    case None =>
    case Some(c') =>
      ReadableNameInjective(c, c');
  }

  /** Every name the loading adds to `t` is the readable name of a
      configuration key that is a category value, and records that category. */
  lemma {:induction false} LoadEntriesOnlyConfigured(t: Table, entries: seq<(string, RawCategory)>)
    requires LoadEntries(t, entries).Some?
    ensures var r := LoadEntries(t, entries).value;
      forall name :: name in r.entries ==>
        || (name in t.entries && r.entries[name] == t.entries[name])
        || (exists i :: 0 <= i < |entries| && entries[i].0 == r.entries[name].category.Value()
              && name == ReadableName(entries[i].0))
    decreases |entries|
  {
    if entries != [] {
      var n := |entries|;
      var prefix := entries[..n - 1];
      var prev := LoadEntries(t, prefix);
      assert prev.Some?;
      LoadEntriesOnlyConfigured(t, prefix);
      var last := entries[n - 1];
      var r := LoadEntries(t, entries).value;
      assert LoadEntries(t, entries) == LoadEntry(prev.value, last.0, last.1);
      forall name | name in r.entries
        ensures || (name in t.entries && r.entries[name] == t.entries[name])
                || (exists i :: 0 <= i < |entries| && entries[i].0 == r.entries[name].category.Value()
                      && name == ReadableName(entries[i].0))
      {
        if CategoryFromValue(last.0).Some? && name == ReadableName(last.0) {
          assert entries[n - 1].0 == r.entries[name].category.Value();
        } else {
          assert name in prev.value.entries && r.entries[name] == prev.value.entries[name];
          if !(name in t.entries && r.entries[name] == t.entries[name]) {
            var i :| 0 <= i < |prefix| && prefix[i].0 == prev.value.entries[name].category.Value()
              && name == ReadableName(prefix[i].0);
            assert prefix[i] == entries[i];
          }
        }
      }
    }
  }

  /** A table the classifier loads is the built-in one or a well-named one. */
  lemma LoadedTableShape(config: Option<seq<(string, RawCategory)>>)
    ensures ValidTable(LoadedTable(EmptyTable, config))
    ensures LoadedTable(EmptyTable, config) == BuiltInTable || WellNamed(LoadedTable(EmptyTable, config))
  {
    BuiltInValid();
    if config.Some? {
      LoadEntriesWellNamed(EmptyTable, config.value);
    }
  }

  /** What a configuration that loads puts in the table: the keys that are
      category values, each under its readable name with its category, and
      nothing else; a configuration that does not load gives the built-in table. */
  lemma LoadedTableContents(config: Option<seq<(string, RawCategory)>>)
    ensures config.None? || LoadEntries(EmptyTable, config.value).None? ==>
      LoadedTable(EmptyTable, config) == BuiltInTable
    ensures config.Some? && LoadEntries(EmptyTable, config.value).Some? ==>
      var table := LoadedTable(EmptyTable, config);
      && (forall i, c: RequestCategory :: 0 <= i < |config.value| && config.value[i].0 == c.Value() ==>
            ReadableName(c.Value()) in table.entries && table.entries[ReadableName(c.Value())].category == c)
      && (forall name :: name in table.entries ==>
            exists i :: 0 <= i < |config.value| && config.value[i].0 == table.entries[name].category.Value()
              && name == ReadableName(config.value[i].0))
  {
    if config.Some? && LoadEntries(EmptyTable, config.value).Some? {
      var entries := config.value;
      var table := LoadEntries(EmptyTable, entries).value;
      forall i, c: RequestCategory | 0 <= i < |entries| && entries[i].0 == c.Value()
        ensures ReadableName(c.Value()) in table.entries && table.entries[ReadableName(c.Value())].category == c
      {
        LoadEntriesKeepsConfigured(EmptyTable, entries, i, c);
      }
      LoadEntriesOnlyConfigured(EmptyTable, entries);
    }
  }

  /** A failing lookup stays failed as the loop reads further entries. */
  lemma {:induction false} LoadEntriesFailureSticks(t: Table, entries: seq<(string, RawCategory)>, i: nat)
    requires i <= |entries| && LoadEntries(t, entries[..i]) == None
    ensures LoadEntries(t, entries) == None
    decreases |entries| - i
  {
    if i < |entries| {
      assert entries[..i + 1][..i] == entries[..i];
      LoadEntriesFailureSticks(t, entries, i + 1);
    } else {
      assert entries[..i] == entries;
    }
  }

  // ---------------------------------------------------------------------------
  // Names of the tables the classifier can hold

  /** What the readable name of each category value looks like: its length,
      and the letters that tell it from the names of the keyword fallback. */
  lemma ReadableNameShape(c: RequestCategory)
    ensures var name := ReadableName(c.Value());
      && |name| == |c.Value()|
      && (|name| == 14 ==> c == PasswordReset && name[0] == 'P')
      && (|name| == 15 ==> name[0] == 'P')
      && (|name| == 16 ==> c == HardwareFailure && name[9] == 'F')
      && (|name| == 19 ==> c == EmailConfiguration)
      && (|name| == 21 ==> c == SoftwareInstallation)
  {
    var v := c.Value();
    match c
    case HardwareFailure =>
      assert v[8] == '_' && v[9] == 'f';
    case _ =>
  }

  /** The name the keyword fallback uses when no keyword matched. */
  const NoCategoryName: string := "General Inquiry"

  /** "Network Issues", "Hardware Support" and "General Inquiry" are never
      names of a table the classifier holds, and a table entry named like one
      of the other fallback categories records that category. */
  lemma LoadedNames(t: Table, name: string)
    requires t == BuiltInTable || WellNamed(t)
    requires name in t.entries
    ensures name != "Network Issues" && name != "Hardware Support" && name != NoCategoryName
    ensures name == "Password Reset" ==> t.entries[name].category == PasswordReset
    ensures name == "Software Installation" ==> t.entries[name].category == SoftwareInstallation
    ensures name == "Email Configuration" ==> t.entries[name].category == EmailConfiguration
  {
    assert |"Network Issues"| == 14 && "Network Issues"[0] == 'N';
    assert |"Hardware Support"| == 16 && "Hardware Support"[9] == 'S';
    assert |NoCategoryName| == 15 && NoCategoryName[0] == 'G';
    assert |"Password Reset"| == 14 && |"Software Installation"| == 21 && |"Email Configuration"| == 19;
    if t != BuiltInTable {
      ReadableNameShape(t.entries[name].category);
    }
  }

  // ---------------------------------------------------------------------------
  // `_fallback_keyword_classification`

  /** The keyword lists of the fallback, in mapping order. */
  const KeywordMapping: seq<(string, seq<string>)> := [
    ("Password Reset", ["password", "login", "forgot", "reset", "access", "account"]),
    ("Software Installation", ["install", "software", "program", "application", "app", "update"]),
    ("Network Issues", ["internet", "wifi", "network", "connection", "slow"]),
    ("Hardware Support", ["computer", "laptop", "mouse", "keyboard", "screen", "hardware"]),
    ("Email Configuration", ["email", "outlook", "mail", "smtp", "imap"])
  ]

  /** How many keywords of the list occur in the text. */
  function KeywordScore(text: string, keywords: seq<string>): (n: nat)
    ensures n <= |keywords|
    ensures n == 0 <==> forall i :: 0 <= i < |keywords| ==> !Contains(text, keywords[i])
    decreases |keywords|
  {
    if keywords == [] then 0
    else
      var n := |keywords| - 1;
      KeywordScore(text, keywords[..n]) + (if Contains(text, keywords[n]) then 1 else 0)
  }

  /** The score of the `k`-th mapping entry. */
  function EntryScore(text: string, k: nat): nat
    requires k < |KeywordMapping|
  {
    KeywordScore(text, KeywordMapping[k].1)
  }

  /** The best name and score after the first `n` mapping entries: only names
      of the table compete, and a later entry must score strictly higher. */
  function BestCategory(t: Table, text: string, n: nat): (string, nat)
    requires n <= |KeywordMapping|
  {
    if n == 0 then (NoCategoryName, 0)
    else
      var prev := BestCategory(t, text, n - 1);
      var name := KeywordMapping[n - 1].0;
      if name in t.entries && EntryScore(text, n - 1) > prev.1 then (name, EntryScore(text, n - 1))
      else prev
  }

  /** The best score is the largest score of any competing entry, it belongs to
      the earliest entry that reaches it, and a best score of 0 keeps
      "General Inquiry". */
  lemma {:induction false} BestCategoryIsEarliestMaximum(t: Table, text: string, n: nat)
    requires n <= |KeywordMapping|
    ensures var best := BestCategory(t, text, n);
      && (forall k :: 0 <= k < n && KeywordMapping[k].0 in t.entries ==> EntryScore(text, k) <= best.1)
      && (best.1 == 0 ==> best.0 == NoCategoryName)
      && (best.1 > 0 ==> exists w :: (0 <= w < n && KeywordMapping[w].0 in t.entries
            && best == (KeywordMapping[w].0, EntryScore(text, w))
            && forall k :: 0 <= k < w && KeywordMapping[k].0 in t.entries ==> EntryScore(text, k) < best.1))
  {
    if n > 0 {
      BestCategoryIsEarliestMaximum(t, text, n - 1);
    }
  }

  /** The fallback's confidence: a fifth per matched keyword, at most 0.9, and
      0.3 when nothing matched. */
  function FallbackConfidence(score: nat): (c: real)
    ensures 0.2 <= c <= 0.9
    ensures score == 0 ==> c == 0.3
    ensures 0 < score <= 4 ==> c == score as real * 0.2
    ensures score >= 5 ==> c == 0.9
  {
    if score > 0 then (if score as real * 0.2 < 0.9 then score as real * 0.2 else 0.9) else 0.3
  }

  function FallbackReasoning(score: nat): string {
    "Classified based on keyword matching (score: " + NatToString(score) + ")"
  }

  /** Python's message for indexing an empty list. */
  const IndexErrorMessage: string := "list index out of range"

  /** `_fallback_keyword_classification` as a value. */
  function FallbackClassification(t: Table, request: string): Result<ClassificationResult>
    requires ValidTable(t)
  {
    var best := BestCategory(t, Lower(request), |KeywordMapping|);
    var confidence := FallbackConfidence(best.1);
    var reasoning := FallbackReasoning(best.1);
    if best.0 in t.entries then Ok(ClassificationResult(t.entries[best.0].category, confidence, reasoning))
    else
      match First(t)
      case None => Err(IndexErrorMessage)
      case Some(info) => Ok(ClassificationResult(info.category, confidence, reasoning))
  }

  /** The fallback fails only on an empty table; otherwise it returns the
      category of a table entry with a confidence in [0.2, 0.9] and the score
      in its reasoning. */
  lemma FallbackOutcome(t: Table, request: string)
    requires ValidTable(t)
    ensures var r := FallbackClassification(t, request);
      && (r.Err? <==> t.names == [])
      && (r.Ok? ==> exists n :: n in t.entries && t.entries[n].category == r.value.category)
      && (r.Ok? ==> 0.2 <= r.value.confidence <= 0.9)
      && (r.Ok? ==> r.value.reasoning == FallbackReasoning(BestCategory(t, Lower(request), |KeywordMapping|).1))
  {
    var best := BestCategory(t, Lower(request), |KeywordMapping|);
    if best.0 in t.entries {
      assert best.0 in t.names;
    } else if t.names != [] {
      assert t.names[0] in t.entries;
    }
  }

  /** On a table the classifier holds, the fallback answers password reset,
      software installation, email configuration or the first entry's category. */
  lemma FallbackCategories(t: Table, request: string)
    requires ValidTable(t) && (t == BuiltInTable || WellNamed(t))
    ensures var r := FallbackClassification(t, request);
      r.Ok? ==> (|| r.value.category == PasswordReset || r.value.category == SoftwareInstallation
                 || r.value.category == EmailConfiguration || r.value.category == First(t).value.category)
  {
    var best := BestCategory(t, Lower(request), |KeywordMapping|);
    if best.0 in t.entries {
      LoadedNames(t, best.0);
      BestCategoryIsMappingName(t, Lower(request), |KeywordMapping|);
      assert KeywordMapping[2].0 == "Network Issues" && KeywordMapping[3].0 == "Hardware Support";
    }
  }

  /** The best name is "General Inquiry" or a name of the mapping. */
  lemma {:induction false} BestCategoryIsMappingName(t: Table, text: string, n: nat)
    requires n <= |KeywordMapping|
    ensures var name := BestCategory(t, text, n).0;
      || name == NoCategoryName || name == KeywordMapping[0].0 || name == KeywordMapping[1].0
      || name == KeywordMapping[2].0 || name == KeywordMapping[3].0 || name == KeywordMapping[4].0
  {
    if n > 0 {
      BestCategoryIsMappingName(t, text, n - 1);
    }
  }

  /** The scoring loop of `_fallback_keyword_classification`. */
  method BestKeywordCategory(t: Table, requestLower: string) returns (bestCategory: string, bestScore: nat)
    ensures (bestCategory, bestScore) == BestCategory(t, requestLower, |KeywordMapping|)
  {
    bestCategory := NoCategoryName;
    bestScore := 0;
    for i := 0 to |KeywordMapping|
      invariant (bestCategory, bestScore) == BestCategory(t, requestLower, i)
    {
      var category := KeywordMapping[i].0;
      if category in t.entries {
        var score := KeywordScore(requestLower, KeywordMapping[i].1);
        if score > bestScore {
          bestScore := score;
          bestCategory := category;
        }
      }
    }
  }

  /** `_fallback_keyword_classification`. */
  method FallbackKeywordClassification(t: Table, request: string) returns (r: Result<ClassificationResult>)
    requires ValidTable(t)
    ensures r == FallbackClassification(t, request)
  {
    var bestCategory, bestScore := BestKeywordCategory(t, Lower(request));
    var confidence := FallbackConfidence(bestScore);
    var reasoning := FallbackReasoning(bestScore);
    if bestCategory in t.entries {
      r := Ok(ClassificationResult(t.entries[bestCategory].category, confidence, reasoning));
    } else if t.names == [] {
      r := Err(IndexErrorMessage);
    } else {
      r := Ok(ClassificationResult(t.entries[t.names[0]].category, confidence, reasoning));
    }
  }

  // ---------------------------------------------------------------------------
  // Resolving the model's category name

  /** `category_name.lower() in predicted.lower() or predicted.lower() in category_name.lower()` */
  predicate CloseMatch(name: string, predicted: string) {
    Contains(Lower(predicted), Lower(name)) || Contains(Lower(name), Lower(predicted))
  }

  /** The first name, in table order, that closely matches the prediction. */
  function FirstCloseMatch(names: seq<string>, predicted: string): (r: Option<string>)
    ensures r.Some? ==> r.value in names && CloseMatch(r.value, predicted)
  {
    if names == [] then None
    else if CloseMatch(names[0], predicted) then Some(names[0])
    else FirstCloseMatch(names[1..], predicted)
  }

  /** The match found is the earliest one, and none is found only when no name
      matches. */
  lemma {:induction false} FirstCloseMatchIsFirst(names: seq<string>, predicted: string)
    ensures var r := FirstCloseMatch(names, predicted);
      && (r.Some? ==> exists i :: (0 <= i < |names| && names[i] == r.value
            && forall j :: 0 <= j < i ==> !CloseMatch(names[j], predicted)))
      && (r.None? <==> forall j :: 0 <= j < |names| ==> !CloseMatch(names[j], predicted))
  {
    if names != [] && !CloseMatch(names[0], predicted) {
      var tail := names[1..];
      FirstCloseMatchIsFirst(tail, predicted);
      var r := FirstCloseMatch(tail, predicted);
      if r.Some? {
        var i :| 0 <= i < |tail| && tail[i] == r.value
          && forall j :: 0 <= j < i ==> !CloseMatch(tail[j], predicted);
        assert names[i + 1] == r.value;
        forall j | 0 <= j < i + 1 ensures !CloseMatch(names[j], predicted) {
          if j > 0 { assert names[j] == tail[j - 1]; }
        }
      } else {
        forall j | 0 <= j < |names| ensures !CloseMatch(names[j], predicted) {
          if j > 0 { assert names[j] == tail[j - 1]; }
        }
      }
    }
  }

  /** The validation of the prediction: an exact name is kept, otherwise the
      first close match is taken, otherwise the first name; an empty table
      raises the `IndexError` of `list(...)[0]`. */
  function ResolveName(t: Table, predicted: string): Result<string> {
    if predicted in t.entries then Ok(predicted)
    else
      match FirstCloseMatch(t.names, predicted)
      case Some(name) => Ok(name)
      case None => if t.names == [] then Err(IndexErrorMessage) else Ok(t.names[0])
  }

  /** The resolved name is a name of the table, and resolution fails exactly
      when the table is empty. */
  lemma ResolveNameInTable(t: Table, predicted: string)
    requires ValidTable(t)
    ensures ResolveName(t, predicted).Ok? <==> t.names != []
    ensures ResolveName(t, predicted).Ok? ==> ResolveName(t, predicted).value in t.entries
  {
    if predicted in t.entries {
      assert predicted in t.names;
    } else if t.names != [] {
      assert t.names[0] in t.entries;
    }
  }

  /** Which name is chosen: the prediction itself when it is a name, else the
      first closely matching name, else the first name. */
  lemma ResolveNameChoice(t: Table, predicted: string)
    requires ValidTable(t) && t.names != []
    ensures predicted in t.entries ==> ResolveName(t, predicted) == Ok(predicted)
    ensures predicted !in t.entries && (exists i :: 0 <= i < |t.names| && CloseMatch(t.names[i], predicted)) ==>
      exists i :: 0 <= i < |t.names| && ResolveName(t, predicted) == Ok(t.names[i])
        && CloseMatch(t.names[i], predicted) && forall j :: 0 <= j < i ==> !CloseMatch(t.names[j], predicted)
    ensures predicted !in t.entries && (forall i :: 0 <= i < |t.names| ==> !CloseMatch(t.names[i], predicted)) ==>
      ResolveName(t, predicted) == Ok(t.names[0])
  {
    FirstCloseMatchIsFirst(t.names, predicted);
  }

  /** An empty reply is contained in every name, so it resolves to the first one. */
  lemma ResolveEmptyPrediction(t: Table)
    requires ValidTable(t) && t.names != [] && "" !in t.entries
    ensures ResolveName(t, "") == Ok(t.names[0])
  {
    ContainsEmpty(Lower(t.names[0]));
    assert Lower("") == "";
  }

  /** The for-else loop that validates the prediction. */
  method ResolveCategory(t: Table, predicted: string) returns (r: Result<string>)
    ensures r == ResolveName(t, predicted)
  {
    if predicted in t.entries {
      return Ok(predicted);
    }
    var i := 0;
    while i < |t.names|
      invariant 0 <= i <= |t.names|
      invariant FirstCloseMatch(t.names, predicted) == FirstCloseMatch(t.names[i..], predicted)
    {
      if CloseMatch(t.names[i], predicted) {
        return Ok(t.names[i]);
      }
      assert t.names[i..][1..] == t.names[i + 1..];
      i := i + 1;
    }
    if t.names == [] {
      r := Err(IndexErrorMessage);
    } else {
      r := Ok(t.names[0]);
    }
  }

  // ---------------------------------------------------------------------------
  // Confidence

  /** `max(0.0, min(1.0, c))` */
  function Clamp(c: real): (r: real)
    ensures 0.0 <= r <= 1.0
    ensures 0.0 <= c <= 1.0 ==> r == c
    ensures c < 0.0 ==> r == 0.0
    ensures c > 1.0 ==> r == 1.0
  {
    var m := if c < 1.0 then c else 1.0;
    if m > 0.0 then m else 0.0
  }

  /** The default confidence when the reply is not a number. */
  const DefaultConfidence: real := 0.8

  /** `float(reply.strip())` clamped to [0, 1], or 0.8 when the reply does not
      parse; `parseFloat` stands for Python's `float` on finite values. */
  function ParseConfidence(reply: string, parseFloat: string -> Option<real>): (r: real)
    ensures 0.0 <= r <= 1.0
    ensures parseFloat(Strip(reply)).None? ==> r == DefaultConfidence
    ensures parseFloat(Strip(reply)).Some? ==> r == Clamp(parseFloat(Strip(reply)).value)
  {
    match parseFloat(Strip(reply))
    case None => DefaultConfidence
    case Some(c) => Clamp(c)
  }

  // ---------------------------------------------------------------------------
  // `classify`

  /** The model's three replies, in the order they are asked for: the category
      name, the confidence and the reasoning; `None` when the call raises. */
  datatype ClassifierReplies = ClassifierReplies(
    category: Option<string>,
    confidence: Option<string>,
    reasoning: Option<string>)

  /** `classify` as a value: any raised error falls back to keyword matching. */
  function Classification(t: Table, request: string, replies: ClassifierReplies,
                          parseFloat: string -> Option<real>): Result<ClassificationResult>
    requires ValidTable(t)
  {
    var category := Response.GeneratedText(replies.category);
    var confidence := Response.GeneratedText(replies.confidence);
    var reasoning := Response.GeneratedText(replies.reasoning);
    if category.None? then FallbackClassification(t, request)
    else
      match ResolveName(t, Strip(category.value))
      case Err(_) => FallbackClassification(t, request)
      case Ok(name) =>
        if confidence.None? || reasoning.None? then FallbackClassification(t, request)
        else Ok(ClassificationResult(t.entries[name].category,
          ParseConfidence(confidence.value, parseFloat), Strip(reasoning.value)))
  }

  /** A failed model call or an empty table leads to the keyword fallback. */
  lemma ClassificationFallsBack(t: Table, request: string, replies: ClassifierReplies,
                                parseFloat: string -> Option<real>)
    requires ValidTable(t)
    requires replies.category.None? || replies.confidence.None? || replies.reasoning.None? || t.names == []
    ensures Classification(t, request, replies, parseFloat) == FallbackClassification(t, request)
  {
    var category := Response.GeneratedText(replies.category);
    if category.Some? {
      ResolveNameInTable(t, Strip(category.value));
    }
  }

  /** When every call succeeds on a non-empty table, the category is that of the
      resolved name, the confidence is the clamped reply and the reasoning is
      the cleaned reply; the classification fails only on an empty table. */
  lemma ClassificationOutcome(t: Table, request: string, replies: ClassifierReplies,
                              parseFloat: string -> Option<real>)
    requires ValidTable(t)
    ensures var r := Classification(t, request, replies, parseFloat);
      && (r.Err? <==> t.names == [])
      && (r.Ok? ==> exists n :: n in t.entries && t.entries[n].category == r.value.category)
      && (r.Ok? ==> 0.0 <= r.value.confidence <= 1.0)
    ensures replies.category.Some? && replies.confidence.Some? && replies.reasoning.Some? && t.names != [] ==>
      var r := Classification(t, request, replies, parseFloat);
      var name := ResolveName(t, Strip(Response.GeneratedText(replies.category).value));
      && name.Ok? && name.value in t.entries
      && r == Ok(ClassificationResult(t.entries[name.value].category,
           ParseConfidence(Response.GeneratedText(replies.confidence).value, parseFloat),
           Response.GeneratedText(replies.reasoning).value))
  {
    FallbackOutcome(t, request);
    var category := Response.GeneratedText(replies.category);
    if category.Some? {
      ResolveNameInTable(t, Strip(category.value));
    }
    var reasoning := Response.GeneratedText(replies.reasoning);
    if reasoning.Some? {
      StripOfStripped(reasoning.value);
    }
  }

  /** The enumeration search of the loading loop, which stops at the first
      member whose value is the key. */
  method FindEnumValue(key: string) returns (r: Option<RequestCategory>)
    ensures r == CategoryFromValue(key)
  {
    r := None;
    var i := 0;
    while i < |AllCategories|
      invariant 0 <= i <= |AllCategories|
      invariant forall j :: 0 <= j < i ==> AllCategories[j].Value() != key
    {
      if AllCategories[i].Value() == key {
        r := Some(AllCategories[i]);
        ValueInjective(AllCategories[i], CategoryFromValue(key).value);
        return;
      }
      i := i + 1;
    }
    AllCategoriesComplete();
  }

  /** The classifier object: its category table. */
  class RequestClassifier {
    var categories: Table

    /** Builds the table from the configuration; `config` is `None` when the
        file cannot be read or parsed, or has no `categories` object. */
    constructor(config: Option<seq<(string, RawCategory)>>)
      ensures categories == LoadedTable(EmptyTable, config)
      ensures ValidTable(categories)
    {
      categories := EmptyTable;
      new;
      LoadCategories(config);
      LoadedTableShape(config);
    }

    /** `_load_categories`: entries are added to the table one by one; a
        missing field replaces the whole table by the built-in one. */
    method LoadCategories(config: Option<seq<(string, RawCategory)>>)
      modifies this
      ensures categories == LoadedTable(old(categories), config)
    {
      if config.None? {
        categories := BuiltInTable;
        return;
      }
      var entries := config.value;
      var i := 0;
      while i < |entries|
        invariant 0 <= i <= |entries|
        invariant LoadEntries(old(categories), entries[..i]) == Some(categories)
      {
        assert entries[..i + 1][..i] == entries[..i];
        var (key, raw) := entries[i];
        assert LoadEntries(old(categories), entries[..i + 1]) == LoadEntry(categories, key, raw);
        var enumValue := FindEnumValue(key);
        if enumValue.Some? {
          if raw.description.None? || raw.typicalResolutionTime.None? || raw.escalationTriggers.None? {
            LoadEntriesFailureSticks(old(categories), entries, i + 1);
            categories := BuiltInTable;
            return;
          }
          categories := Put(categories, ReadableName(key), CategoryInfo(enumValue.value,
            raw.description.value, raw.typicalResolutionTime.value, raw.escalationTriggers.value));
        }
        i := i + 1;
      }
      assert entries[..i] == entries;
    }

    /** `classify`: the three model calls, the validation of the category
        name, the confidence parse and, on any failure, the keyword fallback. */
    method Classify(request: string, replies: ClassifierReplies, parseFloat: string -> Option<real>)
      returns (r: Result<ClassificationResult>)
      requires ValidTable(categories)
      ensures r == Classification(categories, request, replies, parseFloat)
    {
      var response := Response.GeneratedText(replies.category);
      if response.None? {
        r := FallbackKeywordClassification(categories, request);
        return;
      }
      var predicted := ResolveCategory(categories, Strip(response.value));
      if predicted.Err? {
        r := FallbackKeywordClassification(categories, request);
        return;
      }
      var confidenceResponse := Response.GeneratedText(replies.confidence);
      if confidenceResponse.None? {
        r := FallbackKeywordClassification(categories, request);
        return;
      }
      var confidence := ParseConfidence(confidenceResponse.value, parseFloat);
      var reasoning := Response.GeneratedText(replies.reasoning);
      if reasoning.None? {
        r := FallbackKeywordClassification(categories, request);
        return;
      }
      ResolveNameInTable(categories, Strip(response.value));
      r := Ok(ClassificationResult(categories.entries[predicted.value].category, confidence, Strip(reasoning.value)));
    }
  }
}


