/** The rule-based escalation engine: six ordered rules over the request text,
    its category and the classification confidence accumulate reasons and raise
    the urgency level. */
module Escalation {
  import opened Wrappers
  import opened Strings
  import opened Models
  import Config

  /** Connectors that suggest one request holds several issues. */
  const MultipleIssueIndicators: seq<string> := [
    "and also", "in addition", "furthermore", "moreover",
    "another issue", "also", "plus", "as well as"
  ]

  /** Words that suggest business impact, in the order they are tried. */
  const BusinessImpactKeywords: seq<string> := [
    "presentation", "meeting", "deadline", "client", "customer",
    "revenue", "business critical", "production", "server"
  ]

  const NoEscalationReason: string := "Request can be handled through automated response"

  const MultipleIssuesReason: string := "Multiple issues detected in single request"

  /** The categories that are always critical. */
  predicate IsHighPriority(category: RequestCategory) {
    category == SecurityIncident || category == HardwareFailure
  }

  // ---------------------------------------------------------------------------
  // The rule table

  /** `rules.get(category.value, [])` */
  function TriggersFor(rules: map<string, seq<string>>, category: RequestCategory): seq<string> {
    if category.Value() in rules then rules[category.Value()] else []
  }

  /** The engine holds the escalation triggers of each configured category. */
  class EscalationEngine {
    var rules: map<string, seq<string>>

    /** `config` is the `categories` object of the configuration, `None` when the
        file is missing; each category maps to its `escalation_triggers`, if any. */
    constructor (config: Option<map<string, Option<seq<string>>>>)
      ensures forall c :: c in rules <==> config.Some? && c in config.value
      ensures forall c :: c in rules ==> rules[c] == config.value[c].GetOr([])
    {
      var categories := if config.Some? then config.value else map[];
      var pending := categories.Keys;
      var table: map<string, seq<string>> := map[];
      while pending != {}
        invariant pending <= categories.Keys
        invariant table.Keys == categories.Keys - pending
        invariant forall c :: c in table ==> table[c] == categories[c].GetOr([])
        decreases pending
      {
        var c :| c in pending;
        table := table[c := categories[c].GetOr([])];
        pending := pending - {c};
      }
      rules := table;
    }

    /** `should_escalate`, run against the engine's rule table. */
    method Evaluate(request: string, category: RequestCategory, confidence: real,
                    formatConfidence: real -> string) returns (d: EscalationDecision)
      ensures d == Decide(rules, request, category, confidence, formatConfidence)
    {
      d := ShouldEscalate(rules, request, category, confidence, formatConfidence);
    }
  }

  // ---------------------------------------------------------------------------
  // Matching helpers

  /** Every trigger word is a substring of some request word. */
  predicate AllWordsFound(triggerWords: seq<string>, requestWords: seq<string>) {
    forall i :: 0 <= i < |triggerWords| ==>
      exists j :: 0 <= j < |requestWords| && Contains(requestWords[j], triggerWords[i])
  }

  /** `_matches_trigger`: a case-insensitive substring match, or a word-level match. */
  predicate MatchesTrigger(request: string, trigger: string) {
    var r := Lower(request);
    var t := Lower(trigger);
    Contains(r, t) || AllWordsFound(Words(t), Words(r))
  }

  lemma EmptyTriggerMatches(request: string)
    ensures MatchesTrigger(request, "")
  {
    ContainsEmpty(Lower(request));
  }

  /** Matching ignores the case of both the request and the trigger. */
  lemma MatchesTriggerIgnoresCase(request: string, trigger: string)
    ensures MatchesTrigger(Lower(request), trigger) == MatchesTrigger(request, trigger)
    ensures MatchesTrigger(request, Lower(trigger)) == MatchesTrigger(request, trigger)
  {
    LowerIdempotent(request);
    LowerIdempotent(trigger);
  }

  /** The triggers that match, in order. */
  function MatchingTriggers(request: string, triggers: seq<string>): seq<string>
    decreases |triggers|
  {
    if triggers == [] then []
    else
      var last := triggers[|triggers| - 1];
      MatchingTriggers(request, triggers[..|triggers| - 1])
        + (if MatchesTrigger(request, last) then [last] else [])
  }

  /** The matching triggers are exactly the triggers that match. */
  lemma {:induction false} MatchingTriggersMembers(request: string, triggers: seq<string>)
    ensures forall t :: t in MatchingTriggers(request, triggers) <==> t in triggers && MatchesTrigger(request, t)
    decreases |triggers|
  {
    if triggers != [] {
      var last := triggers[|triggers| - 1];
      assert triggers == triggers[..|triggers| - 1] + [last];
      MatchingTriggersMembers(request, triggers[..|triggers| - 1]);
    }
  }

  /** The keywords, in list order, whose lower-cased form occurs in `text`. */
  function FoundKeywords(text: string, keywords: seq<string>): (found: seq<string>)
    ensures forall k :: k in found <==> k in keywords && Contains(text, Lower(k))
    ensures |found| <= |keywords|
    decreases |keywords|
  {
    if keywords == [] then []
    else
      var last := keywords[|keywords| - 1];
      assert keywords == keywords[..|keywords| - 1] + [last];
      FoundKeywords(text, keywords[..|keywords| - 1])
        + (if Contains(text, Lower(last)) then [last] else [])
  }

  /** Found keywords keep the order of the list they come from. */
  lemma {:induction false} FoundKeywordsInOrder(text: string, keywords: seq<string>, i: nat, j: nat)
    requires i < j < |FoundKeywords(text, keywords)|
    ensures exists p, q :: (0 <= p < q < |keywords|
      && keywords[p] == FoundKeywords(text, keywords)[i]
      && keywords[q] == FoundKeywords(text, keywords)[j])
    decreases |keywords|
  {
    var n := |keywords|;
    var front := keywords[..n - 1];
    var found := FoundKeywords(text, keywords);
    var prior := FoundKeywords(text, front);
    assert found == prior + (if Contains(text, Lower(keywords[n - 1])) then [keywords[n - 1]] else []);
    if j < |prior| {
      FoundKeywordsInOrder(text, front, i, j);
      var p, q :| 0 <= p < q < |front| && front[p] == prior[i] && front[q] == prior[j];
      assert keywords[p] == found[i] && keywords[q] == found[j];
    } else {
      assert found[j] == keywords[n - 1];
      assert found[i] in front by { assert found[i] == prior[i]; }
      var p :| 0 <= p < |front| && front[p] == found[i];
      assert keywords[p] == found[i];
    }
  }

  predicate NoDuplicates(xs: seq<string>) {
    forall i, j :: 0 <= i < j < |xs| ==> xs[i] != xs[j]
  }

  /** A list without repetitions yields found keywords without repetitions. */
  lemma FoundKeywordsOnce(text: string, keywords: seq<string>)
    requires NoDuplicates(keywords)
    ensures NoDuplicates(FoundKeywords(text, keywords))
  {
    var found := FoundKeywords(text, keywords);
    forall i, j | 0 <= i < j < |found| ensures found[i] != found[j] {
      FoundKeywordsInOrder(text, keywords, i, j);
    }
  }

  /** `_check_urgent_keywords` as a value. */
  function UrgentKeywordsFound(request: string): seq<string> {
    FoundKeywords(Lower(request), Config.EscalationKeywords)
  }

  /** Each configured urgent keyword found is reported once, in configuration order. */
  lemma UrgentKeywordsOnceInOrder(request: string, i: nat, j: nat)
    requires i < j < |UrgentKeywordsFound(request)|
    ensures UrgentKeywordsFound(request)[i] != UrgentKeywordsFound(request)[j]
    ensures exists p, q :: (0 <= p < q < |Config.EscalationKeywords|
      && Config.EscalationKeywords[p] == UrgentKeywordsFound(request)[i]
      && Config.EscalationKeywords[q] == UrgentKeywordsFound(request)[j])
  {
    assert NoDuplicates(Config.EscalationKeywords);
    FoundKeywordsOnce(Lower(request), Config.EscalationKeywords);
    FoundKeywordsInOrder(Lower(request), Config.EscalationKeywords, i, j);
  }

  /** `_check_urgent_keywords`: the configured urgent keywords found in the request. */
  method CheckUrgentKeywords(request: string) returns (found: seq<string>)
    ensures found == UrgentKeywordsFound(request)
    ensures forall k :: k in found <==> k in Config.EscalationKeywords && Contains(Lower(request), Lower(k))
  {
    found := [];
    var requestLower := Lower(request);
    var keywords := Config.EscalationKeywords;
    for i := 0 to |keywords|
      invariant found == FoundKeywords(requestLower, keywords[..i])
    {
      var keyword := keywords[i];
      assert keywords[..i + 1][..i] == keywords[..i];
      if Contains(requestLower, Lower(keyword)) {
        found := found + [keyword];
      }
    }
    assert keywords[..|keywords|] == keywords;
  }

  /** `_contains_multiple_issues` */
  predicate ContainsMultipleIssues(request: string) {
    exists i :: 0 <= i < |MultipleIssueIndicators| && Contains(Lower(request), MultipleIssueIndicators[i])
  }

  /** "and also" is subsumed by "also": the check is equivalent to the other seven. */
  lemma MultipleIssuesWithoutAndAlso(request: string)
    ensures ContainsMultipleIssues(request) <==>
      exists i :: 1 <= i < |MultipleIssueIndicators| && Contains(Lower(request), MultipleIssueIndicators[i])
  {
    var l := Lower(request);
    if Contains(l, MultipleIssueIndicators[0]) {
      assert "and also"[4..8] == "also";
      ContainsAt("and also", "also", 4);
      ContainsTrans(l, "and also", "also");
      assert Contains(l, MultipleIssueIndicators[5]);
    }
  }

  /** The first position, from `i` on, whose lower-cased keyword occurs in `text`. */
  function FirstFoundFrom(text: string, keywords: seq<string>, i: nat): (r: Option<nat>)
    requires i <= |keywords|
    ensures r.Some? ==> i <= r.value < |keywords| && Contains(text, Lower(keywords[r.value]))
    ensures r.Some? ==> forall p :: i <= p < r.value ==> !Contains(text, Lower(keywords[p]))
    ensures r.None? ==> forall p :: i <= p < |keywords| ==> !Contains(text, Lower(keywords[p]))
    decreases |keywords| - i
  {
    if i == |keywords| then None
    else if Contains(text, Lower(keywords[i])) then Some(i)
    else FirstFoundFrom(text, keywords, i + 1)
  }

  /** The business-impact keyword that is reported: only the first, in list order. */
  function FirstBusinessKeyword(request: string): (r: Option<string>)
    ensures r.Some? ==> r.value in BusinessImpactKeywords
  {
    match FirstFoundFrom(Lower(request), BusinessImpactKeywords, 0)
    case None => None
    case Some(p) => Some(BusinessImpactKeywords[p])
  }

  /** A request mentioning "meeting" never reports "client", even if it mentions both. */
  lemma MeetingReportedBeforeClient(request: string)
    requires Contains(Lower(request), Lower("meeting"))
    ensures FirstBusinessKeyword(request).Some?
    ensures FirstBusinessKeyword(request) != Some("client")
  {
    var r := FirstFoundFrom(Lower(request), BusinessImpactKeywords, 0);
    assert BusinessImpactKeywords[1] == "meeting";
    assert r.Some? && r.value <= 1;
    assert BusinessImpactKeywords[r.value][0] == 'p' || BusinessImpactKeywords[r.value][0] == 'm';
  }

  // ---------------------------------------------------------------------------
  // The rules, one step at a time

  /** What the six rules observe about one request. */
  datatype Findings = Findings(
    triggers: seq<string>,             // matching category triggers, in order
    urgentKeywords: seq<string>,       // urgent keywords found, in configuration order
    lowConfidence: Option<string>,     // the formatted confidence, when below the threshold
    highPriority: Option<string>,      // the category value, when security or hardware
    multipleIssues: bool,
    businessKeyword: Option<string>)   // the first business-impact keyword found

  function Observe(rules: map<string, seq<string>>, request: string, category: RequestCategory,
                   confidence: real, formatConfidence: real -> string): Findings
  {
    Findings(
      MatchingTriggers(request, TriggersFor(rules, category)),
      UrgentKeywordsFound(request),
      if confidence < Config.ClassificationConfidenceThreshold then Some(formatConfidence(confidence)) else None,
      if IsHighPriority(category) then Some(category.Value()) else None,
      ContainsMultipleIssues(request),
      FirstBusinessKeyword(request))
  }

  /** The reasons collected so far and the current urgency level. */
  datatype Verdict = Verdict(reasons: seq<string>, urgency: Urgency)

  /** Rule 1: each matching category trigger adds a reason and sets the urgency to high. */
  function TriggerRule(matched: seq<string>, v: Verdict): Verdict {
    if matched != [] then Verdict(v.reasons + Prefixed("Category trigger: ", matched), High) else v
  }

  /** Rule 2: urgent keywords add one reason each and set the urgency to critical. */
  function UrgentRule(found: seq<string>, v: Verdict): Verdict {
    if found != [] then Verdict(v.reasons + Prefixed("Urgent keyword: ", found), Critical) else v
  }

  /** Rule 3: a low confidence adds a reason and leaves the urgency. */
  function ConfidenceRule(lowConfidence: Option<string>, v: Verdict): Verdict {
    match lowConfidence
    case Some(c) => Verdict(v.reasons + ["Low classification confidence: " + c], v.urgency)
    case None => v
  }

  /** Rule 4: a high-priority category adds a reason and sets the urgency to critical. */
  function PriorityRule(highPriority: Option<string>, v: Verdict): Verdict {
    match highPriority
    case Some(c) => Verdict(v.reasons + ["High-priority category: " + c], Critical)
    case None => v
  }

  /** Rule 5: several issues add a reason and leave the urgency. */
  function MultipleIssuesRule(multipleIssues: bool, v: Verdict): Verdict {
    if multipleIssues then Verdict(v.reasons + [MultipleIssuesReason], v.urgency) else v
  }

  /** Rule 6: a business-impact keyword adds a reason and lifts a normal urgency to high. */
  function BusinessImpactRule(businessKeyword: Option<string>, v: Verdict): Verdict {
    match businessKeyword
    case Some(k) =>
      Verdict(v.reasons + ["Business impact indicator: " + k], if v.urgency == Normal then High else v.urgency)
    case None => v
  }

  /** The six rules applied in the order they run. */
  function FinalVerdict(f: Findings): Verdict {
    BusinessImpactRule(f.businessKeyword, MultipleIssuesRule(f.multipleIssues,
      PriorityRule(f.highPriority, ConfidenceRule(f.lowConfidence,
      UrgentRule(f.urgentKeywords, TriggerRule(f.triggers, Verdict([], Normal)))))))
  }

  /** The verdict before any rule and after each of the six rules, in the order they run. */
  function Trace(f: Findings): seq<Verdict> {
    var s0 := Verdict([], Normal);
    var s1 := TriggerRule(f.triggers, s0);
    var s2 := UrgentRule(f.urgentKeywords, s1);
    var s3 := ConfidenceRule(f.lowConfidence, s2);
    var s4 := PriorityRule(f.highPriority, s3);
    var s5 := MultipleIssuesRule(f.multipleIssues, s4);
    var s6 := BusinessImpactRule(f.businessKeyword, s5);
    [s0, s1, s2, s3, s4, s5, s6]
  }

  /** The decision built from the final verdict. */
  function Finish(v: Verdict): EscalationDecision {
    if |v.reasons| > 0 then EscalationDecision(true, Join("; ", v.reasons), v.urgency)
    else EscalationDecision(false, NoEscalationReason, v.urgency)
  }

  /** `should_escalate` as a value. */
  function Decide(rules: map<string, seq<string>>, request: string, category: RequestCategory,
                  confidence: real, formatConfidence: real -> string): EscalationDecision
  {
    Finish(FinalVerdict(Observe(rules, request, category, confidence, formatConfidence)))
  }

  // ---------------------------------------------------------------------------
  // What the rules amount to

  /** The reasons each rule adds, given the findings. */
  function RuleReasons(f: Findings, rule: nat): seq<string>
    requires 1 <= rule <= 6
  {
    match rule
    case 1 => Prefixed("Category trigger: ", f.triggers)
    case 2 => Prefixed("Urgent keyword: ", f.urgentKeywords)
    case 3 => (match f.lowConfidence case Some(c) => ["Low classification confidence: " + c] case None => [])
    case 4 => (match f.highPriority case Some(c) => ["High-priority category: " + c] case None => [])
    case 5 => (if f.multipleIssues then [MultipleIssuesReason] else [])
    case 6 => (match f.businessKeyword case Some(k) => ["Business impact indicator: " + k] case None => [])
  }

  /** Every reason the findings call for, in rule order. */
  function ReasonList(f: Findings): seq<string> {
    RuleReasons(f, 1) + RuleReasons(f, 2) + RuleReasons(f, 3)
    + RuleReasons(f, 4) + RuleReasons(f, 5) + RuleReasons(f, 6)
  }

  /** The urgency the findings call for: the most severe rule wins. */
  function UrgencyOf(f: Findings): Urgency {
    if f.urgentKeywords != [] || f.highPriority.Some? then Critical
    else if f.triggers != [] || f.businessKeyword.Some? then High
    else Normal
  }

  /** `w` keeps every reason of `v`, in place, and is at least as urgent. */
  predicate Extends(v: Verdict, w: Verdict) {
    v.urgency.Rank() <= w.urgency.Rank() && v.reasons <= w.reasons
  }

  /** Steps that each extend the previous verdict extend every earlier one. */
  lemma {:induction false} ExtendsChain(t: seq<Verdict>, i: nat, j: nat)
    requires forall k :: 0 <= k < |t| - 1 ==> Extends(t[k], t[k + 1])
    requires i <= j < |t|
    ensures Extends(t[i], t[j])
    decreases j - i
  {
    if i < j {
      ExtendsChain(t, i + 1, j);
    }
  }

  /** Urgency never decreases from one rule to the next, and reasons are only appended. */
  lemma UrgencyNeverDecreases(f: Findings)
    ensures forall i, j :: 0 <= i <= j < |Trace(f)| ==> Extends(Trace(f)[i], Trace(f)[j])
  {
    var t := Trace(f);
    assert Extends(t[0], t[1]) && Extends(t[1], t[2]) && Extends(t[2], t[3]);
    assert Extends(t[3], t[4]) && Extends(t[4], t[5]) && Extends(t[5], t[6]);
    forall i, j | 0 <= i <= j < |t| ensures Extends(t[i], t[j]) {
      ExtendsChain(t, i, j);
    }
  }

  /** The final verdict holds exactly the reasons and the urgency the findings call for. */
  lemma TraceOutcome(f: Findings)
    ensures Trace(f)[6] == FinalVerdict(f)
    ensures FinalVerdict(f) == Verdict(ReasonList(f), UrgencyOf(f))
  {
    var t := Trace(f);
    assert t[1].reasons == RuleReasons(f, 1);
    assert t[2].reasons == t[1].reasons + RuleReasons(f, 2);
    assert t[3].reasons == t[2].reasons + RuleReasons(f, 3);
    assert t[4].reasons == t[3].reasons + RuleReasons(f, 4);
    assert t[5].reasons == t[4].reasons + RuleReasons(f, 5);
    assert t[6].reasons == t[5].reasons + RuleReasons(f, 6);
  }

  /** The reasons and urgency of a request, stated without the rule steps. */
  lemma DecideOutcome(rules: map<string, seq<string>>, request: string, category: RequestCategory,
                      confidence: real, formatConfidence: real -> string)
    ensures var d := Decide(rules, request, category, confidence, formatConfidence);
      var f := Observe(rules, request, category, confidence, formatConfidence);
      && (d.shouldEscalate <==> ReasonList(f) != [])
      && d.reason == (if ReasonList(f) != [] then Join("; ", ReasonList(f)) else NoEscalationReason)
      && d.urgencyLevel == UrgencyOf(f)
  {
    TraceOutcome(Observe(rules, request, category, confidence, formatConfidence));
  }

  /** Critical iff an urgent keyword occurs or the category is security or hardware. */
  lemma CriticalIff(rules: map<string, seq<string>>, request: string, category: RequestCategory,
                    confidence: real, formatConfidence: real -> string)
    ensures Decide(rules, request, category, confidence, formatConfidence).urgencyLevel == Critical
      <==> UrgentKeywordsFound(request) != [] || IsHighPriority(category)
  {
    DecideOutcome(rules, request, category, confidence, formatConfidence);
  }

  /** High iff not critical and a category trigger or a business-impact keyword matched. */
  lemma HighIff(rules: map<string, seq<string>>, request: string, category: RequestCategory,
                confidence: real, formatConfidence: real -> string)
    ensures Decide(rules, request, category, confidence, formatConfidence).urgencyLevel == High
      <==> !(UrgentKeywordsFound(request) != [] || IsHighPriority(category))
           && ((exists t :: t in TriggersFor(rules, category) && MatchesTrigger(request, t))
               || FirstBusinessKeyword(request).Some?)
  {
    DecideOutcome(rules, request, category, confidence, formatConfidence);
    var m := MatchingTriggers(request, TriggersFor(rules, category));
    MatchingTriggersMembers(request, TriggersFor(rules, category));
    assert m != [] <==> exists t :: t in TriggersFor(rules, category) && MatchesTrigger(request, t) by {
      if m != [] { assert m[0] in m; }
    }
  }

  /** Any urgency above normal comes with an escalation. */
  lemma RaisedUrgencyEscalates(rules: map<string, seq<string>>, request: string, category: RequestCategory,
                               confidence: real, formatConfidence: real -> string)
    ensures Decide(rules, request, category, confidence, formatConfidence).urgencyLevel != Normal
      ==> Decide(rules, request, category, confidence, formatConfidence).shouldEscalate
  {
    DecideOutcome(rules, request, category, confidence, formatConfidence);
  }

  /** The confidence decides only the low-confidence reason: it never changes the
      urgency, a confidence strictly below 0.8 always escalates, and any two
      confidences at or above 0.8 give the same decision. */
  lemma ConfidenceOnlyAddsReason(rules: map<string, seq<string>>, request: string, category: RequestCategory,
                                 c1: real, c2: real, f1: real -> string, f2: real -> string)
    ensures Decide(rules, request, category, c1, f1).urgencyLevel == Decide(rules, request, category, c2, f2).urgencyLevel
    ensures c1 < 0.8 ==> Decide(rules, request, category, c1, f1).shouldEscalate
    ensures c1 >= 0.8 && c2 >= 0.8 ==> Decide(rules, request, category, c1, f1) == Decide(rules, request, category, c2, f2)
  {
    DecideOutcome(rules, request, category, c1, f1);
    DecideOutcome(rules, request, category, c2, f2);
  }

  /** A security incident or a hardware failure always escalates as critical. */
  lemma HighPriorityAlwaysCritical(rules: map<string, seq<string>>, request: string, category: RequestCategory,
                                   confidence: real, formatConfidence: real -> string)
    requires IsHighPriority(category)
    ensures Decide(rules, request, category, confidence, formatConfidence).shouldEscalate
    ensures Decide(rules, request, category, confidence, formatConfidence).urgencyLevel == Critical
  {
    DecideOutcome(rules, request, category, confidence, formatConfidence);
  }

  // ---------------------------------------------------------------------------
  // The engine as the source runs it

  lemma PrefixedSnoc(prefix: string, xs: seq<string>, x: string)
    ensures Prefixed(prefix, xs + [x]) == Prefixed(prefix, xs) + [prefix + x]
  {
  }

  /** The business-impact block of `should_escalate`: the first keyword found adds a
      reason and lifts a normal urgency to high, and the search stops there. */
  method AddBusinessImpact(request: string, reasons: seq<string>, urgency: Urgency)
    returns (reasons': seq<string>, urgency': Urgency)
    ensures Verdict(reasons', urgency') == BusinessImpactRule(FirstBusinessKeyword(request), Verdict(reasons, urgency))
  {
    var requestLower := Lower(request);
    reasons', urgency' := reasons, urgency;
    var found := false;
    var k := 0;
    while k < |BusinessImpactKeywords| && !found
      invariant 0 <= k <= |BusinessImpactKeywords|
      invariant !found ==> forall p :: 0 <= p < k ==> !Contains(requestLower, Lower(BusinessImpactKeywords[p]))
      invariant !found ==> reasons' == reasons && urgency' == urgency
      invariant found ==>
        k < |BusinessImpactKeywords| && FirstFoundFrom(requestLower, BusinessImpactKeywords, 0) == Some(k)
        && reasons' == reasons + ["Business impact indicator: " + BusinessImpactKeywords[k]]
        && urgency' == if urgency == Normal then High else urgency
      decreases |BusinessImpactKeywords| - k, if found then 0 else 1
    {
      var keyword := BusinessImpactKeywords[k];
      if Contains(requestLower, Lower(keyword)) {
        reasons' := reasons' + ["Business impact indicator: " + keyword];
        if urgency' == Normal {
          urgency' := High;
        }
        found := true;   // the `break` of the original
      } else {
        k := k + 1;
      }
    }
  }

  /** The category-trigger loop of `should_escalate`. */
  method CollectTriggerReasons(request: string, categoryTriggers: seq<string>)
    returns (reasons: seq<string>, urgency: Urgency)
    ensures reasons == Prefixed("Category trigger: ", MatchingTriggers(request, categoryTriggers))
    ensures urgency == if MatchingTriggers(request, categoryTriggers) != [] then High else Normal
  {
    reasons := [];
    urgency := Normal;
    for i := 0 to |categoryTriggers|
      invariant reasons == Prefixed("Category trigger: ", MatchingTriggers(request, categoryTriggers[..i]))
      invariant urgency == if MatchingTriggers(request, categoryTriggers[..i]) != [] then High else Normal
    {
      var trigger := categoryTriggers[i];
      assert categoryTriggers[..i + 1][..i] == categoryTriggers[..i];
      if MatchesTrigger(request, trigger) {
        PrefixedSnoc("Category trigger: ", MatchingTriggers(request, categoryTriggers[..i]), trigger);
        reasons := reasons + ["Category trigger: " + trigger];
        urgency := High;
      }
    }
    assert categoryTriggers[..|categoryTriggers|] == categoryTriggers;
  }

  /** The decision of a request is the six rules applied to what it observes. */
  lemma ObservedRules(rules: map<string, seq<string>>, request: string, category: RequestCategory,
                      confidence: real, formatConfidence: real -> string)
    ensures Decide(rules, request, category, confidence, formatConfidence) == Finish(
      BusinessImpactRule(FirstBusinessKeyword(request),
      MultipleIssuesRule(ContainsMultipleIssues(request),
      PriorityRule(if IsHighPriority(category) then Some(category.Value()) else None,
      ConfidenceRule(if confidence < Config.ClassificationConfidenceThreshold then Some(formatConfidence(confidence)) else None,
      UrgentRule(UrgentKeywordsFound(request),
      TriggerRule(MatchingTriggers(request, TriggersFor(rules, category)), Verdict([], Normal))))))))
  {
  }

  /** `should_escalate`: the rules applied in order, each block as in the original. */
  method ShouldEscalate(rules: map<string, seq<string>>, request: string, category: RequestCategory,
                        confidence: real, formatConfidence: real -> string) returns (d: EscalationDecision)
    ensures d == Decide(rules, request, category, confidence, formatConfidence)
  {
    var reasons, urgency := CollectTriggerReasons(request, TriggersFor(rules, category));
    ghost var v := TriggerRule(MatchingTriggers(request, TriggersFor(rules, category)), Verdict([], Normal));
    assert Verdict(reasons, urgency) == v;

    var urgentKeywordsFound := CheckUrgentKeywords(request);
    if urgentKeywordsFound != [] {
      reasons := reasons + Prefixed("Urgent keyword: ", urgentKeywordsFound);
      urgency := Critical;
    }
    v := UrgentRule(UrgentKeywordsFound(request), v);
    assert Verdict(reasons, urgency) == v;

    ghost var lowConfidence := None;
    if confidence < Config.ClassificationConfidenceThreshold {
      reasons := reasons + ["Low classification confidence: " + formatConfidence(confidence)];
      lowConfidence := Some(formatConfidence(confidence));
    }
    v := ConfidenceRule(lowConfidence, v);
    assert Verdict(reasons, urgency) == v;

    ghost var highPriority := None;
    if IsHighPriority(category) {
      reasons := reasons + ["High-priority category: " + category.Value()];
      urgency := Critical;
      highPriority := Some(category.Value());
    }
    v := PriorityRule(highPriority, v);
    assert Verdict(reasons, urgency) == v;

    var multipleIssues := ContainsMultipleIssues(request);
    if multipleIssues {
      reasons := reasons + [MultipleIssuesReason];
    }
    v := MultipleIssuesRule(multipleIssues, v);
    assert Verdict(reasons, urgency) == v;

    reasons, urgency := AddBusinessImpact(request, reasons, urgency);
    v := BusinessImpactRule(FirstBusinessKeyword(request), v);
    assert Verdict(reasons, urgency) == v;
    ObservedRules(rules, request, category, confidence, formatConfidence);

    var shouldEscalate := |reasons| > 0;
    var reason := if shouldEscalate then Join("; ", reasons) else NoEscalationReason;
    d := EscalationDecision(shouldEscalate, reason, urgency);
    assert d == Finish(v);
  }
}
