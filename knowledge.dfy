/** The knowledge retriever: chunking of the markdown and JSON documents,
    the reading of the model's list of chunk numbers and the keyword ranking
    used when the model call fails. */
module Knowledge {
  import opened Wrappers
  import opened Strings
  import opened Models
  import Response

  // ---------------------------------------------------------------------------
  // Chunks

  datatype ChunkKind = MarkdownChunk | JsonChunk {
    /** The chunk's `type` field. */
    function Name(): string {
      match this
      case MarkdownChunk => "markdown"
      case JsonChunk => "json"
    }
  }

  /** A piece of a knowledge document: its text, the file it came from, its
      section title or JSON path, and its kind. */
  datatype Chunk = Chunk(content: string, source: string, section: string, kind: ChunkKind)

  // ---------------------------------------------------------------------------
  // `_load_markdown_file`

  /** The separator of `re.split(r'\n## ', content)`. */
  const SectionSeparator: string := "\n## "

  const HeadingMark: string := "## "

  /** The `i`-th piece of the split, with "## " put back on all but the first. */
  function Section(i: nat, piece: string): string {
    if i > 0 then HeadingMark + piece else piece
  }

  /** The first line of a stripped section with every "## " and then every
      "# " removed. */
  function SectionTitle(section: string): string {
    var lines := Split(section, "\n");
    ReplaceAll(ReplaceAll(lines[0], "## ", ""), "# ", "")
  }

  /** A title is a single line. */
  lemma SectionTitleIsOneLine(section: string)
    ensures '\n' !in SectionTitle(section)
  {
    var lines := Split(section, "\n");
    SplitOnCharAvoidsIt(section, '\n');
    ReplaceAllKeepsAbsent(lines[0], "## ", "", '\n');
    ReplaceAllKeepsAbsent(ReplaceAll(lines[0], "## ", ""), "# ", "", '\n');
  }

  function SectionChunk(path: string, i: nat, piece: string): Chunk {
    var content := Strip(Section(i, piece));
    Chunk(content, path, SectionTitle(content), MarkdownChunk)
  }

  /** A piece that is not whitespace only. */
  predicate NonBlank(piece: string) {
    Strip(piece) != ""
  }

  /** `make(i, piece)` for each non-blank piece among the first `n`, in order. */
  function NonBlankPieces(pieces: seq<string>, n: nat, make: (nat, string) -> Chunk): seq<Chunk>
    requires n <= |pieces|
  {
    if n == 0 then []
    else NonBlankPieces(pieces, n - 1, make) + (if NonBlank(pieces[n - 1]) then [make(n - 1, pieces[n - 1])] else [])
  }

  /** The chunk builder for the file at `path`. */
  function SectionMaker(path: string): (nat, string) -> Chunk {
    (i: nat, piece: string) => SectionChunk(path, i, piece)
  }

  /** The chunks `_load_markdown_file` appends for a file's text. */
  function MarkdownChunks(path: string, content: string): seq<Chunk> {
    var pieces := Split(content, SectionSeparator);
    NonBlankPieces(pieces, |pieces|, SectionMaker(path))
  }

  /** The properties `NonBlankPiecesOrigin` states of `origin` against the
      chunks `r` made from the first `n` pieces. */
  ghost predicate IsOrigin(pieces: seq<string>, n: nat, make: (nat, string) -> Chunk, r: seq<Chunk>, origin: seq<nat>)
    requires n <= |pieces|
  {
    && |origin| == |r|
    && (forall k :: 0 <= k < |r| ==>
          (origin[k] < n && NonBlank(pieces[origin[k]]) && r[k] == make(origin[k], pieces[origin[k]])))
    && (forall k, l :: 0 <= k < l < |r| ==> origin[k] < origin[l])
    && (forall i :: 0 <= i < n && NonBlank(pieces[i]) ==> i in origin)
  }

  /** Appending the chunk of a non-blank piece `n - 1` extends the origins by `n - 1`. */
  lemma OriginGrows(pieces: seq<string>, n: nat, make: (nat, string) -> Chunk, before: seq<Chunk>, prev: seq<nat>)
    requires 0 < n <= |pieces| && NonBlank(pieces[n - 1])
    requires IsOrigin(pieces, n - 1, make, before, prev)
    ensures IsOrigin(pieces, n, make, before + [make(n - 1, pieces[n - 1])], prev + [n - 1])
  {
    var r := before + [make(n - 1, pieces[n - 1])];
    var origin := prev + [n - 1];
    forall k | 0 <= k < |r|
      ensures origin[k] < n && NonBlank(pieces[origin[k]]) && r[k] == make(origin[k], pieces[origin[k]])
    {
      if k < |before| {
        assert r[k] == before[k] && origin[k] == prev[k];
      }
    }
    forall k, l | 0 <= k < l < |r| ensures origin[k] < origin[l] {
      assert origin[k] == prev[k];
    }
    forall i | 0 <= i < n && NonBlank(pieces[i]) ensures i in origin {
      if i == n - 1 {
        assert origin[|prev|] == i;
      } else {
        assert i in prev;
      }
    }
  }

  /** A blank piece `n - 1` adds no chunk, and the origins stay as they are. */
  lemma OriginSkips(pieces: seq<string>, n: nat, make: (nat, string) -> Chunk, before: seq<Chunk>, prev: seq<nat>)
    requires 0 < n <= |pieces| && !NonBlank(pieces[n - 1])
    requires IsOrigin(pieces, n - 1, make, before, prev)
    ensures IsOrigin(pieces, n, make, before, prev)
  {
  }

  /** Chunk `k` is made from the non-blank piece `origin[k]`, the origins
      increase, and every non-blank piece yields a chunk. */
  lemma {:induction false} NonBlankPiecesOrigin(pieces: seq<string>, n: nat, make: (nat, string) -> Chunk)
      returns (origin: seq<nat>)
    requires n <= |pieces|
    ensures var r := NonBlankPieces(pieces, n, make);
      && |origin| == |r|
      && (forall k :: 0 <= k < |r| ==>
            (origin[k] < n && NonBlank(pieces[origin[k]]) && r[k] == make(origin[k], pieces[origin[k]])))
      && (forall k, l :: 0 <= k < l < |r| ==> origin[k] < origin[l])
      && (forall i :: 0 <= i < n && NonBlank(pieces[i]) ==> i in origin)
  {
    origin := OriginsUpTo(pieces, n, make);
    assert IsOrigin(pieces, n, make, NonBlankPieces(pieces, n, make), origin);
  }

  /** The origins of the first `n` pieces, built one piece at a time. */
  lemma {:induction false} OriginsUpTo(pieces: seq<string>, n: nat, make: (nat, string) -> Chunk)
      returns (origin: seq<nat>)
    requires n <= |pieces|
    ensures IsOrigin(pieces, n, make, NonBlankPieces(pieces, n, make), origin)
  {
    if n == 0 {
      origin := [];
    } else {
      var prev := OriginsUpTo(pieces, n - 1, make);
      var before := NonBlankPieces(pieces, n - 1, make);
      if NonBlank(pieces[n - 1]) {
        OriginGrows(pieces, n, make, before, prev);
        origin := prev + [n - 1];
        assert NonBlankPieces(pieces, n, make) == before + [make(n - 1, pieces[n - 1])];
      } else {
        OriginSkips(pieces, n, make, before, prev);
        origin := prev;
        assert NonBlankPieces(pieces, n, make) == before;
      }
    }
  }

  /** A markdown chunk of the file `path`: non-empty stripped content and the
      one-line title of that content. */
  predicate GoodSectionChunk(c: Chunk, path: string) {
    && c.kind == MarkdownChunk && c.source == path
    && c.content != "" && Stripped(c.content)
    && c.section == SectionTitle(c.content) && '\n' !in c.section
  }

  lemma SectionChunkShape(path: string, i: nat, piece: string)
    requires NonBlank(piece)
    ensures GoodSectionChunk(SectionChunk(path, i, piece), path)
  {
    var section := Section(i, piece);
    var _, _ := StripSlice(section);
    StripBlank(section);
    StripBlank(piece);
    if i > 0 {
      assert section[0] == '#';
    }
    SectionTitleIsOneLine(Strip(section));
  }

  /** The pieces of a markdown file rejoin to the file; the chunks are made
      from its non-blank pieces, in order, each a well-formed markdown chunk. */
  lemma MarkdownChunksCover(path: string, content: string)
    ensures var pieces := Split(content, SectionSeparator);
      var r := MarkdownChunks(path, content);
      && Join(SectionSeparator, pieces) == content
      && (forall c :: c in r ==> GoodSectionChunk(c, path))
      && (forall i :: 0 <= i < |pieces| && NonBlank(pieces[i]) ==> SectionChunk(path, i, pieces[i]) in r)
      && (forall c :: c in r ==> exists i :: 0 <= i < |pieces| && NonBlank(pieces[i]) && c == SectionChunk(path, i, pieces[i]))
  {
    JoinSplit(content, SectionSeparator);
    var pieces := Split(content, SectionSeparator);
    var make := SectionMaker(path);
    var r := MarkdownChunks(path, content);
    var origin := NonBlankPiecesOrigin(pieces, |pieces|, make);
    forall i | 0 <= i < |pieces| && NonBlank(pieces[i])
      ensures SectionChunk(path, i, pieces[i]) in r
    {
      var k :| 0 <= k < |origin| && origin[k] == i;
      assert r[k] == make(i, pieces[i]);
    }
    forall c | c in r
      ensures GoodSectionChunk(c, path)
      ensures exists i :: 0 <= i < |pieces| && NonBlank(pieces[i]) && c == SectionChunk(path, i, pieces[i])
    {
      var k :| 0 <= k < |r| && r[k] == c;
      SectionChunkShape(path, origin[k], pieces[origin[k]]);
    }
  }

  // ---------------------------------------------------------------------------
  // `extract_text_chunks`

  /** A parsed JSON value; an object's members are in document order. */
  datatype Json =
    | JNull
    | JBool(b: bool)
    | JNumber(n: real)
    | JString(s: string)
    | JArray(items: seq<Json>)
    | JObject(members: seq<(string, Json)>)

  /** A string member is substantial text when it is longer than this. */
  const MinTextLength: nat := 50

  /** `f"{path}.{key}" if path else key` */
  function MemberPath(path: string, key: string): string {
    if path != "" then path + "." + key else key
  }

  /** `f"{path}[{i}]" if path else f"[{i}]"` */
  function ItemPath(path: string, i: nat): string {
    if path != "" then path + "[" + NatToString(i) + "]" else "[" + NatToString(i) + "]"
  }

  /** `extract_text_chunks(obj, path)` for the file `source`. */
  function ExtractTextChunks(obj: Json, path: string, source: string): seq<Chunk>
    decreases obj, 1
  {
    match obj
    case JObject(members) => MemberChunks(obj, path, source, |members|)
    case JArray(items) => ItemChunks(obj, path, source, |items|)
    case _ => []
  }

  /** The chunks of the first `n` members of an object. */
  function MemberChunks(obj: Json, path: string, source: string, n: nat): seq<Chunk>
    requires obj.JObject? && n <= |obj.members|
    decreases obj, 0, n
  {
    if n == 0 then []
    else
      var member := obj.members[n - 1];
      assert member in obj.members;
      var key := member.0;
      var value := member.1;
      var current := MemberPath(path, key);
      MemberChunks(obj, path, source, n - 1)
        + if value.JString? && |value.s| > MinTextLength then [Chunk(key + ": " + value.s, source, current, JsonChunk)]
          else if value.JObject? || value.JArray? then ExtractTextChunks(value, current, source)
          else []
  }

  /** The chunks of the first `n` items of an array. */
  function ItemChunks(obj: Json, path: string, source: string, n: nat): seq<Chunk>
    requires obj.JArray? && n <= |obj.items|
    decreases obj, 0, n
  {
    if n == 0 then []
    else
      assert obj.items[n - 1] in obj.items;
      ItemChunks(obj, path, source, n - 1) + ExtractTextChunks(obj.items[n - 1], ItemPath(path, n - 1), source)
  }

  /** A JSON chunk of `source` found under `path`: its content is a key, ": "
      and more than 50 characters, and its section extends the path. */
  ghost predicate GoodJsonChunk(c: Chunk, path: string, source: string) {
    && c.kind == JsonChunk && c.source == source
    && (exists key, text :: |text| > MinTextLength && c.content == key + ": " + text)
    && IsPrefix(path, c.section)
  }

  lemma PrefixTrans(a: string, b: string, c: string)
    requires IsPrefix(a, b) && IsPrefix(b, c)
    ensures IsPrefix(a, c)
  {
    assert c[..|a|] == c[..|b|][..|a|];
  }

  lemma ChildPathsExtend(path: string, key: string, i: nat)
    ensures IsPrefix(path, MemberPath(path, key)) && IsPrefix(path, ItemPath(path, i))
  {
    if path != "" {
      assert (path + "." + key)[..|path|] == path;
      assert (path + "[" + NatToString(i) + "]")[..|path|] == path;
    }
  }

  lemma WeakerPath(c: Chunk, path: string, child: string, source: string)
    requires GoodJsonChunk(c, child, source) && IsPrefix(path, child)
    ensures GoodJsonChunk(c, path, source)
  {
    PrefixTrans(path, child, c.section);
  }

  /** Every chunk extracted from a value is a well-formed JSON chunk under the
      value's path. */
  lemma {:induction false} ExtractTextChunksShape(obj: Json, path: string, source: string)
    ensures forall c :: c in ExtractTextChunks(obj, path, source) ==> GoodJsonChunk(c, path, source)
    decreases obj, 1
  {
    match obj
    case JObject(members) => MemberChunksShape(obj, path, source, |members|);
    case JArray(items) => ItemChunksShape(obj, path, source, |items|);
    case _ =>
  }

  lemma {:induction false} MemberChunksShape(obj: Json, path: string, source: string, n: nat)
    requires obj.JObject? && n <= |obj.members|
    ensures forall c :: c in MemberChunks(obj, path, source, n) ==> GoodJsonChunk(c, path, source)
    decreases obj, 0, n
  {
    if n > 0 {
      MemberChunksShape(obj, path, source, n - 1);
      var member := obj.members[n - 1];
      assert member in obj.members;
      var current := MemberPath(path, member.0);
      ChildPathsExtend(path, member.0, 0);
      if member.1.JString? && |member.1.s| > MinTextLength {
        var chunk := Chunk(member.0 + ": " + member.1.s, source, current, JsonChunk);
        assert |member.1.s| > MinTextLength && chunk.content == member.0 + ": " + member.1.s;
        assert IsPrefix(path, current);
        assert GoodJsonChunk(chunk, path, source);
      } else if member.1.JObject? || member.1.JArray? {
        ExtractTextChunksShape(member.1, current, source);
        forall c | c in ExtractTextChunks(member.1, current, source) ensures GoodJsonChunk(c, path, source) {
          WeakerPath(c, path, current, source);
        }
      }
    }
  }

  lemma {:induction false} ItemChunksShape(obj: Json, path: string, source: string, n: nat)
    requires obj.JArray? && n <= |obj.items|
    ensures forall c :: c in ItemChunks(obj, path, source, n) ==> GoodJsonChunk(c, path, source)
    decreases obj, 0, n
  {
    if n > 0 {
      ItemChunksShape(obj, path, source, n - 1);
      assert obj.items[n - 1] in obj.items;
      var current := ItemPath(path, n - 1);
      ChildPathsExtend(path, "", n - 1);
      ExtractTextChunksShape(obj.items[n - 1], current, source);
      forall c | c in ExtractTextChunks(obj.items[n - 1], current, source) ensures GoodJsonChunk(c, path, source) {
        WeakerPath(c, path, current, source);
      }
    }
  }

  /** Objects with the same first `n` members have the same chunks for them. */
  lemma {:induction false} MemberChunksAgree(o1: Json, o2: Json, path: string, source: string, n: nat)
    requires o1.JObject? && o2.JObject? && n <= |o1.members| && n <= |o2.members|
    requires o1.members[..n] == o2.members[..n]
    ensures MemberChunks(o1, path, source, n) == MemberChunks(o2, path, source, n)
  {
    if n > 0 {
      assert o1.members[..n - 1] == o2.members[..n - 1] by {
        assert o1.members[..n - 1] == o1.members[..n][..n - 1];
        assert o2.members[..n - 1] == o2.members[..n][..n - 1];
      }
      assert o1.members[n - 1] == o1.members[..n][n - 1];
      MemberChunksAgree(o1, o2, path, source, n - 1);
    }
  }

  /** The chunks of the members after the first `|a|`. */
  lemma {:induction false} MemberChunksSplit(a: seq<(string, Json)>, b: seq<(string, Json)>, path: string, source: string, m: nat)
    requires m <= |b|
    ensures MemberChunks(JObject(a + b), path, source, |a| + m)
      == MemberChunks(JObject(a), path, source, |a|) + MemberChunks(JObject(b), path, source, m)
  {
    if m == 0 {
      assert (a + b)[..|a|] == a[..|a|];
      MemberChunksAgree(JObject(a + b), JObject(a), path, source, |a|);
    } else {
      MemberChunksSplit(a, b, path, source, m - 1);
      assert (a + b)[|a| + m - 1] == b[m - 1];
    }
  }

  /** Chunks come out in document order: the chunks of an object are those of
      its first members followed by those of the rest. */
  lemma ExtractObjectConcat(a: seq<(string, Json)>, b: seq<(string, Json)>, path: string, source: string)
    ensures ExtractTextChunks(JObject(a + b), path, source)
      == ExtractTextChunks(JObject(a), path, source) + ExtractTextChunks(JObject(b), path, source)
  {
    MemberChunksSplit(a, b, path, source, |b|);
  }

  /** A single scalar member: a string longer than 50 characters gives the
      chunk "key: value" at the member's path, anything else gives nothing. */
  lemma ScalarMember(key: string, value: Json, path: string, source: string)
    requires !value.JObject? && !value.JArray?
    ensures ExtractTextChunks(JObject([(key, value)]), path, source) ==
      if value.JString? && |value.s| > MinTextLength
      then [Chunk(key + ": " + value.s, source, MemberPath(path, key), JsonChunk)]
      else []
  {
    var obj := JObject([(key, value)]);
    assert obj.members[0] == (key, value);
    assert MemberChunks(obj, path, source, 0) == [];
  }

  /** A list holding no object or list, strings included, yields no chunk. */
  lemma {:induction false} ScalarItemsYieldNothing(obj: Json, path: string, source: string, n: nat)
    requires obj.JArray? && n <= |obj.items|
    requires forall i :: 0 <= i < |obj.items| ==> !obj.items[i].JObject? && !obj.items[i].JArray?
    ensures ItemChunks(obj, path, source, n) == []
  {
    if n > 0 {
      ScalarItemsYieldNothing(obj, path, source, n - 1);
    }
  }

  /** Paths are built as "parent.key" below an object member: a member
      holding an object with one long string gives one chunk, at the path of
      the inner key below the member's path. */
  lemma NestedPaths(outer: string, k: string, v: string, path: string, source: string)
    requires |v| > MinTextLength
    ensures ExtractTextChunks(JObject([(outer, JObject([(k, JString(v))]))]), path, source)
      == [Chunk(k + ": " + v, source, MemberPath(MemberPath(path, outer), k), JsonChunk)]
    ensures MemberPath(path, outer) != "" ==>
      MemberPath(MemberPath(path, outer), k) == MemberPath(path, outer) + "." + k
  {
    var inner := JObject([(k, JString(v))]);
    var current := MemberPath(path, outer);
    ScalarMember(k, JString(v), current, source);
    var top := JObject([(outer, inner)]);
    assert top.members[0] == (outer, inner);
    assert MemberChunks(top, path, source, 0) == [];
    assert ExtractTextChunks(top, path, source) == ExtractTextChunks(inner, current, source);
  }

  /** Paths are built as "[i].key" below list item `i`: an item holding an
      object with one long string adds one chunk after those of the earlier
      items, at the path of the key below the item's path. */
  lemma ItemPaths(obj: Json, i: nat, k: string, v: string, path: string, source: string)
    requires obj.JArray? && i < |obj.items| && obj.items[i] == JObject([(k, JString(v))])
    requires |v| > MinTextLength
    ensures ItemChunks(obj, path, source, i + 1)
      == ItemChunks(obj, path, source, i) + [Chunk(k + ": " + v, source, ItemPath(path, i) + "." + k, JsonChunk)]
    ensures path == "" ==> ItemPath(path, i) + "." + k == "[" + NatToString(i) + "]." + k
    ensures path != "" ==> ItemPath(path, i) + "." + k == path + "[" + NatToString(i) + "]." + k
  {
    var current := ItemPath(path, i);
    var item := obj.items[i];
    ScalarMember(k, JString(v), current, source);
    assert current != "";
    assert MemberPath(current, k) == current + "." + k;
    assert ExtractTextChunks(item, current, source) == [Chunk(k + ": " + v, source, current + "." + k, JsonChunk)];
    assert ItemChunks(obj, path, source, i + 1) == ItemChunks(obj, path, source, i) + ExtractTextChunks(item, current, source);
    if path == "" {
      assert "" + "[" == "[";
    }
    assert "[" + NatToString(i) + "]" + "." + k == "[" + NatToString(i) + "]." + k;
    assert path + "[" + NatToString(i) + "]" + "." + k == path + "[" + NatToString(i) + "]." + k;
  }

  // ---------------------------------------------------------------------------
  // `retrieve`: the model's list of chunk numbers

  /** At most this many chunks are returned. */
  const MaxResults: nat := 3

  /** `[n for n in xs if n < count]` */
  function InRange(xs: seq<nat>, count: nat): (r: seq<nat>)
    ensures |r| <= |xs|
    ensures forall k :: 0 <= k < |r| ==> r[k] < count
  {
    if xs == [] then [] else (if xs[0] < count then [xs[0]] else []) + InRange(xs[1..], count)
  }

  /** The filter keeps each in-range number as often as it occurs, and drops
      every other one. */
  lemma {:induction false} InRangeMultiplicity(xs: seq<nat>, count: nat, x: nat)
    ensures multiset(InRange(xs, count))[x] == if x < count then multiset(xs)[x] else 0
  {
    if xs != [] {
      InRangeMultiplicity(xs[1..], count, x);
      var head := if xs[0] < count then [xs[0]] else [];
      assert InRange(xs, count) == head + InRange(xs[1..], count);
      assert multiset(InRange(xs, count)) == multiset(head) + multiset(InRange(xs[1..], count));
      assert xs == [xs[0]] + xs[1..];
      assert multiset(xs) == multiset{xs[0]} + multiset(xs[1..]);
    }
  }

  /** The chunk numbers read from the reply: none for "none" in any case,
      otherwise the first three numbers below the chunk count. */
  function ChosenIndices(reply: string, count: nat): (r: seq<nat>)
    ensures |r| <= MaxResults
    ensures forall k :: 0 <= k < |r| ==> r[k] < count
    ensures Lower(reply) == "none" ==> r == []
  {
    if Lower(reply) == "none" then []
    else
      FirstResults(InRange(DigitRuns(reply), count))
  }

  /** The filter keeps the order of the numbers it keeps. */
  lemma {:induction false} InRangeAppend(xs: seq<nat>, ys: seq<nat>, count: nat)
    ensures InRange(xs + ys, count) == InRange(xs, count) + InRange(ys, count)
  {
    if xs != [] {
      assert (xs + ys)[0] == xs[0];
      assert (xs + ys)[1..] == xs[1..] + ys;
      InRangeAppend(xs[1..], ys, count);
    } else {
      assert xs + ys == ys;
    }
  }

  /** The first `MaxResults` entries of a list, or all of them when there are fewer. */
  function FirstResults(xs: seq<nat>): (r: seq<nat>)
    ensures |r| == if |xs| <= MaxResults then |xs| else MaxResults
    ensures forall k :: 0 <= k < |r| ==> r[k] == xs[k]
  {
    if |xs| <= MaxResults then xs else xs[..MaxResults]
  }

  /** A reply listing chunk numbers, such as "3, 7, 12", chooses the first
      three of its numbers that name a chunk, in the order written, repeats
      included, whatever digit-free separator stands between them. */
  lemma ChosenIndicesOfNumbers(ns: seq<nat>, sep: string, count: nat)
    requires sep != [] && forall k :: 0 <= k < |sep| ==> !IsDigit(sep[k])
    ensures ChosenIndices(NumberList(ns, sep), count) == FirstResults(InRange(ns, count))
  {
    var reply := NumberList(ns, sep);
    DigitRunsOfList(ns, sep);
    if ns != [] {
      DecimalOfNatToString(ns[0]);
      assert reply[0] == NatToString(ns[0])[0];
      assert Lower(reply)[0] == LowerChar(reply[0]);
    }
  }

  /** The reply of the example below, as a list of numbers. */
  lemma ExampleReply(ns: seq<nat>)
    requires ns == [3, 25, 7, 9, 1]
    ensures NumberList(ns, ", ") == "3, 25, 7, 9, 1"
  {
    assert NatToString(25) == "25";
    assert NumberList(ns[4..], ", ") == "1";
    assert NumberList(ns[3..], ", ") == "9, 1" by { assert ns[3..][1..] == ns[4..]; }
    assert NumberList(ns[2..], ", ") == "7, 9, 1" by { assert ns[2..][1..] == ns[3..]; }
    assert NumberList(ns[1..], ", ") == "25, 7, 9, 1" by { assert ns[1..][1..] == ns[2..]; }
  }

  /** The numbers of the example below that name one of ten chunks. */
  lemma ExampleInRange(ns: seq<nat>)
    requires ns == [3, 25, 7, 9, 1]
    ensures InRange(ns, 10) == [3, 7, 9, 1]
  {
    assert InRange(ns[4..], 10) == [1];
    assert InRange(ns[3..], 10) == [9, 1] by { assert ns[3..][1..] == ns[4..]; }
    assert InRange(ns[2..], 10) == [7, 9, 1] by { assert ns[2..][1..] == ns[3..]; }
    assert InRange(ns[1..], 10) == [7, 9, 1] by { assert ns[1..][1..] == ns[2..]; }
  }

  /** Out-of-range numbers are skipped and only three are kept: with ten
      chunks, "3, 25, 7, 9, 1" chooses chunks 3, 7 and 9. */
  lemma ChosenIndicesExample()
    ensures ChosenIndices("3, 25, 7, 9, 1", 10) == [3, 7, 9]
  {
    var ns: seq<nat> := [3, 25, 7, 9, 1];
    ExampleReply(ns);
    ExampleInRange(ns);
    ChosenIndicesOfNumbers(ns, ", ", 10);
    assert FirstResults([3, 7, 9, 1]) == [3, 7, 9];
  }

  /** The results for the chosen numbers: the `k`-th scores `1.0 - 0.1 * k`. */
  function IndexResults(chunks: seq<Chunk>, indices: seq<nat>): (r: seq<RetrievalResult>)
    decreases |indices|
  {
    if indices == [] then []
    else
      var previous := IndexResults(chunks, indices[..|indices| - 1]);
      var index := indices[|indices| - 1];
      if index < |chunks| then
        previous + [RetrievalResult(chunks[index].content, chunks[index].source, 1.0 - |previous| as real * 0.1)]
      else previous
  }

  /** With every number in range, result `k` is chunk `indices[k]` scored
      `1.0 - 0.1 * k`. */
  lemma {:induction false} IndexResultsRanked(chunks: seq<Chunk>, indices: seq<nat>)
    requires forall k :: 0 <= k < |indices| ==> indices[k] < |chunks|
    ensures var r := IndexResults(chunks, indices);
      && |r| == |indices|
      && forall k :: 0 <= k < |r| ==> r[k] == RetrievalResult(chunks[indices[k]].content,
           chunks[indices[k]].source, 1.0 - k as real * 0.1)
    decreases |indices|
  {
    if indices != [] {
      IndexResultsRanked(chunks, indices[..|indices| - 1]);
    }
  }

  /** `retrieve(query)` as a value: an empty knowledge base gives no results;
      a failed model call falls back to keyword search; otherwise the chunks
      the reply names. */
  function Retrieval(chunks: seq<Chunk>, query: string, reply: Option<string>): seq<RetrievalResult> {
    if chunks == [] then []
    else
      match Response.GeneratedText(reply)
      case None => KeywordSearch(chunks, query)
      case Some(text) => IndexResults(chunks, ChosenIndices(text, |chunks|))
  }

  /** At most three results; those the model picked score 1.0, 0.9 and 0.8 in
      turn and are the chunks it named. */
  lemma RetrievalOutcome(chunks: seq<Chunk>, query: string, reply: Option<string>)
    ensures var r := Retrieval(chunks, query, reply);
      && |r| <= MaxResults
      && (chunks == [] ==> r == [])
      && (chunks != [] && reply.None? ==> r == KeywordSearch(chunks, query))
      && (chunks != [] && reply.Some? ==>
            var indices := ChosenIndices(Response.GeneratedText(reply).value, |chunks|);
            && |r| == |indices|
            && forall k :: 0 <= k < |r| ==>
                 r[k] == RetrievalResult(chunks[indices[k]].content, chunks[indices[k]].source, 1.0 - k as real * 0.1))
  {
    KeywordSearchBounds(chunks, query);
    if chunks != [] && reply.Some? {
      IndexResultsRanked(chunks, ChosenIndices(Response.GeneratedText(reply).value, |chunks|));
    }
  }

  // ---------------------------------------------------------------------------
  // `_fallback_keyword_search`

  /** `sum(1 for word in words if word in text)`: repeated words count each time. */
  function WordHits(words: seq<string>, text: string): (n: nat)
    ensures n <= |words|
    ensures n == 0 <==> forall k :: 0 <= k < |words| ==> !Contains(text, words[k])
    decreases |words|
  {
    if words == [] then 0
    else WordHits(words[..|words| - 1], text) + (if Contains(text, words[|words| - 1]) then 1 else 0)
  }

  /** A chunk with its score and its position in the knowledge base. */
  datatype Scored = Scored(score: nat, index: nat, chunk: Chunk)

  /** The scores `hits` gives the first `n` chunks, keeping only those above zero. */
  function ScoredChunks(chunks: seq<Chunk>, hits: Chunk -> nat, n: nat): (r: seq<Scored>)
    requires n <= |chunks|
  {
    if n == 0 then []
    else
      var score := hits(chunks[n - 1]);
      ScoredChunks(chunks, hits, n - 1) + (if score > 0 then [Scored(score, n - 1, chunks[n - 1])] else [])
  }

  /** A scored entry records a chunk of the knowledge base, its position and
      its positive score. */
  predicate Genuine(s: Scored, chunks: seq<Chunk>, hits: Chunk -> nat) {
    s.index < |chunks| && s.chunk == chunks[s.index] && s.score == hits(chunks[s.index]) && s.score > 0
  }

  /** Every entry is genuine and lies among the first `n` chunks. */
  predicate AllGenuine(r: seq<Scored>, chunks: seq<Chunk>, hits: Chunk -> nat, n: nat) {
    forall k :: 0 <= k < |r| ==> Genuine(r[k], chunks, hits) && r[k].index < n
  }

  /** The entries are in knowledge-base order. */
  predicate InPositionOrder(r: seq<Scored>) {
    forall k, l :: 0 <= k < l < |r| ==> r[k].index < r[l].index
  }

  /** Every one of the first `n` chunks with a positive score has an entry. */
  predicate CoversPositive(r: seq<Scored>, chunks: seq<Chunk>, hits: Chunk -> nat, n: nat)
    requires n <= |chunks|
  {
    forall i :: 0 <= i < n && hits(chunks[i]) > 0 ==> exists k :: 0 <= k < |r| && r[k].index == i
  }

  /** Only genuine entries, drawn from the first `n` chunks. */
  lemma {:induction false} ScoredChunksGenuine(chunks: seq<Chunk>, hits: Chunk -> nat, n: nat)
    requires n <= |chunks|
    ensures AllGenuine(ScoredChunks(chunks, hits, n), chunks, hits, n)
  {
    if n > 0 {
      ScoredChunksGenuine(chunks, hits, n - 1);
      var before := ScoredChunks(chunks, hits, n - 1);
      if hits(chunks[n - 1]) > 0 {
        var r := before + [Scored(hits(chunks[n - 1]), n - 1, chunks[n - 1])];
        assert ScoredChunks(chunks, hits, n) == r;
        forall k | 0 <= k < |r| ensures Genuine(r[k], chunks, hits) && r[k].index < n {
          if k < |before| {
            assert r[k] == before[k];
          }
        }
      } else {
        assert ScoredChunks(chunks, hits, n) == before;
      }
    }
  }

  /** The scored list keeps the knowledge-base order. */
  lemma {:induction false} ScoredChunksInOrder(chunks: seq<Chunk>, hits: Chunk -> nat, n: nat)
    requires n <= |chunks|
    ensures InPositionOrder(ScoredChunks(chunks, hits, n))
  {
    if n > 0 {
      ScoredChunksInOrder(chunks, hits, n - 1);
      ScoredChunksGenuine(chunks, hits, n - 1);
      var before := ScoredChunks(chunks, hits, n - 1);
      if hits(chunks[n - 1]) > 0 {
        var r := before + [Scored(hits(chunks[n - 1]), n - 1, chunks[n - 1])];
        assert ScoredChunks(chunks, hits, n) == r;
        forall k, l | 0 <= k < l < |r| ensures r[k].index < r[l].index {
          assert r[k] == before[k];
          if l < |before| {
            assert r[l] == before[l];
          }
        }
      } else {
        assert ScoredChunks(chunks, hits, n) == before;
      }
    }
  }

  /** No chunk with a positive score is dropped. */
  lemma {:induction false} ScoredChunksComplete(chunks: seq<Chunk>, hits: Chunk -> nat, n: nat)
    requires n <= |chunks|
    ensures CoversPositive(ScoredChunks(chunks, hits, n), chunks, hits, n)
  {
    if n > 0 {
      ScoredChunksComplete(chunks, hits, n - 1);
      var before := ScoredChunks(chunks, hits, n - 1);
      if hits(chunks[n - 1]) > 0 {
        var r := before + [Scored(hits(chunks[n - 1]), n - 1, chunks[n - 1])];
        assert ScoredChunks(chunks, hits, n) == r;
        forall i | 0 <= i < n && hits(chunks[i]) > 0 ensures exists k :: 0 <= k < |r| && r[k].index == i {
          if i < n - 1 {
            var k :| 0 <= k < |before| && before[k].index == i;
            assert r[k] == before[k];
          } else {
            assert r[|before|].index == i;
          }
        }
      } else {
        assert ScoredChunks(chunks, hits, n) == before;
      }
    }
  }

  /** When nothing scores, nothing is kept. */
  lemma {:induction false} ScoredChunksNone(chunks: seq<Chunk>, hits: Chunk -> nat, n: nat)
    requires n <= |chunks|
    requires forall i :: 0 <= i < n ==> hits(chunks[i]) == 0
    ensures ScoredChunks(chunks, hits, n) == []
  {
    if n > 0 {
      ScoredChunksNone(chunks, hits, n - 1);
    }
  }

  /** `a` comes before `b` in a stable sort by descending score of a list in
      position order. */
  predicate Precedes(a: Scored, b: Scored) {
    a.score > b.score || (a.score == b.score && a.index < b.index)
  }

  /** Higher scores first; equal scores in their original order. */
  predicate Ordered(xs: seq<Scored>) {
    forall k, l :: 0 <= k < l < |xs| ==> Precedes(xs[k], xs[l])
  }

  /** `x` placed before the first entry it does not score below. */
  function Insert(x: Scored, xs: seq<Scored>): (r: seq<Scored>)
    ensures multiset(r) == multiset(xs) + multiset{x}
    ensures forall m :: m in r <==> m in xs || m == x
  {
    if xs == [] || x.score >= xs[0].score then [x] + xs
    else
      assert xs == [xs[0]] + xs[1..];
      [xs[0]] + Insert(x, xs[1..])
  }

  /** `sort(key=score, reverse=True)`, which Python performs stably. */
  function SortByScore(xs: seq<Scored>): (r: seq<Scored>)
    ensures multiset(r) == multiset(xs)
  {
    if xs == [] then []
    else
      assert xs == [xs[0]] + xs[1..];
      Insert(xs[0], SortByScore(xs[1..]))
  }

  lemma {:induction false} InsertOrdered(x: Scored, xs: seq<Scored>)
    requires Ordered(xs)
    requires forall m :: m in xs ==> x.index < m.index
    ensures Ordered(Insert(x, xs))
  {
    if xs == [] || x.score >= xs[0].score {
      var r := [x] + xs;
      forall k, l | 0 <= k < l < |r| ensures Precedes(r[k], r[l]) {
        if k == 0 {
          assert r[l] == xs[l - 1] && r[l] in xs;
          if l > 1 {
            assert Precedes(xs[0], xs[l - 1]);
          }
        } else {
          assert r[k] == xs[k - 1] && r[l] == xs[l - 1];
        }
      }
    } else {
      var tail := xs[1..];
      assert Ordered(tail) by {
        forall k, l | 0 <= k < l < |tail| ensures Precedes(tail[k], tail[l]) {
          assert tail[k] == xs[k + 1] && tail[l] == xs[l + 1];
        }
      }
      InsertOrdered(x, tail);
      var rest := Insert(x, tail);
      var r := [xs[0]] + rest;
      forall k, l | 0 <= k < l < |r| ensures Precedes(r[k], r[l]) {
        if k == 0 {
          var m := rest[l - 1];
          assert m in rest;
          if m != x {
            assert m in tail;
            var j :| 0 <= j < |tail| && tail[j] == m;
            assert xs[j + 1] == m;
          }
        } else {
          assert r[k] == rest[k - 1] && r[l] == rest[l - 1];
        }
      }
    }
  }

  /** Sorting a list in position order gives higher scores first and equal
      scores in their original order. */
  lemma {:induction false} SortByScoreOrdered(xs: seq<Scored>)
    requires forall k, l :: 0 <= k < l < |xs| ==> xs[k].index < xs[l].index
    ensures Ordered(SortByScore(xs))
  {
    if xs != [] {
      var tail := xs[1..];
      SortByScoreOrdered(tail);
      var sorted := SortByScore(tail);
      forall m | m in sorted ensures xs[0].index < m.index {
        assert m in multiset(sorted);
        var j :| 0 <= j < |tail| && tail[j] == m;
        assert xs[j + 1] == m;
      }
      InsertOrdered(xs[0], sorted);
    }
  }

  /** How many query words the chunk's lower-cased content contains. */
  function ChunkHits(words: seq<string>): Chunk -> nat {
    (c: Chunk) => WordHits(words, Lower(c.content))
  }

  /** The chunks with a positive score, best first. */
  function Ranked(chunks: seq<Chunk>, words: seq<string>): (r: seq<Scored>)
    ensures Ordered(r)
    ensures multiset(r) == multiset(ScoredChunks(chunks, ChunkHits(words), |chunks|))
    ensures forall k :: 0 <= k < |r| ==> Genuine(r[k], chunks, ChunkHits(words)) && r[k].score <= |words|
  {
    var scored := ScoredChunks(chunks, ChunkHits(words), |chunks|);
    ScoredChunksGenuine(chunks, ChunkHits(words), |chunks|);
    ScoredChunksInOrder(chunks, ChunkHits(words), |chunks|);
    SortByScoreOrdered(scored);
    var r := SortByScore(scored);
    forall k | 0 <= k < |r| ensures Genuine(r[k], chunks, ChunkHits(words)) && r[k].score <= |words| {
      assert r[k] in multiset(scored);
      var j :| 0 <= j < |scored| && scored[j] == r[k];
    }
    r
  }

  /** The three best entries of a ranking. */
  function Top(ranked: seq<Scored>): (r: seq<Scored>)
    ensures |r| == (if |ranked| <= MaxResults then |ranked| else MaxResults)
    ensures forall k :: 0 <= k < |r| ==> r[k] == ranked[k]
  {
    if |ranked| <= MaxResults then ranked else ranked[..MaxResults]
  }

  /** A scored chunk as a result, its relevance the share of the `wordCount`
      query words it contains. */
  function Relevance(s: Scored, wordCount: nat): RetrievalResult
    requires wordCount > 0
  {
    RetrievalResult(s.chunk.content, s.chunk.source, s.score as real / wordCount as real)
  }

  /** `_fallback_keyword_search(query)`: the three best-scoring chunks, each
      scored by the share of query words found in it. */
  function KeywordSearch(chunks: seq<Chunk>, query: string): seq<RetrievalResult> {
    var words := Words(Lower(query));
    var top := Top(Ranked(chunks, words));
    seq(|top|, k requires 0 <= k < |top| => Relevance(top[k], |words|))
  }

  lemma DivideMonotone(a: nat, b: nat, d: nat)
    requires d > 0 && a <= b
    ensures a as real / d as real <= b as real / d as real
  {
  }

  lemma DivideAtMostOne(a: nat, d: nat)
    requires 0 < a <= d
    ensures 0.0 < a as real / d as real <= 1.0
  {
  }

  /** Result `k` is the `k`-th best scored chunk. */
  lemma KeywordSearchEntries(chunks: seq<Chunk>, query: string)
    ensures |KeywordSearch(chunks, query)| == |Top(Ranked(chunks, Words(Lower(query))))|
    ensures forall k :: 0 <= k < |KeywordSearch(chunks, query)| ==>
      KeywordSearch(chunks, query)[k] == Relevance(Ranked(chunks, Words(Lower(query)))[k], |Words(Lower(query))|)
  {
    var words := Words(Lower(query));
    var top := Top(Ranked(chunks, words));
    assert KeywordSearch(chunks, query) == seq(|top|, k requires 0 <= k < |top| => Relevance(top[k], |words|));
  }

  /** At most three results, each relevance in (0, 1], best first; a query
      without words finds nothing. */
  lemma KeywordSearchBounds(chunks: seq<Chunk>, query: string)
    ensures |KeywordSearch(chunks, query)| <= MaxResults
    ensures forall k :: 0 <= k < |KeywordSearch(chunks, query)| ==>
      0.0 < KeywordSearch(chunks, query)[k].relevanceScore <= 1.0
    ensures forall k, l :: 0 <= k < l < |KeywordSearch(chunks, query)| ==>
      KeywordSearch(chunks, query)[k].relevanceScore >= KeywordSearch(chunks, query)[l].relevanceScore
    ensures Words(Lower(query)) == [] ==> KeywordSearch(chunks, query) == []
  {
    var words := Words(Lower(query));
    var ranked := Ranked(chunks, words);
    var r := KeywordSearch(chunks, query);
    KeywordSearchEntries(chunks, query);
    forall k, l | 0 <= k < l < |r| ensures r[k].relevanceScore >= r[l].relevanceScore {
      assert Precedes(ranked[k], ranked[l]);
      DivideMonotone(ranked[l].score, ranked[k].score, |words|);
    }
    forall k | 0 <= k < |r| ensures 0.0 < r[k].relevanceScore <= 1.0 {
      assert Genuine(ranked[k], chunks, ChunkHits(words));
      DivideAtMostOne(ranked[k].score, |words|);
    }
    if words == [] {
      ScoredChunksNone(chunks, ChunkHits(words), |chunks|);
      assert |multiset(ranked)| == 0;
    }
  }

  /** Nothing better is left out: a chunk with a positive score is among the
      results, or three results were returned and it scores no higher than
      the last of them. */
  lemma KeywordSearchKeepsBest(chunks: seq<Chunk>, query: string, i: nat)
    requires i < |chunks| && WordHits(Words(Lower(query)), Lower(chunks[i].content)) > 0
    ensures var words := Words(Lower(query));
      var r := KeywordSearch(chunks, query);
      || (exists k :: 0 <= k < |r| && r[k].content == chunks[i].content && r[k].source == chunks[i].source)
      || (|r| == MaxResults
          && WordHits(words, Lower(chunks[i].content)) as real / |words| as real <= r[MaxResults - 1].relevanceScore)
  {
    var words := Words(Lower(query));
    var hits := ChunkHits(words);
    var scored := ScoredChunks(chunks, hits, |chunks|);
    ScoredChunksComplete(chunks, hits, |chunks|);
    var ranked := Ranked(chunks, words);
    KeywordSearchEntries(chunks, query);
    assert hits(chunks[i]) > 0;
    var k :| 0 <= k < |scored| && scored[k].index == i;
    assert scored[k] in multiset(ranked);
    var p :| 0 <= p < |ranked| && ranked[p] == scored[k];
    assert Genuine(ranked[p], chunks, hits);
    assert ranked[p].chunk == chunks[i] && ranked[p].score == hits(chunks[i]);
    var r := KeywordSearch(chunks, query);
    if p < MaxResults {
      assert p < |r| && r[p] == Relevance(ranked[p], |words|);
      assert r[p].content == chunks[i].content && r[p].source == chunks[i].source;
    } else {
      assert |r| == MaxResults && r[MaxResults - 1] == Relevance(ranked[MaxResults - 1], |words|);
      assert Precedes(ranked[MaxResults - 1], ranked[p]);
      DivideMonotone(ranked[p].score, ranked[MaxResults - 1].score, |words|);
    }
  }

  // ---------------------------------------------------------------------------
  // `get_stats`

  datatype KnowledgeStats = KnowledgeStats(
    totalChunks: nat, sources: set<string>, markdownChunks: nat, jsonChunks: nat)

  function CountKind(chunks: seq<Chunk>, kind: ChunkKind): (n: nat)
    ensures n <= |chunks|
  {
    if chunks == [] then 0
    else CountKind(chunks[..|chunks| - 1], kind) + (if chunks[|chunks| - 1].kind == kind then 1 else 0)
  }

  /** The kind of each chunk, in order. */
  function Kinds(chunks: seq<Chunk>): (r: seq<ChunkKind>)
    ensures |r| == |chunks| && forall i :: 0 <= i < |chunks| ==> r[i] == chunks[i].kind
  {
    seq(|chunks|, i requires 0 <= i < |chunks| => chunks[i].kind)
  }

  /** The count of a kind is the number of chunks of that kind. */
  lemma {:induction false} CountKindCounts(chunks: seq<Chunk>, kind: ChunkKind)
    ensures CountKind(chunks, kind) == multiset(Kinds(chunks))[kind]
  {
    if chunks != [] {
      var init := chunks[..|chunks| - 1];
      var last := chunks[|chunks| - 1];
      CountKindCounts(init, kind);
      assert Kinds(chunks) == Kinds(init) + [last.kind];
    }
  }

  /** Every chunk is markdown or JSON, so the two counts add up to the total. */
  lemma {:induction false} KindsPartition(chunks: seq<Chunk>)
    ensures CountKind(chunks, MarkdownChunk) + CountKind(chunks, JsonChunk) == |chunks|
  {
    if chunks != [] {
      KindsPartition(chunks[..|chunks| - 1]);
    }
  }

  /** `get_stats()` */
  function Stats(chunks: seq<Chunk>): (s: KnowledgeStats)
    ensures s.totalChunks == |chunks|
    ensures s.markdownChunks == multiset(Kinds(chunks))[MarkdownChunk]
    ensures s.jsonChunks == multiset(Kinds(chunks))[JsonChunk]
    ensures s.totalChunks == s.markdownChunks + s.jsonChunks
    ensures forall c :: c in chunks ==> c.source in s.sources
    ensures forall x :: x in s.sources ==> exists c :: c in chunks && c.source == x
  {
    KindsPartition(chunks);
    CountKindCounts(chunks, MarkdownChunk);
    CountKindCounts(chunks, JsonChunk);
    KnowledgeStats(|chunks|, set c | c in chunks :: c.source,
      CountKind(chunks, MarkdownChunk), CountKind(chunks, JsonChunk))
  }

  // ---------------------------------------------------------------------------
  // The knowledge base

  /** The four knowledge files as read: `None` where a file is absent or
      could not be read or parsed, which the loader skips. */
  datatype KnowledgeFiles = KnowledgeFiles(
    knowledgeBase: Option<string>,
    itPolicies: Option<string>,
    installationGuides: Option<Json>,
    troubleshooting: Option<Json>)

  const KnowledgeBaseFile: string := "knowledge_base.md"
  const ItPoliciesFile: string := "company_it_policies.md"
  const InstallationGuidesFile: string := "installation_guides.json"
  const TroubleshootingFile: string := "troubleshooting_database.json"

  /** `os.path.join(data_dir, name)` */
  function DataPath(dataDir: string, name: string): string {
    dataDir + "/" + name
  }

  /** The chunks of one markdown file, none when it was not read. */
  function MarkdownFileChunks(path: string, content: Option<string>): seq<Chunk> {
    if content.None? then [] else MarkdownChunks(path, content.value)
  }

  /** The chunks of one JSON file, none when it was not read. */
  function JsonFileChunks(path: string, data: Option<Json>): seq<Chunk> {
    if data.None? then [] else ExtractTextChunks(data.value, "", path)
  }

  /** `_load_knowledge_base()`: the four files' chunks in file order. */
  function LoadedChunks(dataDir: string, files: KnowledgeFiles): seq<Chunk> {
    MarkdownFileChunks(DataPath(dataDir, KnowledgeBaseFile), files.knowledgeBase)
      + MarkdownFileChunks(DataPath(dataDir, ItPoliciesFile), files.itPolicies)
      + JsonFileChunks(DataPath(dataDir, InstallationGuidesFile), files.installationGuides)
      + JsonFileChunks(DataPath(dataDir, TroubleshootingFile), files.troubleshooting)
  }

  /** Every loaded chunk names the file it came from: markdown chunks one of
      the two markdown files, JSON chunks one of the two JSON files. */
  lemma LoadedChunksSources(dataDir: string, files: KnowledgeFiles)
    ensures forall c :: c in LoadedChunks(dataDir, files) && c.kind == MarkdownChunk ==>
      c.source == DataPath(dataDir, KnowledgeBaseFile) || c.source == DataPath(dataDir, ItPoliciesFile)
    ensures forall c :: c in LoadedChunks(dataDir, files) && c.kind == JsonChunk ==>
      c.source == DataPath(dataDir, InstallationGuidesFile) || c.source == DataPath(dataDir, TroubleshootingFile)
  {
    var p1, p2 := DataPath(dataDir, KnowledgeBaseFile), DataPath(dataDir, ItPoliciesFile);
    var p3, p4 := DataPath(dataDir, InstallationGuidesFile), DataPath(dataDir, TroubleshootingFile);
    var m1, m2 := MarkdownFileChunks(p1, files.knowledgeBase), MarkdownFileChunks(p2, files.itPolicies);
    var j3, j4 := JsonFileChunks(p3, files.installationGuides), JsonFileChunks(p4, files.troubleshooting);
    if files.knowledgeBase.Some? {
      MarkdownChunksCover(p1, files.knowledgeBase.value);
    }
    if files.itPolicies.Some? {
      MarkdownChunksCover(p2, files.itPolicies.value);
    }
    if files.installationGuides.Some? {
      ExtractTextChunksShape(files.installationGuides.value, "", p3);
    }
    if files.troubleshooting.Some? {
      ExtractTextChunksShape(files.troubleshooting.value, "", p4);
    }
    assert forall c :: c in m1 ==> c.kind == MarkdownChunk && c.source == p1;
    assert forall c :: c in m2 ==> c.kind == MarkdownChunk && c.source == p2;
    assert forall c :: c in j3 ==> c.kind == JsonChunk && c.source == p3;
    assert forall c :: c in j4 ==> c.kind == JsonChunk && c.source == p4;
    assert LoadedChunks(dataDir, files) == m1 + m2 + j3 + j4;
  }

  /** `LLMKnowledgeRetriever`: the chunk list it builds and searches. The
      model calls it makes are given as their replies. */
  class KnowledgeRetriever {
    var chunks: seq<Chunk>

    /** `__init__`: loads the knowledge files below `dataDir`. */
    constructor(dataDir: string, files: KnowledgeFiles)
      ensures chunks == LoadedChunks(dataDir, files)
    {
      chunks := [];
      new;
      LoadMarkdownFile(DataPath(dataDir, KnowledgeBaseFile), files.knowledgeBase);
      LoadMarkdownFile(DataPath(dataDir, ItPoliciesFile), files.itPolicies);
      LoadJsonFile(DataPath(dataDir, InstallationGuidesFile), files.installationGuides);
      LoadJsonFile(DataPath(dataDir, TroubleshootingFile), files.troubleshooting);
    }

    /** `_load_markdown_file(path)`: appends a chunk for each non-blank
        section of the file. */
    method LoadMarkdownFile(path: string, content: Option<string>)
      modifies this
      ensures chunks == old(chunks) + MarkdownFileChunks(path, content)
    {
      if content.Some? {
        var pieces := Split(content.value, SectionSeparator);
        ghost var make := SectionMaker(path);
        var added: seq<Chunk> := [];
        var i := 0;
        while i < |pieces|
          invariant 0 <= i <= |pieces|
          invariant added == NonBlankPieces(pieces, i, make)
        {
          if NonBlank(pieces[i]) {
            var chunk := SectionChunk(path, i, pieces[i]);
            assert chunk == make(i, pieces[i]);
            added := added + [chunk];
          }
          i := i + 1;
        }
        chunks := chunks + added;
      }
    }

    /** `_load_json_file(path)`: appends the chunks extracted from the
        parsed document. */
    method LoadJsonFile(path: string, data: Option<Json>)
      modifies this
      ensures chunks == old(chunks) + JsonFileChunks(path, data)
    {
      if data.Some? {
        chunks := chunks + ExtractTextChunks(data.value, "", path);
      }
    }

    /** `retrieve(query)`, given the reply to the chunk-selection prompt. */
    method Retrieve(query: string, reply: Option<string>) returns (r: seq<RetrievalResult>)
      ensures r == Retrieval(chunks, query, reply)
    {
      if chunks == [] {
        return [];
      }
      var response := Response.GeneratedText(reply);
      if response.None? {
        r := FallbackKeywordSearch(query);
        return;
      }
      var indices := ChosenIndices(response.value, |chunks|);
      r := [];
      var k := 0;
      while k < |indices|
        invariant 0 <= k <= |indices|
        invariant r == IndexResults(chunks, indices[..k])
      {
        var index := indices[k];
        assert indices[..k + 1][..k] == indices[..k];
        if index < |chunks| {
          r := r + [RetrievalResult(chunks[index].content, chunks[index].source, 1.0 - |r| as real * 0.1)];
        }
        k := k + 1;
      }
      assert indices[..k] == indices;
    }

    /** The scoring loop of `_fallback_keyword_search`: each chunk with at
        least one query word, with its count. */
    method ScoreChunks(words: seq<string>) returns (scored: seq<Scored>)
      ensures scored == ScoredChunks(chunks, ChunkHits(words), |chunks|)
    {
      ghost var hits := ChunkHits(words);
      scored := [];
      var i := 0;
      while i < |chunks|
        invariant 0 <= i <= |chunks|
        invariant scored == ScoredChunks(chunks, hits, i)
      {
        var score := WordHits(words, Lower(chunks[i].content));
        assert score == hits(chunks[i]);
        if score > 0 {
          scored := scored + [Scored(score, i, chunks[i])];
        }
        i := i + 1;
      }
    }

    /** `_fallback_keyword_search(query)`. */
    method FallbackKeywordSearch(query: string) returns (r: seq<RetrievalResult>)
      ensures r == KeywordSearch(chunks, query)
    {
      var words := Words(Lower(query));
      var scored := ScoreChunks(words);
      ghost var ranked := Ranked(chunks, words);
      assert SortByScore(scored) == ranked;
      var top := Top(SortByScore(scored));
      assert top == [] || |words| > 0 by {
        if top != [] {
          assert Genuine(ranked[0], chunks, ChunkHits(words)) && ranked[0].score <= |words|;
        }
      }
      r := RelevanceResults(top, |words|);
      KeywordSearchEntries(chunks, query);
    }
  }

  /** The result loop of `_fallback_keyword_search`: each scored chunk as a
      result, in order. */
  method RelevanceResults(top: seq<Scored>, wordCount: nat) returns (r: seq<RetrievalResult>)
    requires top == [] || wordCount > 0
    ensures |r| == |top|
    ensures forall j :: 0 <= j < |r| ==> r[j] == Relevance(top[j], wordCount)
  {
    r := [];
    var k := 0;
    while k < |top|
      invariant 0 <= k <= |top|
      invariant |r| == k
      invariant forall j :: 0 <= j < k ==> r[j] == Relevance(top[j], wordCount)
    {
      r := r + [Relevance(top[k], wordCount)];
      k := k + 1;
    }
  }
}
