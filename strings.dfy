/** ASCII approximations of the Python string operations the help desk relies on:
    `lower`, `title`, `strip`, `split`, `split(sep)`, `replace`, `in` and `join`,
    plus decimal conversion of natural numbers. */
module Strings {

  /** Python's `str.isspace` on ASCII: tab, line feed, vertical tab, form feed,
      carriage return, the separators 0x1C to 0x1F and the space. */
  predicate IsSpace(c: char) {
    ('\t' <= c <= '\r') || (28 <= c as int <= 32)
  }

  predicate IsDigit(c: char) {
    '0' <= c <= '9'
  }

  predicate IsLetter(c: char) {
    ('a' <= c <= 'z') || ('A' <= c <= 'Z')
  }

  function LowerChar(c: char): char {
    if 'A' <= c <= 'Z' then (c as int + 32) as char else c
  }

  function UpperChar(c: char): char {
    if 'a' <= c <= 'z' then (c as int - 32) as char else c
  }

  /** `s.lower()` */
  function Lower(s: string): string {
    seq(|s|, i requires 0 <= i < |s| => LowerChar(s[i]))
  }

  lemma LowerIdempotent(s: string)
    ensures Lower(Lower(s)) == Lower(s)
  {
  }

  /** `s.title()`: a letter that follows a letter is lower-cased, any other
      letter is upper-cased. */
  function TitleCase(s: string): string {
    seq(|s|, i requires 0 <= i < |s| =>
      if i > 0 && IsLetter(s[i - 1]) then LowerChar(s[i]) else UpperChar(s[i]))
  }

  /** `s.replace(a, b)` for single characters `a` and `b`. */
  function ReplaceChar(s: string, a: char, b: char): string {
    seq(|s|, i requires 0 <= i < |s| => if s[i] == a then b else s[i])
  }

  // ---------------------------------------------------------------------------
  // Substrings: `sub in s`

  predicate IsPrefix(p: string, s: string) {
    |p| <= |s| && s[..|p|] == p
  }

  /** `sub in s` */
  predicate Contains(s: string, sub: string)
    decreases |s|
  {
    IsPrefix(sub, s) || (|s| > 0 && Contains(s[1..], sub))
  }

  lemma ContainsEmpty(s: string)
    ensures Contains(s, "")
  {
    assert IsPrefix("", s);
  }

  /** A witness position establishes containment. */
  lemma {:induction false} ContainsAt(s: string, sub: string, i: nat)
    requires i + |sub| <= |s| && s[i..i + |sub|] == sub
    ensures Contains(s, sub)
  {
    if i == 0 {
      assert IsPrefix(sub, s);
    } else {
      assert s[1..][i - 1..i - 1 + |sub|] == sub;
      ContainsAt(s[1..], sub, i - 1);
    }
  }

  /** Containment yields a witness position. */
  lemma {:induction false} ContainsIndex(s: string, sub: string) returns (i: nat)
    requires Contains(s, sub)
    ensures i + |sub| <= |s| && s[i..i + |sub|] == sub
    decreases |s|
  {
    if IsPrefix(sub, s) {
      i := 0;
    } else {
      var j := ContainsIndex(s[1..], sub);
      assert s[1..][j..j + |sub|] == s[j + 1..j + 1 + |sub|];
      i := j + 1;
    }
  }

  lemma ContainsTrans(s: string, a: string, b: string)
    requires Contains(s, a) && Contains(a, b)
    ensures Contains(s, b)
  {
    var i := ContainsIndex(s, a);
    var j := ContainsIndex(a, b);
    forall k | 0 <= k < |b| ensures s[i + j + k] == b[k] {
      assert s[i + j + k] == s[i..i + |a|][j + k];
      assert b[k] == a[j..j + |b|][k];
    }
    assert s[i + j..i + j + |b|] == b;
    ContainsAt(s, b, i + j);
  }

  lemma ContainsSelf(s: string)
    ensures Contains(s, s)
  {
    assert s[0..|s|] == s;
    ContainsAt(s, s, 0);
  }

  lemma ContainsAppend(a: string, b: string, sub: string)
    requires Contains(a, sub) || Contains(b, sub)
    ensures Contains(a + b, sub)
  {
    if Contains(a, sub) {
      var i := ContainsIndex(a, sub);
      assert (a + b)[i..i + |sub|] == a[i..i + |sub|];
      ContainsAt(a + b, sub, i);
    } else {
      var i := ContainsIndex(b, sub);
      assert (a + b)[|a| + i..|a| + i + |sub|] == b[i..i + |sub|];
      ContainsAt(a + b, sub, |a| + i);
    }
  }

  /** A pattern whose first character never occurs in `s` is not contained in it. */
  lemma {:induction false} AbsentFirstChar(s: string, sub: string)
    requires |sub| > 0 && sub[0] !in s
    ensures !Contains(s, sub)
    decreases |s|
  {
    if |s| > 0 {
      assert s[0] != sub[0];
      assert sub[0] !in s[1..] by {
        forall k | 0 <= k < |s[1..]| ensures s[1..][k] != sub[0] {
          assert s[1..][k] == s[k + 1];
        }
      }
      AbsentFirstChar(s[1..], sub);
    }
  }

  // ---------------------------------------------------------------------------
  // `s.strip()`

  function TrimLeft(s: string): string
    decreases |s|
  {
    if |s| > 0 && IsSpace(s[0]) then TrimLeft(s[1..]) else s
  }

  function TrimRight(s: string): string
    decreases |s|
  {
    if |s| > 0 && IsSpace(s[|s| - 1]) then TrimRight(s[..|s| - 1]) else s
  }

  /** `s.strip()` */
  function Strip(s: string): string {
    TrimRight(TrimLeft(s))
  }

  /** Neither end of `s` is whitespace. */
  predicate Stripped(s: string) {
    s == [] || (!IsSpace(s[0]) && !IsSpace(s[|s| - 1]))
  }

  lemma {:induction false} TrimLeftSlice(s: string) returns (i: nat)
    ensures i <= |s| && TrimLeft(s) == s[i..]
    ensures TrimLeft(s) == [] || !IsSpace(TrimLeft(s)[0])
    decreases |s|
  {
    if |s| > 0 && IsSpace(s[0]) {
      var j := TrimLeftSlice(s[1..]);
      i := j + 1;
      assert s[1..][j..] == s[i..];
    } else {
      i := 0;
    }
  }

  lemma {:induction false} TrimRightSlice(s: string) returns (j: nat)
    ensures j <= |s| && TrimRight(s) == s[..j]
    ensures TrimRight(s) == [] || !IsSpace(TrimRight(s)[|TrimRight(s)| - 1])
    decreases |s|
  {
    if |s| > 0 && IsSpace(s[|s| - 1]) {
      j := TrimRightSlice(s[..|s| - 1]);
      assert s[..|s| - 1][..j] == s[..j];
    } else {
      j := |s|;
    }
  }

  lemma {:induction false} TrimRightKeepsFirst(s: string)
    requires s == [] || !IsSpace(s[0])
    ensures TrimRight(s) == [] || TrimRight(s)[0] == s[0]
    decreases |s|
  {
    if |s| > 0 && IsSpace(s[|s| - 1]) {
      TrimRightKeepsFirst(s[..|s| - 1]);
    }
  }

  /** `s.strip()` is a contiguous part of `s` with no whitespace at either end. */
  lemma StripSlice(s: string) returns (i: nat, j: nat)
    ensures i <= j <= |s| && Strip(s) == s[i..j]
    ensures Stripped(Strip(s))
  {
    i := TrimLeftSlice(s);
    var k := TrimRightSlice(s[i..]);
    assert s[i..][..k] == s[i..i + k];
    j := i + k;
    TrimRightKeepsFirst(TrimLeft(s));
  }

  /** A character absent from `s` is absent from `s.strip()`. */
  lemma StripKeepsAbsent(s: string, c: char)
    requires c !in s
    ensures c !in Strip(s)
  {
    var i, j := StripSlice(s);
    forall k | 0 <= k < |Strip(s)| ensures Strip(s)[k] != c {
      assert Strip(s)[k] == s[i + k];
    }
  }

  /** Only an all-whitespace text strips to the empty string. */
  lemma StripBlank(s: string)
    ensures Strip(s) == [] <==> forall k :: 0 <= k < |s| ==> IsSpace(s[k])
  {
    TrimLeftBlank(s);
    var t := TrimLeft(s);
    var i := TrimLeftSlice(s);
    if t != [] {
      TrimRightNonBlank(t);
    }
  }

  lemma {:induction false} TrimLeftBlank(s: string)
    ensures TrimLeft(s) == [] <==> forall k :: 0 <= k < |s| ==> IsSpace(s[k])
    decreases |s|
  {
    if |s| > 0 && IsSpace(s[0]) {
      TrimLeftBlank(s[1..]);
      assert forall k :: 1 <= k < |s| ==> s[k] == s[1..][k - 1];
    }
  }

  lemma {:induction false} TrimRightNonBlank(s: string)
    requires |s| > 0 && !IsSpace(s[0])
    ensures |TrimRight(s)| > 0
    decreases |s|
  {
    if IsSpace(s[|s| - 1]) {
      TrimRightNonBlank(s[..|s| - 1]);
    }
  }

  lemma {:induction false} StripOfStripped(s: string)
    requires Stripped(s)
    ensures Strip(s) == s
  {
  }

  // ---------------------------------------------------------------------------
  // `sep.join(parts)` and `s.split(sep)`

  /** `sep.join(parts)` */
  function Join(sep: string, parts: seq<string>): string
    decreases |parts|
  {
    if parts == [] then ""
    else if |parts| == 1 then parts[0]
    else parts[0] + sep + Join(sep, parts[1..])
  }

  /** `s.split(sep)` for a non-empty separator: the pieces between the leftmost
      non-overlapping occurrences of `sep`. */
  function Split(s: string, sep: string): (parts: seq<string>)
    requires |sep| > 0
    ensures |parts| > 0
    decreases |s|
  {
    if s == [] then [""]
    else if IsPrefix(sep, s) then [""] + Split(s[|sep|..], sep)
    else
      var rest := Split(s[1..], sep);
      [[s[0]] + rest[0]] + rest[1..]
  }

  lemma {:induction false} JoinPrependChar(sep: string, c: char, parts: seq<string>)
    requires |parts| > 0
    ensures Join(sep, [[c] + parts[0]] + parts[1..]) == [c] + Join(sep, parts)
  {
    if |parts| > 1 {
      assert ([[c] + parts[0]] + parts[1..])[1..] == parts[1..];
    }
  }

  /** Splitting and joining with the same separator gives back the text. */
  lemma {:induction false} JoinSplit(s: string, sep: string)
    requires |sep| > 0
    ensures Join(sep, Split(s, sep)) == s
    decreases |s|
  {
    if s == [] {
    } else if IsPrefix(sep, s) {
      var tail := s[|sep|..];
      JoinSplit(tail, sep);
      var rest := Split(tail, sep);
      assert Split(s, sep) == [""] + rest;
      assert ([""] + rest)[1..] == rest;
      assert Join(sep, [""] + rest) == "" + sep + Join(sep, rest);
      assert "" + sep == sep;
      assert s == sep + tail;
    } else {
      var rest := Split(s[1..], sep);
      JoinSplit(s[1..], sep);
      assert Split(s, sep) == [[s[0]] + rest[0]] + rest[1..];
      JoinPrependChar(sep, s[0], rest);
      assert s == [s[0]] + s[1..];
      assert Join(sep, Split(s, sep)) == [s[0]] + s[1..];
    }
  }

  /** A character in no part and not in the separator is not in the joined text. */
  lemma {:induction false} JoinKeepsAbsent(sep: string, parts: seq<string>, c: char)
    requires c !in sep && forall k :: 0 <= k < |parts| ==> c !in parts[k]
    ensures c !in Join(sep, parts)
    decreases |parts|
  {
    if |parts| > 1 {
      JoinKeepsAbsent(sep, parts[1..], c);
    }
  }

  /** Every part occurs in the joined text. */
  lemma {:induction false} JoinContainsPart(sep: string, parts: seq<string>, k: nat)
    requires k < |parts|
    ensures Contains(Join(sep, parts), parts[k])
    decreases |parts|
  {
    if |parts| == 1 {
      ContainsAt(parts[0], parts[0], 0);
    } else if k == 0 {
      var j := Join(sep, parts);
      assert j[0..|parts[0]|] == parts[0];
      ContainsAt(j, parts[0], 0);
    } else {
      JoinContainsPart(sep, parts[1..], k - 1);
      ContainsAppend(parts[0] + sep, Join(sep, parts[1..]), parts[k]);
    }
  }

  /** The pieces of a text avoid every character the text avoids. */
  lemma {:induction false} SplitKeepsAbsent(s: string, sep: string, c: char)
    requires |sep| > 0 && c !in s
    ensures forall k :: 0 <= k < |Split(s, sep)| ==> c !in Split(s, sep)[k]
    decreases |s|
  {
    if s == [] {
    } else if IsPrefix(sep, s) {
      assert c !in s[|sep|..];
      SplitKeepsAbsent(s[|sep|..], sep, c);
    } else {
      assert c !in s[1..];
      SplitKeepsAbsent(s[1..], sep, c);
    }
  }

  /** Splitting on a single character leaves that character in no piece. */
  lemma {:induction false} SplitOnCharAvoidsIt(s: string, c: char)
    ensures forall k :: 0 <= k < |Split(s, [c])| ==> c !in Split(s, [c])[k]
    decreases |s|
  {
    if s == [] {
    } else if IsPrefix([c], s) {
      SplitOnCharAvoidsIt(s[1..], c);
    } else {
      SplitOnCharAvoidsIt(s[1..], c);
      var rest := Split(s[1..], [c]);
      assert s[0] != c by { assert s[..1] == [s[0]]; }
      assert Split(s, [c]) == [[s[0]] + rest[0]] + rest[1..];
    }
  }

  // ---------------------------------------------------------------------------
  // `s.split()`: maximal runs of non-whitespace

  function WordLength(s: string): (n: nat)
    ensures n <= |s|
    ensures forall k :: 0 <= k < n ==> !IsSpace(s[k])
    ensures n < |s| ==> IsSpace(s[n])
  {
    if s == [] || IsSpace(s[0]) then 0 else 1 + WordLength(s[1..])
  }

  /** `s.split()` */
  function Words(s: string): seq<string>
    decreases |s|
  {
    if s == [] then []
    else if IsSpace(s[0]) then Words(s[1..])
    else
      var n := WordLength(s);
      [s[..n]] + Words(s[n..])
  }

  // ---------------------------------------------------------------------------
  // `s.replace(pat, rep)`

  /** `s.replace(pat, rep)` for a non-empty pattern: every leftmost
      non-overlapping occurrence of `pat` is replaced. */
  function ReplaceAll(s: string, pat: string, rep: string): string
    requires |pat| > 0
    decreases |s|
  {
    if s == [] then []
    else if IsPrefix(pat, s) then rep + ReplaceAll(s[|pat|..], pat, rep)
    else [s[0]] + ReplaceAll(s[1..], pat, rep)
  }

  /** A replacement no longer than the pattern never lengthens the text, and
      strictly shortens it when the pattern occurs. */
  lemma {:induction false} ReplaceAllShrinks(s: string, pat: string, rep: string)
    requires |pat| > 0 && |rep| <= |pat|
    ensures |ReplaceAll(s, pat, rep)| <= |s|
    ensures Contains(s, pat) && |rep| < |pat| ==> |ReplaceAll(s, pat, rep)| < |s|
    decreases |s|
  {
    if s == [] {
    } else if IsPrefix(pat, s) {
      ReplaceAllShrinks(s[|pat|..], pat, rep);
    } else {
      ReplaceAllShrinks(s[1..], pat, rep);
    }
  }

  /** Deleting every occurrence of a character leaves none. */
  lemma {:induction false} RemoveCharLeavesNone(s: string, c: char)
    ensures c !in ReplaceAll(s, [c], "")
    decreases |s|
  {
    if s != [] {
      RemoveCharLeavesNone(s[1..], c);
    }
  }

  /** A character in neither the text nor the replacement is not introduced. */
  lemma {:induction false} ReplaceAllKeepsAbsent(s: string, pat: string, rep: string, c: char)
    requires |pat| > 0 && c !in s && c !in rep
    ensures c !in ReplaceAll(s, pat, rep)
    decreases |s|
  {
    if s == [] {
    } else if IsPrefix(pat, s) {
      assert c !in s[|pat|..];
      ReplaceAllKeepsAbsent(s[|pat|..], pat, rep, c);
    } else {
      assert c !in s[1..];
      ReplaceAllKeepsAbsent(s[1..], pat, rep, c);
    }
  }

  /** Text that starts with the pattern: the pattern is replaced first. */
  lemma ReplaceAllAtPattern(s: string, pat: string, rep: string)
    requires |pat| > 0
    ensures ReplaceAll(pat + s, pat, rep) == rep + ReplaceAll(s, pat, rep)
  {
    assert IsPrefix(pat, pat + s);
    assert (pat + s)[|pat|..] == s;
  }

  /** Replacing a pattern that does not occur changes nothing. */
  lemma {:induction false} ReplaceAllAbsent(s: string, pat: string, rep: string)
    requires |pat| > 0 && !Contains(s, pat)
    ensures ReplaceAll(s, pat, rep) == s
    decreases |s|
  {
    if s != [] {
      ReplaceAllAbsent(s[1..], pat, rep);
    }
  }

  // ---------------------------------------------------------------------------
  // Decimal numbers: `str(n)`, `int(digits)` and `re.findall(r'\d+', s)`

  function DigitChar(d: nat): char
    requires d < 10
  {
    ('0' as int + d) as char
  }

  /** `str(n)` */
  function NatToString(n: nat): string
    decreases n
  {
    if n < 10 then [DigitChar(n)] else NatToString(n / 10) + [DigitChar(n % 10)]
  }

  predicate AllDigits(d: string) {
    forall k :: 0 <= k < |d| ==> IsDigit(d[k])
  }

  /** `int(d)` for a run of decimal digits. */
  function DecimalValue(d: string): nat
    requires AllDigits(d)
    decreases |d|
  {
    if d == [] then 0
    else 10 * DecimalValue(d[..|d| - 1]) + (d[|d| - 1] as int - '0' as int)
  }

  /** Reading back the decimal text of `n` gives `n`. */
  lemma {:induction false} DecimalOfNatToString(n: nat)
    ensures AllDigits(NatToString(n))
    ensures DecimalValue(NatToString(n)) == n
    decreases n
  {
    if n >= 10 {
      DecimalOfNatToString(n / 10);
      var d := NatToString(n);
      assert d[..|d| - 1] == NatToString(n / 10);
    }
  }

  function DigitRunLength(s: string): (n: nat)
    ensures n <= |s|
    ensures forall k :: 0 <= k < n ==> IsDigit(s[k])
  {
    if s == [] || !IsDigit(s[0]) then 0 else 1 + DigitRunLength(s[1..])
  }

  /** `[int(m) for m in re.findall(r'\d+', s)]`, digits being ASCII. */
  function DigitRuns(s: string): seq<nat>
    decreases |s|
  {
    if s == [] then []
    else if !IsDigit(s[0]) then DigitRuns(s[1..])
    else
      var n := DigitRunLength(s);
      [DecimalValue(s[..n])] + DigitRuns(s[n..])
  }

  lemma {:induction false} DigitRunLengthOfDigits(d: string, s: string)
    requires AllDigits(d) && (s == [] || !IsDigit(s[0]))
    ensures DigitRunLength(d + s) == |d|
    decreases |d|
  {
    if d != [] {
      assert (d + s)[1..] == d[1..] + s;
      DigitRunLengthOfDigits(d[1..], s);
    }
  }

  /** The decimal text of `n` followed by a non-digit reads back as `n`
      followed by the numbers of the rest. */
  lemma DigitRunsOfNumber(n: nat, s: string)
    requires s == [] || !IsDigit(s[0])
    ensures DigitRuns(NatToString(n) + s) == [n] + DigitRuns(s)
  {
    var d := NatToString(n);
    DecimalOfNatToString(n);
    DigitRunLengthOfDigits(d, s);
    assert (d + s)[..|d|] == d;
    assert (d + s)[|d|..] == s;
  }

  /** Leading non-digits contribute no numbers. */
  lemma {:induction false} DigitRunsSkipping(sep: string, rest: string)
    requires forall k :: 0 <= k < |sep| ==> !IsDigit(sep[k])
    ensures DigitRuns(sep + rest) == DigitRuns(rest)
    decreases |sep|
  {
    if sep != [] {
      var t := sep + rest;
      assert t[0] == sep[0] && !IsDigit(t[0]);
      assert t[1..] == sep[1..] + rest;
      assert DigitRuns(t) == DigitRuns(t[1..]);
      DigitRunsSkipping(sep[1..], rest);
    } else {
      assert sep + rest == rest;
    }
  }

  /** The decimal texts of `ns`, with `sep` between each two. */
  function NumberList(ns: seq<nat>, sep: string): string
    decreases |ns|
  {
    if ns == [] then ""
    else if |ns| == 1 then NatToString(ns[0])
    else NatToString(ns[0]) + (sep + NumberList(ns[1..], sep))
  }

  /** Numbers written out with a non-empty digit-free separator read back as
      the same numbers, in the same order. */
  lemma {:induction false} DigitRunsOfList(ns: seq<nat>, sep: string)
    requires sep != [] && forall k :: 0 <= k < |sep| ==> !IsDigit(sep[k])
    ensures DigitRuns(NumberList(ns, sep)) == ns
    decreases |ns|
  {
    if |ns| == 1 {
      DigitRunsOfNumber(ns[0], "");
      assert NatToString(ns[0]) + "" == NatToString(ns[0]);
    } else if |ns| > 1 {
      var rest := NumberList(ns[1..], sep);
      DigitRunsOfList(ns[1..], sep);
      DigitRunsSkipping(sep, rest);
      DigitRunsOfNumber(ns[0], sep + rest);
      assert ns == [ns[0]] + ns[1..];
    }
  }

  // ---------------------------------------------------------------------------
  // Lists of strings

  /** `[prefix + x for x in xs]` */
  function Prefixed(prefix: string, xs: seq<string>): seq<string> {
    seq(|xs|, i requires 0 <= i < |xs| => prefix + xs[i])
  }
}
