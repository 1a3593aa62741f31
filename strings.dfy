/** The few JavaScript string operations the core relies on: `indexOf`,
    `split` on a non-empty separator, `Array.prototype.join` and `trim`.
    Strings are sequences of UTF-16 code units in JavaScript; here they are
    sequences of `char`, and only equality of characters is used. */
module Strings {
  import opened Wrappers

  /** The characters `String.prototype.trim` removes: ECMAScript's WhiteSpace
      (tab, vertical tab, form feed, space, no-break space, the byte-order
      mark and the Unicode space separators) and LineTerminator. */
  predicate IsWhitespace(c: char) {
    || '\t' <= c <= '\r' || c == ' ' || c == '\U{A0}' || c == '\U{1680}'
    || '\U{2000}' <= c <= '\U{200A}' || c == '\U{2028}' || c == '\U{2029}'
    || c == '\U{202F}' || c == '\U{205F}' || c == '\U{3000}' || c == '\U{FEFF}'
  }

  predicate AllWhitespace(s: string) {
    forall i :: 0 <= i < |s| ==> IsWhitespace(s[i])
  }

  /** The number of white-space characters `s` starts with. */
  function LeadingWhitespace(s: string): (n: nat)
    ensures n <= |s|
    ensures forall i :: 0 <= i < n ==> IsWhitespace(s[i])
    ensures n == |s| || !IsWhitespace(s[n])
  {
    if s != [] && IsWhitespace(s[0]) then
      var n := 1 + LeadingWhitespace(s[1..]);
      assert forall i :: 1 <= i < n ==> s[i] == s[1..][i - 1];
      n
    else
      0
  }

  /** The length of `s` without the white-space characters it ends with. */
  function TrailingStart(s: string): (n: nat)
    ensures n <= |s|
    ensures forall i :: n <= i < |s| ==> IsWhitespace(s[i])
    ensures n == 0 || !IsWhitespace(s[n - 1])
  {
    if s != [] && IsWhitespace(s[|s| - 1]) then
      TrailingStart(s[..|s| - 1])
    else
      |s|
  }

  /** `r` is the part of `s` from position `a` on that leaves only white
      space on either side of it. */
  predicate Trims(s: string, a: nat, r: string) {
    a + |r| <= |s| && r == s[a..a + |r|]
    && (forall i :: 0 <= i < a ==> IsWhitespace(s[i]))
    && (forall i :: a + |r| <= i < |s| ==> IsWhitespace(s[i]))
  }

  /** `String.prototype.trim`: the result is the part of `s` between its
      leading and its trailing white space, and it is empty exactly when
      `s` is all white space. */
  function Trim(s: string): (r: string)
    ensures exists a :: Trims(s, a, r)
    ensures r == [] || (!IsWhitespace(r[0]) && !IsWhitespace(r[|r| - 1]))
    ensures r == [] <==> AllWhitespace(s)
  {
    var a := LeadingWhitespace(s);
    var b := TrailingStart(s);
    if a == |s| then
      assert Trims(s, a, []);
      []
    else
      assert !IsWhitespace(s[a]);
      assert a < b;
      assert Trims(s, a, s[a..b]);
      s[a..b]
  }

  /** `pat` occurs in `s` starting at position `i`. */
  predicate OccursAt(s: string, pat: string, i: nat) {
    i + |pat| <= |s| && s[i..i + |pat|] == pat
  }

  /** The first position at or after `from` where `pat` occurs in `s`. */
  function IndexFrom(s: string, pat: string, from: nat): (r: Option<nat>)
    requires from <= |s|
    ensures r.Some? ==> from <= r.value && OccursAt(s, pat, r.value)
    ensures r.Some? ==> forall i :: from <= i < r.value ==> !OccursAt(s, pat, i)
    ensures r.None? ==> forall i :: from <= i <= |s| ==> !OccursAt(s, pat, i)
    decreases |s| - from
  {
    if from + |pat| > |s| then None
    else if s[from..from + |pat|] == pat then Some(from)
    else if from == |s| then None
    else IndexFrom(s, pat, from + 1)
  }

  /** `String.prototype.indexOf`: the first occurrence of `pat` in `s`. */
  function IndexOf(s: string, pat: string): (r: Option<nat>)
    ensures r.Some? ==> OccursAt(s, pat, r.value)
                        && forall i :: 0 <= i < r.value ==> !OccursAt(s, pat, i)
    ensures r.None? ==> forall i :: 0 <= i <= |s| ==> !OccursAt(s, pat, i)
  {
    IndexFrom(s, pat, 0)
  }

  /** An occurrence with none before it is the one `IndexOf` finds. */
  lemma FirstOccurrence(s: string, pat: string, i: nat)
    requires OccursAt(s, pat, i)
    requires forall j :: 0 <= j < i ==> !OccursAt(s, pat, j)
    ensures IndexOf(s, pat) == Some(i)
  {
  }

  /** No occurrence starts where the first character of `pat` is absent. */
  lemma FirstCharAbsent(s: string, pat: string, n: nat)
    requires |pat| > 0 && n <= |s| && pat[0] !in s[..n]
    ensures forall j :: 0 <= j < n ==> !OccursAt(s, pat, j)
  {
    forall j | 0 <= j < n ensures !OccursAt(s, pat, j) {
      assert s[j] == s[..n][j] != pat[0];
      if j + |pat| <= |s| {
        assert s[j..j + |pat|][0] == s[j];
      }
    }
  }

  /** `Array.prototype.join`: the parts in order, `sep` between each two. */
  function Join(parts: seq<string>, sep: string): string {
    if |parts| == 0 then ""
    else if |parts| == 1 then parts[0]
    else parts[0] + sep + Join(parts[1..], sep)
  }

  /** `String.prototype.split` on a non-empty separator: the pieces of `s`
      between the occurrences of `sep`, found left to right. There is always
      at least one piece, no piece contains `sep`, and joining the pieces
      with `sep` gives `s` back. */
  function Split(s: string, sep: string): (r: seq<string>)
    requires |sep| > 0
    ensures |r| >= 1
    ensures Join(r, sep) == s
    ensures forall k :: 0 <= k < |r| ==> IndexOf(r[k], sep).None?
    ensures |r| == 1 <==> IndexOf(s, sep).None?
    ensures |r| > 1 ==> IndexOf(s, sep) == Some(|r[0]|)
    decreases |s|
  {
    match IndexOf(s, sep)
    case None => [s]
    case Some(i) =>
      var rest := Split(s[i + |sep|..], sep);
      var r := [s[..i]] + rest;
      assert r[1..] == rest;
      assert s == s[..i] + sep + s[i + |sep|..];
      NoEarlierOccurrence(s, sep, i);
      r
  }

  /** A prefix that ends before the first occurrence of `sep` holds none. */
  lemma NoEarlierOccurrence(s: string, sep: string, i: nat)
    requires |sep| > 0 && i <= |s|
    requires forall j :: 0 <= j < i ==> !OccursAt(s, sep, j)
    ensures IndexOf(s[..i], sep).None?
  {
    match IndexOf(s[..i], sep)
    case None =>
    case Some(j) =>
      assert s[..i][j..j + |sep|] == s[j..j + |sep|];
      assert OccursAt(s, sep, j);
      assert false;
  }

  /** Adding a part at the end of a join adds the separator and the part. */
  lemma {:induction false} JoinAppend(parts: seq<string>, x: string, sep: string)
    requires |parts| > 0
    ensures Join(parts + [x], sep) == Join(parts, sep) + sep + x
  {
    if |parts| > 1 {
      assert (parts + [x])[1..] == parts[1..] + [x];
      JoinAppend(parts[1..], x, sep);
    }
  }

  /** A string without the character `c` has no occurrence of `[c]`. */
  lemma AbsentCharNotFound(s: string, c: char)
    requires c !in s
    ensures IndexOf(s, [c]).None?
  {
    match IndexOf(s, [c])
    case None =>
    case Some(i) =>
      OccursSingle(s, c, i);
      assert false;
  }

  lemma OccursSingle(s: string, c: char, i: nat)
    requires OccursAt(s, [c], i)
    ensures i < |s| && s[i] == c
  {
    assert s[i] == s[i..i + 1][0];
  }

  /** Splitting a join on a one-character separator that no part contains
      gives the parts back. */
  lemma {:induction false} SplitJoin(parts: seq<string>, c: char)
    requires |parts| > 0
    requires forall k :: 0 <= k < |parts| ==> c !in parts[k]
    ensures Split(Join(parts, [c]), [c]) == parts
  {
    if |parts| == 1 {
      AbsentCharNotFound(parts[0], c);
    } else {
      var p0, tail := parts[0], Join(parts[1..], [c]);
      var s := p0 + [c] + tail;
      assert Join(parts, [c]) == s;
      assert OccursAt(s, [c], |p0|) by { assert s[|p0|..|p0| + 1] == [c]; }
      match IndexOf(s, [c])
      case None =>
        assert false;
      case Some(i) =>
        if i < |p0| {
          OccursSingle(s, c, i);
          assert false;
        }
        assert i == |p0|;
        assert s[..i] == p0;
        assert s[i + 1..] == tail;
        SplitJoin(parts[1..], c);
        assert Split(s, [c]) == [p0] + Split(tail, [c]);
    }
  }
}
