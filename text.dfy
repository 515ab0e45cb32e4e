/** The few Python string operations the changelog tool relies on, stated over `seq<char>`. */
module Text {
  import opened Wrappers

  /** The characters at which Python's `str.splitlines` ends a line. `\r\n` is one boundary. */
  predicate IsLineBreak(c: char) {
    c == '\n' || c == '\r' || c == '\U{0B}' || c == '\U{0C}' || c == '\U{1C}' || c == '\U{1D}'
    || c == '\U{1E}' || c == '\U{85}' || c == '\U{2028}' || c == '\U{2029}'
  }

  /** The characters that Python's `str.strip()` (no argument) removes. */
  predicate IsSpace(c: char) {
    c == '\t' || c == '\n' || c == '\U{0B}' || c == '\U{0C}' || c == '\r'
    || ('\U{1C}' <= c <= '\U{1F}') || c == ' ' || c == '\U{85}' || c == '\U{A0}' || c == '\U{1680}'
    || ('\U{2000}' <= c <= '\U{200A}') || c == '\U{2028}' || c == '\U{2029}' || c == '\U{202F}'
    || c == '\U{205F}' || c == '\U{3000}'
  }

  /** `s.strip()` is the empty string exactly when every character of `s` is whitespace. */
  predicate IsBlank(s: string) {
    forall i :: 0 <= i < |s| ==> IsSpace(s[i])
  }

  predicate NoBreak(s: string) {
    forall i :: 0 <= i < |s| ==> !IsLineBreak(s[i])
  }

  predicate AllNoBreak(lines: seq<string>) {
    forall k :: 0 <= k < |lines| ==> NoBreak(lines[k])
  }

  /** Index of the first line-break character of `s`, or `|s|` when there is none. */
  function FirstBreak(s: string): (i: nat)
    ensures i <= |s|
    ensures forall j :: 0 <= j < i ==> !IsLineBreak(s[j])
    ensures i < |s| ==> IsLineBreak(s[i])
  {
    if s == [] then 0
    else if IsLineBreak(s[0]) then 0
    else 1 + FirstBreak(s[1..])
  }

  lemma {:induction false} FirstBreakAfterPlain(a: string, b: string)
    requires NoBreak(a)
    ensures FirstBreak(a + b) == |a| + FirstBreak(b)
  {
    if a != [] {
      assert (a + b)[0] == a[0] && !IsLineBreak(a[0]);
      assert (a + b)[1..] == a[1..] + b;
      assert NoBreak(a[1..]) by {
        forall i | 0 <= i < |a[1..]| ensures !IsLineBreak(a[1..][i]) {
          assert a[1..][i] == a[i + 1];
        }
      }
      FirstBreakAfterPlain(a[1..], b);
    } else {
      assert a + b == b;
    }
  }

  /**
   * Python's `str.splitlines()`: the pieces between line boundaries, with `\r\n` counted as one
   * boundary and no empty piece after a final boundary (so `""` has no lines at all).
   */
  function SplitLines(s: string): (lines: seq<string>)
    ensures AllNoBreak(lines)
    decreases |s|
  {
    if s == [] then []
    else
      var i := FirstBreak(s);
      if i == |s| then [s]
      else
        var width := if s[i] == '\r' && i + 1 < |s| && s[i + 1] == '\n' then 2 else 1;
        [s[..i]] + SplitLines(s[i + width..])
  }

  /** `sep.join(xs)` */
  function Join(sep: string, xs: seq<string>): string
    decreases |xs|
  {
    if xs == [] then ""
    else if |xs| == 1 then xs[0]
    else xs[0] + sep + Join(sep, xs[1..])
  }

  function TotalLength(xs: seq<string>): nat
    decreases |xs|
  {
    if xs == [] then 0 else |xs[0]| + TotalLength(xs[1..])
  }

  /** A join of n pieces holds the n pieces and n - 1 copies of the separator. */
  lemma {:induction false} JoinLength(sep: string, xs: seq<string>)
    requires xs != []
    ensures |Join(sep, xs)| == TotalLength(xs) + (|xs| - 1) * |sep|
  {
    if |xs| > 1 {
      JoinLength(sep, xs[1..]);
    }
  }

  lemma {:induction false} JoinStartsWithFirst(sep: string, xs: seq<string>)
    requires xs != []
    ensures StartsWith(Join(sep, xs), xs[0])
  {
  }

  /** Joining one more piece adds one separator and the piece at the end. */
  lemma {:induction false} JoinAppend(sep: string, xs: seq<string>, x: string)
    requires xs != []
    ensures Join(sep, xs + [x]) == Join(sep, xs) + sep + x
    decreases |xs|
  {
    if |xs| > 1 {
      assert (xs + [x])[1..] == xs[1..] + [x];
      JoinAppend(sep, xs[1..], x);
    }
  }

  /** What `splitlines` gives back from lines joined by `"\n"`: a final empty line is lost. */
  function DropTrailingEmpty(xs: seq<string>): seq<string> {
    if xs != [] && xs[|xs| - 1] == "" then xs[..|xs| - 1] else xs
  }

  /** A line ended by `"\n"` is split off whole, and splitting continues after it. */
  lemma SplitLinesCons(x: string, rest: string)
    requires NoBreak(x)
    ensures SplitLines(x + "\n" + rest) == [x] + SplitLines(rest)
  {
    var s := x + "\n" + rest;
    assert s == x + ("\n" + rest);
    FirstBreakAfterPlain(x, "\n" + rest);
    assert s[|x|] == '\n';
    assert s[..|x|] == x;
    assert s[|x| + 1..] == rest;
  }

  lemma DropTrailingEmptyCons(x: string, rest: seq<string>)
    requires rest != []
    ensures DropTrailingEmpty([x] + rest) == [x] + DropTrailingEmpty(rest)
  {
    var xs := [x] + rest;
    if rest[|rest| - 1] == "" {
      assert xs[..|xs| - 1] == [x] + rest[..|rest| - 1];
    }
  }

  lemma AllNoBreakTail(xs: seq<string>)
    requires xs != [] && AllNoBreak(xs)
    ensures NoBreak(xs[0]) && AllNoBreak(xs[1..])
  {
    forall k | 0 <= k < |xs[1..]| ensures NoBreak(xs[1..][k]) {
      assert xs[1..][k] == xs[k + 1];
    }
  }

  /** `"\n".join` followed by `splitlines` returns the lines, except for a final empty one. */
  lemma {:induction false} SplitLinesOfJoin(xs: seq<string>)
    requires AllNoBreak(xs)
    ensures SplitLines(Join("\n", xs)) == DropTrailingEmpty(xs)
    decreases |xs|
  {
    if xs == [] {
    } else if |xs| == 1 {
      if xs[0] != "" {
        FirstBreakAfterPlain(xs[0], "");
        assert xs[0] + "" == xs[0];
      }
    } else {
      AllNoBreakTail(xs);
      assert Join("\n", xs) == xs[0] + "\n" + Join("\n", xs[1..]);
      SplitLinesCons(xs[0], Join("\n", xs[1..]));
      SplitLinesOfJoin(xs[1..]);
      DropTrailingEmptyCons(xs[0], xs[1..]);
      assert xs == [xs[0]] + xs[1..];
    }
  }

  predicate StartsWith(s: string, prefix: string) {
    |prefix| <= |s| && s[..|prefix|] == prefix
  }

  predicate EndsWith(s: string, suffix: string) {
    |suffix| <= |s| && s[|s| - |suffix|..] == suffix
  }

  /** `s.startswith(prefixes)` for a tuple of prefixes. */
  predicate StartsWithAny(s: string, prefixes: seq<string>) {
    exists p :: p in prefixes && StartsWith(s, p)
  }

  /** `sub in s` */
  predicate Contains(s: string, sub: string)
    decreases |s|
  {
    StartsWith(s, sub) || (s != [] && Contains(s[1..], sub))
  }

  lemma ContainsItself(s: string)
    ensures Contains(s, s)
  {
  }

  /** Lower-casing one character: ASCII capitals only (see README, "Left out"). */
  function LowerChar(c: char): char {
    if 'A' <= c <= 'Z' then (c as int + 32) as char else c
  }

  /** `s.lower()` */
  function Lower(s: string): (r: string)
    ensures |r| == |s|
    ensures forall i :: 0 <= i < |s| ==> r[i] == LowerChar(s[i])
  {
    seq(|s|, i requires 0 <= i < |s| => LowerChar(s[i]))
  }

  lemma LowerIdempotent(s: string)
    ensures Lower(Lower(s)) == Lower(s)
  {
    assert forall i :: 0 <= i < |s| ==> LowerChar(LowerChar(s[i])) == LowerChar(s[i]);
  }

  lemma LowerSlice(s: string, i: nat, j: nat)
    requires i <= j <= |s|
    ensures Lower(s[i..j]) == Lower(s)[i..j]
  {
  }

  /** `c not in s` */
  predicate Lacks(s: string, c: char) {
    forall i :: 0 <= i < |s| ==> s[i] != c
  }

  lemma LacksSlice(s: string, c: char, a: nat, b: nat)
    requires Lacks(s, c) && a <= b <= |s|
    ensures Lacks(s[a..b], c)
  {
    assert forall j :: 0 <= j < b - a ==> s[a..b][j] == s[a + j];
  }

  /** Index of the first occurrence of `c` in `s`. */
  function IndexOf(s: string, c: char): (r: Option<nat>)
    ensures r.None? <==> (forall j :: 0 <= j < |s| ==> s[j] != c)
    ensures r.Some? ==> r.value < |s| && s[r.value] == c && forall j :: 0 <= j < r.value ==> s[j] != c
  {
    if s == [] then None
    else if s[0] == c then Some(0)
    else match IndexOf(s[1..], c)
      case None => None
      case Some(i) => Some(i + 1)
  }

  /** Index of the last occurrence of `c` in `s` (Python's `rfind`, with `None` for -1). */
  function LastIndexOf(s: string, c: char): (r: Option<nat>)
    ensures r.None? <==> (forall j :: 0 <= j < |s| ==> s[j] != c)
    ensures r.Some? ==> r.value < |s| && s[r.value] == c && forall j :: r.value < j < |s| ==> s[j] != c
    decreases |s|
  {
    if s == [] then None
    else if s[|s| - 1] == c then Some(|s| - 1)
    else LastIndexOf(s[..|s| - 1], c)
  }
}
