/**
  The handful of Python `str` operations the pipeline relies on:
  `strip()`, `lower()`, the substring test `sub in s`, and `sep.join(xs)`.
  `Split` is not used by the pipeline; it is the inverse against which
  `Join` is checked (a joined context can be cut back into its passages).
*/
module Text {
  import opened Common

  // ---------------------------------------------------------------------
  // Whitespace and str.strip()
  // ---------------------------------------------------------------------

  /** Python's `str.isspace()` for a single character. */
  predicate IsSpace(c: char) {
    || ('\U{0009}' <= c <= '\U{000D}')
    || ('\U{001C}' <= c <= '\U{001F}')
    || c == ' '
    || c == '\U{0085}'
    || c == '\U{00A0}'
    || c == '\U{1680}'
    || ('\U{2000}' <= c <= '\U{200A}')
    || c == '\U{2028}'
    || c == '\U{2029}'
    || c == '\U{202F}'
    || c == '\U{205F}'
    || c == '\U{3000}'
  }

  predicate AllSpace(s: string) {
    forall i :: 0 <= i < |s| ==> IsSpace(s[i])
  }

  /** The number of whitespace characters `s` starts with: all of them are whitespace, and the next one is not. */
  function LeadingSpace(s: string): (n: nat)
    ensures n <= |s| && AllSpace(s[..n])
    ensures n == |s| || !IsSpace(s[n])
  {
    if |s| > 0 && IsSpace(s[0]) then
      var m := LeadingSpace(s[1..]);
      AllSpaceCons(s, m);
      1 + m
    else 0
  }

  /** The number of whitespace characters `s` ends with: all of them are whitespace, and the one before is not. */
  function TrailingSpace(s: string): (n: nat)
    ensures n <= |s| && AllSpace(s[|s| - n..])
    ensures n == |s| || !IsSpace(s[|s| - n - 1])
  {
    if |s| > 0 && IsSpace(s[|s| - 1]) then
      var m := TrailingSpace(s[..|s| - 1]);
      AllSpaceSnoc(s, m);
      1 + m
    else 0
  }

  /** Python's `s.strip()` with no argument: leading whitespace is cut, then trailing whitespace. */
  function Strip(s: string): (r: string)
    ensures |r| <= |s|
    ensures r == [] || (!IsSpace(r[0]) && !IsSpace(r[|r| - 1]))
  {
    var t := s[LeadingSpace(s)..];
    t[..|t| - TrailingSpace(t)]
  }

  /**
    `Strip(s)` is the slice of `s` that starts at the returned offset; what
    lies before and after that slice is whitespace.
  */
  lemma StripOffset(s: string) returns (k: int)
    ensures 0 <= k <= |s| - |Strip(s)|
    ensures Strip(s) == s[k..k + |Strip(s)|]
    ensures AllSpace(s[..k]) && AllSpace(s[k + |Strip(s)|..])
  {
    k := LeadingSpace(s);
    var t := s[k..];
    var j := |t| - TrailingSpace(t);
    var r := Strip(s);
    assert r == t[..j] && |r| == j;
    SliceOfSuffix(s, k, j);
    assert AllSpace(t[j..]);
  }

  /** A whitespace character followed by `m` whitespace characters. */
  lemma AllSpaceCons(s: string, m: int)
    requires 0 <= m < |s| && IsSpace(s[0]) && AllSpace(s[1..][..m])
    ensures AllSpace(s[..m + 1])
  {
    var p, q := s[..m + 1], s[1..][..m];
    forall i | 0 <= i < |p| ensures IsSpace(p[i]) {
      if i > 0 {
        assert p[i] == q[i - 1];
      }
    }
  }

  /** `m` whitespace characters followed by a whitespace character. */
  lemma AllSpaceSnoc(s: string, m: int)
    requires 0 <= m < |s| && IsSpace(s[|s| - 1]) && AllSpace(s[..|s| - 1][|s| - 1 - m..])
    ensures AllSpace(s[|s| - m - 1..])
  {
    var p, q := s[|s| - m - 1..], s[..|s| - 1][|s| - 1 - m..];
    forall i | 0 <= i < |p| ensures IsSpace(p[i]) {
      if i < m {
        assert p[i] == q[i];
      }
    }
  }

  /** Slicing a suffix is slicing the whole sequence at shifted indices. */
  lemma SliceOfSuffix<T>(s: seq<T>, k: int, n: int)
    requires 0 <= k <= |s| && 0 <= n <= |s| - k
    ensures s[k..][..n] == s[k..k + n] && s[k..][n..] == s[k + n..]
  {
  }

  // ---------------------------------------------------------------------
  // str.lower()
  // ---------------------------------------------------------------------

  /** Lower-cases an ASCII capital; every other character is left as it is. */
  function LowerChar(c: char): (d: char)
    ensures d == 'j' <==> (c == 'j' || c == 'J')
    ensures d == 'a' <==> (c == 'a' || c == 'A')
    ensures IsSpace(d) <==> IsSpace(c)
  {
    if 'A' <= c <= 'Z' then (c as int + 32) as char else c
  }

  /** `s.lower()`, character by character (see `LowerChar`). */
  function Lower(s: string): (r: string)
    ensures |r| == |s|
    ensures forall i :: 0 <= i < |s| ==> r[i] == LowerChar(s[i])
  {
    if s == [] then [] else [LowerChar(s[0])] + Lower(s[1..])
  }

  // ---------------------------------------------------------------------
  // Substring search: `sub in s`
  // ---------------------------------------------------------------------

  /** `sub` occurs in `s` starting at index `j`. */
  predicate OccursAt(s: string, sub: string, j: int) {
    0 <= j && j + |sub| <= |s| && s[j..j + |sub|] == sub
  }

  /** Python's `s.find(sub)`: the first index at which `sub` occurs in `s`, or `None`. */
  function Find(s: string, sub: string): (r: Option<nat>)
    ensures r.Some? ==> OccursAt(s, sub, r.value)
    ensures r.Some? ==> forall j :: 0 <= j < r.value ==> !OccursAt(s, sub, j)
    ensures r.None? ==> forall j :: !OccursAt(s, sub, j)
  {
    if |s| < |sub| then None
    else if s[..|sub|] == sub then Some(0)
    else
      var rest := Find(s[1..], sub);
      assert !OccursAt(s, sub, 0);
      match rest
      case None =>
        assert forall j :: !OccursAt(s, sub, j) by {
          forall j ensures !OccursAt(s, sub, j) {
            if j > 0 { OccursShift(s, sub, j); }
          }
        }
        None
      case Some(i) =>
        OccursShift(s, sub, i + 1);
        assert forall j :: 0 <= j < i + 1 ==> !OccursAt(s, sub, j) by {
          forall j | 0 < j < i + 1 ensures !OccursAt(s, sub, j) {
            OccursShift(s, sub, j);
          }
        }
        Some(i + 1)
  }

  /** An occurrence at `j > 0` is an occurrence at `j - 1` in the string without its first character. */
  lemma OccursShift(s: string, sub: string, j: int)
    requires |s| > 0 && j > 0
    ensures OccursAt(s, sub, j) <==> OccursAt(s[1..], sub, j - 1)
  {
    if j + |sub| <= |s| {
      assert s[1..][j - 1..j - 1 + |sub|] == s[j..j + |sub|];
    }
  }

  /** Python's `sub in s`. */
  function Contains(s: string, sub: string): (b: bool)
    ensures b <==> exists j :: OccursAt(s, sub, j)
  {
    Find(s, sub).Some?
  }

  // ---------------------------------------------------------------------
  // sep.join(xs) and its inverse
  // ---------------------------------------------------------------------

  /** Python's `sep.join(xs)`. */
  function Join(xs: seq<string>, sep: string): (r: string)
  {
    if |xs| == 0 then ""
    else if |xs| == 1 then xs[0]
    else xs[0] + sep + Join(xs[1..], sep)
  }

  /** Cuts `s` at every occurrence of `sep`, scanning left to right (Python's `s.split(sep)`). */
  function Split(s: string, sep: string): (r: seq<string>)
    requires |sep| > 0
    ensures |r| >= 1
    ensures forall k :: 0 <= k < |r| ==> !Contains(r[k], sep)
    decreases |s|
  {
    match Find(s, sep)
    case None => [s]
    case Some(i) =>
      var head := s[..i];
      assert !Contains(head, sep) by {
        forall j ensures !OccursAt(head, sep, j) {
          if OccursAt(head, sep, j) {
            assert s[j..j + |sep|] == head[j..j + |sep|];
            assert OccursAt(s, sep, j);
          }
        }
      }
      [head] + Split(s[i + |sep|..], sep)
  }

  /** `x` can stand before `sep` in a joined string without `sep` being found earlier than its real position. */
  predicate Separable(x: string, sep: string) {
    forall i :: 0 <= i < |x| ==> !OccursAt(x + sep, sep, i)
  }

  /** Joining the pieces of any string gives the string back. */
  lemma {:induction false} JoinSplit(s: string, sep: string)
    requires |sep| > 0
    ensures Join(Split(s, sep), sep) == s
    decreases |s|
  {
    match Find(s, sep)
    case None =>
    case Some(i) =>
      var t := s[i + |sep|..];
      var tail := Split(t, sep);
      JoinSplit(t, sep);
      var pieces := [s[..i]] + tail;
      assert Split(s, sep) == pieces;
      assert pieces[1..] == tail;
      assert |pieces| > 1;
      assert Join(pieces, sep) == s[..i] + sep + Join(tail, sep);
      assert s[i..i + |sep|] == sep;
      assert s == s[..i] + s[i..i + |sep|] + t;
  }

  /** A separable piece holds no separator of its own. */
  lemma SeparableHasNoSeparator(x: string, sep: string)
    requires |sep| > 0 && Separable(x, sep)
    ensures Find(x, sep).None?
  {
    forall j ensures !OccursAt(x, sep, j) {
      if OccursAt(x, sep, j) {
        assert (x + sep)[j..j + |sep|] == x[j..j + |sep|];
        assert OccursAt(x + sep, sep, j);
      }
    }
  }

  /** After a separable piece, the first separator found is the one that follows it. */
  lemma FindAfterSeparable(x: string, sep: string, rest: string)
    requires |sep| > 0 && Separable(x, sep)
    ensures Find(x + sep + rest, sep) == Some(|x|)
  {
    var s := x + sep + rest;
    assert s[|x|..|x| + |sep|] == sep;
    assert OccursAt(s, sep, |x|);
    forall j | 0 <= j < |x| ensures !OccursAt(s, sep, j) {
      if OccursAt(s, sep, j) {
        assert s[j..j + |sep|] == (x + sep)[j..j + |sep|];
        assert OccursAt(x + sep, sep, j);
      }
    }
  }

  /** Splitting a join of separable pieces gives the pieces back, in order. */
  lemma {:induction false} SplitJoin(xs: seq<string>, sep: string)
    requires |sep| > 0 && |xs| > 0
    requires forall k :: 0 <= k < |xs| ==> Separable(xs[k], sep)
    ensures Split(Join(xs, sep), sep) == xs
  {
    var x := xs[0];
    assert Separable(x, sep);
    if |xs| == 1 {
      SeparableHasNoSeparator(x, sep);
    } else {
      var rest := Join(xs[1..], sep);
      var s := x + sep + rest;
      assert Join(xs, sep) == s;
      FindAfterSeparable(x, sep, rest);
      assert s[..|x|] == x;
      assert s[|x| + |sep|..] == rest;
      SplitJoin(xs[1..], sep);
      assert Split(s, sep) == [x] + Split(rest, sep);
      assert [x] + xs[1..] == xs;
    }
  }

  /** Joining two non-empty lists is joining their joins. */
  lemma {:induction false} JoinAppend(xs: seq<string>, ys: seq<string>, sep: string)
    requires |xs| > 0 && |ys| > 0
    ensures Join(xs + ys, sep) == Join(xs, sep) + sep + Join(ys, sep)
  {
    if |xs| == 1 {
      assert (xs + ys)[1..] == ys;
    } else {
      assert (xs + ys)[1..] == xs[1..] + ys;
      JoinAppend(xs[1..], ys, sep);
    }
  }

  /** Length of a join: the pieces' lengths plus one separator between each pair of neighbours. */
  function TotalLength(xs: seq<string>): nat {
    if xs == [] then 0 else |xs[0]| + TotalLength(xs[1..])
  }

  lemma {:induction false} JoinLength(xs: seq<string>, sep: string)
    requires |xs| > 0
    ensures |Join(xs, sep)| == TotalLength(xs) + (|xs| - 1) * |sep|
  {
    if |xs| > 1 {
      JoinLength(xs[1..], sep);
    }
  }
}
