/** The string operations the authorization guards use: Python's
    `str.startswith` and `str.replace` (every occurrence, scanned left to
    right, occurrences never overlapping). */
module Strings {

  /** `s.startswith(prefix)`: `prefix` occurs at index 0. */
  predicate StartsWith(s: string, prefix: string)
    ensures StartsWith(s, prefix) <==> OccursAt(s, prefix, 0)
  {
    |prefix| <= |s| && s[..|prefix|] == prefix
  }

  /** What `startswith` means: `s` is `prefix` followed by some rest. */
  lemma StartsWithIffPrefixPlusRest(s: string, prefix: string)
    ensures StartsWith(s, prefix) <==> exists t :: s == prefix + t
  {
    if StartsWith(s, prefix) {
      assert s == prefix + s[|prefix|..];
    }
    if exists t :: s == prefix + t {
      var t :| s == prefix + t;
      assert s[..|prefix|] == prefix;
    }
  }

  /** `pat` occurs in `s` starting at index `i`. */
  predicate OccursAt(s: string, pat: string, i: int) {
    0 <= i && i + |pat| <= |s| && s[i..i + |pat|] == pat
  }

  /** `pat in s`. */
  ghost predicate Contains(s: string, pat: string) {
    exists i :: OccursAt(s, pat, i)
  }

  /** `s.replace(pat, rep)` for a non-empty `pat`: an occurrence at the scan
      position is replaced and the scan resumes after it, otherwise one
      character is kept. Removing (`rep == ""`) never lengthens the string. */
  function ReplaceAll(s: string, pat: string, rep: string): (r: string)
    requires pat != []
    ensures |rep| <= |pat| ==> |r| <= |s|
    decreases |s|
  {
    if |s| < |pat| then s
    else if StartsWith(s, pat) then rep + ReplaceAll(s[|pat|..], pat, rep)
    else [s[0]] + ReplaceAll(s[1..], pat, rep)
  }

  /** The number of occurrences `ReplaceAll` replaces: `s.count(pat)`. They
      never overlap, so together they fit in `s`. */
  function CountOccurrences(s: string, pat: string): (n: nat)
    requires pat != []
    ensures n * |pat| <= |s|
    decreases |s|
  {
    if |s| < |pat| then 0
    else if StartsWith(s, pat) then
      var c := CountOccurrences(s[|pat|..], pat);
      MulSucc(c, |pat|);
      1 + c
    else CountOccurrences(s[1..], pat)
  }

  /** `s * n`. */
  function Repeat(s: string, n: nat): (r: string)
    ensures |r| == n * |s|
  {
    if n == 0 then [] else s + Repeat(s, n - 1)
  }

  /** Occurrences in the tail of `s` are those of `s`, shifted by one. */
  lemma OccursInTail(s: string, pat: string, i: int)
    requires |s| > 0 && i >= 0
    ensures OccursAt(s[1..], pat, i) <==> OccursAt(s, pat, i + 1)
  {
    if i + |pat| <= |s| - 1 {
      assert s[1..][i..i + |pat|] == s[i + 1..i + 1 + |pat|];
    }
  }

  /** If `s` does not start with `pat`, it contains `pat` exactly when its tail does. */
  lemma ContainsIffTailContains(s: string, pat: string)
    requires |s| > 0 && !OccursAt(s, pat, 0)
    ensures Contains(s, pat) <==> Contains(s[1..], pat)
  {
    if Contains(s, pat) {
      var i :| OccursAt(s, pat, i);
      assert i != 0;
      OccursInTail(s, pat, i - 1);
    }
    if Contains(s[1..], pat) {
      var j :| OccursAt(s[1..], pat, j);
      OccursInTail(s, pat, j);
    }
  }

  /** `ReplaceAll` replaces something exactly when `pat` occurs in `s`. */
  lemma {:induction false} CountPositiveIffContains(s: string, pat: string)
    requires pat != []
    ensures CountOccurrences(s, pat) > 0 <==> Contains(s, pat)
    decreases |s|
  {
    if |s| < |pat| {
      assert !Contains(s, pat);
    } else if StartsWith(s, pat) {
    } else {
      ContainsIffTailContains(s, pat);
      CountPositiveIffContains(s[1..], pat);
    }
  }

  /** A string in which `pat` does not occur is left unchanged. */
  lemma {:induction false} ReplaceAbsent(s: string, pat: string, rep: string)
    requires pat != [] && !Contains(s, pat)
    ensures ReplaceAll(s, pat, rep) == s
    decreases |s|
  {
    if |s| >= |pat| {
      ContainsIffTailContains(s, pat);
      ReplaceAbsent(s[1..], pat, rep);
      assert [s[0]] + s[1..] == s;
    }
  }

  /** Without an occurrence at the scan position one character is kept. */
  lemma ReplaceAfterMismatch(s: string, pat: string, rep: string)
    requires pat != [] && |s| >= |pat| && !StartsWith(s, pat)
    ensures ReplaceAll(s, pat, rep) == [s[0]] + ReplaceAll(s[1..], pat, rep)
  {
  }

  lemma MulSucc(c: int, d: int)
    ensures (1 + c) * d == d + c * d
  {
  }

  lemma MulNeg(c: int, p: int)
    ensures c * (0 - p) == 0 - p * c
  {
  }

  lemma MulAtLeast(c: int, p: int)
    requires c >= 1 && p >= 0
    ensures p * c >= p
  {
  }

  /** Every replaced occurrence changes the length by `|rep| - |pat|`. */
  lemma {:induction false} ReplaceLength(s: string, pat: string, rep: string)
    requires pat != []
    ensures |ReplaceAll(s, pat, rep)| == |s| + CountOccurrences(s, pat) * (|rep| - |pat|)
    decreases |s|
  {
    if |s| < |pat| {
    } else if StartsWith(s, pat) {
      var c, d := CountOccurrences(s[|pat|..], pat), |rep| - |pat|;
      ReplaceLength(s[|pat|..], pat, rep);
      assert |ReplaceAll(s, pat, rep)| == |rep| + |s| - |pat| + c * d;
      MulSucc(c, d);
    } else {
      ReplaceLength(s[1..], pat, rep);
    }
  }

  /** Removing every occurrence of `pat` shortens `s` by `|pat|` per occurrence. */
  lemma RemovalLength(s: string, pat: string)
    requires pat != []
    ensures |s| == |ReplaceAll(s, pat, "")| + |pat| * CountOccurrences(s, pat)
  {
    ReplaceLength(s, pat, "");
    MulNeg(CountOccurrences(s, pat), |pat|);
  }

  /** Removing every occurrence of `pat` from a string containing it strictly shortens it. */
  lemma RemovalShrinks(s: string, pat: string)
    requires pat != [] && Contains(s, pat)
    ensures |ReplaceAll(s, pat, "")| <= |s| - |pat|
  {
    RemovalLength(s, pat);
    CountPositiveIffContains(s, pat);
    MulAtLeast(CountOccurrences(s, pat), |pat|);
  }

  /** A leading occurrence is replaced and the scan resumes right after it. */
  lemma ReplaceAfterLeading(pat: string, s: string, rep: string)
    requires pat != []
    ensures ReplaceAll(pat + s, pat, rep) == rep + ReplaceAll(s, pat, rep)
  {
    var t := pat + s;
    assert t[..|pat|] == pat;
    assert t[|pat|..] == s;
  }

  /** A leftmost occurrence past index 0 is, shifted by one, the leftmost
      occurrence in the tail. */
  lemma LeftmostInTail(s: string, pat: string, i: nat)
    requires i > 0 && OccursAt(s, pat, i)
    requires forall j :: 0 <= j < i ==> !OccursAt(s, pat, j)
    ensures OccursAt(s[1..], pat, i - 1)
    ensures forall j :: 0 <= j < i - 1 ==> !OccursAt(s[1..], pat, j)
  {
    OccursInTail(s, pat, i - 1);
    forall j | 0 <= j < i - 1
      ensures !OccursAt(s[1..], pat, j)
    {
      OccursInTail(s, pat, j);
    }
  }

  /** The general step of the scan: everything before the leftmost occurrence
      is kept, that occurrence is replaced, and the scan resumes after it. */
  lemma {:induction false} ReplaceAtLeftmost(s: string, pat: string, rep: string, i: nat)
    requires pat != [] && OccursAt(s, pat, i)
    requires forall j :: 0 <= j < i ==> !OccursAt(s, pat, j)
    ensures ReplaceAll(s, pat, rep) == s[..i] + rep + ReplaceAll(s[i + |pat|..], pat, rep)
    decreases i
  {
    if i == 0 {
      assert s[..0] + rep == rep;
    } else {
      var tail := s[1..];
      assert ReplaceAll(s, pat, rep) == [s[0]] + ReplaceAll(tail, pat, rep) by {
        assert !OccursAt(s, pat, 0);
      }
      LeftmostInTail(s, pat, i);
      ReplaceAtLeftmost(tail, pat, rep, i - 1);
      assert tail[i - 1 + |pat|..] == s[i + |pat|..];
      assert [s[0]] + tail[..i - 1] == s[..i];
    }
  }

  /** `n` leading copies of `pat` become `n` copies of `rep`. */
  lemma {:induction false} ReplaceRepeatedPrefix(pat: string, n: nat, s: string, rep: string)
    requires pat != []
    ensures ReplaceAll(Repeat(pat, n) + s, pat, rep) == Repeat(rep, n) + ReplaceAll(s, pat, rep)
  {
    if n == 0 {
      assert Repeat(pat, 0) + s == s;
      assert Repeat(rep, 0) + ReplaceAll(s, pat, rep) == ReplaceAll(s, pat, rep);
    } else {
      var rest := Repeat(pat, n - 1) + s;
      assert Repeat(pat, n) + s == pat + rest;
      ReplaceAfterLeading(pat, rest, rep);
      ReplaceRepeatedPrefix(pat, n - 1, s, rep);
      assert Repeat(rep, n) + ReplaceAll(s, pat, rep)
          == rep + (Repeat(rep, n - 1) + ReplaceAll(s, pat, rep));
    }
  }
}
