/**
 * The operations of Python's `str` that the pipeline relies on: whitespace as
 * `str.isspace()` and the regex class `\s` see it, `str.strip()`, `str.lower()`,
 * the `in` substring test, `str.startswith()` and `str.count()`.
 */
module Text {

  /** Python's `str.isspace()`; it is also the set `\s` matches in a `str` regex
      and the set `str.strip()` removes. */
  predicate IsSpace(c: char) {
    || c == ' '
    || ('\t' <= c <= '\r')
    || ('\U{1C}' <= c <= '\U{1F}')
    || c == '\U{85}' || c == '\U{A0}' || c == '\U{1680}'
    || ('\U{2000}' <= c <= '\U{200A}')
    || c == '\U{2028}' || c == '\U{2029}' || c == '\U{202F}' || c == '\U{205F}' || c == '\U{3000}'
  }

  predicate AllSpace(s: string) {
    forall i :: 0 <= i < |s| ==> IsSpace(s[i])
  }

  /** Where a run of whitespace starting at `i` stops: a greedy `\s*`. */
  function SkipSpace(s: string, i: nat): (j: nat)
    requires i <= |s|
    ensures i <= j <= |s|
    decreases |s| - i
  {
    if i < |s| && IsSpace(s[i]) then SkipSpace(s, i + 1) else i
  }

  /** `SkipSpace` stops at the first non-space at or after `i`, passing only whitespace. */
  lemma {:induction false} SkipSpaceFacts(s: string, i: nat)
    requires i <= |s|
    ensures forall t :: i <= t < SkipSpace(s, i) ==> IsSpace(s[t])
    ensures SkipSpace(s, i) < |s| ==> !IsSpace(s[SkipSpace(s, i)])
    decreases |s| - i
  {
    if i < |s| && IsSpace(s[i]) {
      SkipSpaceFacts(s, i + 1);
    }
  }

  /** A run of whitespace that ends at a non-space or at the end is what `SkipSpace` finds. */
  lemma {:induction false} SkipSpaceAt(s: string, i: nat, j: nat)
    requires i <= j <= |s|
    requires forall t :: i <= t < j ==> IsSpace(s[t])
    requires j < |s| ==> !IsSpace(s[j])
    ensures SkipSpace(s, i) == j
    decreases j - i
  {
    if i < j {
      SkipSpaceAt(s, i + 1, j);
    }
  }

  /** A single whitespace character followed by a non-space is a run of length one. */
  lemma SkipOneSpace(s: string, i: nat)
    requires i + 1 < |s| && IsSpace(s[i]) && !IsSpace(s[i + 1])
    ensures SkipSpace(s, i) == i + 1
  {
    assert SkipSpace(s, i + 1) == i + 1;
  }

  /** Where `s[lo..j]` ends once its trailing whitespace is removed. */
  function SkipSpaceBack(s: string, lo: nat, j: nat): (e: nat)
    requires lo <= j <= |s|
    ensures lo <= e <= j
    decreases j
  {
    if lo < j && IsSpace(s[j - 1]) then SkipSpaceBack(s, lo, j - 1) else j
  }

  /** `SkipSpaceBack` stops after the last non-space before `j`, passing only whitespace. */
  lemma {:induction false} SkipSpaceBackFacts(s: string, lo: nat, j: nat)
    requires lo <= j <= |s|
    ensures forall t :: SkipSpaceBack(s, lo, j) <= t < j ==> IsSpace(s[t])
    ensures lo < SkipSpaceBack(s, lo, j) ==> !IsSpace(s[SkipSpaceBack(s, lo, j) - 1])
    decreases j
  {
    if lo < j && IsSpace(s[j - 1]) {
      SkipSpaceBackFacts(s, lo, j - 1);
    }
  }

  /** A run of whitespace that begins after a non-space (or at `lo`) and reaches `j` is
      what `SkipSpaceBack` passes. */
  lemma {:induction false} SkipSpaceBackAt(s: string, lo: nat, e: nat, j: nat)
    requires lo <= e <= j <= |s|
    requires forall t :: e <= t < j ==> IsSpace(s[t])
    requires lo < e ==> !IsSpace(s[e - 1])
    ensures SkipSpaceBack(s, lo, j) == e
    decreases j
  {
    if e < j {
      SkipSpaceBackAt(s, lo, e, j - 1);
    }
  }

  /** Python's `str.strip()` with no argument. */
  function Strip(s: string): string {
    var a := SkipSpace(s, 0);
    s[a..SkipSpaceBack(s, a, |s|)]
  }

  /** `Strip(s)` is the part of `s` between an all-space prefix of length `SkipSpace(s, 0)`
      and an all-space suffix; it is empty exactly when `s` is all whitespace, and otherwise
      starts and ends with a non-space. */
  lemma StripFacts(s: string)
    ensures Strip(s) == [] <==> AllSpace(s)
    ensures Strip(s) != [] ==> !IsSpace(Strip(s)[0]) && !IsSpace(Strip(s)[|Strip(s)| - 1])
    ensures var a := SkipSpace(s, 0);
      && a + |Strip(s)| <= |s| && Strip(s) == s[a..a + |Strip(s)|]
      && (forall i :: 0 <= i < a ==> IsSpace(s[i]))
      && (forall i :: a + |Strip(s)| <= i < |s| ==> IsSpace(s[i]))
  {
    var a := SkipSpace(s, 0);
    var b := SkipSpaceBack(s, a, |s|);
    SkipSpaceFacts(s, 0);
    SkipSpaceBackFacts(s, a, |s|);
    var r := s[a..b];
    assert Strip(s) == r;
    if r != [] {
      assert r[0] == s[a] && r[|r| - 1] == s[b - 1];
    } else {
      forall i | 0 <= i < |s| ensures IsSpace(s[i]) {
      }
    }
  }

  /** `Strip(s)` is `s[x..y]` whenever `s[..x]` and `s[y..]` are whitespace and `s[x..y]`
      is empty or starts and ends with a non-space. */
  lemma StripUnique(s: string, x: nat, y: nat)
    requires x <= y <= |s|
    requires forall i :: 0 <= i < x ==> IsSpace(s[i])
    requires forall i :: y <= i < |s| ==> IsSpace(s[i])
    requires x < y ==> !IsSpace(s[x]) && !IsSpace(s[y - 1])
    ensures Strip(s) == s[x..y]
  {
    if x < y {
      SkipSpaceAt(s, 0, x);
      SkipSpaceBackAt(s, x, y, |s|);
    } else {
      assert AllSpace(s) by {
        forall i | 0 <= i < |s| ensures IsSpace(s[i]) {
        }
      }
      StripFacts(s);
    }
  }

  /** Leading whitespace does not change `Strip`. */
  lemma StripDropFront(s: string)
    requires s != [] && IsSpace(s[0])
    ensures Strip(s) == Strip(s[1..])
  {
    var t := s[1..];
    StripFacts(t);
    var x := SkipSpace(t, 0);
    var r := Strip(t);
    var y := x + |r|;
    forall i | 0 <= i < x + 1 ensures IsSpace(s[i]) {
      if i > 0 {
        assert s[i] == t[i - 1];
      }
    }
    forall i | y + 1 <= i < |s| ensures IsSpace(s[i]) {
      assert s[i] == t[i - 1];
    }
    if x < y {
      assert s[x + 1] == t[x] && s[y] == t[y - 1];
    }
    StripUnique(s, x + 1, y + 1);
    assert r == t[x..y];
    forall j | 0 <= j < y - x ensures s[x + 1..y + 1][j] == t[x..y][j] {
      assert s[x + 1 + j] == t[x + j];
    }
    assert s[x + 1..y + 1] == r;
  }

  /** Trailing whitespace does not change `Strip`. */
  lemma StripDropBack(s: string)
    requires s != [] && IsSpace(s[|s| - 1])
    ensures Strip(s) == Strip(s[..|s| - 1])
  {
    var t := s[..|s| - 1];
    StripFacts(t);
    var x := SkipSpace(t, 0);
    var r := Strip(t);
    var y := x + |r|;
    forall i | 0 <= i < x ensures IsSpace(s[i]) {
      assert s[i] == t[i];
    }
    forall i | y <= i < |s| ensures IsSpace(s[i]) {
      if i < |t| {
        assert s[i] == t[i];
      }
    }
    if x < y {
      assert s[x] == t[x] && s[y - 1] == t[y - 1];
    }
    StripUnique(s, x, y);
    assert r == t[x..y];
    forall j | 0 <= j < y - x ensures s[x..y][j] == t[x..y][j] {
      assert s[x + j] == t[x + j];
    }
    assert s[x..y] == t[x..y];
  }

  /** A text that is empty or starts and ends with a non-space is its own `Strip`. */
  lemma StripKeep(s: string)
    requires s != [] ==> !IsSpace(s[0]) && !IsSpace(s[|s| - 1])
    ensures Strip(s) == s
  {
    StripUnique(s, 0, |s|);
  }

  /** Python's `str.lower()` restricted to ASCII letters. */
  function LowerChar(c: char): (d: char)
    ensures !('A' <= d <= 'Z')
    ensures 'a' <= c <= 'z' ==> d == c
  {
    if 'A' <= c <= 'Z' then (c as int + 32) as char else c
  }

  function Lower(s: string): (r: string)
    ensures |r| == |s|
    ensures forall i :: 0 <= i < |s| ==> r[i] == LowerChar(s[i])
  {
    seq(|s|, i requires 0 <= i < |s| => LowerChar(s[i]))
  }

  /** Lower-casing twice is lower-casing once. */
  lemma LowerIdempotent(s: string)
    ensures Lower(Lower(s)) == Lower(s)
  {
  }

  /** Lower-casing works piece by piece. */
  lemma LowerConcat(a: string, b: string)
    ensures Lower(a + b) == Lower(a) + Lower(b)
  {
  }

  /** `pat` occurs in `s` starting at index `i`. */
  predicate OccursAt(s: string, pat: string, i: nat) {
    i + |pat| <= |s| && s[i..i + |pat|] == pat
  }

  /** Python's `pat in s`: `pat` starts here, or somewhere further on. */
  predicate Contains(s: string, pat: string)
    decreases |s|
  {
    pat <= s || (s != [] && Contains(s[1..], pat))
  }

  /** `pat in s` holds exactly when `pat` occurs at some index of `s`. */
  lemma {:induction false} ContainsIffOccurs(s: string, pat: string)
    ensures Contains(s, pat) <==> exists i: nat :: OccursAt(s, pat, i)
    decreases |s|
  {
    if pat <= s {
      assert OccursAt(s, pat, 0);
    } else if s == [] {
      assert forall i: nat :: !OccursAt(s, pat, i);
    } else {
      ContainsIffOccurs(s[1..], pat);
      forall i: nat | 1 <= i && i + |pat| <= |s|
        ensures OccursAt(s, pat, i) <==> OccursAt(s[1..], pat, i - 1)
      {
        assert s[1..][i - 1..i - 1 + |pat|] == s[i..i + |pat|];
      }
      assert OccursAt(s, pat, 0) ==> pat <= s by {
        if |pat| <= |s| {
          assert s[0..|pat|] == s[..|pat|];
        }
      }
      if Contains(s[1..], pat) {
        var i: nat :| OccursAt(s[1..], pat, i);
        assert OccursAt(s, pat, i + 1);
      }
    }
  }

  /** A string contains every string it is built around. */
  lemma ContainsMiddle(x: string, pat: string, y: string)
    ensures Contains(x + pat + y, pat)
  {
    var s := x + pat + y;
    assert s[|x|..|x| + |pat|] == pat;
    assert OccursAt(s, pat, |x|);
    ContainsIffOccurs(s, pat);
  }

  /** An occurrence in `rest` is one in `head + rest`, shifted by `|head|`. */
  lemma OccursAfter(head: string, rest: string, pat: string, o: nat)
    requires OccursAt(rest, pat, o)
    ensures OccursAt(head + rest, pat, |head| + o)
  {
    assert (head + rest)[|head| + o..|head| + o + |pat|] == rest[o..o + |pat|];
  }

  /** A string starts with its first part. */
  lemma OccursAtFront(a: string, b: string)
    ensures OccursAt(a + b, a, 0)
  {
    assert (a + b)[..|a|] == a;
  }

  /** Python's `s.startswith(prefix)`. */
  predicate StartsWith(s: string, prefix: string) {
    prefix <= s
  }

  /** Two prefixes whose first characters differ cannot both start `s`. */
  lemma PrefixesExclude(s: string, a: string, b: string)
    requires a != [] && b != [] && a[0] != b[0]
    requires StartsWith(s, a)
    ensures !StartsWith(s, b)
  {
    assert s[0] == a[0];
  }

  /** True when `x` is immediately followed by `y` somewhere in `s`. */
  predicate HasPair(s: string, x: char, y: char) {
    exists i :: 0 <= i < |s| - 1 && s[i] == x && s[i + 1] == y
  }

  /** A text without the two adjacent characters `pat[q], pat[q+1]` cannot contain `pat`. */
  lemma NoPairNoContains(s: string, pat: string, q: nat)
    requires q + 1 < |pat|
    requires !HasPair(s, pat[q], pat[q + 1])
    ensures !Contains(s, pat)
  {
    forall i: nat | i + |pat| <= |s| ensures !OccursAt(s, pat, i) {
      assert s[i..i + |pat|][q] == s[i + q] && s[i..i + |pat|][q + 1] == s[i + q + 1];
    }
    ContainsIffOccurs(s, pat);
  }

  /** A text without the character `pat[q]` cannot contain `pat`. */
  lemma NoCharNoContains(s: string, pat: string, q: nat)
    requires q < |pat|
    requires pat[q] !in s
    ensures !Contains(s, pat)
  {
    forall i: nat | i + |pat| <= |s| ensures !OccursAt(s, pat, i) {
      assert s[i..i + |pat|][q] == s[i + q];
    }
    ContainsIffOccurs(s, pat);
  }

  /** Pair absence survives concatenation when the seam does not form the pair. */
  lemma NoPairConcat(a: string, b: string, x: char, y: char)
    requires !HasPair(a, x, y) && !HasPair(b, x, y)
    requires a == [] || b == [] || !(a[|a| - 1] == x && b[0] == y)
    ensures !HasPair(a + b, x, y)
  {
    var s := a + b;
    forall i | 0 <= i < |s| - 1 ensures !(s[i] == x && s[i + 1] == y) {
      if i + 1 < |a| {
        assert s[i] == a[i] && s[i + 1] == a[i + 1];
      } else if i >= |a| {
        assert s[i] == b[i - |a|] && s[i + 1] == b[i - |a| + 1];
      } else {
        assert s[i] == a[|a| - 1] && s[i + 1] == b[0];
      }
    }
  }

  /** Python's `s.count(pat)` for a non-empty `pat`: occurrences found left to right, none overlapping. */
  function Count(s: string, pat: string): (n: nat)
    requires pat != []
    ensures n <= |s|
    decreases |s|
  {
    if |s| < |pat| then 0
    else if pat <= s then 1 + Count(s[|pat|..], pat)
    else Count(s[1..], pat)
  }

  /** `s.count(pat)` is zero exactly when `pat in s` is false. */
  lemma {:induction false} CountZero(s: string, pat: string)
    requires pat != []
    ensures Count(s, pat) == 0 <==> !Contains(s, pat)
    decreases |s|
  {
    if |s| < |pat| {
      if s != [] {
        CountZero(s[1..], pat);
      }
    } else if !(pat <= s) {
      CountZero(s[1..], pat);
    }
  }
}
