/** The string primitives of Rust's `str` that the router relies on, on `seq<char>`. */
module Text {
  import opened Wrappers

  /** Rust `str::starts_with`. */
  predicate StartsWith(s: string, prefix: string) {
    |prefix| <= |s| && s[..|prefix|] == prefix
  }

  /** Rust `str::ends_with`. */
  predicate EndsWith(s: string, suffix: string) {
    |suffix| <= |s| && s[|s| - |suffix|..] == suffix
  }

  /** Every character of `s` is `c`. */
  predicate AllChar(s: string, c: char) {
    forall i :: 0 <= i < |s| ==> s[i] == c
  }

  /** `n` copies of `c`. */
  function Repeat(c: char, n: nat): (s: string)
    ensures |s| == n && AllChar(s, c)
  {
    if n == 0 then [] else Repeat(c, n - 1) + [c]
  }

  /** Rust `usize::saturating_sub`. */
  function SaturatingSub(a: nat, b: nat): nat {
    if a < b then 0 else a - b
  }

  /** The length of the run of `c` that starts `s`. */
  function LeadingRun(s: string, c: char): (n: nat)
    ensures n <= |s|
    ensures forall i :: 0 <= i < n ==> s[i] == c
    ensures n < |s| ==> s[n] != c
  {
    if |s| > 0 && s[0] == c then LeadingRun(s[1..], c) + 1 else 0
  }

  /** Rust `trim_start_matches(c)`: drops the whole leading run of `c`. */
  function TrimStartMatches(s: string, c: char): string {
    s[LeadingRun(s, c)..]
  }

  /** The length of the run of `c` that ends `s`
      (Rust `s.chars().rev().take_while(|x| *x == c).count()`). */
  function TrailingRun(s: string, c: char): (n: nat)
    ensures n <= |s|
    ensures forall i :: |s| - n <= i < |s| ==> s[i] == c
    ensures n < |s| ==> s[|s| - 1 - n] != c
  {
    if |s| > 0 && s[|s| - 1] == c then TrailingRun(s[..|s| - 1], c) + 1 else 0
  }

  /** The contract of `TrailingRun` determines it: a run of `m` that cannot be extended is it. */
  lemma TrailingRunUnique(s: string, c: char, m: nat)
    requires m <= |s| && forall i :: |s| - m <= i < |s| ==> s[i] == c
    requires m < |s| ==> s[|s| - 1 - m] != c
    ensures TrailingRun(s, c) == m
  {
  }

  /** Cutting `k` characters off the trailing run of `c` shortens the run by `k`. */
  lemma {:induction false} TrailingRunOfPrefix(s: string, c: char, k: nat)
    requires k <= TrailingRun(s, c)
    ensures TrailingRun(s[..|s| - k], c) == TrailingRun(s, c) - k
  {
    if k == 0 {
      assert s[..|s|] == s;
    } else {
      TrailingRunOfPrefix(s, c, k - 1);
      var u := s[..|s| - (k - 1)];
      assert u[|u| - 1] == c;
      assert u[..|u| - 1] == s[..|s| - k];
    }
  }

  /** The contract of `LeadingRun` determines it: a run of `k` that cannot be extended is it. */
  lemma LeadingRunUnique(s: string, c: char, k: nat)
    requires k <= |s| && forall i :: 0 <= i < k ==> s[i] == c
    requires k < |s| ==> s[k] != c
    ensures LeadingRun(s, c) == k
  {
    var n := LeadingRun(s, c);
    assert !(n < k) && !(k < n);
  }

  /** `pat` occurs in `s` starting at index `i`. */
  predicate OccursAt(s: string, pat: string, i: nat) {
    i + |pat| <= |s| && s[i..i + |pat|] == pat
  }

  /** The first occurrence of `pat` in `s` at or after `i`. */
  function FindFrom(s: string, pat: string, i: nat): (r: Option<nat>)
    decreases |s| - i
    ensures r.Some? ==> i <= r.value && OccursAt(s, pat, r.value)
    ensures r.Some? ==> forall k :: i <= k < r.value ==> !OccursAt(s, pat, k)
    ensures r.None? ==> forall k :: i <= k ==> !OccursAt(s, pat, k)
  {
    if i + |pat| > |s| then None
    else if OccursAt(s, pat, i) then Some(i)
    else FindFrom(s, pat, i + 1)
  }

  /** Rust `str::find` (and the split point of `str::split_once`): the first occurrence of `pat`. */
  function Find(s: string, pat: string): Option<nat> {
    FindFrom(s, pat, 0)
  }

  /** `s.find(pat) == Some(0)` is exactly `s.starts_with(pat)`. */
  lemma FindZeroIffStartsWith(s: string, pat: string)
    ensures Find(s, pat) == Some(0) <==> StartsWith(s, pat)
  {
  }

  /** The index of the first character of `s` that is in `seps`, or `|s|` when there is none. */
  function FirstIndexIn(s: string, seps: set<char>): (i: nat)
    ensures i <= |s|
    ensures forall k :: 0 <= k < i ==> s[k] !in seps
    ensures i < |s| ==> s[i] in seps
  {
    if |s| == 0 || s[0] in seps then 0 else FirstIndexIn(s[1..], seps) + 1
  }

  /** The contract of `FirstIndexIn` determines it. */
  lemma FirstIndexInUnique(s: string, seps: set<char>, k: nat)
    requires k <= |s| && forall m :: 0 <= m < k ==> s[m] !in seps
    requires k < |s| ==> s[k] in seps
    ensures FirstIndexIn(s, seps) == k
  {
    var i := FirstIndexIn(s, seps);
    assert !(i < k) && !(k < i);
  }

  /** Rust `str::split` on a set of separator characters: every piece between separators,
      empty pieces included. */
  function SplitOn(s: string, seps: set<char>): (parts: seq<string>)
    ensures |parts| >= 1
    decreases |s|
  {
    var i := FirstIndexIn(s, seps);
    if i == |s| then [s] else [s[..i]] + SplitOn(s[i + 1..], seps)
  }

  /** `t` occurs at `i` in `s` as a whole piece: bounded by the ends of `s` or by separators. */
  predicate DelimitedAt(s: string, t: string, i: nat, seps: set<char>) {
    && OccursAt(s, t, i)
    && (i == 0 || s[i - 1] in seps)
    && (i + |t| == |s| || s[i + |t|] in seps)
  }

  /** A piece produced by `SplitOn` is exactly a separator-delimited occurrence, for any token
      that holds no separator. */
  lemma {:induction false} SplitOnContains(s: string, t: string, seps: set<char>)
    requires forall k :: 0 <= k < |t| ==> t[k] !in seps
    ensures t in SplitOn(s, seps) <==> exists i: nat :: DelimitedAt(s, t, i, seps)
    decreases |s|
  {
    var k := FirstIndexIn(s, seps);
    if k == |s| {
      assert SplitOn(s, seps) == [s];
      if t == s {
        assert DelimitedAt(s, t, 0, seps);
      }
      forall i: nat | DelimitedAt(s, t, i, seps) ensures t == s {
        DelimitedInPlainPrefix(s, t, i, k, seps);
      }
    } else {
      var rest := s[k + 1..];
      assert SplitOn(s, seps) == [s[..k]] + SplitOn(rest, seps);
      SplitOnContains(rest, t, seps);
      if t == s[..k] {
        assert DelimitedAt(s, t, 0, seps);
      }
      if t in SplitOn(rest, seps) {
        var j: nat :| DelimitedAt(rest, t, j, seps);
        DelimitedShift(s, t, k, j, seps);
      }
      forall i: nat | DelimitedAt(s, t, i, seps) ensures t == s[..k] || t in SplitOn(rest, seps) {
        if i <= k {
          DelimitedInPlainPrefix(s, t, i, k, seps);
        } else {
          DelimitedUnshift(s, t, k, i, seps);
        }
      }
    }
  }

  /** A delimited occurrence in the text after a separator at `k` is one in the whole text. */
  lemma DelimitedShift(s: string, t: string, k: nat, j: nat, seps: set<char>)
    requires k < |s| && s[k] in seps
    requires DelimitedAt(s[k + 1..], t, j, seps)
    ensures DelimitedAt(s, t, k + 1 + j, seps)
  {
    assert s[k + 1 + j..k + 1 + j + |t|] == s[k + 1..][j..j + |t|];
  }

  /** A delimited occurrence after the separator at `k` is one in the text that follows it. */
  lemma DelimitedUnshift(s: string, t: string, k: nat, i: nat, seps: set<char>)
    requires k < i && k < |s| && s[k] in seps
    requires DelimitedAt(s, t, i, seps)
    ensures DelimitedAt(s[k + 1..], t, i - k - 1, seps)
  {
    var j := i - k - 1;
    assert s[k + 1..][j..j + |t|] == s[i..i + |t|];
  }

  /** A delimited occurrence that starts no later than the first separator (at `k`) is the
      whole piece `s[..k]`. */
  lemma DelimitedInPlainPrefix(s: string, t: string, i: nat, k: nat, seps: set<char>)
    requires forall m :: 0 <= m < |t| ==> t[m] !in seps
    requires k <= |s| && forall m :: 0 <= m < k ==> s[m] !in seps
    requires k < |s| ==> s[k] in seps
    requires DelimitedAt(s, t, i, seps) && i <= k
    ensures i == 0 && t == s[..k]
  {
  }
}
