/**
 * The few Python `str` operations the two scripts rely on, written out over
 * `seq<char>`: `str.isspace`, `str.strip`, `in` / `split(sep, 1)` (first
 * occurrence), `endswith`, `lower` on ASCII letters and `split("/")[-1]`.
 */
module Text {
  import opened Wrappers

  /** The characters for which Python's `str.isspace` (and the regex class `\s`) holds. */
  predicate IsSpace(c: char)
  {
    || c == ' '
    || ('\t' <= c <= '\r')
    || ('\U{1C}' <= c <= '\U{1F}')
    || c == '\U{85}' || c == '\U{A0}' || c == '\U{1680}'
    || ('\U{2000}' <= c <= '\U{200A}')
    || c == '\U{2028}' || c == '\U{2029}' || c == '\U{202F}' || c == '\U{205F}' || c == '\U{3000}'
  }

  /** The length of the run of whitespace that `s` starts with. */
  function LeadingSpaces(s: string): (n: nat)
    ensures n <= |s|
    ensures forall i :: 0 <= i < n ==> IsSpace(s[i])
    ensures n < |s| ==> !IsSpace(s[n])
  {
    if s != [] && IsSpace(s[0]) then 1 + LeadingSpaces(s[1..]) else 0
  }

  /** The length of the run of whitespace that `s` ends with. */
  function TrailingSpaces(s: string): (n: nat)
    ensures n <= |s|
    ensures forall i :: |s| - n <= i < |s| ==> IsSpace(s[i])
    ensures n < |s| ==> !IsSpace(s[|s| - n - 1])
  {
    if s != [] && IsSpace(s[|s| - 1]) then 1 + TrailingSpaces(s[..|s| - 1]) else 0
  }

  /**
   * `s.strip()`: `s` without its leading whitespace (`lstrip`) and then
   * without its trailing whitespace (`rstrip`). The result is the slice of
   * `s` that starts after the leading run; everything cut away is whitespace,
   * and what is kept neither starts nor ends with whitespace.
   */
  function Strip(s: string): (r: string)
    ensures r != [] ==> !IsSpace(r[0]) && !IsSpace(r[|r| - 1])
    ensures LeadingSpaces(s) + |r| <= |s| && r == s[LeadingSpaces(s)..LeadingSpaces(s) + |r|]
    ensures forall i :: LeadingSpaces(s) + |r| <= i < |s| ==> IsSpace(s[i])
  {
    var a := LeadingSpaces(s);
    var n := |s[a..]| - TrailingSpaces(s[a..]);
    StripSlice(s, a, n);
    s[a..a + n]
  }

  /** The postcondition of `strip`, stated about its kept slice. */
  lemma StripSlice(s: string, a: nat, n: nat)
    requires a == LeadingSpaces(s) && n == |s[a..]| - TrailingSpaces(s[a..])
    ensures a + n <= |s|
    ensures var r := s[a..a + n];
      && (r != [] ==> !IsSpace(r[0]) && !IsSpace(r[|r| - 1]))
      && a + |r| <= |s| && r == s[a..a + |r|]
      && forall i :: a + |r| <= i < |s| ==> IsSpace(s[i])
  {
    StripEnds(s, a, n);
    StripTail(s, a, n);
  }

  /** The kept slice of `strip` starts and ends with a non-space. */
  lemma StripEnds(s: string, a: nat, n: nat)
    requires a == LeadingSpaces(s) && n == |s[a..]| - TrailingSpaces(s[a..])
    ensures a + n <= |s|
    ensures n > 0 ==> !IsSpace(s[a]) && !IsSpace(s[a + n - 1])
  {
    var t := s[a..];
    if n > 0 {
      assert s[a + n - 1] == t[n - 1];
    }
  }

  /** Everything after the kept slice of `strip` is whitespace. */
  lemma StripTail(s: string, a: nat, n: nat)
    requires a == LeadingSpaces(s) && n == |s[a..]| - TrailingSpaces(s[a..])
    ensures forall i :: a + n <= i < |s| ==> IsSpace(s[i])
  {
    var t := s[a..];
    forall i | a + n <= i < |s|
      ensures IsSpace(s[i])
    {
      assert s[i] == t[i - a];
    }
  }

  /** A string with no leading or trailing whitespace is its own strip. */
  lemma StripUnchanged(s: string)
    requires s != [] ==> !IsSpace(s[0]) && !IsSpace(s[|s| - 1])
    ensures Strip(s) == s
  {
    assert LeadingSpaces(s) == 0;
    assert s[0..] == s;
    assert TrailingSpaces(s) == 0;
  }

  /** `strip` gives "" exactly for a string made only of whitespace. */
  lemma StripEmpty(s: string)
    ensures Strip(s) == [] <==> forall i :: 0 <= i < |s| ==> IsSpace(s[i])
  {
    if forall i :: 0 <= i < |s| ==> IsSpace(s[i]) {
      assert LeadingSpaces(s) == |s|;
    }
  }

  /** `m` occurs in `s` starting at index `j`. */
  predicate OccursAt(s: string, m: string, j: int)
  {
    0 <= j && j + |m| <= |s| && s[j..j + |m|] == m
  }

  /** The first index at or after `k` where `m` occurs in `s`, as `str.find(m, k)` computes it. */
  function FindFrom(s: string, m: string, k: nat): (r: Option<nat>)
    requires k <= |s|
    ensures r.Some? ==> k <= r.value && OccursAt(s, m, r.value)
    ensures r.Some? ==> forall j :: k <= j < r.value ==> !OccursAt(s, m, j)
    ensures r.None? ==> forall j :: k <= j ==> !OccursAt(s, m, j)
    decreases |s| - k
  {
    if k + |m| > |s| then None
    else if s[k..k + |m|] == m then Some(k)
    else if k == |s| then None
    else FindFrom(s, m, k + 1)
  }

  /** The first occurrence of `m` in `s`: what `m in s` tests and where `s.split(m, 1)` cuts. */
  function FindFirst(s: string, m: string): (r: Option<nat>)
    ensures r.Some? ==> OccursAt(s, m, r.value)
    ensures r.Some? ==> forall j :: 0 <= j < r.value ==> !OccursAt(s, m, j)
    ensures r.None? <==> forall j :: !OccursAt(s, m, j)
  {
    FindFrom(s, m, 0)
  }

  /** Python's `m in s` for strings. */
  predicate Contains(s: string, m: string)
  {
    FindFirst(s, m).Some?
  }

  /** `s.endswith(suffix)`. */
  predicate EndsWith(s: string, suffix: string)
  {
    |suffix| <= |s| && s[|s| - |suffix|..] == suffix
  }

  /** `c.lower()` restricted to ASCII letters; every other character is kept. */
  function LowerChar(c: char): char
  {
    if 'A' <= c <= 'Z' then (c as int + 32) as char else c
  }

  /** `s.lower()` on ASCII letters, character by character. */
  function Lower(s: string): (r: string)
    ensures |r| == |s|
    ensures forall i :: 0 <= i < |s| ==> r[i] == LowerChar(s[i])
  {
    seq(|s|, i requires 0 <= i < |s| => LowerChar(s[i]))
  }

  lemma LowerAppend(a: string, b: string)
    ensures Lower(a + b) == Lower(a) + Lower(b)
  {
  }

  /** `s.split("/")[-1]`: the text after the last '/', or all of `s` when it has none. */
  function LastSegment(s: string): (r: string)
    ensures |r| <= |s| && r == s[|s| - |r|..]
    ensures '/' !in r
    ensures |r| < |s| ==> s[|s| - |r| - 1] == '/'
  {
    if s == [] then []
    else if s[|s| - 1] == '/' then []
    else LastSegment(s[..|s| - 1]) + [s[|s| - 1]]
  }
}
