/** String primitives of chatgpt.c: `concat` and the libc searches it relies on (strstr, strchr). */
module Text {
  import opened Wrappers

  /** Models `concat` (chatgpt.c:58-71): a fresh string holding `a` followed by `b`. */
  function Concat(a: string, b: string): (r: string)
    ensures |r| == |a| + |b|
    ensures r[..|a|] == a && r[|a|..] == b
  {
    a + b
  }

  /** Concatenation regroups freely; stated on plain variables so that callers with long
      literal strings need not prove it themselves. */
  lemma ConcatAssoc(a: string, b: string, c: string)
    ensures a + (b + c) == a + b + c
  {
  }

  /** `s` starts with `p`. */
  predicate IsPrefix(p: string, s: string)
  {
    |p| <= |s| && s[..|p|] == p
  }

  /** `needle` occurs in `hay` at index `i`. */
  predicate OccursAt(hay: string, needle: string, i: int)
  {
    0 <= i && i + |needle| <= |hay| && hay[i..i + |needle|] == needle
  }

  /** The first index at or after `from` where `needle` occurs in `hay`, if any. */
  function FindFrom(hay: string, needle: string, from: nat): (r: Option<nat>)
    decreases |hay| - from
    ensures r.Some? ==> from <= r.value && OccursAt(hay, needle, r.value)
    ensures forall i :: from <= i && (r.None? || i < r.value) ==> !OccursAt(hay, needle, i)
  {
    if from + |needle| > |hay| then None
    else if OccursAt(hay, needle, from) then Some(from)
    else FindFrom(hay, needle, from + 1)
  }

  /** Models `strstr` (and, with a one-character needle, `strchr`): the first occurrence of
      `needle` in `hay`, or `None` for the NULL result. An empty needle is found at 0. */
  function Find(hay: string, needle: string): (r: Option<nat>)
    ensures r.Some? <==> exists i :: OccursAt(hay, needle, i)
    ensures r.Some? ==> OccursAt(hay, needle, r.value)
    ensures r.Some? ==> forall i :: 0 <= i < r.value ==> !OccursAt(hay, needle, i)
  {
    FindFrom(hay, needle, 0)
  }

  /** A one-character needle occurs exactly where that character stands. */
  lemma OccursChar(s: string, c: char, i: int)
    ensures OccursAt(s, [c], i) <==> 0 <= i < |s| && s[i] == c
  {
    if 0 <= i < |s| {
      assert s[i..i + 1] == [s[i]];
    }
  }
}
