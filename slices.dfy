/** Python's slice `s[start:stop]` (step one) over Dafny sequences: a negative bound counts
    from the end, and every bound is then clamped into the sequence. The stores use slices
    with bounds that can be zero or negative (`value[:max_block_size]`,
    `messages[-max_messages:]`, `messages[-limit:]`), so the rule is written out once here. */
module Slices {

  /** A slice bound normalised against a sequence of length `n`. */
  function Bound(i: int, n: nat): (r: nat)
    ensures r <= n
  {
    if i < 0 then (if i + n < 0 then 0 else i + n) else if i > n then n else i
  }

  /** `s[start:stop]`. */
  function Slice<T>(s: seq<T>, start: int, stop: int): (r: seq<T>)
    ensures |r| <= |s|
  {
    var lo, hi := Bound(start, |s|), Bound(stop, |s|);
    if lo <= hi then s[lo..hi] else []
  }

  /** `s[start:]`. */
  function From<T>(s: seq<T>, start: int): seq<T>
  {
    Slice(s, start, |s|)
  }

  /** `s[:stop]`. */
  function Upto<T>(s: seq<T>, stop: int): seq<T>
  {
    Slice(s, 0, stop)
  }

  /** The last `k` elements of `s` (all of `s` when it is shorter), in their order. */
  function Last<T>(s: seq<T>, k: nat): (r: seq<T>)
    ensures |r| == if k <= |s| then k else |s|
  {
    if k <= |s| then s[|s| - k..] else s
  }

  /** `r` is what remains of `s` after dropping some of its first elements. */
  ghost predicate SuffixOf<T>(r: seq<T>, s: seq<T>)
  {
    |r| <= |s| && r == s[|s| - |r|..]
  }

  /** `s[-k:]` is the last `k` elements for `k >= 1`; `s[-0:]` is all of `s`; a negative
      `k` (so a positive start) drops the first `-k` elements. */
  lemma FromNegated<T>(s: seq<T>, k: int)
    ensures k >= 1 ==> From(s, -k) == Last(s, k)
    ensures k == 0 ==> From(s, -k) == s
    ensures k < 0 ==> From(s, -k) == s[if -k <= |s| then -k else |s|..]
  {
  }

  /** `s[:k]` is a prefix of `s` of length `min(k, |s|)` for `k >= 0`, and
      `max(|s| + k, 0)` for `k < 0`. */
  lemma UptoPrefix<T>(s: seq<T>, k: int)
    ensures Upto(s, k) <= s
    ensures 0 <= k ==> |Upto(s, k)| == if k <= |s| then k else |s|
    ensures k < 0 ==> |Upto(s, k)| == if |s| + k < 0 then 0 else |s| + k
  {
  }

  /** Every slice that runs to the end keeps a suffix. */
  lemma FromIsSuffix<T>(s: seq<T>, start: int)
    ensures SuffixOf(From(s, start), s)
  {
  }

  /** Keeping the last `k` of a sequence and then the last `k` of its extension by one
      element is the same as keeping the last `k` of the whole extension. */
  lemma LastOfLast<T>(s: seq<T>, x: T, k: nat)
    requires k >= 1
    ensures Last(Last(s, k) + [x], k) == Last(s + [x], k)
  {
    if k <= |s| {
      assert Last(s, k) + [x] == s[|s| - k..] + [x];
      assert Last(s[|s| - k..] + [x], k) == (s[|s| - k..] + [x])[1..];
      assert (s + [x])[|s| + 1 - k..] == (s[|s| - k..] + [x])[1..];
    }
  }
}
