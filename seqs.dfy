/** Generic sequence vocabulary shared by the memory tiers, the tool registry and the mailbox:
    optional values, order-preserving filtering, first-match lookup, removal at an index,
    reversal and the "first k matches" shape of the two search operations. */
module Seqs {

  datatype Option<T> = None | Some(value: T)

  /** The elements of `s` that satisfy `keep`, in their original order. */
  function Filter<T>(s: seq<T>, keep: T -> bool): (r: seq<T>)
    ensures |r| <= |s|
    ensures forall i :: 0 <= i < |r| ==> keep(r[i])
  {
    if s == [] then []
    else Filter(s[..|s| - 1], keep) + (if keep(s[|s| - 1]) then [s[|s| - 1]] else [])
  }

  /** At most the first `n` elements of `s`. */
  function Take<T>(s: seq<T>, n: nat): (r: seq<T>)
    ensures |r| == if n <= |s| then n else |s|
    ensures r <= s
  {
    if n <= |s| then s[..n] else s
  }

  /** `s` back to front. */
  function Reverse<T>(s: seq<T>): (r: seq<T>)
    ensures |r| == |s|
    ensures forall i :: 0 <= i < |s| ==> r[i] == s[|s| - 1 - i]
  {
    seq(|s|, i requires 0 <= i < |s| => s[|s| - 1 - i])
  }

  /** `s` without its element at index `k`. */
  function RemoveAt<T>(s: seq<T>, k: nat): (r: seq<T>)
    requires k < |s|
    ensures |r| == |s| - 1
    ensures forall i :: 0 <= i < k ==> r[i] == s[i]
    ensures forall i :: k <= i < |r| ==> r[i] == s[i + 1]
  {
    s[..k] + s[k + 1..]
  }

  /** The index of the first element of `s` that satisfies `keep`, if there is one. */
  function FirstIndex<T>(s: seq<T>, keep: T -> bool): (r: Option<nat>)
    ensures r.None? ==> forall i :: 0 <= i < |s| ==> !keep(s[i])
    ensures r.Some? ==> r.value < |s| && keep(s[r.value])
    ensures r.Some? ==> forall i :: 0 <= i < r.value ==> !keep(s[i])
  {
    if s == [] then None
    else if keep(s[0]) then Some(0)
    else match FirstIndex(s[1..], keep)
      case None => None
      case Some(k) => Some(k + 1)
  }

  /** How many matches a search with this `limit` collects: the scan stops only after an
      append, so a limit below one still lets the first match through. */
  function Cap(limit: int): (r: nat)
    ensures r >= 1
    ensures limit >= 1 ==> r == limit
  {
    if limit >= 1 then limit else 1
  }

  /** The first `Cap(limit)` elements of `s` that satisfy `keep`, in the order of `s`. */
  function FirstMatches<T>(s: seq<T>, keep: T -> bool, limit: int): seq<T>
  {
    Take(Filter(s, keep), Cap(limit))
  }

  /** `idx` lists, in strictly increasing order, positions of `s` that spell out `r`. */
  ghost predicate Embeds<T>(idx: seq<int>, r: seq<T>, s: seq<T>)
  {
    && |idx| == |r|
    && (forall i :: 0 <= i < |idx| ==> 0 <= idx[i] < |s| && r[i] == s[idx[i]])
    && (forall i, j :: 0 <= i < j < |idx| ==> idx[i] < idx[j])
  }

  /** `r` is an order-preserving subsequence of `s`. */
  ghost predicate SubsequenceOf<T>(r: seq<T>, s: seq<T>)
  {
    exists idx :: Embeds(idx, r, s)
  }

  lemma {:induction false} FilterAppend<T>(a: seq<T>, b: seq<T>, keep: T -> bool)
    ensures Filter(a + b, keep) == Filter(a, keep) + Filter(b, keep)
    decreases |b|
  {
    if b == [] {
      assert a + b == a;
    } else {
      var b' := b[..|b| - 1];
      var x := b[|b| - 1];
      assert (a + b)[..|a + b| - 1] == a + b';
      assert (a + b)[|a + b| - 1] == x;
      FilterAppend(a, b', keep);
    }
  }

  /** Filtering a one-element extension of `s`. */
  lemma FilterSnoc<T>(s: seq<T>, x: T, keep: T -> bool)
    ensures Filter(s + [x], keep) == Filter(s, keep) + (if keep(x) then [x] else [])
  {
    assert (s + [x])[..|s|] == s;
  }

  /** The sum of `size` over the elements of `s`. */
  function Sum<T>(s: seq<T>, size: T -> nat): nat
  {
    if s == [] then 0 else Sum(s[..|s| - 1], size) + size(s[|s| - 1])
  }

  /** Appending an element adds its size to the sum. */
  lemma SumAppend<T>(s: seq<T>, x: T, size: T -> nat)
    ensures Sum(s + [x], size) == Sum(s, size) + size(x)
  {
    assert (s + [x])[..|s|] == s;
  }

  /** No single element is larger than the sum. */
  lemma {:induction false} SumBound<T>(s: seq<T>, size: T -> nat)
    ensures forall i :: 0 <= i < |s| ==> size(s[i]) <= Sum(s, size)
  {
    if s != [] {
      SumBound(s[..|s| - 1], size);
    }
  }

  /** Extending a prefix of `s` by one element extends its filtered image by that element
      when it passes the test. */
  lemma FilterStep<T>(s: seq<T>, k: nat, keep: T -> bool)
    requires k < |s|
    ensures Filter(s[..k + 1], keep) == Filter(s[..k], keep) + (if keep(s[k]) then [s[k]] else [])
  {
    assert s[..k + 1] == s[..k] + [s[k]];
    FilterSnoc(s[..k], s[k], keep);
  }

  /** Filtering with a test every element passes changes nothing. */
  lemma {:induction false} FilterKeepsAll<T>(s: seq<T>, keep: T -> bool)
    requires forall i :: 0 <= i < |s| ==> keep(s[i])
    ensures Filter(s, keep) == s
  {
    if s != [] {
      FilterKeepsAll(s[..|s| - 1], keep);
    }
  }

  /** Filtering a slice whose elements all pass the test changes nothing. */
  lemma {:induction false} FilterKeepsSlice<T>(s: seq<T>, lo: nat, hi: nat, keep: T -> bool)
    requires lo <= hi <= |s|
    requires forall i :: lo <= i < hi ==> keep(s[i])
    ensures Filter(s[lo..hi], keep) == s[lo..hi]
  {
    var part := s[lo..hi];
    forall i | 0 <= i < |part| ensures keep(part[i]) {
      assert part[i] == s[lo + i];
    }
    FilterKeepsAll(part, keep);
  }

  /** Filtering with a test that only position `k` fails removes exactly that position. */
  lemma {:induction false} FilterDropsOnly<T>(s: seq<T>, k: nat, keep: T -> bool)
    requires k < |s| && !keep(s[k])
    requires forall i :: 0 <= i < |s| && i != k ==> keep(s[i])
    ensures Filter(s, keep) == RemoveAt(s, k)
  {
    assert s == s[..k] + [s[k]] + s[k + 1..];
    assert s[0..k] == s[..k] && s[k + 1..|s|] == s[k + 1..];
    FilterKeepsSlice(s, 0, k, keep);
    FilterKeepsSlice(s, k + 1, |s|, keep);
    FilterAroundOne(s[..k], s[k], s[k + 1..], keep);
  }

  lemma {:induction false} FilterAroundOne<T>(before: seq<T>, x: T, after: seq<T>, keep: T -> bool)
    requires Filter(before, keep) == before && !keep(x) && Filter(after, keep) == after
    ensures Filter(before + [x] + after, keep) == before + after
  {
    FilterSnoc(before, x, keep);
    FilterAppend(before + [x], after, keep);
  }

  /** The positions that Filter keeps are a witness that it is a subsequence. */
  lemma {:induction false} FilterEmbedding<T>(s: seq<T>, keep: T -> bool) returns (idx: seq<int>)
    ensures Embeds(idx, Filter(s, keep), s)
  {
    if s == [] {
      idx := [];
    } else {
      var init := s[..|s| - 1];
      var p := FilterEmbedding(init, keep);
      if keep(s[|s| - 1]) {
        idx := p + [|s| - 1];
      } else {
        idx := p;
      }
    }
  }

  lemma FilterIsSubsequence<T>(s: seq<T>, keep: T -> bool)
    ensures SubsequenceOf(Filter(s, keep), s)
  {
    var idx := FilterEmbedding(s, keep);
  }

  lemma PrefixOfSubsequence<T>(r: seq<T>, s: seq<T>, n: nat)
    requires SubsequenceOf(r, s)
    ensures SubsequenceOf(Take(r, n), s)
  {
    var idx :| Embeds(idx, r, s);
    var m := |Take(r, n)|;
    assert Embeds(idx[..m], Take(r, n), s);
  }

  /** What a search returns: matches only, in the scanned order, at most `Cap(limit)` of
      them, and every match when fewer than `Cap(limit)` were found. */
  lemma FirstMatchesSpec<T>(s: seq<T>, keep: T -> bool, limit: int)
    ensures SubsequenceOf(FirstMatches(s, keep, limit), s)
    ensures forall i :: 0 <= i < |FirstMatches(s, keep, limit)| ==> keep(FirstMatches(s, keep, limit)[i])
    ensures |FirstMatches(s, keep, limit)| <= Cap(limit)
    ensures |FirstMatches(s, keep, limit)| < Cap(limit) ==> FirstMatches(s, keep, limit) == Filter(s, keep)
    ensures FirstMatches(s, keep, limit) <= Filter(s, keep)
  {
    FilterIsSubsequence(s, keep);
    PrefixOfSubsequence(Filter(s, keep), s, Cap(limit));
  }

  /** A scan of `s` that stops once the matches among the first `i` elements reach the cap
      has collected exactly the search result. */
  lemma FirstMatchesStop<T>(s: seq<T>, keep: T -> bool, limit: int, i: nat)
    requires i <= |s|
    requires |Filter(s[..i], keep)| == Cap(limit)
    ensures FirstMatches(s, keep, limit) == Filter(s[..i], keep)
  {
    assert s == s[..i] + s[i..];
    FilterAppend(s[..i], s[i..], keep);
  }

  /** Filtering commutes with reversal: a most-recent-first scan meets the matches of an
      insertion-order scan in exactly the opposite order. */
  lemma {:induction false} FilterReverse<T>(s: seq<T>, keep: T -> bool)
    ensures Filter(Reverse(s), keep) == Reverse(Filter(s, keep))
    decreases |s|
  {
    if s != [] {
      var init := s[..|s| - 1];
      var x := s[|s| - 1];
      assert Reverse(s) == [x] + Reverse(init);
      FilterAppend([x], Reverse(init), keep);
      FilterSnoc([], x, keep);
      FilterReverse(init, keep);
      var f := Filter(init, keep);
      if keep(x) {
        assert Reverse(f + [x]) == [x] + Reverse(f);
      }
    }
  }
}
