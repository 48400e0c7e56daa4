/** The bounded first-in-first-out log shared by recall memory (`RecallMemory.add`) and the
    agent mailbox (`CommunicationManager.receive_message`): append, then, when the log is
    longer than its maximum `max`, keep the slice `log[-max:]`. */
module Fifo {
  import opened Slices

  /** The log after appending `x` and trimming to `max`. */
  function Push<T>(log: seq<T>, x: T, max: int): seq<T>
  {
    var grown := log + [x];
    if |grown| > max then From(grown, -max) else grown
  }

  /** The log after appending every element of `xs`, one at a time. */
  function PushAll<T>(log: seq<T>, xs: seq<T>, max: int): seq<T>
  {
    if xs == [] then log else Push(PushAll(log, xs[..|xs| - 1], max), xs[|xs| - 1], max)
  }

  /** With a positive maximum, one append keeps exactly the last `min(n + 1, max)`
      elements of `log + [x]`: the log never exceeds `max` and `x` is its newest entry. */
  lemma PushKeepsNewest<T>(log: seq<T>, x: T, max: int)
    requires max >= 1
    ensures Push(log, x, max) == Last(log + [x], max)
    ensures |Push(log, x, max)| <= max
    ensures Push(log, x, max)[|Push(log, x, max)| - 1] == x
  {
    FromNegated(log + [x], max);
  }

  /** A maximum of zero never trims: `log[-0:]` is the whole log. */
  lemma PushUnboundedAtZero<T>(log: seq<T>, x: T)
    ensures Push(log, x, 0) == log + [x]
  {
  }

  /** Whatever the maximum, only the oldest entries are ever dropped: the new log is a
      suffix of `log + [x]`. */
  lemma PushDropsOnlyOldest<T>(log: seq<T>, x: T, max: int)
    ensures SuffixOf(Push(log, x, max), log + [x])
  {
    FromIsSuffix(log + [x], -max);
  }

  /** Any non-empty run of appends to a log with a positive maximum leaves exactly the last
      `max` elements of everything appended, in their original order. */
  lemma {:induction false} PushAllKeepsNewest<T>(log: seq<T>, xs: seq<T>, max: int)
    requires max >= 1 && xs != []
    ensures PushAll(log, xs, max) == Last(log + xs, max)
    decreases |xs|
  {
    var init, x := xs[..|xs| - 1], xs[|xs| - 1];
    assert log + xs == (log + init) + [x];
    if init == [] {
      PushKeepsNewest(log, x, max);
    } else {
      PushAllKeepsNewest(log, init, max);
      PushKeepsNewest(PushAll(log, init, max), x, max);
      LastOfLast(log + init, x, max);
    }
  }

  /** With room for two entries, two appends in a row leave both new entries at the end,
      in the order they were appended. */
  lemma PushTwiceKeepsBoth<T>(log: seq<T>, x: T, y: T, max: int)
    requires max >= 2
    ensures var r := Push(Push(log, x, max), y, max);
            |r| >= 2 && r[|r| - 2] == x && r[|r| - 1] == y
  {
    var once := Push(log, x, max);
    PushKeepsNewest(log, x, max);
    PushKeepsNewest(once, y, max);
    var grown := once + [y];
    assert grown[|grown| - 2] == x;
  }
}
