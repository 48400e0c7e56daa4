/** Recall memory (stateful_agents/memory/recall_memory.py): the conversation log, a bounded
    FIFO of messages searched most recent first. */
module Recall {
  import opened Seqs
  import opened Slices
  import opened Messages
  import Fifo
  import Strings

  const DefaultMaxMessages: int := 1000
  const DefaultSearchLimit: int := 5
  const DefaultRecentLimit: int := 10

  /** The search test: the query occurs in the message content, ignoring case. */
  function Mentions(query: string): Message -> bool
  {
    (m: Message) => Strings.Matches(query, m.content)
  }

  /** What `search(query, limit)` returns: the first `Cap(limit)` matches of a scan that
      starts at the newest message. */
  function Hits(log: seq<Message>, query: string, limit: int): seq<Message>
  {
    FirstMatches(Reverse(log), Mentions(query), limit)
  }

  function ContentLength(m: Message): nat
  {
    |m.content|
  }

  /** The sum of the content lengths, what `get_total_size` adds up. */
  function TotalContent(log: seq<Message>): nat
  {
    Sum(log, ContentLength)
  }

  /** Search returns matching messages only, newest first (an order-preserving subsequence
      of the reversed log), at most `limit` of them for `limit >= 1` and at most one for
      `limit <= 0`; they are the newest matches (a prefix of all matches, newest first), and
      every match when fewer than that are returned. */
  lemma HitsSpec(log: seq<Message>, query: string, limit: int)
    ensures SubsequenceOf(Hits(log, query, limit), Reverse(log))
    ensures forall i :: 0 <= i < |Hits(log, query, limit)| ==>
              Strings.Matches(query, Hits(log, query, limit)[i].content)
    ensures limit >= 1 ==> |Hits(log, query, limit)| <= limit
    ensures limit <= 0 ==> |Hits(log, query, limit)| <= 1
    ensures Hits(log, query, limit) <= Reverse(Filter(log, Mentions(query)))
    ensures |Hits(log, query, limit)| < Cap(limit) ==>
              Hits(log, query, limit) == Reverse(Filter(log, Mentions(query)))
  {
    FirstMatchesSpec(Reverse(log), Mentions(query), limit);
    FilterReverse(log, Mentions(query));
    var r := Hits(log, query, limit);
    forall i | 0 <= i < |r| ensures Strings.Matches(query, r[i].content) {
      assert Mentions(query)(r[i]);
    }
  }

  /** A search for the content of the newest message returns that message first. */
  lemma LatestFirst(log: seq<Message>, limit: int)
    requires log != []
    ensures Hits(log, log[|log| - 1].content, limit) != []
    ensures Hits(log, log[|log| - 1].content, limit)[0] == log[|log| - 1]
  {
    var m := log[|log| - 1];
    var rev := Reverse(log);
    assert rev == [m] + rev[1..];
    Strings.MatchesSelfAndEmpty(m.content, m.content);
    FilterAppend([m], rev[1..], Mentions(m.content));
    FilterSnoc([], m, Mentions(m.content));
  }

  /** After a message is appended to a log whose maximum is not negative, a search for that
      message's own content returns it first. */
  lemma NewestFirst(log: seq<Message>, m: Message, max: int, limit: int)
    requires max >= 0
    ensures Hits(Fifo.Push(log, m, max), m.content, limit) != []
    ensures Hits(Fifo.Push(log, m, max), m.content, limit)[0] == m
  {
    if max == 0 {
      Fifo.PushUnboundedAtZero(log, m);
    } else {
      Fifo.PushKeepsNewest(log, m, max);
    }
    LatestFirst(Fifo.Push(log, m, max), limit);
  }

  class RecallMemory {
    var messages: seq<Message>
    var maxMessages: int

    constructor (maxMessages: int)
      ensures messages == [] && this.maxMessages == maxMessages
    {
      messages := [];
      this.maxMessages := maxMessages;
    }

    /** Appends `m`, then keeps only the last `maxMessages` entries if the log is longer. */
    method Add(m: Message)
      modifies this
      ensures maxMessages == old(maxMessages)
      ensures messages == Fifo.Push(old(messages), m, maxMessages)
      ensures maxMessages >= 1 ==> messages == Last(old(messages) + [m], maxMessages)
      ensures maxMessages >= 1 ==> |messages| <= maxMessages
      ensures maxMessages == 0 ==> messages == old(messages) + [m]
      ensures SuffixOf(messages, old(messages) + [m])
    {
      messages := messages + [m];
      if |messages| > maxMessages {
        messages := From(messages, -maxMessages);
      }
      if maxMessages >= 1 {
        Fifo.PushKeepsNewest(old(messages), m, maxMessages);
      }
      Fifo.PushDropsOnlyOldest(old(messages), m, maxMessages);
    }

    /** Scans from the newest message back, collecting matches until `limit` is reached. */
    method Search(query: string, limit: int) returns (results: seq<Message>)
      ensures results == Hits(messages, query, limit)
    {
      results := [];
      var q := Strings.Lower(query);
      var rev := Reverse(messages);
      var k := 0;
      while k < |rev|
        invariant 0 <= k <= |rev|
        invariant results == Filter(rev[..k], Mentions(query))
        invariant |results| < Cap(limit)
      {
        var m := rev[k];
        FilterStep(rev, k, Mentions(query));
        if Strings.Contains(Strings.Lower(m.content), q) {
          results := results + [m];
          if |results| >= limit {
            FirstMatchesStop(rev, Mentions(query), limit, k + 1);
            return;
          }
        }
        k := k + 1;
      }
      assert rev[..k] == rev;
    }

    /** `messages[-limit:]`, or nothing when the log is empty. */
    function GetRecent(limit: int): (r: seq<Message>)
      reads this
      ensures limit >= 1 ==> r == Last(messages, limit)
      ensures limit == 0 ==> r == messages
      ensures limit < 0 ==> r == messages[if -limit <= |messages| then -limit else |messages|..]
    {
      FromNegated(messages, limit);
      if messages == [] then [] else From(messages, -limit)
    }

    /** `messages[start:end]`, with an absent end meaning the end of the log. */
    function GetByRange(start: int, end: Option<int>): (r: seq<Message>)
      reads this
      ensures 0 <= start <= |messages| && end.None? ==> r == messages[start..]
      ensures end.Some? && 0 <= start <= end.value <= |messages| ==> r == messages[start..end.value]
      ensures exists lo, hi :: 0 <= lo <= hi <= |messages| && r == messages[lo..hi]
    {
      var stop := if end.None? then |messages| else end.value;
      var lo, hi := Bound(start, |messages|), Bound(stop, |messages|);
      assert lo > hi ==> Slice(messages, start, stop) == messages[lo..lo];
      Slice(messages, start, stop)
    }

    function Count(): (r: nat)
      reads this
      ensures r == 0 <==> messages == []
    {
      |messages|
    }

    function TotalSize(): (r: nat)
      reads this
      ensures messages == [] ==> r == 0
      ensures forall i :: 0 <= i < |messages| ==> |messages[i].content| <= r
    {
      SumBound(messages, ContentLength);
      TotalContent(messages)
    }

    method Clear()
      modifies this
      ensures messages == [] && maxMessages == old(maxMessages)
    {
      messages := [];
    }
  }


  /** `get_recent()` with its default limit returns the newest ten messages, or the whole
      log when it is shorter, in log order. */
  lemma RecentByDefault(recall: RecallMemory)
    ensures var recent := recall.GetRecent(DefaultRecentLimit);
            && |recent| == (if |recall.messages| <= 10 then |recall.messages| else 10)
            && SuffixOf(recent, recall.messages)
  {
    FromIsSuffix(recall.messages, -DefaultRecentLimit);
    FromNegated(recall.messages, DefaultRecentLimit);
  }
}
