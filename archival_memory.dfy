/** Archival memory (stateful_agents/memory/archival_memory.py): an insertion-ordered list of
    items, searched by case-insensitive substring in insertion order and deleted by id. */
module Archival {
  import opened Seqs
  import opened Messages
  import Strings

  const DefaultSearchLimit: int := 5

  datatype ArchivalItem = ArchivalItem(id: string, content: string, metadata: Metadata, timestamp: real)

  /** The id `add` gives a new item: `mem_<whole seconds of the clock>_<items held before>`. */
  function ItemId(clock: real, position: nat): (r: string)
    ensures "mem_" <= r
  {
    "mem_" + Strings.IntToDecimal(Strings.TruncateToInt(clock)) + "_" + Strings.NatToDecimal(position)
  }

  function HasId(id: string): ArchivalItem -> bool
  {
    (item: ArchivalItem) => item.id == id
  }

  /** The search test: the query occurs in the content, ignoring case. */
  function Mentions(query: string): ArchivalItem -> bool
  {
    (item: ArchivalItem) => Strings.Matches(query, item.content)
  }

  /** The items after `add(content, metadata)` with the clock reading `clock` (for the id)
      and `createdAt` (the item's own timestamp). */
  function Added(items: seq<ArchivalItem>, content: string, metadata: Option<Metadata>,
                 clock: real, createdAt: real): seq<ArchivalItem>
  {
    items + [ArchivalItem(ItemId(clock, |items|), content, OrEmpty(metadata), createdAt)]
  }

  /** The items after `delete(id)`: the first item with that id is gone, if there is one. */
  function Removed(items: seq<ArchivalItem>, id: string): (r: seq<ArchivalItem>)
    ensures (forall i :: 0 <= i < |items| ==> items[i].id != id) ==> r == items
    ensures forall k :: 0 <= k < |items| && items[k].id == id && (forall j :: 0 <= j < k ==> items[j].id != id)
              ==> r == items[..k] + items[k + 1..]
  {
    match FirstIndex(items, HasId(id))
    case None => items
    case Some(k) => RemoveAt(items, k)
  }

  /** What `search(query, limit)` returns (each result carries the item's four fields). */
  function SearchResults(items: seq<ArchivalItem>, query: string, limit: int): seq<ArchivalItem>
  {
    FirstMatches(items, Mentions(query), limit)
  }

  function ContentLength(item: ArchivalItem): nat
  {
    |item.content|
  }

  /** The sum of the content lengths, what `get_total_size` adds up. */
  function TotalContent(items: seq<ArchivalItem>): nat
  {
    Sum(items, ContentLength)
  }

  /** Search returns matching items only, as an order-preserving subsequence of the store
      (insertion order), at most `limit` of them for `limit >= 1` and at most one for
      `limit <= 0`, and they are the first matches: when fewer than that bound are returned,
      no other item matches. */
  lemma SearchSpec(items: seq<ArchivalItem>, query: string, limit: int)
    ensures SubsequenceOf(SearchResults(items, query, limit), items)
    ensures forall i :: 0 <= i < |SearchResults(items, query, limit)| ==>
              Strings.Matches(query, SearchResults(items, query, limit)[i].content)
    ensures limit >= 1 ==> |SearchResults(items, query, limit)| <= limit
    ensures limit <= 0 ==> |SearchResults(items, query, limit)| <= 1
    ensures SearchResults(items, query, limit) <= Filter(items, Mentions(query))
    ensures |SearchResults(items, query, limit)| < Cap(limit) ==>
              SearchResults(items, query, limit) == Filter(items, Mentions(query))
  {
    FirstMatchesSpec(items, Mentions(query), limit);
    var r := SearchResults(items, query, limit);
    forall i | 0 <= i < |r| ensures Strings.Matches(query, r[i].content) {
      assert Mentions(query)(r[i]);
    }
  }

  /** Adding `content` and then searching for it finds something, and the first result is
      the new item exactly when no earlier item mentions `content`: with such an earlier
      item, `search(content, 1)` returns that item and not the new one. */
  lemma {:induction false} AddThenSearch(items: seq<ArchivalItem>, content: string, metadata: Option<Metadata>,
                                         clock: real, createdAt: real, limit: int)
    ensures var r := SearchResults(Added(items, content, metadata, clock, createdAt), content, limit);
            var newItem := ArchivalItem(ItemId(clock, |items|), content, OrEmpty(metadata), createdAt);
            && r != []
            && (Filter(items, Mentions(content)) == [] ==> r[0] == newItem)
            && (Filter(items, Mentions(content)) != [] ==> r[0] == Filter(items, Mentions(content))[0])
  {
    var newItem := ArchivalItem(ItemId(clock, |items|), content, OrEmpty(metadata), createdAt);
    Strings.MatchesSelfAndEmpty(content, content);
    assert Mentions(content)(newItem);
    FilterSnoc(items, newItem, Mentions(content));
  }

  /** Ids can repeat: in an empty store, add twice within one second, delete the first item
      and add again; the two remaining items then carry the same id, so `get` and `delete`
      by that id reach only the older one. */
  lemma DuplicateIdAfterDelete(clock: real, c1: string, c2: string, c3: string, t1: real, t2: real, t3: real)
    ensures var s2 := Added(Added([], c1, None, clock, t1), c2, None, clock, t2);
            var s3 := Removed(s2, ItemId(clock, 0));
            var s4 := Added(s3, c3, None, clock, t3);
            && |s4| == 2
            && s4[0].id == s4[1].id
            && s4[0].content == c2 && s4[1].content == c3
  {
    var s2 := Added(Added([], c1, None, clock, t1), c2, None, clock, t2);
    assert s2[0].id == ItemId(clock, 0);
    assert Removed(s2, ItemId(clock, 0)) == s2[1..];
  }

  class ArchivalMemory {
    var items: seq<ArchivalItem>

    constructor ()
      ensures items == []
    {
      items := [];
    }

    method Add(content: string, metadata: Option<Metadata>, clock: real, createdAt: real) returns (id: string)
      modifies this
      ensures items == Added(old(items), content, metadata, clock, createdAt)
      ensures id == ItemId(clock, |old(items)|) && items[|items| - 1].id == id
      ensures items[..|old(items)|] == old(items)
    {
      id := ItemId(clock, |items|);
      var item := ArchivalItem(id, content, OrEmpty(metadata), createdAt);
      items := items + [item];
    }

    /** The first item with id `id`, if any. */
    method Get(id: string) returns (r: Option<ArchivalItem>)
      ensures r.None? <==> forall i :: 0 <= i < |items| ==> items[i].id != id
      ensures r.Some? ==> exists k :: 0 <= k < |items| && items[k] == r.value && r.value.id == id &&
                                      forall j :: 0 <= j < k ==> items[j].id != id
    {
      var i := 0;
      while i < |items|
        invariant 0 <= i <= |items|
        invariant forall j :: 0 <= j < i ==> items[j].id != id
      {
        if items[i].id == id {
          return Some(items[i]);
        }
        i := i + 1;
      }
      return None;
    }

    method Search(query: string, limit: int) returns (results: seq<ArchivalItem>)
      ensures results == SearchResults(items, query, limit)
    {
      results := [];
      var q := Strings.Lower(query);
      var i := 0;
      while i < |items|
        invariant 0 <= i <= |items|
        invariant results == Filter(items[..i], Mentions(query))
        invariant |results| < Cap(limit)
      {
        var item := items[i];
        FilterStep(items, i, Mentions(query));
        if Strings.Contains(Strings.Lower(item.content), q) {
          results := results + [item];
          if |results| >= limit {
            FirstMatchesStop(items, Mentions(query), limit, i + 1);
            return;
          }
        }
        i := i + 1;
      }
      assert items[..i] == items;
    }

    /** Removes the first item with id `id`; reports whether there was one. */
    method Delete(id: string) returns (found: bool)
      modifies this
      ensures found <==> exists i :: 0 <= i < |old(items)| && old(items)[i].id == id
      ensures items == Removed(old(items), id)
      ensures found ==> |items| == |old(items)| - 1
    {
      var i := 0;
      while i < |items|
        invariant 0 <= i <= |items|
        invariant forall j :: 0 <= j < i ==> items[j].id != id
      {
        if items[i].id == id {
          items := items[..i] + items[i + 1..];
          return true;
        }
        i := i + 1;
      }
      return false;
    }

    function Count(): (r: nat)
      reads this
      ensures r == 0 <==> items == []
    {
      |items|
    }

    function TotalSize(): (r: nat)
      reads this
      ensures items == [] ==> r == 0
      ensures forall i :: 0 <= i < |items| ==> |items[i].content| <= r
    {
      SumBound(items, ContentLength);
      TotalContent(items)
    }

    method Clear()
      modifies this
      ensures items == []
    {
      items := [];
    }
  }

}
