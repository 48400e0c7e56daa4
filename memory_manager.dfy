/** The memory manager (stateful_agents/memory/memory_manager.py): a facade over the three
    tiers, each operation delegating to exactly one of them, plus per-tier statistics and a
    reset of all three. */
module Memory {
  import opened Seqs
  import opened Messages
  import opened Core
  import opened Archival
  import opened Recall

  datatype TierStats = TierStats(count: nat, totalSize: nat)
  datatype MemoryStats = MemoryStats(core: TierStats, archival: TierStats, recall: TierStats)

  class MemoryManager {
    const core: CoreMemory
    const archival: ArchivalMemory
    const recall: RecallMemory

    constructor (core: CoreMemory, archival: ArchivalMemory, recall: RecallMemory)
      ensures this.core == core && this.archival == archival && this.recall == recall
    {
      this.core, this.archival, this.recall := core, archival, recall;
    }

    /** A manager over three new, empty tiers with the default limits. */
    constructor Default()
      ensures fresh(core) && fresh(archival) && fresh(recall)
      ensures core.blocks == map[] && core.maxBlockSize == DefaultMaxBlockSize
      ensures archival.items == []
      ensures recall.messages == [] && recall.maxMessages == DefaultMaxMessages
    {
      core := new CoreMemory(DefaultMaxBlockSize);
      archival := new ArchivalMemory();
      recall := new RecallMemory(DefaultMaxMessages);
    }

    /** The statistics `get_memory_stats` reports. */
    ghost function Stats(): MemoryStats
      reads core, archival, recall
    {
      MemoryStats(
        TierStats(|core.blocks|, TotalLength(core.blocks)),
        TierStats(|archival.items|, Archival.TotalContent(archival.items)),
        TierStats(|recall.messages|, Recall.TotalContent(recall.messages)))
    }

    method AddCoreMemory(key: string, value: string)
      modifies core
      ensures core.maxBlockSize == old(core.maxBlockSize)
      ensures core.blocks == old(core.blocks)[key := Truncate(value, core.maxBlockSize)]
      ensures HasCoreMemory(key)
      ensures core.maxBlockSize >= 0 ==>
                GetCoreMemory(key) == Some(if |value| <= core.maxBlockSize then value else value[..core.maxBlockSize])
      ensures unchanged(archival) && unchanged(recall)
    {
      core.AddOrUpdate(key, value);
    }

    function GetCoreMemory(key: string): (r: Option<string>)
      reads core
      ensures r.Some? <==> key in core.blocks
      ensures r.Some? ==> r.value == core.blocks[key]
    {
      core.Get(key)
    }

    function HasCoreMemory(key: string): (r: bool)
      reads core
      ensures r <==> core.Get(key).Some?
    {
      core.Has(key)
    }

    function GetAllCoreMemory(): (r: map<string, string>)
      reads core
      ensures r == core.blocks
    {
      core.GetAll()
    }

    method AddToArchival(content: string, metadata: Option<Metadata>, clock: real, createdAt: real) returns (id: string)
      modifies archival
      ensures archival.items == Added(old(archival.items), content, metadata, clock, createdAt)
      ensures id == ItemId(clock, |old(archival.items)|)
      ensures unchanged(core) && unchanged(recall)
    {
      id := archival.Add(content, metadata, clock, createdAt);
    }

    method SearchArchival(query: string, limit: int) returns (r: seq<ArchivalItem>)
      ensures r == SearchResults(archival.items, query, limit)
    {
      r := archival.Search(query, limit);
    }

    method AddToRecall(m: Message)
      modifies recall
      ensures recall.maxMessages == old(recall.maxMessages)
      ensures recall.messages == Fifo.Push(old(recall.messages), m, recall.maxMessages)
      ensures unchanged(core) && unchanged(archival)
    {
      recall.Add(m);
    }

    method GetRelevantRecall(query: string, limit: int) returns (r: seq<Message>)
      ensures r == Hits(recall.messages, query, limit)
    {
      r := recall.Search(query, limit);
    }

    function GetRecentRecall(limit: int): (r: seq<Message>)
      reads recall
      ensures limit >= 1 ==> r == Slices.Last(recall.messages, limit)
      ensures limit == 0 ==> r == recall.messages
    {
      recall.GetRecent(limit)
    }

    method GetMemoryStats() returns (s: MemoryStats)
      ensures s == Stats()
    {
      var coreTotal := core.TotalSize();
      s := MemoryStats(
        TierStats(core.Count(), coreTotal),
        TierStats(archival.Count(), archival.TotalSize()),
        TierStats(recall.Count(), recall.TotalSize()));
    }

    /** Empties all three tiers; their limits are kept. */
    method ClearAll()
      modifies core, archival, recall
      ensures core.blocks == map[] && archival.items == [] && recall.messages == []
      ensures core.maxBlockSize == old(core.maxBlockSize) && recall.maxMessages == old(recall.maxMessages)
      ensures Stats() == MemoryStats(TierStats(0, 0), TierStats(0, 0), TierStats(0, 0))
    {
      core.Clear();
      archival.Clear();
      recall.Clear();
    }
  }
}
