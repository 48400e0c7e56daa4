/** Core memory (stateful_agents/memory/core_memory.py): a key-to-text map whose values are
    cut to at most `maxBlockSize` characters when they are written. */
module Core {
  import opened Seqs
  import Slices

  const DefaultMaxBlockSize: int := 1024

  /** The value actually stored for `value` under the limit `limit`: `value[:limit]` when
      the value is longer than the limit, the value itself otherwise. */
  function Truncate(value: string, limit: int): (r: string)
    ensures r <= value
    ensures |value| <= limit ==> r == value
    ensures 0 <= limit < |value| ==> |r| == limit
    ensures limit < 0 ==> |r| == if |value| + limit < 0 then 0 else |value| + limit
  {
    Slices.UptoPrefix(value, limit);
    if |value| > limit then Slices.Upto(value, limit) else value
  }

  ghost function Pick(keys: set<string>): string
    requires keys != {}
  {
    var k :| k in keys; k
  }

  /** The sum of the lengths of the values of `m`. */
  ghost function TotalLength(m: map<string, string>): nat
    decreases m.Keys
  {
    if m.Keys == {} then 0
    else
      var k := Pick(m.Keys);
      |m[k]| + TotalLength(m - {k})
  }

  /** The sum does not depend on which key is taken out first. */
  lemma {:induction false} TotalLengthRemove(m: map<string, string>, k: string)
    requires k in m
    ensures TotalLength(m) == |m[k]| + TotalLength(m - {k})
    decreases m.Keys
  {
    var j := Pick(m.Keys);
    if j != k {
      TotalLengthRemove(m - {j}, k);
      TotalLengthRemove(m - {k}, j);
      assert m - {j} - {k} == m - {k} - {j};
    }
  }

  /** A store whose values all respect the limit holds at most `count * limit` characters. */
  lemma {:induction false} TotalLengthBound(m: map<string, string>, limit: nat)
    requires forall k :: k in m ==> |m[k]| <= limit
    ensures TotalLength(m) <= |m| * limit
    decreases m.Keys
  {
    if m.Keys != {} {
      var k := Pick(m.Keys);
      assert |m - {k}| == |m| - 1;
      TotalLengthBound(m - {k}, limit);
    }
  }

  /** Writing `v` under `k` changes the total by the new length minus the old one. */
  lemma TotalLengthUpdate(m: map<string, string>, k: string, v: string)
    ensures TotalLength(m[k := v]) + (if k in m then |m[k]| else 0) == TotalLength(m) + |v|
  {
    TotalLengthRemove(m[k := v], k);
    assert m[k := v] - {k} == m - {k};
    if k in m {
      TotalLengthRemove(m, k);
    } else {
      assert m - {k} == m;
    }
  }

  class CoreMemory {
    var blocks: map<string, string>
    var maxBlockSize: int

    constructor (maxBlockSize: int)
      ensures this.blocks == map[] && this.maxBlockSize == maxBlockSize
    {
      this.blocks := map[];
      this.maxBlockSize := maxBlockSize;
    }

    /** The invariant that writes maintain: no stored value is longer than the limit. */
    ghost predicate WithinLimit()
      reads this
    {
      forall k :: k in blocks ==> |blocks[k]| <= maxBlockSize
    }

    method AddOrUpdate(key: string, value: string)
      modifies this
      ensures maxBlockSize == old(maxBlockSize)
      ensures blocks == old(blocks)[key := Truncate(value, maxBlockSize)]
      ensures maxBlockSize >= 0 ==>
                Get(key) == Some(if |value| <= maxBlockSize then value else value[..maxBlockSize])
      ensures maxBlockSize >= 0 && old(WithinLimit()) ==> WithinLimit()
    {
      var v := value;
      if |v| > maxBlockSize {
        v := Slices.Upto(v, maxBlockSize);
      }
      blocks := blocks[key := v];
    }

    /** The stored value under `key`, if there is one. */
    function Get(key: string): (r: Option<string>)
      reads this
      ensures r.Some? <==> Has(key)
      ensures r.Some? ==> r.value == blocks[key]
    {
      if key in blocks then Some(blocks[key]) else None
    }

    function Has(key: string): (r: bool)
      reads this
      ensures r <==> key in blocks
    {
      key in blocks
    }

    method Delete(key: string)
      modifies this
      ensures maxBlockSize == old(maxBlockSize)
      ensures blocks == old(blocks) - {key}
      ensures key !in old(blocks) ==> blocks == old(blocks)
      ensures !Has(key) && Get(key) == None
    {
      if key in blocks {
        blocks := blocks - {key};
      }
    }

    /** A snapshot of all blocks; a map is a value, so later writes to the store do not
        reach the snapshot and changes to the snapshot do not reach the store. */
    function GetAll(): (r: map<string, string>)
      reads this
      ensures r.Keys == blocks.Keys
      ensures forall k :: k in r ==> Get(k) == Some(r[k])
    {
      blocks
    }

    function Count(): (r: nat)
      reads this
      ensures r == 0 <==> blocks == map[]
    {
      |blocks|
    }

    /** Sums the value lengths one key at a time. */
    method TotalSize() returns (total: nat)
      ensures total == TotalLength(blocks)
    {
      var rest := blocks;
      total := 0;
      while rest != map[]
        invariant total + TotalLength(rest) == TotalLength(blocks)
        decreases rest.Keys
      {
        var k :| k in rest;
        TotalLengthRemove(rest, k);
        total := total + |rest[k]|;
        rest := rest - {k};
      }
    }

    method Clear()
      modifies this
      ensures blocks == map[] && maxBlockSize == old(maxBlockSize)
    {
      blocks := map[];
    }
  }
}
