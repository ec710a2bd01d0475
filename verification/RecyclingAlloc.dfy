/**
  The per-stream allocator for Brotli scratch memory (src/compression.rs): freed blocks
  are kept in 32 slots, up to a byte limit, and handed out again for requests of the
  same element type and length.

  Elements are integers with default 0; an element type is its identity and size.
  `outstanding` is the set of blocks that callers hold.
*/
module RecyclingAlloc {
  import opened Bags

  const BROTLI_RECYCLER_SLOTS := 32

  datatype Kind = Kind(id: nat, size: nat)

  datatype Cached = Cached(kind: Kind, data: array<int>)

  datatype Stats = Stats(
    allocationRequests: nat, cacheHits: nat, systemAllocations: nat, frees: nat, uncachedFrees: nat,
    cachedBlocks: int, cachedBytes: int, peakCachedBytes: int)

  const NO_STATS := Stats(0, 0, 0, 0, 0, 0, 0, 0)

  function Bytes(b: Option<Cached>): int { if b.Some? then b.value.data.Length * b.value.kind.size else 0 }

  function Present(b: Option<Cached>): Option<Cached> { b }

  predicate Matches(b: Option<Cached>, kind: Kind, len: nat) {
    b.Some? && b.value.kind == kind && b.value.data.Length == len
  }

  function Max(a: int, b: int): int { if a >= b then a else b }

  /** The arrays on a shelf of slots. */
  ghost function DataOf(s: seq<Option<Cached>>): set<array<int>> {
    set i | 0 <= i < |s| && s[i].Some? :: s[i].value.data
  }

  /** No array is empty, or in two slots. */
  predicate Shelved(s: seq<Option<Cached>>) {
    && |s| == BROTLI_RECYCLER_SLOTS
    && (forall i :: 0 <= i < |s| && s[i].Some? ==> s[i].value.data.Length > 0)
    && (forall i, j :: 0 <= i < j < |s| && s[i].Some? && s[j].Some? ==> s[i].value.data != s[j].value.data)
  }

  /** The block was put into an empty slot, if there is one to put; the other slots are as before. */
  ghost predicate Stored(s: seq<Option<Cached>>, s': seq<Option<Cached>>, block: Option<Cached>) {
    if block.None? then s' == s else exists i :: 0 <= i < |s| && s[i].None? && s' == s[i := block]
  }

  lemma TakeOne(s: seq<Option<Cached>>, i: nat)
    requires Shelved(s) && i < |s| && s[i].Some?
    ensures var s' := s[i := None];
      && Shelved(s') && DataOf(s') == DataOf(s) - {s[i].value.data} && s[i].value.data in DataOf(s)
      && Size(s', Present) == Size(s, Present) - 1
      && Sum(s', Bytes) == Sum(s, Bytes) - Bytes(s[i])
  {
    Update(s, Present, i, None, s[i].value);
    SumUpdate(s, Bytes, i, None);
    var s' := s[i := None];
    forall d | d in DataOf(s) && d != s[i].value.data ensures d in DataOf(s') {
      var j :| 0 <= j < |s| && s[j].Some? && s[j].value.data == d;
      assert s'[j].Some? && s'[j].value.data == d;
    }
  }

  lemma PutOne(s: seq<Option<Cached>>, i: nat, c: Cached)
    requires Shelved(s) && i < |s| && s[i].None? && c.data !in DataOf(s) && c.data.Length > 0
    ensures var s' := s[i := Some(c)];
      && Shelved(s') && DataOf(s') == DataOf(s) + {c.data}
      && Size(s', Present) == Size(s, Present) + 1
      && Sum(s', Bytes) == Sum(s, Bytes) + Bytes(Some(c))
  {
    Update(s, Present, i, Some(c), c);
    SumUpdate(s, Bytes, i, Some(c));
    var s' := s[i := Some(c)];
    assert s'[i].value.data == c.data;
    forall d | d in DataOf(s) ensures d in DataOf(s') {
      var j :| 0 <= j < |s| && s[j].Some? && s[j].value.data == d;
      assert s'[j].Some? && s'[j].value.data == d;
    }
  }

  method Clear(data: array<int>)
    modifies data
    ensures forall k :: 0 <= k < data.Length ==> data[k] == 0
  {
    for k := 0 to data.Length
      invariant forall j :: 0 <= j < k ==> data[j] == 0
    {
      data[k] := 0;
    }
  }

  class Recycler {
    const blocks: array<Option<Cached>>
    const maxCachedBytes: nat
    var stats: Stats
    ghost var outstanding: set<array<int>>

    /** The arrays in the cache. */
    ghost function CachedData(): set<array<int>>
      reads blocks
    {
      DataOf(blocks[..])
    }

    /** Each array is in one slot or with one caller; the counters describe the slots;
        and every block the system provided is accounted for. */
    ghost predicate Valid()
      reads this, blocks
    {
      && Shelved(blocks[..]) && CachedData() !! outstanding
      && stats.cachedBlocks == Size(blocks[..], Present)
      && stats.cachedBytes == Sum(blocks[..], Bytes) <= maxCachedBytes
      && stats.cachedBytes <= stats.peakCachedBytes <= maxCachedBytes
      && stats.systemAllocations == |outstanding| + stats.cachedBlocks + stats.uncachedFrees
    }

    constructor (limit: nat)
      ensures Valid() && fresh(blocks) && maxCachedBytes == limit && stats == NO_STATS && outstanding == {}
    {
      blocks := new Option<Cached>[BROTLI_RECYCLER_SLOTS](_ => None);
      maxCachedBytes := limit;
      stats := NO_STATS;
      outstanding := {};
      new;
      SizeZero(blocks[..], Present);
      SumZero(blocks[..], Bytes);
    }

    method FindMatch(kind: Kind, len: nat) returns (index: Option<nat>)
      ensures index.Some? ==> index.value < blocks.Length && Matches(blocks[index.value], kind, len)
      ensures index.Some? ==> forall i :: 0 <= i < index.value ==> !Matches(blocks[i], kind, len)
      ensures index.None? ==> forall i :: 0 <= i < blocks.Length ==> !Matches(blocks[i], kind, len)
    {
      for i := 0 to blocks.Length
        invariant forall j :: 0 <= j < i ==> !Matches(blocks[j], kind, len)
      {
        if Matches(blocks[i], kind, len) {
          return Some(i);
        }
      }
      index := None;
    }

    method FindEmpty() returns (index: Option<nat>)
      ensures index.Some? ==> index.value < blocks.Length && blocks[index.value].None?
      ensures index.None? ==> forall i :: 0 <= i < blocks.Length ==> blocks[i].Some?
    {
      for i := 0 to blocks.Length
        invariant forall j :: 0 <= j < i ==> blocks[j].Some?
      {
        if blocks[i].None? {
          return Some(i);
        }
      }
      index := None;
    }

    /** Take the block out of slot `i` and reset it. */
    method Reuse(i: nat) returns (data: array<int>)
      requires Valid() && i < blocks.Length && blocks[i].Some?
      modifies this, blocks, blocks[i].value.data
      ensures Valid() && data == old(blocks[i]).value.data
      ensures forall k :: 0 <= k < data.Length ==> data[k] == 0
      ensures outstanding == old(outstanding) + {data} && CachedData() == old(CachedData()) - {data}
      ensures data in old(CachedData()) && data !in old(outstanding)
      ensures stats == old(stats).(cacheHits := old(stats).cacheHits + 1, cachedBlocks := old(stats).cachedBlocks - 1,
                                   cachedBytes := old(stats).cachedBytes - Bytes(old(blocks[i])))
    {
      var block := blocks[i].value;
      TakeOne(blocks[..], i);
      blocks[i] := None;
      assert blocks[..] == old(blocks[..])[i := None];
      stats := stats.(cacheHits := stats.cacheHits + 1, cachedBlocks := stats.cachedBlocks - 1,
                      cachedBytes := stats.cachedBytes - block.data.Length * block.kind.size);
      outstanding := outstanding + {block.data};
      data := block.data;
      Clear(data);
    }

    /** `alloc_cell`: a block of the requested length with default contents that nobody
        else holds, as from a fresh allocator, whether it was recycled or not. */
    method AllocCell(kind: Kind, len: nat) returns (memory: Option<array<int>>)
      requires Valid()
      modifies this, blocks, CachedData()
      ensures Valid()
      ensures memory.None? <==> len == 0
      ensures memory.Some? ==>
        && memory.value.Length == len
        && (forall k :: 0 <= k < len ==> memory.value[k] == 0)
        && memory.value !in old(outstanding) && outstanding == old(outstanding) + {memory.value}
        && memory.value !in CachedData()
        && (memory.value in old(CachedData()) || fresh(memory.value))
      ensures memory.None? ==> outstanding == old(outstanding)
      ensures stats.allocationRequests == old(stats.allocationRequests) + 1
      ensures memory.Some? ==>
        var hit := exists i :: 0 <= i < blocks.Length && old(Matches(blocks[i], kind, len));
        && stats.cacheHits == old(stats.cacheHits) + (if hit then 1 else 0)
        && stats.systemAllocations == old(stats.systemAllocations) + (if hit then 0 else 1)
      ensures CachedData() <= old(CachedData()) && stats.peakCachedBytes == old(stats.peakCachedBytes)
    {
      stats := stats.(allocationRequests := stats.allocationRequests + 1);
      if len == 0 {
        return None;
      }
      var index := FindMatch(kind, len);
      if index.Some? {
        var data := Reuse(index.value);
        return Some(data);
      }
      var data := new int[len](_ => 0);
      stats := stats.(systemAllocations := stats.systemAllocations + 1);
      outstanding := outstanding + {data};
      memory := Some(data);
    }

    /** Keep a block that its holder gave back. */
    method Keep(i: nat, block: Cached)
      requires Valid() && i < blocks.Length && blocks[i].None? && block.data in outstanding && block.data.Length > 0
      requires stats.cachedBytes + Bytes(Some(block)) <= maxCachedBytes
      modifies this, blocks
      ensures Valid() && outstanding == old(outstanding) - {block.data}
      ensures CachedData() == old(CachedData()) + {block.data}
      ensures blocks[..] == old(blocks[..])[i := Some(block)]
      ensures stats == old(stats).(cachedBlocks := old(stats.cachedBlocks) + 1,
                                   cachedBytes := old(stats.cachedBytes) + Bytes(Some(block)),
                                   peakCachedBytes := Max(old(stats.peakCachedBytes), stats.cachedBytes))
    {
      var bytes := block.data.Length * block.kind.size;
      PutOne(blocks[..], i, block);
      blocks[i] := Some(block);
      assert blocks[..] == old(blocks[..])[i := Some(block)];
      outstanding := outstanding - {block.data};
      stats := stats.(cachedBlocks := stats.cachedBlocks + 1, cachedBytes := stats.cachedBytes + bytes,
                      peakCachedBytes := Max(stats.peakCachedBytes, stats.cachedBytes + bytes));
    }

    /** `free_cell`: the block is kept exactly if it fits the limit and a slot is free. */
    method FreeCell(kind: Kind, memory: Option<array<int>>)
      requires Valid() && (memory.Some? ==> memory.value in outstanding && memory.value.Length > 0)
      modifies this, blocks
      ensures Valid()
      ensures stats.frees == old(stats.frees) + 1
      ensures memory.None? ==> outstanding == old(outstanding) && CachedData() == old(CachedData())
      ensures memory.Some? ==>
        var room := old(stats.cachedBytes) + memory.value.Length * kind.size <= maxCachedBytes
                    && exists i :: 0 <= i < blocks.Length && old(blocks[i]).None?;
        && outstanding == old(outstanding) - {memory.value}
        && CachedData() == old(CachedData()) + (if room then {memory.value} else {})
        && stats.uncachedFrees == old(stats.uncachedFrees) + (if room then 0 else 1)
        && Stored(old(blocks[..]), blocks[..], if room then Some(Cached(kind, memory.value)) else None)
      ensures stats.peakCachedBytes == Max(old(stats.peakCachedBytes), stats.cachedBytes)
    {
      stats := stats.(frees := stats.frees + 1);
      if memory.None? {
        return;
      }
      FreeBlock(kind, memory.value);
    }

    method FreeBlock(kind: Kind, data: array<int>)
      requires Valid() && data in outstanding && data.Length > 0
      modifies this, blocks
      ensures Valid() && stats.frees == old(stats.frees)
      ensures var room := old(stats.cachedBytes) + data.Length * kind.size <= maxCachedBytes
                          && exists i :: 0 <= i < blocks.Length && old(blocks[i]).None?;
        && outstanding == old(outstanding) - {data}
        && CachedData() == old(CachedData()) + (if room then {data} else {})
        && stats.uncachedFrees == old(stats.uncachedFrees) + (if room then 0 else 1)
        && Stored(old(blocks[..]), blocks[..], if room then Some(Cached(kind, data)) else None)
      ensures stats.peakCachedBytes == Max(old(stats.peakCachedBytes), stats.cachedBytes)
    {
      var bytes := data.Length * kind.size;
      if stats.cachedBytes + bytes <= maxCachedBytes {
        var slot := FindEmpty();
        if slot.Some? {
          Keep(slot.value, Cached(kind, data));
          return;
        }
      }
      outstanding := outstanding - {data};
      stats := stats.(uncachedFrees := stats.uncachedFrees + 1);
    }
  }
}
