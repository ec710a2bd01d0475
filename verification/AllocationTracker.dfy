/**
  The counting allocator of instrumented builds (src/allocation_benchmark.rs): an
  open-addressed table that remembers the size, domain and birth epoch of live blocks,
  probing a bounded window, and the counters that are kept from it.

  `CountingAllocator` is the allocator's static state, updated one call at a time.  A
  mask with a power of two minus one is a remainder.
*/
module AllocationTracker {
  import opened Bags

  const TRACKER_SLOTS := 0x2_0000
  const TRACKER_PROBES := 128
  const ADDRESS_SPACE := 0x1_0000_0000_0000_0000
  const I64_MAX := 0x7fff_ffff_ffff_ffff

  datatype Domain = Host | Roc | Harness

  datatype Record = Record(size: nat, domain: Domain, epoch: nat)

  /** `pointer` is 0 in a vacant slot. */
  datatype Slot = Slot(pointer: nat, record: Record)

  const VACANT := Slot(0, Record(0, Host, 0))

  function VacantTable(): (slots: seq<Slot>)
    ensures |slots| == TRACKER_SLOTS && forall i :: 0 <= i < |slots| ==> slots[i] == VACANT
  {
    seq(TRACKER_SLOTS, _ => VACANT)
  }

  function Hash(pointer: nat): nat { (pointer / 16) * 0x9e37_79b1 % ADDRESS_SPACE % TRACKER_SLOTS }

  function Probe(pointer: nat, offset: nat): nat { (Hash(pointer) + offset) % TRACKER_SLOTS }

  /** The first slot in the window of `pointer`, from `offset` on, that holds `wanted`. */
  function Seek(slots: seq<Slot>, pointer: nat, wanted: nat, offset: nat): (r: Option<nat>)
    requires |slots| == TRACKER_SLOTS && offset <= TRACKER_PROBES
    ensures r.Some? ==> r.value < |slots| && slots[r.value].pointer == wanted
    decreases TRACKER_PROBES - offset
  {
    if offset == TRACKER_PROBES then None
    else if slots[Probe(pointer, offset)].pointer == wanted then Some(Probe(pointer, offset))
    else Seek(slots, pointer, wanted, offset + 1)
  }

  function TrackIn(slots: seq<Slot>, pointer: nat, record: Record): (after: seq<Slot>)
    requires |slots| == TRACKER_SLOTS
    ensures |after| == |slots|
  {
    var found := Seek(slots, pointer, 0, 0);
    if found.Some? then slots[found.value := Slot(pointer, record)] else slots
  }

  predicate Misses(slots: seq<Slot>, pointer: nat)
    requires |slots| == TRACKER_SLOTS
  {
    Seek(slots, pointer, 0, 0).None?
  }

  function Tracked(slots: seq<Slot>, pointer: nat): Option<Record>
    requires |slots| == TRACKER_SLOTS
  {
    var found := Seek(slots, pointer, pointer, 0);
    if found.Some? then Some(slots[found.value].record) else None
  }

  function UntrackIn(slots: seq<Slot>, pointer: nat): (after: seq<Slot>)
    requires |slots| == TRACKER_SLOTS
    ensures |after| == |slots|
  {
    var found := Seek(slots, pointer, pointer, 0);
    if found.Some? then slots[found.value := slots[found.value].(pointer := 0)] else slots
  }

  // ------------------------------------------------------ refinement of a map

  /** Every entry is in the window of its pointer, and no pointer has two. */
  ghost predicate WellPlaced(slots: seq<Slot>) {
    && |slots| == TRACKER_SLOTS
    && (forall i :: 0 <= i < |slots| && slots[i].pointer != 0 ==> InWindow(slots[i].pointer, i))
    && (forall i, j :: 0 <= i < j < |slots| && slots[i].pointer != 0 ==> slots[i].pointer != slots[j].pointer)
  }

  ghost predicate InWindow(pointer: nat, i: nat) {
    exists offset: nat :: offset < TRACKER_PROBES && Probe(pointer, offset) == i
  }

  lemma {:induction false} SeekHits(slots: seq<Slot>, pointer: nat, offset: nat, i: nat, at: nat)
    requires |slots| == TRACKER_SLOTS && offset <= at < TRACKER_PROBES
    requires i < |slots| && Probe(pointer, at) == i && slots[i].pointer == pointer
    requires forall j :: 0 <= j < |slots| && j != i ==> slots[j].pointer != pointer
    ensures Seek(slots, pointer, pointer, offset) == Some(i)
    decreases TRACKER_PROBES - offset
  {
    if slots[Probe(pointer, offset)].pointer != pointer {
      SeekHits(slots, pointer, offset + 1, i, at);
    }
  }

  /** The table contains `pointer` exactly where the search finds it. */
  lemma SeekExact(slots: seq<Slot>, pointer: nat, i: nat)
    requires WellPlaced(slots) && pointer != 0 && i < |slots| && slots[i].pointer == pointer
    ensures Seek(slots, pointer, pointer, 0) == Some(i)
  {
    assert InWindow(pointer, i);
    var at: nat :| at < TRACKER_PROBES && Probe(pointer, at) == i;
    SeekHits(slots, pointer, 0, i, at);
  }

  lemma {:induction false} SeekUnchanged(slots: seq<Slot>, pointer: nat, i: nat, x: Slot, offset: nat)
    requires |slots| == TRACKER_SLOTS && i < |slots| && offset <= TRACKER_PROBES
    requires slots[i].pointer != pointer && x.pointer != pointer
    ensures Seek(slots[i := x], pointer, pointer, offset) == Seek(slots, pointer, pointer, offset)
    decreases TRACKER_PROBES - offset
  {
    if offset < TRACKER_PROBES && slots[Probe(pointer, offset)].pointer != pointer {
      SeekUnchanged(slots, pointer, i, x, offset + 1);
    }
  }

  lemma {:induction false} SeekInWindow(slots: seq<Slot>, pointer: nat, wanted: nat, offset: nat)
    requires |slots| == TRACKER_SLOTS && offset <= TRACKER_PROBES && Seek(slots, pointer, wanted, offset).Some?
    ensures InWindow(pointer, Seek(slots, pointer, wanted, offset).value)
    decreases TRACKER_PROBES - offset
  {
    if slots[Probe(pointer, offset)].pointer != wanted {
      SeekInWindow(slots, pointer, wanted, offset + 1);
    }
  }

  /** Tracking a new pointer adds one entry to the map, unless its window is full. */
  lemma TrackRefines(slots: seq<Slot>, pointer: nat, record: Record)
    requires WellPlaced(slots) && pointer != 0 && forall i :: 0 <= i < |slots| ==> slots[i].pointer != pointer
    ensures WellPlaced(TrackIn(slots, pointer, record))
    ensures !Misses(slots, pointer) ==> Tracked(TrackIn(slots, pointer, record), pointer) == Some(record)
    ensures forall q: nat :: q != 0 && (q != pointer || Misses(slots, pointer)) ==>
      Tracked(TrackIn(slots, pointer, record), q) == Tracked(slots, q)
  {
    var found := Seek(slots, pointer, 0, 0);
    if found.Some? {
      var k, x := found.value, Slot(pointer, record);
      var after := slots[k := x];
      SeekInWindow(slots, pointer, 0, 0);
      assert WellPlaced(after);
      SeekExact(after, pointer, k);
      forall q: nat | q != 0 && q != pointer ensures Tracked(after, q) == Tracked(slots, q) {
        SeekUnchanged(slots, q, k, x, 0);
      }
    }
  }

  /** Untracking removes one entry of the map, and finds it whenever it is there. */
  lemma UntrackRefines(slots: seq<Slot>, pointer: nat)
    requires WellPlaced(slots) && pointer != 0
    ensures WellPlaced(UntrackIn(slots, pointer))
    ensures forall i :: 0 <= i < |slots| ==> UntrackIn(slots, pointer)[i].pointer != pointer
    ensures Tracked(slots, pointer).Some? <==> exists i :: 0 <= i < |slots| && slots[i].pointer == pointer
    ensures Tracked(UntrackIn(slots, pointer), pointer) == None
    ensures forall q: nat :: q != 0 && q != pointer ==> Tracked(UntrackIn(slots, pointer), q) == Tracked(slots, q)
  {
    var found := Seek(slots, pointer, pointer, 0);
    var after := UntrackIn(slots, pointer);
    if i: nat :| i < |slots| && slots[i].pointer == pointer {
      SeekExact(slots, pointer, i);
    }
    if found.Some? {
      var k := found.value;
      forall q: nat | q != 0 && q != pointer ensures Tracked(after, q) == Tracked(slots, q) {
        SeekUnchanged(slots, q, k, after[k], 0);
      }
    }
  }

  // ---------------------------------------------------------------- counters

  datatype Counters = Counters(
    allocs: nat, deallocs: nat, reallocs: nat, allocatedBytes: nat, deallocatedBytes: nat, reallocatedBytes: nat,
    liveBlocks: int, liveBytes: int, peakBlocks: int, peakBytes: int)

  const ZERO := Counters(0, 0, 0, 0, 0, 0, 0, 0, 0, 0)

  function Max(a: int, b: int): int { if a >= b then a else b }

  function Allocated(c: Counters, bytes: nat): Counters {
    c.(allocs := c.allocs + 1, allocatedBytes := c.allocatedBytes + bytes,
       liveBlocks := c.liveBlocks + 1, liveBytes := c.liveBytes + bytes,
       peakBlocks := Max(c.peakBlocks, c.liveBlocks + 1), peakBytes := Max(c.peakBytes, c.liveBytes + bytes))
  }

  function Deallocated(c: Counters, bytes: nat, affectsLive: bool): Counters {
    c.(deallocs := c.deallocs + 1, deallocatedBytes := c.deallocatedBytes + bytes,
       liveBlocks := if affectsLive then c.liveBlocks - 1 else c.liveBlocks,
       liveBytes := if affectsLive then c.liveBytes - bytes else c.liveBytes)
  }

  function Clamp(x: int): int { if x > I64_MAX then I64_MAX else if x < -I64_MAX - 1 then -I64_MAX - 1 else x }

  function Reallocated(c: Counters, oldBytes: nat, newBytes: nat, affectsLive: bool): Counters {
    var bytes := if affectsLive then c.liveBytes + Clamp(newBytes - oldBytes) else c.liveBytes;
    c.(reallocs := c.reallocs + 1, reallocatedBytes := c.reallocatedBytes + newBytes,
       liveBytes := bytes, peakBytes := if affectsLive then Max(c.peakBytes, bytes) else c.peakBytes)
  }

  datatype Bank = Bank(process: Counters, roc: Counters, host: Counters, harness: Counters)

  const EMPTY_BANK := Bank(ZERO, ZERO, ZERO, ZERO)

  function Of(b: Bank, d: Domain): Counters {
    match d
    case Host => b.host
    case Roc => b.roc
    case Harness => b.harness
  }

  function With(b: Bank, process: Counters, d: Domain, c: Counters): Bank {
    match d
    case Host => b.(process := process, host := c)
    case Roc => b.(process := process, roc := c)
    case Harness => b.(process := process, harness := c)
  }

  function BankAllocated(b: Bank, bytes: nat, d: Domain): Bank {
    With(b, Allocated(b.process, bytes), d, Allocated(Of(b, d), bytes))
  }

  function BankDeallocated(b: Bank, bytes: nat, d: Domain, live: bool): Bank {
    With(b, Deallocated(b.process, bytes, live), d, Deallocated(Of(b, d), bytes, live))
  }

  function BankReallocated(b: Bank, oldBytes: nat, newBytes: nat, d: Domain, live: bool): Bank {
    With(b, Reallocated(b.process, oldBytes, newBytes, live), d, Reallocated(Of(b, d), oldBytes, newBytes, live))
  }

  // -------------------------------------------------------------- allocator

  datatype State = State(slots: seq<Slot>, missesTotal: nat, missesEpoch: nat,
                         total: Bank, measured: Bank, generation: nat, current: nat)

  predicate Sized(s: State) { |s.slots| == TRACKER_SLOTS }

  function Track(s: State, pointer: nat, record: Record): (s': State)
    requires Sized(s)
    ensures Sized(s')
  {
    var miss := if Misses(s.slots, pointer) then 1 else 0;
    s.(slots := TrackIn(s.slots, pointer, record), missesTotal := s.missesTotal + miss,
       missesEpoch := s.missesEpoch + if s.current != 0 then miss else 0)
  }

  function AllocIn(s: State, pointer: nat, size: nat, d: Domain): (s': State)
    requires Sized(s)
    ensures Sized(s')
  {
    var s1 := Track(s, pointer, Record(size, d, s.current));
    s1.(total := BankAllocated(s.total, size, d),
        measured := if s.current != 0 then BankAllocated(s.measured, size, d) else s.measured)
  }

  /** The record of a block, or what is assumed of one that is not tracked. */
  function Known(s: State, pointer: nat, size: nat, d: Domain): Record
    requires Sized(s)
  {
    var found := Tracked(s.slots, pointer);
    if found.Some? then found.value else Record(size, d, 0)
  }

  function DeallocIn(s: State, pointer: nat, size: nat, d: Domain): (s': State)
    requires Sized(s)
    ensures Sized(s')
  {
    var r := Known(s, pointer, size, d);
    s.(slots := UntrackIn(s.slots, pointer), total := BankDeallocated(s.total, r.size, r.domain, true),
       measured := if s.current != 0
                   then BankDeallocated(s.measured, r.size, r.domain, r.epoch == s.current)
                   else s.measured)
  }

  function ReallocIn(s: State, pointer: nat, size: nat, replacement: nat, newSize: nat, d: Domain): (s': State)
    requires Sized(s)
    ensures Sized(s')
  {
    var r := Known(s, pointer, size, d);
    var s1 := Track(s.(slots := UntrackIn(s.slots, pointer)), replacement, Record(newSize, r.domain, r.epoch));
    s1.(total := BankReallocated(s.total, r.size, newSize, r.domain, true),
        measured := if s.current != 0
                    then BankReallocated(s.measured, r.size, newSize, r.domain, r.epoch == s.current)
                    else s.measured)
  }

  function BeginIn(s: State): State {
    if s.current != 0 then s
    else s.(measured := EMPTY_BANK, missesEpoch := 0, generation := s.generation + 1, current := s.generation + 1)
  }

  function EndIn(s: State): State { s.(current := 0) }

  class CountingAllocator {
    const slots: array<Slot>
    var missesTotal: nat
    var missesEpoch: nat
    var total: Bank
    var measured: Bank
    var generation: nat
    var current: nat

    function View(): State
      reads this, slots
    {
      State(slots[..], missesTotal, missesEpoch, total, measured, generation, current)
    }

    predicate Valid() { slots.Length == TRACKER_SLOTS }

    constructor ()
      ensures Valid() && fresh(slots)
      ensures View() == State(VacantTable(), 0, 0, EMPTY_BANK, EMPTY_BANK, 0, 0)
    {
      slots := new Slot[TRACKER_SLOTS](_ => VACANT);
      missesTotal, missesEpoch, generation, current := 0, 0, 0, 0;
      total, measured := EMPTY_BANK, EMPTY_BANK;
      new;
      assert slots[..] == VacantTable();
    }

    method TrackAllocation(pointer: nat, record: Record)
      requires Valid()
      modifies slots, `missesTotal, `missesEpoch
      ensures View() == Track(old(View()), pointer, record)
    {
      var start := Hash(pointer);
      for offset := 0 to TRACKER_PROBES
        invariant slots[..] == old(slots[..])
        invariant Seek(slots[..], pointer, 0, 0) == Seek(slots[..], pointer, 0, offset)
      {
        var i := (start + offset) % TRACKER_SLOTS;
        if slots[i].pointer == 0 {
          slots[i] := Slot(pointer, record);
          assert slots[..] == TrackIn(old(slots[..]), pointer, record);
          return;
        }
      }
      missesTotal := missesTotal + 1;
      if current != 0 {
        missesEpoch := missesEpoch + 1;
      }
    }

    method UntrackAllocation(pointer: nat) returns (found: Option<Record>)
      requires Valid()
      modifies slots
      ensures found == Tracked(old(slots[..]), pointer)
      ensures slots[..] == UntrackIn(old(slots[..]), pointer)
    {
      var start := Hash(pointer);
      for offset := 0 to TRACKER_PROBES
        invariant slots[..] == old(slots[..])
        invariant Seek(slots[..], pointer, pointer, 0) == Seek(slots[..], pointer, pointer, offset)
      {
        var i := (start + offset) % TRACKER_SLOTS;
        if slots[i].pointer == pointer {
          var record := slots[i].record;
          slots[i] := slots[i].(pointer := 0);
          assert slots[..] == UntrackIn(old(slots[..]), pointer);
          return Some(record);
        }
      }
      found := None;
    }

    method Alloc(pointer: nat, size: nat, d: Domain)
      requires Valid()
      modifies this, slots
      ensures View() == AllocIn(old(View()), pointer, size, d)
    {
      TrackAllocation(pointer, Record(size, d, current));
      total := BankAllocated(total, size, d);
      if current != 0 {
        measured := BankAllocated(measured, size, d);
      }
    }

    method Dealloc(pointer: nat, size: nat, d: Domain)
      requires Valid()
      modifies this, slots
      ensures View() == DeallocIn(old(View()), pointer, size, d)
    {
      var found := UntrackAllocation(pointer);
      var r := if found.Some? then found.value else Record(size, d, 0);
      total := BankDeallocated(total, r.size, r.domain, true);
      if current != 0 {
        measured := BankDeallocated(measured, r.size, r.domain, r.epoch == current);
      }
    }

    method Realloc(pointer: nat, size: nat, replacement: nat, newSize: nat, d: Domain)
      requires Valid()
      modifies this, slots
      ensures View() == ReallocIn(old(View()), pointer, size, replacement, newSize, d)
    {
      var found := UntrackAllocation(pointer);
      var r := if found.Some? then found.value else Record(size, d, 0);
      TrackAllocation(replacement, Record(newSize, r.domain, r.epoch));
      total := BankReallocated(total, r.size, newSize, r.domain, true);
      if current != 0 {
        measured := BankReallocated(measured, r.size, newSize, r.domain, r.epoch == current);
      }
    }

    method BeginEpoch() returns (ok: bool)
      modifies this
      ensures ok == (old(current) == 0) && View() == BeginIn(old(View()))
    {
      if current != 0 {
        return false;
      }
      measured := EMPTY_BANK;
      missesEpoch := 0;
      generation := generation + 1;
      current := generation;
      ok := true;
    }

    method EndEpoch() returns (snapshot: Option<(Bank, nat)>)
      modifies this
      ensures snapshot == if old(current) == 0 then None else Some((measured, missesEpoch))
      ensures View() == EndIn(old(View()))
    {
      var active := current != 0;
      current := 0;
      snapshot := if active then Some((measured, missesEpoch)) else None;
    }
  }
}
