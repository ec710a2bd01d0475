/**
  Every sequential history of the counting allocator: blocks come and go, epochs begin
  and end, and table and counters are compared with the blocks themselves.

  The system allocator never returns the address of a live block, and a block is
  released or resized by its owner, with the size it has.  A live block carries the
  record it ought to have: its size, and the domain and epoch of its birth, which a
  resize keeps.  Nothing here reads the table to decide that record.
*/
module AllocationRuns {
  import opened Bags
  import opened AllocationTracker

  datatype Block = Block(pointer: nat, record: Record)

  /** A deviation of the live counters of one domain. */
  datatype Drift = Drift(blocks: nat, bytes: int)
  datatype Drifts = Drifts(host: Drift, roc: Drift, harness: Drift)

  const STEADY := Drifts(Drift(0, 0), Drift(0, 0), Drift(0, 0))

  function DriftOf(b: Drifts, d: Domain): Drift {
    match d
    case Host => b.host
    case Roc => b.roc
    case Harness => b.harness
  }

  function Add(b: Drifts, d: Domain, blocks: nat, bytes: int): Drifts {
    var x := DriftOf(b, d);
    var more := Drift(x.blocks + blocks, x.bytes + bytes);
    match d
    case Host => b.(host := more)
    case Roc => b.(roc := more)
    case Harness => b.(harness := more)
  }

  function AllBlocks(b: Drifts): nat { b.host.blocks + b.roc.blocks + b.harness.blocks }

  /** `lost` and `stray` are books about the running epoch: what was born in it but found
      no room in the table, and what was released or resized without being recognised. */
  datatype World = World(s: State, live: seq<Block>, lost: Drifts, stray: Drifts)

  datatype Action =
    | Alloc(pointer: nat, size: nat, domain: Domain)
    | Dealloc(block: nat, domain: Domain)
    | Realloc(block: nat, pointer: nat, size: nat, domain: Domain)
    | BeginEpoch
    | EndEpoch

  function Initial(): World {
    World(State(VacantTable(), 0, 0, EMPTY_BANK, EMPTY_BANK, 0, 0), [], STEADY, STEADY)
  }

  predicate NotLive(live: seq<Block>, p: nat) { forall j :: 0 <= j < |live| ==> live[j].pointer != p }

  predicate Enabled(w: World, a: Action) {
    && Sized(w.s)
    && match a
       case Alloc(p, size, _) => p != 0 && size <= I64_MAX && NotLive(w.live, p)
       case Dealloc(i, _) => i < |w.live|
       case Realloc(i, p, size, _) =>
         i < |w.live| && p != 0 && size <= I64_MAX && (p == w.live[i].pointer || NotLive(w.live, p))
       case BeginEpoch => true
       case EndEpoch => true
  }

  /** What the allocator takes the record of live block `i` to be. */
  function Taken(w: World, i: nat, d: Domain): Record
    requires Sized(w.s) && i < |w.live|
  {
    Known(w.s, w.live[i].pointer, w.live[i].record.size, d)
  }

  /** An allocation, or a move of a block known to be born in the epoch, finds no room. */
  predicate Loses(w: World, a: Action) {
    && Enabled(w, a) && w.s.current != 0
    && match a
       case Alloc(p, _, _) => Misses(w.s.slots, p)
       case Realloc(i, p, _, d) =>
         Taken(w, i, d).epoch == w.s.current && Misses(UntrackIn(w.s.slots, w.live[i].pointer), p)
       case _ => false
  }

  /** A block born in the epoch is released, and the allocator does not take it for one. */
  predicate Strays(w: World, a: Action) { Enabled(w, a) && a.Dealloc? && Unrecognised(w, a.block, a.domain) }

  predicate Unrecognised(w: World, i: nat, d: Domain)
    requires Sized(w.s) && i < |w.live|
  {
    w.s.current != 0 && w.live[i].record.epoch == w.s.current && Taken(w, i, d).epoch != w.s.current
  }

  function DoAlloc(w: World, p: nat, size: nat, d: Domain): World
    requires Enabled(w, Alloc(p, size, d))
  {
    World(AllocIn(w.s, p, size, d), w.live + [Block(p, Record(size, d, w.s.current))],
          if Loses(w, Alloc(p, size, d)) then Add(w.lost, d, 1, size) else w.lost, w.stray)
  }

  function DoDealloc(w: World, i: nat, d: Domain): World
    requires Enabled(w, Dealloc(i, d))
  {
    var r := w.live[i].record;
    World(DeallocIn(w.s, w.live[i].pointer, r.size, d), w.live[..i] + w.live[i + 1..], w.lost,
          if Unrecognised(w, i, d) then Add(w.stray, r.domain, 1, r.size) else w.stray)
  }

  function DoRealloc(w: World, i: nat, p: nat, size: nat, d: Domain): World
    requires Enabled(w, Realloc(i, p, size, d))
  {
    var r := w.live[i].record;
    World(ReallocIn(w.s, w.live[i].pointer, r.size, p, size, d), w.live[i := Block(p, r.(size := size))],
          if Loses(w, Realloc(i, p, size, d)) then Add(w.lost, Taken(w, i, d).domain, 1, size) else w.lost,
          if Unrecognised(w, i, d) then Add(w.stray, r.domain, 0, r.size - size) else w.stray)
  }

  function DoBegin(w: World): World {
    if w.s.current != 0 then w else World(BeginIn(w.s), w.live, STEADY, STEADY)
  }

  function Next(w: World, a: Action): World
    requires Enabled(w, a)
  {
    match a
    case Alloc(p, size, d) => DoAlloc(w, p, size, d)
    case Dealloc(i, d) => DoDealloc(w, i, d)
    case Realloc(i, p, size, d) => DoRealloc(w, i, p, size, d)
    case BeginEpoch => DoBegin(w)
    case EndEpoch => w.(s := EndIn(w.s))
  }

  // -------------------------------------------------------- what is counted

  function Match(r: Record, d: Domain, e: nat): nat { if r.domain == d && r.epoch == e then 1 else 0 }

  function MatchBytes(r: Record, d: Domain, e: nat): nat { if r.domain == d && r.epoch == e then r.size else 0 }

  /** Table entries of domain `d` born in epoch `e`. */
  function Born(d: Domain, e: nat): Slot -> Option<nat> {
    (x: Slot) => if x.pointer != 0 && x.record.domain == d && x.record.epoch == e then Some(0) else None
  }

  function BornBytes(d: Domain, e: nat): Slot -> int {
    (x: Slot) => if x.pointer != 0 && x.record.domain == d && x.record.epoch == e then x.record.size else 0
  }

  /** Live blocks of domain `d` born in epoch `e`. */
  function LiveBorn(d: Domain, e: nat): Block -> Option<nat> {
    (b: Block) => if b.record.domain == d && b.record.epoch == e then Some(0) else None
  }

  function LiveBytes(d: Domain, e: nat): Block -> int { (b: Block) => MatchBytes(b.record, d, e) }

  function SizeOf(b: Block): int { b.record.size }

  /** Live blocks of domain `d`. */
  function InDomain(d: Domain): Block -> Option<nat> { (b: Block) => if b.record.domain == d then Some(0) else None }

  function DomainBytes(d: Domain): Block -> int { (b: Block) => if b.record.domain == d then b.record.size else 0 }

  // -------------------------------------------------------------- invariant

  predicate Distinct(live: seq<Block>) {
    forall i, j :: 0 <= i < j < |live| ==> live[i].pointer != live[j].pointer
  }

  predicate Born0(b: Block, generation: nat) {
    b.pointer != 0 && b.record.size <= I64_MAX && b.record.epoch <= generation
  }

  predicate Blocks(live: seq<Block>, generation: nat) {
    Distinct(live) && forall j :: 0 <= j < |live| ==> Born0(live[j], generation)
  }

  /** The entry is about this block, and tells its domain and epoch if it tells any epoch. */
  predicate Fits(b: Block, x: Slot) {
    && b.pointer == x.pointer && b.record.size == x.record.size
    && (x.record.epoch != 0 ==> b.record == x.record)
  }

  predicate Describes(live: seq<Block>, x: Slot) { exists j :: 0 <= j < |live| && Fits(live[j], x) }

  /** Every entry describes a live block. */
  predicate Entries(slots: seq<Slot>, live: seq<Block>) {
    forall i :: 0 <= i < |slots| && slots[i].pointer != 0 ==> Describes(live, slots[i])
  }

  /** The table has the record of every live block born in epoch `e` or later. */
  ghost predicate FoundFrom(slots: seq<Slot>, live: seq<Block>, e: nat)
    requires |slots| == TRACKER_SLOTS
  {
    forall j :: 0 <= j < |live| && live[j].record.epoch >= e ==>
      Tracked(slots, live[j].pointer) == Some(live[j].record)
  }

  /** The table describes live blocks, and all of them if nothing missed. */
  ghost predicate Placed(w: World) {
    && WellPlaced(w.s.slots) && Blocks(w.live, w.s.generation) && Entries(w.s.slots, w.live)
    && (w.s.current == 0 || w.s.current == w.s.generation)
  }

  ghost predicate Finds(w: World)
    requires Sized(w.s)
  {
    && (w.s.missesTotal == 0 ==> FoundFrom(w.s.slots, w.live, 0))
    && (w.s.current != 0 && w.s.missesEpoch == 0 ==> FoundFrom(w.s.slots, w.live, w.s.current) && w.stray == STEADY)
  }

  /** The epoch counters of domain `d`: what the table holds of the epoch and what was lost. */
  predicate Measures(w: World, d: Domain) {
    && Of(w.s.measured, d).liveBlocks == Size(w.s.slots, Born(d, w.s.current)) + DriftOf(w.lost, d).blocks
    && Of(w.s.measured, d).liveBytes == Sum(w.s.slots, BornBytes(d, w.s.current)) + DriftOf(w.lost, d).bytes
  }

  /** The epoch counters of domain `d`: the live blocks of the epoch and what went astray. */
  predicate Attributes(w: World, d: Domain) {
    && Of(w.s.measured, d).liveBlocks == Size(w.live, LiveBorn(d, w.s.current)) + DriftOf(w.stray, d).blocks
    && Of(w.s.measured, d).liveBytes == Sum(w.live, LiveBytes(d, w.s.current)) + DriftOf(w.stray, d).bytes
  }

  /** The totals of domain `d` are its live blocks. */
  predicate Totals(w: World, d: Domain) {
    && Of(w.s.total, d).liveBlocks == Size(w.live, InDomain(d))
    && Of(w.s.total, d).liveBytes == Sum(w.live, DomainBytes(d))
  }

  /** The process counters are the sums of the three domains. */
  predicate Classified(b: Bank) {
    && b.process.allocs == b.roc.allocs + b.host.allocs + b.harness.allocs
    && b.process.deallocs == b.roc.deallocs + b.host.deallocs + b.harness.deallocs
    && b.process.reallocs == b.roc.reallocs + b.host.reallocs + b.harness.reallocs
    && b.process.allocatedBytes == b.roc.allocatedBytes + b.host.allocatedBytes + b.harness.allocatedBytes
    && b.process.deallocatedBytes == b.roc.deallocatedBytes + b.host.deallocatedBytes + b.harness.deallocatedBytes
    && b.process.reallocatedBytes == b.roc.reallocatedBytes + b.host.reallocatedBytes + b.harness.reallocatedBytes
    && b.process.liveBlocks == b.roc.liveBlocks + b.host.liveBlocks + b.harness.liveBlocks
    && b.process.liveBytes == b.roc.liveBytes + b.host.liveBytes + b.harness.liveBytes
  }

  /** Only misses of the epoch lose anything, and never less than nothing. */
  predicate LossesCounted(lost: Drifts, misses: nat) {
    && AllBlocks(lost) <= misses
    && forall d :: DriftOf(lost, d).bytes >= 0 && (DriftOf(lost, d).blocks == 0 ==> DriftOf(lost, d).bytes == 0)
  }

  lemma LossCounted(lost: Drifts, misses: nat, d: Domain, bytes: nat)
    requires LossesCounted(lost, misses)
    ensures LossesCounted(Add(lost, d, 1, bytes), misses + 1) && LossesCounted(lost, misses + 1)
  {
    forall d'
      ensures DriftOf(Add(lost, d, 1, bytes), d').bytes >= 0
      ensures DriftOf(Add(lost, d, 1, bytes), d').blocks == 0 ==> DriftOf(Add(lost, d, 1, bytes), d').bytes == 0
    {
      assert DriftOf(lost, d').bytes >= 0 && (DriftOf(lost, d').blocks == 0 ==> DriftOf(lost, d').bytes == 0);
    }
  }

  lemma Added(b: Drifts, d: Domain, blocks: nat, bytes: int, d': Domain)
    ensures DriftOf(Add(b, d, blocks, bytes), d').blocks == DriftOf(b, d').blocks + if d == d' then blocks else 0
    ensures DriftOf(Add(b, d, blocks, bytes), d').bytes == DriftOf(b, d').bytes + if d == d' then bytes else 0
    ensures AllBlocks(Add(b, d, blocks, bytes)) == AllBlocks(b) + blocks
  {
  }

  /** The process totals are the live blocks, and the domains add up. */
  predicate Books(w: World) {
    && w.s.total.process.liveBlocks == |w.live| == w.s.total.process.allocs - w.s.total.process.deallocs
    && w.s.total.process.liveBytes == Sum(w.live, SizeOf)
    && Classified(w.s.total) && Classified(w.s.measured)
  }

  predicate Epoch(w: World) {
    w.s.current != 0 ==>
      (forall d :: Measures(w, d) && Attributes(w, d)) && LossesCounted(w.lost, w.s.missesEpoch)
  }

  ghost predicate Inv(w: World) {
    && Placed(w) && Finds(w) && Books(w) && Epoch(w)
    && (w.s.missesTotal == 0 ==> forall d :: Totals(w, d))
  }

  // ------------------------------------------------------- one table update

  /** One entry is replaced. */
  lemma ReplaceCounts(slots: seq<Slot>, k: nat, x: Slot, d: Domain, e: nat)
    requires k < |slots|
    ensures Size(slots[k := x], Born(d, e))
            == Size(slots, Born(d, e)) - EntryCount(slots[k], d, e) + EntryCount(x, d, e)
    ensures Sum(slots[k := x], BornBytes(d, e))
            == Sum(slots, BornBytes(d, e)) - EntryBytes(slots[k], d, e) + EntryBytes(x, d, e)
  {
    Update(slots, Born(d, e), k, x, 0);
    SumUpdate(slots, BornBytes(d, e), k, x);
  }

  function EntryCount(x: Slot, d: Domain, e: nat): nat { if x.pointer == 0 then 0 else Match(x.record, d, e) }

  function EntryBytes(x: Slot, d: Domain, e: nat): nat { if x.pointer == 0 then 0 else MatchBytes(x.record, d, e) }

  lemma TrackCounts(slots: seq<Slot>, p: nat, r: Record, d: Domain, e: nat)
    requires |slots| == TRACKER_SLOTS && p != 0
    ensures var miss := Misses(slots, p);
      && Size(TrackIn(slots, p, r), Born(d, e)) == Size(slots, Born(d, e)) + (if miss then 0 else Match(r, d, e))
      && Sum(TrackIn(slots, p, r), BornBytes(d, e))
         == Sum(slots, BornBytes(d, e)) + (if miss then 0 else MatchBytes(r, d, e))
  {
    var found := Seek(slots, p, 0, 0);
    if found.Some? {
      ReplaceCounts(slots, found.value, Slot(p, r), d, e);
    }
  }

  lemma UntrackCounts(slots: seq<Slot>, p: nat, d: Domain, e: nat)
    requires |slots| == TRACKER_SLOTS && p != 0
    ensures var r := Tracked(slots, p);
      && Size(UntrackIn(slots, p), Born(d, e))
         == Size(slots, Born(d, e)) - (if r.None? then 0 else Match(r.value, d, e))
      && Sum(UntrackIn(slots, p), BornBytes(d, e))
         == Sum(slots, BornBytes(d, e)) - (if r.None? then 0 else MatchBytes(r.value, d, e))
  {
    var found := Seek(slots, p, p, 0);
    if found.Some? {
      ReplaceCounts(slots, found.value, slots[found.value].(pointer := 0), d, e);
    }
  }

  /** A pointer that is not live has no entry. */
  lemma NotTracked(slots: seq<Slot>, live: seq<Block>, p: nat)
    requires Entries(slots, live) && p != 0 && NotLive(live, p)
    ensures forall i :: 0 <= i < |slots| ==> slots[i].pointer != p
  {
    forall i | 0 <= i < |slots| ensures slots[i].pointer != p {
      assert slots[i].pointer != 0 ==> Describes(live, slots[i]);
    }
  }

  /** What the allocator takes for the record of a block has its size, and is its record
      if it names an epoch. */
  lemma TakenFits(w: World, i: nat, d: Domain)
    requires Placed(w) && i < |w.live|
    ensures Fits(w.live[i], Slot(w.live[i].pointer, Taken(w, i, d)))
  {
    var p := w.live[i].pointer;
    assert Born0(w.live[i], w.s.generation);
    var found := Seek(w.s.slots, p, p, 0);
    if found.Some? {
      var x := w.s.slots[found.value];
      assert Describes(w.live, x);
      var j :| 0 <= j < |w.live| && Fits(w.live[j], x);
      assert j == i;
    }
  }

  lemma ClassifiedAllocated(b: Bank, n: nat, d: Domain)
    requires Classified(b)
    ensures Classified(BankAllocated(b, n, d))
  {
  }

  lemma ClassifiedDeallocated(b: Bank, n: nat, d: Domain, live: bool)
    requires Classified(b)
    ensures Classified(BankDeallocated(b, n, d, live))
  {
  }

  lemma ClassifiedReallocated(b: Bank, n: nat, m: nat, d: Domain, live: bool)
    requires Classified(b)
    ensures Classified(BankReallocated(b, n, m, d, live))
  {
  }

  // ------------------------------------------------------------- allocation

  lemma AllocPlaced(w: World, p: nat, size: nat, d: Domain)
    requires Inv(w) && Enabled(w, Alloc(p, size, d))
    ensures Placed(DoAlloc(w, p, size, d))
  {
    var w', r := DoAlloc(w, p, size, d), Record(size, d, w.s.current);
    NotTracked(w.s.slots, w.live, p);
    TrackRefines(w.s.slots, p, r);
    assert forall j :: 0 <= j < |w.live| ==> Born0(w.live[j], w.s.generation) && w'.live[j] == w.live[j];
    forall i | 0 <= i < |w'.s.slots| && w'.s.slots[i].pointer != 0 ensures Describes(w'.live, w'.s.slots[i]) {
      if w'.s.slots[i] == w.s.slots[i] {
        assert Describes(w.live, w.s.slots[i]);
        var j :| 0 <= j < |w.live| && Fits(w.live[j], w.s.slots[i]);
        assert Fits(w'.live[j], w'.s.slots[i]);
      } else {
        assert Fits(w'.live[|w.live|], w'.s.slots[i]);
      }
    }
  }

  lemma AllocFound(slots: seq<Slot>, live: seq<Block>, p: nat, r: Record, e: nat)
    requires WellPlaced(slots) && Entries(slots, live) && FoundFrom(slots, live, e)
    requires forall j :: 0 <= j < |live| ==> live[j].pointer != 0
    requires p != 0 && NotLive(live, p) && !Misses(slots, p)
    ensures FoundFrom(TrackIn(slots, p, r), live + [Block(p, r)], e)
  {
    NotTracked(slots, live, p);
    TrackRefines(slots, p, r);
  }

  lemma AllocFinds(w: World, p: nat, size: nat, d: Domain)
    requires Inv(w) && Enabled(w, Alloc(p, size, d))
    ensures Finds(DoAlloc(w, p, size, d))
  {
    var r := Record(size, d, w.s.current);
    assert forall j :: 0 <= j < |w.live| ==> Born0(w.live[j], w.s.generation);
    if !Misses(w.s.slots, p) {
      if w.s.missesTotal == 0 { AllocFound(w.s.slots, w.live, p, r, 0); }
      if w.s.current != 0 && w.s.missesEpoch == 0 { AllocFound(w.s.slots, w.live, p, r, w.s.current); }
    }
  }

  lemma AllocMeasures(w: World, p: nat, size: nat, d: Domain, d': Domain)
    requires Sized(w.s) && Measures(w, d') && Enabled(w, Alloc(p, size, d)) && w.s.current != 0
    ensures Measures(DoAlloc(w, p, size, d), d')
  {
    TrackCounts(w.s.slots, p, Record(size, d, w.s.current), d', w.s.current);
    Added(w.lost, d, 1, size, d');
  }

  lemma AllocAttributes(w: World, p: nat, size: nat, d: Domain, d': Domain)
    requires Attributes(w, d') && Enabled(w, Alloc(p, size, d)) && w.s.current != 0
    ensures Attributes(DoAlloc(w, p, size, d), d')
  {
    var b := Block(p, Record(size, d, w.s.current));
    Append(w.live, LiveBorn(d', w.s.current), b, 0);
    SumAppend(w.live, LiveBytes(d', w.s.current), b);
  }

  lemma AllocTotals(w: World, p: nat, size: nat, d: Domain, d': Domain)
    requires Totals(w, d') && Enabled(w, Alloc(p, size, d))
    ensures Totals(DoAlloc(w, p, size, d), d')
  {
    var b := Block(p, Record(size, d, w.s.current));
    Append(w.live, InDomain(d'), b, 0);
    SumAppend(w.live, DomainBytes(d'), b);
  }

  lemma AllocBooks(w: World, p: nat, size: nat, d: Domain)
    requires Books(w) && Enabled(w, Alloc(p, size, d))
    ensures Books(DoAlloc(w, p, size, d))
  {
    SumAppend(w.live, SizeOf, Block(p, Record(size, d, w.s.current)));
    ClassifiedAllocated(w.s.total, size, d);
    ClassifiedAllocated(w.s.measured, size, d);
  }

  lemma AllocKeeps(w: World, p: nat, size: nat, d: Domain)
    requires Inv(w) && Enabled(w, Alloc(p, size, d))
    ensures Inv(DoAlloc(w, p, size, d))
  {
    var w' := DoAlloc(w, p, size, d);
    AllocPlaced(w, p, size, d);
    AllocFinds(w, p, size, d);
    AllocBooks(w, p, size, d);
    if w.s.current != 0 {
      LossCounted(w.lost, w.s.missesEpoch, d, size);
      forall d' ensures Measures(w', d') && Attributes(w', d') {
        AllocMeasures(w, p, size, d, d');
        AllocAttributes(w, p, size, d, d');
      }
    }
    forall d' | w'.s.missesTotal == 0 ensures Totals(w', d') { AllocTotals(w, p, size, d, d'); }
  }

  // ---------------------------------------------------------------- release

  lemma BlocksRemoved(live: seq<Block>, i: nat, generation: nat, x: Slot)
    requires Blocks(live, generation) && i < |live|
    ensures Blocks(live[..i] + live[i + 1..], generation)
    ensures Describes(live, x) && x.pointer != live[i].pointer ==> Describes(live[..i] + live[i + 1..], x)
  {
    var rest := live[..i] + live[i + 1..];
    forall j | 0 <= j < |rest| ensures Born0(rest[j], generation) {
      assert Born0(live[if j < i then j else j + 1], generation);
    }
    forall a, b | 0 <= a < b < |rest| ensures rest[a].pointer != rest[b].pointer {
      assert rest[a] == live[if a < i then a else a + 1] && rest[b] == live[if b < i then b else b + 1];
    }
    if Describes(live, x) && x.pointer != live[i].pointer {
      var j :| 0 <= j < |live| && Fits(live[j], x);
      assert Fits(rest[if j < i then j else j - 1], x);
    }
  }

  lemma DeallocPlaced(w: World, i: nat, d: Domain)
    requires Inv(w) && i < |w.live|
    ensures Placed(DoDealloc(w, i, d))
  {
    var p, w' := w.live[i].pointer, DoDealloc(w, i, d);
    assert Born0(w.live[i], w.s.generation);
    UntrackRefines(w.s.slots, p);
    BlocksRemoved(w.live, i, w.s.generation, VACANT);
    forall k | 0 <= k < |w'.s.slots| && w'.s.slots[k].pointer != 0 ensures Describes(w'.live, w'.s.slots[k]) {
      assert w'.s.slots[k] == w.s.slots[k] && Describes(w.live, w.s.slots[k]);
      BlocksRemoved(w.live, i, w.s.generation, w.s.slots[k]);
    }
  }

  lemma DeallocFound(slots: seq<Slot>, live: seq<Block>, i: nat, generation: nat, e: nat)
    requires WellPlaced(slots) && Blocks(live, generation) && FoundFrom(slots, live, e) && i < |live|
    ensures FoundFrom(UntrackIn(slots, live[i].pointer), live[..i] + live[i + 1..], e)
  {
    var rest := live[..i] + live[i + 1..];
    assert Born0(live[i], generation);
    UntrackRefines(slots, live[i].pointer);
    forall j | 0 <= j < |rest| && rest[j].record.epoch >= e
      ensures Tracked(UntrackIn(slots, live[i].pointer), rest[j].pointer) == Some(rest[j].record)
    {
      var k := if j < i then j else j + 1;
      assert rest[j] == live[k] && Born0(live[k], generation);
    }
  }

  lemma DeallocFinds(w: World, i: nat, d: Domain)
    requires Inv(w) && i < |w.live|
    ensures Finds(DoDealloc(w, i, d))
  {
    if w.s.missesTotal == 0 { DeallocFound(w.s.slots, w.live, i, w.s.generation, 0); }
    if w.s.current != 0 && w.s.missesEpoch == 0 {
      DeallocFound(w.s.slots, w.live, i, w.s.generation, w.s.current);
    }
  }

  lemma DeallocatedOf(b: Bank, n: nat, d: Domain, live: bool, d': Domain)
    ensures var b' := BankDeallocated(b, n, d, live);
      && Of(b', d').liveBlocks == Of(b, d').liveBlocks - (if d == d' && live then 1 else 0)
      && Of(b', d').liveBytes == Of(b, d').liveBytes - if d == d' && live then n else 0
  {
  }

  lemma DeallocMeasures(w: World, i: nat, d: Domain, d': Domain)
    requires Sized(w.s) && Measures(w, d') && i < |w.live| && w.s.current != 0 && w.live[i].pointer != 0
    ensures Measures(DoDealloc(w, i, d), d')
  {
    var r := Taken(w, i, d);
    UntrackCounts(w.s.slots, w.live[i].pointer, d', w.s.current);
    DeallocatedOf(w.s.measured, r.size, r.domain, r.epoch == w.s.current, d');
  }

  lemma DeallocAttributes(w: World, i: nat, d: Domain, d': Domain)
    requires Placed(w) && Attributes(w, d') && i < |w.live| && w.s.current != 0
    ensures Attributes(DoDealloc(w, i, d), d')
  {
    var r := Taken(w, i, d);
    TakenFits(w, i, d);
    Remove(w.live, LiveBorn(d', w.s.current), i, 0);
    SumRemove(w.live, LiveBytes(d', w.s.current), i);
    DeallocatedOf(w.s.measured, r.size, r.domain, r.epoch == w.s.current, d');
    Added(w.stray, w.live[i].record.domain, 1, w.live[i].record.size, d');
  }

  lemma DeallocTotals(w: World, i: nat, d: Domain, d': Domain)
    requires Sized(w.s) && Totals(w, d') && i < |w.live| && Taken(w, i, d) == w.live[i].record
    ensures Totals(DoDealloc(w, i, d), d')
  {
    var r := w.live[i].record;
    Remove(w.live, InDomain(d'), i, 0);
    SumRemove(w.live, DomainBytes(d'), i);
    DeallocatedOf(w.s.total, r.size, r.domain, true, d');
  }

  lemma DeallocBooks(w: World, i: nat, d: Domain)
    requires Placed(w) && Books(w) && i < |w.live|
    ensures Books(DoDealloc(w, i, d))
  {
    var r := Taken(w, i, d);
    TakenFits(w, i, d);
    SumRemove(w.live, SizeOf, i);
    ClassifiedDeallocated(w.s.total, r.size, r.domain, true);
    ClassifiedDeallocated(w.s.measured, r.size, r.domain, r.epoch == w.s.current);
  }

  lemma DeallocKeeps(w: World, i: nat, d: Domain)
    requires Inv(w) && Enabled(w, Dealloc(i, d))
    ensures Inv(DoDealloc(w, i, d))
  {
    var w' := DoDealloc(w, i, d);
    DeallocPlaced(w, i, d);
    DeallocFinds(w, i, d);
    DeallocBooks(w, i, d);
    assert Born0(w.live[i], w.s.generation);
    if w.s.current != 0 {
      forall d' ensures Measures(w', d') && Attributes(w', d') {
        DeallocMeasures(w, i, d, d');
        DeallocAttributes(w, i, d, d');
      }
    }
    forall d' | w'.s.missesTotal == 0 ensures Totals(w', d') { DeallocTotals(w, i, d, d'); }
  }

  // ----------------------------------------------------------------- resize

  lemma BlocksReplaced(live: seq<Block>, i: nat, b: Block, generation: nat, x: Slot)
    requires Blocks(live, generation) && i < |live| && Born0(b, generation)
    requires b.pointer == live[i].pointer || NotLive(live, b.pointer)
    ensures Blocks(live[i := b], generation)
    ensures Fits(b, x) || (Describes(live, x) && x.pointer != live[i].pointer) ==> Describes(live[i := b], x)
  {
    var after := live[i := b];
    forall j | 0 <= j < |after| ensures Born0(after[j], generation) { assert j != i ==> Born0(live[j], generation); }
    if Fits(b, x) {
      assert Fits(after[i], x);
    } else if Describes(live, x) && x.pointer != live[i].pointer {
      var j :| 0 <= j < |live| && Fits(live[j], x);
      assert Fits(after[j], x);
    }
  }

  lemma TrackTable(slots: seq<Slot>, p: nat, r: Record)
    requires |slots| == TRACKER_SLOTS
    ensures forall k :: 0 <= k < |slots| ==>
      TrackIn(slots, p, r)[k] == slots[k] || TrackIn(slots, p, r)[k] == Slot(p, r)
  {
  }

  /** Neither the old nor the new pointer is left in the table when the new one is tracked. */
  lemma Vacated(w: World, i: nat, p: nat)
    requires Placed(w) && i < |w.live| && p != 0 && (p == w.live[i].pointer || NotLive(w.live, p))
    ensures WellPlaced(UntrackIn(w.s.slots, w.live[i].pointer))
    ensures forall k :: 0 <= k < |w.s.slots| ==> UntrackIn(w.s.slots, w.live[i].pointer)[k].pointer != p
  {
    assert Born0(w.live[i], w.s.generation);
    UntrackRefines(w.s.slots, w.live[i].pointer);
    if p != w.live[i].pointer { NotTracked(w.s.slots, w.live, p); }
  }

  lemma ReallocPlaced(w: World, i: nat, p: nat, size: nat, d: Domain)
    requires Inv(w) && Enabled(w, Realloc(i, p, size, d))
    ensures Placed(DoRealloc(w, i, p, size, d))
  {
    var w', q := DoRealloc(w, i, p, size, d), w.live[i].pointer;
    var r, b := Taken(w, i, d).(size := size), Block(p, w.live[i].record.(size := size));
    var mid := UntrackIn(w.s.slots, q);
    assert Born0(w.live[i], w.s.generation);
    TakenFits(w, i, d);
    Vacated(w, i, p);
    UntrackRefines(w.s.slots, q);
    TrackRefines(mid, p, r);
    TrackTable(mid, p, r);
    BlocksReplaced(w.live, i, b, w.s.generation, VACANT);
    assert w'.s.slots == TrackIn(mid, p, r);
    forall k | 0 <= k < |w'.s.slots| && w'.s.slots[k].pointer != 0 ensures Describes(w'.live, w'.s.slots[k]) {
      if w'.s.slots[k] != Slot(p, r) {
        assert w'.s.slots[k] == w.s.slots[k] && Describes(w.live, w.s.slots[k]);
      }
      BlocksReplaced(w.live, i, b, w.s.generation, w'.s.slots[k]);
    }
  }

  lemma ReallocFound(w: World, i: nat, p: nat, r: Record, b: Block, e: nat)
    requires Placed(w) && i < |w.live| && p != 0 && (p == w.live[i].pointer || NotLive(w.live, p))
    requires FoundFrom(w.s.slots, w.live, e) && !Misses(UntrackIn(w.s.slots, w.live[i].pointer), p)
    requires b.pointer == p && (b.record.epoch >= e ==> r == b.record)
    ensures FoundFrom(TrackIn(UntrackIn(w.s.slots, w.live[i].pointer), p, r), w.live[i := b], e)
  {
    var mid, after := UntrackIn(w.s.slots, w.live[i].pointer), w.live[i := b];
    assert Born0(w.live[i], w.s.generation);
    Vacated(w, i, p);
    UntrackRefines(w.s.slots, w.live[i].pointer);
    TrackRefines(mid, p, r);
    forall j | 0 <= j < |after| && after[j].record.epoch >= e
      ensures Tracked(TrackIn(mid, p, r), after[j].pointer) == Some(after[j].record)
    {
      if j != i {
        assert after[j] == w.live[j] && Born0(w.live[j], w.s.generation);
        assert Tracked(w.s.slots, w.live[j].pointer) == Some(w.live[j].record);
      }
    }
  }

  lemma ReallocFinds(w: World, i: nat, p: nat, size: nat, d: Domain)
    requires Inv(w) && Enabled(w, Realloc(i, p, size, d))
    ensures Finds(DoRealloc(w, i, p, size, d))
  {
    var r, b := Taken(w, i, d).(size := size), Block(p, w.live[i].record.(size := size));
    if !Misses(UntrackIn(w.s.slots, w.live[i].pointer), p) {
      if w.s.missesTotal == 0 { ReallocFound(w, i, p, r, b, 0); }
      if w.s.current != 0 && w.s.missesEpoch == 0 { ReallocFound(w, i, p, r, b, w.s.current); }
    }
  }

  lemma ReallocatedOf(b: Bank, o: nat, n: nat, d: Domain, live: bool, d': Domain)
    requires o <= I64_MAX && n <= I64_MAX
    ensures var b' := BankReallocated(b, o, n, d, live);
      && Of(b', d').liveBlocks == Of(b, d').liveBlocks
      && Of(b', d').liveBytes == Of(b, d').liveBytes + if d == d' && live then n - o else 0
  {
  }

  /** What moving an entry does to the count and the sum. */
  function Moved(r: Record, d: Domain, e: nat, miss: bool): int { if miss then 0 - Match(r, d, e) else 0 }

  function MovedBytes(r: Record, size: nat, d: Domain, e: nat, miss: bool): int {
    if Match(r, d, e) == 0 then 0 else if miss then 0 - r.size else size - r.size
  }

  lemma MoveCounts(w: World, i: nat, p: nat, size: nat, d: Domain, d': Domain)
    requires Sized(w.s) && i < |w.live| && w.live[i].pointer != 0 && p != 0 && w.s.current != 0
    ensures var r, mid := Taken(w, i, d), UntrackIn(w.s.slots, w.live[i].pointer);
      && Size(TrackIn(mid, p, r.(size := size)), Born(d', w.s.current))
         == Size(w.s.slots, Born(d', w.s.current)) + Moved(r, d', w.s.current, Misses(mid, p))
      && Sum(TrackIn(mid, p, r.(size := size)), BornBytes(d', w.s.current))
         == Sum(w.s.slots, BornBytes(d', w.s.current)) + MovedBytes(r, size, d', w.s.current, Misses(mid, p))
  {
    UntrackCounts(w.s.slots, w.live[i].pointer, d', w.s.current);
    TrackCounts(UntrackIn(w.s.slots, w.live[i].pointer), p, Taken(w, i, d).(size := size), d', w.s.current);
  }

  lemma ReallocMeasures(w: World, i: nat, p: nat, size: nat, d: Domain, d': Domain)
    requires Placed(w) && Measures(w, d') && Enabled(w, Realloc(i, p, size, d)) && w.s.current != 0
    ensures Measures(DoRealloc(w, i, p, size, d), d')
  {
    var w', r := DoRealloc(w, i, p, size, d), Taken(w, i, d);
    assert Born0(w.live[i], w.s.generation);
    TakenFits(w, i, d);
    assert w'.s.slots == TrackIn(UntrackIn(w.s.slots, w.live[i].pointer), p, r.(size := size));
    assert w'.s.measured == BankReallocated(w.s.measured, r.size, size, r.domain, r.epoch == w.s.current);
    MoveCounts(w, i, p, size, d, d');
    ReallocatedOf(w.s.measured, r.size, size, r.domain, r.epoch == w.s.current, d');
    Added(w.lost, r.domain, 1, size, d');
  }

  /** What resizing adds to the bytes of domain `d` born in epoch `e`. */
  function Growth(r: Record, size: nat, d: Domain, e: nat): int {
    if r.domain == d && r.epoch == e then size - r.size else 0
  }

  /** Resizing block `i` changes the bytes of its own domain and epoch, and no count. */
  lemma LiveResized(live: seq<Block>, i: nat, b: Block, d: Domain, e: nat)
    requires i < |live| && b.record == live[i].record.(size := b.record.size)
    ensures Size(live[i := b], LiveBorn(d, e)) == Size(live, LiveBorn(d, e))
    ensures Sum(live[i := b], LiveBytes(d, e))
            == Sum(live, LiveBytes(d, e)) + Growth(live[i].record, b.record.size, d, e)
  {
    Update(live, LiveBorn(d, e), i, b, 0);
    SumUpdate(live, LiveBytes(d, e), i, b);
  }

  /** The epoch counters follow exactly if the block is taken for one of the epoch. */
  lemma ReallocCounted(w: World, i: nat, p: nat, size: nat, d: Domain, d': Domain)
    requires Placed(w) && Enabled(w, Realloc(i, p, size, d)) && w.s.current != 0
    ensures var r, w' := w.live[i].record, DoRealloc(w, i, p, size, d);
      && Of(w'.s.measured, d').liveBlocks == Of(w.s.measured, d').liveBlocks
      && Of(w'.s.measured, d').liveBytes == Of(w.s.measured, d').liveBytes
         + if Taken(w, i, d).epoch == w.s.current then Growth(r, size, d', w.s.current) else 0
  {
    var r := Taken(w, i, d);
    assert Born0(w.live[i], w.s.generation);
    TakenFits(w, i, d);
    ReallocatedOf(w.s.measured, r.size, size, r.domain, r.epoch == w.s.current, d');
  }

  lemma ReallocAttributes(w: World, i: nat, p: nat, size: nat, d: Domain, d': Domain)
    requires Placed(w) && Attributes(w, d') && Enabled(w, Realloc(i, p, size, d)) && w.s.current != 0
    ensures Attributes(DoRealloc(w, i, p, size, d), d')
  {
    var r, w' := w.live[i].record, DoRealloc(w, i, p, size, d);
    ReallocCounted(w, i, p, size, d, d');
    LiveResized(w.live, i, Block(p, r.(size := size)), d', w.s.current);
    Added(w.stray, r.domain, 0, r.size - size, d');
    if Taken(w, i, d).epoch == w.s.current { TakenEpoch(w, i, d); }
    assert w'.live == w.live[i := Block(p, r.(size := size))] && w'.s.current == w.s.current;
  }

  /** A block is taken for one of the running epoch only if it is. */
  lemma TakenEpoch(w: World, i: nat, d: Domain)
    requires Placed(w) && i < |w.live| && w.s.current != 0 && Taken(w, i, d).epoch == w.s.current
    ensures w.live[i].record.epoch == w.s.current
  {
    TakenFits(w, i, d);
  }

  lemma ReallocTotals(w: World, i: nat, p: nat, size: nat, d: Domain, d': Domain)
    requires Enabled(w, Realloc(i, p, size, d)) && Totals(w, d')
    requires Taken(w, i, d) == w.live[i].record && w.live[i].record.size <= I64_MAX
    ensures Totals(DoRealloc(w, i, p, size, d), d')
  {
    var r := w.live[i].record;
    Update(w.live, InDomain(d'), i, Block(p, r.(size := size)), 0);
    SumUpdate(w.live, DomainBytes(d'), i, Block(p, r.(size := size)));
    ReallocatedOf(w.s.total, r.size, size, r.domain, true, d');
  }

  lemma ReallocBooks(w: World, i: nat, p: nat, size: nat, d: Domain)
    requires Placed(w) && Books(w) && Enabled(w, Realloc(i, p, size, d))
    ensures Books(DoRealloc(w, i, p, size, d))
  {
    var r := Taken(w, i, d);
    assert Born0(w.live[i], w.s.generation);
    TakenFits(w, i, d);
    SumUpdate(w.live, SizeOf, i, Block(p, w.live[i].record.(size := size)));
    ClassifiedReallocated(w.s.total, r.size, size, r.domain, true);
    ClassifiedReallocated(w.s.measured, r.size, size, r.domain, r.epoch == w.s.current);
  }

  lemma ReallocKeeps(w: World, i: nat, p: nat, size: nat, d: Domain)
    requires Inv(w) && Enabled(w, Realloc(i, p, size, d))
    ensures Inv(DoRealloc(w, i, p, size, d))
  {
    var w' := DoRealloc(w, i, p, size, d);
    ReallocPlaced(w, i, p, size, d);
    ReallocFinds(w, i, p, size, d);
    ReallocBooks(w, i, p, size, d);
    assert Born0(w.live[i], w.s.generation);
    if w.s.current != 0 {
      LossCounted(w.lost, w.s.missesEpoch, Taken(w, i, d).domain, size);
      forall d' ensures Measures(w', d') && Attributes(w', d') {
        ReallocMeasures(w, i, p, size, d, d');
        ReallocAttributes(w, i, p, size, d, d');
      }
    }
    forall d' | w'.s.missesTotal == 0 ensures Totals(w', d') { ReallocTotals(w, i, p, size, d, d'); }
  }

  // ----------------------------------------------------------------- epochs

  lemma SteadyIsZero(b: Drifts, d: Domain)
    requires b == STEADY
    ensures DriftOf(b, d) == Drift(0, 0)
  {
  }

  lemma SteadyCounted(b: Drifts, misses: nat)
    requires b == STEADY
    ensures LossesCounted(b, misses)
  {
    forall d ensures DriftOf(b, d).bytes == 0 { SteadyIsZero(b, d); }
  }

  /** No entry and no live block is of epoch `e`. */
  predicate Unborn(slots: seq<Slot>, live: seq<Block>, e: nat) {
    && (forall i :: 0 <= i < |slots| && slots[i].pointer != 0 ==> slots[i].record.epoch != e)
    && (forall j :: 0 <= j < |live| ==> live[j].record.epoch != e)
  }

  lemma BeginCounts(w: World, d: Domain)
    requires Unborn(w.s.slots, w.live, w.s.current)
    requires Of(w.s.measured, d) == ZERO && DriftOf(w.lost, d) == Drift(0, 0) == DriftOf(w.stray, d)
    ensures Measures(w, d) && Attributes(w, d)
  {
    SizeZero(w.s.slots, Born(d, w.s.current));
    SumZero(w.s.slots, BornBytes(d, w.s.current));
    SizeZero(w.live, LiveBorn(d, w.s.current));
    SumZero(w.live, LiveBytes(d, w.s.current));
  }

  lemma BeginPlaced(w: World)
    requires Inv(w) && w.s.current == 0
    ensures var w' := DoBegin(w); Placed(w') && Unborn(w'.s.slots, w'.live, w'.s.current)
  {
    var w' := DoBegin(w);
    assert forall j :: 0 <= j < |w.live| ==> Born0(w.live[j], w.s.generation) && Born0(w.live[j], w'.s.generation);
    forall i | 0 <= i < |w.s.slots| && w.s.slots[i].pointer != 0
      ensures w.s.slots[i].record.epoch != w'.s.current
    {
      assert Describes(w.live, w.s.slots[i]);
    }
  }

  /** Nothing alive was born in the epoch that begins. */
  lemma BeginKeeps(w: World)
    requires Inv(w)
    ensures Inv(DoBegin(w))
  {
    var w' := DoBegin(w);
    if w.s.current == 0 {
      BeginPlaced(w);
      SteadyCounted(w'.lost, w'.s.missesEpoch);
      forall d ensures Measures(w', d) && Attributes(w', d) {
        SteadyIsZero(w'.lost, d);
        SteadyIsZero(w'.stray, d);
        BeginCounts(w', d);
      }
      forall d | w'.s.missesTotal == 0 ensures Totals(w', d) { assert Totals(w, d); }
    }
  }

  lemma EndKeeps(w: World)
    requires Inv(w)
    ensures Inv(w.(s := EndIn(w.s)))
  {
    forall d | w.s.missesTotal == 0 ensures Totals(w.(s := EndIn(w.s)), d) { assert Totals(w, d); }
  }

  lemma StepKeeps(w: World, a: Action)
    requires Inv(w) && Enabled(w, a)
    ensures Inv(Next(w, a))
  {
    match a {
      case Alloc(p, size, d) => AllocKeeps(w, p, size, d);
      case Dealloc(i, d) => DeallocKeeps(w, i, d);
      case Realloc(i, p, size, d) => ReallocKeeps(w, i, p, size, d);
      case BeginEpoch => BeginKeeps(w);
      case EndEpoch => EndKeeps(w);
    }
  }

  // --------------------------------------------------------------- histories

  /** The calls `acts` lead through the states `run`. */
  ghost predicate IsHistory(run: seq<World>, acts: seq<Action>) {
    && |run| == |acts| + 1 && run[0] == Initial()
    && forall k :: 0 <= k < |acts| ==> Enabled(run[k], acts[k]) && run[k + 1] == Next(run[k], acts[k])
  }

  lemma Shorter(run: seq<World>, acts: seq<Action>)
    requires IsHistory(run, acts) && acts != []
    ensures var n := |acts| - 1;
      && IsHistory(run[..n + 1], acts[..n]) && run[..n + 1][n] == run[n]
      && Enabled(run[n], acts[n]) && run[n + 1] == Next(run[n], acts[n])
  {
  }

  /** Nothing tracked, nothing alive, nothing counted, no epoch. */
  predicate Blank(w: World) {
    && Sized(w.s) && (forall i :: 0 <= i < |w.s.slots| ==> w.s.slots[i] == VACANT)
    && w.live == [] && w.s.current == 0 && w.s.total == EMPTY_BANK && w.s.measured == EMPTY_BANK
  }

  lemma BlankKeeps(w: World)
    requires Blank(w)
    ensures Inv(w)
  {
    forall d ensures Totals(w, d) {}
  }

  lemma InitKeeps(w: World)
    requires w == Initial()
    ensures Inv(w)
  {
    assert Blank(w);
    BlankKeeps(w);
  }

  lemma {:induction false} InvAlways(run: seq<World>, acts: seq<Action>)
    requires IsHistory(run, acts)
    ensures Inv(run[|acts|])
    decreases |acts|
  {
    if acts == [] {
      InitKeeps(run[0]);
    } else {
      var n := |acts| - 1;
      Shorter(run, acts);
      InvAlways(run[..n + 1], acts[..n]);
      StepKeeps(run[n], acts[n]);
    }
  }

}
