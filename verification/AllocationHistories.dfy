/**
  What the counting allocator reports, after every history of calls: the probe table
  against the map from live pointers to records, and the counters against live blocks.
*/
module AllocationHistories {
  import opened Bags
  import opened AllocationTracker
  import opened AllocationRuns

  // ------------------------------------------------------------ table and map

  /** The map from pointers to records that the live blocks make up. */
  function RecordOf(live: seq<Block>, p: nat): Option<Record> {
    if live == [] then None
    else if live[|live| - 1].pointer == p then Some(live[|live| - 1].record)
    else RecordOf(live[..|live| - 1], p)
  }

  lemma {:induction false} RecordAt(live: seq<Block>, j: nat)
    requires Distinct(live) && j < |live|
    ensures RecordOf(live, live[j].pointer) == Some(live[j].record)
  {
    if j < |live| - 1 {
      RecordAt(live[..|live| - 1], j);
    }
  }

  lemma {:induction false} RecordFrom(live: seq<Block>, p: nat) returns (j: nat)
    requires RecordOf(live, p).Some?
    ensures j < |live| && live[j] == Block(p, RecordOf(live, p).value)
  {
    j := |live| - 1;
    if live[j].pointer != p {
      j := RecordFrom(live[..j], p);
    }
  }

  /** The table is the map. */
  ghost predicate TableIsMap(w: World)
    requires Sized(w.s)
  {
    forall p: nat :: p != 0 ==> Tracked(w.s.slots, p) == RecordOf(w.live, p)
  }

  /** Table and map have the same blocks of epoch `e`, with the same records. */
  ghost predicate SameEpoch(w: World, e: nat)
    requires Sized(w.s)
  {
    forall p: nat, r: Record :: p != 0 && r.epoch == e ==>
      (Tracked(w.s.slots, p) == Some(r) <==> RecordOf(w.live, p) == Some(r))
  }

  /** The table names live blocks only, with their size, and their domain and epoch if it
      names an epoch at all. */
  ghost predicate TableIsSound(w: World)
    requires Sized(w.s)
  {
    forall p: nat :: p != 0 && Tracked(w.s.slots, p).Some? ==>
      && RecordOf(w.live, p).Some? && Tracked(w.s.slots, p).value.size == RecordOf(w.live, p).value.size
      && (Tracked(w.s.slots, p).value.epoch != 0 ==> Tracked(w.s.slots, p) == RecordOf(w.live, p))
  }

  lemma InvSound(w: World)
    requires Inv(w)
    ensures TableIsSound(w)
  {
    forall p: nat | p != 0 && Tracked(w.s.slots, p).Some?
      ensures RecordOf(w.live, p).Some? && Tracked(w.s.slots, p).value.size == RecordOf(w.live, p).value.size
      ensures Tracked(w.s.slots, p).value.epoch != 0 ==> Tracked(w.s.slots, p) == RecordOf(w.live, p)
    {
      var x := w.s.slots[Seek(w.s.slots, p, p, 0).value];
      assert Describes(w.live, x);
      var j :| 0 <= j < |w.live| && Fits(w.live[j], x);
      RecordAt(w.live, j);
    }
  }

  /** A table that has every record from epoch `e` on has exactly these. */
  lemma FoundSame(w: World, e: nat, e': nat)
    requires Inv(w) && FoundFrom(w.s.slots, w.live, e) && e <= e'
    ensures SameEpoch(w, e')
  {
    InvSound(w);
    forall p: nat, r: Record | p != 0 && r.epoch == e'
      ensures Tracked(w.s.slots, p) == Some(r) <==> RecordOf(w.live, p) == Some(r)
    {
      if RecordOf(w.live, p).Some? {
        var j := RecordFrom(w.live, p);
        assert w.live[j].record.epoch >= e ==> Tracked(w.s.slots, w.live[j].pointer) == Some(w.live[j].record);
      }
    }
  }

  lemma FoundAll(w: World)
    requires Inv(w) && FoundFrom(w.s.slots, w.live, 0)
    ensures TableIsMap(w)
  {
    InvSound(w);
    forall p: nat | p != 0 ensures Tracked(w.s.slots, p) == RecordOf(w.live, p) {
      if RecordOf(w.live, p).Some? {
        var j := RecordFrom(w.live, p);
        assert w.live[j].record.epoch >= 0;
      }
    }
  }

  // ----------------------------------------------------------------- promises

  /** The live counters of the epoch are the live blocks born in it, domain by domain. */
  predicate CountsEpoch(w: World) {
    forall d ::
      && Of(w.s.measured, d).liveBlocks == Size(w.live, LiveBorn(d, w.s.current))
      && Of(w.s.measured, d).liveBytes == Sum(w.live, LiveBytes(d, w.s.current))
  }

  /** They are the entries born in it. */
  predicate CountsTable(w: World) {
    forall d ::
      && Of(w.s.measured, d).liveBlocks == Size(w.s.slots, Born(d, w.s.current))
      && Of(w.s.measured, d).liveBytes == Sum(w.s.slots, BornBytes(d, w.s.current))
  }

  ghost predicate Promises(w: World) {
    && Sized(w.s) && WellPlaced(w.s.slots) && TableIsSound(w)
    && Classified(w.s.total) && Classified(w.s.measured)
    && w.s.total.process.liveBlocks == |w.live| == w.s.total.process.allocs - w.s.total.process.deallocs
    && w.s.total.process.liveBytes == Sum(w.live, SizeOf)
    && (w.s.missesTotal == 0 ==> TableIsMap(w) && forall d :: Totals(w, d))
    && (w.s.current != 0 && w.s.missesEpoch == 0 ==>
          SameEpoch(w, w.s.current) && CountsEpoch(w) && CountsTable(w))
    && (w.s.current != 0 ==>
          forall d :: Of(w.s.measured, d).liveBlocks >= 0 && Of(w.s.measured, d).liveBytes >= 0)
  }

  lemma NothingLost(w: World)
    requires Inv(w) && w.s.current != 0 && w.s.missesEpoch == 0
    ensures CountsTable(w)
  {
    LostMatches(w);
  }

  /** After every history the process counters are the sums of the three domains and, over
      the whole process, exactly the live blocks and bytes.  Without misses the table is
      the map from live pointers to records, and the totals of each domain are its live
      blocks; without misses in the epoch, both hold of the blocks born in it. */
  lemma RunsKeepPromises(run: seq<World>, acts: seq<Action>)
    requires IsHistory(run, acts)
    ensures Promises(run[|acts|])
  {
    InvAlways(run, acts);
    var w := run[|acts|];
    InvSound(w);
    if w.s.missesTotal == 0 { FoundAll(w); }
    if w.s.current != 0 {
      if w.s.missesEpoch == 0 {
        FoundSame(w, w.s.current, w.s.current);
        assert CountsEpoch(w) by {
          forall d
            ensures Of(w.s.measured, d).liveBlocks == Size(w.live, LiveBorn(d, w.s.current))
            ensures Of(w.s.measured, d).liveBytes == Sum(w.live, LiveBytes(d, w.s.current))
          {
            assert Attributes(w, d);
          }
        }
        NothingLost(w);
      }
      forall d ensures Of(w.s.measured, d).liveBlocks >= 0 && Of(w.s.measured, d).liveBytes >= 0 {
        assert Measures(w, d);
        SumNonNegative(w.s.slots, BornBytes(d, w.s.current));
      }
    }
  }

  // --------------------------------------------------------- with misses

  /** From step `k` on, the epoch that is running now was running. */
  predicate Throughout(run: seq<World>, k: nat) { forall m :: k <= m < |run| ==> run[m].s.current != 0 }

  /** In the running epoch no call was of the kind `bad`. */
  ghost predicate NoneSince(run: seq<World>, acts: seq<Action>, bad: (World, Action) -> bool)
    requires |run| == |acts| + 1
  {
    forall k :: 0 <= k < |acts| && Throughout(run, k) ==> !bad(run[k], acts[k])
  }

  /** No block was released that the table did not know to be born in the epoch. */
  ghost predicate NoneStray(run: seq<World>, acts: seq<Action>)
    requires |run| == |acts| + 1
  {
    NoneSince(run, acts, Strays)
  }

  /** Every block found room in the table. */
  ghost predicate NoneLost(run: seq<World>, acts: seq<Action>)
    requires |run| == |acts| + 1
  {
    NoneSince(run, acts, Loses)
  }

  /** One call adds to the books exactly what its guard says. */
  lemma Booked(w: World, a: Action)
    requires Enabled(w, a) && w.s.current != 0 && Next(w, a).s.current != 0
    ensures AllBlocks(Next(w, a).stray) == AllBlocks(w.stray) + if Strays(w, a) then 1 else 0
    ensures AllBlocks(Next(w, a).lost) == AllBlocks(w.lost) + if Loses(w, a) then 1 else 0
  {
  }

  lemma Opened(w: World, a: Action)
    requires Enabled(w, a) && w.s.current == 0 && Next(w, a).s.current != 0
    ensures AllBlocks(Next(w, a).stray) == 0 == AllBlocks(Next(w, a).lost)
  {
  }

  lemma OpenedBytes(w: World, a: Action, d: Domain)
    requires Enabled(w, a) && w.s.current == 0 && Next(w, a).s.current != 0
    ensures DriftOf(Next(w, a).stray, d).bytes == 0
  {
  }

  lemma ThroughoutLast(run: seq<World>, k: nat)
    requires |run| >= 2 && k < |run|
    ensures Throughout(run, k) <==> Throughout(run[..|run| - 1], k) && run[|run| - 1].s.current != 0
  {
    var n := |run| - 1;
    if Throughout(run[..n], k) && run[n].s.current != 0 {
      forall m | k <= m < |run| ensures run[m].s.current != 0 { assert m < n ==> run[..n][m] == run[m]; }
    }
  }

  lemma SinceLast(run: seq<World>, acts: seq<Action>, bad: (World, Action) -> bool)
    requires |run| == |acts| + 1 && acts != [] && run[|acts|].s.current != 0
    ensures var n := |acts| - 1;
      NoneSince(run, acts, bad)
      <==> run[n].s.current == 0 || (NoneSince(run[..n + 1], acts[..n], bad) && !bad(run[n], acts[n]))
  {
    var n := |acts| - 1;
    var before, calls := run[..n + 1], acts[..n];
    forall k | 0 <= k <= n ensures Throughout(run, k) <==> Throughout(before, k) { ThroughoutLast(run, k); }
    if run[n].s.current != 0 {
      assert Throughout(run, n);
      forall k | 0 <= k < n ensures bad(before[k], calls[k]) == bad(run[k], acts[k]) {}
      if NoneSince(run, acts, bad) {
        forall k | 0 <= k < n && Throughout(before, k) ensures !bad(before[k], calls[k]) {
          assert Throughout(run, k);
        }
      } else {
        var k :| 0 <= k < |acts| && Throughout(run, k) && bad(run[k], acts[k]);
        assert k < n ==> Throughout(before, k) && bad(before[k], calls[k]);
      }
    }
  }

  lemma {:induction false} BooksAgree(run: seq<World>, acts: seq<Action>)
    requires IsHistory(run, acts) && run[|acts|].s.current != 0
    ensures AllBlocks(run[|acts|].stray) == 0 <==> NoneStray(run, acts)
    ensures AllBlocks(run[|acts|].lost) == 0 <==> NoneLost(run, acts)
    decreases |acts|
  {
    var n := |acts| - 1;
    Shorter(run, acts);
    SinceLast(run, acts, Strays);
    SinceLast(run, acts, Loses);
    if run[n].s.current == 0 {
      Opened(run[n], acts[n]);
    } else {
      BooksAgree(run[..n + 1], acts[..n]);
      Booked(run[n], acts[n]);
    }
  }

  /** By how many bytes a call resizes a block of domain `d` that was born in the epoch and
      that the allocator does not take for one. */
  function Resized(d: Domain): (World, Action) -> int {
    (w: World, a: Action) =>
      if Enabled(w, a) && a.Realloc? && Unrecognised(w, a.block, a.domain) && w.live[a.block].record.domain == d
      then a.size - w.live[a.block].record.size else 0
  }

  /** The sum of `f` over the calls of the running epoch. */
  function SumSince(run: seq<World>, acts: seq<Action>, f: (World, Action) -> int): int
    requires |run| == |acts| + 1
    decreases |acts|
  {
    var n := |acts| - 1;
    if n < 0 || run[n].s.current == 0 then 0
    else SumSince(run[..n + 1], acts[..n], f) + f(run[n], acts[n])
  }

  /** Where no release went astray, only such resizes add to the books. */
  lemma ResizeBooked(w: World, a: Action, d: Domain)
    requires Enabled(w, a) && w.s.current != 0 && Next(w, a).s.current != 0 && !Strays(w, a)
    ensures DriftOf(Next(w, a).stray, d).bytes == DriftOf(w.stray, d).bytes - Resized(d)(w, a)
  {
    if a.Realloc? {
      var r := w.live[a.block].record;
      Added(w.stray, r.domain, 0, r.size - a.size, d);
    }
  }

  lemma {:induction false} StrayBytesAgree(run: seq<World>, acts: seq<Action>, d: Domain)
    requires IsHistory(run, acts) && run[|acts|].s.current != 0 && NoneStray(run, acts)
    ensures DriftOf(run[|acts|].stray, d).bytes == 0 - SumSince(run, acts, Resized(d))
    decreases |acts|
  {
    var n := |acts| - 1;
    Shorter(run, acts);
    SinceLast(run, acts, Strays);
    if run[n].s.current == 0 {
      OpenedBytes(run[n], acts[n], d);
    } else {
      StrayBytesAgree(run[..n + 1], acts[..n], d);
      ResizeBooked(run[n], acts[n], d);
    }
  }

  /** The live counters of the epoch, blocks and bytes, are those of the live blocks born in
      it exactly when none of these was released unrecognised and the unrecognised resizes
      of each domain cancel out. */
  lemma CountsEpochExactly(run: seq<World>, acts: seq<Action>)
    requires IsHistory(run, acts) && run[|acts|].s.current != 0
    ensures CountsEpoch(run[|acts|]) <==>
      NoneStray(run, acts) && forall d :: SumSince(run, acts, Resized(d)) == 0
  {
    EpochAlways(run, acts);
    BooksAgree(run, acts);
    StrayMatches(run[|acts|]);
    if NoneStray(run, acts) { BytesAgree(run, acts); }
  }

  lemma BytesAgree(run: seq<World>, acts: seq<Action>)
    requires IsHistory(run, acts) && run[|acts|].s.current != 0 && NoneStray(run, acts)
    ensures NoBytes(run[|acts|].stray) <==> forall d :: SumSince(run, acts, Resized(d)) == 0
  {
    forall d ensures DriftOf(run[|acts|].stray, d).bytes == 0 - SumSince(run, acts, Resized(d)) {
      StrayBytesAgree(run, acts, d);
    }
  }

  predicate NoBytes(b: Drifts) { forall d :: DriftOf(b, d).bytes == 0 }

  lemma EpochAlways(run: seq<World>, acts: seq<Action>)
    requires IsHistory(run, acts)
    ensures Epoch(run[|acts|])
  {
    InvAlways(run, acts);
  }

  /** The block counters alone match exactly when no block was released unrecognised. */
  lemma LiveMatchesIffNoneStray(run: seq<World>, acts: seq<Action>)
    requires IsHistory(run, acts) && run[|acts|].s.current != 0
    ensures LiveMatches(run[|acts|]) <==> NoneStray(run, acts)
  {
    EpochAlways(run, acts);
    BooksAgree(run, acts);
    StrayMatches(run[|acts|]);
  }

  predicate LiveMatches(w: World) {
    forall d :: Of(w.s.measured, d).liveBlocks == Size(w.live, LiveBorn(d, w.s.current))
  }

  predicate TableMatches(w: World) {
    forall d :: Of(w.s.measured, d).liveBlocks == Size(w.s.slots, Born(d, w.s.current))
  }

  lemma StrayMatches(w: World)
    requires Epoch(w) && w.s.current != 0
    ensures LiveMatches(w) <==> AllBlocks(w.stray) == 0
    ensures CountsEpoch(w) <==> AllBlocks(w.stray) == 0 && NoBytes(w.stray)
  {
    forall d
      ensures Of(w.s.measured, d).liveBlocks == Size(w.live, LiveBorn(d, w.s.current))
              <==> DriftOf(w.stray, d).blocks == 0
      ensures Of(w.s.measured, d).liveBytes == Sum(w.live, LiveBytes(d, w.s.current))
              <==> DriftOf(w.stray, d).bytes == 0
    {
      assert Attributes(w, d);
    }
    NoBlocks(w.stray);
  }

  lemma LostMatches(w: World)
    requires Epoch(w) && w.s.current != 0
    ensures TableMatches(w) <==> AllBlocks(w.lost) == 0
    ensures CountsTable(w) <==> AllBlocks(w.lost) == 0
  {
    forall d
      ensures Of(w.s.measured, d).liveBlocks == Size(w.s.slots, Born(d, w.s.current))
              <==> DriftOf(w.lost, d).blocks == 0
      ensures DriftOf(w.lost, d).blocks == 0 ==>
                Of(w.s.measured, d).liveBytes == Sum(w.s.slots, BornBytes(d, w.s.current))
    {
      assert Measures(w, d);
      assert DriftOf(w.lost, d).blocks == 0 ==> DriftOf(w.lost, d).bytes == 0;
    }
    NoBlocks(w.lost);
  }

  lemma NoBlocks(b: Drifts)
    ensures AllBlocks(b) == 0 <==> forall d :: DriftOf(b, d).blocks == 0
  {
    if forall d :: DriftOf(b, d).blocks == 0 {
      assert DriftOf(b, Host).blocks == 0 && DriftOf(b, Roc).blocks == 0 && DriftOf(b, Harness).blocks == 0;
    }
  }

  /** They are those of the entries of the epoch exactly when each of its blocks found room,
      and so are the block counters alone. */
  lemma TableMatchesIffNoneLost(run: seq<World>, acts: seq<Action>)
    requires IsHistory(run, acts) && run[|acts|].s.current != 0
    ensures CountsTable(run[|acts|]) <==> NoneLost(run, acts)
    ensures TableMatches(run[|acts|]) <==> NoneLost(run, acts)
  {
    EpochAlways(run, acts);
    BooksAgree(run, acts);
    LostMatches(run[|acts|]);
  }

  // ------------------------------------------------------- a window that fills

  /** The `k`-th of many pointers that share one window. */
  function Crowd(k: nat): nat { 16 * TRACKER_SLOTS * (k + 1) }

  lemma CrowdHash(k: nat)
    ensures Hash(Crowd(k)) == 0
  {
    var x := Crowd(k) / 16 * 0x9e37_79b1;
    assert Crowd(k) / 16 == TRACKER_SLOTS * (k + 1);
    var y := (k + 1) * 0x9e37_79b1;
    assert x == TRACKER_SLOTS * y;
    Multiple(y);
  }

  lemma Multiple(y: nat)
    ensures TRACKER_SLOTS * y % ADDRESS_SPACE % TRACKER_SLOTS == 0
  {
    var x := TRACKER_SLOTS * y;
    var q := x / ADDRESS_SPACE;
    assert ADDRESS_SPACE == TRACKER_SLOTS * 0x8000_0000_0000;
    var z := y - 0x8000_0000_0000 * q;
    assert x % ADDRESS_SPACE == TRACKER_SLOTS * z;
  }

  /** Nothing went astray in the host's own domain, and no block anywhere. */
  predicate Clean(b: Drifts) { b.host == Drift(0, 0) && b.roc.blocks == 0 && b.harness.blocks == 0 }

  /** The first `n` of them are alive, each in its slot; the rest of the window is vacant. */
  ghost predicate Crowded(w: World, n: nat) {
    && Sized(w.s) && n <= TRACKER_PROBES && w.s.current != 0 && |w.live| == n
    && (forall k :: 0 <= k < n ==> w.live[k].pointer == Crowd(k) == w.s.slots[k].pointer)
    && (forall k :: n <= k < TRACKER_PROBES ==> w.s.slots[k].pointer == 0)
  }

  lemma {:induction false} SeeksVacant(slots: seq<Slot>, p: nat, n: nat, offset: nat)
    requires |slots| == TRACKER_SLOTS && Hash(p) == 0 && offset <= n <= TRACKER_PROBES
    requires forall k :: 0 <= k < n ==> slots[k].pointer != 0
    requires n < TRACKER_PROBES ==> slots[n].pointer == 0
    ensures Seek(slots, p, 0, offset) == if n < TRACKER_PROBES then Some(n) else None
    decreases n - offset
  {
    assert offset < TRACKER_PROBES ==> Probe(p, offset) == offset;
    if offset < n {
      SeeksVacant(slots, p, n, offset + 1);
    }
  }

  lemma Extended(run: seq<World>, acts: seq<Action>, a: Action)
    requires IsHistory(run, acts) && Enabled(run[|acts|], a)
    ensures IsHistory(run + [Next(run[|acts|], a)], acts + [a])
  {
  }

  lemma CrowdNew(w: World, n: nat)
    requires Crowded(w, n)
    ensures Enabled(w, Alloc(Crowd(n), 1, Host))
    ensures n < TRACKER_PROBES ==> Crowded(DoAlloc(w, Crowd(n), 1, Host), n + 1)
    ensures n == TRACKER_PROBES ==> Misses(w.s.slots, Crowd(n))
  {
    CrowdHash(n);
    CrowdApart(n);
    SeeksVacant(w.s.slots, Crowd(n), n, 0);
  }

  lemma CrowdApart(n: nat)
    ensures Crowd(n) != 0 && forall k: nat :: k < n ==> Crowd(k) != Crowd(n) && Crowd(k) != 0
  {
  }

  lemma CleanStarts(w: World)
    requires Sized(w.s) && w.s.current == 0
    ensures Clean(DoBegin(w).stray)
  {
  }

  lemma {:induction false} CrowdIn(n: nat) returns (run: seq<World>, acts: seq<Action>)
    requires n <= TRACKER_PROBES
    ensures IsHistory(run, acts) && Crowded(run[|acts|], n) && Clean(run[|acts|].stray)
  {
    if n == 0 {
      var w := Initial();
      CleanStarts(w);
      run, acts := [w, DoBegin(w)], [BeginEpoch];
    } else {
      run, acts := CrowdIn(n - 1);
      CrowdNew(run[|acts|], n - 1);
      var a := Alloc(Crowd(n - 1), 1, Host);
      Extended(run, acts, a);
      run, acts := run + [Next(run[|acts|], a)], acts + [a];
    }
  }

  /** One pointer too many for its window is counted, and stays counted when it is released. */
  lemma CrowdedWindowMiscounts() returns (run: seq<World>, acts: seq<Action>)
    ensures IsHistory(run, acts) && run[|acts|].s.current != 0
    ensures !NoneLost(run, acts) && !NoneStray(run, acts) && !CountsEpoch(run[|acts|])
  {
    run, acts := CrowdIn(TRACKER_PROBES);
    var n := |acts|;
    var w := run[n];
    CrowdNew(w, TRACKER_PROBES);
    var a, b := Alloc(Crowd(TRACKER_PROBES), 1, Host), Dealloc(TRACKER_PROBES, Host);
    var w1 := Next(w, a);
    Extended(run, acts, a);
    run, acts := run + [w1], acts + [a];
    LostIsUnknown(w, w1);
    var w2 := Next(w1, b);
    Extended(run, acts, b);
    run, acts := run + [w2], acts + [b];
    assert Throughout(run, n) && run[n] == w && acts[n] == a;
    assert Throughout(run, n + 1) && run[n + 1] == w1 && acts[n + 1] == b;
    LiveMatchesIffNoneStray(run, acts);
  }

  /** The block that found no room is not taken for one of the epoch. */
  lemma LostIsUnknown(w: World, w1: World)
    requires Crowded(w, TRACKER_PROBES) && Enabled(w, Alloc(Crowd(TRACKER_PROBES), 1, Host))
    requires Misses(w.s.slots, Crowd(TRACKER_PROBES)) && w1 == DoAlloc(w, Crowd(TRACKER_PROBES), 1, Host)
    ensures Enabled(w1, Dealloc(TRACKER_PROBES, Host)) && Strays(w1, Dealloc(TRACKER_PROBES, Host))
    ensures Next(w1, Dealloc(TRACKER_PROBES, Host)).s.current != 0
    ensures Loses(w, Alloc(Crowd(TRACKER_PROBES), 1, Host))
    ensures Unrecognised(w1, TRACKER_PROBES, Host) && w1.s.current != 0 && w1.stray == w.stray
    ensures w1.live[TRACKER_PROBES] == Block(Crowd(TRACKER_PROBES), Record(1, Host, w1.s.current))
  {
    var p := Crowd(TRACKER_PROBES);
    CrowdHash(TRACKER_PROBES);
    assert w1.s.slots == w.s.slots && w1.live[TRACKER_PROBES].pointer == p;
    SeeksNot(w.s.slots, p, 0);
  }

  /** If it is resized instead, its bytes are counted wrong though nothing is released. */
  lemma ResizeMiscounts() returns (run: seq<World>, acts: seq<Action>)
    ensures IsHistory(run, acts) && run[|acts|].s.current != 0
    ensures NoneStray(run, acts) && LiveMatches(run[|acts|]) && !CountsEpoch(run[|acts|])
  {
    run, acts := CrowdIn(TRACKER_PROBES);
    var w := run[|acts|];
    CrowdNew(w, TRACKER_PROBES);
    var a := Alloc(Crowd(TRACKER_PROBES), 1, Host);
    var w1 := Next(w, a);
    Extended(run, acts, a);
    run, acts := run + [w1], acts + [a];
    LostIsUnknown(w, w1);
    var b := Realloc(TRACKER_PROBES, Crowd(TRACKER_PROBES), 2, Host);
    CrowdApart(TRACKER_PROBES);
    var w2 := ResizedLost(w1, TRACKER_PROBES, Crowd(TRACKER_PROBES), 2);
    Extended(run, acts, b);
    run, acts := run + [w2], acts + [b];
    InvAlways(run, acts);
    BooksAgree(run, acts);
    StrayMatches(w2);
  }

  lemma ResizedLost(w1: World, i: nat, p: nat, size: nat) returns (w2: World)
    requires Sized(w1.s) && i < |w1.live| && Unrecognised(w1, i, Host) && p != 0 && size <= I64_MAX
    requires w1.live[i] == Block(p, Record(1, Host, w1.s.current)) && Clean(w1.stray)
    ensures var b := Realloc(i, p, size, Host);
      Enabled(w1, b) && w2 == Next(w1, b) && w2.s.current != 0
    ensures AllBlocks(w2.stray) == 0 && DriftOf(w2.stray, Host).bytes == 1 - size
  {
    w2 := DoRealloc(w1, i, p, size, Host);
    Added(w1.stray, Host, 0, 1 - size, Host);
  }

  lemma {:induction false} SeeksNot(slots: seq<Slot>, p: nat, offset: nat)
    requires |slots| == TRACKER_SLOTS && Hash(p) == 0 && offset <= TRACKER_PROBES
    requires forall k :: 0 <= k < TRACKER_PROBES ==> slots[k].pointer != p
    ensures Seek(slots, p, p, offset).None?
    decreases TRACKER_PROBES - offset
  {
    if offset < TRACKER_PROBES {
      assert Probe(p, offset) == offset;
      SeeksNot(slots, p, offset + 1);
    }
  }

  // ------------------------------------------------------------------- peaks

  /** The counters of the process, or of one domain. */
  function Pick(b: Bank, which: Option<Domain>): Counters { if which.None? then b.process else Of(b, which.value) }

  predicate PeakOk(c: Counters) { c.peakBlocks >= c.liveBlocks && c.peakBytes >= c.liveBytes }

  predicate PeakMoves(c: Counters, c': Counters) {
    c'.peakBlocks == Max(c.peakBlocks, c'.liveBlocks) && c'.peakBytes == Max(c.peakBytes, c'.liveBytes)
  }

  /** Every update takes the peaks along. */
  lemma PeaksFollow(b: Bank, n: nat, m: nat, d: Domain, live: bool, which: Option<Domain>)
    requires PeakOk(Pick(b, which))
    ensures PeakMoves(Pick(b, which), Pick(BankAllocated(b, n, d), which))
    ensures PeakMoves(Pick(b, which), Pick(BankDeallocated(b, n, d, live), which))
    ensures PeakMoves(Pick(b, which), Pick(BankReallocated(b, n, m, d, live), which))
  {
  }

  lemma TotalPeaks(w: World, a: Action, which: Option<Domain>)
    requires Enabled(w, a) && PeakOk(Pick(w.s.total, which))
    ensures PeakMoves(Pick(w.s.total, which), Pick(Next(w, a).s.total, which))
  {
    match a {
      case Alloc(_, size, d) => PeaksFollow(w.s.total, size, 0, d, true, which);
      case Dealloc(i, d) => PeaksFollow(w.s.total, Taken(w, i, d).size, 0, Taken(w, i, d).domain, true, which);
      case Realloc(i, _, size, d) =>
        PeaksFollow(w.s.total, Taken(w, i, d).size, size, Taken(w, i, d).domain, true, which);
      case BeginEpoch =>
      case EndEpoch =>
    }
  }

  lemma EpochPeaks(w: World, a: Action, which: Option<Domain>)
    requires Enabled(w, a) && PeakOk(Pick(w.s.measured, which)) && w.s.current != 0
    ensures PeakMoves(Pick(w.s.measured, which), Pick(Next(w, a).s.measured, which))
  {
    match a {
      case Alloc(_, size, d) => PeaksFollow(w.s.measured, size, 0, d, true, which);
      case Dealloc(i, d) =>
        var r := Taken(w, i, d);
        PeaksFollow(w.s.measured, r.size, 0, r.domain, r.epoch == w.s.current, which);
      case Realloc(i, _, size, d) =>
        var r := Taken(w, i, d);
        PeaksFollow(w.s.measured, r.size, size, r.domain, r.epoch == w.s.current, which);
      case BeginEpoch =>
      case EndEpoch =>
    }
  }

  /** The greatest value of `f` over the whole history. */
  function MaxOver(run: seq<World>, f: World -> int): int
    requires run != []
  {
    var v := f(run[|run| - 1]);
    if |run| == 1 then v else Max(MaxOver(run[..|run| - 1], f), v)
  }

  /** The greatest value of `f` since the running epoch began. */
  function MaxSince(run: seq<World>, f: World -> int): int
    requires run != []
  {
    var v := f(run[|run| - 1]);
    if |run| == 1 || run[|run| - 2].s.current == 0 then v else Max(MaxSince(run[..|run| - 1], f), v)
  }

  function TotalBlocks(which: Option<Domain>): World -> int { (w: World) => Pick(w.s.total, which).liveBlocks }
  function TotalBytes(which: Option<Domain>): World -> int { (w: World) => Pick(w.s.total, which).liveBytes }
  function EpochBlocks(which: Option<Domain>): World -> int { (w: World) => Pick(w.s.measured, which).liveBlocks }
  function EpochBytes(which: Option<Domain>): World -> int { (w: World) => Pick(w.s.measured, which).liveBytes }

  /** The total peaks are maxima over the whole history, for the process and each domain. */
  lemma {:induction false} PeaksAreMaxima(run: seq<World>, acts: seq<Action>, which: Option<Domain>)
    requires IsHistory(run, acts)
    ensures var c := Pick(run[|acts|].s.total, which);
      PeakOk(c) && c.peakBlocks == MaxOver(run, TotalBlocks(which)) && c.peakBytes == MaxOver(run, TotalBytes(which))
    decreases |acts|
  {
    if acts != [] {
      var n := |acts| - 1;
      Shorter(run, acts);
      PeaksAreMaxima(run[..n + 1], acts[..n], which);
      TotalPeaks(run[n], acts[n], which);
    }
  }

  /** The epoch peaks are maxima since the epoch began, for the process and each domain. */
  lemma {:induction false} EpochPeaksAreMaxima(run: seq<World>, acts: seq<Action>, which: Option<Domain>)
    requires IsHistory(run, acts) && run[|acts|].s.current != 0
    ensures var c := Pick(run[|acts|].s.measured, which);
      PeakOk(c) && c.peakBlocks == MaxSince(run, EpochBlocks(which)) && c.peakBytes == MaxSince(run, EpochBytes(which))
    decreases |acts|
  {
    var n := |acts| - 1;
    Shorter(run, acts);
    if run[n].s.current != 0 {
      EpochPeaksAreMaxima(run[..n + 1], acts[..n], which);
      EpochPeaks(run[n], acts[n], which);
    }
  }
}
