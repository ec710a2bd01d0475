/**
  The counters of the counting allocator that only grow, after every history of calls: how
  often and how many bytes were allocated, given back and resized, in the whole process and
  domain by domain, since the start and since the running epoch began.
*/
module AllocationFlows {
  import opened Bags
  import opened AllocationTracker
  import opened AllocationRuns
  import opened AllocationHistories

  datatype Flow = Flow(
    allocs: nat, deallocs: nat, reallocs: nat, allocatedBytes: nat, deallocatedBytes: nat, reallocatedBytes: nat)

  const STILL := Flow(0, 0, 0, 0, 0, 0)

  function Flowed(c: Counters): Flow {
    Flow(c.allocs, c.deallocs, c.reallocs, c.allocatedBytes, c.deallocatedBytes, c.reallocatedBytes)
  }

  function Plus(f: Flow, g: Flow): Flow {
    Flow(f.allocs + g.allocs, f.deallocs + g.deallocs, f.reallocs + g.reallocs,
         f.allocatedBytes + g.allocatedBytes, f.deallocatedBytes + g.deallocatedBytes,
         f.reallocatedBytes + g.reallocatedBytes)
  }

  /** What one call adds: an allocation its size, a release the size of the block, a resize the
      new size.  A block belongs to the domain it was allocated for, or if that is not known to
      the domain of the call. */
  function Adds(w: World, a: Action, which: Option<Domain>): Flow
    requires Enabled(w, a)
  {
    match a
    case Alloc(_, size, d) => if which.None? || which == Some(d) then Flow(1, 0, 0, size, 0, 0) else STILL
    case Dealloc(i, d) =>
      if which.None? || which == Some(Taken(w, i, d).domain) then Flow(0, 1, 0, 0, w.live[i].record.size, 0) else STILL
    case Realloc(i, _, size, d) =>
      if which.None? || which == Some(Taken(w, i, d).domain) then Flow(0, 0, 1, 0, 0, size) else STILL
    case BeginEpoch => STILL
    case EndEpoch => STILL
  }

  /** All calls of a history together. */
  ghost function AddedOver(run: seq<World>, acts: seq<Action>, which: Option<Domain>): Flow
    requires IsHistory(run, acts)
  {
    if acts == [] then STILL
    else
      var n := |acts| - 1;
      Plus(AddedOver(run[..n + 1], acts[..n], which), Adds(run[n], acts[n], which))
  }

  /** The calls since the running epoch began. */
  ghost function AddedSince(run: seq<World>, acts: seq<Action>, which: Option<Domain>): Flow
    requires IsHistory(run, acts)
  {
    if acts == [] || run[|acts| - 1].s.current == 0 then STILL
    else
      var n := |acts| - 1;
      Plus(AddedSince(run[..n + 1], acts[..n], which), Adds(run[n], acts[n], which))
  }

  lemma BankFlows(b: Bank, n: nat, m: nat, d: Domain, live: bool, which: Option<Domain>)
    ensures var f, hit := Flowed(Pick(b, which)), which.None? || which == Some(d);
      && Flowed(Pick(BankAllocated(b, n, d), which)) == (if hit then Plus(f, Flow(1, 0, 0, n, 0, 0)) else f)
      && Flowed(Pick(BankDeallocated(b, n, d, live), which)) == (if hit then Plus(f, Flow(0, 1, 0, 0, n, 0)) else f)
      && Flowed(Pick(BankReallocated(b, n, m, d, live), which)) == (if hit then Plus(f, Flow(0, 0, 1, 0, 0, m)) else f)
  {
  }

  lemma TotalFlows(w: World, a: Action, which: Option<Domain>)
    requires Placed(w) && Enabled(w, a)
    ensures Flowed(Pick(Next(w, a).s.total, which)) == Plus(Flowed(Pick(w.s.total, which)), Adds(w, a, which))
  {
    match a {
      case Alloc(_, size, d) => BankFlows(w.s.total, size, 0, d, true, which);
      case Dealloc(i, d) =>
        TakenFits(w, i, d);
        BankFlows(w.s.total, Taken(w, i, d).size, 0, Taken(w, i, d).domain, true, which);
      case Realloc(i, _, size, d) =>
        BankFlows(w.s.total, Taken(w, i, d).size, size, Taken(w, i, d).domain, true, which);
      case BeginEpoch =>
      case EndEpoch =>
    }
  }

  lemma EpochFlows(w: World, a: Action, which: Option<Domain>)
    requires Placed(w) && Enabled(w, a) && w.s.current != 0
    ensures Flowed(Pick(Next(w, a).s.measured, which)) == Plus(Flowed(Pick(w.s.measured, which)), Adds(w, a, which))
  {
    match a {
      case Alloc(_, size, d) => BankFlows(w.s.measured, size, 0, d, true, which);
      case Dealloc(i, d) =>
        TakenFits(w, i, d);
        var r := Taken(w, i, d);
        BankFlows(w.s.measured, r.size, 0, r.domain, r.epoch == w.s.current, which);
      case Realloc(i, _, size, d) =>
        var r := Taken(w, i, d);
        BankFlows(w.s.measured, r.size, size, r.domain, r.epoch == w.s.current, which);
      case BeginEpoch =>
      case EndEpoch =>
    }
  }

  /** In every history the totals are the sums of what its calls added. */
  lemma {:induction false} TotalsAreSums(run: seq<World>, acts: seq<Action>, which: Option<Domain>)
    requires IsHistory(run, acts)
    ensures Flowed(Pick(run[|acts|].s.total, which)) == AddedOver(run, acts, which)
    decreases |acts|
  {
    if acts != [] {
      var n := |acts| - 1;
      Shorter(run, acts);
      TotalsAreSums(run[..n + 1], acts[..n], which);
      InvAlways(run[..n + 1], acts[..n]);
      TotalFlows(run[n], acts[n], which);
    }
  }

  /** While an epoch runs, its counters are the sums of what the calls since its begin added. */
  lemma {:induction false} EpochIsSums(run: seq<World>, acts: seq<Action>, which: Option<Domain>)
    requires IsHistory(run, acts) && run[|acts|].s.current != 0
    ensures Flowed(Pick(run[|acts|].s.measured, which)) == AddedSince(run, acts, which)
    decreases |acts|
  {
    var n := |acts| - 1;
    Shorter(run, acts);
    if run[n].s.current != 0 {
      EpochIsSums(run[..n + 1], acts[..n], which);
      InvAlways(run[..n + 1], acts[..n]);
      EpochFlows(run[n], acts[n], which);
    }
  }
}
