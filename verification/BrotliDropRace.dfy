/**
  `Quiet` is exactly what a lease needs.

  `BrotliJob::drop` stores its flag, takes the waker and takes the result in three
  separate actions.  Between the first and the last, a worker may give the lane back
  and another stream may lease it.  From any such lease some continuation lets the old
  stream take the new stream's completion, and every configuration reaches one.
*/
module BrotliDropRace {
  import opened Bags
  import opened BrotliExecutor
  import opened BrotliInvariant
  import opened BrotliSteps
  import opened BrotliRuns

  // -------------------------------------------------------- building a run

  ghost predicate QuietAt(c: Config, run: seq<State>, k: nat)
    requires k + 1 < |run|
  {
    QuietStep(c, run[k], run[k + 1])
  }

  /** A run from `z` whose further leases are quiet. */
  ghost predicate QuietFrom(c: Config, z: State, run: seq<State>) {
    && run != [] && run[0] == z
    && forall k: nat :: k + 1 < |run| ==> QuietAt(c, run, k)
  }

  ghost predicate Reaches(c: Config, z: State, s: State) {
    exists run :: QuietFrom(c, z, run) && run[|run| - 1] == s
  }

  lemma Stays(c: Config, z: State)
    ensures Reaches(c, z, z)
  {
    assert QuietFrom(c, z, [z]);
  }

  lemma Go(c: Config, z: State, s: State, a: Action) returns (t: State)
    requires Reaches(c, z, s) && Enabled(s, a) && (a.Admit? ==> Quiet(s))
    ensures t == Next(c, s, a) && Reaches(c, z, t)
  {
    t := Next(c, s, a);
    var run :| QuietFrom(c, z, run) && run[|run| - 1] == s;
    var more := run + [t];
    forall k: nat | k + 1 < |more| ensures QuietAt(c, more, k) {
      if k + 1 < |run| { assert QuietAt(c, run, k); }
    }
    assert QuietFrom(c, z, more);
  }

  predicate Admitting(p: Phase) { RoleOf(p).Leases? && !Submitting(p) && !p.Leased? }

  lemma GoAdmit(c: Config, z: State, s: State, j: nat) returns (t: State)
    requires Reaches(c, z, s) && c.workers <= j && InBounds(s, j) && Admitting(s.tasks[j].phase)
    ensures t == AdvanceAdmit(s, j) && Reaches(c, z, t)
  {
    t := Go(c, z, s, Advance(j));
  }

  lemma GoSubmit(c: Config, z: State, s: State, j: nat) returns (t: State)
    requires Reaches(c, z, s) && c.workers <= j && InBounds(s, j) && Submitting(s.tasks[j].phase)
    ensures t == AdvanceSubmit(c, s, j) && Reaches(c, z, t)
  {
    t := Go(c, z, s, Advance(j));
  }

  lemma GoDrop(c: Config, z: State, s: State, i: nat) returns (t: State)
    requires Reaches(c, z, s) && c.workers <= i && InBounds(s, i) && RoleOf(s.tasks[i].phase).Drops?
    ensures t == AdvanceJob(s, i) && Reaches(c, z, t)
  {
    t := Go(c, z, s, Advance(i));
  }

  lemma GoRun(c: Config, z: State, s: State) returns (t: State)
    requires Reaches(c, z, s) && 0 < c.workers && InBounds(s, 0)
    requires RoleOf(s.tasks[0].phase).Carries? && !s.tasks[0].phase.Publishing?
    ensures t == AdvanceRun(s, 0) && Reaches(c, z, t)
  {
    t := Go(c, z, s, Advance(0));
  }

  lemma GoReceive(c: Config, z: State, s: State) returns (t: State)
    requires Reaches(c, z, s) && 0 < c.workers && InBounds(s, 0) && s.tasks[0].phase.Waiting? && s.channel != []
    ensures t == DoReceive(s, 0) && Reaches(c, z, t)
  {
    t := Go(c, z, s, Advance(0));
  }

  lemma GoReturn(c: Config, z: State, s: State) returns (t: State)
    requires Reaches(c, z, s) && 0 < c.workers && InBounds(s, 0) && RoleOf(s.tasks[0].phase).Returns?
    ensures t == AdvanceReturn(c, s, 0) && Reaches(c, z, t)
  {
    t := Go(c, z, s, Advance(0));
  }

  /** Stream `j` finishes `try_admit`. */
  lemma Equips(c: Config, z: State, s: State, j: nat) returns (t: State)
    requires Reaches(c, z, s) && c.workers <= j && InBounds(s, j) && s.tasks[j].phase.Popped?
    ensures Reaches(c, z, t) && t.free == s.free && t.channel == s.channel
    ensures var l := s.tasks[j].lane;
      && t.tasks == s.tasks[j := s.tasks[j].(phase := Leased)]
      && t.cells == s.cells[l := s.cells[l].(encoder := true, cancelled := false, waker := None)]
  {
    t := Counts(c, z, s, j);
    t := GoAdmit(c, z, t, j);
    t := Clears(c, z, t, j);
    t := GoAdmit(c, z, t, j);
  }

  lemma Counts(c: Config, z: State, s: State, j: nat) returns (t: State)
    requires Reaches(c, z, s) && c.workers <= j && InBounds(s, j) && s.tasks[j].phase.Popped?
    ensures Reaches(c, z, t) && t.free == s.free && t.channel == s.channel && t.cells == s.cells
    ensures t.tasks == s.tasks[j := s.tasks[j].(phase := Admitted)]
  {
    t := GoAdmit(c, z, s, j);
    t := GoAdmit(c, z, t, j);
  }

  lemma Clears(c: Config, z: State, s: State, j: nat) returns (t: State)
    requires Reaches(c, z, s) && c.workers <= j && InBounds(s, j) && s.tasks[j].phase.Equipped?
    ensures Reaches(c, z, t) && t.free == s.free && t.channel == s.channel
    ensures var l := s.tasks[j].lane;
      && t.tasks == s.tasks[j := s.tasks[j].(phase := Checked)]
      && t.cells == s.cells[l := s.cells[l].(cancelled := false, waker := None)]
  {
    t := GoAdmit(c, z, s, j);
    t := GoAdmit(c, z, t, j);
  }

  /** Stream `j` submits an operation. */
  lemma Submits(c: Config, z: State, s: State, j: nat) returns (t: State)
    requires Reaches(c, z, s) && c.workers <= j && InBounds(s, j) && s.tasks[j].phase.Leased?
    requires |s.channel| < c.lanes
    ensures Reaches(c, z, t) && t.free == s.free
    ensures var l := s.tasks[j].lane;
      && t.channel == s.channel + [Work(l, j)]
      && t.tasks == s.tasks[j := s.tasks[j].(phase := Pending(false), woken := false)]
      && t.cells == s.cells[l := s.cells[l].(cancelled := false)]
  {
    t := Go(c, z, s, Submit(j));
    t := Reserves(c, z, t, j);
    t := GoSubmit(c, z, t, j);
  }

  lemma Reserves(c: Config, z: State, s: State, j: nat) returns (t: State)
    requires Reaches(c, z, s) && c.workers <= j && InBounds(s, j) && s.tasks[j].phase.Unflagged?
    ensures Reaches(c, z, t) && t.free == s.free && t.channel == s.channel && t.cells == s.cells
    ensures t.tasks == s.tasks[j := s.tasks[j].(phase := SubmitReady)]
  {
    t := GoSubmit(c, z, s, j);
    t := GoSubmit(c, z, t, j);
  }

  /** Worker 0 counts the operation it received. */
  lemma Begins(c: Config, z: State, s: State) returns (t: State)
    requires Reaches(c, z, s) && 0 < c.workers && InBounds(s, 0) && s.tasks[0].phase.Received?
    ensures Reaches(c, z, t) && t.free == s.free && t.channel == s.channel && t.cells == s.cells
    ensures t.tasks == s.tasks[0 := s.tasks[0].(phase := Started)]
  {
    t := GoRun(c, z, s);
    t := CountsRun(c, z, t);
  }

  lemma CountsRun(c: Config, z: State, s: State) returns (t: State)
    requires Reaches(c, z, s) && 0 < c.workers && InBounds(s, 0) && s.tasks[0].phase.Dequeued?
    ensures Reaches(c, z, t) && t.free == s.free && t.channel == s.channel && t.cells == s.cells
    ensures t.tasks == s.tasks[0 := s.tasks[0].(phase := Started)]
  {
    t := GoRun(c, z, s);
    t := GoRun(c, z, t);
  }

  /** Worker 0 encodes and publishes a live operation. */
  lemma Publishes(c: Config, z: State, s: State) returns (t: State)
    requires Reaches(c, z, s) && 0 < c.workers && InBounds(s, 0) && s.tasks[0].phase.Received?
    requires !s.cells[s.tasks[0].lane].cancelled
    ensures Reaches(c, z, t) && t.free == s.free && t.channel == s.channel
    ensures var l := s.tasks[0].lane;
      && t.tasks == s.tasks[0 := s.tasks[0].(phase := Waking)]
      && t.cells == s.cells[l := s.cells[l].(result := Some(Work(l, s.tasks[0].job)))]
  {
    t := Begins(c, z, s);
    t := GoRun(c, z, t);
    t := Encodes(c, z, t);
    t := Go(c, z, t, Advance(0));
  }

  lemma Encodes(c: Config, z: State, s: State) returns (t: State)
    requires Reaches(c, z, s) && 0 < c.workers && InBounds(s, 0) && s.tasks[0].phase.Encoding?
    ensures Reaches(c, z, t) && t.free == s.free && t.channel == s.channel && t.cells == s.cells
    ensures t.tasks == s.tasks[0 := s.tasks[0].(phase := Publishing)]
  {
    t := GoRun(c, z, s);
    t := GoRun(c, z, t);
  }

  /** Worker 0 skips a cancelled operation and gives its lane back. */
  lemma Skips(c: Config, z: State, s: State) returns (t: State)
    requires Reaches(c, z, s) && 0 < c.workers && InBounds(s, 0) && s.tasks[0].phase.Received?
    requires s.cells[s.tasks[0].lane].cancelled
    ensures Reaches(c, z, t) && t.free == s.free + [s.tasks[0].lane]
    ensures t.tasks == s.tasks[0 := s.tasks[0].(phase := Waiting)] && |t.cells| == |s.cells|
  {
    t := Begins(c, z, s);
    t := GoRun(c, z, t);
    t := GoRun(c, z, t);
    t := Gives(c, z, t);
  }

  lemma Gives(c: Config, z: State, s: State) returns (t: State)
    requires Reaches(c, z, s) && 0 < c.workers && InBounds(s, 0) && s.tasks[0].phase.Releasing?
    ensures Reaches(c, z, t) && t.free == s.free + [s.tasks[0].lane]
    ensures t.tasks == s.tasks[0 := s.tasks[0].(phase := Waiting)] && |t.cells| == |s.cells|
  {
    t := GoReturn(c, z, s);
    t := GoReturn(c, z, t);
    t := GoReturn(c, z, t);
  }

  // ------------------------------------------------------------- the stage

  /** Stream `i` is about to take whatever result lane `l` holds, stream `j` has leased
      the lane, and only task `h` has it in hand; worker 0 can run. */
  predicate Stage(c: Config, s: State, i: nat, j: nat, l: nat, h: nat) {
    && 0 < c.workers && c.workers <= i < |s.tasks| && c.workers <= j < |s.tasks| && i != j
    && s.tasks[i].phase.Unwaked? && s.tasks[i].lane == l < |s.cells|
    && s.tasks[j].lane == l && s.cells[l].result.None?
    && (forall k :: 0 <= k < |s.tasks| && k != h ==> Held(s.tasks[k]) != Some(l))
    && Runnable(c, s)
  }

  /** What lets worker 0 take its next step, in any state. */
  predicate Runnable(c: Config, s: State)
    requires c.workers <= |s.tasks| && 0 < c.workers
  {
    && s.tasks[0].lane < |s.cells| && AtWork(c, s, s.tasks[0].phase)
    && (forall k :: 0 <= k < |s.channel| ==> s.channel[k].lane < |s.cells|)
    && (forall m :: 0 <= m < |s.cells| ==> Callee(c, s, s.cells[m].waker))
  }

  predicate Callee(c: Config, s: State, w: Option<nat>) { w.Some? ==> c.workers <= w.value < |s.tasks| }

  predicate AtWork(c: Config, s: State, p: Phase) {
    && (p.Waiting? || p.Waking? || p.Notifying? || RoleOf(p).Carries? || RoleOf(p).Returns?)
    && (p.Notifying? ==> c.workers <= p.sleeper < |s.tasks|)
  }

  /** The operation of stream `j` is at position `q` of the channel, and no other uses the lane. */
  predicate Sent(channel: seq<Work>, j: nat, l: nat, q: nat) {
    && q < |channel| && channel[q] == Work(l, j)
    && forall k :: 0 <= k < |channel| && k != q ==> channel[k].lane != l
  }

  /** How far worker 0 is from its next receive. */
  function Rank(p: Phase): nat {
    match p
    case Received => 12
    case Dequeued => 11
    case RunCounted(_) => 10
    case Started => 9
    case Skipping | Encoding => 8
    case Encoded => 7
    case Publishing => 6
    case Waking => 5
    case Notifying(_) => 4
    case Releasing => 3
    case Emptied => 2
    case Retired => 1
    case _ => 0
  }

  /** `t` follows `s` by worker 0's own business, which leaves lane `l` alone. */
  predicate Minds(s: State, t: State, l: nat) {
    && |t.tasks| == |s.tasks| && |t.cells| == |s.cells| && t.channel == s.channel
    && l < |s.cells| && t.cells[l].result == s.cells[l].result && t.cells[l].cancelled == s.cells[l].cancelled
    && (forall k :: 0 < k < |s.tasks| ==> t.tasks[k].phase == s.tasks[k].phase && t.tasks[k].lane == s.tasks[k].lane)
    && (forall m :: 0 <= m < |s.cells| ==> t.cells[m].waker == s.cells[m].waker || t.cells[m].waker.None?)
  }

  lemma StageMinded(c: Config, s: State, t: State, i: nat, j: nat, l: nat)
    requires Stage(c, s, i, j, l, j) && Minds(s, t, l)
    requires AtWork(c, t, t.tasks[0].phase) && t.tasks[0].lane < |t.cells| && Held(t.tasks[0]) != Some(l)
    ensures Stage(c, t, i, j, l, j)
  {
    forall k | 0 <= k < |t.tasks| && k != j ensures Held(t.tasks[k]) != Some(l) {
      assert k > 0 ==> Held(t.tasks[k]) == Held(s.tasks[k]);
    }
    forall m | 0 <= m < |t.cells| ensures Callee(c, t, t.cells[m].waker) { assert Callee(c, s, s.cells[m].waker); }
  }

  /** Worker 0, busy with another lane, comes closer to its next receive. */
  lemma Ticks(c: Config, z: State, s: State, i: nat, j: nat, l: nat) returns (t: State)
    requires Reaches(c, z, s) && Stage(c, s, i, j, l, j) && !s.tasks[0].phase.Waiting?
    ensures Reaches(c, z, t) && Stage(c, t, i, j, l, j)
    ensures t.channel == s.channel && t.cells[l].cancelled == s.cells[l].cancelled
    ensures t.tasks[j].phase == s.tasks[j].phase && Rank(t.tasks[0].phase) < Rank(s.tasks[0].phase)
  {
    t := Go(c, z, s, Advance(0));
    TickMinds(c, s, t, i, j, l);
    StageMinded(c, s, t, i, j, l);
  }

  /** What `Ticks` needs to know of one step. */
  predicate Ticked(c: Config, s: State, t: State, l: nat) {
    && Minds(s, t, l) && t.tasks != [] && s.tasks != [] && Rank(t.tasks[0].phase) < Rank(s.tasks[0].phase)
    && AtWork(c, t, t.tasks[0].phase) && t.tasks[0].lane < |t.cells| && Held(t.tasks[0]) != Some(l)
  }

  lemma TickMinds(c: Config, s: State, t: State, i: nat, j: nat, l: nat)
    requires Stage(c, s, i, j, l, j) && !s.tasks[0].phase.Waiting?
    requires Enabled(s, Advance(0)) && t == Next(c, s, Advance(0))
    ensures Ticked(c, s, t, l)
  {
    var p := s.tasks[0].phase;
    assert Held(s.tasks[0]) != Some(l);
    assert Callee(c, s, s.cells[s.tasks[0].lane].waker);
    if RoleOf(p).Returns? {
      ReturnTicks(c, s, t, l);
    } else if p.Publishing? {
      PublishTicks(c, s, t, l);
    } else if p.Waking? {
      WakeTicks(c, s, t, l);
    } else if p.Notifying? {
      NotifyTicks(c, s, t, l);
    } else {
      RunTicks(c, s, t, l);
    }
  }

  lemma ReturnTicks(c: Config, s: State, t: State, l: nat)
    requires 0 < c.workers && InBounds(s, 0) && l < |s.cells| && Held(s.tasks[0]) != Some(l)
    requires RoleOf(s.tasks[0].phase).Returns? && t == AdvanceReturn(c, s, 0)
    ensures Ticked(c, s, t, l)
  {}

  lemma PublishTicks(c: Config, s: State, t: State, l: nat)
    requires InBounds(s, 0) && l < |s.cells| && Held(s.tasks[0]) != Some(l)
    requires s.tasks[0].phase.Publishing? && t == DoPublish(s, 0)
    ensures Ticked(c, s, t, l)
  {}

  lemma WakeTicks(c: Config, s: State, t: State, l: nat)
    requires InBounds(s, 0) && l < |s.cells| && Callee(c, s, s.cells[s.tasks[0].lane].waker)
    requires s.tasks[0].phase.Waking? && t == DoTakeWaker(s, 0)
    ensures Ticked(c, s, t, l)
  {}

  lemma NotifyTicks(c: Config, s: State, t: State, l: nat)
    requires InBounds(s, 0) && l < |s.cells| && s.tasks[0].phase.Notifying?
    requires 0 < s.tasks[0].phase.sleeper < |s.tasks| && t == DoNotify(s, 0)
    ensures Ticked(c, s, t, l)
  {
    var w := s.tasks[s.tasks[0].phase.sleeper].(woken := true);
    assert t.cells == s.cells && t.tasks == s.tasks[s.tasks[0].phase.sleeper := w][0 := s.tasks[0].(phase := Waiting)];
  }

  lemma RunTicks(c: Config, s: State, t: State, l: nat)
    requires InBounds(s, 0) && l < |s.cells| && Held(s.tasks[0]) != Some(l)
    requires RoleOf(s.tasks[0].phase).Carries? && !s.tasks[0].phase.Publishing? && t == AdvanceRun(s, 0)
    ensures Ticked(c, s, t, l)
  {
    RunPhases(s, t);
    assert AtWork(c, t, t.tasks[0].phase);
  }

  lemma RunPhases(s: State, t: State)
    requires InBounds(s, 0) && t == AdvanceRun(s, 0)
    requires RoleOf(s.tasks[0].phase).Carries? && !s.tasks[0].phase.Publishing?
    ensures t.cells == s.cells && t.channel == s.channel && |t.tasks| == |s.tasks|
    ensures t.tasks == s.tasks[0 := s.tasks[0].(phase := t.tasks[0].phase)]
    ensures Rank(t.tasks[0].phase) < Rank(s.tasks[0].phase)
    ensures RoleOf(t.tasks[0].phase).Carries? || t.tasks[0].phase.Releasing?
  {}

  /** Worker 0 works its way through the channel until it receives the operation of `j`. */
  lemma {:induction false} Drives(c: Config, z: State, s: State, i: nat, j: nat, l: nat, q: nat) returns (t: State)
    requires Reaches(c, z, s) && Stage(c, s, i, j, l, j) && Sent(s.channel, j, l, q)
    requires !s.cells[l].cancelled && s.tasks[j].phase == Pending(false)
    ensures Reaches(c, z, t) && Stage(c, t, i, j, l, 0) && t.tasks[0].phase.Received?
    ensures t.tasks[0].lane == l && t.tasks[0].job == j
    ensures !t.cells[l].cancelled && t.tasks[j].phase == Pending(false)
    ensures forall k :: 0 <= k < |t.channel| ==> t.channel[k].lane != l
    decreases q, Rank(s.tasks[0].phase)
  {
    if !s.tasks[0].phase.Waiting? {
      t := Ticks(c, z, s, i, j, l);
      t := Drives(c, z, t, i, j, l, q);
    } else {
      var u := GoReceive(c, z, s);
      Receives(c, s, u, i, j, l, q);
      t := u;
      if q > 0 {
        t := Drives(c, z, u, i, j, l, q - 1);
      }
    }
  }

  lemma Receives(c: Config, s: State, t: State, i: nat, j: nat, l: nat, q: nat)
    requires Stage(c, s, i, j, l, j) && Sent(s.channel, j, l, q) && s.tasks[0].phase.Waiting? && t == DoReceive(s, 0)
    requires s.tasks[j].phase == Pending(false) && !s.cells[l].cancelled
    ensures q == 0 ==> Stage(c, t, i, j, l, 0) && forall k :: 0 <= k < |t.channel| ==> t.channel[k].lane != l
    ensures q == 0 ==> t.tasks[0].phase.Received? && t.tasks[0].lane == l && t.tasks[0].job == j
    ensures q > 0 ==> Stage(c, t, i, j, l, j) && Sent(t.channel, j, l, q - 1)
    ensures !t.cells[l].cancelled && t.tasks[j].phase == Pending(false)
  {
    assert forall m :: 0 <= m < |t.cells| ==> Callee(c, s, s.cells[m].waker);
    assert forall k :: 0 <= k < |t.channel| ==> t.channel[k] == s.channel[k + 1];
    assert Held(s.tasks[j]).None?;
  }

  // ------------------------------------------------------------ the theorem

  /** The old stream takes the completion of the new one, which then waits for nothing. */
  lemma Steals(c: Config, z: State, s: State, i: nat, j: nat, l: nat) returns (t: State)
    requires Reaches(c, z, s) && Stage(c, s, i, j, l, 0) && s.tasks[0].phase.Received?
    requires s.tasks[0].lane == l && s.tasks[0].job == j && !s.cells[l].cancelled
    requires s.tasks[j].phase == Pending(false)
    requires forall k :: 0 <= k < |s.channel| ==> s.channel[k].lane != l
    ensures Reaches(c, z, t) && !NobodyAbandoned(c, t)
  {
    var u := Publishes(c, z, s);
    t := Takes(c, z, u, i);
    forall k | 0 <= k < c.workers ensures Held(t.tasks[k]) != Some(l) {
      assert k > 0 ==> t.tasks[k] == s.tasks[k] && Held(s.tasks[k]) != Some(l);
    }
    Abandoned(c, t, j, l);
  }

  /** Stream `i` takes the result that its lane holds. */
  lemma Takes(c: Config, z: State, s: State, i: nat) returns (t: State)
    requires Reaches(c, z, s) && c.workers <= i && InBounds(s, i) && s.tasks[i].phase.Unwaked?
    requires s.cells[s.tasks[i].lane].result.Some?
    ensures Reaches(c, z, t) && t.channel == s.channel
    ensures var l := s.tasks[i].lane;
      && t.tasks == s.tasks[i := s.tasks[i].(phase := Releasing)]
      && t.cells == s.cells[l := s.cells[l].(result := None)]
  {
    t := GoDrop(c, z, s, i);
  }

  /** A stream waits for nothing if neither channel nor workers nor its cell have its lane. */
  lemma Abandoned(c: Config, t: State, j: nat, l: nat)
    requires c.workers <= j < |t.tasks| && t.tasks[j].lane == l < |t.cells| && RoleOf(t.tasks[j].phase).Waits?
    requires t.cells[l].result.None? && forall k :: 0 <= k < |t.channel| ==> t.channel[k].lane != l
    requires forall k :: 0 <= k < c.workers ==> Held(t.tasks[k]) != Some(l)
    ensures !NobodyAbandoned(c, t)
  {
    assert Work(l, j) !in t.channel;
    forall k | 0 <= k < c.workers && RoleOf(t.tasks[k].phase).Carries? ensures t.tasks[k].lane != l {
      assert Held(t.tasks[k]) != Some(l);
    }
    assert !OwnWork(c, t, j);
  }

  /** A lease of a lane that stream `i` is still dropping. */
  lemma Overtaken(c: Config, s: State, i: nat) returns (z: State, t: State)
    requires Inv(c, s) && Enabled(s, Admit) && i < |s.tasks|
    requires RoleOf(s.tasks[i].phase).Drops? && s.tasks[i].lane == s.free[|s.free| - 1]
    ensures z == Next(c, s, Admit) && Reaches(c, z, t)
    ensures c.workers <= i && Stage(c, t, i, |s.tasks|, s.tasks[i].lane, |s.tasks|)
    ensures t.tasks[|s.tasks|].phase.Popped? && t.channel == s.channel
  {
    z := Next(c, s, Admit);
    var l := s.tasks[i].lane;
    Stays(c, z);
    assert i < c.workers ==> WorkerShape(c, s, s.tasks[i]);
    Leasing(c, s, i);
    t := z;
    if s.tasks[i].phase.Flagged? {
      t := GoDrop(c, z, z, i);
      assert t.cells == z.cells[l := z.cells[l].(waker := None)];
    }
    Staged(c, s, t, i);
  }

  lemma Staged(c: Config, s: State, t: State, i: nat)
    requires Enabled(s, Admit) && 0 < c.workers <= i < |s.tasks| && s.tasks[i].lane == s.free[|s.free| - 1]
    requires var z := DoAdmit(s); var l := s.tasks[i].lane;
      && z.cells[l].result.None? && (forall k :: 0 <= k < |s.tasks| ==> Held(z.tasks[k]) != Some(l))
      && Runnable(c, z)
      && t.tasks == z.tasks[i := z.tasks[i].(phase := Unwaked)] && t.channel == z.channel
      && (t.cells == z.cells || t.cells == z.cells[l := z.cells[l].(waker := None)])
    ensures Stage(c, t, i, |s.tasks|, s.tasks[i].lane, |s.tasks|)
  {
    var z := DoAdmit(s);
    forall m | 0 <= m < |t.cells| ensures Callee(c, t, t.cells[m].waker) { assert Callee(c, z, z.cells[m].waker); }
  }

  /** What holds of the lane just leased, but for stream `i`. */
  lemma Leasing(c: Config, s: State, i: nat)
    requires Inv(c, s) && Enabled(s, Admit) && c.workers <= i < |s.tasks|
    requires s.tasks[i].lane == s.free[|s.free| - 1]
    ensures var z := DoAdmit(s); var l := s.tasks[i].lane;
      && 0 < c.workers && l < |z.cells| && z.cells[l].result.None?
      && (forall k :: 0 <= k < |s.tasks| ==> Held(z.tasks[k]) != Some(l))
      && Runnable(c, z)
  {
    var z, l := DoAdmit(s), s.tasks[i].lane;
    FreeAlone(c, s, |s.free| - 1);
    assert forall k :: 0 <= k < |s.tasks| ==> z.tasks[k] == s.tasks[k];
    assert WorkerShape(c, s, s.tasks[0]);
    forall k | 0 <= k < |z.channel| ensures z.channel[k].lane < |z.cells| { assert InFlightIds(c, s, s.channel[k]); }
    forall m | 0 <= m < |z.cells| ensures Callee(c, z, z.cells[m].waker) { assert CellShape(c, s, m); }
  }

  /** After such a lease some continuation leaves a stream waiting for nothing, though all its
      leases are quiet. */
  lemma OvertakenBreaks(c: Config, s: State, i: nat) returns (t: State)
    requires Inv(c, s) && Enabled(s, Admit) && i < |s.tasks|
    requires RoleOf(s.tasks[i].phase).Drops? && s.tasks[i].lane == s.free[|s.free| - 1]
    ensures Reaches(c, Next(c, s, Admit), t) && !NobodyAbandoned(c, t)
  {
    var j, l: nat := |s.tasks|, s.tasks[i].lane;
    var z, a := Overtaken(c, s, i);
    FreeAlone(c, s, |s.free| - 1);
    LaneCount(c, s);
    var b := Equips(c, z, a, j);
    assert Stage(c, b, i, j, l, j) by { StageAfter(c, a, b, i, j, l); }
    var d := Submits(c, z, b, j);
    assert Stage(c, d, i, j, l, j) by { StageAfter(c, b, d, i, j, l); }
    assert Sent(d.channel, j, l, |s.channel|);
    var e := Drives(c, z, d, i, j, l, |s.channel|);
    t := Steals(c, z, e, i, j, l);
  }

  /** Steps of stream `j` keep the stage. */
  lemma StageAfter(c: Config, s: State, t: State, i: nat, j: nat, l: nat)
    requires Stage(c, s, i, j, l, j) && |t.tasks| == |s.tasks| && |t.cells| == |s.cells|
    requires t.tasks == s.tasks[j := t.tasks[j]] && t.tasks[j].lane == l
    requires t.cells == s.cells[l := t.cells[l]] && t.cells[l].result.None?
    requires t.cells[l].waker == s.cells[l].waker || t.cells[l].waker.None?
    requires t.channel == s.channel || t.channel == s.channel + [Work(l, j)]
    ensures Stage(c, t, i, j, l, j)
  {
    forall m | 0 <= m < |t.cells| ensures Callee(c, t, t.cells[m].waker) { assert Callee(c, s, s.cells[m].waker); }
  }

  /** Leasing the last free lane keeps every promise from then on exactly when no
      unfinished job drop refers to it. */
  lemma LeaseSafeIffQuiet(c: Config, s: State)
    requires Inv(c, s) && Enabled(s, Admit)
    ensures Quiet(s) <==> forall t :: Reaches(c, Next(c, s, Admit), t) ==> Promises(c, t)
    ensures Quiet(s) <==> Inv(c, Next(c, s, Admit))
  {
    var z := Next(c, s, Admit);
    if Quiet(s) {
      StepKeeps(c, s, Admit);
    }
    if Inv(c, z) {
      forall t | Reaches(c, z, t) ensures Promises(c, t) {
        var run :| QuietFrom(c, z, run) && run[|run| - 1] == t;
        QuietFromKeeps(c, z, run);
        InvPromises(c, t);
      }
    }
    if !Quiet(s) {
      var i :| 0 <= i < |s.tasks| && RoleOf(s.tasks[i].phase).Drops? && s.tasks[i].lane == s.free[|s.free| - 1];
      var t := OvertakenBreaks(c, s, i);
    }
  }

  lemma {:induction false} QuietFromKeeps(c: Config, z: State, run: seq<State>)
    requires Inv(c, z) && QuietFrom(c, z, run)
    ensures Inv(c, run[|run| - 1])
    decreases |run|
  {
    var n := |run| - 1;
    if n > 0 {
      var before := run[..n];
      forall k: nat | k + 1 < n ensures QuietAt(c, before, k) { assert QuietAt(c, run, k); }
      QuietFromKeeps(c, z, before);
      assert QuietAt(c, run, n - 1);
      QuietStepKeeps(c, run[n - 1], run[n]);
    }
  }

  /** Whatever the configuration, some run of the executor leaves a stream waiting for nothing. */
  lemma SplitDropBreaksAPromise(c: Config)
    requires 0 < c.workers && 0 < c.lanes
    ensures exists run :: Run(c, run) && !NobodyAbandoned(c, run[|run| - 1]) && !Promises(c, run[|run| - 1])
  {
    var before := HalfDroppedRun(c, Init(c));
    FromStartKeeps(c, before);
    var t := OvertakenBreaks(c, before[|before| - 1], c.workers);
    Completes(c, before, t);
  }

  lemma Completes(c: Config, before: seq<State>, t: State)
    requires 0 < c.workers && 0 < c.lanes && QuietFrom(c, Init(c), before)
    requires Enabled(before[|before| - 1], Admit) && Reaches(c, Next(c, before[|before| - 1], Admit), t)
    ensures exists run :: Run(c, run) && run[|run| - 1] == t
  {
    var after :| QuietFrom(c, Next(c, before[|before| - 1], Admit), after) && after[|after| - 1] == t;
    Joined(c, before, after);
    var run := before + after;
    assert Run(c, run) && run[|run| - 1] == t;
  }

  /** A run to a state in which a lane is free that the first stream is still dropping. */
  lemma HalfDroppedRun(c: Config, z: State) returns (run: seq<State>)
    requires 0 < c.workers && 0 < c.lanes && z == Init(c)
    ensures QuietFrom(c, z, run) && Enabled(run[|run| - 1], Admit)
    ensures var s := run[|run| - 1];
      && |s.tasks| > c.workers && RoleOf(s.tasks[c.workers].phase).Drops?
      && s.tasks[c.workers].lane == s.free[|s.free| - 1]
  {
    Stays(c, z);
    var s := HalfDropped(c, z);
    run :| QuietFrom(c, z, run) && run[|run| - 1] == s;
  }

  lemma FromStartKeeps(c: Config, run: seq<State>)
    requires 0 < c.workers && 0 < c.lanes && QuietFrom(c, Init(c), run)
    ensures Inv(c, run[|run| - 1])
  {
    InitKeeps(c);
    QuietFromKeeps(c, Init(c), run);
  }

  /** Two runs and the lease between them are one. */
  lemma Joined(c: Config, before: seq<State>, after: seq<State>)
    requires 0 < c.workers && 0 < c.lanes && QuietFrom(c, Init(c), before) && after != []
    requires Enabled(before[|before| - 1], Admit)
    requires QuietFrom(c, Next(c, before[|before| - 1], Admit), after)
    ensures Run(c, before + after)
  {
    var run := before + after;
    forall k | 0 <= k < |run| - 1 ensures Step(c, run[k], run[k + 1]) {
      if k < |before| - 1 {
        assert QuietAt(c, before, k);
      } else if k == |before| - 1 {
        assert run[k] == before[k] && run[k + 1] == after[0];
      } else {
        assert QuietAt(c, after, k - |before|);
      }
    }
  }

  /** The first stream has only stored its flag; worker 0 saw it and gave the lane back. */
  lemma HalfDropped(c: Config, z: State) returns (s: State)
    requires 0 < c.workers && 0 < c.lanes && z == Init(c) && Reaches(c, z, z)
    ensures Reaches(c, z, s) && |s.tasks| > c.workers && s.tasks[c.workers].phase.Flagged?
    ensures s.free != [] && s.free[|s.free| - 1] == s.tasks[c.workers].lane < |s.cells|
  {
    var i := c.workers;
    s := Go(c, z, z, Admit);
    s := Equips(c, z, s, i);
    s := Submits(c, z, s, i);
    s := Go(c, z, s, DropJob(i));
    s := Go(c, z, s, Advance(0));
    s := Skips(c, z, s);
  }
}
