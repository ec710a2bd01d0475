/**
  What the executor promises, in every state of every run.
*/
module BrotliRuns {
  import opened Bags
  import opened BrotliExecutor
  import opened BrotliInvariant
  import opened BrotliSteps

  // ------------------------------------------------------------ whole runs

  /** One step of any task; `BrotliJob::drop` takes three of them. */
  ghost predicate Step(c: Config, s: State, s': State) {
    exists a :: Enabled(s, a) && s' == Next(c, s, a)
  }

  /** As `Step`, but a lane with an unfinished job drop is not leased again. */
  ghost predicate QuietStep(c: Config, s: State, s': State) {
    exists a :: Enabled(s, a) && (a.Admit? ==> Quiet(s)) && s' == Next(c, s, a)
  }

  /** The three actions of `BrotliJob::drop`, uninterrupted. */
  function DropWhole(c: Config, s: State, i: nat): State
    requires Enabled(s, DropJob(i)) && c.workers <= i
  {
    AdvanceJob(AdvanceJob(Next(c, s, DropJob(i)), i), i)
  }

  /** The machine in which `BrotliJob::drop` is one step. */
  ghost predicate AtomicStep(c: Config, s: State, s': State) {
    || (exists a :: Enabled(s, a) && !a.DropJob? && s' == Next(c, s, a))
    || (exists i :: c.workers <= i && Enabled(s, DropJob(i)) && s' == DropWhole(c, s, i))
  }

  ghost predicate Starts(c: Config, run: seq<State>) {
    0 < c.workers && 0 < c.lanes && run != [] && run[0] == Init(c)
  }

  ghost predicate Run(c: Config, run: seq<State>) {
    Starts(c, run) && forall k :: 0 <= k < |run| - 1 ==> Step(c, run[k], run[k + 1])
  }

  ghost predicate QuietRun(c: Config, run: seq<State>) {
    Starts(c, run) && forall k :: 0 <= k < |run| - 1 ==> QuietStep(c, run[k], run[k + 1])
  }

  ghost predicate AtomicRun(c: Config, run: seq<State>) {
    Starts(c, run) && forall k :: 0 <= k < |run| - 1 ==> AtomicStep(c, run[k], run[k + 1])
  }

  /** What the executor promises about one state. */
  ghost predicate Promises(c: Config, s: State) {
    && OneHolder(c, s) && LeasesReturnedOnce(c, s) && NothingStranded(c, s) && NobodyAbandoned(c, s)
    && WithinLimits(c, s) && PublishedIsWoken(c, s) && !s.fault
  }

  /** Free list, lease, channel, worker or result slot: every lane is in exactly one. */
  ghost predicate OneHolder(c: Config, s: State) {
    forall l: nat :: l < c.lanes ==> Holders(s, l) == 1
  }

  /** A lease is given back at most once, and has been as soon as it is not outstanding. */
  ghost predicate LeasesReturnedOnce(c: Config, s: State) {
    forall i: nat :: c.workers <= i < |s.tasks| && s.tasks[i].lane < |s.cells| ==>
      Tally(s.releases, Itself, i) == if Outstanding(s, i) then 0 else 1
  }

  /** A completion in a result slot has a stream that will take it, and the lane of a
      stream that is gone is free, leased again, or with the workers. */
  ghost predicate NothingStranded(c: Config, s: State) {
    && (forall l :: 0 <= l < |s.cells| && s.cells[l].result.Some? ==>
          var j := s.cells[l].result.value.job;
          j < |s.tasks| && s.tasks[j].lane == l
          && (RoleOf(s.tasks[j].phase).Waits? || RoleOf(s.tasks[j].phase).Drops?))
    && (forall i, l: nat :: GoneFrom(c, s, i, l) ==>
          s.cells[l].result.None? && Tally(s.channel, WorkLane, l) + Tally(s.tasks, Held, l) == 1)
  }

  /** The operation that stream `i` waits for is in the channel, with a worker, or finished
      in the cell of its lane. */
  predicate OwnWork(c: Config, s: State, i: nat)
    requires i < |s.tasks| && c.workers <= |s.tasks|
  {
    var w := Work(s.tasks[i].lane, i);
    || w in s.channel
    || (exists k :: 0 <= k < c.workers && RoleOf(s.tasks[k].phase).Carries?
                    && Work(s.tasks[k].lane, s.tasks[k].job) == w)
    || (w.lane < |s.cells| && s.cells[w.lane].result == Some(w))
  }

  /** Every stream that waits keeps its own operation until it takes the completion. */
  predicate NobodyAbandoned(c: Config, s: State) {
    && c.workers <= |s.tasks|
    && forall i :: c.workers <= i < |s.tasks| && RoleOf(s.tasks[i].phase).Waits? ==> OwnWork(c, s, i)
  }

  /** Stream `i` is gone but its lane `l` is not back yet. */
  predicate GoneFrom(c: Config, s: State, i: nat, l: nat) {
    && c.workers <= i < |s.tasks| && s.tasks[i].phase.Gone?
    && l < |s.cells| && s.cells[l].lessee == i && l !in s.free
  }

  ghost predicate WithinLimits(c: Config, s: State) {
    && 0 <= s.active <= c.lanes && s.activeHigh <= c.lanes
    && 0 <= s.queued <= c.lanes && s.queuedHigh <= c.lanes && |s.channel| <= c.lanes
    && 0 <= s.running <= c.lanes && s.running <= c.workers
    && s.runningHigh <= c.lanes && s.runningHigh <= c.workers
    && (forall i :: 0 <= i < |s.tasks| && s.tasks[i].phase.SubmitReady? ==> |s.channel| < c.lanes)
  }

  /** A job whose last poll returned Pending and whose result is published has been
      woken, unless the publishing worker has not yet finished. */
  ghost predicate PublishedIsWoken(c: Config, s: State) {
    forall i :: c.workers <= i < |s.tasks| && s.tasks[i].phase == Pending(true)
      && s.tasks[i].lane < |s.cells| && s.cells[s.tasks[i].lane].result.Some?
      && !WakingAt(c, s, s.tasks[i].lane) && !Called(c, s, i)
      ==> s.tasks[i].woken
  }

  lemma InvPromises(c: Config, s: State)
    requires Inv(c, s)
    ensures Promises(c, s)
  {
    InvLedger(c, s);
    InvStrandsNothing(c, s);
    InvAbandonsNobody(c, s);
    InvLimits(c, s);
    InvWoken(c, s);
  }

  lemma InvAbandonsNobody(c: Config, s: State)
    requires Inv(c, s)
    ensures NobodyAbandoned(c, s)
  {
    forall i | c.workers <= i < |s.tasks| && RoleOf(s.tasks[i].phase).Waits? ensures OwnWork(c, s, i) {
      WaitsForItsOwn(c, s, i);
    }
  }

  /** The one holder of a waiting stream's lane is the stream's own operation. */
  lemma WaitsForItsOwn(c: Config, s: State, i: nat)
    requires Inv(c, s) && c.workers <= i < |s.tasks| && RoleOf(s.tasks[i].phase).Waits?
    ensures OwnWork(c, s, i)
  {
    var l: nat := s.tasks[i].lane;
    assert StreamShape(c, i, s.tasks[i]) && StreamLink(c, s, i) && CellShape(c, s, l);
    assert Holders(s, l) == 1;
    Absent(s.free, Itself, l);
    if Tally(s.channel, WorkLane, l) >= 1 {
      var k := Find(s.channel, WorkLane, l);
      assert FlightOk(c, s, s.channel[k]);
      assert s.channel[k] == Work(l, i);
    } else if Tally(s.tasks, Held, l) >= 1 {
      var k := Find(s.tasks, Held, l);
      CarriedByAWorker(c, s, i, k);
    } else {
      var m := Find(s.cells, ResultLane, l);
      assert CellShape(c, s, m);
      assert CellLink(c, s, l);
    }
  }

  lemma CarriedByAWorker(c: Config, s: State, i: nat, k: nat)
    requires Inv(c, s) && c.workers <= i < |s.tasks| && RoleOf(s.tasks[i].phase).Waits?
    requires k < |s.tasks| && Held(s.tasks[k]) == Some(s.tasks[i].lane)
    ensures OwnWork(c, s, i)
  {
    assert StreamLink(c, s, i) && JobExcludes(s, i, k);
    assert RoleOf(s.tasks[k].phase).Carries?;
    assert k >= c.workers ==> StreamShape(c, k, s.tasks[k]);
    assert WorkerLink(c, s, k) && WorkerShape(c, s, s.tasks[k]);
    assert FlightOk(c, s, Work(s.tasks[k].lane, s.tasks[k].job));
  }

  lemma InvLedger(c: Config, s: State)
    requires Ledger(c, s)
    ensures LeasesReturnedOnce(c, s)
  {
    forall i: nat | c.workers <= i < |s.tasks| && s.tasks[i].lane < |s.cells|
      ensures Tally(s.releases, Itself, i) == if Outstanding(s, i) then 0 else 1
    {
      assert LedgerOf(s, i);
    }
  }

  lemma InvWoken(c: Config, s: State)
    requires Shape(c, s) && Wakes(c, s)
    ensures PublishedIsWoken(c, s)
  {
    forall i | c.workers <= i < |s.tasks| && s.tasks[i].phase == Pending(true)
        && s.cells[s.tasks[i].lane].result.Some?
        && !WakingAt(c, s, s.tasks[i].lane) && !Called(c, s, i)
      ensures s.tasks[i].woken
    {
      assert WakeOf(c, s, i);
    }
  }

  lemma InvLimits(c: Config, s: State)
    requires Inv(c, s)
    ensures WithinLimits(c, s)
  {
    CounterLimits(c, s);
    LaneCount(c, s);
    forall i | 0 <= i < |s.tasks| && s.tasks[i].phase.SubmitReady? ensures |s.channel| < c.lanes {
      LaneInHand(c, s, i);
    }
  }

  lemma InvStrandsNothing(c: Config, s: State)
    requires Inv(c, s)
    ensures NothingStranded(c, s)
  {
    forall l | 0 <= l < |s.cells| && s.cells[l].result.Some?
      ensures var j := s.cells[l].result.value.job;
        j < |s.tasks| && s.tasks[j].lane == l
        && (RoleOf(s.tasks[j].phase).Waits? || RoleOf(s.tasks[j].phase).Drops?)
    {
      assert CellLink(c, s, l) && CellShape(c, s, l);
    }
    forall i, l: nat | GoneFrom(c, s, i, l)
      ensures s.cells[l].result.None? && Tally(s.channel, WorkLane, l) + Tally(s.tasks, Held, l) == 1
    {
      GoneLane(c, s, i, l);
    }
  }

  lemma GoneLane(c: Config, s: State, i: nat, l: nat)
    requires Inv(c, s) && GoneFrom(c, s, i, l)
    ensures s.cells[l].result.None? && Tally(s.channel, WorkLane, l) + Tally(s.tasks, Held, l) == 1
  {
    assert CellLink(c, s, l) && CellShape(c, s, l);
    assert s.cells[l].result.None?;
    assert Holders(s, l) == 1;
    forall k | 0 <= k < |s.free| ensures Itself(s.free[k]) != Some(l) {}
    Absent(s.free, Itself, l);
    forall k | 0 <= k < |s.cells| ensures ResultLane(s.cells[k]) != Some(l) { assert CellShape(c, s, k); }
    Absent(s.cells, ResultLane, l);
  }

  lemma QuietStepKeeps(c: Config, s: State, s': State)
    requires Inv(c, s) && QuietStep(c, s, s')
    ensures Inv(c, s')
  {
    var a :| Enabled(s, a) && (a.Admit? ==> Quiet(s)) && s' == Next(c, s, a);
    StepKeeps(c, s, a);
  }

  /** Every run in which no lane is leased under an unfinished job drop keeps every promise. */
  lemma {:induction false} QuietRunsKeepPromises(c: Config, run: seq<State>)
    requires QuietRun(c, run)
    ensures forall k :: 0 <= k < |run| ==> Inv(c, run[k]) && Promises(c, run[k])
    decreases |run|
  {
    var n := |run| - 1;
    if n == 0 {
      InitKeeps(c);
    } else {
      QuietRunsKeepPromises(c, run[..n]);
      assert run[..n][n - 1] == run[n - 1];
      assert QuietStep(c, run[n - 1], run[n - 1 + 1]);
      QuietStepKeeps(c, run[n - 1], run[n]);
      forall k | 0 <= k < n ensures Inv(c, run[k]) && Promises(c, run[k]) { assert run[..n][k] == run[k]; }
    }
    InvPromises(c, run[n]);
  }

  ghost predicate NoDrop(s: State) {
    forall i :: 0 <= i < |s.tasks| ==> !RoleOf(s.tasks[i].phase).Drops?
  }

  /** Steps other than a job drop start none. */
  lemma NoDropStep(c: Config, s: State, a: Action)
    requires Enabled(s, a) && NoDrop(s) && !a.DropJob?
    ensures NoDrop(Next(c, s, a))
  {
    if a.Advance? {
      var i := a.task;
      assert !RoleOf(s.tasks[i].phase).Drops?;
      if RoleOf(s.tasks[i].phase).Returns? {
        assert NoDrop(AdvanceReturn(c, s, i));
      } else if i < c.workers {
        NoDropWorker(s, i);
      } else if Submitting(s.tasks[i].phase) {
        assert NoDrop(AdvanceSubmit(c, s, i));
      } else if RoleOf(s.tasks[i].phase).Leases? {
        assert NoDrop(AdvanceAdmit(s, i));
      } else {
        assert NoDrop(AdvanceJob(s, i));
      }
    }
  }

  lemma NoDropWorker(s: State, i: nat)
    requires Enabled(s, Advance(i)) && NoDrop(s)
    ensures NoDrop(AdvanceWorker(s, i))
  {
    var s' := AdvanceWorker(s, i);
    forall k | 0 <= k < |s'.tasks| ensures !RoleOf(s'.tasks[k].phase).Drops? {
      assert !RoleOf(s.tasks[k].phase).Drops?;
    }
  }

  lemma DropWholeKeeps(c: Config, s: State, i: nat)
    requires Inv(c, s) && NoDrop(s) && c.workers <= i && Enabled(s, DropJob(i))
    ensures Inv(c, DropWhole(c, s, i)) && NoDrop(DropWhole(c, s, i))
  {
    var s1 := Next(c, s, DropJob(i));
    DropStarts(c, s, i);
    DropContinues(c, s1, i);
    var s2 := AdvanceJob(s1, i);
    assert s2.tasks[i].phase == Unwaked;
    DropContinues(c, s2, i);
  }

  ghost predicate NoDropBut(s: State, i: nat) {
    forall k :: 0 <= k < |s.tasks| && k != i ==> !RoleOf(s.tasks[k].phase).Drops?
  }

  lemma DropStarts(c: Config, s: State, i: nat)
    requires Inv(c, s) && NoDrop(s) && c.workers <= i && Enabled(s, DropJob(i))
    ensures var s1 := Next(c, s, DropJob(i));
      Inv(c, s1) && i < |s1.tasks| && s1.tasks[i].phase == Flagged && NoDropBut(s1, i)
  {
    StepKeeps(c, s, DropJob(i));
  }

  lemma DropContinues(c: Config, s: State, i: nat)
    requires Inv(c, s) && c.workers <= i < |s.tasks| && RoleOf(s.tasks[i].phase).Drops? && NoDropBut(s, i)
    ensures InBounds(s, i) && Inv(c, AdvanceJob(s, i)) && NoDropBut(AdvanceJob(s, i), i)
    ensures InBounds(AdvanceJob(s, i), i)
    ensures s.tasks[i].phase.Unwaked? ==> NoDrop(AdvanceJob(s, i))
  {
    assert StreamShape(c, i, s.tasks[i]);
    JobStep(c, s, i);
  }

  lemma AtomicStepKeeps(c: Config, s: State, s': State)
    requires Inv(c, s) && NoDrop(s) && AtomicStep(c, s, s')
    ensures Inv(c, s') && NoDrop(s')
  {
    if a :| Enabled(s, a) && !a.DropJob? && s' == Next(c, s, a) {
      StepKeeps(c, s, a);
      NoDropStep(c, s, a);
    } else {
      var i :| c.workers <= i && Enabled(s, DropJob(i)) && s' == DropWhole(c, s, i);
      DropWholeKeeps(c, s, i);
    }
  }

  /** With `BrotliJob::drop` as one step, every run whatever keeps every promise. */
  lemma {:induction false} AtomicRunsKeepPromises(c: Config, run: seq<State>)
    requires AtomicRun(c, run)
    ensures forall k :: 0 <= k < |run| ==> Inv(c, run[k]) && NoDrop(run[k]) && Promises(c, run[k])
    decreases |run|
  {
    var n := |run| - 1;
    if n == 0 {
      InitKeeps(c);
    } else {
      AtomicRunsKeepPromises(c, run[..n]);
      var s, s' := run[n - 1], run[n];
      assert run[..n][n - 1] == s;
      assert AtomicStep(c, s, run[n - 1 + 1]);
      AtomicStepKeeps(c, s, s');
      forall k | 0 <= k < n ensures Inv(c, run[k]) && NoDrop(run[k]) && Promises(c, run[k]) {
        assert run[..n][k] == run[k];
      }
    }
    InvPromises(c, run[n]);
  }

  /** When every stream is gone and the workers wait on an empty channel, all lanes are
      free again, every counter is back at zero, and every lease was given back once. */
  lemma QuiescentReturnsAll(c: Config, s: State)
    requires Inv(c, s) && s.channel == []
    requires forall i :: 0 <= i < c.workers ==> s.tasks[i].phase.Waiting?
    requires forall i :: c.workers <= i < |s.tasks| ==> s.tasks[i].phase.Gone?
    ensures |s.free| == c.lanes && s.active == 0 && s.queued == 0 && s.running == 0
    ensures forall i: nat :: c.workers <= i < |s.tasks| ==> Tally(s.releases, Itself, i) == 1
  {
    InvStrandsNothing(c, s);
    assert forall i :: 0 <= i < |s.tasks| ==> RoleOf(s.tasks[i].phase).Out?;
    SizeZero(s.tasks, Held);
    SizeZero(s.tasks, QueuedLane);
    SizeZero(s.tasks, RunningLane);
    SizeZero(s.cells, ResultLane);
    LaneCount(c, s);
    SizeZero(s.tasks, ActiveLane);
    forall i: nat | c.workers <= i < |s.tasks| ensures Tally(s.releases, Itself, i) == 1 {
      LaneIsBack(c, s, i);
      assert LedgerOf(s, i);
    }
  }

  /** With nobody left to hold it, the lane of stream `i` is free. */
  lemma LaneIsBack(c: Config, s: State, i: nat)
    requires Inv(c, s) && c.workers <= i < |s.tasks| && s.channel == []
    requires Size(s.tasks, Held) == 0 && Size(s.cells, ResultLane) == 0
    ensures s.tasks[i].lane < |s.cells| && s.tasks[i].lane in s.free
  {
    var l: nat := s.tasks[i].lane;
    assert StreamShape(c, i, s.tasks[i]);
    assert Holders(s, l) == 1;
    if Tally(s.tasks, Held, l) >= 1 {
      var k := Find(s.tasks, Held, l);
      Has(s.tasks, Held, k, l);
    }
    if Tally(s.cells, ResultLane, l) >= 1 {
      var k := Find(s.cells, ResultLane, l);
      Has(s.cells, ResultLane, k, l);
    }
    var k := Find(s.free, Itself, l);
  }
}
