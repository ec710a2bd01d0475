/**
  The methods of the lane executor (src/brotli_executor.rs) as they are written: fields
  of the shared core updated in place, one action after the other.

  Each atomic action of a task is proved to be its step of the `BrotliExecutor` machine,
  and each method to be what the task does when it takes its steps alone; so the machine
  runs the code in program order, and lets anything happen between two actions.
  `tasks`, `fault` and `releases` are the machine's bookkeeping.
*/
module BrotliCore {
  import opened Bags
  import opened BrotliExecutor
  import opened BrotliSteps

  /** The step of task `i`, where it has one. */
  function StepOf(c: Config, i: nat): State -> Option<State> {
    (s: State) => if Enabled(s, Advance(i)) then Some(Next(c, s, Advance(i))) else None
  }

  function Iterate<S>(f: S -> Option<S>, s: S, n: nat): S
    decreases n
  {
    if n == 0 || f(s).None? then s else Iterate(f, f(s).value, n - 1)
  }

  /** `n` steps of task `i` in a row. */
  function Alone(c: Config, s: State, i: nat, n: nat): State { Iterate(StepOf(c, i), s, n) }

  lemma {:induction false} IterateKeeps<S(!new)>(f: S -> Option<S>, p: S -> bool, s: S, n: nat)
    requires p(s) && forall x :: p(x) && f(x).Some? ==> p(f(x).value)
    ensures p(Iterate(f, s, n))
    decreases n
  {
    if n > 0 && f(s).Some? {
      IterateKeeps(f, p, f(s).value, n - 1);
    }
  }

  /** What a task does alone keeps every invariant of the machine. */
  lemma AloneKeeps(c: Config, s: State, i: nat, n: nat)
    requires Inv(c, s)
    ensures Inv(c, Alone(c, s, i, n))
  {
    var p := (x: State) => Inv(c, x);
    forall x: State | p(x) && StepOf(c, i)(x).Some? ensures p(StepOf(c, i)(x).value) {
      StepKeeps(c, x, Advance(i));
    }
    IterateKeeps(StepOf(c, i), p, s, n);
  }

  /** `s'` is `s` after one step of task `i`. */
  predicate Then(c: Config, s: State, i: nat, s': State) {
    Enabled(s, Advance(i)) && s' == Next(c, s, Advance(i))
  }

  function After(c: Config, i: nat): (State, State) -> bool { (s, s') => Then(c, s, i, s') }

  predicate Linked<S>(r: (S, S) -> bool, trace: seq<S>, k: nat)
    requires k + 1 < |trace|
  {
    r(trace[k], trace[k + 1])
  }

  predicate IsTrace<S>(r: (S, S) -> bool, trace: seq<S>) {
    forall k: nat {:trigger Linked(r, trace, k)} :: k + 1 < |trace| ==> Linked(r, trace, k)
  }

  ghost predicate Path<S(!new)>(r: (S, S) -> bool, s: S, n: nat, s': S) {
    exists trace :: IsTrace(r, trace) && |trace| == n + 1 && trace[0] == s && trace[n] == s'
  }

  lemma PathOn<S(!new)>(r: (S, S) -> bool, s: S, m: nat, s': S, n: nat, s'': S)
    requires Path(r, s, m, s') && Path(r, s', n, s'')
    ensures Path(r, s, m + n, s'')
  {
    var x :| IsTrace(r, x) && |x| == m + 1 && x[0] == s && x[m] == s';
    var y :| IsTrace(r, y) && |y| == n + 1 && y[0] == s' && y[n] == s'';
    var trace := x + y[1..];
    forall k: nat | k + 1 < |trace| ensures Linked(r, trace, k) {
      if k < m {
        assert Linked(r, x, k);
      } else {
        assert Linked(r, y, k - m);
      }
    }
    assert IsTrace(r, trace);
  }

  /** `n` steps of task `i`, all of them possible, lead from `s` to `s'`. */
  ghost predicate Leads(c: Config, s: State, i: nat, n: nat, s': State) { Path(After(c, i), s, n, s') }

  lemma {:induction false} TraceAlone(c: Config, i: nat, trace: seq<State>)
    requires trace != [] && IsTrace(After(c, i), trace)
    ensures Alone(c, trace[0], i, |trace| - 1) == trace[|trace| - 1]
    decreases |trace|
  {
    if |trace| > 1 {
      assert Linked(After(c, i), trace, 0);
      var rest := trace[1..];
      forall k: nat | k + 1 < |rest| ensures Linked(After(c, i), rest, k) {
        assert Linked(After(c, i), trace, k + 1);
      }
      TraceAlone(c, i, rest);
    }
  }

  lemma LeadsAlone(c: Config, s: State, i: nat, n: nat, s': State)
    requires Leads(c, s, i, n, s')
    ensures Alone(c, s, i, n) == s'
  {
    var trace :| IsTrace(After(c, i), trace) && |trace| == n + 1 && trace[0] == s && trace[n] == s';
    TraceAlone(c, i, trace);
  }

  lemma LeadsOn(c: Config, s: State, i: nat, m: nat, s': State, n: nat, s'': State)
    requires Leads(c, s, i, m, s') && Leads(c, s', i, n, s'')
    ensures Leads(c, s, i, m + n, s'')
  {
    PathOn(After(c, i), s, m, s', n, s'');
  }

  lemma LeadsOne(c: Config, s: State, i: nat, s': State)
    requires Then(c, s, i, s')
    ensures Leads(c, s, i, 1, s')
  {
    var trace := [s, s'];
    assert Linked(After(c, i), trace, 0);
    assert IsTrace(After(c, i), trace);
  }

  lemma LeadsNone(c: Config, s: State, i: nat)
    ensures Leads(c, s, i, 0, s)
  {
    assert IsTrace(After(c, i), [s]);
  }

  lemma LeadsNext(c: Config, o: State, i: nat, n: nat, s: State, s': State)
    requires Leads(c, o, i, n, s) && Then(c, s, i, s')
    ensures Leads(c, o, i, n + 1, s')
  {
    LeadsOne(c, s, i, s');
    LeadsOn(c, o, i, n, s, 1, s');
  }

  lemma LeadsPublish(c: Config, o: State, i: nat, n: nat, s: State, s': State)
    requires Leads(c, o, i, n, s) && i < c.workers && InBounds(s, i) && s.tasks[i].phase.Publishing?
    requires s' == DoPublish(s, i)
    ensures Leads(c, o, i, n + 1, s')
  {
    LeadsNext(c, o, i, n, s, s');
  }

  lemma LeadsTwo(c: Config, s0: State, i: nat, s1: State, s2: State)
    requires Then(c, s0, i, s1) && Then(c, s1, i, s2)
    ensures Leads(c, s0, i, 2, s2)
  {
    LeadsOne(c, s0, i, s1);
    LeadsOne(c, s1, i, s2);
    LeadsOn(c, s0, i, 1, s1, 1, s2);
  }

  lemma LeadsThree(c: Config, s0: State, i: nat, s1: State, s2: State, s3: State)
    requires Then(c, s0, i, s1) && Then(c, s1, i, s2) && Then(c, s2, i, s3)
    ensures Leads(c, s0, i, 3, s3)
  {
    LeadsTwo(c, s0, i, s1, s2);
    LeadsOne(c, s2, i, s3);
    LeadsOn(c, s0, i, 2, s2, 1, s3);
  }

  /** Storing the result leaves the waker, taking the waker leaves the result. */
  lemma StoredThenWoken(cells: seq<Cell>, l: nat, job: nat)
    requires l < |cells|
    ensures var mid := cells[l := cells[l].(result := Some(Work(l, job)))];
      && mid[l].waker == cells[l].waker
      && mid[l := mid[l].(waker := None)] == cells[l := cells[l].(result := Some(Work(l, job)), waker := None)]
  {
  }

  /** Task `i` still carries the same operation. */
  predicate SameWork(tasks: seq<Task>, tasks': seq<Task>, i: nat) {
    |tasks'| == |tasks| && (i < |tasks| ==> tasks'[i].job == tasks[i].job)
  }

  class Core {
    const config: Config
    var available: seq<nat>
    var channel: seq<Work>
    var lanes: seq<Cell>
    var active: int
    var queued: int
    var running: int
    var activeHigh: int
    var queuedHigh: int
    var runningHigh: int
    var tasks: seq<Task>
    var fault: bool
    var releases: seq<nat>

    function View(): State
      reads this
    {
      State(available, channel, lanes, tasks, active, queued, running, activeHigh, queuedHigh, runningHigh,
            fault, releases)
    }

    /** Task `i` has `lane` in hand and is at `phase`. */
    predicate At(i: nat, lane: nat, phase: Phase)
      reads this
    {
      i < |tasks| && tasks[i].lane == lane && lane < |lanes| && tasks[i].phase == phase
    }

    predicate Stream(i: nat, lane: nat, phase: Phase)
      reads this
    {
      config.workers <= i && At(i, lane, phase)
    }

    constructor (workers: nat, lanes: nat)
      ensures config == Config(workers, lanes) && View() == Init(config)
    {
      config := Config(workers, lanes);
      available := InitialFree(lanes);
      channel := [];
      this.lanes := seq(lanes, _ => Cell(None, None, false, false, 0));
      active, queued, running, activeHigh, queuedHigh, runningHigh := 0, 0, 0, 0, 0, 0;
      tasks, fault, releases := seq(workers, _ => Task(0, 0, Waiting, false)), false, [];
    }

    method Goto(i: nat, phase: Phase)
      requires i < |tasks|
      modifies this`tasks
      ensures tasks == old(tasks)[i := old(tasks)[i].(phase := phase)]
    {
      tasks := tasks[i := tasks[i].(phase := phase)];
    }

    // ------------------------------------------------------------ try_admit

    method CountActive(i: nat, lane: nat)
      requires Stream(i, lane, Popped)
      modifies this`active, this`tasks
      ensures Then(config, old(View()), i, View()) && Stream(i, lane, Counted(active))
    {
      active := active + 1;
      Goto(i, Counted(active));
    }

    method RaiseActive(i: nat, lane: nat, n: int)
      requires Stream(i, lane, Counted(n))
      modifies this`activeHigh, this`tasks
      ensures Then(config, old(View()), i, View()) && Stream(i, lane, Admitted)
    {
      activeHigh := Max(activeHigh, n);
      Goto(i, Admitted);
    }

    method InstallEncoder(i: nat, lane: nat)
      requires Stream(i, lane, Admitted)
      modifies this`lanes, this`fault, this`tasks
      ensures Then(config, old(View()), i, View()) && Stream(i, lane, Equipped)
    {
      fault := fault || lanes[lane].encoder;
      lanes := lanes[lane := lanes[lane].(encoder := true)];
      Goto(i, Equipped);
    }

    method ClearFlag(i: nat, lane: nat)
      requires Stream(i, lane, Equipped)
      modifies this`lanes, this`tasks
      ensures Then(config, old(View()), i, View()) && Stream(i, lane, Cleared)
    {
      lanes := lanes[lane := lanes[lane].(cancelled := false)];
      Goto(i, Cleared);
    }

    method ClearWaker(i: nat, lane: nat)
      requires Stream(i, lane, Cleared)
      modifies this`lanes, this`tasks
      ensures Then(config, old(View()), i, View()) && Stream(i, lane, Checked)
    {
      lanes := lanes[lane := lanes[lane].(waker := None)];
      Goto(i, Checked);
    }

    method CheckResult(i: nat, lane: nat)
      requires Stream(i, lane, Checked)
      modifies this`fault, this`tasks
      ensures Then(config, old(View()), i, View()) && Stream(i, lane, Leased)
    {
      fault := fault || lanes[lane].result.Some?;
      Goto(i, Leased);
    }

    /** `increment_with_high_water` on the active lanes. */
    method IncrementActive(i: nat, lane: nat)
      requires Stream(i, lane, Popped)
      modifies this`active, this`activeHigh, this`tasks
      ensures Leads(config, old(View()), i, 2, View()) && Stream(i, lane, Admitted)
    {
      ghost var s0 := View();
      CountActive(i, lane);
      ghost var s1 := View();
      RaiseActive(i, lane, active);
      LeadsTwo(config, s0, i, s1, View());
    }

    /** The last checks of `try_admit`: the cell of the lane is as new. */
    method ResetCell(i: nat, lane: nat)
      requires Stream(i, lane, Equipped)
      modifies this`lanes, this`fault, this`tasks
      ensures Leads(config, old(View()), i, 3, View()) && Stream(i, lane, Leased)
    {
      ghost var s0 := View();
      ClearFlag(i, lane);
      ghost var s1 := View();
      ClearWaker(i, lane);
      ghost var s2 := View();
      CheckResult(i, lane);
      LeadsThree(config, s0, i, s1, s2, View());
    }

    method PopLane() returns (lane: nat)
      requires available != [] && available[|available| - 1] < |lanes| && config.workers <= |tasks|
      modifies this`available, this`lanes, this`tasks
      ensures Enabled(old(View()), Admit) && View() == Next(config, old(View()), Admit)
      ensures Stream(old(|tasks|), lane, Popped) && |tasks| == old(|tasks|) + 1
    {
      lane := available[|available| - 1];
      available := available[..|available| - 1];
      lanes := lanes[lane := lanes[lane].(lessee := |tasks|)];
      tasks := tasks + [Task(lane, |tasks|, Popped, false)];
    }

    /** The lane that was popped is equipped for its stream. */
    method Equip(i: nat, lane: nat)
      requires Stream(i, lane, Popped)
      modifies this
      ensures View() == Alone(config, old(View()), i, 6) && Stream(i, lane, Leased)
    {
      ghost var s0 := View();
      IncrementActive(i, lane);
      ghost var s2 := View();
      InstallEncoder(i, lane);
      ghost var s3 := View();
      LeadsOne(config, s2, i, s3);
      LeadsOn(config, s0, i, 2, s2, 1, s3);
      ResetCell(i, lane);
      LeadsOn(config, s0, i, 3, s3, 3, View());
      LeadsAlone(config, s0, i, 6, View());
    }

    /** `try_admit`: refused exactly when no lane is free. */
    method TryAdmit() returns (lane: Option<nat>)
      requires forall k :: 0 <= k < |available| ==> available[k] < |lanes|
      requires config.workers <= |tasks|
      modifies this
      ensures lane.None? <==> old(available) == []
      ensures lane.None? ==> View() == old(View())
      ensures lane.Some? ==>
        && Enabled(old(View()), Admit) && Stream(old(|tasks|), lane.value, Leased)
        && View() == Alone(config, Next(config, old(View()), Admit), old(|tasks|), 6)
    {
      if available == [] {
        return None;
      }
      var me := |tasks|;
      var id := PopLane();
      Equip(me, id);
      lane := Some(id);
    }

    // --------------------------------------------------------- release_lane

    method TakeEncoder(i: nat, lane: nat)
      requires At(i, lane, Releasing)
      modifies this`lanes, this`tasks
      ensures Then(config, old(View()), i, View()) && At(i, lane, Emptied)
      ensures lanes == old(lanes)[lane := old(lanes)[lane].(encoder := false)]
    {
      lanes := lanes[lane := lanes[lane].(encoder := false)];
      Goto(i, Emptied);
    }

    method CountInactive(i: nat, lane: nat)
      requires At(i, lane, Emptied)
      modifies this`active, this`fault, this`tasks
      ensures Then(config, old(View()), i, View()) && At(i, lane, Retired) && active == old(active) - 1
    {
      fault := fault || active <= 0;
      active := active - 1;
      Goto(i, Retired);
    }

    method PushLane(i: nat, lane: nat)
      requires At(i, lane, Retired)
      modifies this`available, this`releases, this`tasks
      ensures Then(config, old(View()), i, View()) && available == old(available) + [lane]
      ensures At(i, lane, if i < config.workers then Waiting else Gone)
    {
      available := available + [lane];
      releases := releases + [lanes[lane].lessee];
      Goto(i, if i < config.workers then Waiting else Gone);
    }

    /** `release_lane`, by task `i`: the lane is free after its lease is retired.  Here and
        below, task `i` was at `o`, `n` steps ago. */
    method ReleaseLane(i: nat, lane: nat, ghost o: State, ghost n: nat)
      requires At(i, lane, Releasing) && Leads(config, o, i, n, View())
      modifies this`lanes, this`active, this`fault, this`available, this`releases, this`tasks
      ensures Leads(config, o, i, n + 3, View())
      ensures At(i, lane, if i < config.workers then Waiting else Gone)
      ensures available == old(available) + [lane] && active == old(active) - 1
      ensures lanes == old(lanes)[lane := old(lanes)[lane].(encoder := false)]
    {
      ghost var s0 := View();
      TakeEncoder(i, lane);
      ghost var s1 := View();
      CountInactive(i, lane);
      ghost var s2 := View();
      PushLane(i, lane);
      LeadsThree(config, s0, i, s1, s2, View());
      LeadsOn(config, o, i, n, s0, 3, View());
    }

    // --------------------------------------------------------------- submit

    method CountQueued(i: nat, lane: nat)
      requires Stream(i, lane, Unflagged)
      modifies this`queued, this`tasks
      ensures Then(config, old(View()), i, View()) && Stream(i, lane, SubmitCounted(queued))
    {
      queued := queued + 1;
      Goto(i, SubmitCounted(queued));
    }

    method RaiseQueued(i: nat, lane: nat, n: int)
      requires Stream(i, lane, SubmitCounted(n))
      modifies this`queuedHigh, this`tasks
      ensures Then(config, old(View()), i, View()) && Stream(i, lane, SubmitReady)
    {
      queuedHigh := Max(queuedHigh, n);
      Goto(i, SubmitReady);
    }

    method TrySend(i: nat, lane: nat) returns (sent: bool)
      requires Stream(i, lane, SubmitReady)
      modifies this`channel, this`queued, this`fault, this`tasks
      ensures sent == (old(|channel|) < config.lanes)
      ensures Then(config, old(View()), i, View())
      ensures Stream(i, lane, if sent then Pending(false) else Leased)
      ensures sent ==> channel == old(channel) + [Work(lane, i)]
    {
      sent := |channel| < config.lanes;
      if sent {
        channel := channel + [Work(lane, i)];
        tasks := tasks[i := tasks[i].(phase := Pending(false), woken := false)];
      } else {
        queued := queued - 1;
        fault := true;
        Goto(i, Leased);
      }
    }

    method FlagSubmit(i: nat, lane: nat)
      requires Stream(i, lane, Leased)
      modifies this`lanes, this`tasks
      ensures View() == Next(config, old(View()), Action.Submit(i)) && Stream(i, lane, Unflagged)
    {
      lanes := lanes[lane := lanes[lane].(cancelled := false)];
      Goto(i, Unflagged);
    }

    /** `submit`: the work is in the channel, unless the channel is full. */
    method Submit(i: nat, lane: nat) returns (sent: bool)
      requires Stream(i, lane, Leased)
      modifies this
      ensures sent == (old(|channel|) < config.lanes)
      ensures View() == Alone(config, Next(config, old(View()), Action.Submit(i)), i, 3)
      ensures Stream(i, lane, if sent then Pending(false) else Leased)
      ensures sent ==> channel == old(channel) + [Work(lane, i)]
    {
      FlagSubmit(i, lane);
      ghost var s0 := View();
      CountQueued(i, lane);
      ghost var s1 := View();
      RaiseQueued(i, lane, queued);
      ghost var s2 := View();
      sent := TrySend(i, lane);
      LeadsThree(config, s0, i, s1, s2, View());
      LeadsAlone(config, s0, i, 3, View());
    }

    // ------------------------------------------------------------ BrotliJob

    method Sleep(i: nat, lane: nat)
      requires Stream(i, lane, Missed)
      modifies this`lanes, this`tasks
      ensures Leads(config, old(View()), i, 2, View()) && Stream(i, lane, Pending(true))
    {
      ghost var s0 := View();
      Register(i, lane);
      ghost var s1 := View();
      Recheck(i, lane);
      LeadsTwo(config, s0, i, s1, View());
    }

    /** `BrotliJob::poll`: the result and with it the lane, or a registered waker. */
    method PollJob(i: nat, lane: nat, polled: bool) returns (ready: bool)
      requires Stream(i, lane, Pending(polled))
      modifies this
      ensures ready == old(lanes)[lane].result.Some?
      ensures View() == Alone(config, Next(config, old(View()), Poll(i)), i, if ready then 0 else 2)
      ensures Stream(i, lane, if ready then Leased else Pending(true))
    {
      ready := lanes[lane].result.Some?;
      if ready {
        lanes := lanes[lane := lanes[lane].(result := None)];
        Goto(i, Leased);
        assert View() == Next(config, old(View()), Poll(i));
        return;
      }
      tasks := tasks[i := tasks[i].(phase := Missed, woken := false)];
      ghost var s0 := View();
      assert s0 == Next(config, old(View()), Poll(i));
      Sleep(i, lane);
      LeadsAlone(config, s0, i, 2, View());
    }

    method Register(i: nat, lane: nat)
      requires Stream(i, lane, Missed)
      modifies this`lanes, this`tasks
      ensures Then(config, old(View()), i, View()) && Stream(i, lane, Registered)
    {
      lanes := lanes[lane := lanes[lane].(waker := Some(i))];
      Goto(i, Registered);
    }

    /** Close the race with a publication before the waker was there. */
    method Recheck(i: nat, lane: nat)
      requires Stream(i, lane, Registered)
      modifies this`tasks
      ensures Then(config, old(View()), i, View()) && Stream(i, lane, Pending(true))
    {
      tasks := tasks[i := tasks[i].(phase := Pending(true), woken := tasks[i].woken || lanes[lane].result.Some?)];
    }

    method TakeWaker(i: nat, lane: nat)
      requires Stream(i, lane, Flagged)
      modifies this`lanes, this`tasks
      ensures Then(config, old(View()), i, View()) && Stream(i, lane, Unwaked)
      ensures lanes[lane].result == old(lanes)[lane].result
    {
      lanes := lanes[lane := lanes[lane].(waker := None)];
      Goto(i, Unwaked);
    }

    method TakeResult(i: nat, lane: nat) returns (taken: bool)
      requires Stream(i, lane, Unwaked)
      modifies this`lanes, this`tasks
      ensures taken == old(lanes)[lane].result.Some?
      ensures Then(config, old(View()), i, View()) && Stream(i, lane, if taken then Releasing else Gone)
    {
      taken := lanes[lane].result.Some?;
      if taken {
        lanes := lanes[lane := lanes[lane].(result := None)];
        Goto(i, Releasing);
      } else {
        Goto(i, Gone);
      }
    }

    /** `BrotliJob::drop`: a completion that is there is taken, and its lane given back. */
    method DropJob(i: nat, lane: nat, polled: bool)
      requires Stream(i, lane, Pending(polled))
      modifies this
      ensures View() == Alone(config, Next(config, old(View()), Action.DropJob(i)), i,
                              if old(lanes)[lane].result.Some? then 5 else 2)
      ensures Stream(i, lane, Gone)
      ensures available == old(available) + (if old(lanes)[lane].result.Some? then [lane] else [])
    {
      FlagDrop(i, lane, polled);
      DropRest(i, lane);
    }

    /** `BrotliJob::drop` after its flag store. */
    method DropRest(i: nat, lane: nat)
      requires Stream(i, lane, Flagged)
      modifies this`lanes, this`active, this`fault, this`available, this`releases, this`tasks
      ensures View() == Alone(config, old(View()), i, if old(lanes)[lane].result.Some? then 5 else 2)
      ensures Stream(i, lane, Gone)
      ensures available == old(available) + (if old(lanes)[lane].result.Some? then [lane] else [])
    {
      ghost var s0 := View();
      var taken := FinishDrop(i, lane);
      if taken {
        ReleaseLane(i, lane, s0, 2);
        LeadsAlone(config, s0, i, 5, View());
      } else {
        LeadsAlone(config, s0, i, 2, View());
      }
    }

    method FlagDrop(i: nat, lane: nat, polled: bool)
      requires Stream(i, lane, Pending(polled))
      modifies this`lanes, this`tasks
      ensures View() == Next(config, old(View()), Action.DropJob(i)) && Stream(i, lane, Flagged)
      ensures lanes[lane].result == old(lanes)[lane].result
    {
      lanes := lanes[lane := lanes[lane].(cancelled := true)];
      Goto(i, Flagged);
    }

    method FinishDrop(i: nat, lane: nat) returns (taken: bool)
      requires Stream(i, lane, Flagged)
      modifies this`lanes, this`tasks
      ensures taken == old(lanes)[lane].result.Some?
      ensures Leads(config, old(View()), i, 2, View()) && Stream(i, lane, if taken then Releasing else Gone)
    {
      ghost var s0 := View();
      TakeWaker(i, lane);
      ghost var s1 := View();
      taken := TakeResult(i, lane);
      LeadsTwo(config, s0, i, s1, View());
    }

    // ---------------------------------------------------------- worker_loop

    predicate Worker(i: nat, lane: nat, phase: Phase)
      reads this
    {
      i < config.workers && At(i, lane, phase)
    }

    method Receive(i: nat) returns (lane: nat)
      requires i < config.workers && i < |tasks| && tasks[i].phase == Waiting && tasks[i].lane < |lanes|
      requires channel != [] && channel[0].lane < |lanes|
      modifies this`channel, this`tasks
      ensures Then(config, old(View()), i, View())
      ensures lane == old(channel)[0].lane && Worker(i, lane, Received) && tasks[i].job == old(channel)[0].job
      ensures channel == old(channel)[1..] && |tasks| == old(|tasks|)
    {
      lane := channel[0].lane;
      tasks := tasks[i := Task(lane, channel[0].job, Received, false)];
      channel := channel[1..];
    }

    method CountDequeued(i: nat, lane: nat)
      requires Worker(i, lane, Received)
      modifies this`queued, this`tasks
      ensures Then(config, old(View()), i, View()) && Worker(i, lane, Dequeued) && queued == old(queued) - 1
      ensures SameWork(old(tasks), tasks, i)
    {
      queued := queued - 1;
      Goto(i, Dequeued);
    }

    method CountRunning(i: nat, lane: nat)
      requires Worker(i, lane, Dequeued)
      modifies this`running, this`tasks
      ensures Then(config, old(View()), i, View()) && Worker(i, lane, RunCounted(running))
      ensures running == old(running) + 1
      ensures SameWork(old(tasks), tasks, i)
    {
      running := running + 1;
      Goto(i, RunCounted(running));
    }

    method RaiseRunning(i: nat, lane: nat, n: int)
      requires Worker(i, lane, RunCounted(n))
      modifies this`runningHigh, this`tasks
      ensures Then(config, old(View()), i, View()) && Worker(i, lane, Started)
      ensures SameWork(old(tasks), tasks, i)
    {
      runningHigh := Max(runningHigh, n);
      Goto(i, Started);
    }

    method StopSkipped(i: nat, lane: nat)
      requires Worker(i, lane, Skipping)
      modifies this`running, this`tasks
      ensures Then(config, old(View()), i, View()) && Worker(i, lane, Releasing) && running == old(running) - 1
    {
      running := running - 1;
      Goto(i, Releasing);
    }

    method Encode(i: nat, lane: nat)
      requires Worker(i, lane, Encoding)
      modifies this`fault, this`tasks
      ensures Then(config, old(View()), i, View()) && Worker(i, lane, Encoded)
      ensures SameWork(old(tasks), tasks, i)
    {
      fault := fault || !lanes[lane].encoder;
      Goto(i, Encoded);
    }

    method StopRunning(i: nat, lane: nat)
      requires Worker(i, lane, Encoded)
      modifies this`running, this`tasks
      ensures Then(config, old(View()), i, View()) && Worker(i, lane, Publishing) && running == old(running) - 1
      ensures SameWork(old(tasks), tasks, i)
    {
      running := running - 1;
      Goto(i, Publishing);
    }

    method CheckCancelled(i: nat, lane: nat) returns (skip: bool)
      requires Worker(i, lane, Started)
      modifies this`tasks
      ensures skip == lanes[lane].cancelled && SameWork(old(tasks), tasks, i)
      ensures Then(config, old(View()), i, View()) && Worker(i, lane, if skip then Skipping else Encoding)
    {
      skip := lanes[lane].cancelled;
      Goto(i, if skip then Skipping else Encoding);
    }

    /** `LaneCell::publish` under the result lock: the flag decides. */
    method StoreResult(i: nat, lane: nat, ghost o: State, ghost n: nat) returns (stored: bool)
      requires Worker(i, lane, Publishing) && Leads(config, o, i, n, View())
      modifies this`lanes, this`fault, this`tasks
      ensures stored == !old(lanes)[lane].cancelled
      ensures Leads(config, o, i, n + 1, View()) && Worker(i, lane, if stored then Waking else Releasing)
      ensures stored ==> lanes == old(lanes)[lane := old(lanes)[lane].(result := Some(Work(lane, old(tasks)[i].job)))]
      ensures !stored ==> lanes == old(lanes)
      ensures SameWork(old(tasks), tasks, i)
    {
      ghost var s0 := View();
      stored := !lanes[lane].cancelled;
      if stored {
        fault := fault || lanes[lane].result.Some?;
        lanes := lanes[lane := lanes[lane].(result := Some(Work(lane, tasks[i].job)))];
        Goto(i, Waking);
      } else {
        Goto(i, Releasing);
      }
      LeadsPublish(config, o, i, n, s0, View());
    }

    method TakeSleeper(i: nat, lane: nat) returns (sleeper: Option<nat>)
      requires Worker(i, lane, Waking)
      modifies this`lanes, this`tasks
      ensures sleeper == old(lanes)[lane].waker && |tasks| == old(|tasks|)
      ensures lanes == old(lanes)[lane := old(lanes)[lane].(waker := None)]
      ensures Then(config, old(View()), i, View())
      ensures Worker(i, lane, if sleeper.Some? then Notifying(sleeper.value) else Waiting)
    {
      sleeper := lanes[lane].waker;
      if sleeper.Some? {
        lanes := lanes[lane := lanes[lane].(waker := None)];
        Goto(i, Notifying(sleeper.value));
      } else {
        Goto(i, Waiting);
      }
    }

    method Notify(i: nat, lane: nat, sleeper: nat)
      requires Worker(i, lane, Notifying(sleeper)) && sleeper < |tasks| && sleeper != i
      modifies this`tasks
      ensures Then(config, old(View()), i, View()) && Worker(i, lane, Waiting)
      ensures sleeper < |tasks| && tasks[sleeper].woken
    {
      tasks := tasks[sleeper := tasks[sleeper].(woken := true)];
      Goto(i, Waiting);
    }

    /** The worker has the first message and skips it exactly if the flag of its lane is set. */
    method BeginWork(i: nat, ghost o: State, ghost n: nat) returns (lane: nat, skip: bool)
      requires i < config.workers && i < |tasks| && tasks[i].phase == Waiting && tasks[i].lane < |lanes|
      requires channel != [] && channel[0].lane < |lanes| && Leads(config, o, i, n, View())
      modifies this`channel, this`queued, this`running, this`runningHigh, this`tasks
      ensures Leads(config, o, i, n + 5, View()) && Worker(i, lane, if skip then Skipping else Encoding)
      ensures Work(lane, tasks[i].job) == old(channel)[0] && channel == old(channel)[1..] && |tasks| == old(|tasks|)
      ensures skip == lanes[lane].cancelled && queued == old(queued) - 1 && running == old(running) + 1
    {
      lane := TakeMessage(i, o, n);
      skip := CountAndCheck(i, lane, o, n + 2);
    }

    method TakeMessage(i: nat, ghost o: State, ghost n: nat) returns (lane: nat)
      requires i < config.workers && i < |tasks| && tasks[i].phase == Waiting && tasks[i].lane < |lanes|
      requires channel != [] && channel[0].lane < |lanes| && Leads(config, o, i, n, View())
      modifies this`channel, this`queued, this`tasks
      ensures Leads(config, o, i, n + 2, View()) && Worker(i, lane, Dequeued)
      ensures Work(lane, tasks[i].job) == old(channel)[0] && channel == old(channel)[1..] && |tasks| == old(|tasks|)
      ensures queued == old(queued) - 1
    {
      ghost var s0 := View();
      lane := Receive(i);
      ghost var s1 := View();
      CountDequeued(i, lane);
      LeadsTwo(config, s0, i, s1, View());
      LeadsOn(config, o, i, n, s0, 2, View());
    }

    method CountAndCheck(i: nat, lane: nat, ghost o: State, ghost n: nat) returns (skip: bool)
      requires Worker(i, lane, Dequeued) && Leads(config, o, i, n, View())
      modifies this`running, this`runningHigh, this`tasks
      ensures Leads(config, o, i, n + 3, View()) && Worker(i, lane, if skip then Skipping else Encoding)
      ensures skip == lanes[lane].cancelled && running == old(running) + 1 && SameWork(old(tasks), tasks, i)
    {
      ghost var s0 := View();
      CountRunning(i, lane);
      ghost var s1 := View();
      RaiseRunning(i, lane, running);
      ghost var s2 := View();
      skip := CheckCancelled(i, lane);
      LeadsThree(config, s0, i, s1, s2, View());
      LeadsOn(config, o, i, n, s0, 3, View());
    }

    /** Work that was cancelled before it ran: its lane is back on the free list. */
    method SkipWork(i: nat, lane: nat, ghost o: State, ghost n: nat)
      requires Worker(i, lane, Skipping) && Leads(config, o, i, n, View())
      modifies this`running, this`lanes, this`active, this`fault, this`available, this`releases, this`tasks
      ensures Leads(config, o, i, n + 4, View()) && Worker(i, lane, Waiting)
      ensures available == old(available) + [lane] && active == old(active) - 1 && running == old(running) - 1
      ensures lanes == old(lanes)[lane := old(lanes)[lane].(encoder := false)]
    {
      ghost var s0 := View();
      StopSkipped(i, lane);
      LeadsNext(config, o, i, n, s0, View());
      ReleaseLane(i, lane, o, n + 1);
    }

    method EncodeWork(i: nat, lane: nat, ghost o: State, ghost n: nat)
      requires Worker(i, lane, Encoding) && Leads(config, o, i, n, View())
      modifies this`fault, this`running, this`tasks
      ensures Leads(config, o, i, n + 2, View()) && Worker(i, lane, Publishing)
      ensures running == old(running) - 1 && SameWork(old(tasks), tasks, i)
    {
      ghost var s0 := View();
      Encode(i, lane);
      ghost var s1 := View();
      StopRunning(i, lane);
      LeadsTwo(config, s0, i, s1, View());
      LeadsOn(config, o, i, n, s0, 2, View());
    }

    /** Either the completion is in the cell and its waker was called, or nobody wants it and
        the lane is back on the free list. */
    predicate Published(lane: nat, job: nat, stored: bool, before: seq<Cell>, free: seq<nat>, count: int)
      reads this
      requires lane < |before|
    {
      var x := before[lane];
      if stored then
        && lanes == before[lane := x.(result := Some(Work(lane, job)), waker := None)]
        && available == free && active == count
        && (x.waker.Some? ==> x.waker.value < |tasks| && tasks[x.waker.value].woken)
      else
        lanes == before[lane := x.(encoder := false)] && available == free + [lane] && active == count - 1
    }

    /** `LaneCell::publish` after the result lock: whoever waits is woken. */
    method WakeUp(i: nat, lane: nat, ghost o: State, ghost n: nat) returns (ghost n': nat)
      requires Worker(i, lane, Waking) && Leads(config, o, i, n, View())
      requires lanes[lane].waker.Some? ==> config.workers <= lanes[lane].waker.value < |tasks|
      modifies this`lanes, this`tasks
      ensures Leads(config, o, i, n', View()) && Worker(i, lane, Waiting)
      ensures lanes == old(lanes)[lane := old(lanes)[lane].(waker := None)]
      ensures var waker := old(lanes)[lane].waker;
        waker.Some? ==> waker.value < |tasks| && tasks[waker.value].woken
    {
      ghost var s0 := View();
      var sleeper := TakeSleeper(i, lane);
      ghost var s1 := View();
      LeadsNext(config, o, i, n, s0, s1);
      n' := n + 1;
      if sleeper.Some? {
        Notify(i, lane, sleeper.value);
        LeadsNext(config, o, i, n', s1, View());
        n' := n + 2;
      }
    }

    /** `LaneCell::publish`, and the drop of a completion that nobody wants. */
    method PublishWork(i: nat, lane: nat, ghost o: State, ghost n: nat) returns (stored: bool, ghost n': nat)
      requires Worker(i, lane, Publishing) && Leads(config, o, i, n, View())
      requires lanes[lane].waker.Some? ==> config.workers <= lanes[lane].waker.value < |tasks|
      modifies this`lanes, this`active, this`fault, this`available, this`releases, this`tasks
      ensures Leads(config, o, i, n', View()) && Worker(i, lane, Waiting)
      ensures stored == !old(lanes)[lane].cancelled
      ensures Published(lane, old(tasks)[i].job, stored, old(lanes), old(available), old(active))
    {
      stored := StoreResult(i, lane, o, n);
      if stored {
        StoredThenWoken(old(lanes), lane, old(tasks)[i].job);
        n' := WakeUp(i, lane, o, n + 1);
      } else {
        ReleaseLane(i, lane, o, n + 1);
        n' := n + 4;
      }
    }

    /** Work that is carried out and published. */
    method FinishWork(i: nat, lane: nat, ghost o: State, ghost n: nat) returns (stored: bool, ghost n': nat)
      requires Worker(i, lane, Encoding) && Leads(config, o, i, n, View())
      requires lanes[lane].waker.Some? ==> config.workers <= lanes[lane].waker.value < |tasks|
      modifies this`running, this`lanes, this`active, this`fault, this`available, this`releases, this`tasks
      ensures Leads(config, o, i, n', View()) && Worker(i, lane, Waiting) && running == old(running) - 1
      ensures stored == !old(lanes)[lane].cancelled
      ensures Published(lane, old(tasks)[i].job, stored, old(lanes), old(available), old(active))
    {
      EncodeWork(i, lane, o, n);
      stored, n' := PublishWork(i, lane, o, n + 2);
    }

    /** One turn of `worker_loop`, undisturbed: the flag that the first message's lane has at
        the start decides whether its completion is stored or its lane given back. */
    method ServeOne(i: nat) returns (ghost n: nat)
      requires i < config.workers && i < |tasks| && tasks[i].phase == Waiting && tasks[i].lane < |lanes|
      requires channel != [] && channel[0].lane < |lanes|
      requires lanes[channel[0].lane].waker.Some? ==>
        config.workers <= lanes[channel[0].lane].waker.value < |tasks|
      modifies this
      ensures View() == Alone(config, old(View()), i, n)
      ensures channel == old(channel)[1..] && queued == old(queued) - 1 && running == old(running)
      ensures var w := old(channel)[0];
        Published(w.lane, w.job, !old(lanes)[w.lane].cancelled, old(lanes), old(available), old(active))
    {
      ghost var o := View();
      LeadsNone(config, o, i);
      var lane, skip := BeginWork(i, o, 0);
      if skip {
        SkipWork(i, lane, o, 5);
        n := 9;
      } else {
        var stored;
        stored, n := FinishWork(i, lane, o, 5);
      }
      LeadsAlone(config, o, i, n, View());
    }
  }

  /** In every state that the machine reaches, the methods find what they rely on. */
  lemma MethodsAreReady(c: Config, s: State)
    requires Inv(c, s)
    ensures forall k :: 0 <= k < |s.free| ==> s.free[k] < |s.cells|
    ensures forall k :: 0 <= k < |s.channel| ==> s.channel[k].lane < |s.cells|
    ensures forall i :: 0 <= i < |s.tasks| ==> s.tasks[i].lane < |s.cells|
    ensures forall l :: 0 <= l < |s.cells| && s.cells[l].waker.Some? ==>
      c.workers <= s.cells[l].waker.value < |s.tasks|
  {
    forall i | 0 <= i < |s.tasks| ensures s.tasks[i].lane < |s.cells| {
      assert if i < c.workers then WorkerShape(c, s, s.tasks[i]) else StreamShape(c, i, s.tasks[i]);
    }
    forall l | 0 <= l < |s.cells| && s.cells[l].waker.Some?
      ensures c.workers <= s.cells[l].waker.value < |s.tasks|
    {
      assert CellShape(c, s, l);
    }
    forall k | 0 <= k < |s.channel| ensures s.channel[k].lane < |s.cells| {
      assert InFlightIds(c, s, s.channel[k]);
    }
  }
}
