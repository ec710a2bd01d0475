/**
  The fixed-capacity Brotli lane executor (src/brotli_executor.rs).

  Streams and worker threads are tasks; every lock-held region and every atomic
  operation of the source is one step of one task, so steps of different tasks
  interleave freely.  Tasks `0 .. workers` are the worker threads, every later
  task is one stream, from the moment it pops a lane until it is gone.

  `BrotliJob::drop` is NOT one step: its flag store, waker take and result take
  are three.  `Quiet` is the extra condition under which that is harmless, and
  `AtomicStep` is the machine in which the three are fused.
*/
module BrotliExecutor {
  import opened Bags

  datatype Phase =
      // try_admit, in program order
    | Popped | Counted(current: int) | Admitted | Equipped | Cleared | Checked
      // a BrotliLane value held by the stream
    | Leased
      // submit
    | Unflagged | SubmitCounted(current: int) | SubmitReady
      // a BrotliJob value: between polls, after an empty take, after registering
    | Pending(polled: bool) | Missed | Registered
      // BrotliJob::drop, after the flag store and after the waker take
    | Flagged | Unwaked
      // release_lane: entered, encoder taken, active decremented
    | Releasing | Emptied | Retired
    | Gone
      // worker_loop, in program order
    | Waiting | Received | Dequeued | RunCounted(current: int) | Started | Skipping
    | Encoding | Encoded | Publishing | Waking | Notifying(sleeper: nat)

  /** `job` is the stream whose work a worker carries; a stream names itself. */
  datatype Task = Task(lane: nat, job: nat, phase: Phase, woken: bool)

  datatype Work = Work(lane: nat, job: nat)

  /** A LaneSlot; `lessee` is bookkeeping: the stream that last popped the lane. */
  datatype Cell = Cell(result: Option<Work>, waker: Option<nat>, cancelled: bool,
                       encoder: bool, lessee: nat)

  /** `fault` records a failed assertion or expect; `releases` lists the lessees
      whose lane was pushed back, in order. */
  datatype State = State(
    free: seq<nat>, channel: seq<Work>, cells: seq<Cell>, tasks: seq<Task>,
    active: int, queued: int, running: int,
    activeHigh: int, queuedHigh: int, runningHigh: int,
    fault: bool, releases: seq<nat>)

  datatype Config = Config(workers: nat, lanes: nat)

  datatype Action = Admit | Advance(task: nat) | DropLane(task: nat) | Submit(task: nat)
                  | Poll(task: nat) | DropJob(task: nat)

  function Max(a: int, b: int): int { if a < b then b else a }

  // ---------------------------------------------------------------- machine

  function InitialFree(n: nat): (r: seq<nat>)
    ensures |r| == n && forall i :: 0 <= i < n ==> r[i] == n - 1 - i
  {
    seq(n, i requires 0 <= i < n => n - 1 - i)
  }

  function Init(c: Config): State {
    State(InitialFree(c.lanes), [],
          seq(c.lanes, _ => Cell(None, None, false, false, 0)),
          seq(c.workers, _ => Task(0, 0, Waiting, false)),
          0, 0, 0, 0, 0, 0, false, [])
  }

  predicate Shape(c: Config, s: State) {
    && 0 < c.workers && 0 < c.lanes
    && |s.cells| == c.lanes && c.workers <= |s.tasks|
    && (forall k :: 0 <= k < |s.free| ==> s.free[k] < c.lanes)
    && (forall k :: 0 <= k < |s.channel| ==> InFlightIds(c, s, s.channel[k]))
    && (forall i :: 0 <= i < c.workers ==> WorkerShape(c, s, s.tasks[i]))
    && (forall i :: c.workers <= i < |s.tasks| ==> StreamShape(c, i, s.tasks[i]))
    && (forall l :: 0 <= l < c.lanes ==> CellShape(c, s, l))
  }

  predicate InFlightIds(c: Config, s: State, w: Work) {
    w.lane < c.lanes && c.workers <= w.job < |s.tasks|
  }

  predicate CellShape(c: Config, s: State, l: nat)
    requires l < |s.cells|
  {
    && (s.cells[l].result.Some? ==>
          s.cells[l].result.value.lane == l && InFlightIds(c, s, s.cells[l].result.value))
    && (s.cells[l].waker.Some? ==> c.workers <= s.cells[l].waker.value < |s.tasks|)
    && s.cells[l].lessee < |s.tasks|
  }

  predicate WorkerShape(c: Config, s: State, t: Task) {
    && t.lane < c.lanes
    && (t.phase.Waiting? || t.phase.Waking? || t.phase.Notifying?
        || RoleOf(t.phase).Carries? || RoleOf(t.phase).Returns?)
    && (RoleOf(t.phase).Carries? ==> c.workers <= t.job < |s.tasks|)
    && (t.phase.Notifying? ==> c.workers <= t.phase.sleeper < |s.tasks|)
  }

  predicate StreamShape(c: Config, i: nat, t: Task) {
    && t.lane < c.lanes && t.job == i
    && !RoleOf(t.phase).Carries? && !t.phase.Waiting? && !t.phase.Waking? && !t.phase.Notifying?
  }

  /** What a task is doing with its lane. */
  datatype Role = Leases | Waits | Drops | Returns | Carries | Out

  function RoleOf(p: Phase): Role {
    match p
    case Popped | Counted(_) | Admitted | Equipped | Cleared | Checked | Leased => Leases
    case Unflagged | SubmitCounted(_) | SubmitReady => Leases
    case Pending(_) | Missed | Registered => Waits
    case Flagged | Unwaked => Drops
    case Releasing | Emptied | Retired => Returns
    case Received | Dequeued | RunCounted(_) | Started | Skipping => Carries
    case Encoding | Encoded | Publishing => Carries
    case Gone | Waiting | Waking | Notifying(_) => Out
  }

  predicate Submitting(p: Phase) { p.Unflagged? || p.SubmitCounted? || p.SubmitReady? }

  /** The lane a task has in hand, if any. */
  function Held(t: Task): Option<nat> {
    var r := RoleOf(t.phase);
    if r.Leases? || r.Returns? || r.Carries? then Some(t.lane) else None
  }

  function WorkLane(w: Work): Option<nat> { Some(w.lane) }

  function ResultLane(c: Cell): Option<nat> {
    if c.result.Some? then Some(c.result.value.lane) else None
  }

  function PutTask(s: State, i: nat, t: Task): State
    requires i < |s.tasks|
  {
    s.(tasks := s.tasks[i := t])
  }

  function Goto(s: State, i: nat, p: Phase): State
    requires i < |s.tasks|
  {
    PutTask(s, i, s.tasks[i].(phase := p))
  }

  function PutCell(s: State, l: nat, x: Cell): State
    requires l < |s.cells|
  {
    s.(cells := s.cells[l := x])
  }

  predicate InBounds(s: State, i: nat) { i < |s.tasks| && s.tasks[i].lane < |s.cells| }

  /** The bounds hold in every reachable state; they make the steps well defined in any state. */
  predicate Enabled(s: State, a: Action) {
    match a
    case Admit => s.free != [] && s.free[|s.free| - 1] < |s.cells|
    case Advance(i) =>
      && InBounds(s, i)
      && !s.tasks[i].phase.Leased? && !s.tasks[i].phase.Pending? && !s.tasks[i].phase.Gone?
      && (s.tasks[i].phase.Waiting? ==> s.channel != [])
      && (s.tasks[i].phase.Notifying? ==> s.tasks[i].phase.sleeper < |s.tasks|)
    case DropLane(i) => InBounds(s, i) && s.tasks[i].phase.Leased?
    case Submit(i) => InBounds(s, i) && s.tasks[i].phase.Leased?
    case Poll(i) => InBounds(s, i) && s.tasks[i].phase.Pending?
    case DropJob(i) => InBounds(s, i) && s.tasks[i].phase.Pending?
  }

  function Next(c: Config, s: State, a: Action): State
    requires Enabled(s, a)
  {
    match a
    case Admit => DoAdmit(s)
    case Advance(i) =>
      if RoleOf(s.tasks[i].phase).Returns? then AdvanceReturn(c, s, i)
      else if i < c.workers then AdvanceWorker(s, i)
      else if Submitting(s.tasks[i].phase) then AdvanceSubmit(c, s, i)
      else if RoleOf(s.tasks[i].phase).Leases? then AdvanceAdmit(s, i)
      else AdvanceJob(s, i)
    case DropLane(i) => Goto(s, i, Releasing)
    case Submit(i) =>
      var l := s.tasks[i].lane;
      PutCell(Goto(s, i, Unflagged), l, s.cells[l].(cancelled := false))
    case Poll(i) => DoPoll(s, i)
    case DropJob(i) =>
      var l := s.tasks[i].lane;
      PutCell(Goto(s, i, Flagged), l, s.cells[l].(cancelled := true))
  }

  /** `available.pop()`: a new stream takes the last free lane. */
  function DoAdmit(s: State): State
    requires s.free != [] && s.free[|s.free| - 1] < |s.cells|
  {
    var l := s.free[|s.free| - 1];
    var me := |s.tasks|;
    s.(free := s.free[..|s.free| - 1],
       tasks := s.tasks + [Task(l, me, Popped, false)],
       cells := s.cells[l := s.cells[l].(lessee := me)])
  }

  /** The rest of `try_admit`. */
  function AdvanceAdmit(s: State, i: nat): State
    requires InBounds(s, i)
  {
    var l := s.tasks[i].lane;
    var x := s.cells[l];
    match s.tasks[i].phase
    case Popped => Goto(s, i, Counted(s.active + 1)).(active := s.active + 1)
    case Counted(n) => Goto(s, i, Admitted).(activeHigh := Max(s.activeHigh, n))
    case Admitted => PutCell(Goto(s, i, Equipped), l, x.(encoder := true)).(fault := s.fault || x.encoder)
    case Equipped => PutCell(Goto(s, i, Cleared), l, x.(cancelled := false))
    case Cleared => PutCell(Goto(s, i, Checked), l, x.(waker := None))
    case Checked => Goto(s, i, Leased).(fault := s.fault || x.result.Some?)
    case _ => s
  }

  /** The rest of `submit`; its first action, the flag store, is `Submit` itself. */
  function AdvanceSubmit(c: Config, s: State, i: nat): State
    requires InBounds(s, i)
  {
    var l := s.tasks[i].lane;
    match s.tasks[i].phase
    case Unflagged => Goto(s, i, SubmitCounted(s.queued + 1)).(queued := s.queued + 1)
    case SubmitCounted(n) => Goto(s, i, SubmitReady).(queuedHigh := Max(s.queuedHigh, n))
    case SubmitReady =>
      if |s.channel| < c.lanes then
        PutTask(s, i, s.tasks[i].(phase := Pending(false), woken := false)).(channel := s.channel + [Work(l, i)])
      else
        Goto(s, i, Leased).(queued := s.queued - 1, fault := true)
    case _ => s
  }

  /** `BrotliJob::poll` up to and including its first `result.take()`. */
  function DoPoll(s: State, i: nat): State
    requires InBounds(s, i)
  {
    var l := s.tasks[i].lane;
    if s.cells[l].result.Some? then
      PutCell(Goto(s, i, Leased), l, s.cells[l].(result := None))
    else
      PutTask(s, i, s.tasks[i].(phase := Missed, woken := false))
  }

  /** The rest of `BrotliJob::poll` and of `BrotliJob::drop`. */
  function AdvanceJob(s: State, i: nat): State
    requires InBounds(s, i)
  {
    var l := s.tasks[i].lane;
    var x := s.cells[l];
    match s.tasks[i].phase
    case Missed => PutCell(Goto(s, i, Registered), l, x.(waker := Some(i)))
    case Registered =>
      PutTask(s, i, s.tasks[i].(phase := Pending(true), woken := s.tasks[i].woken || x.result.Some?))
    case Flagged => PutCell(Goto(s, i, Unwaked), l, x.(waker := None))
    case Unwaked =>
      if x.result.Some? then PutCell(Goto(s, i, Releasing), l, x.(result := None))
      else Goto(s, i, Gone)
    case _ => s
  }

  /** `release_lane`, by whichever task drops the lane or its completion. */
  function AdvanceReturn(c: Config, s: State, i: nat): State
    requires InBounds(s, i)
  {
    var l := s.tasks[i].lane;
    if s.tasks[i].phase.Releasing? then
      PutCell(Goto(s, i, Emptied), l, s.cells[l].(encoder := false))
    else if s.tasks[i].phase.Emptied? then
      Goto(s, i, Retired).(active := s.active - 1, fault := s.fault || s.active <= 0)
    else
      Goto(s, i, if i < c.workers then Waiting else Gone).(
        free := s.free + [l], releases := s.releases + [s.cells[l].lessee])
  }

  /** `worker_loop` takes the next message. */
  function DoReceive(s: State, i: nat): State
    requires i < |s.tasks| && s.channel != []
  {
    PutTask(s, i, Task(s.channel[0].lane, s.channel[0].job, Received, false)).(channel := s.channel[1..])
  }

  /** `worker_loop` from the first counter up to publication. */
  function AdvanceRun(s: State, i: nat): State
    requires InBounds(s, i)
  {
    var x := s.cells[s.tasks[i].lane];
    match s.tasks[i].phase
    case Received => Goto(s, i, Dequeued).(queued := s.queued - 1)
    case Dequeued => Goto(s, i, RunCounted(s.running + 1)).(running := s.running + 1)
    case RunCounted(n) => Goto(s, i, Started).(runningHigh := Max(s.runningHigh, n))
    case Started => Goto(s, i, if x.cancelled then Skipping else Encoding)
    case Skipping => Goto(s, i, Releasing).(running := s.running - 1)
    case Encoding => Goto(s, i, Encoded).(fault := s.fault || !x.encoder)
    case Encoded => Goto(s, i, Publishing).(running := s.running - 1)
    case _ => s
  }

  /** `LaneCell::publish` under the result lock: the flag decides. */
  function DoPublish(s: State, i: nat): State
    requires InBounds(s, i)
  {
    var t := s.tasks[i];
    var x := s.cells[t.lane];
    if x.cancelled then Goto(s, i, Releasing)
    else PutCell(Goto(s, i, Waking), t.lane, x.(result := Some(Work(t.lane, t.job)))).(
           fault := s.fault || x.result.Some?)
  }

  /** `LaneCell::publish` after the result lock: take the waker. */
  function DoTakeWaker(s: State, i: nat): State
    requires InBounds(s, i)
  {
    var l := s.tasks[i].lane;
    var x := s.cells[l];
    if x.waker.None? then Goto(s, i, Waiting)
    else PutCell(Goto(s, i, Notifying(x.waker.value)), l, x.(waker := None))
  }

  function DoNotify(s: State, i: nat): State
    requires i < |s.tasks| && s.tasks[i].phase.Notifying? && s.tasks[i].phase.sleeper < |s.tasks|
  {
    var j := s.tasks[i].phase.sleeper;
    Goto(PutTask(s, j, s.tasks[j].(woken := true)), i, Waiting)
  }

  function AdvanceWorker(s: State, i: nat): State
    requires Enabled(s, Advance(i))
  {
    var p := s.tasks[i].phase;
    if p.Waiting? then DoReceive(s, i)
    else if p.Publishing? then DoPublish(s, i)
    else if p.Waking? then DoTakeWaker(s, i)
    else if p.Notifying? then DoNotify(s, i)
    else AdvanceRun(s, i)
  }

  // -------------------------------------------------------------- invariant

  /** How many places hold lane `k`: free list, channel, tasks, result slots. */
  ghost function Holders(s: State, k: nat): nat {
    Tally(s.free, Itself, k) + Tally(s.channel, WorkLane, k)
    + Tally(s.tasks, Held, k) + Tally(s.cells, ResultLane, k)
  }

  /** Every lane has exactly one holder. */
  ghost predicate Conserved(c: Config, s: State) {
    forall k: nat :: Holders(s, k) == if k < c.lanes then 1 else 0
  }

  /** An operation in flight belongs to the lane's lessee, and its cancelled flag
      tells whether that stream still waits for it. */
  predicate FlightOk(c: Config, s: State, w: Work)
    requires Shape(c, s) && InFlightIds(c, s, w)
  {
    var r := RoleOf(s.tasks[w.job].phase);
    && s.cells[w.lane].lessee == w.job && s.tasks[w.job].lane == w.lane
    && (r.Waits? || (s.cells[w.lane].cancelled && (r.Drops? || r.Out?)))
  }

  predicate StreamLink(c: Config, s: State, i: nat)
    requires Shape(c, s) && c.workers <= i < |s.tasks|
  {
    var t := s.tasks[i];
    var r := RoleOf(t.phase);
    && (!r.Out? ==> s.cells[t.lane].lessee == i)
    && (r.Waits? ==> !s.cells[t.lane].cancelled && t.lane !in s.free)
    && (r.Drops? || Submitting(t.phase) ==> s.cells[t.lane].cancelled == r.Drops?)
  }

  predicate WorkerLink(c: Config, s: State, i: nat)
    requires Shape(c, s) && i < c.workers
  {
    var t := s.tasks[i];
    assert WorkerShape(c, s, t);
    && (RoleOf(t.phase).Carries? ==> FlightOk(c, s, Work(t.lane, t.job)))
    && (t.phase.Skipping? ==> s.cells[t.lane].cancelled)
    && (RoleOf(t.phase).Returns? ==> s.cells[t.lane].lessee >= c.workers)
  }

  predicate CellLink(c: Config, s: State, l: nat)
    requires Shape(c, s) && l < c.lanes
  {
    var x := s.cells[l];
    assert CellShape(c, s, l);
    && (x.result.Some? ==> FlightOk(c, s, x.result.value) && !RoleOf(s.tasks[x.result.value.job].phase).Out?)
    && (x.lessee >= c.workers ==> s.tasks[x.lessee].lane == l)
  }

  /** While a job waits, nobody leases or gives back its lane. */
  predicate JobExcludes(s: State, i: nat, k: nat)
    requires i < |s.tasks| && k < |s.tasks|
  {
    var r := RoleOf(s.tasks[k].phase);
    (RoleOf(s.tasks[i].phase).Waits? && (r.Leases? || r.Returns?))
    ==> s.tasks[i].lane != s.tasks[k].lane
  }

  predicate Links(c: Config, s: State)
    requires Shape(c, s)
  {
    && (forall i :: c.workers <= i < |s.tasks| ==> StreamLink(c, s, i))
    && (forall i :: 0 <= i < c.workers ==> WorkerLink(c, s, i))
    && (forall l :: 0 <= l < c.lanes ==> CellLink(c, s, l))
    && (forall k :: 0 <= k < |s.channel| ==> FlightOk(c, s, s.channel[k]))
    && (forall i, k :: 0 <= i < |s.tasks| && 0 <= k < |s.tasks| ==> JobExcludes(s, i, k))
  }

  // ------------------------------------------------------------ exclusivity

  /** Task `i` is the only holder of lane `l`. */
  predicate OnlyTask(s: State, i: nat, l: nat)
    requires l < |s.cells|
  {
    && l !in s.free
    && (forall k :: 0 <= k < |s.channel| ==> s.channel[k].lane != l)
    && (forall k :: 0 <= k < |s.tasks| && k != i ==> Held(s.tasks[k]) != Some(l))
    && s.cells[l].result.None?
  }

  lemma HolderAlone(c: Config, s: State, i: nat)
    requires Shape(c, s) && Conserved(c, s) && i < |s.tasks| && Held(s.tasks[i]).Some?
    ensures s.tasks[i].lane < c.lanes && OnlyTask(s, i, s.tasks[i].lane)
  {
    var l := s.tasks[i].lane;
    Has(s.tasks, Held, i, l);
    assert Holders(s, l) == 1;
    forall k | 0 <= k < |s.tasks| && k != i ensures Held(s.tasks[k]) != Some(l) {
      if Held(s.tasks[k]) == Some(l) {
        if k < i { Twice(s.tasks, Held, k, i, l); } else { Twice(s.tasks, Held, i, k, l); }
      }
    }
    NotElsewhere(c, s, l);
  }

  /** A lane that nothing else holds is in none of the other places. */
  lemma NotElsewhere(c: Config, s: State, l: nat)
    requires Shape(c, s) && l < c.lanes
    ensures Tally(s.free, Itself, l) == 0 ==> l !in s.free
    ensures Tally(s.channel, WorkLane, l) == 0 ==> forall k :: 0 <= k < |s.channel| ==> s.channel[k].lane != l
    ensures Tally(s.tasks, Held, l) == 0 ==> forall k :: 0 <= k < |s.tasks| ==> Held(s.tasks[k]) != Some(l)
    ensures Tally(s.cells, ResultLane, l) == 0 ==> s.cells[l].result.None?
  {
    if l in s.free {
      var k :| 0 <= k < |s.free| && s.free[k] == l;
      Has(s.free, Itself, k, l);
    }
    forall k | 0 <= k < |s.channel| && s.channel[k].lane == l ensures Tally(s.channel, WorkLane, l) >= 1 {
      Has(s.channel, WorkLane, k, l);
    }
    forall k | 0 <= k < |s.tasks| && Held(s.tasks[k]) == Some(l) ensures Tally(s.tasks, Held, l) >= 1 {
      Has(s.tasks, Held, k, l);
    }
    assert CellShape(c, s, l);
    if s.cells[l].result.Some? { Has(s.cells, ResultLane, l, l); }
  }

  lemma FreeAlone(c: Config, s: State, j: nat)
    requires Shape(c, s) && Conserved(c, s) && j < |s.free|
    ensures var l := s.free[j];
      && l < c.lanes && s.cells[l].result.None?
      && (forall k :: 0 <= k < |s.free| && k != j ==> s.free[k] != l)
      && (forall k :: 0 <= k < |s.channel| ==> s.channel[k].lane != l)
      && (forall k :: 0 <= k < |s.tasks| ==> Held(s.tasks[k]) != Some(l))
  {
    var l := s.free[j];
    Has(s.free, Itself, j, l);
    assert Holders(s, l) == 1;
    forall k | 0 <= k < |s.free| && k != j ensures s.free[k] != l {
      if s.free[k] == l {
        if k < j { Twice(s.free, Itself, k, j, l); } else { Twice(s.free, Itself, j, k, l); }
      }
    }
    NotElsewhere(c, s, l);
  }

  lemma ResultAlone(c: Config, s: State, l: nat)
    requires Shape(c, s) && Conserved(c, s) && l < c.lanes && s.cells[l].result.Some?
    ensures l !in s.free
    ensures forall k :: 0 <= k < |s.channel| ==> s.channel[k].lane != l
    ensures forall k :: 0 <= k < |s.tasks| ==> Held(s.tasks[k]) != Some(l)
  {
    assert CellShape(c, s, l);
    Has(s.cells, ResultLane, l, l);
    assert Holders(s, l) == 1;
    NotElsewhere(c, s, l);
  }

  /** No unfinished `BrotliJob::drop` still refers to the lane about to be popped. */
  predicate Quiet(s: State) {
    s.free != [] ==>
      forall i :: 0 <= i < |s.tasks| && RoleOf(s.tasks[i].phase).Drops?
                  ==> s.tasks[i].lane != s.free[|s.free| - 1]
  }
}
