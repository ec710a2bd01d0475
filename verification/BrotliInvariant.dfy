/**
  The rest of the executor's invariant, by concern: links between tasks and cells,
  encoders, counters, leases and wake-ups; and how a step at one lane keeps each of them.
*/
module BrotliInvariant {
  import opened Bags
  import opened BrotliExecutor

  // -------------------------------------------------- steps at one lane cell

  /** Only task `i` and cell `l` (and counters) differ. */
  predicate SameBut(s: State, s': State, i: nat, l: nat) {
    && i < |s.tasks| == |s'.tasks| && l < |s.cells| == |s'.cells|
    && s'.tasks == s.tasks[i := s'.tasks[i]]
    && s'.cells == s.cells[l := s'.cells[l]]
    && s'.free == s.free && s'.channel == s.channel && s'.releases == s.releases
  }

  predicate TaskShape(c: Config, s: State, i: nat)
    requires i < |s.tasks|
  {
    if i < c.workers then WorkerShape(c, s, s.tasks[i]) else StreamShape(c, i, s.tasks[i])
  }

  lemma ShapeLocal(c: Config, s: State, s': State, i: nat, l: nat)
    requires Shape(c, s) && SameBut(s, s', i, l)
    requires TaskShape(c, s', i) && CellShape(c, s', l)
    ensures Shape(c, s')
  {
    forall k | 0 <= k < c.lanes ensures CellShape(c, s', k) { assert CellShape(c, s, k); }
    forall k | 0 <= k < c.workers ensures WorkerShape(c, s', s'.tasks[k]) {
      assert WorkerShape(c, s, s.tasks[k]);
    }
    forall k | c.workers <= k < |s'.tasks| ensures StreamShape(c, k, s'.tasks[k]) {
      assert StreamShape(c, k, s.tasks[k]);
    }
    forall k | 0 <= k < |s'.channel| ensures InFlightIds(c, s', s'.channel[k]) {
      assert InFlightIds(c, s, s.channel[k]);
    }
  }

  /** The task and the cell together hold what they held before, or swap it. */
  predicate TokenKept(t: Task, x: Cell, t': Task, x': Cell) {
    || (Held(t') == Held(t) && ResultLane(x') == ResultLane(x))
    || (Held(t') == ResultLane(x) && ResultLane(x') == Held(t))
  }

  lemma ConservedLocal(c: Config, s: State, s': State, i: nat, l: nat)
    requires Conserved(c, s) && SameBut(s, s', i, l)
    requires TokenKept(s.tasks[i], s.cells[l], s'.tasks[i], s'.cells[l])
    ensures Conserved(c, s')
  {
    forall k: nat ensures Holders(s', k) == Holders(s, k) {
      Update(s.tasks, Held, i, s'.tasks[i], k);
      Update(s.cells, ResultLane, l, s'.cells[l], k);
    }
  }

  /** The task stays in its role and the cell keeps result, flag and lessee. */
  predicate QuietMove(s: State, s': State, i: nat, l: nat) {
    && SameBut(s, s', i, l)
    && s'.tasks[i].lane == s.tasks[i].lane && s'.tasks[i].job == s.tasks[i].job
    && RoleOf(s'.tasks[i].phase) == RoleOf(s.tasks[i].phase)
    && s'.cells[l].result == s.cells[l].result
    && s'.cells[l].cancelled == s.cells[l].cancelled
    && s'.cells[l].lessee == s.cells[l].lessee
  }

  lemma LinksQuiet(c: Config, s: State, s': State, i: nat, l: nat)
    requires Shape(c, s) && Shape(c, s') && Links(c, s) && QuietMove(s, s', i, l)
    requires s'.tasks[i].phase.Skipping? ==> s.cells[s.tasks[i].lane].cancelled
    requires Submitting(s'.tasks[i].phase) ==> Submitting(s.tasks[i].phase)
    ensures Links(c, s')
  {
    forall k | c.workers <= k < |s'.tasks| ensures StreamLink(c, s', k) { assert StreamLink(c, s, k); }
    forall k | 0 <= k < c.workers ensures WorkerLink(c, s', k) { assert WorkerLink(c, s, k); }
    forall k | 0 <= k < c.lanes ensures CellLink(c, s', k) { assert CellLink(c, s, k); }
    forall k | 0 <= k < |s'.channel| ensures FlightOk(c, s', s'.channel[k]) { assert FlightOk(c, s, s.channel[k]); }
    forall k, m | 0 <= k < |s'.tasks| && 0 <= m < |s'.tasks| ensures JobExcludes(s', k, m) {
      assert JobExcludes(s, k, m);
    }
  }

  predicate Others(c: Config, s: State, i: nat, l: nat)
    requires Shape(c, s)
  {
    && (forall k :: c.workers <= k < |s.tasks| && k != i && s.tasks[k].lane == l ==> RoleOf(s.tasks[k].phase).Out?)
    && (forall k :: 0 <= k < c.workers && k != i && s.tasks[k].lane == l ==> RoleOf(s.tasks[k].phase).Out?)
    && (forall k :: 0 <= k < |s.channel| ==> s.channel[k].lane != l)
  }

  /** Nothing else refers to the lane of a stream that leases or returns it, nor to
      the lane of a stream whose result is ready. */
  lemma OthersOut(c: Config, s: State, i: nat)
    requires Shape(c, s) && Conserved(c, s) && Links(c, s) && c.workers <= i < |s.tasks|
    requires !RoleOf(s.tasks[i].phase).Out?
    requires Held(s.tasks[i]).Some? || s.cells[s.tasks[i].lane].result.Some?
    ensures Others(c, s, i, s.tasks[i].lane)
  {
    var l := s.tasks[i].lane;
    assert StreamLink(c, s, i);
    if Held(s.tasks[i]).Some? { HolderAlone(c, s, i); } else { ResultAlone(c, s, l); }
    forall k | c.workers <= k < |s.tasks| && k != i && s.tasks[k].lane == l
      ensures RoleOf(s.tasks[k].phase).Out?
    {
      assert StreamLink(c, s, k);
    }
    forall k | 0 <= k < c.workers && k != i && s.tasks[k].lane == l
      ensures RoleOf(s.tasks[k].phase).Out?
    {
      assert WorkerShape(c, s, s.tasks[k]);
    }
  }

  /** A step on a lane nobody else refers to only has to be right for its own task and cell. */
  lemma LinksAlone(c: Config, s: State, s': State, i: nat, l: nat)
    requires Shape(c, s) && Shape(c, s') && Links(c, s) && SameBut(s, s', i, l)
    requires s'.tasks[i].lane == l == s.tasks[i].lane && s'.tasks[i].job == s.tasks[i].job
    requires s'.cells[l].lessee == s.cells[l].lessee
    requires c.workers <= i && !RoleOf(s.tasks[i].phase).Out?
    requires Others(c, s, i, l) && StreamLink(c, s', i) && CellLink(c, s', l)
    requires RoleOf(s'.tasks[i].phase) != Waits
    ensures Links(c, s')
  {
    assert StreamLink(c, s, i);
    forall k | c.workers <= k < |s'.tasks| ensures StreamLink(c, s', k) { assert StreamLink(c, s, k); }
    forall k | 0 <= k < c.workers ensures WorkerLink(c, s', k) { assert WorkerLink(c, s, k); }
    forall k | 0 <= k < c.lanes ensures CellLink(c, s', k) { assert CellLink(c, s, k); }
    forall k | 0 <= k < |s'.channel| ensures FlightOk(c, s', s'.channel[k]) { assert FlightOk(c, s, s.channel[k]); }
    forall k, m | 0 <= k < |s'.tasks| && 0 <= m < |s'.tasks| ensures JobExcludes(s', k, m) {
      assert JobExcludes(s, k, m);
      if k >= c.workers { assert StreamLink(c, s, k); } else { assert WorkerShape(c, s, s.tasks[k]); }
    }
  }

  /** `BrotliJob::drop` sets the flag, and later finds no result: whatever is in flight
      for this stream is now cancelled. */
  lemma LinksCancel(c: Config, s: State, s': State, i: nat, l: nat)
    requires Shape(c, s) && Shape(c, s') && Links(c, s) && SameBut(s, s', i, l)
    requires s'.tasks[i].lane == l == s.tasks[i].lane && s'.tasks[i].job == s.tasks[i].job
    requires s'.cells[l] == s.cells[l].(cancelled := true)
    requires c.workers <= i
    requires (RoleOf(s.tasks[i].phase).Waits? && RoleOf(s'.tasks[i].phase).Drops?)
          || (RoleOf(s.tasks[i].phase).Drops? && RoleOf(s'.tasks[i].phase).Out? && s.cells[l].result.None?)
    ensures Links(c, s')
  {
    assert StreamLink(c, s, i);
    forall k | c.workers <= k < |s'.tasks| ensures StreamLink(c, s', k) { assert StreamLink(c, s, k); }
    forall k | 0 <= k < c.workers ensures WorkerLink(c, s', k) { assert WorkerLink(c, s, k); }
    forall k | 0 <= k < c.lanes ensures CellLink(c, s', k) { assert CellLink(c, s, k); }
    forall k | 0 <= k < |s'.channel| ensures FlightOk(c, s', s'.channel[k]) { assert FlightOk(c, s, s.channel[k]); }
    forall k, m | 0 <= k < |s'.tasks| && 0 <= m < |s'.tasks| ensures JobExcludes(s', k, m) {
      assert JobExcludes(s, k, m);
    }
  }

  /** A worker gives up a cancelled operation, or publishes a live one. */
  lemma LinksUncarry(c: Config, s: State, s': State, i: nat, l: nat)
    requires Shape(c, s) && Shape(c, s') && Conserved(c, s) && Links(c, s) && SameBut(s, s', i, l)
    requires i < c.workers && RoleOf(s.tasks[i].phase).Carries?
    requires s'.tasks[i].lane == l == s.tasks[i].lane
    requires (RoleOf(s'.tasks[i].phase).Returns? && s.cells[l].cancelled && s'.cells[l] == s.cells[l])
          || (s'.tasks[i].phase.Waking? && !s.cells[l].cancelled
              && s'.cells[l] == s.cells[l].(result := Some(Work(l, s.tasks[i].job))))
    ensures Links(c, s')
  {
    assert WorkerLink(c, s, i) && WorkerShape(c, s, s.tasks[i]);
    var j := s.tasks[i].job;
    assert FlightOk(c, s, Work(l, j));
    forall k | c.workers <= k < |s'.tasks| ensures StreamLink(c, s', k) { assert StreamLink(c, s, k); }
    forall k | 0 <= k < c.workers ensures WorkerLink(c, s', k) { assert WorkerLink(c, s, k); }
    forall k | 0 <= k < c.lanes ensures CellLink(c, s', k) { assert CellLink(c, s, k); }
    forall k | 0 <= k < |s'.channel| ensures FlightOk(c, s', s'.channel[k]) { assert FlightOk(c, s, s.channel[k]); }
    forall k, m | 0 <= k < |s'.tasks| && 0 <= m < |s'.tasks| ensures JobExcludes(s', k, m) {
      assert JobExcludes(s, k, m);
      if k >= c.workers { assert StreamLink(c, s, k); } else { assert WorkerShape(c, s, s.tasks[k]); }
    }
  }

  // ---------------------------------------------- steps that move a queue end

  lemma LinksAdmit(c: Config, s: State)
    requires Shape(c, s) && Conserved(c, s) && Links(c, s) && s.free != [] && Quiet(s)
    requires Shape(c, DoAdmit(s))
    ensures Links(c, DoAdmit(s))
  {
    var s' := DoAdmit(s);
    var me, n := |s.tasks|, |s.free| - 1;
    var l := s.free[n];
    FreeAlone(c, s, n);
    assert forall q :: q in s'.free ==> q in s.free && q != l;
    forall k | c.workers <= k < me ensures s.tasks[k].lane == l ==> RoleOf(s.tasks[k].phase).Out? {
      assert StreamLink(c, s, k);
      assert l in s.free;
    }
    forall k | c.workers <= k < |s'.tasks| ensures StreamLink(c, s', k) {
      if k < me { assert StreamLink(c, s, k); }
    }
    forall k | 0 <= k < c.workers ensures WorkerLink(c, s', k) {
      assert WorkerLink(c, s, k) && WorkerShape(c, s, s.tasks[k]);
    }
    forall k | 0 <= k < c.lanes ensures CellLink(c, s', k) { assert CellLink(c, s, k) && CellShape(c, s, k); }
    forall k | 0 <= k < |s'.channel| ensures FlightOk(c, s', s'.channel[k]) {
      assert FlightOk(c, s, s.channel[k]) && InFlightIds(c, s, s.channel[k]);
    }
    forall k, m | 0 <= k < |s'.tasks| && 0 <= m < |s'.tasks| ensures JobExcludes(s', k, m) {
      if k < me && m < me { assert JobExcludes(s, k, m); }
      if k < me && k < c.workers { assert WorkerShape(c, s, s.tasks[k]); }
    }
  }

  lemma LinksSend(c: Config, s: State, i: nat, s': State)
    requires Shape(c, s) && Conserved(c, s) && Links(c, s) && c.workers <= i < |s.tasks|
    requires s.tasks[i].phase.SubmitReady? && |s.channel| < c.lanes
    requires s' == AdvanceSubmit(c, s, i) && Shape(c, s')
    ensures Links(c, s')
  {
    var l := s.tasks[i].lane;
    HolderAlone(c, s, i);
    OthersOut(c, s, i);
    assert StreamLink(c, s, i);
    assert s'.tasks == s.tasks[i := s.tasks[i].(phase := Pending(false), woken := false)] && s'.cells == s.cells;
    forall k | c.workers <= k < |s'.tasks| ensures StreamLink(c, s', k) { assert StreamLink(c, s, k); }
    forall k | 0 <= k < c.workers ensures WorkerLink(c, s', k) {
      assert WorkerLink(c, s, k) && WorkerShape(c, s, s.tasks[k]);
    }
    forall k | 0 <= k < c.lanes ensures CellLink(c, s', k) { assert CellLink(c, s, k); }
    forall k | 0 <= k < |s'.channel| ensures FlightOk(c, s', s'.channel[k]) {
      if k < |s.channel| { assert FlightOk(c, s, s.channel[k]); }
    }
    forall k, m | 0 <= k < |s'.tasks| && 0 <= m < |s'.tasks| ensures JobExcludes(s', k, m) {
      assert JobExcludes(s, k, m);
    }
  }

  lemma LinksReceive(c: Config, s: State, i: nat, s': State)
    requires Shape(c, s) && Conserved(c, s) && Links(c, s) && i < c.workers
    requires s.tasks[i].phase.Waiting? && s.channel != [] && s' == DoReceive(s, i) && Shape(c, s')
    ensures Links(c, s')
  {
    assert FlightOk(c, s, s.channel[0]);
    forall k | c.workers <= k < |s'.tasks| ensures StreamLink(c, s', k) { assert StreamLink(c, s, k); }
    forall k | 0 <= k < c.workers ensures WorkerLink(c, s', k) { assert WorkerLink(c, s, k); }
    forall k | 0 <= k < c.lanes ensures CellLink(c, s', k) { assert CellLink(c, s, k); }
    forall k | 0 <= k < |s'.channel| ensures FlightOk(c, s', s'.channel[k]) { assert FlightOk(c, s, s.channel[k + 1]); }
    forall k, m | 0 <= k < |s'.tasks| && 0 <= m < |s'.tasks| ensures JobExcludes(s', k, m) {
      assert JobExcludes(s, k, m);
    }
  }

  lemma LinksPush(c: Config, s: State, i: nat, s': State)
    requires Shape(c, s) && Conserved(c, s) && Links(c, s) && i < |s.tasks|
    requires s.tasks[i].phase.Retired? && s' == AdvanceReturn(c, s, i) && Shape(c, s')
    ensures Links(c, s')
  {
    var l := s.tasks[i].lane;
    HolderAlone(c, s, i);
    forall k | c.workers <= k < |s'.tasks| ensures StreamLink(c, s', k) {
      assert StreamLink(c, s, k) && JobExcludes(s, k, i);
    }
    forall k | 0 <= k < c.workers ensures WorkerLink(c, s', k) {
      assert WorkerLink(c, s, k);
      var t := s.tasks[k];
      if RoleOf(t.phase).Carries? {
        assert WorkerShape(c, s, t);
        assert i >= c.workers ==> StreamLink(c, s, i);
      }
    }
    forall k | 0 <= k < c.lanes ensures CellLink(c, s', k) {
      assert CellLink(c, s, k) && CellShape(c, s, k);
      assert i >= c.workers ==> StreamLink(c, s, i);
    }
    forall k | 0 <= k < |s'.channel| ensures FlightOk(c, s', s'.channel[k]) {
      assert FlightOk(c, s, s.channel[k]);
      assert i >= c.workers ==> StreamLink(c, s, i);
    }
    forall k, m | 0 <= k < |s'.tasks| && 0 <= m < |s'.tasks| ensures JobExcludes(s', k, m) {
      assert JobExcludes(s, k, m);
    }
  }

  // -------------------------------------------------------- lane encoders

  /** Phases in which the held lane has no encoder. */
  predicate Bare(p: Phase) {
    p.Popped? || p.Counted? || p.Admitted? || p.Emptied? || p.Retired?
  }

  predicate EquipTask(s: State, i: nat)
    requires i < |s.tasks|
  {
    var t := s.tasks[i];
    t.lane < |s.cells| && (Held(t).Some? ==> s.cells[t.lane].encoder == !Bare(t.phase))
  }

  /** A lane owns an encoder exactly from admission until it is given back. */
  predicate Equip(c: Config, s: State)
    requires Shape(c, s)
  {
    && (forall k :: 0 <= k < |s.free| ==> !s.cells[s.free[k]].encoder)
    && (forall i :: 0 <= i < |s.tasks| ==> EquipTask(s, i))
    && (forall k :: 0 <= k < |s.channel| ==> InFlightIds(c, s, s.channel[k]) && s.cells[s.channel[k].lane].encoder)
    && (forall l :: 0 <= l < |s.cells| && s.cells[l].result.Some? ==> s.cells[l].encoder)
  }

  lemma EquipLocal(c: Config, s: State, s': State, i: nat, l: nat)
    requires Shape(c, s) && Shape(c, s') && Conserved(c, s) && Equip(c, s) && SameBut(s, s', i, l)
    requires s.tasks[i].lane == l == s'.tasks[i].lane
    requires Held(s'.tasks[i]).Some? ==> s'.cells[l].encoder == !Bare(s'.tasks[i].phase)
    requires s'.cells[l].result.Some? ==> s'.cells[l].encoder
    requires s'.cells[l].encoder == s.cells[l].encoder || Held(s.tasks[i]).Some?
    ensures Equip(c, s')
  {
    if Held(s.tasks[i]).Some? { HolderAlone(c, s, i); }
    forall k | 0 <= k < |s'.tasks| ensures EquipTask(s', k) { assert EquipTask(s, k); }
  }

  lemma EquipAdmit(c: Config, s: State)
    requires Shape(c, s) && Equip(c, s) && s.free != [] && Shape(c, DoAdmit(s))
    ensures Equip(c, DoAdmit(s))
  {
    var s' := DoAdmit(s);
    forall k | 0 <= k < |s'.tasks| ensures EquipTask(s', k) {
      if k < |s.tasks| { assert EquipTask(s, k); }
    }
  }

  lemma EquipSend(c: Config, s: State, i: nat, s': State)
    requires Shape(c, s) && Equip(c, s) && c.workers <= i < |s.tasks|
    requires s.tasks[i].phase.SubmitReady? && |s.channel| < c.lanes
    requires s' == AdvanceSubmit(c, s, i) && Shape(c, s')
    ensures Equip(c, s')
  {
    assert EquipTask(s, i);
    forall k | 0 <= k < |s'.tasks| ensures EquipTask(s', k) { assert EquipTask(s, k); }
  }

  lemma EquipReceive(c: Config, s: State, i: nat, s': State)
    requires Shape(c, s) && Equip(c, s) && i < c.workers
    requires s.tasks[i].phase.Waiting? && s.channel != [] && s' == DoReceive(s, i) && Shape(c, s')
    ensures Equip(c, s')
  {
    forall k | 0 <= k < |s'.tasks| ensures EquipTask(s', k) { assert EquipTask(s, k); }
  }

  lemma EquipPush(c: Config, s: State, i: nat, s': State)
    requires Shape(c, s) && Equip(c, s) && i < |s.tasks|
    requires s.tasks[i].phase.Retired? && s' == AdvanceReturn(c, s, i) && Shape(c, s')
    ensures Equip(c, s')
  {
    assert EquipTask(s, i);
    forall k | 0 <= k < |s'.tasks| ensures EquipTask(s', k) { assert EquipTask(s, k); }
  }

  // ------------------------------------------------------------- counters

  function ActiveLane(t: Task): Option<nat> {
    if t.phase.Popped? || t.phase.Retired? then None else Held(t)
  }

  function QueuedLane(t: Task): Option<nat> {
    if t.phase.SubmitCounted? || t.phase.SubmitReady? || t.phase.Received? then Some(t.lane) else None
  }

  function RunningLane(t: Task): Option<nat> {
    if t.phase.RunCounted? || t.phase.Started? || t.phase.Skipping? || t.phase.Encoding? || t.phase.Encoded?
    then Some(t.lane) else None
  }

  predicate Counters(s: State) {
    && s.active == Size(s.tasks, ActiveLane) + |s.channel| + Size(s.cells, ResultLane)
    && s.queued == Size(s.tasks, QueuedLane) + |s.channel|
    && s.running == Size(s.tasks, RunningLane)
  }

  /** The lanes are shared out among the four kinds of holder. */
  lemma LaneCount(c: Config, s: State)
    requires Conserved(c, s)
    ensures |s.free| + |s.channel| + Size(s.tasks, Held) + Size(s.cells, ResultLane) == c.lanes
  {
    forall k: nat
      ensures Tally(s.free, Itself, k) + Tally(s.channel, WorkLane, k) + Tally(s.tasks, Held, k)
              + Tally(s.cells, ResultLane, k) == if k < c.lanes then 1 else 0
    {
      assert Holders(s, k) == if k < c.lanes then 1 else 0;
    }
    Pigeonhole(s.free, Itself, s.channel, WorkLane, s.tasks, Held, s.cells, ResultLane, c.lanes);
    SizeFull(s.free, Itself);
    SizeFull(s.channel, WorkLane);
  }

  /** The counters agree with the lanes, so they stay within the lane count. */
  lemma CounterLimits(c: Config, s: State)
    requires Shape(c, s) && Conserved(c, s) && Counters(s)
    ensures 0 <= s.active <= c.lanes && 0 <= s.queued <= c.lanes
    ensures 0 <= s.running <= c.lanes && s.running <= c.workers
  {
    LaneCount(c, s);
    SizeMono(s.tasks, ActiveLane, Held);
    SizeMono(s.tasks, QueuedLane, Held);
    SizeMono(s.tasks, RunningLane, Held);
    forall i | c.workers <= i < |s.tasks| ensures RunningLane(s.tasks[i]).None? {
      assert StreamShape(c, i, s.tasks[i]);
    }
    SizeBound(s.tasks, RunningLane, c.workers);
  }

  /** A lane in hand has room in the channel, and is counted as active if it was. */
  lemma LaneInHand(c: Config, s: State, i: nat)
    requires Conserved(c, s) && Counters(s) && i < |s.tasks|
    ensures Held(s.tasks[i]).Some? ==> |s.channel| < c.lanes
    ensures ActiveLane(s.tasks[i]).Some? ==> s.active > 0
  {
    if Held(s.tasks[i]).Some? {
      LaneCount(c, s);
      Has(s.tasks, Held, i, s.tasks[i].lane);
      if ActiveLane(s.tasks[i]).Some? {
        Has(s.tasks, ActiveLane, i, s.tasks[i].lane);
      }
    }
  }

  /** The counters moved by exactly what the step changed. */
  predicate Books(s: State, s': State, i: nat, l: nat)
    requires SameBut(s, s', i, l)
  {
    var t, t' := s.tasks[i], s'.tasks[i];
    && s'.active - s.active == Any(ActiveLane(t')) - Any(ActiveLane(t))
                               + Any(ResultLane(s'.cells[l])) - Any(ResultLane(s.cells[l]))
    && s'.queued - s.queued == Any(QueuedLane(t')) - Any(QueuedLane(t))
    && s'.running - s.running == Any(RunningLane(t')) - Any(RunningLane(t))
  }

  lemma CountersLocal(s: State, s': State, i: nat, l: nat)
    requires Counters(s) && SameBut(s, s', i, l) && Books(s, s', i, l)
    ensures Counters(s')
  {
    Update(s.tasks, ActiveLane, i, s'.tasks[i], 0);
    Update(s.tasks, QueuedLane, i, s'.tasks[i], 0);
    Update(s.tasks, RunningLane, i, s'.tasks[i], 0);
    Update(s.cells, ResultLane, l, s'.cells[l], 0);
  }

  lemma CountersAdmit(c: Config, s: State)
    requires Shape(c, s) && Counters(s) && s.free != []
    ensures Counters(DoAdmit(s))
  {
    var s' := DoAdmit(s);
    var l, t := s.free[|s.free| - 1], s'.tasks[|s.tasks|];
    Append(s.tasks, ActiveLane, t, 0);
    Append(s.tasks, QueuedLane, t, 0);
    Append(s.tasks, RunningLane, t, 0);
    Update(s.cells, ResultLane, l, s'.cells[l], 0);
  }

  lemma CountersQueue(c: Config, s: State, s': State, i: nat)
    requires Counters(s) && i < |s.tasks| == |s'.tasks|
    requires s'.tasks == s.tasks[i := s'.tasks[i]] && s'.cells == s.cells
    requires s'.active == s.active && s'.queued == s.queued && s'.running == s.running
    requires |s'.channel| - |s.channel| == Any(ActiveLane(s.tasks[i])) - Any(ActiveLane(s'.tasks[i]))
    requires |s'.channel| - |s.channel| == Any(QueuedLane(s.tasks[i])) - Any(QueuedLane(s'.tasks[i]))
    requires Any(RunningLane(s.tasks[i])) == Any(RunningLane(s'.tasks[i]))
    ensures Counters(s')
  {
    Update(s.tasks, ActiveLane, i, s'.tasks[i], 0);
    Update(s.tasks, QueuedLane, i, s'.tasks[i], 0);
    Update(s.tasks, RunningLane, i, s'.tasks[i], 0);
  }

  /** Counter values in hand and high-water marks are within the limits. */
  predicate Current(c: Config, t: Task) {
    && (t.phase.Counted? || t.phase.SubmitCounted? ==> t.phase.current <= c.lanes)
    && (t.phase.RunCounted? ==> t.phase.current <= c.lanes && t.phase.current <= c.workers)
  }

  predicate Marks(c: Config, s: State) {
    && s.activeHigh <= c.lanes && s.queuedHigh <= c.lanes
    && s.runningHigh <= c.lanes && s.runningHigh <= c.workers
    && forall i :: 0 <= i < |s.tasks| ==> Current(c, s.tasks[i])
  }

  /** Every mark is the old one or raised to a value the task had in hand. */
  predicate MarksMove(s: State, s': State, i: nat)
    requires i < |s.tasks| == |s'.tasks|
  {
    var p, p' := s.tasks[i].phase, s'.tasks[i].phase;
    && (s'.activeHigh == s.activeHigh || (p.Counted? && s'.activeHigh == Max(s.activeHigh, p.current)))
    && (s'.queuedHigh == s.queuedHigh || (p.SubmitCounted? && s'.queuedHigh == Max(s.queuedHigh, p.current)))
    && (s'.runningHigh == s.runningHigh || (p.RunCounted? && s'.runningHigh == Max(s.runningHigh, p.current)))
    && (p'.Counted? ==> p' == p || p'.current == s'.active)
    && (p'.SubmitCounted? ==> p' == p || p'.current == s'.queued)
    && (p'.RunCounted? ==> p' == p || p'.current == s'.running)
  }

  lemma MarksLocal(c: Config, s: State, s': State, i: nat)
    requires Marks(c, s) && i < |s.tasks| == |s'.tasks| && s'.tasks == s.tasks[i := s'.tasks[i]]
    requires MarksMove(s, s', i)
    requires Shape(c, s') && Conserved(c, s') && Counters(s')
    ensures Marks(c, s')
  {
    CounterLimits(c, s');
    assert Current(c, s.tasks[i]);
    forall k | 0 <= k < |s'.tasks| ensures Current(c, s'.tasks[k]) { assert Current(c, s.tasks[k]); }
  }

  // --------------------------------------------------------------- ledger

  /** The lease of stream `i` has not been given back. */
  predicate Outstanding(s: State, i: nat)
    requires i < |s.tasks| && s.tasks[i].lane < |s.cells|
  {
    s.cells[s.tasks[i].lane].lessee == i && s.tasks[i].lane !in s.free
  }

  ghost predicate LedgerOf(s: State, i: nat)
    requires i < |s.tasks|
  {
    s.tasks[i].lane < |s.cells|
    && Tally(s.releases, Itself, i) == if Outstanding(s, i) then 0 else 1
  }

  /** Every stream's lease is outstanding, or has been given back exactly once. */
  ghost predicate Ledger(c: Config, s: State) {
    && (forall k :: 0 <= k < |s.releases| ==> c.workers <= s.releases[k] < |s.tasks|)
    && (forall i :: c.workers <= i < |s.tasks| ==> LedgerOf(s, i))
  }

  lemma LedgerStill(c: Config, s: State, s': State)
    requires Ledger(c, s) && |s'.tasks| == |s.tasks| && |s'.cells| == |s.cells|
    requires s'.free == s.free && s'.releases == s.releases
    requires forall i :: c.workers <= i < |s.tasks| ==> s'.tasks[i].lane == s.tasks[i].lane
    requires forall l :: 0 <= l < |s.cells| ==> s'.cells[l].lessee == s.cells[l].lessee
    ensures Ledger(c, s')
  {
    forall i | c.workers <= i < |s'.tasks| ensures LedgerOf(s', i) { assert LedgerOf(s, i); }
  }

  lemma LedgerAdmit(c: Config, s: State)
    requires Shape(c, s) && Conserved(c, s) && Ledger(c, s) && s.free != []
    ensures Ledger(c, DoAdmit(s))
  {
    var s' := DoAdmit(s);
    var me: nat, n := |s.tasks|, |s.free| - 1;
    FreeAlone(c, s, n);
    Absent(s.releases, Itself, me);
    forall i | c.workers <= i < |s'.tasks| ensures LedgerOf(s', i) {
      if i < me {
        assert LedgerOf(s, i);
        var l := s.tasks[i].lane;
        if l == s.free[n] {
          assert l in s.free;
        } else {
          assert l in s.free <==> l in s'.free by { assert s.free == s'.free + [s.free[n]]; }
        }
      }
    }
  }

  /** Pushing a lane gives back the lease of its last lessee, which was outstanding, and
      no other. */
  lemma LedgerPush(c: Config, s: State, i: nat, s': State)
    requires Shape(c, s) && Conserved(c, s) && Links(c, s) && Ledger(c, s) && i < |s.tasks|
    requires s.tasks[i].phase.Retired? && s' == AdvanceReturn(c, s, i)
    ensures Ledger(c, s')
    ensures var o := s.cells[s.tasks[i].lane].lessee;
      && c.workers <= o < |s.tasks| && s.tasks[o].lane == s.tasks[i].lane
      && Outstanding(s, o) && !Outstanding(s', o) && s'.releases == s.releases + [o]
  {
    var l := s.tasks[i].lane;
    var o := s.cells[l].lessee;
    HolderAlone(c, s, i);
    assert if i < c.workers then WorkerLink(c, s, i) else StreamLink(c, s, i);
    assert CellLink(c, s, l) && CellShape(c, s, l);
    forall k | c.workers <= k < |s'.tasks| ensures LedgerOf(s', k) {
      assert LedgerOf(s, k) && LedgerOf(s, o);
      Append(s.releases, Itself, o, k);
      var q := s.tasks[k].lane;
      assert q in s'.free <==> q in s.free || q == l;
    }
  }

  // ------------------------------------------------------------- wake-ups

  /** Some worker has published on lane `l` and is about to take the waker. */
  predicate WakingAt(c: Config, s: State, l: nat)
    requires c.workers <= |s.tasks|
  {
    exists w :: 0 <= w < c.workers && s.tasks[w].phase.Waking? && s.tasks[w].lane == l
  }

  /** Some worker has taken the waker of stream `i` and is about to wake it. */
  predicate Called(c: Config, s: State, i: nat)
    requires c.workers <= |s.tasks|
  {
    exists w :: 0 <= w < c.workers && s.tasks[w].phase == Notifying(i)
  }

  predicate WakeOf(c: Config, s: State, i: nat)
    requires Shape(c, s) && c.workers <= i < |s.tasks|
  {
    var t := s.tasks[i];
    var x := s.cells[t.lane];
    && (t.phase == Pending(true) && !t.woken ==>
          Called(c, s, i) || (x.waker == Some(i) && (x.result.Some? ==> WakingAt(c, s, t.lane))))
    && (t.phase.Registered? && !t.woken ==>
          Called(c, s, i) || x.waker == Some(i) || x.result.Some?)
  }

  /** A job that returned Pending will be woken: its waker is registered, or a worker
      is on its way to wake it. */
  predicate Wakes(c: Config, s: State)
    requires Shape(c, s)
  {
    forall i :: c.workers <= i < |s.tasks| ==> WakeOf(c, s, i)
  }

  lemma WakesStream(c: Config, s: State, s': State, i: nat, l: nat)
    requires Shape(c, s) && Shape(c, s') && Links(c, s) && Wakes(c, s) && SameBut(s, s', i, l)
    requires c.workers <= i && s.tasks[i].lane == l == s'.tasks[i].lane && !RoleOf(s.tasks[i].phase).Out?
    requires WakeOf(c, s', i)
    ensures Wakes(c, s')
  {
    forall k | c.workers <= k < |s'.tasks| ensures WakeOf(c, s', k) {
      if k != i {
        assert WakeOf(c, s, k) && StreamLink(c, s, k) && StreamLink(c, s, i);
        CallsSame(c, s, s', k);
      }
    }
  }

  /** Unchanged workers call and wake as before. */
  lemma CallsSame(c: Config, s: State, s': State, k: nat)
    requires c.workers <= |s.tasks| && c.workers <= |s'.tasks|
    requires forall w :: 0 <= w < c.workers ==> s'.tasks[w] == s.tasks[w]
    ensures Called(c, s', k) == Called(c, s, k)
    ensures forall l :: WakingAt(c, s', l) == WakingAt(c, s, l)
  {
    if Called(c, s, k) {
      var w :| 0 <= w < c.workers && s.tasks[w].phase == Notifying(k);
      assert s'.tasks[w].phase == Notifying(k);
    }
    forall l ensures WakingAt(c, s', l) == WakingAt(c, s, l) {
      if WakingAt(c, s, l) {
        var w :| 0 <= w < c.workers && s.tasks[w].phase.Waking? && s.tasks[w].lane == l;
        assert s'.tasks[w].phase.Waking? && s'.tasks[w].lane == l;
      }
    }
  }

  /** A worker that is neither waking nor notifying moves on, possibly publishing. */
  lemma WakesWorker(c: Config, s: State, s': State, i: nat)
    requires Shape(c, s) && Shape(c, s') && Wakes(c, s) && |s'.tasks| == |s.tasks|
    requires i < c.workers && s'.tasks == s.tasks[i := s'.tasks[i]]
    requires !s.tasks[i].phase.Waking? && !s.tasks[i].phase.Notifying?
    requires forall l :: 0 <= l < c.lanes ==>
      && s'.cells[l].waker == s.cells[l].waker
      && (s'.cells[l].result == s.cells[l].result
          || (s'.cells[l].result.Some? && s'.tasks[i].phase.Waking? && s'.tasks[i].lane == l))
    ensures Wakes(c, s')
  {
    forall k | c.workers <= k < |s'.tasks| ensures WakeOf(c, s', k) {
      assert WakeOf(c, s, k);
      var l := s.tasks[k].lane;
      if Called(c, s, k) {
        var w :| 0 <= w < c.workers && s.tasks[w].phase == Notifying(k);
        assert s'.tasks[w].phase == Notifying(k);
      }
      if WakingAt(c, s, l) {
        var w :| 0 <= w < c.workers && s.tasks[w].phase.Waking? && s.tasks[w].lane == l;
        assert s'.tasks[w].phase.Waking? && s'.tasks[w].lane == l;
      }
      if s'.cells[l].result != s.cells[l].result {
        assert s'.tasks[i].phase.Waking? && s'.tasks[i].lane == l;
      }
    }
  }

  lemma WakesTake(c: Config, s: State, i: nat, s': State)
    requires Shape(c, s) && Wakes(c, s) && i < c.workers
    requires s.tasks[i].phase.Waking? && s' == DoTakeWaker(s, i) && Shape(c, s')
    ensures Wakes(c, s')
  {
    var l := s.tasks[i].lane;
    forall k | c.workers <= k < |s'.tasks| ensures WakeOf(c, s', k) {
      assert WakeOf(c, s, k);
      if Called(c, s, k) {
        var w :| 0 <= w < c.workers && s.tasks[w].phase == Notifying(k);
        assert s'.tasks[w].phase == Notifying(k);
      }
      var q := s.tasks[k].lane;
      if q != l && WakingAt(c, s, q) {
        var w :| 0 <= w < c.workers && s.tasks[w].phase.Waking? && s.tasks[w].lane == q;
        assert s'.tasks[w].phase.Waking? && s'.tasks[w].lane == q;
      }
      if s.cells[l].waker == Some(k) {
        assert s'.tasks[i].phase == Notifying(k);
      }
    }
  }

  lemma WakesNotify(c: Config, s: State, i: nat, s': State)
    requires Shape(c, s) && Wakes(c, s) && i < c.workers
    requires s.tasks[i].phase.Notifying? && s' == DoNotify(s, i) && Shape(c, s')
    ensures Wakes(c, s')
  {
    var j := s.tasks[i].phase.sleeper;
    assert WorkerShape(c, s, s.tasks[i]);
    forall k | c.workers <= k < |s'.tasks| ensures WakeOf(c, s', k) {
      assert WakeOf(c, s, k);
      if k != j && Called(c, s, k) {
        var w :| 0 <= w < c.workers && s.tasks[w].phase == Notifying(k);
        assert s'.tasks[w].phase == Notifying(k);
      }
      var q := s.tasks[k].lane;
      if WakingAt(c, s, q) {
        var w :| 0 <= w < c.workers && s.tasks[w].phase.Waking? && s.tasks[w].lane == q;
        assert s'.tasks[w].phase.Waking? && s'.tasks[w].lane == q;
      }
    }
  }

  lemma WakesAdmit(c: Config, s: State)
    requires Shape(c, s) && Wakes(c, s) && s.free != [] && Shape(c, DoAdmit(s))
    ensures Wakes(c, DoAdmit(s))
  {
    var s' := DoAdmit(s);
    forall k | c.workers <= k < |s'.tasks| ensures WakeOf(c, s', k) {
      if k < |s.tasks| {
        assert WakeOf(c, s, k);
        CallsSame(c, s, s', k);
      }
    }
  }

  /** Streams keep their wake-up through a step that touches neither cells nor workers. */
  lemma WakesSend(c: Config, s: State, i: nat, s': State)
    requires Shape(c, s) && Shape(c, s') && Wakes(c, s) && c.workers <= i < |s.tasks| == |s'.tasks|
    requires s'.tasks == s.tasks[i := s'.tasks[i]] && s'.cells == s.cells
    requires !s'.tasks[i].phase.Registered? && s'.tasks[i].phase != Pending(true)
    ensures Wakes(c, s')
  {
    forall k | c.workers <= k < |s'.tasks| ensures WakeOf(c, s', k) {
      assert WakeOf(c, s, k);
      CallsSame(c, s, s', k);
    }
  }
}
