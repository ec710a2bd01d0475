/**
  Every step of every stream and worker keeps the whole invariant of the executor.
*/
module BrotliSteps {
  import opened Bags
  import opened BrotliExecutor
  import opened BrotliInvariant

  // ------------------------------------------------- every step keeps it all

  ghost predicate Inv(c: Config, s: State) {
    && Shape(c, s) && Conserved(c, s) && Links(c, s) && Equip(c, s)
    && Counters(s) && Marks(c, s) && Ledger(c, s) && Wakes(c, s) && !s.fault
  }

  /** A well-formed step at one lane cell. */
  predicate Placed(c: Config, s: State, s': State, i: nat, l: nat) {
    && SameBut(s, s', i, l) && c.workers <= |s.tasks|
    && TaskShape(c, s', i) && CellShape(c, s', l)
    && s.tasks[i].lane == l == s'.tasks[i].lane
    && s'.cells[l].lessee == s.cells[l].lessee
  }

  /** What a step at one lane cell owes to the accounts. */
  predicate Accounts(s: State, s': State, i: nat, l: nat)
    requires SameBut(s, s', i, l)
  {
    && TokenKept(s.tasks[i], s.cells[l], s'.tasks[i], s'.cells[l])
    && (Held(s'.tasks[i]).Some? ==> s'.cells[l].encoder == !Bare(s'.tasks[i].phase))
    && (s'.cells[l].result.Some? ==> s'.cells[l].encoder)
    && (s'.cells[l].encoder == s.cells[l].encoder || Held(s.tasks[i]).Some?)
    && Books(s, s', i, l) && MarksMove(s, s', i)
  }

  /** Task `i` and its cell are well formed. */
  predicate Here(c: Config, s: State, i: nat) {
    && InBounds(s, i) && |s.cells| == c.lanes && c.workers <= |s.tasks|
    && TaskShape(c, s, i) && CellShape(c, s, s.tasks[i].lane)
  }

  lemma HereOf(c: Config, s: State, i: nat)
    requires Shape(c, s) && i < |s.tasks|
    ensures Here(c, s, i)
  {
    assert TaskShape(c, s, i);
    assert CellShape(c, s, s.tasks[i].lane);
  }

  lemma LocalStep(c: Config, s: State, s': State, i: nat, l: nat)
    requires Inv(c, s) && Placed(c, s, s', i, l) && Accounts(s, s', i, l)
    ensures Shape(c, s') && Conserved(c, s') && Equip(c, s') && Counters(s') && Marks(c, s') && Ledger(c, s')
  {
    ShapeLocal(c, s, s', i, l);
    ConservedLocal(c, s, s', i, l);
    EquipLocal(c, s, s', i, l);
    CountersLocal(s, s', i, l);
    MarksLocal(c, s, s', i);
    LedgerStill(c, s, s');
  }

  lemma AdmitStep(c: Config, s: State, i: nat)
    requires Inv(c, s) && c.workers <= i < |s.tasks| && RoleOf(s.tasks[i].phase).Leases?
    requires !s.tasks[i].phase.Leased? && !Submitting(s.tasks[i].phase)
    ensures Inv(c, AdvanceAdmit(s, i))
  {
    var s', l := AdvanceAdmit(s, i), s.tasks[i].lane;
    HolderAlone(c, s, i);
    HereOf(c, s, i);
    AdmitLocal(c, s, i, s', l);
    AdmitAccounts(c, s, i, s', l);
    LocalStep(c, s, s', i, l);
    if s.tasks[i].phase.Equipped? {
      OthersOut(c, s, i);
      assert StreamLink(c, s, i) && CellLink(c, s, l);
      LinksAlone(c, s, s', i, l);
    } else {
      LinksQuiet(c, s, s', i, l);
    }
    WakesStream(c, s, s', i, l);
  }

  lemma AdmitLocal(c: Config, s: State, i: nat, s': State, l: nat)
    requires Here(c, s, i)
    requires c.workers <= i < |s.tasks| && RoleOf(s.tasks[i].phase).Leases?
    requires !s.tasks[i].phase.Leased? && !Submitting(s.tasks[i].phase)
    requires l == s.tasks[i].lane && s' == AdvanceAdmit(s, i) && s.cells[l].result.None?
    requires EquipTask(s, i) && !s.fault
    ensures Placed(c, s, s', i, l) && !s'.fault
    ensures !s.tasks[i].phase.Equipped? ==> QuietMove(s, s', i, l)
  {}

  lemma AdmitAccounts(c: Config, s: State, i: nat, s': State, l: nat)
    requires Here(c, s, i)
    requires c.workers <= i < |s.tasks| && RoleOf(s.tasks[i].phase).Leases?
    requires !s.tasks[i].phase.Leased? && !Submitting(s.tasks[i].phase)
    requires l == s.tasks[i].lane && s' == AdvanceAdmit(s, i) && s.cells[l].result.None?
    requires EquipTask(s, i) && !s.fault
    requires SameBut(s, s', i, l)
    ensures Accounts(s, s', i, l)
  {}

  lemma SubmitStep(c: Config, s: State, i: nat)
    requires Inv(c, s) && c.workers <= i < |s.tasks| && Submitting(s.tasks[i].phase)
    ensures Inv(c, AdvanceSubmit(c, s, i))
  {
    var s', l := AdvanceSubmit(c, s, i), s.tasks[i].lane;
    HolderAlone(c, s, i);
    LaneInHand(c, s, i);
    if s.tasks[i].phase.SubmitReady? {
      SendStep(c, s, i, s');
    } else {
      HereOf(c, s, i);
      SubmitLocal(c, s, i, s', l);
      LocalStep(c, s, s', i, l);
      LinksQuiet(c, s, s', i, l);
      WakesStream(c, s, s', i, l);
    }
  }

  lemma SubmitLocal(c: Config, s: State, i: nat, s': State, l: nat)
    requires Here(c, s, i)
    requires c.workers <= i < |s.tasks| && Submitting(s.tasks[i].phase)
    requires !s.tasks[i].phase.SubmitReady?
    requires l == s.tasks[i].lane && s' == AdvanceSubmit(c, s, i) && s.cells[l].result.None?
    requires EquipTask(s, i) && !s.fault
    ensures Placed(c, s, s', i, l) && Accounts(s, s', i, l) && !s'.fault && QuietMove(s, s', i, l)
  {}

  lemma SendStep(c: Config, s: State, i: nat, s': State)
    requires Inv(c, s) && c.workers <= i < |s.tasks| && s.tasks[i].phase.SubmitReady?
    requires s' == AdvanceSubmit(c, s, i) && |s.channel| < c.lanes
    ensures Inv(c, s')
  {
    SendShape(c, s, i, s');
    ConservedSend(c, s, i, s');
    LinksSend(c, s, i, s');
    EquipSend(c, s, i, s');
    CountersQueue(c, s, s', i);
    MarksLocal(c, s, s', i);
    LedgerStill(c, s, s');
    WakesSend(c, s, i, s');
  }

  lemma ConservedSend(c: Config, s: State, i: nat, s': State)
    requires Shape(c, s) && Conserved(c, s) && c.workers <= i < |s.tasks| && s.tasks[i].phase.SubmitReady?
    requires s' == AdvanceSubmit(c, s, i) && |s.channel| < c.lanes
    ensures Conserved(c, s')
  {
    assert s'.tasks == s.tasks[i := s'.tasks[i]] && s'.cells == s.cells && s'.free == s.free;
    assert Held(s.tasks[i]) == Some(s.tasks[i].lane) && Held(s'.tasks[i]).None?;
    forall k: nat ensures Holders(s', k) == Holders(s, k) {
      Update(s.tasks, Held, i, s'.tasks[i], k);
      Append(s.channel, WorkLane, Work(s.tasks[i].lane, i), k);
    }
  }

  lemma SendShape(c: Config, s: State, i: nat, s': State)
    requires Shape(c, s) && c.workers <= i < |s.tasks| && s.tasks[i].phase.SubmitReady?
    requires s' == AdvanceSubmit(c, s, i) && |s.channel| < c.lanes
    ensures Shape(c, s')
  {
    assert StreamShape(c, i, s.tasks[i]);
    forall k | 0 <= k < c.lanes ensures CellShape(c, s', k) { assert CellShape(c, s, k); }
    forall k | 0 <= k < c.workers ensures WorkerShape(c, s', s'.tasks[k]) { assert WorkerShape(c, s, s.tasks[k]); }
    forall k | 0 <= k < |s'.channel| ensures InFlightIds(c, s', s'.channel[k]) {
      if k < |s.channel| { assert InFlightIds(c, s, s.channel[k]); }
    }
  }

  // ------------------------------------------- stream actions that start work

  lemma DropLaneStep(c: Config, s: State, i: nat)
    requires Inv(c, s) && Enabled(s, DropLane(i))
    ensures Inv(c, Next(c, s, DropLane(i)))
  {
    var s', l := Next(c, s, DropLane(i)), s.tasks[i].lane;
    StreamIs(c, s, i);
    HolderAlone(c, s, i);
    assert EquipTask(s, i) && StreamLink(c, s, i) && CellShape(c, s, l) && CellLink(c, s, l);
    LocalStep(c, s, s', i, l);
    OthersOut(c, s, i);
    LinksAlone(c, s, s', i, l);
    WakesStream(c, s, s', i, l);
  }

  lemma SubmitStarts(c: Config, s: State, i: nat)
    requires Inv(c, s) && Enabled(s, Submit(i))
    ensures Inv(c, Next(c, s, Submit(i)))
  {
    var s', l := Next(c, s, Submit(i)), s.tasks[i].lane;
    StreamIs(c, s, i);
    HolderAlone(c, s, i);
    assert EquipTask(s, i) && StreamLink(c, s, i) && CellShape(c, s, l) && CellLink(c, s, l);
    LocalStep(c, s, s', i, l);
    OthersOut(c, s, i);
    LinksAlone(c, s, s', i, l);
    WakesStream(c, s, s', i, l);
  }

  /** Only a stream has these phases. */
  lemma StreamIs(c: Config, s: State, i: nat)
    requires Shape(c, s) && i < |s.tasks|
    requires s.tasks[i].phase.Leased? || RoleOf(s.tasks[i].phase).Waits? || RoleOf(s.tasks[i].phase).Drops?
    ensures c.workers <= i && StreamShape(c, i, s.tasks[i])
  {
    assert i < c.workers ==> WorkerShape(c, s, s.tasks[i]);
  }

  lemma DropJobStep(c: Config, s: State, i: nat)
    requires Inv(c, s) && Enabled(s, DropJob(i))
    ensures Inv(c, Next(c, s, DropJob(i)))
  {
    var s', l := Next(c, s, DropJob(i)), s.tasks[i].lane;
    StreamIs(c, s, i);
    HereOf(c, s, i);
    assert EquipTask(s, i) && CellLink(c, s, l);
    DropJobLocal(c, s, i, s', l);
    LocalStep(c, s, s', i, l);
    LinksCancel(c, s, s', i, l);
    WakesStream(c, s, s', i, l);
  }

  lemma DropJobLocal(c: Config, s: State, i: nat, s': State, l: nat)
    requires Here(c, s, i)
    requires c.workers <= i && s.tasks[i].phase.Pending? && l == s.tasks[i].lane
    requires s' == PutCell(Goto(s, i, Flagged), l, s.cells[l].(cancelled := true))
    requires (s.cells[l].result.Some? ==> s.cells[l].encoder) && !s.fault
    ensures Placed(c, s, s', i, l) && Accounts(s, s', i, l) && !s'.fault
  {}

  lemma PollStep(c: Config, s: State, i: nat)
    requires Inv(c, s) && Enabled(s, Poll(i))
    ensures Inv(c, Next(c, s, Poll(i)))
  {
    var s', l := Next(c, s, Poll(i)), s.tasks[i].lane;
    StreamIs(c, s, i);
    assert StreamLink(c, s, i) && CellLink(c, s, l);
    HereOf(c, s, i);
    PollLocal(c, s, i, s', l);
    LocalStep(c, s, s', i, l);
    if s.cells[l].result.Some? {
      OthersOut(c, s, i);
      LinksAlone(c, s, s', i, l);
    } else {
      LinksQuiet(c, s, s', i, l);
    }
    WakesStream(c, s, s', i, l);
  }

  lemma PollLocal(c: Config, s: State, i: nat, s': State, l: nat)
    requires Here(c, s, i)
    requires c.workers <= i && s.tasks[i].phase.Pending?
    requires l == s.tasks[i].lane && s' == DoPoll(s, i)
    requires (s.cells[l].result.Some? ==> s.cells[l].encoder) && !s.fault
    ensures Placed(c, s, s', i, l) && Accounts(s, s', i, l) && !s'.fault
  {}

  lemma JobStep(c: Config, s: State, i: nat)
    requires Inv(c, s) && c.workers <= i < |s.tasks|
    requires (RoleOf(s.tasks[i].phase).Waits? && !s.tasks[i].phase.Pending?) || RoleOf(s.tasks[i].phase).Drops?
    ensures Inv(c, AdvanceJob(s, i))
  {
    var s', l := AdvanceJob(s, i), s.tasks[i].lane;
    assert StreamLink(c, s, i) && CellLink(c, s, l) && EquipTask(s, i) && WakeOf(c, s, i);
    HereOf(c, s, i);
    JobLocal(c, s, i, s', l);
    JobAccounts(c, s, i, s', l);
    LocalStep(c, s, s', i, l);
    if s.tasks[i].phase.Unwaked? {
      if s.cells[l].result.Some? {
        OthersOut(c, s, i);
        LinksAlone(c, s, s', i, l);
      } else {
        LinksCancel(c, s, s', i, l);
      }
    } else {
      LinksQuiet(c, s, s', i, l);
    }
    CallsSame(c, s, s', i);
    WakesStream(c, s, s', i, l);
  }

  lemma JobLocal(c: Config, s: State, i: nat, s': State, l: nat)
    requires Here(c, s, i)
    requires c.workers <= i < |s.tasks|
    requires (RoleOf(s.tasks[i].phase).Waits? && !s.tasks[i].phase.Pending?) || RoleOf(s.tasks[i].phase).Drops?
    requires l == s.tasks[i].lane && s' == AdvanceJob(s, i)
    requires s.cells[l].result.Some? ==> s.cells[l].encoder
    requires !s.fault
    ensures Placed(c, s, s', i, l) && !s'.fault
    ensures !s.tasks[i].phase.Unwaked? ==> QuietMove(s, s', i, l)
  {}

  lemma JobAccounts(c: Config, s: State, i: nat, s': State, l: nat)
    requires Here(c, s, i)
    requires c.workers <= i < |s.tasks|
    requires (RoleOf(s.tasks[i].phase).Waits? && !s.tasks[i].phase.Pending?) || RoleOf(s.tasks[i].phase).Drops?
    requires l == s.tasks[i].lane && s' == AdvanceJob(s, i)
    requires s.cells[l].result.Some? ==> s.cells[l].encoder
    requires !s.fault
    requires SameBut(s, s', i, l)
    ensures Accounts(s, s', i, l)
  {}

  // ------------------------------------------------------------ giving back

  lemma ReturnStep(c: Config, s: State, i: nat)
    requires Inv(c, s) && i < |s.tasks| && RoleOf(s.tasks[i].phase).Returns?
    ensures Inv(c, AdvanceReturn(c, s, i))
  {
    var s', l := AdvanceReturn(c, s, i), s.tasks[i].lane;
    HolderAlone(c, s, i);
    LaneInHand(c, s, i);
    assert EquipTask(s, i);
    if s.tasks[i].phase.Retired? {
      PushStep(c, s, i, s');
    } else {
      HereOf(c, s, i);
      ReturnLocal(c, s, i, s', l);
      LocalStep(c, s, s', i, l);
      LinksQuiet(c, s, s', i, l);
      if i < c.workers {
        WakesWorker(c, s, s', i);
      } else {
        WakesStream(c, s, s', i, l);
      }
    }
  }

  lemma ReturnLocal(c: Config, s: State, i: nat, s': State, l: nat)
    requires Here(c, s, i)
    requires i < |s.tasks| && RoleOf(s.tasks[i].phase).Returns? && !s.tasks[i].phase.Retired?
    requires l == s.tasks[i].lane && s' == AdvanceReturn(c, s, i) && s.cells[l].result.None?
    requires EquipTask(s, i) && !s.fault && (ActiveLane(s.tasks[i]).Some? ==> s.active > 0)
    ensures Placed(c, s, s', i, l) && Accounts(s, s', i, l) && !s'.fault && QuietMove(s, s', i, l)
  {}

  lemma PushStep(c: Config, s: State, i: nat, s': State)
    requires Inv(c, s) && i < |s.tasks| && s.tasks[i].phase.Retired? && s' == AdvanceReturn(c, s, i)
    ensures Inv(c, s')
  {
    PushShape(c, s, i, s');
    ConservedPush(c, s, i, s');
    LinksPush(c, s, i, s');
    EquipPush(c, s, i, s');
    CountersQueue(c, s, s', i);
    MarksLocal(c, s, s', i);
    LedgerPush(c, s, i, s');
    if i < c.workers {
      WakesWorker(c, s, s', i);
    } else {
      WakesSend(c, s, i, s');
    }
  }

  lemma PushShape(c: Config, s: State, i: nat, s': State)
    requires Shape(c, s) && i < |s.tasks| && s.tasks[i].phase.Retired? && s' == AdvanceReturn(c, s, i)
    ensures Shape(c, s')
  {
    forall k | 0 <= k < c.lanes ensures CellShape(c, s', k) { assert CellShape(c, s, k); }
    forall k | 0 <= k < c.workers ensures WorkerShape(c, s', s'.tasks[k]) { assert WorkerShape(c, s, s.tasks[k]); }
    forall k | 0 <= k < |s'.channel| ensures InFlightIds(c, s', s'.channel[k]) {
      assert InFlightIds(c, s, s.channel[k]);
    }
  }

  lemma ConservedPush(c: Config, s: State, i: nat, s': State)
    requires Conserved(c, s) && i < |s.tasks| && s.tasks[i].phase.Retired?
    requires Shape(c, s) && s' == AdvanceReturn(c, s, i)
    ensures Conserved(c, s')
  {
    assert s'.tasks == s.tasks[i := s'.tasks[i]] && s'.cells == s.cells && s'.channel == s.channel;
    assert Held(s.tasks[i]) == Some(s.tasks[i].lane) && Held(s'.tasks[i]).None?;
    forall k: nat ensures Holders(s', k) == Holders(s, k) {
      Update(s.tasks, Held, i, s'.tasks[i], k);
      Append(s.free, Itself, s.tasks[i].lane, k);
    }
  }

  // ---------------------------------------------------------------- workers

  lemma RunStep(c: Config, s: State, i: nat)
    requires Inv(c, s) && i < c.workers && RoleOf(s.tasks[i].phase).Carries? && !s.tasks[i].phase.Publishing?
    ensures Inv(c, AdvanceRun(s, i))
  {
    var s', l := AdvanceRun(s, i), s.tasks[i].lane;
    HolderAlone(c, s, i);
    assert EquipTask(s, i) && WorkerLink(c, s, i);
    HereOf(c, s, i);
    RunLocal(c, s, i, s', l);
    RunAccounts(c, s, i, s', l);
    LocalStep(c, s, s', i, l);
    if s.tasks[i].phase.Skipping? {
      LinksUncarry(c, s, s', i, l);
    } else {
      LinksQuiet(c, s, s', i, l);
    }
    WakesWorker(c, s, s', i);
  }

  lemma RunLocal(c: Config, s: State, i: nat, s': State, l: nat)
    requires Here(c, s, i)
    requires i < c.workers && RoleOf(s.tasks[i].phase).Carries? && !s.tasks[i].phase.Publishing?
    requires l == s.tasks[i].lane && s' == AdvanceRun(s, i)
    requires EquipTask(s, i) && s.cells[l].result.None? && !s.fault
    ensures Placed(c, s, s', i, l) && !s'.fault && s'.cells == s.cells
    ensures !s.tasks[i].phase.Skipping? ==> QuietMove(s, s', i, l)
  {}

  lemma RunAccounts(c: Config, s: State, i: nat, s': State, l: nat)
    requires Here(c, s, i)
    requires i < c.workers && RoleOf(s.tasks[i].phase).Carries? && !s.tasks[i].phase.Publishing?
    requires l == s.tasks[i].lane && s' == AdvanceRun(s, i)
    requires EquipTask(s, i) && s.cells[l].result.None? && !s.fault
    requires SameBut(s, s', i, l)
    ensures Accounts(s, s', i, l)
  {}

  lemma PublishStep(c: Config, s: State, i: nat)
    requires Inv(c, s) && i < c.workers && s.tasks[i].phase.Publishing?
    ensures Inv(c, DoPublish(s, i))
  {
    var s', l := DoPublish(s, i), s.tasks[i].lane;
    HolderAlone(c, s, i);
    assert EquipTask(s, i) && WorkerLink(c, s, i);
    HereOf(c, s, i);
    PublishLocal(c, s, i, s', l);
    LocalStep(c, s, s', i, l);
    LinksUncarry(c, s, s', i, l);
    WakesWorker(c, s, s', i);
  }

  lemma PublishLocal(c: Config, s: State, i: nat, s': State, l: nat)
    requires Here(c, s, i)
    requires i < c.workers && s.tasks[i].phase.Publishing?
    requires l == s.tasks[i].lane && s' == DoPublish(s, i)
    requires EquipTask(s, i) && s.cells[l].result.None? && !s.fault
    ensures Placed(c, s, s', i, l) && Accounts(s, s', i, l) && !s'.fault
  {}

  lemma TakeWakerStep(c: Config, s: State, i: nat)
    requires Inv(c, s) && i < c.workers && s.tasks[i].phase.Waking?
    ensures Inv(c, DoTakeWaker(s, i))
  {
    var s', l := DoTakeWaker(s, i), s.tasks[i].lane;
    HereOf(c, s, i);
    TakeWakerLocal(c, s, i, s', l);
    TakeWakerAccounts(c, s, i, s', l);
    LocalStep(c, s, s', i, l);
    LinksQuiet(c, s, s', i, l);
    WakesTake(c, s, i, s');
  }

  lemma TakeWakerLocal(c: Config, s: State, i: nat, s': State, l: nat)
    requires Here(c, s, i) && i < c.workers && s.tasks[i].phase.Waking?
    requires l == s.tasks[i].lane && s' == DoTakeWaker(s, i)
    requires (s.cells[l].result.Some? ==> s.cells[l].encoder) && !s.fault
    ensures Placed(c, s, s', i, l) && !s'.fault && QuietMove(s, s', i, l)
  {}

  lemma TakeWakerAccounts(c: Config, s: State, i: nat, s': State, l: nat)
    requires Here(c, s, i) && i < c.workers && s.tasks[i].phase.Waking?
    requires l == s.tasks[i].lane && s' == DoTakeWaker(s, i)
    requires (s.cells[l].result.Some? ==> s.cells[l].encoder) && !s.fault
    requires SameBut(s, s', i, l)
    ensures Accounts(s, s', i, l)
  {}

  lemma ReceiveStep(c: Config, s: State, i: nat, s': State)
    requires Inv(c, s) && i < c.workers && s.tasks[i].phase.Waiting? && s.channel != []
    requires s' == DoReceive(s, i)
    ensures Inv(c, s')
  {
    ReceiveShape(c, s, i, s');
    ConservedReceive(c, s, i, s');
    LinksReceive(c, s, i, s');
    EquipReceive(c, s, i, s');
    CountersQueue(c, s, s', i);
    MarksLocal(c, s, s', i);
    LedgerStill(c, s, s');
    WakesWorker(c, s, s', i);
  }

  lemma ReceiveShape(c: Config, s: State, i: nat, s': State)
    requires Shape(c, s) && i < c.workers && s.tasks[i].phase.Waiting? && s.channel != []
    requires s' == DoReceive(s, i)
    ensures Shape(c, s')
  {
    assert InFlightIds(c, s, s.channel[0]);
    forall k | 0 <= k < c.lanes ensures CellShape(c, s', k) { assert CellShape(c, s, k); }
    forall k | 0 <= k < c.workers ensures WorkerShape(c, s', s'.tasks[k]) { assert WorkerShape(c, s, s.tasks[k]); }
    forall k | 0 <= k < |s'.channel| ensures InFlightIds(c, s', s'.channel[k]) {
      assert InFlightIds(c, s, s.channel[k + 1]);
    }
  }

  lemma ConservedReceive(c: Config, s: State, i: nat, s': State)
    requires Conserved(c, s) && i < |s.tasks| && s.tasks[i].phase.Waiting? && s.channel != []
    requires s' == DoReceive(s, i)
    ensures Conserved(c, s')
  {
    forall k: nat ensures Holders(s', k) == Holders(s, k) {
      HoldersReceive(s, i, s', k);
    }
  }

  lemma HoldersReceive(s: State, i: nat, s': State, k: nat)
    requires i < |s.tasks| && s.tasks[i].phase.Waiting? && s.channel != [] && s' == DoReceive(s, i)
    ensures Holders(s', k) == Holders(s, k)
  {
    assert s'.tasks == s.tasks[i := s'.tasks[i]] && s'.cells == s.cells && s'.free == s.free;
    assert Held(s.tasks[i]).None? && Held(s'.tasks[i]) == WorkLane(s.channel[0]);
    Update(s.tasks, Held, i, s'.tasks[i], k);
    Behead(s.channel, WorkLane, k);
  }

  lemma NotifyStep(c: Config, s: State, i: nat)
    requires Inv(c, s) && i < c.workers && s.tasks[i].phase.Notifying?
    ensures Inv(c, DoNotify(s, i))
  {
    var s', j, l := DoNotify(s, i), s.tasks[i].phase.sleeper, s.tasks[i].lane;
    assert WorkerShape(c, s, s.tasks[i]);
    var m := PutTask(s, j, s.tasks[j].(woken := true));
    WokenStep(c, s, m, j);
    DropsNotify(c, m, s', i, l);
    WakesNotify(c, s, i, s');
  }

  lemma WokenStep(c: Config, s: State, m: State, j: nat)
    requires Inv(c, s) && c.workers <= j < |s.tasks|
    requires m == PutTask(s, j, s.tasks[j].(woken := true))
    ensures Inv(c, m)
  {
    var q := s.tasks[j].lane;
    assert StreamShape(c, j, s.tasks[j]) && CellShape(c, s, q) && EquipTask(s, j);
    LocalStep(c, s, m, j, q);
    LinksQuiet(c, s, m, j, q);
    forall k | c.workers <= k < |m.tasks| ensures WakeOf(c, m, k) {
      assert WakeOf(c, s, k);
      CallsSame(c, s, m, k);
    }
  }

  lemma DropsNotify(c: Config, m: State, s': State, i: nat, l: nat)
    requires Inv(c, m) && i < c.workers && m.tasks[i].phase.Notifying? && l == m.tasks[i].lane
    requires s' == Goto(m, i, Waiting)
    ensures Shape(c, s') && Conserved(c, s') && Equip(c, s') && Counters(s') && Marks(c, s') && Ledger(c, s')
    ensures Links(c, s') && !s'.fault
  {
    assert WorkerShape(c, m, m.tasks[i]) && CellShape(c, m, l) && EquipTask(m, i);
    LocalStep(c, m, s', i, l);
    LinksQuiet(c, m, s', i, l);
  }

  lemma WorkerStep(c: Config, s: State, i: nat)
    requires Inv(c, s) && Enabled(s, Advance(i)) && i < c.workers && !RoleOf(s.tasks[i].phase).Returns?
    ensures Inv(c, AdvanceWorker(s, i))
  {
    var p := s.tasks[i].phase;
    assert WorkerShape(c, s, s.tasks[i]);
    if p.Waiting? {
      ReceiveStep(c, s, i, DoReceive(s, i));
    } else if p.Publishing? {
      PublishStep(c, s, i);
    } else if p.Waking? {
      TakeWakerStep(c, s, i);
    } else if p.Notifying? {
      NotifyStep(c, s, i);
    } else {
      RunStep(c, s, i);
    }
  }

  // ------------------------------------------------------------- admission

  lemma AdmitStarts(c: Config, s: State)
    requires Inv(c, s) && s.free != [] && Quiet(s)
    ensures Inv(c, DoAdmit(s))
  {
    AdmitShape(c, s);
    ConservedAdmit(c, s);
    LinksAdmit(c, s);
    EquipAdmit(c, s);
    CountersAdmit(c, s);
    LedgerAdmit(c, s);
    WakesAdmit(c, s);
    var s' := DoAdmit(s);
    forall k | 0 <= k < |s'.tasks| ensures Current(c, s'.tasks[k]) {
      if k < |s.tasks| { assert Current(c, s.tasks[k]); }
    }
  }

  lemma AdmitShape(c: Config, s: State)
    requires Shape(c, s) && s.free != []
    ensures Shape(c, DoAdmit(s))
  {
    var s' := DoAdmit(s);
    forall k | 0 <= k < c.lanes ensures CellShape(c, s', k) { assert CellShape(c, s, k); }
    forall k | 0 <= k < c.workers ensures WorkerShape(c, s', s'.tasks[k]) { assert WorkerShape(c, s, s.tasks[k]); }
    forall k | c.workers <= k < |s'.tasks| ensures StreamShape(c, k, s'.tasks[k]) {
      if k < |s.tasks| { assert StreamShape(c, k, s.tasks[k]); }
    }
    forall k | 0 <= k < |s'.channel| ensures InFlightIds(c, s', s'.channel[k]) {
      assert InFlightIds(c, s, s.channel[k]);
    }
  }

  lemma ConservedAdmit(c: Config, s: State)
    requires Shape(c, s) && Conserved(c, s) && s.free != []
    ensures Conserved(c, DoAdmit(s))
  {
    var l, s' := s.free[|s.free| - 1], DoAdmit(s);
    var t := s'.tasks[|s.tasks|];
    assert s.free == s'.free + [l] && s'.tasks == s.tasks + [t] && s'.cells == s.cells[l := s'.cells[l]];
    assert Held(t) == Some(l) && ResultLane(s'.cells[l]) == ResultLane(s.cells[l]) && s'.channel == s.channel;
    forall k: nat ensures Holders(s', k) == Holders(s, k) {
      Append(s'.free, Itself, l, k);
      Append(s.tasks, Held, t, k);
      Update(s.cells, ResultLane, l, s'.cells[l], k);
    }
  }

  // ---------------------------------------------------------- whole machine

  /** Every step of every task keeps the invariant, provided that a lane with an
      unfinished job drop is not leased again. */
  lemma StepKeeps(c: Config, s: State, a: Action)
    requires Inv(c, s) && Enabled(s, a) && (a.Admit? ==> Quiet(s))
    ensures Inv(c, Next(c, s, a))
  {
    match a
    case Admit => AdmitStarts(c, s);
    case Advance(i) =>
      if RoleOf(s.tasks[i].phase).Returns? {
        ReturnStep(c, s, i);
      } else if i < c.workers {
        WorkerStep(c, s, i);
      } else {
        assert StreamShape(c, i, s.tasks[i]);
        if Submitting(s.tasks[i].phase) {
          SubmitStep(c, s, i);
        } else if RoleOf(s.tasks[i].phase).Leases? {
          AdmitStep(c, s, i);
        } else {
          JobStep(c, s, i);
        }
      }
    case DropLane(i) => DropLaneStep(c, s, i);
    case Submit(i) => SubmitStarts(c, s, i);
    case Poll(i) => PollStep(c, s, i);
    case DropJob(i) => DropJobStep(c, s, i);
  }

  lemma {:induction false} FreeTally(n: nat, k: nat)
    ensures Tally(InitialFree(n), Itself, k) == if k < n then 1 else 0
  {
    if n == 0 {
    } else {
      var s := InitialFree(n);
      Split(s, Itself, 0, k);
      assert s[..0] == [] && s[1..] == InitialFree(n - 1);
      FreeTally(n - 1, k);
    }
  }

  lemma InitKeeps(c: Config)
    requires 0 < c.workers && 0 < c.lanes
    ensures Inv(c, Init(c))
  {
    var s := Init(c);
    forall k: nat ensures Holders(s, k) == if k < c.lanes then 1 else 0 {
      FreeTally(c.lanes, k);
      Absent(s.tasks, Held, k);
      Absent(s.cells, ResultLane, k);
    }
    SizeZero(s.tasks, ActiveLane);
    SizeZero(s.tasks, QueuedLane);
    SizeZero(s.tasks, RunningLane);
    SizeZero(s.cells, ResultLane);
  }
}
