/**
  What one server-sent-event stream shows to the response body over a whole run
  (src/http_server.rs): every event a transition emitted is handed out once and in order,
  the callable and the wait kept behind an item are the ones its transition returned, and
  no transition begins before the wait it owes is over.

  `Observe` writes the ledgers of a `Trace` from outside, by looking at the world before and
  after a step; the steps themselves know nothing of them.
*/
module SseItems {
  import opened Bags
  import opened SseTransition

  /** `last`: the latest outcome that was taken out of the slot and not refused.
      `emitted`, `handed`, `lost`: the items of such outcomes, those a poll returned, and
      those that were primed when the stream was cancelled.
      `owed`: a wait was asked for and its timer has not fired since.
      `dropped`: the owner's value was dropped from outside. */
  datatype Trace = Trace(
    w: World, last: Option<Outcome>, emitted: seq<nat>, handed: seq<nat>, lost: seq<nat>, owed: bool, dropped: bool)

  function Start(): Trace { Trace(Initial(), None, [], [], [], false, false) }

  /** The outcome that a poll took out of the slot. */
  function TakenOut(w: World, a: Action, w': World): (o: Option<Outcome>) {
    if (a.Poll? || a.Repoll?) && w.slot.Ready? && !w'.slot.Ready? then Some(w.slot.outcome) else None
  }

  /** A transition is refused if it ended or failed, if its wait is too long, or if the first
      event of the stream is too large. */
  predicate Accepted(w: World, a: Action, o: Outcome)
    requires a.Poll? || a.Repoll?
  {
    && (o.Emit? || o.Parked?)
    && o.wait <= MAX_TRANSPORT_TIMEOUT_MS
    && (o.Emit? && a.oversized ==> w.committed)
  }

  function Fresh(w: World, a: Action, w': World): (o: Option<Outcome>)
    ensures o.Some? ==> o.value.Emit? || o.value.Parked?
  {
    var o := TakenOut(w, a, w');
    if o.Some? && Accepted(w, a, o.value) then o else None
  }

  function ItemOf(o: Option<Outcome>): seq<nat> { if o.Some? && o.value.Emit? then [o.value.item] else [] }

  function NextOf(o: Option<Outcome>): nat {
    if o.Some? && (o.value.Emit? || o.value.Parked?) then o.value.next else 0
  }

  function WaitOf(o: Option<Outcome>): nat {
    if o.Some? && (o.value.Emit? || o.value.Parked?) then o.value.wait else 0
  }

  /** The item a poll returned: the body starts sending it. */
  function HandedOut(w: World, a: Action, w': World): seq<nat> {
    if (a.Poll? || a.Repoll?) && w.out.None? then Held(w'.out) else []
  }

  /** An item waits to be handed out or is being sent. */
  predicate Showing(w: World) { w.out.Some? || w.primed.Some? }

  /** Is a wait owed after the step?  A wait starts when a transition that emitted nothing is
      taken, or when the item in front of it is drained, and it ends when a poll finds the
      timer fired. */
  predicate Owing(t: Trace, a: Action, o: Option<Outcome>) {
    if o.Some? && o.value.Parked? then o.value.wait != 0
    else if a.Drained? && !t.w.shut then WaitOf(t.last) != 0
    else t.owed && !(a.Poll? && a.wake && t.w.committed && !Showing(t.w))
  }

  function Observe(t: Trace, a: Action): (t': Trace)
    requires Enabled(t.w, a)
    ensures t'.w == Next(t.w, a)
  {
    var w' := Next(t.w, a);
    var o := Fresh(t.w, a, w');
    Trace(w', if o.Some? then o else t.last, t.emitted + ItemOf(o), t.handed + HandedOut(t.w, a, w'),
          t.lost + if a.Shutdown? || a.Drop? then Held(t.w.primed) else [], Owing(t, a, o), t.dropped || a.Drop?)
  }

  // -------------------------------------------------------------- invariant

  /** Nothing emitted is lost, doubled or reordered. */
  predicate Kept(t: Trace) {
    && t.emitted == t.handed + Held(t.w.primed) + t.lost
    && (t.w.out.Some? ==> t.handed != [] && t.handed[|t.handed| - 1] == t.w.out.value)
    && (t.w.primed.Some? || !t.w.committed ==> t.handed == [] && t.lost == [])
    && (t.lost != [] ==> t.handed == [] && |t.lost| == 1 && t.w.ended)
  }

  /** What is kept behind an item, and what is parked, came with the latest transition. */
  predicate Retained(t: Trace) {
    && (t.w.after.Some? ==>
          && t.last.Some? && t.last.value.Emit?
          && t.w.after == Some(t.last.value.next) && t.w.afterWait == t.last.value.wait
          && Some(t.last.value.item) == if t.w.primed.Some? then t.w.primed else t.w.out)
    && (t.w.source.Some? ==> t.w.source == Some(NextOf(t.last)))
    && (!t.w.committed ==> t.last.None?)
  }

  predicate Timed(t: Trace) {
    && (t.w.parked ==> t.w.source.Some? && t.w.committed)
    && (!t.w.ended ==> t.w.parked == t.owed)
    && (t.w.leaving ==> t.dropped || !t.w.committed)
  }

  /** While a queued job of this stream waits, its owner holds the ticket to call it back. */
  predicate Recall(w: World) {
    w.slot == Pending(true) && w.queue != [] && !w.ended ==>
      && (w.pc.AtRest? || w.pc.Repolling? ==> w.ticket == Some(w.queue[0].ticket))
      && (w.pc.Withdrawing? ==> w.pc.ticket == w.queue[0].ticket)
  }

  predicate Told(t: Trace) { Kept(t) && Retained(t) && Timed(t) && Recall(t.w) }

  // ------------------------------------------------------------- every step

  /** A step that touches none of the owner's fields a trace speaks of. */
  predicate Aside(w: World, w': World) {
    && w'.source == w.source && w'.after == w.after && w'.afterWait == w.afterWait && w'.primed == w.primed
    && w'.out == w.out && w'.parked == w.parked && w'.committed == w.committed && w'.ended == w.ended
    && w'.leaving == w.leaving
  }

  lemma AsideTells(t: Trace, a: Action)
    requires Told(t) && Enabled(t.w, a) && Aside(t.w, Next(t.w, a)) && Recall(Next(t.w, a))
    requires !(a.Poll? || a.Repoll? || a.Drained? || a.Shutdown? || a.Drop?)
    ensures Told(Observe(t, a))
  {
    var t' := Observe(t, a);
    assert t' == t.(w := t'.w);
  }

  /** The world after a look at a slot that holds a finished transition. */
  lemma DeliverTells(t: Trace, w: World, a: Action, o: Outcome, t': Trace)
    requires a.Poll? || a.Repoll?
    requires Kept(t) && Retained(t) && Timed(t) && Settled(w) && w.slot.Idle?
    requires w.committed == t.w.committed && t.w.primed.None? && t.w.out.None? && !t.owed
    requires !w.parked && !t.w.ended
    requires t'.w == Deliver(w, o, a.oversized)
    requires t'.last == (if Accepted(t.w, a, o) then Some(o) else t.last)
    requires t'.emitted == t.emitted + (if Accepted(t.w, a, o) then ItemOf(Some(o)) else [])
    requires t'.handed == t.handed + Held(t'.w.out) && t'.lost == t.lost && t'.dropped == t.dropped
    requires t'.owed == (Accepted(t.w, a, o) && o.Parked? && o.wait != 0)
    ensures Kept(t') && Retained(t') && Timed(t')
    ensures t'.w.ended <==> !Accepted(t.w, a, o)
    ensures t'.w.leaving <==> !t.w.committed && !Accepted(t.w, a, o) && !o.End?
  {
  }

  /** The owner takes a finished transition out of the slot. */
  lemma TakeTells(t: Trace, a: Action)
    requires Control(t.w) && Told(t) && (a.Poll? || a.Repoll?) && Enabled(t.w, a)
    requires t.w.slot.Ready? && !t.w.ended
    ensures Told(Observe(t, a))
    ensures Observe(t, a).w.ended <==> !Accepted(t.w, a, t.w.slot.outcome)
    ensures Observe(t, a).w.leaving <==>
              !t.w.committed && !Accepted(t.w, a, t.w.slot.outcome) && !t.w.slot.outcome.End?
  {
    var w, o := t.w, t.w.slot.outcome;
    var w1 := w.(slot := Idle, ticket := None);
    assert Settled(w1) && !w.parked;
    assert Next(w, a) == Deliver(w1, o, a.oversized);
    DeliverTells(t, w1, a, o, Observe(t, a));
  }

  /** The owner looks at a slot whose transition is still under way. */
  lemma WaitTells(t: Trace, a: Action)
    requires Control(t.w) && Told(t) && (a.Poll? || a.Repoll?) && Enabled(t.w, a)
    requires (t.w.slot.Pending? || t.w.slot.Running?) && !t.w.ended
    ensures Told(Observe(t, a))
  {
    var w' := Next(t.w, a);
    assert w' == t.w.(ticket := w'.ticket, pc := w'.pc);
    assert Recall(w');
  }

  lemma PollTells(t: Trace, a: Action)
    requires Control(t.w) && Told(t) && a.Poll? && t.w.pc.AtRest?
    requires t.w.ended || t.w.slot.Idle?
    ensures Told(Observe(t, a))
  {
    var w, w' := t.w, Next(t.w, a);
    if w.primed.Some? && w.committed {
      assert w' == w.(primed := None, out := w.primed);
    } else if w.ended || w.after.Some? || (w.parked && !a.wake) {
      assert w' == w;
    } else {
      assert w' == w.(hand := w.source, source := None, parked := false, pc := Beginning);
    }
  }

  lemma DrainTells(t: Trace)
    requires Control(t.w) && Told(t) && Enabled(t.w, Drained)
    ensures Told(Observe(t, Drained))
  {
  }

  /** Leaving, by a drop or by the shutdown wrapper. */
  lemma LeaveTells(t: Trace, a: Action)
    requires Control(t.w) && Told(t) && Enabled(t.w, a) && (a.Shutdown? || a.Drop?)
    ensures Told(Observe(t, a))
  {
  }

  /** An admission that was refused and a queue wait that ran out end the stream. */
  lemma FailTells(t: Trace, a: Action)
    requires Control(t.w) && Told(t) && Enabled(t.w, a) && (a.Abort? || a.GiveUp?)
    ensures Told(Observe(t, a)) && Observe(t, a).w.ended
  {
  }

  lemma SubmitTells(t: Trace, a: Action)
    requires Control(t.w) && Told(t) && Enabled(t.w, a) && (a.Begin? || a.Submit?)
    ensures Told(Observe(t, a))
  {
    AsideTells(t, a);
  }

  lemma CancelTells(t: Trace, a: Action)
    requires Control(t.w) && Told(t) && Enabled(t.w, a) && (a.Withdraw? || a.CancelTicket? || a.CancelSlot?)
    ensures Told(Observe(t, a))
  {
    AsideTells(t, a);
  }

  lemma WorkerTells(t: Trace, a: Action)
    requires Control(t.w) && Told(t) && Enabled(t.w, a)
    requires a.Claim? || a.Start? || a.Advance? || a.Complete?
    ensures Told(Observe(t, a))
  {
    AsideTells(t, a);
  }

  lemma StepTells(t: Trace, a: Action)
    requires Control(t.w) && Told(t) && Enabled(t.w, a)
    ensures Told(Observe(t, a))
  {
    if a.Poll? || a.Repoll? {
      if t.w.ended || t.w.slot.Idle? {
        PollTells(t, a);
      } else if t.w.slot.Ready? {
        TakeTells(t, a);
      } else {
        WaitTells(t, a);
      }
    } else if a.Drained? {
      DrainTells(t);
    } else if a.Shutdown? || a.Drop? {
      LeaveTells(t, a);
    } else if a.Abort? || a.GiveUp? {
      FailTells(t, a);
    } else if a.Begin? || a.Submit? {
      SubmitTells(t, a);
    } else if a.Withdraw? || a.CancelTicket? || a.CancelSlot? {
      CancelTells(t, a);
    } else {
      WorkerTells(t, a);
    }
  }

  // ---------------------------------------------------------------- theorems

  ghost predicate Follows(t: Trace, t': Trace) { exists a :: Enabled(t.w, a) && Observe(t, a) == t' }

  ghost predicate IsTrace(ts: seq<Trace>) {
    && ts != [] && ts[0] == Start()
    && forall i :: 0 <= i < |ts| - 1 ==> Follows(ts[i], ts[i + 1])
  }

  lemma FollowsKeeps(t: Trace, t': Trace)
    requires Inv(t.w) && Told(t) && Follows(t, t')
    ensures Inv(t'.w) && Told(t')
  {
    var a :| Enabled(t.w, a) && Observe(t, a) == t';
    StepKeeps(t.w, a);
    StepTells(t, a);
  }

  lemma StartTells(t: Trace)
    requires t == Start()
    ensures Inv(t.w) && Told(t)
  {
    InitKeeps();
  }

  lemma {:induction false} ToldAlways(ts: seq<Trace>)
    requires IsTrace(ts)
    ensures Inv(ts[|ts| - 1].w) && Told(ts[|ts| - 1])
    decreases |ts|
  {
    if |ts| == 1 {
      StartTells(ts[0]);
    } else {
      ToldAlways(ts[..|ts| - 1]);
      FollowsKeeps(ts[|ts| - 2], ts[|ts| - 1]);
    }
  }

  /** In every run of one stream: the items of its transitions are the ones handed out, in
      order, then the one still primed or lost to a cancel; only the first one can be lost, and
      only by a cancel.  The item being sent is the last one handed out, and until the stream is
      cancelled the callable and the wait kept behind it are those its transition returned.
      No transition begins while a wait is owed.  The owner leaves only if it was dropped, or
      if its first transition was refused. */
  lemma ItemsInOrder(ts: seq<Trace>)
    requires IsTrace(ts)
    ensures var t := ts[|ts| - 1];
      && t.emitted == t.handed + Held(t.w.primed) + t.lost
      && (t.lost != [] ==> t.handed == [] && |t.lost| == 1 && t.w.ended)
      && (t.w.out.Some? ==> t.handed != [] && t.handed[|t.handed| - 1] == t.w.out.value)
      && (Showing(t.w) && !t.w.ended ==>
            && t.last.Some? && t.last.value.Emit? && t.emitted[|t.emitted| - 1] == t.last.value.item
            && t.w.after == Some(t.last.value.next) && t.w.afterWait == t.last.value.wait)
      && (t.w.pc.Beginning? || t.w.pc.Submitting? ==> !t.owed)
      && (t.w.leaving ==> t.dropped || !t.w.committed)
  {
    ToldAlways(ts);
  }

  lemma FailsAtRest(w: World)
    ensures !Fail(w).pc.Beginning? && !Leave(w).pc.Beginning?
  {
  }

  lemma DeliverBeginsNone(w: World, o: Outcome, oversized: bool)
    ensures !Deliver(w, o, oversized).pc.Beginning?
  {
    if (o.Emit? || o.Parked?) && o.wait > MAX_TRANSPORT_TIMEOUT_MS {
      FailsAtRest(Release(w, Some(o.next)));
    } else if o.Emit? {
      FailsAtRest(Release(w, Some(o.next)).(ended := true));
    } else if !o.Parked? {
      FailsAtRest(w);
    }
  }

  /** A look at a slot that is not idle begins nothing. */
  lemma NoneBegins(w: World, seen: SlotPoll, fired: bool, oversized: bool)
    requires !seen.SawIdle?
    ensures !Settle(w, seen, fired, oversized).pc.Beginning?
  {
    if seen.SawReady? {
      DeliverBeginsNone(w.(ticket := None), seen.outcome, oversized);
    } else if seen.SawCancelled? {
      FailsAtRest(w);
    }
  }

  lemma PollStartsHere(t: Trace, wake: bool, fired: bool, oversized: bool)
    requires Control(t.w) && Told(t) && t.w.pc.AtRest?
    ensures var w' := Next(t.w, Poll(wake, fired, oversized));
      && (w'.pc.Beginning? <==> !t.w.ended && !Showing(t.w) && t.w.slot.Idle? && (t.owed ==> wake))
      && (w'.pc.Beginning? ==> w'.hand == Some(NextOf(t.last)))
  {
    var w := t.w;
    if w.slot.Idle? || w.ended {
      if w.primed.Some? || w.ended || w.after.Some? || (w.parked && !wake) {
        assert Showing(w) || w.ended || t.owed;
      } else {
        assert w.source == Some(NextOf(t.last));
      }
    } else {
      var (slot, seen) := Polled(w.slot);
      NoneBegins(w.(slot := slot, parked := false), seen, fired, oversized);
    }
  }

  /** A poll at rest starts the parked callable exactly if the stream has not ended, no item is
      primed or out, no transition is under way, and a wait that is owed is over. */
  lemma PollStarts(ts: seq<Trace>, wake: bool, fired: bool, oversized: bool)
    requires IsTrace(ts) && ts[|ts| - 1].w.pc.AtRest?
    ensures var t := ts[|ts| - 1];
            var w' := Next(t.w, Poll(wake, fired, oversized));
      && (w'.pc.Beginning? <==> !t.w.ended && !Showing(t.w) && t.w.slot.Idle? && (t.owed ==> wake))
      && (w'.pc.Beginning? ==> w'.hand == Some(NextOf(t.last)))
  {
    ToldAlways(ts);
    PollStartsHere(ts[|ts| - 1], wake, fired, oversized);
  }

  /** A finished transition that a poll finds: the stream goes on exactly if it emitted or
      waited, its wait is within the limit and its first event is not too large.  Of the
      others, only an end lets a stream that has not begun to answer stay. */
  lemma PollTakes(ts: seq<Trace>, a: Action)
    requires IsTrace(ts) && (a.Poll? || a.Repoll?) && Enabled(ts[|ts| - 1].w, a)
    requires ts[|ts| - 1].w.slot.Ready? && !ts[|ts| - 1].w.ended
    ensures var t := ts[|ts| - 1];
            var o := t.w.slot.outcome;
            var w' := Observe(t, a).w;
      && (w'.ended <==> !((o.Emit? || o.Parked?) && o.wait <= MAX_TRANSPORT_TIMEOUT_MS
                         && (o.Emit? && a.oversized ==> t.w.committed)))
      && (w'.leaving <==> w'.ended && !t.w.committed && !o.End?)
      && (o.Emit? && !w'.ended ==> if t.w.committed then w'.out == Some(o.item) else w'.primed == Some(o.item))
      && (o.Parked? && !w'.ended ==> w'.source == Some(o.next) && w'.parked == (o.wait != 0))
  {
    ToldAlways(ts);
    TakeTells(ts[|ts| - 1], a);
  }

  /** A queued job of this stream that no worker has claimed when its queue wait runs out is
      called back: the stream ends, and its callable is released and never run. */
  lemma QueueWaitRunsOut(ts: seq<Trace>, wake: bool, oversized: bool)
    requires IsTrace(ts)
    requires var w := ts[|ts| - 1].w; w.pc.AtRest? && !w.ended && w.slot == Pending(true) && w.queue != []
    ensures Enabled(Next(ts[|ts| - 1].w, Poll(wake, true, oversized)), Withdraw)
    ensures Enabled(Next(Next(ts[|ts| - 1].w, Poll(wake, true, oversized)), Withdraw), GiveUp)
    ensures var w := ts[|ts| - 1].w;
            var w' := Next(Next(Next(w, Poll(wake, true, oversized)), Withdraw), GiveUp);
      && w'.ended && w'.queue == [] && w'.slot == Cancelled && w'.leaving == !w.committed
      && w'.released == w.released + [w.queue[0].callable] && w'.advanced == w.advanced
  {
    ToldAlways(ts);
    var w := ts[|ts| - 1].w;
    assert !w.parked && |w.queue| == 1;
    var w1 := Next(w, Poll(wake, true, oversized));
    assert w1 == w.(ticket := None, pc := Withdrawing(w.queue[0].ticket));
    assert Position(w1.queue, w1.pc.ticket) == 0;
  }

  lemma FollowsStep(t: Trace, w': World) returns (t': Trace)
    requires Step(t.w, w')
    ensures Follows(t, t') && t'.w == w'
  {
    var a :| Enabled(t.w, a) && Next(t.w, a) == w';
    t' := Observe(t, a);
  }

  lemma TraceExtends(ts: seq<Trace>, t: Trace)
    requires IsTrace(ts) && Follows(ts[|ts| - 1], t)
    ensures IsTrace(ts + [t])
  {
    var more := ts + [t];
    forall i | 0 <= i < |more| - 1 ensures Follows(more[i], more[i + 1]) {
      assert i < |ts| - 1 ==> Follows(ts[i], ts[i + 1]);
    }
  }

  /** Every run of a stream has its trace. */
  lemma {:induction false} EveryRunIsTraced(run: seq<World>) returns (ts: seq<Trace>)
    requires IsRun(run)
    ensures IsTrace(ts) && |ts| == |run| && forall i :: 0 <= i < |run| ==> ts[i].w == run[i]
    decreases |run|
  {
    if |run| == 1 {
      return [Start()];
    }
    var n := |run| - 1;
    assert Step(run[n - 1], run[n]);
    var before := EveryRunIsTraced(run[..n]);
    var t := FollowsStep(before[n - 1], run[n]);
    TraceExtends(before, t);
    ts := before + [t];
  }
}
