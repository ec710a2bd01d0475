/**
  One server-sent-event stream (src/http_server.rs): the completion slot shared by a
  worker and the stream's owner, and the way one affine Roc callable is passed through
  parking, submission, execution, completion and draining.

  `CompletionSlot` is the object behind the slot's mutex.  `World` runs the owner, the
  executor queue and the workers over the same transition functions, one step per
  lock-held region.  A failed assertion, `expect` or `panic!` of the source sets
  `panicked`.
*/
module SseTransition {
  import opened Bags
  import Exec = RocExecutor

  const MAX_TRANSPORT_TIMEOUT_MS := 24 * 60 * 60 * 1000

  /** What advancing a callable produced: `item` is the event to send, `next` the callable it returned. */
  datatype Outcome =
    | Emit(item: nat, next: nat, wait: nat)
    | Parked(next: nat, wait: nat)
    | End
    | Failed
    | Panicked

  function Carried(o: Outcome): Option<nat> {
    if o.Emit? || o.Parked? then Some(o.next) else None
  }

  function CarriedBy(o: Option<Outcome>): Option<nat> { if o.Some? then Carried(o.value) else None }

  // -------------------------------------------------------- completion slot

  datatype Slot = Idle | Pending(queued: bool) | Running | Ready(outcome: Outcome) | Cancelled

  datatype SlotPoll = SawIdle | SawQueued | SawActive | SawReady(outcome: Outcome) | SawCancelled

  // What each region under the slot's lock does, for the object and for the machine alike.

  const BEGUN := Pending(false)

  function Marked(s: Slot): Slot { if s.Pending? then Pending(true) else s }

  function Launched(s: Slot): Slot { if s.Pending? then Running else s }

  function Finished(s: Slot, o: Outcome): Slot { if s.Running? then Ready(o) else s }

  /** The result that nobody will take, when a transition finishes. */
  function Unclaimed(s: Slot, o: Outcome): Option<Outcome> { if s.Running? then None else Some(o) }

  /** The result that nobody will take, when the slot is cancelled. */
  function Untaken(s: Slot): Option<Outcome> { if s.Ready? then Some(s.outcome) else None }

  function Polled(s: Slot): (Slot, SlotPoll) {
    match s
    case Idle => (s, SawIdle)
    case Pending(queued) => (s, if queued then SawQueued else SawActive)
    case Running => (s, SawActive)
    case Ready(o) => (Idle, SawReady(o))
    case Cancelled => (s, SawCancelled)
  }

  /** The source panics unless the slot is pending or cancelled. */
  predicate MayStart(s: Slot, wasQueued: bool) {
    s.Cancelled? || (s.Pending? && (wasQueued ==> s.queued))
  }

  /** The source panics unless the slot is running or cancelled. */
  predicate MayComplete(s: Slot) { s.Running? || s.Cancelled? }

  class CompletionSlot {
    var state: Slot

    constructor ()
      ensures state == Idle
    {
      state := Idle;
    }

    method Begin()
      requires state == Idle
      modifies this
      ensures state == BEGUN
    {
      state := Pending(false);
    }

    method AbortBegin()
      requires state.Pending?
      modifies this
      ensures state == Idle
    {
      state := Idle;
    }

    method MarkQueued()
      modifies this
      ensures state == Marked(old(state))
    {
      if state.Pending? {
        state := Pending(true);
      }
    }

    method StartRunning(wasQueued: bool) returns (started: bool)
      requires MayStart(state, wasQueued)
      modifies this
      ensures started == old(state).Pending? && state == Launched(old(state))
    {
      started := state.Pending?;
      if started {
        state := Running;
      }
    }

    /** `dropped` is the result that nobody will take. */
    method Complete(result: Outcome) returns (dropped: Option<Outcome>)
      requires MayComplete(state)
      modifies this
      ensures state == Finished(old(state), result) && dropped == Unclaimed(old(state), result)
    {
      if state.Running? {
        state := Ready(result);
        return None;
      }
      dropped := Some(result);
    }

    method Poll() returns (seen: SlotPoll)
      modifies this
      ensures (state, seen) == Polled(old(state))
    {
      match state {
        case Idle => seen := SawIdle;
        case Pending(queued) => seen := if queued then SawQueued else SawActive;
        case Running => seen := SawActive;
        case Ready(result) =>
          state := Idle;
          seen := SawReady(result);
        case Cancelled => seen := SawCancelled;
      }
    }

    method Cancel() returns (dropped: Option<Outcome>)
      modifies this
      ensures state == Cancelled && dropped == Untaken(old(state))
    {
      dropped := if state.Ready? then Some(state.outcome) else None;
      state := Cancelled;
    }
  }

  // ------------------------------------------------------------------ world

  datatype Job = Job(ticket: nat, kind: Exec.AdmissionClass, callable: nat)

  /** A worker that claimed a job of this stream. */
  datatype Claimer = Claimed(callable: nat, wasQueued: bool) | Started(callable: nat) | Stepped(outcome: Outcome) | Done

  /** Where the owner is, between two lock-held regions. */
  datatype Pc =
    | AtRest
    | Beginning | Submitting | Aborting | Repolling   // start_advance and the second poll
    | Withdrawing(ticket: nat) | GivingUp               // queue timeout in poll_transition
    | Cancelling(ticket: nat) | Closing                 // cancel_now
    | Dropped

  /** `leaving`: the owner value is being dropped, so `Closing` ends in `Dropped`.
      `committed`: precommit has succeeded and the response body polls the source.
      `shut`: the shutdown wrapper has cancelled the source.
      `primed`: the item of the first transition; `out`: the item the body is sending. */
  datatype World = World(
    slot: Slot, source: Option<nat>, after: Option<nat>, afterWait: nat, hand: Option<nat>,
    primed: Option<nat>, out: Option<nat>, parked: bool, ticket: Option<nat>,
    ended: bool, committed: bool, shut: bool, leaving: bool, pc: Pc,
    queue: seq<Job>, claims: seq<Claimer>, nextTicket: nat,
    created: nat, advanced: seq<nat>, released: seq<nat>, panicked: bool)

  datatype Action =
    | Poll(wake: bool, fired: bool, oversized: bool)
    | Begin
    | Submit(admission: Option<Exec.AdmissionClass>)
    | Abort
    | Repoll(fired: bool, oversized: bool)
    | Withdraw
    | GiveUp
    | Drained
    | Shutdown
    | Drop
    | CancelTicket
    | CancelSlot
    | Claim
    | Start(claim: nat)
    | Advance(claim: nat, outcome: Outcome)
    | Complete(claim: nat)

  function Initial(): World {
    World(Idle, Some(0), None, 0, None, None, None, false, None, false, false, false, false, AtRest,
          [], [], 0, 1, [], [], false)
  }

  function Panic(w: World): World { w.(panicked := true) }

  function Held(x: Option<nat>): seq<nat> { if x.Some? then [x.value] else [] }

  /** Drop whatever is in `x`. */
  function Release(w: World, x: Option<nat>): World { w.(released := w.released + Held(x)) }

  function Park(w: World, callable: nat, wait: nat): World {
    w.(source := Some(callable), parked := wait != 0)
  }

  /** An error of the transition: the body's poll ends the stream, precommit drops it. */
  function Fail(w: World): (w': World)
    ensures w'.created == w.created
  {
    if w.committed then w.(ended := true, pc := AtRest) else Leave(w)
  }

  /** `Drop for RocSseItemSource`. */
  function Leave(w: World): (w': World)
    ensures w'.created == w.created
  {
    if w.ended then w.(leaving := true, pc := Dropped) else CancelNow(w.(leaving := true))
  }

  /** The local part of `cancel_now`, up to its first lock. */
  function CancelNow(w: World): (w': World)
    ensures w'.created == w.created
  {
    w.(released := w.released + Held(w.source) + Held(w.after),
       ended := true, source := None, after := None, primed := None, parked := false, ticket := None,
       pc := if w.ticket.Some? then Cancelling(w.ticket.value) else Closing)
  }

  /** What the owner does with a finished transition. */
  function Deliver(w: World, o: Outcome, oversized: bool): (w': World)
    ensures w'.created == w.created
  {
    match o
    case Panicked => Fail(w)
    case Failed => Fail(w)
    case End => w.(ended := true, committed := true, pc := AtRest)
    case Emit(item, next, wait) =>
      if wait > MAX_TRANSPORT_TIMEOUT_MS then Fail(Release(w, Some(next)))
      else if w.committed then w.(after := Some(next), afterWait := wait, out := Some(item), pc := AtRest)
      else if oversized then Leave(Release(w, Some(next)).(ended := true))
      else w.(after := Some(next), afterWait := wait, primed := Some(item), committed := true, pc := AtRest)
    case Parked(next, wait) =>
      if wait > MAX_TRANSPORT_TIMEOUT_MS then Fail(Release(w, Some(next)))
      else Park(w.(committed := true, pc := AtRest), next, wait)
  }

  /** `poll_transition` after a look at the slot. */
  function Settle(w: World, seen: SlotPoll, fired: bool, oversized: bool): (w': World)
    ensures w'.created == w.created
  {
    match seen
    case SawIdle => Panic(w)
    case SawQueued =>
      if fired && w.ticket.Some? then w.(ticket := None, pc := Withdrawing(w.ticket.value)) else w.(pc := AtRest)
    case SawActive => w.(ticket := None, pc := AtRest)
    case SawReady(o) => Deliver(w.(ticket := None), o, oversized)
    case SawCancelled => Fail(w)
  }

  /** `poll_transition`, first look: an idle slot starts the parked callable. */
  function PollTransition(w: World, fired: bool, oversized: bool): (w': World)
    ensures w'.created == w.created
  {
    var (slot, seen) := Polled(w.slot);
    if seen.SawIdle? then
      if w.source.None? then Panic(w) else w.(hand := w.source, source := None, pc := Beginning)
    else
      Settle(w.(slot := slot), seen, fired, oversized)
  }

  /** `poll_item`, or one poll of `precommit`. */
  function DoPoll(w: World, wake: bool, fired: bool, oversized: bool): (w': World)
    ensures w'.created == w.created
  {
    if !w.committed then PollTransition(w, fired, oversized)
    else if w.primed.Some? then w.(primed := None, out := w.primed)
    else if w.ended || w.after.Some? || (w.parked && !wake) then w
    else PollTransition(w.(parked := false), fired, oversized)
  }

  function DoSubmit(w: World, admission: Option<Exec.AdmissionClass>): (w': World)
    requires w.hand.Some?
    ensures w'.created == w.created
  {
    if admission.None? then w.(pc := Aborting)
    else
      var kind := admission.value;
      w.(slot := if kind.Queued? then Marked(w.slot) else w.slot,
         queue := w.queue + [Job(w.nextTicket, kind, w.hand.value)], nextTicket := w.nextTicket + 1,
         ticket := if kind.Queued? then Some(w.nextTicket) else w.ticket, hand := None, pc := Repolling)
  }

  function Position(queue: seq<Job>, t: nat): (p: nat)
    ensures p <= |queue|
    ensures p < |queue| ==> queue[p].ticket == t
    ensures forall i :: 0 <= i < p ==> queue[i].ticket != t
  {
    if queue == [] || queue[0].ticket == t then 0 else 1 + Position(queue[1..], t)
  }

  /** `cancel_queued`: take our job back if no worker has claimed it. */
  function TakeBack(w: World, t: nat): (w': World)
    ensures w'.created == w.created
  {
    var p := Position(w.queue, t);
    if p == |w.queue| then w
    else w.(queue := w.queue[..p] + w.queue[p + 1..], hand := Some(w.queue[p].callable),
            panicked := w.panicked || w.queue[p].kind != Exec.Queued)
  }

  function CancelTheSlot(w: World): (w': World)
    ensures w'.created == w.created
  {
    Release(w, CarriedBy(Untaken(w.slot))).(slot := Cancelled)
  }

  function DropHand(w: World): (w': World)
    ensures w'.created == w.created
  {
    Release(w, w.hand).(hand := None)
  }

  predicate Enabled(w: World, a: Action) {
    match a
    case Poll(_, _, _) => w.pc.AtRest?
    case Begin => w.pc.Beginning?
    case Submit(_) => w.pc.Submitting? && w.hand.Some?
    case Abort => w.pc.Aborting?
    case Repoll(_, _) => w.pc.Repolling?
    case Withdraw => w.pc.Withdrawing?
    case GiveUp => w.pc.GivingUp?
    case Drained => w.pc.AtRest? && w.out.Some?
    case Shutdown => w.pc.AtRest? && w.committed && !w.shut
    case Drop => w.pc.AtRest?
    case CancelTicket => w.pc.Cancelling?
    case CancelSlot => w.pc.Closing?
    case Claim => w.queue != []
    case Start(i) => i < |w.claims| && w.claims[i].Claimed?
    case Advance(i, o) =>
      i < |w.claims| && w.claims[i].Started? && (Carried(o).Some? ==> Carried(o).value == w.created)
    case Complete(i) => i < |w.claims| && w.claims[i].Stepped?
  }

  /** Only Roc code that advances a callable brings a new one to life. */
  function Next(w: World, a: Action): (w': World)
    requires Enabled(w, a)
    ensures w'.created == w.created + if a.Advance? then Any(Carried(a.outcome)) else 0
  {
    match a
    case Poll(wake, fired, oversized) => DoPoll(w, wake, fired, oversized)
    case Begin => DoBegin(w)
    case Submit(admission) => DoSubmit(w, admission)
    case Abort => DoAbort(w)
    case Repoll(fired, oversized) => DoRepoll(w, fired, oversized)
    case Withdraw => DoWithdraw(w, w.pc.ticket)
    case GiveUp => DoGiveUp(w)
    case Drained => DoDrained(w)
    case Shutdown => CancelNow(w.(shut := true))
    case Drop => Leave(w)
    case CancelTicket => DoCancelTicket(w, w.pc.ticket)
    case CancelSlot => DoCancelSlot(w)
    case Claim => DoClaim(w)
    case Start(i) => DoStart(w, i)
    case Advance(i, o) => DoAdvance(w, i, o)
    case Complete(i) => DoComplete(w, i)
  }

  function DoAbort(w: World): (w': World)
    ensures w'.created == w.created
  {
    Fail(DropHand(w.(slot := Idle, panicked := w.panicked || !w.slot.Pending?)))
  }

  function DoGiveUp(w: World): (w': World)
    ensures w'.created == w.created
  {
    Fail(DropHand(CancelTheSlot(w)))
  }

  function DoCancelTicket(w: World, t: nat): (w': World)
    ensures w'.created == w.created
  {
    DropHand(TakeBack(w, t)).(pc := Closing)
  }

  function DoCancelSlot(w: World): (w': World)
    ensures w'.created == w.created
  {
    CancelTheSlot(w).(pc := if w.leaving then Dropped else AtRest)
  }

  function DoClaim(w: World): (w': World)
    requires w.queue != []
    ensures w'.created == w.created
  {
    w.(queue := w.queue[1..], claims := w.claims + [Claimed(w.queue[0].callable, w.queue[0].kind.Queued?)])
  }

  /** Roc runs the callable, which returns the next one, if any. */
  function DoAdvance(w: World, i: nat, o: Outcome): (w': World)
    requires i < |w.claims| && w.claims[i].Started?
    ensures w'.created == w.created + Any(Carried(o))
  {
    w.(claims := w.claims[i := Stepped(o)], advanced := w.advanced + [w.claims[i].callable],
       created := w.created + Any(Carried(o)))
  }

  function DoBegin(w: World): (w': World)
    ensures w'.created == w.created
  {
    w.(slot := BEGUN, pc := Submitting, panicked := w.panicked || !w.slot.Idle?)
  }

  /** `poll_transition`, second look. */
  function DoRepoll(w: World, fired: bool, oversized: bool): (w': World)
    ensures w'.created == w.created
  {
    var (slot, seen) := Polled(w.slot);
    Settle(w.(slot := slot), seen, fired, oversized)
  }

  function DoWithdraw(w: World, t: nat): (w': World)
    ensures w'.created == w.created
  {
    var w1 := TakeBack(w, t);
    w1.(pc := if w1.hand.Some? then GivingUp else AtRest)
  }

  /** `item_drained`, through the shutdown wrapper. */
  function DoDrained(w: World): (w': World)
    ensures w'.created == w.created
  {
    if w.shut then w.(out := None)
    else if w.after.None? then Panic(w)
    else Park(w.(out := None, after := None), w.after.value, w.afterWait)
  }

  function DoStart(w: World, i: nat): (w': World)
    requires i < |w.claims| && w.claims[i].Claimed?
    ensures w'.created == w.created
  {
    var x := w.claims[i];
    var go := w.slot.Pending?;
    w.(slot := Launched(w.slot),
       claims := w.claims[i := if go then Started(x.callable) else Done],
       released := w.released + Held(if go then None else Some(x.callable)),
       panicked := w.panicked || !MayStart(w.slot, x.wasQueued))
  }

  function DoComplete(w: World, i: nat): (w': World)
    requires i < |w.claims| && w.claims[i].Stepped?
    ensures w'.created == w.created
  {
    var o := w.claims[i].outcome;
    w.(slot := Finished(w.slot, o),
       claims := w.claims[i := Done],
       released := w.released + Held(CarriedBy(Unclaimed(w.slot, o))),
       panicked := w.panicked || !MayComplete(w.slot))
  }

  // -------------------------------------------------------------- invariant

  function JobCallable(j: Job): Option<nat> { Some(j.callable) }

  function ClaimCallable(x: Claimer): Option<nat> {
    match x
    case Claimed(c, _) => Some(c)
    case Started(c) => Some(c)
    case Stepped(o) => Carried(o)
    case Done => None
  }

  function SlotCallable(s: Slot): Option<nat> { if s.Ready? then Carried(s.outcome) else None }

  /** In how many places callable `k` is owned. */
  ghost function Owners(w: World, k: nat): nat {
    One(w.source, k) + One(w.after, k) + One(w.hand, k) + One(SlotCallable(w.slot), k)
    + Tally(w.queue, JobCallable, k) + Tally(w.claims, ClaimCallable, k)
  }

  /** How often callable `k` is owned, was advanced, or was released. */
  ghost function Account(w: World, k: nat): nat {
    Owners(w, k) + Tally(w.advanced, Itself, k) + Tally(w.released, Itself, k)
  }

  /** Every callable ever returned by Roc is owned once, or was advanced once, or was
      released once. */
  ghost predicate Affine(w: World) {
    forall k: nat :: Account(w, k) == if k < w.created then 1 else 0
  }

  function Unstarted(x: Claimer): Option<nat> { if x.Claimed? then Some(0) else None }

  function Underway(x: Claimer): Option<nat> { if x.Started? || x.Stepped? then Some(0) else None }

  /** Jobs of this stream that no worker has started, and jobs that one has. */
  function Waiting(w: World): nat { |w.queue| + Size(w.claims, Unstarted) }

  function InProgress(w: World): nat { Size(w.claims, Underway) }

  /** The slot tells how far the one job of this stream is. */
  predicate Flow(w: World) {
    match w.slot
    case Idle => Waiting(w) == 0 && InProgress(w) == 0
    case Ready(_) => Waiting(w) == 0 && InProgress(w) == 0
    case Pending(_) =>
      InProgress(w) == 0
      && (if w.pc.Submitting? || w.pc.Aborting? || w.pc.GivingUp? then Waiting(w) == 0
          else if w.pc.Closing? then Waiting(w) <= 1
          else Waiting(w) == 1)
    case Running => Waiting(w) == 0 && InProgress(w) == 1
    case Cancelled => Waiting(w) + InProgress(w) <= 1
  }

  /** No job here was admitted as queued. */
  predicate Unqueued(queue: seq<Job>, claims: seq<Claimer>) {
    && (forall p :: 0 <= p < |queue| ==> queue[p].kind != Exec.Queued)
    && (forall i :: 0 <= i < |claims| && claims[i].Claimed? ==> !claims[i].wasQueued)
  }

  predicate Numbered(queue: seq<Job>, next: nat) { forall p :: 0 <= p < |queue| ==> queue[p].ticket < next }

  predicate TicketKnown(queue: seq<Job>, t: nat) {
    forall p :: 0 <= p < |queue| && queue[p].ticket == t ==> queue[p].kind == Exec.Queued
  }

  /** A job admitted as queued is marked so, and a ticket in hand names a queued job. */
  predicate Marks(w: World) {
    && (w.slot == Pending(false) ==> Unqueued(w.queue, w.claims))
    && Numbered(w.queue, w.nextTicket)
    && (w.ticket.Some? ==> TicketKnown(w.queue, w.ticket.value))
    && (w.pc.Withdrawing? || w.pc.Cancelling? ==> TicketKnown(w.queue, w.pc.ticket))
  }

  predicate Empty(w: World) { w.source.None? && w.after.None? }

  predicate OwnerOk(w: World) {
    match w.pc
    case AtRest =>
      && w.hand.None? && !w.leaving
      && (if w.ended then Empty(w) && w.committed && (w.slot.Idle? || w.slot.Cancelled?)
          else if w.slot.Idle? then w.source.Some? != w.after.Some? && w.ticket.None?
          else Empty(w) && !w.slot.Cancelled?)
    case Beginning => w.hand.Some? && Empty(w) && w.slot.Idle? && !w.ended && w.ticket.None? && !w.leaving
    case Submitting => w.hand.Some? && Empty(w) && w.slot == Pending(false) && !w.ended && w.ticket.None? && !w.leaving
    case Aborting => w.hand.Some? && Empty(w) && w.slot == Pending(false) && !w.ended && w.ticket.None? && !w.leaving
    case Repolling => w.hand.None? && Empty(w) && !w.slot.Idle? && !w.slot.Cancelled? && !w.ended && !w.leaving
    case Withdrawing(_) =>
      w.hand.None? && Empty(w) && !w.slot.Idle? && !w.slot.Cancelled? && !w.ended && !w.leaving && w.ticket.None?
    case GivingUp => w.hand.Some? && Empty(w) && w.slot.Pending? && !w.ended && !w.leaving && w.ticket.None?
    case Cancelling(_) => w.hand.None? && Empty(w) && w.ended && w.ticket.None?
    case Closing => w.hand.None? && Empty(w) && w.ended
    case Dropped => w.hand.None? && Empty(w) && w.ended && (w.slot.Idle? || w.slot.Cancelled?)
  }

  /** An item that is out, or about to go out, has its next callable retained. */
  predicate Items(w: World) {
    && (w.after.Some? ==> w.committed && w.out.Some? != w.primed.Some?)
    && (w.primed.Some? ==> w.after.Some?)
    && (w.out.Some? ==> w.committed && (w.after.Some? || w.shut || w.leaving))
    && (w.shut ==> w.ended && w.committed)
    && (!w.committed ==> !w.ended || w.leaving)
  }

  predicate Control(w: World) { OwnerOk(w) && Flow(w) && Marks(w) && Items(w) && !w.panicked }

  ghost predicate Inv(w: World) { Control(w) && Affine(w) }

  // ------------------------------------------------- every step keeps control

  lemma InitControl()
    ensures Control(Initial())
  {
  }

  /** Leaving from a state without a job in hand. */
  lemma CancelNowControl(w: World)
    requires w.hand.None? && !w.panicked && Flow(w) && Marks(w)
    requires w.slot.Pending? ==> w.pc.AtRest? || w.pc.Repolling?
    requires w.out.Some? ==> w.committed && (w.after.Some? || w.shut || w.leaving)
    requires !w.committed ==> !w.shut && w.leaving
    requires w.out.Some? && w.after.Some? ==> w.shut || w.leaving
    ensures Control(CancelNow(w))
  {
    var w' := CancelNow(w);
    assert w'.queue == w.queue && w'.claims == w.claims && w'.slot == w.slot;
    assert Flow(w');
    assert Marks(w');
  }

  /** A transition is over: nothing is in flight and the owner's fields are empty. */
  predicate Settled(w: World) {
    && w.hand.None? && Empty(w) && w.ticket.None? && !w.ended && !w.leaving && !w.shut
    && w.out.None? && w.primed.None? && !w.panicked
    && (w.slot.Idle? || w.slot.Cancelled?) && w.queue == [] && Size(w.claims, Unstarted) == 0
    && InProgress(w) == 0
  }

  lemma FailControl(w: World)
    requires Settled(w)
    ensures Control(Fail(w))
  {
    if !w.committed {
      CancelNowControl(w.(leaving := true));
    }
  }

  lemma DeliverControl(w: World, o: Outcome, oversized: bool)
    requires Settled(w) && w.slot.Idle?
    ensures Control(Deliver(w, o, oversized))
  {
    if (o.Emit? || o.Parked?) && o.wait > MAX_TRANSPORT_TIMEOUT_MS {
      FailControl(Release(w, Some(o.next)));
    } else if o.Failed? || o.Panicked? {
      FailControl(w);
    }
  }

  /** The state right after the owner looked at a slot that is not idle. */
  lemma LookControl(w: World, fired: bool, oversized: bool)
    requires Control(w) && (w.pc.AtRest? || w.pc.Repolling?) && !w.ended && !w.slot.Idle?
    ensures var (slot, seen) := Polled(w.slot);
            Control(Settle(w.(slot := slot), seen, fired, oversized))
  {
    var (slot, seen) := Polled(w.slot);
    var w1 := w.(slot := slot);
    if seen.SawReady? {
      DeliverControl(w1.(ticket := None), seen.outcome, oversized);
    } else {
      var w' := Settle(w, seen, fired, oversized);
      assert w' == w.(ticket := w'.ticket, pc := w'.pc);
      assert w'.pc.AtRest? || w'.pc == Withdrawing(w.ticket.value);
      assert Flow(w') && Marks(w');
    }
  }

  lemma PollControl(w: World, wake: bool, fired: bool, oversized: bool)
    requires Control(w) && w.pc.AtRest?
    ensures Control(DoPoll(w, wake, fired, oversized))
  {
    var w1 := if w.committed then w.(parked := false) else w;
    if !w.ended && !w.slot.Idle? {
      LookControl(w1, fired, oversized);
    }
  }

  lemma RepollControl(w: World, fired: bool, oversized: bool)
    requires Control(w) && w.pc.Repolling?
    ensures Control(Next(w, Repoll(fired, oversized)))
  {
    LookControl(w, fired, oversized);
  }

  lemma BeginControl(w: World)
    requires Control(w) && w.pc.Beginning?
    ensures Control(Next(w, Begin))
  {
    forall i: nat | i < |w.claims| ensures !w.claims[i].Claimed? {
      if w.claims[i].Claimed? {
        Has(w.claims, Unstarted, i, 0);
      }
    }
  }

  lemma SubmitControl(w: World, admission: Option<Exec.AdmissionClass>)
    requires Control(w) && w.pc.Submitting?
    ensures Control(DoSubmit(w, admission))
  {
  }

  lemma AbortControl(w: World)
    requires Control(w) && w.pc.Aborting?
    ensures Control(Next(w, Abort))
  {
    FailControl(DropHand(w.(slot := Idle)));
  }

  lemma GiveUpControl(w: World)
    requires Control(w) && w.pc.GivingUp?
    ensures Control(Next(w, GiveUp))
  {
    FailControl(DropHand(CancelTheSlot(w)));
  }

  lemma LeaveControl(w: World, a: Action)
    requires Control(w) && Enabled(w, a) && (a.Shutdown? || a.Drop?)
    ensures Control(Next(w, a))
  {
    if a.Shutdown? {
      CancelNowControl(w.(shut := true));
    } else if !w.ended {
      CancelNowControl(w.(leaving := true));
    }
  }

  lemma LocalControl(w: World, a: Action)
    requires Control(w) && Enabled(w, a) && (a.Drained? || a.CancelSlot?)
    ensures Control(Next(w, a))
  {
  }

  lemma TakeBackMarks(w: World, t: nat)
    requires TicketKnown(w.queue, t) && Marks(w) && w.hand.None?
    ensures var w' := TakeBack(w, t);
      && (w'.panicked == w.panicked) && w'.claims == w.claims && w'.slot == w.slot
      && |w'.queue| == |w.queue| - Any(w'.hand)
      && Marks(w')
  {
    var p := Position(w.queue, t);
    var q := TakeBack(w, t).queue;
    if p < |w.queue| {
      assert forall i :: 0 <= i < |q| ==> q[i] == w.queue[if i < p then i else i + 1];
    }
  }

  lemma WithdrawControl(w: World)
    requires Control(w) && w.pc.Withdrawing?
    ensures Control(Next(w, Withdraw))
  {
    TakeBackMarks(w, w.pc.ticket);
  }

  lemma CancelTicketControl(w: World)
    requires Control(w) && w.pc.Cancelling?
    ensures Control(Next(w, CancelTicket))
  {
    TakeBackMarks(w, w.pc.ticket);
  }

  lemma ClaimControl(w: World)
    requires Control(w) && w.queue != []
    ensures Control(Next(w, Claim))
  {
    var x := Claimed(w.queue[0].callable, w.queue[0].kind.Queued?);
    Append(w.claims, Unstarted, x, 0);
    Append(w.claims, Underway, x, 0);
  }

  lemma StartControl(w: World, i: nat)
    requires Control(w) && Enabled(w, Start(i))
    ensures Control(DoStart(w, i))
  {
    var x := if w.slot.Pending? then Started(w.claims[i].callable) else Done;
    Has(w.claims, Unstarted, i, 0);
    Update(w.claims, Unstarted, i, x, 0);
    Update(w.claims, Underway, i, x, 0);
  }

  lemma AdvanceControl(w: World, i: nat, o: Outcome)
    requires Control(w) && Enabled(w, Advance(i, o))
    ensures Control(Next(w, Advance(i, o)))
  {
    Update(w.claims, Unstarted, i, Stepped(o), 0);
    Update(w.claims, Underway, i, Stepped(o), 0);
    var w' := Next(w, Advance(i, o));
    assert Waiting(w') == Waiting(w) && InProgress(w') == InProgress(w);
    assert Marks(w');
  }

  lemma CompleteControl(w: World, i: nat)
    requires Control(w) && Enabled(w, Action.Complete(i))
    ensures Control(DoComplete(w, i))
  {
    Has(w.claims, Underway, i, 0);
    Update(w.claims, Unstarted, i, Done, 0);
    Update(w.claims, Underway, i, Done, 0);
  }

  // ------------------------------------------ every step keeps the accounts

  lemma HeldTally(x: Option<nat>, s: seq<nat>, k: nat)
    ensures Tally(s + Held(x), Itself, k) == Tally(s, Itself, k) + One(x, k)
  {
    if x.Some? {
      Append(s, Itself, x.value, k);
    } else {
      assert s + Held(x) == s;
    }
  }

  lemma ReleaseAccount(w: World, x: Option<nat>, k: nat)
    ensures Account(Release(w, x), k) == Account(w, k) + One(x, k)
  {
    HeldTally(x, w.released, k);
  }

  lemma CancelNowAccount(w: World, k: nat)
    ensures Account(CancelNow(w), k) == Account(w, k)
  {
    HeldTally(w.source, w.released, k);
    HeldTally(w.after, w.released + Held(w.source), k);
  }

  lemma FailAccount(w: World, k: nat)
    ensures Account(Fail(w), k) == Account(w, k)
    ensures Account(Leave(w), k) == Account(w, k)
  {
    CancelNowAccount(w.(leaving := true), k);
  }

  lemma DeliverAccount(w: World, o: Outcome, oversized: bool, k: nat)
    requires Empty(w)
    ensures Account(Deliver(w, o, oversized), k) == Account(w, k) + One(Carried(o), k)
  {
    if Carried(o).None? {
      FailAccount(w, k);
    } else {
      var w1 := Release(w, Some(o.next));
      ReleaseAccount(w, Some(o.next), k);
      if o.wait > MAX_TRANSPORT_TIMEOUT_MS {
        FailAccount(w1, k);
      } else if o.Emit? && !w.committed && oversized {
        FailAccount(w1.(ended := true), k);
      }
    }
  }

  lemma SettleAccount(w: World, seen: SlotPoll, fired: bool, oversized: bool, k: nat)
    requires Empty(w)
    ensures Account(Settle(w, seen, fired, oversized), k)
            == Account(w, k) + if seen.SawReady? then One(Carried(seen.outcome), k) else 0
  {
    var w' := Settle(w, seen, fired, oversized);
    if seen.SawReady? {
      DeliverAccount(w.(ticket := None), seen.outcome, oversized, k);
      SameAccount(w, w.(ticket := None), k);
    } else if seen.SawCancelled? {
      FailAccount(w, k);
    } else {
      assert w' == w.(ticket := w'.ticket, pc := w'.pc, panicked := w'.panicked);
      SameAccount(w, w', k);
    }
  }

  lemma SameAccount(w: World, w': World, k: nat)
    requires w' == w.(ticket := w'.ticket, pc := w'.pc, panicked := w'.panicked)
    ensures Account(w', k) == Account(w, k)
  {
  }

  lemma LookAccount(w: World, fired: bool, oversized: bool, k: nat)
    requires Empty(w)
    ensures var (slot, seen) := Polled(w.slot);
            Account(Settle(w.(slot := slot), seen, fired, oversized), k) == Account(w, k)
  {
    var (slot, seen) := Polled(w.slot);
    SettleAccount(w.(slot := slot), seen, fired, oversized, k);
  }

  lemma PollAccount(w: World, wake: bool, fired: bool, oversized: bool, k: nat)
    requires Control(w) && w.pc.AtRest? && w.hand.None?
    ensures Account(DoPoll(w, wake, fired, oversized), k) == Account(w, k)
  {
    if !w.slot.Idle? {
      LookAccount(if w.committed then w.(parked := false) else w, fired, oversized, k);
    }
  }

  lemma SubmitAccount(w: World, admission: Option<Exec.AdmissionClass>, k: nat)
    requires w.hand.Some? && w.slot.Pending?
    ensures Account(DoSubmit(w, admission), k) == Account(w, k)
  {
    if admission.Some? {
      Append(w.queue, JobCallable, Job(w.nextTicket, admission.value, w.hand.value), k);
    }
  }

  lemma DropHandAccount(w: World, k: nat)
    ensures Account(DropHand(w), k) == Account(w, k)
  {
    ReleaseAccount(w, w.hand, k);
  }

  lemma CancelTheSlotAccount(w: World, k: nat)
    ensures Account(CancelTheSlot(w), k) == Account(w, k)
  {
    ReleaseAccount(w, SlotCallable(w.slot), k);
  }

  lemma TakeBackAccount(w: World, t: nat, k: nat)
    requires w.hand.None?
    ensures Account(TakeBack(w, t), k) == Account(w, k)
  {
    var p := Position(w.queue, t);
    if p < |w.queue| {
      Remove(w.queue, JobCallable, p, k);
    }
  }

  lemma ClaimAccount(w: World, k: nat)
    requires w.queue != []
    ensures Account(Next(w, Claim), k) == Account(w, k)
  {
    Split(w.queue, JobCallable, 0, k);
    Append(w.claims, ClaimCallable, Claimed(w.queue[0].callable, w.queue[0].kind.Queued?), k);
  }

  /** A job of a cancelled stream is dropped with its callable. */
  lemma SkipAccount(w: World, i: nat, k: nat)
    requires Enabled(w, Start(i)) && !w.slot.Pending?
    ensures Account(DoStart(w, i), k) == Account(w, k)
  {
    Update(w.claims, ClaimCallable, i, Done, k);
    HeldTally(Some(w.claims[i].callable), w.released, k);
  }

  lemma StartAccount(w: World, i: nat, k: nat)
    requires Enabled(w, Start(i))
    ensures Account(DoStart(w, i), k) == Account(w, k)
  {
    if w.slot.Pending? {
      var c := w.claims[i].callable;
      Update(w.claims, ClaimCallable, i, Started(c), k);
      HeldTally(None, w.released, k);
    } else {
      SkipAccount(w, i, k);
    }
  }

  /** Advancing moves the callable into the ledger and brings its successor to life. */
  lemma AdvanceAccount(w: World, i: nat, o: Outcome, k: nat)
    requires Enabled(w, Advance(i, o))
    ensures Account(Next(w, Advance(i, o)), k) == Account(w, k) + One(Carried(o), k)
  {
    Update(w.claims, ClaimCallable, i, Stepped(o), k);
    Append(w.advanced, Itself, w.claims[i].callable, k);
  }

  lemma CompleteAccount(w: World, i: nat, k: nat)
    requires Control(w) && Enabled(w, Action.Complete(i))
    ensures Account(DoComplete(w, i), k) == Account(w, k)
  {
    Update(w.claims, ClaimCallable, i, Done, k);
    Has(w.claims, Underway, i, 0);
    HeldTally(CarriedBy(Unclaimed(w.slot, w.claims[i].outcome)), w.released, k);
  }

  lemma AbortAccount(w: World, k: nat)
    requires w.slot.Pending?
    ensures Account(Next(w.(pc := Aborting), Abort), k) == Account(w, k)
  {
    var w1 := w.(pc := Aborting, slot := Idle);
    DropHandAccount(w1, k);
    FailAccount(DropHand(w1), k);
  }

  lemma GiveUpAccount(w: World, k: nat)
    ensures Account(Fail(DropHand(CancelTheSlot(w))), k) == Account(w, k)
  {
    CancelTheSlotAccount(w, k);
    DropHandAccount(CancelTheSlot(w), k);
    FailAccount(DropHand(CancelTheSlot(w)), k);
  }

  lemma OwnerAccount(w: World, a: Action, k: nat)
    requires Control(w) && Enabled(w, a)
    requires !(a.Claim? || a.Start? || a.Advance? || a.Complete? || a.Poll? || a.Submit? || a.Repoll?)
    ensures Account(Next(w, a), k) == Account(w, k)
  {
    match a {
      case Abort => AbortAccount(w, k);
      case Withdraw => TakeBackAccount(w, w.pc.ticket, k);
      case GiveUp => GiveUpAccount(w, k);
      case Shutdown => CancelNowAccount(w.(shut := true), k);
      case Drop => FailAccount(w, k);
      case CancelTicket =>
        TakeBackAccount(w, w.pc.ticket, k);
        DropHandAccount(TakeBack(w, w.pc.ticket), k);
      case CancelSlot => CancelTheSlotAccount(w, k);
      case _ =>
    }
  }

  lemma StepAccount(w: World, a: Action, k: nat)
    requires Control(w) && Enabled(w, a)
    ensures Account(Next(w, a), k) == Account(w, k) + if a.Advance? then One(Carried(a.outcome), k) else 0
  {
    match a {
      case Claim => ClaimAccount(w, k);
      case Start(i) => StartAccount(w, i, k);
      case Advance(i, o) => AdvanceAccount(w, i, o, k);
      case Complete(i) => CompleteAccount(w, i, k);
      case Poll(wake, fired, oversized) => PollAccount(w, wake, fired, oversized, k);
      case Submit(admission) => SubmitAccount(w, admission, k);
      case Repoll(fired, oversized) => LookAccount(w, fired, oversized, k);
      case _ => OwnerAccount(w, a, k);
    }
  }

  lemma StepControl(w: World, a: Action)
    requires Control(w) && Enabled(w, a)
    ensures Control(Next(w, a))
  {
    match a {
      case Poll(wake, fired, oversized) => PollControl(w, wake, fired, oversized);
      case Begin => BeginControl(w);
      case Submit(admission) => SubmitControl(w, admission);
      case Abort => AbortControl(w);
      case Repoll(fired, oversized) => RepollControl(w, fired, oversized);
      case GiveUp => GiveUpControl(w);
      case Shutdown => LeaveControl(w, a);
      case Drop => LeaveControl(w, a);
      case Drained => LocalControl(w, a);
      case CancelSlot => LocalControl(w, a);
      case Withdraw => WithdrawControl(w);
      case CancelTicket => CancelTicketControl(w);
      case Claim => ClaimControl(w);
      case Start(i) => StartControl(w, i);
      case Advance(i, o) => AdvanceControl(w, i, o);
      case Complete(i) => CompleteControl(w, i);
    }
  }

  lemma StepKeeps(w: World, a: Action)
    requires Inv(w) && Enabled(w, a)
    ensures Inv(Next(w, a))
  {
    StepControl(w, a);
    forall k: nat ensures Account(Next(w, a), k) == if k < Next(w, a).created then 1 else 0 {
      StepAccount(w, a, k);
    }
  }

  lemma InitKeeps()
    ensures Inv(Initial())
  {
    InitControl();
  }

  // ----------------------------------------------------------------- theorems

  ghost predicate Step(w: World, w': World) { exists a :: Enabled(w, a) && Next(w, a) == w' }

  ghost predicate IsRun(run: seq<World>) {
    && run != [] && run[0] == Initial()
    && forall i :: 0 <= i < |run| - 1 ==> Step(run[i], run[i + 1])
  }

  /** Nothing of this stream is queued or held by a worker. */
  predicate NothingInFlight(w: World) { w.queue == [] && forall i :: 0 <= i < |w.claims| ==> w.claims[i].Done? }

  lemma {:induction false} InvAlways(run: seq<World>)
    requires IsRun(run)
    ensures Inv(run[|run| - 1])
    decreases |run|
  {
    if |run| == 1 {
      InitKeeps();
    } else {
      var before := run[..|run| - 1];
      InvAlways(before);
      assert Step(run[|run| - 2], run[|run| - 1]);
      var w := before[|before| - 1];
      var a :| Enabled(w, a) && Next(w, a) == run[|run| - 1];
      StepKeeps(w, a);
    }
  }

  /** Where a stream has ended, each callable was advanced once or released once. */
  lemma EndedAccounts(w: World, k: nat)
    requires Inv(w) && w.pc.Dropped? && NothingInFlight(w) && k < w.created
    ensures Tally(w.advanced, Itself, k) + Tally(w.released, Itself, k) == 1
  {
    Absent(w.claims, ClaimCallable, k);
    assert Account(w, k) == 1;
  }

  /** In every run of one stream, whatever the workers, timers and shutdown do:
      no assertion, `expect` or panic of the slot and its owner fires; no callable is
      both advanced and released, or either of them twice; at most one job of the
      stream is in flight; no transition starts or runs while an emitted item is out,
      unless the stream is being cancelled; and
      once the owner is gone and no worker holds a job of it, every callable was
      advanced exactly once or released exactly once. */
  lemma RunsKeepPromises(run: seq<World>)
    requires IsRun(run)
    ensures var w := run[|run| - 1];
      && !w.panicked
      && (forall k: nat :: Tally(w.advanced, Itself, k) + Tally(w.released, Itself, k) <= 1)
      && Waiting(w) + InProgress(w) <= 1
      && (w.pc.Beginning? || w.pc.Submitting? ==> w.out.None? && w.primed.None?)
      && ((w.out.Some? || w.primed.Some?) && Waiting(w) + InProgress(w) > 0 ==> w.shut || w.leaving)
      && (w.pc.Dropped? && NothingInFlight(w) ==>
            forall k: nat :: k < w.created ==> Tally(w.advanced, Itself, k) + Tally(w.released, Itself, k) == 1)
  {
    InvAlways(run);
    var w := run[|run| - 1];
    forall k: nat ensures Tally(w.advanced, Itself, k) + Tally(w.released, Itself, k) <= 1 {
      assert Account(w, k) <= 1;
    }
    if w.pc.Dropped? && NothingInFlight(w) {
      forall k: nat | k < w.created ensures Tally(w.advanced, Itself, k) + Tally(w.released, Itself, k) == 1 {
        EndedAccounts(w, k);
      }
    }
  }
}
