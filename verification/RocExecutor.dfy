/**
  The fixed-worker executor with a bounded ingress ring (src/roc_executor.rs).

  `Executor` is the object behind the state mutex: one method per lock-held region,
  each proved against a function on the value of its fields.  `World` puts any number
  of submitting clients and the worker threads around those same functions, and the
  lemmas at the end speak of all its runs.  Tickets are unbounded naturals.
*/
module RocExecutor {
  import opened Bags

  datatype AdmissionClass = Active | Queued
  datatype SubmitError = Full | Stopping
  datatype Entry<T> = Entry(ticket: nat, kind: AdmissionClass, job: T)
  datatype Submission = Submission(kind: AdmissionClass, ticket: nat)
  datatype Submitted = Accepted(submission: Submission) | Refused(error: SubmitError)

  /** What one pass of a worker under the lock finds. */
  datatype Claim<T> = Run(entry: Entry<T>) | Exit | Wait

  datatype State<T> = State(queue: seq<Entry<T>>, outstanding: int, nextTicket: nat, stopping: bool)

  // ------------------------------------------------- the regions as functions

  function Classify(workers: nat, outstanding: int): AdmissionClass {
    if outstanding < workers then Active else Queued
  }

  function Submit<T>(workers: nat, capacity: nat, s: State<T>, build: AdmissionClass -> T): (State<T>, Submitted) {
    if s.stopping then (s, Refused(Stopping))
    else if s.outstanding == capacity then (s, Refused(Full))
    else
      var kind := Classify(workers, s.outstanding);
      (s.(queue := s.queue + [Entry(s.nextTicket, kind, build(kind))],
          outstanding := s.outstanding + 1, nextTicket := s.nextTicket + 1),
       Accepted(Submission(kind, s.nextTicket)))
  }

  /** The first queue position that holds the ticket, or the queue's length. */
  function Position<T>(queue: seq<Entry<T>>, ticket: nat): (p: nat)
    ensures p <= |queue|
    ensures p < |queue| ==> queue[p].ticket == ticket
    ensures forall i :: 0 <= i < p ==> queue[i].ticket != ticket
  {
    if queue == [] then 0
    else if queue[0].ticket == ticket then 0
    else 1 + Position(queue[1..], ticket)
  }

  function Cancel<T>(s: State<T>, ticket: nat): (State<T>, Option<T>) {
    var p := Position(s.queue, ticket);
    if p == |s.queue| then (s, None)
    else (s.(queue := s.queue[..p] + s.queue[p + 1..], outstanding := s.outstanding - 1), Some(s.queue[p].job))
  }

  function Claimed<T>(s: State<T>): (State<T>, Claim<T>) {
    if s.queue != [] then (s.(queue := s.queue[1..]), Run(s.queue[0]))
    else (s, if s.stopping then Exit else Wait)
  }

  function Retired<T>(s: State<T>): State<T> { s.(outstanding := s.outstanding - 1) }

  // ------------------------------------------------------------- the object

  class Executor<T> {
    const workers: nat
    const capacity: nat
    var queue: seq<Entry<T>>
    var outstanding: int
    var nextTicket: nat
    var stopping: bool

    ghost function View(): State<T>
      reads this
    {
      State(queue, outstanding, nextTicket, stopping)
    }

    constructor (workers: nat, waiting: nat)
      requires workers > 0
      ensures this.workers == workers && this.capacity == workers + waiting
      ensures View() == State([], 0, 0, false)
    {
      this.workers, this.capacity := workers, workers + waiting;
      queue, outstanding, nextTicket, stopping := [], 0, 0, false;
    }

    method TrySubmit(build: AdmissionClass -> T) returns (r: Submitted)
      modifies this
      ensures (View(), r) == Submit(workers, capacity, old(View()), build)
      ensures r == Refused(Stopping) <==> old(stopping)
      ensures r == Refused(Full) <==> !old(stopping) && old(outstanding) == capacity
      ensures r.Accepted? ==>
                && (r.submission.kind == Active <==> old(outstanding) < workers)
                && r.submission.ticket == old(nextTicket) < nextTicket && outstanding == old(outstanding) + 1
                && queue == old(queue) + [Entry(r.submission.ticket, r.submission.kind, build(r.submission.kind))]
    {
      if stopping {
        return Refused(Stopping);
      }
      if outstanding == capacity {
        return Refused(Full);
      }
      var kind := if outstanding < workers then Active else Queued;
      var ticket := nextTicket;
      nextTicket := nextTicket + 1;
      queue := queue + [Entry(ticket, kind, build(kind))];
      outstanding := outstanding + 1;
      r := Accepted(Submission(kind, ticket));
    }

    /** The source asserts that a job found by its ticket was admitted as queued. */
    method CancelQueued(ticket: nat) returns (job: Option<T>)
      requires queue != [] ==> outstanding > 0
      requires forall i :: 0 <= i < |queue| && queue[i].ticket == ticket ==> queue[i].kind == Queued
      modifies this
      ensures (View(), job) == Cancel(old(View()), ticket)
    {
      var index := 0;
      while index < |queue| && queue[index].ticket != ticket
        invariant 0 <= index <= |queue|
        invariant forall i :: 0 <= i < index ==> queue[i].ticket != ticket
      {
        index := index + 1;
      }
      assert index == Position(queue, ticket);
      if index == |queue| {
        return None;
      }
      assert queue[index].kind == Queued;
      job := Some(queue[index].job);
      queue := queue[..index] + queue[index + 1..];
      outstanding := outstanding - 1;
    }

    /** The worker's lock-held pass, up to running a job, returning or waiting. */
    method TakeNext() returns (c: Claim<T>)
      modifies this
      ensures (View(), c) == Claimed(old(View()))
    {
      if queue != [] {
        c := Run(queue[0]);
        queue := queue[1..];
      } else if stopping {
        c := Exit;
      } else {
        c := Wait;
      }
    }

    method RetireJob()
      requires outstanding > 0
      modifies this`outstanding
      ensures View() == Retired(old(View()))
    {
      outstanding := outstanding - 1;
    }

    method Stop()
      modifies this`stopping
      ensures View() == old(View()).(stopping := true)
    {
      stopping := true;
    }
  }

  // -------------------------------------------------------------- the world

  /** A worker thread; once `retired` its job no longer occupies capacity, and only
      then is its completion published. */
  datatype Worker = Idle | Busy(ticket: nat, client: nat, retired: bool, published: bool) | Exited

  /** A client submits one job at a time and waits for it, or leaves meanwhile; it is gone
      once its job is. */
  datatype Client = Resting | InFlight(submission: Submission) | Left(submission: Submission) | Gone

  /** The lists record tickets in the order of the events; `dropped` are the jobs that were
      retired without a completion.  `fault` records a failed assertion. */
  datatype World = World(exec: State<nat>, workers: seq<Worker>, clients: seq<Client>,
                         dispatched: seq<nat>, cancelled: seq<nat>, retired: seq<nat>, published: seq<nat>,
                         dropped: seq<nat>, fault: bool)

  datatype Action =
    | Join
    | Send(client: nat)
    | Leave(client: nat)
    | Withdraw(client: nat)
    | Take(worker: nat)
    | Skip(worker: nat)
    | Retire(worker: nat)
    | Publish(worker: nat)
    | Return(worker: nat)
    | Halt

  function Start(workers: nat): World {
    World(State([], 0, 0, false), seq(workers, _ => Idle), [], [], [], [], [], [], false)
  }

  predicate Enabled(w: World, a: Action) {
    match a
    case Join | Halt => true
    case Send(c) => c < |w.clients| && w.clients[c].Resting?
    case Leave(c) => c < |w.clients| && w.clients[c].InFlight?
    case Withdraw(c) => c < |w.clients| && w.clients[c].InFlight? && w.clients[c].submission.kind == Queued
    case Take(i) => i < |w.workers| && w.workers[i].Idle?
    case Skip(i) =>
      i < |w.workers| && w.workers[i].Busy? && !w.workers[i].retired
      && w.workers[i].client < |w.clients| && w.clients[w.workers[i].client].Left?
    case Retire(i) => i < |w.workers| && w.workers[i].Busy? && !w.workers[i].retired
    case Publish(i) =>
      i < |w.workers| && w.workers[i].Busy? && w.workers[i].retired && !w.workers[i].published
      && w.workers[i].client < |w.clients|
    case Return(i) => i < |w.workers| && w.workers[i].Busy? && w.workers[i].published
  }

  /** `cancel_queued`, with its two assertions. */
  function DoWithdraw(w: World, c: nat): World
    requires c < |w.clients| && w.clients[c].InFlight?
  {
    var ticket := w.clients[c].submission.ticket;
    var (exec, job) := Cancel(w.exec, ticket);
    if job.None? then w
    else
      var kind := w.exec.queue[Position(w.exec.queue, ticket)].kind;
      w.(exec := exec, clients := w.clients[c := Resting], cancelled := w.cancelled + [ticket],
         fault := w.fault || kind != Queued || w.exec.outstanding <= 0)
  }

  function DoTake(w: World, i: nat): World
    requires i < |w.workers|
  {
    var (exec, claim) := Claimed(w.exec);
    match claim
    case Run(e) => w.(exec := exec, workers := w.workers[i := Busy(e.ticket, e.job, false, false)],
                      dispatched := w.dispatched + [e.ticket])
    case Exit => w.(workers := w.workers[i := Exited])
    case Wait => w
  }

  /** The executed function returns at once, and its guard retires the job. */
  function DoSkip(w: World, i: nat): World
    requires i < |w.workers| && w.workers[i].Busy? && w.workers[i].client < |w.clients|
  {
    var x := w.workers[i];
    w.(exec := Retired(w.exec), workers := w.workers[i := Idle], clients := w.clients[x.client := Gone],
       retired := w.retired + [x.ticket], dropped := w.dropped + [x.ticket],
       fault := w.fault || w.exec.outstanding <= 0)
  }

  function DoRetire(w: World, i: nat): World
    requires i < |w.workers| && w.workers[i].Busy?
  {
    w.(exec := Retired(w.exec), workers := w.workers[i := w.workers[i].(retired := true)],
       retired := w.retired + [w.workers[i].ticket], fault := w.fault || w.exec.outstanding <= 0)
  }

  /** Nobody takes the completion of a job whose client has left. */
  function DoPublish(w: World, i: nat): World
    requires i < |w.workers| && w.workers[i].Busy? && w.workers[i].client < |w.clients|
  {
    var x := w.workers[i];
    w.(workers := w.workers[i := x.(published := true)],
       clients := w.clients[x.client := if w.clients[x.client].Left? then Gone else Resting],
       published := w.published + [x.ticket])
  }

  function Next(workers: nat, capacity: nat, w: World, a: Action): World
    requires Enabled(w, a)
  {
    match a
    case Join => w.(clients := w.clients + [Resting])
    case Send(c) =>
      var (exec, r) := Submit(workers, capacity, w.exec, _ => c);
      if r.Accepted? then w.(exec := exec, clients := w.clients[c := InFlight(r.submission)]) else w
    case Leave(c) => w.(clients := w.clients[c := Left(w.clients[c].submission)])
    case Withdraw(c) => DoWithdraw(w, c)
    case Take(i) => DoTake(w, i)
    case Skip(i) => DoSkip(w, i)
    case Retire(i) => DoRetire(w, i)
    case Publish(i) => DoPublish(w, i)
    case Return(i) => w.(workers := w.workers[i := Idle])
    case Halt => w.(exec := w.exec.(stopping := true))
  }

  // -------------------------------------------------------------- invariant

  function TicketOf<T>(e: Entry<T>): Option<nat> { Some(e.ticket) }

  /** The ticket a worker still owes a retirement for. */
  function Unretired(x: Worker): Option<nat> { if x.Busy? && !x.retired then Some(x.ticket) else None }

  /** The ticket a worker still owes a completion for. */
  function Unpublished(x: Worker): Option<nat> { if x.Busy? && !x.published then Some(x.ticket) else None }

  function SubmissionOf(c: Client): Option<Submission> {
    if c.InFlight? || c.Left? then Some(c.submission) else None
  }

  function Held(c: Client): Option<nat> { if c.InFlight? || c.Left? then Some(c.submission.ticket) else None }

  /** Capacity is the queue plus the claimed, unretired jobs. */
  predicate Capacity(capacity: nat, w: World) {
    w.exec.outstanding == |w.exec.queue| + Size(w.workers, Unretired) <= capacity
  }

  /** An entry admitted as active has a worker reserved for it. */
  predicate Reserved(w: World) {
    forall p :: 0 <= p < |w.exec.queue| && w.exec.queue[p].kind == Active ==>
      p + Size(w.workers, Unretired) < |w.workers|
  }

  predicate Increasing(s: seq<nat>) { forall i, j :: 0 <= i < j < |s| ==> s[i] < s[j] }

  /** Tickets wait and are dispatched in the order they were issued. */
  predicate InOrder(w: World) {
    && Increasing(w.dispatched)
    && (forall i, j :: 0 <= i < j < |w.exec.queue| ==> w.exec.queue[i].ticket < w.exec.queue[j].ticket)
    && (forall i, j :: 0 <= i < |w.dispatched| && 0 <= j < |w.exec.queue| ==>
          w.dispatched[i] < w.exec.queue[j].ticket)
    && (forall i :: 0 <= i < |w.dispatched| ==> w.dispatched[i] < w.exec.nextTicket)
    && (forall j :: 0 <= j < |w.exec.queue| ==> w.exec.queue[j].ticket < w.exec.nextTicket)
  }

  /** Every issued ticket waits, or was dispatched once, or was cancelled once. */
  ghost predicate Accounted(w: World) {
    forall t: nat ::
      Tally(w.exec.queue, TicketOf, t) + Tally(w.dispatched, Itself, t) + Tally(w.cancelled, Itself, t)
      == if t < w.exec.nextTicket then 1 else 0
  }

  /** Every dispatched job was retired once, or still occupies capacity. */
  ghost predicate RetiredOnce(w: World) {
    forall t: nat ::
      Tally(w.retired, Itself, t) + Tally(w.workers, Unretired, t) == Tally(w.dispatched, Itself, t)
  }

  /** Every dispatched job was published once, or dropped once, or its worker still owes the
      completion. */
  ghost predicate PublishedOnce(w: World) {
    forall t: nat :: Ended(w, t) + Tally(w.workers, Unpublished, t) == Tally(w.dispatched, Itself, t)
  }

  ghost function Ended(w: World, t: nat): nat { Tally(w.published, Itself, t) + Tally(w.dropped, Itself, t) }

  /** A worker leaves only when the queue is empty for good. */
  predicate Drained(w: World) {
    forall i :: 0 <= i < |w.workers| && w.workers[i].Exited? ==> w.exec.stopping && w.exec.queue == []
  }

  predicate EntryLink(w: World, e: Entry<nat>) {
    e.job < |w.clients| && SubmissionOf(w.clients[e.job]) == Some(Submission(e.kind, e.ticket))
  }

  predicate WorkerLink(w: World, x: Worker) {
    && (x.Busy? && !x.retired ==> !x.published)
    && (x.Busy? && !x.published ==>
          x.client < |w.clients| && Held(w.clients[x.client]) == Some(x.ticket))
  }

  /** Each waiting or running job is the one its client waits for. */
  predicate Links(w: World) {
    && (forall p :: 0 <= p < |w.exec.queue| ==> EntryLink(w, w.exec.queue[p]))
    && (forall i :: 0 <= i < |w.workers| ==> WorkerLink(w, w.workers[i]))
  }

  /** The jobs clients wait for are exactly the queued and the unpublished ones. */
  ghost predicate Awaited(w: World) {
    && Size(w.clients, Held) == |w.exec.queue| + Size(w.workers, Unpublished)
    && forall t: nat ::
         Tally(w.clients, Held, t) == Tally(w.exec.queue, TicketOf, t) + Tally(w.workers, Unpublished, t)
  }

  ghost predicate Inv(workers: nat, capacity: nat, w: World) {
    && 0 < workers <= capacity && |w.workers| == workers
    && Capacity(capacity, w) && Reserved(w) && InOrder(w) && Accounted(w)
    && RetiredOnce(w) && PublishedOnce(w) && Drained(w) && Links(w) && Awaited(w) && !w.fault
  }

  // ------------------------------------------------------- clients are alone

  /** At most one client, queue entry and unpublished worker refer to one ticket. */
  lemma TicketOnce(w: World, t: nat)
    requires Accounted(w) && PublishedOnce(w) && Awaited(w)
    ensures Tally(w.clients, Held, t) == Tally(w.exec.queue, TicketOf, t) + Tally(w.workers, Unpublished, t) <= 1
  {
    assert Tally(w.exec.queue, TicketOf, t) + Tally(w.dispatched, Itself, t) + Tally(w.cancelled, Itself, t)
           == if t < w.exec.nextTicket then 1 else 0;
    assert Ended(w, t) + Tally(w.workers, Unpublished, t) == Tally(w.dispatched, Itself, t);
  }

  lemma ClientAlone(w: World, c: nat, d: nat)
    requires Accounted(w) && PublishedOnce(w) && Awaited(w)
    requires c < |w.clients| && d < |w.clients| && Held(w.clients[c]).Some? && Held(w.clients[c]) == Held(w.clients[d])
    ensures c == d
  {
    var t := Held(w.clients[c]).value;
    TicketOnce(w, t);
    if c < d { Twice(w.clients, Held, c, d, t); }
    if d < c { Twice(w.clients, Held, d, c, t); }
  }

  /** A queue entry and an unpublished worker never refer to the same ticket, nor do two
      entries or two workers. */
  lemma JobAlone(w: World, t: nat)
    requires Accounted(w) && PublishedOnce(w) && Awaited(w)
    ensures forall p, i :: 0 <= p < |w.exec.queue| && 0 <= i < |w.workers| && w.exec.queue[p].ticket == t ==>
              Unpublished(w.workers[i]) != Some(t)
    ensures forall p, q :: 0 <= p < q < |w.exec.queue| && w.exec.queue[p].ticket == t ==> w.exec.queue[q].ticket != t
    ensures forall i, j :: 0 <= i < j < |w.workers| && Unpublished(w.workers[i]) == Some(t) ==>
              Unpublished(w.workers[j]) != Some(t)
  {
    TicketOnce(w, t);
    forall p, i | 0 <= p < |w.exec.queue| && 0 <= i < |w.workers| && w.exec.queue[p].ticket == t
      ensures Unpublished(w.workers[i]) != Some(t)
    {
      Has(w.exec.queue, TicketOf, p, t);
      if Unpublished(w.workers[i]) == Some(t) { Has(w.workers, Unpublished, i, t); }
    }
    forall p, q | 0 <= p < q < |w.exec.queue| && w.exec.queue[p].ticket == t
      ensures w.exec.queue[q].ticket != t
    {
      if w.exec.queue[q].ticket == t { Twice(w.exec.queue, TicketOf, p, q, t); }
    }
    forall i, j | 0 <= i < j < |w.workers| && Unpublished(w.workers[i]) == Some(t)
      ensures Unpublished(w.workers[j]) != Some(t)
    {
      if Unpublished(w.workers[j]) == Some(t) { Twice(w.workers, Unpublished, i, j, t); }
    }
  }

  // ------------------------------------------------- every step keeps it all

  lemma JoinKeeps(workers: nat, capacity: nat, w: World)
    requires Inv(workers, capacity, w)
    ensures Inv(workers, capacity, Next(workers, capacity, w, Join))
  {
    var w' := Next(workers, capacity, w, Join);
    forall t: nat ensures Tally(w'.clients, Held, t) == Tally(w.clients, Held, t) {
      Append(w.clients, Held, Resting, t);
      assert Ended(w', t) == Ended(w, t);
    }
    Append(w.clients, Held, Resting, 0);
    LinksGrow(w, w');
  }

  lemma LinksGrow(w: World, w': World)
    requires Links(w) && w'.exec.queue == w.exec.queue && w'.workers == w.workers
    requires |w.clients| <= |w'.clients| && forall c :: 0 <= c < |w.clients| ==> w'.clients[c] == w.clients[c]
    ensures Links(w')
  {
    forall p | 0 <= p < |w'.exec.queue| ensures EntryLink(w', w'.exec.queue[p]) {
      assert EntryLink(w, w.exec.queue[p]);
    }
    forall i | 0 <= i < |w'.workers| ensures WorkerLink(w', w'.workers[i]) { assert WorkerLink(w, w.workers[i]); }
  }

  lemma SendKeeps(workers: nat, capacity: nat, w: World, c: nat)
    requires Inv(workers, capacity, w) && Enabled(w, Send(c))
    ensures Inv(workers, capacity, Next(workers, capacity, w, Send(c)))
  {
    var w' := Next(workers, capacity, w, Send(c));
    if w' != w {
      var e := w'.exec.queue[|w.exec.queue|];
      assert w'.exec.queue == w.exec.queue + [e] && e.ticket == w.exec.nextTicket && e.job == c;
      assert w'.clients == w.clients[c := InFlight(Submission(e.kind, e.ticket))];
      SendAccounts(w, w', c, e);
      SendLinks(w, w', c, e);
    }
  }

  lemma SendAccounts(w: World, w': World, c: nat, e: Entry<nat>)
    requires Accounted(w) && Awaited(w) && c < |w.clients| && w.clients[c].Resting?
    requires e.ticket == w.exec.nextTicket && w'.exec.nextTicket == w.exec.nextTicket + 1
    requires w'.exec.queue == w.exec.queue + [e] && w'.workers == w.workers
    requires w'.dispatched == w.dispatched && w'.cancelled == w.cancelled
    requires w'.clients == w.clients[c := InFlight(Submission(e.kind, e.ticket))]
    ensures Accounted(w') && Awaited(w')
  {
    var m := InFlight(Submission(e.kind, e.ticket));
    forall t: nat
      ensures Tally(w'.exec.queue, TicketOf, t) + Tally(w'.dispatched, Itself, t) + Tally(w'.cancelled, Itself, t)
              == if t < w'.exec.nextTicket then 1 else 0
      ensures Tally(w'.clients, Held, t) == Tally(w'.exec.queue, TicketOf, t) + Tally(w'.workers, Unpublished, t)
    {
      Append(w.exec.queue, TicketOf, e, t);
      Update(w.clients, Held, c, m, t);
      assert Tally(w.exec.queue, TicketOf, t) + Tally(w.dispatched, Itself, t) + Tally(w.cancelled, Itself, t)
             == if t < w.exec.nextTicket then 1 else 0;
    }
    Update(w.clients, Held, c, m, 0);
  }

  lemma SendLinks(w: World, w': World, c: nat, e: Entry<nat>)
    requires Links(w) && c < |w.clients| && w.clients[c].Resting? && e.job == c
    requires w'.exec.queue == w.exec.queue + [e] && w'.workers == w.workers
    requires w'.clients == w.clients[c := InFlight(Submission(e.kind, e.ticket))]
    ensures Links(w')
  {
    forall p | 0 <= p < |w'.exec.queue| ensures EntryLink(w', w'.exec.queue[p]) {
      if p < |w.exec.queue| { assert EntryLink(w, w.exec.queue[p]); }
    }
    forall i | 0 <= i < |w'.workers| ensures WorkerLink(w', w'.workers[i]) { assert WorkerLink(w, w.workers[i]); }
  }

  /** A client's queued ticket, if still in the queue, is that client's own queued entry:
      the assertion of `cancel_queued` holds and the job handed back is the client's. */
  lemma WithdrawFinds(w: World, c: nat)
    requires Accounted(w) && PublishedOnce(w) && Awaited(w) && Links(w) && Enabled(w, Withdraw(c))
    ensures var q, t := w.exec.queue, w.clients[c].submission.ticket;
      forall p :: 0 <= p < |q| && q[p].ticket == t ==> q[p].kind == Queued && q[p].job == c
  {
    var q, t := w.exec.queue, w.clients[c].submission.ticket;
    forall p | 0 <= p < |q| && q[p].ticket == t ensures q[p].kind == Queued && q[p].job == c {
      assert EntryLink(w, q[p]);
      ClientAlone(w, c, q[p].job);
    }
  }

  lemma WithdrawKeeps(workers: nat, capacity: nat, w: World, c: nat)
    requires Inv(workers, capacity, w) && Enabled(w, Withdraw(c))
    ensures Inv(workers, capacity, Next(workers, capacity, w, Withdraw(c)))
  {
    var w' := Next(workers, capacity, w, Withdraw(c));
    var t := w.clients[c].submission.ticket;
    var p := Position(w.exec.queue, t);
    if p < |w.exec.queue| {
      WithdrawFinds(w, c);
      assert w'.clients == w.clients[c := Resting] && !w'.fault;
      assert w'.exec.queue == w.exec.queue[..p] + w.exec.queue[p + 1..];
      QueueShrinks(w, w', p);
      WithdrawAccounts(w, w', c, p);
      WithdrawLinks(w, w', c, p);
    }
  }

  /** Taking an entry out keeps the order, and keeps a worker for every active entry as
      long as no more workers are occupied than entries before it have gone. */
  lemma QueueShrinks(w: World, w': World, p: nat)
    requires InOrder(w) && Reserved(w) && p < |w.exec.queue| && |w'.workers| == |w.workers|
    requires w'.exec.queue == w.exec.queue[..p] + w.exec.queue[p + 1..] && w'.exec.nextTicket == w.exec.nextTicket
    requires w'.dispatched == w.dispatched || (p == 0 && w'.dispatched == w.dispatched + [w.exec.queue[0].ticket])
    requires Size(w'.workers, Unretired)
             == Size(w.workers, Unretired) + if p == 0 && w'.dispatched != w.dispatched then 1 else 0
    ensures InOrder(w') && Reserved(w')
  {
    forall k | 0 <= k < |w'.exec.queue|
      ensures w'.exec.queue[k] == w.exec.queue[if k < p then k else k + 1] {}
  }

  lemma WithdrawAccounts(w: World, w': World, c: nat, p: nat)
    requires Accounted(w) && Awaited(w) && c < |w.clients| && p < |w.exec.queue|
    requires Held(w.clients[c]) == Some(w.exec.queue[p].ticket)
    requires w'.exec.queue == w.exec.queue[..p] + w.exec.queue[p + 1..] && w'.exec.nextTicket == w.exec.nextTicket
    requires w'.workers == w.workers && w'.dispatched == w.dispatched
    requires w'.cancelled == w.cancelled + [w.exec.queue[p].ticket] && w'.clients == w.clients[c := Resting]
    ensures Accounted(w') && Awaited(w')
  {
    var e := w.exec.queue[p];
    forall t: nat
      ensures Tally(w'.exec.queue, TicketOf, t) + Tally(w'.dispatched, Itself, t) + Tally(w'.cancelled, Itself, t)
              == if t < w'.exec.nextTicket then 1 else 0
      ensures Tally(w'.clients, Held, t) == Tally(w'.exec.queue, TicketOf, t) + Tally(w'.workers, Unpublished, t)
    {
      Remove(w.exec.queue, TicketOf, p, t);
      Append(w.cancelled, Itself, e.ticket, t);
      Update(w.clients, Held, c, Resting, t);
      assert Tally(w.exec.queue, TicketOf, t) + Tally(w.dispatched, Itself, t) + Tally(w.cancelled, Itself, t)
             == if t < w.exec.nextTicket then 1 else 0;
    }
    Update(w.clients, Held, c, Resting, 0);
  }

  lemma WithdrawLinks(w: World, w': World, c: nat, p: nat)
    requires Links(w) && Accounted(w) && PublishedOnce(w) && Awaited(w)
    requires c < |w.clients| && p < |w.exec.queue| && Held(w.clients[c]) == Some(w.exec.queue[p].ticket)
    requires w'.exec.queue == w.exec.queue[..p] + w.exec.queue[p + 1..] && w'.workers == w.workers
    requires w'.clients == w.clients[c := Resting]
    ensures Links(w')
  {
    JobAlone(w, w.exec.queue[p].ticket);
    forall k | 0 <= k < |w'.exec.queue| ensures EntryLink(w', w'.exec.queue[k]) {
      var k' := if k < p then k else k + 1;
      assert w'.exec.queue[k] == w.exec.queue[k'] && EntryLink(w, w.exec.queue[k']);
    }
    forall i | 0 <= i < |w'.workers| ensures WorkerLink(w', w'.workers[i]) { assert WorkerLink(w, w.workers[i]); }
  }

  lemma TakeKeeps(workers: nat, capacity: nat, w: World, i: nat)
    requires Inv(workers, capacity, w) && Enabled(w, Take(i))
    ensures Inv(workers, capacity, Next(workers, capacity, w, Take(i)))
  {
    var w' := Next(workers, capacity, w, Take(i));
    if w.exec.queue != [] {
      var e := w.exec.queue[0];
      TakeRuns(workers, capacity, w, w', i, e, Busy(e.ticket, e.job, false, false));
    } else if w.exec.stopping {
      ExitAccounts(w, w', i);
      LinksTaken(w, w', i, Exited);
    }
  }

  /** Worker `i` has taken entry `e` and is now `x`. */
  predicate Taken(w: World, w': World, i: nat, e: Entry<nat>, x: Worker) {
    && i < |w.workers| && w.workers[i].Idle? && w.exec.queue != [] && e == w.exec.queue[0]
    && x == Busy(e.ticket, e.job, false, false)
    && w' == w.(exec := w.exec.(queue := w.exec.queue[1..]), workers := w.workers[i := x],
                dispatched := w.dispatched + [e.ticket])
  }

  lemma TakeRuns(workers: nat, capacity: nat, w: World, w': World, i: nat, e: Entry<nat>, x: Worker)
    requires Inv(workers, capacity, w) && Taken(w, w', i, e, x)
    ensures Inv(workers, capacity, w')
  {
    TakeOrder(w, w', i, e, x);
    TakeCapacity(capacity, w, w', i, e, x);
    TakeAccounts(w, w', i, e, x);
    assert Links(w') by {
      assert EntryLink(w, e);
      LinksTaken(w, w', i, x);
    }
    assert forall k :: 0 <= k < |w.workers| ==> !w.workers[k].Exited?;
  }

  lemma TakeOrder(w: World, w': World, i: nat, e: Entry<nat>, x: Worker)
    requires InOrder(w) && Reserved(w) && Taken(w, w', i, e, x)
    ensures InOrder(w') && Reserved(w')
  {
    Update(w.workers, Unretired, i, x, 0);
    assert |w'.dispatched| == |w.dispatched| + 1;
    assert w'.exec.queue == w.exec.queue[..0] + w.exec.queue[1..];
    QueueShrinks(w, w', 0);
  }

  lemma TakeCapacity(capacity: nat, w: World, w': World, i: nat, e: Entry<nat>, x: Worker)
    requires Capacity(capacity, w) && Taken(w, w', i, e, x)
    ensures Capacity(capacity, w')
  {
    Update(w.workers, Unretired, i, x, 0);
  }

  lemma TakeAccounts(w: World, w': World, i: nat, e: Entry<nat>, x: Worker)
    requires Accounted(w) && RetiredOnce(w) && PublishedOnce(w) && Awaited(w) && Taken(w, w', i, e, x)
    ensures Accounted(w') && RetiredOnce(w') && PublishedOnce(w') && Awaited(w')
  {
    forall t: nat
      ensures Tally(w'.exec.queue, TicketOf, t) + Tally(w'.dispatched, Itself, t) + Tally(w'.cancelled, Itself, t)
              == if t < w'.exec.nextTicket then 1 else 0
      ensures Tally(w'.clients, Held, t) == Tally(w'.exec.queue, TicketOf, t) + Tally(w'.workers, Unpublished, t)
    {
      Behead(w.exec.queue, TicketOf, t);
      Append(w.dispatched, Itself, e.ticket, t);
      Update(w.workers, Unpublished, i, x, t);
      assert Tally(w.exec.queue, TicketOf, t) + Tally(w.dispatched, Itself, t) + Tally(w.cancelled, Itself, t)
             == if t < w.exec.nextTicket then 1 else 0;
    }
    TakeDebts(w, w', i, e, x);
    Update(w.workers, Unpublished, i, x, 0);
  }

  /** A worker that takes a job owes its retirement and its publication. */
  lemma TakeDebts(w: World, w': World, i: nat, e: Entry<nat>, x: Worker)
    requires RetiredOnce(w) && PublishedOnce(w) && i < |w.workers| && w.workers[i].Idle?
    requires x == Busy(e.ticket, e.job, false, false) && w'.workers == w.workers[i := x]
    requires w'.dispatched == w.dispatched + [e.ticket] && w'.retired == w.retired
    requires w'.published == w.published && w'.dropped == w.dropped
    ensures RetiredOnce(w') && PublishedOnce(w')
  {
    forall t: nat
      ensures Tally(w'.retired, Itself, t) + Tally(w'.workers, Unretired, t) == Tally(w'.dispatched, Itself, t)
      ensures Ended(w', t) + Tally(w'.workers, Unpublished, t) == Tally(w'.dispatched, Itself, t)
    {
      Append(w.dispatched, Itself, e.ticket, t);
      Update(w.workers, Unretired, i, x, t);
      Update(w.workers, Unpublished, i, x, t);
      assert Tally(w.retired, Itself, t) + Tally(w.workers, Unretired, t) == Tally(w.dispatched, Itself, t);
      assert Ended(w, t) + Tally(w.workers, Unpublished, t) == Tally(w.dispatched, Itself, t);
    }
  }

  /** Replacing a worker that owes nothing by one that owes nothing changes no account. */
  lemma ExitAccounts(w: World, w': World, i: nat)
    requires RetiredOnce(w) && PublishedOnce(w) && Awaited(w) && i < |w.workers| == |w'.workers|
    requires Unretired(w.workers[i]).None? && Unpublished(w.workers[i]).None?
    requires Unretired(w'.workers[i]).None? && Unpublished(w'.workers[i]).None?
    requires w' == w.(workers := w.workers[i := w'.workers[i]])
    ensures RetiredOnce(w') && PublishedOnce(w') && Awaited(w')
    ensures Size(w'.workers, Unretired) == Size(w.workers, Unretired)
  {
    forall t: nat
      ensures Tally(w'.workers, Unretired, t) == Tally(w.workers, Unretired, t)
      ensures Tally(w'.workers, Unpublished, t) == Tally(w.workers, Unpublished, t)
    {
      Update(w.workers, Unretired, i, w'.workers[i], t);
      Update(w.workers, Unpublished, i, w'.workers[i], t);
      assert Ended(w', t) == Ended(w, t);
    }
    Update(w.workers, Unretired, i, w'.workers[i], 0);
    Update(w.workers, Unpublished, i, w'.workers[i], 0);
  }

  lemma LinksTaken(w: World, w': World, i: nat, x: Worker)
    requires Links(w) && i < |w.workers| && w'.workers == w.workers[i := x] && WorkerLink(w, x)
    requires w'.clients == w.clients
    requires w'.exec.queue == w.exec.queue || (w.exec.queue != [] && w'.exec.queue == w.exec.queue[1..])
    ensures Links(w')
  {
    forall k | 0 <= k < |w'.exec.queue| ensures EntryLink(w', w'.exec.queue[k]) {
      var k' := if w'.exec.queue == w.exec.queue then k else k + 1;
      assert EntryLink(w, w.exec.queue[k']);
    }
    forall k | 0 <= k < |w'.workers| ensures WorkerLink(w', w'.workers[k]) { assert WorkerLink(w, w.workers[k]); }
  }

  /** Worker `i` becomes `x` and has given back its share of the capacity. */
  lemma RetireAccounts(w: World, w': World, i: nat, x: Worker)
    requires RetiredOnce(w) && i < |w.workers| && Unretired(w.workers[i]).Some? && Unretired(x).None?
    requires w'.workers == w.workers[i := x] && w'.dispatched == w.dispatched
    requires w'.retired == w.retired + [w.workers[i].ticket]
    ensures RetiredOnce(w') && Size(w'.workers, Unretired) == Size(w.workers, Unretired) - 1
  {
    forall t: nat
      ensures Tally(w'.retired, Itself, t) + Tally(w'.workers, Unretired, t) == Tally(w'.dispatched, Itself, t)
    {
      Append(w.retired, Itself, w.workers[i].ticket, t);
      Update(w.workers, Unretired, i, x, t);
      assert Tally(w.retired, Itself, t) + Tally(w.workers, Unretired, t) == Tally(w.dispatched, Itself, t);
    }
    Update(w.workers, Unretired, i, x, 0);
  }

  /** Nothing is owed to a client that was not owed before. */
  lemma DebtsKept(w: World, w': World, i: nat, x: Worker)
    requires PublishedOnce(w) && Awaited(w) && i < |w.workers| && Unpublished(x) == Unpublished(w.workers[i])
    requires w'.workers == w.workers[i := x] && w'.dispatched == w.dispatched && w'.exec.queue == w.exec.queue
    requires w'.published == w.published && w'.dropped == w.dropped && w'.clients == w.clients
    ensures PublishedOnce(w') && Awaited(w')
  {
    forall t: nat ensures Tally(w'.workers, Unpublished, t) == Tally(w.workers, Unpublished, t) {
      Update(w.workers, Unpublished, i, x, t);
      assert Ended(w', t) == Ended(w, t);
    }
    Update(w.workers, Unpublished, i, x, 0);
  }

  lemma RetireKeeps(workers: nat, capacity: nat, w: World, i: nat)
    requires Inv(workers, capacity, w) && Enabled(w, Retire(i))
    ensures Inv(workers, capacity, DoRetire(w, i))
  {
    var w' := DoRetire(w, i);
    var x := w.workers[i].(retired := true);
    RetireAccounts(w, w', i, x);
    DebtsKept(w, w', i, x);
    assert WorkerLink(w, w.workers[i]);
    LinksTaken(w, w', i, x);
    StillInOrder(w, w');
  }

  /** With the same queue and no more workers occupied, order and reservations stay. */
  lemma StillInOrder(w: World, w': World)
    requires InOrder(w) && Reserved(w) && Accounted(w) && Drained(w) && |w'.workers| == |w.workers|
    requires w'.exec.queue == w.exec.queue && w'.exec.nextTicket == w.exec.nextTicket
    requires w'.exec.stopping == w.exec.stopping && w'.dispatched == w.dispatched && w'.cancelled == w.cancelled
    requires Size(w'.workers, Unretired) <= Size(w.workers, Unretired)
    requires forall k :: 0 <= k < |w.workers| && w'.workers[k].Exited? ==> w.workers[k].Exited?
    ensures InOrder(w') && Reserved(w') && Accounted(w') && Drained(w')
  {
  }

  /** Worker `i` becomes `x` and ends its job; its client `c` no longer waits for it. */
  predicate Ends(w: World, w': World, i: nat, x: Worker, c: nat) {
    && i < |w.workers| && Unpublished(w.workers[i]).Some? && Unpublished(x).None? && w'.workers == w.workers[i := x]
    && c < |w.clients| == |w'.clients| && Held(w.clients[c]) == Unpublished(w.workers[i])
    && w'.clients == w.clients[c := w'.clients[c]] && Held(w'.clients[c]).None?
    && w'.exec.queue == w.exec.queue && w'.dispatched == w.dispatched
    && ((w'.published == w.published + [w.workers[i].ticket] && w'.dropped == w.dropped)
        || (w'.dropped == w.dropped + [w.workers[i].ticket] && w'.published == w.published))
  }

  lemma EndAccounts(w: World, w': World, i: nat, x: Worker, c: nat)
    requires PublishedOnce(w) && Awaited(w) && Ends(w, w', i, x, c)
    ensures PublishedOnce(w') && Awaited(w')
  {
    forall t: nat
      ensures Ended(w', t) + Tally(w'.workers, Unpublished, t) == Tally(w'.dispatched, Itself, t)
      ensures Tally(w'.clients, Held, t) == Tally(w'.exec.queue, TicketOf, t) + Tally(w'.workers, Unpublished, t)
    {
      EndedMore(w, w', w.workers[i].ticket, t);
      Update(w.workers, Unpublished, i, x, t);
      Update(w.clients, Held, c, w'.clients[c], t);
      assert Ended(w, t) + Tally(w.workers, Unpublished, t) == Tally(w.dispatched, Itself, t);
    }
    Update(w.workers, Unpublished, i, x, 0);
    Update(w.clients, Held, c, w'.clients[c], 0);
  }

  lemma EndedMore(w: World, w': World, ticket: nat, t: nat)
    requires (w'.published == w.published + [ticket] && w'.dropped == w.dropped)
          || (w'.dropped == w.dropped + [ticket] && w'.published == w.published)
    ensures Ended(w', t) == Ended(w, t) + if t == ticket then 1 else 0
  {
    Append(w.published, Itself, ticket, t);
    Append(w.dropped, Itself, ticket, t);
  }

  lemma EndLinks(w: World, w': World, i: nat, x: Worker, c: nat)
    requires Links(w) && Accounted(w) && PublishedOnce(w) && Awaited(w) && Ends(w, w', i, x, c)
    requires Unretired(x).None?
    ensures Links(w')
  {
    JobAlone(w, w.workers[i].ticket);
    forall k | 0 <= k < |w'.exec.queue| ensures EntryLink(w', w'.exec.queue[k]) {
      assert EntryLink(w, w.exec.queue[k]);
    }
    forall k | 0 <= k < |w'.workers| ensures WorkerLink(w', w'.workers[k]) {
      assert WorkerLink(w, w.workers[k]);
    }
  }

  lemma PublishKeeps(workers: nat, capacity: nat, w: World, i: nat)
    requires Inv(workers, capacity, w) && Enabled(w, Publish(i))
    ensures Inv(workers, capacity, DoPublish(w, i))
  {
    var w', c := DoPublish(w, i), w.workers[i].client;
    var x := w.workers[i].(published := true);
    assert WorkerLink(w, w.workers[i]);
    EndAccounts(w, w', i, x, c);
    EndLinks(w, w', i, x, c);
    SameRetired(w, w', i, x);
    StillInOrder(w, w');
  }

  lemma SameRetired(w: World, w': World, i: nat, x: Worker)
    requires RetiredOnce(w) && i < |w.workers| && Unretired(x) == Unretired(w.workers[i])
    requires w'.workers == w.workers[i := x] && w'.dispatched == w.dispatched && w'.retired == w.retired
    ensures RetiredOnce(w') && Size(w'.workers, Unretired) == Size(w.workers, Unretired)
  {
    forall t: nat ensures Tally(w'.workers, Unretired, t) == Tally(w.workers, Unretired, t) {
      Update(w.workers, Unretired, i, x, t);
    }
    Update(w.workers, Unretired, i, x, 0);
  }

  /** A job whose client has left retires without a completion. */
  lemma SkipKeeps(workers: nat, capacity: nat, w: World, i: nat)
    requires Inv(workers, capacity, w) && Enabled(w, Skip(i))
    ensures Inv(workers, capacity, DoSkip(w, i))
  {
    var w', c := DoSkip(w, i), w.workers[i].client;
    assert WorkerLink(w, w.workers[i]);
    EndAccounts(w, w', i, Idle, c);
    EndLinks(w, w', i, Idle, c);
    RetireAccounts(w, w', i, Idle);
    StillInOrder(w, w');
  }

  lemma LeaveKeeps(workers: nat, capacity: nat, w: World, c: nat)
    requires Inv(workers, capacity, w) && Enabled(w, Leave(c))
    ensures Inv(workers, capacity, Next(workers, capacity, w, Leave(c)))
  {
    var w' := Next(workers, capacity, w, Leave(c));
    var m := Left(w.clients[c].submission);
    forall t: nat ensures Tally(w'.clients, Held, t) == Tally(w.clients, Held, t) {
      Update(w.clients, Held, c, m, t);
      assert Ended(w', t) == Ended(w, t);
    }
    Update(w.clients, Held, c, m, 0);
    forall p | 0 <= p < |w'.exec.queue| ensures EntryLink(w', w'.exec.queue[p]) {
      assert EntryLink(w, w.exec.queue[p]);
    }
    forall i | 0 <= i < |w'.workers| ensures WorkerLink(w', w'.workers[i]) { assert WorkerLink(w, w.workers[i]); }
    StillInOrder(w, w');
  }

  /** Every step of every client and worker keeps the invariant. */
  lemma StepKeeps(workers: nat, capacity: nat, w: World, a: Action)
    requires Inv(workers, capacity, w) && Enabled(w, a)
    ensures Inv(workers, capacity, Next(workers, capacity, w, a))
  {
    match a
    case Join => JoinKeeps(workers, capacity, w);
    case Send(c) => SendKeeps(workers, capacity, w, c);
    case Leave(c) => LeaveKeeps(workers, capacity, w, c);
    case Withdraw(c) => WithdrawKeeps(workers, capacity, w, c);
    case Take(i) => TakeKeeps(workers, capacity, w, i);
    case Skip(i) => SkipKeeps(workers, capacity, w, i);
    case Retire(i) => RetireKeeps(workers, capacity, w, i);
    case Publish(i) => PublishKeeps(workers, capacity, w, i);
    case Return(i) => ReturnKeeps(workers, capacity, w, i);
    case Halt => HaltKeeps(workers, capacity, w);
  }

  lemma ReturnKeeps(workers: nat, capacity: nat, w: World, i: nat)
    requires Inv(workers, capacity, w) && Enabled(w, Return(i))
    ensures Inv(workers, capacity, w.(workers := w.workers[i := Idle]))
  {
    var w' := w.(workers := w.workers[i := Idle]);
    assert WorkerLink(w, w.workers[i]);
    ExitAccounts(w, w', i);
    LinksTaken(w, w', i, Idle);
    StillInOrder(w, w');
  }

  lemma HaltKeeps(workers: nat, capacity: nat, w: World)
    requires Inv(workers, capacity, w)
    ensures Inv(workers, capacity, w.(exec := w.exec.(stopping := true)))
  {
    var w' := w.(exec := w.exec.(stopping := true));
    LinksGrow(w, w');
    forall t: nat ensures Ended(w', t) == Ended(w, t) {}
  }

  // ------------------------------------------------------------- whole runs

  ghost predicate Step(workers: nat, capacity: nat, w: World, w': World) {
    exists a :: Enabled(w, a) && w' == Next(workers, capacity, w, a)
  }

  ghost predicate Runs(workers: nat, capacity: nat, run: seq<World>) {
    && 0 < workers <= capacity && run != [] && run[0] == Start(workers)
    && forall k :: 0 <= k < |run| - 1 ==> Step(workers, capacity, run[k], run[k + 1])
  }

  lemma StartKeeps(workers: nat, capacity: nat, w: World)
    requires 0 < workers <= capacity && w == Start(workers)
    ensures Inv(workers, capacity, w)
  {
    SizeZero(w.workers, Unretired);
    SizeZero(w.workers, Unpublished);
    forall t: nat ensures Tally(w.workers, Unretired, t) == 0 && Tally(w.workers, Unpublished, t) == 0 {
      Absent(w.workers, Unretired, t);
      Absent(w.workers, Unpublished, t);
    }
  }

  /** Every reachable world satisfies the invariant: capacity is exact, active entries have
      workers, dispatch follows ticket order, every ticket is dispatched and retired at most
      once, and then published or dropped, or cancelled once, and no assertion fails. */
  lemma {:induction false} RunsKeepPromises(workers: nat, capacity: nat, run: seq<World>)
    requires Runs(workers, capacity, run)
    ensures forall k :: 0 <= k < |run| ==> Inv(workers, capacity, run[k])
    decreases |run|
  {
    var n := |run| - 1;
    if n == 0 {
      StartKeeps(workers, capacity, run[0]);
    } else {
      RunsKeepPromises(workers, capacity, run[..n]);
      assert run[..n][n - 1] == run[n - 1];
      assert Step(workers, capacity, run[n - 1], run[n - 1 + 1]);
      AnyStepKeeps(workers, capacity, run[n - 1], run[n]);
      forall k | 0 <= k < n ensures Inv(workers, capacity, run[k]) { assert run[..n][k] == run[k]; }
    }
  }

  lemma AnyStepKeeps(workers: nat, capacity: nat, w: World, w': World)
    requires Inv(workers, capacity, w) && Step(workers, capacity, w, w')
    ensures Inv(workers, capacity, w')
  {
    var a :| Enabled(w, a) && w' == Next(workers, capacity, w, a);
    StepKeeps(workers, capacity, w, a);
  }

  /** A job that retires before its completion is published gives its client the same
      capacity back: with no more clients than capacity, nobody is refused as full. */
  lemma ChainsAreNeverRefused(workers: nat, capacity: nat, run: seq<World>, c: nat)
    requires Runs(workers, capacity, run)
    ensures var w := run[|run| - 1];
      |w.clients| <= capacity && Enabled(w, Send(c)) ==>
        Submit(workers, capacity, w.exec, _ => c).1 != Refused(Full)
  {
    var w := run[|run| - 1];
    RunsKeepPromises(workers, capacity, run);
    if |w.clients| <= capacity && Enabled(w, Send(c)) {
      forall i | 0 <= i < |w.workers| && Unretired(w.workers[i]).Some? ensures Unpublished(w.workers[i]).Some? {
        assert WorkerLink(w, w.workers[i]);
      }
      SizeMono(w.workers, Unretired, Unpublished);
      Split(w.clients, Held, c, 0);
      assert w.exec.outstanding < capacity;
    }
  }

  /** In every run, a client that sends is refused exactly if admission has stopped or the
      jobs that wait or hold a worker fill the capacity.  Otherwise its job is the last one in
      the queue, admitted as active exactly if those jobs are fewer than the workers, and the
      client holds that class and ticket. */
  lemma AdmissionIsExact(workers: nat, capacity: nat, run: seq<World>, c: nat)
    requires Runs(workers, capacity, run) && Enabled(run[|run| - 1], Send(c))
    ensures var w := run[|run| - 1];
            var w' := Next(workers, capacity, w, Send(c));
            var jobs := |w.exec.queue| + Size(w.workers, Unretired);
      && (w.exec.stopping || jobs == capacity ==> w' == w)
      && (!w.exec.stopping && jobs < capacity ==>
            var m := Submission(if jobs < |w.workers| then Active else Queued, w.exec.nextTicket);
            && w'.exec.queue == w.exec.queue + [Entry(m.ticket, m.kind, c)]
            && w'.clients == w.clients[c := InFlight(m)] && w'.workers == w.workers
            && w'.exec.nextTicket == m.ticket + 1)
  {
    RunsKeepPromises(workers, capacity, run);
  }

  /** An entry admitted as active at position `p` always finds more than `p` workers that
      neither occupy capacity nor have left. */
  lemma ActiveEntryHasAWorker(workers: nat, capacity: nat, run: seq<World>, p: nat)
    requires Runs(workers, capacity, run)
    requires p < |run[|run| - 1].exec.queue| && run[|run| - 1].exec.queue[p].kind == Active
    ensures Size(run[|run| - 1].workers, Spare) > p
  {
    var w := run[|run| - 1];
    RunsKeepPromises(workers, capacity, run);
    forall i | 0 <= i < |w.workers| ensures Spare(w.workers[i]).Some? == Unretired(w.workers[i]).None? {}
    SpareCount(w.workers);
  }

  function Spare(x: Worker): Option<nat> {
    if x.Idle? || (x.Busy? && x.retired) then Some(0) else None
  }

  lemma {:induction false} SpareCount(ws: seq<Worker>)
    requires forall i :: 0 <= i < |ws| ==> Spare(ws[i]).Some? == Unretired(ws[i]).None?
    ensures Size(ws, Spare) + Size(ws, Unretired) == |ws|
    decreases |ws|
  {
    if ws != [] {
      SpareCount(ws[..|ws| - 1]);
    }
  }

  /** Once admission has stopped and every worker has left, nothing is left behind: every
      accepted ticket was dispatched, retired and either published or dropped, or it was
      cancelled, exactly once. */
  lemma ShutdownDrains(workers: nat, capacity: nat, run: seq<World>)
    requires Runs(workers, capacity, run)
    ensures var w := run[|run| - 1];
      (forall i :: 0 <= i < |w.workers| ==> w.workers[i].Exited?) ==>
        && w.exec.stopping && w.exec.queue == [] && w.exec.outstanding == 0
        && forall t: nat :: t < w.exec.nextTicket ==>
             && Tally(w.dispatched, Itself, t) + Tally(w.cancelled, Itself, t) == 1
             && Tally(w.retired, Itself, t) == Tally(w.dispatched, Itself, t) == Ended(w, t)
  {
    var w := run[|run| - 1];
    RunsKeepPromises(workers, capacity, run);
    if forall i :: 0 <= i < |w.workers| ==> w.workers[i].Exited? {
      assert w.workers[0].Exited?;
      SizeZero(w.workers, Unretired);
      forall t: nat | t < w.exec.nextTicket
        ensures Tally(w.dispatched, Itself, t) + Tally(w.cancelled, Itself, t) == 1
        ensures Tally(w.retired, Itself, t) == Tally(w.dispatched, Itself, t) == Ended(w, t)
      {
        Absent(w.workers, Unretired, t);
        Absent(w.workers, Unpublished, t);
        assert Ended(w, t) + Tally(w.workers, Unpublished, t) == Tally(w.dispatched, Itself, t);
        assert Tally(w.retired, Itself, t) + Tally(w.workers, Unretired, t) == Tally(w.dispatched, Itself, t);
        assert Tally(w.exec.queue, TicketOf, t) + Tally(w.dispatched, Itself, t) + Tally(w.cancelled, Itself, t) == 1;
      }
    }
  }
}
