/**
  Every run of a host resource heap: reservations, Roc references and closing threads
  interleaved over the lock-held regions of `HostResourceHeap`.

  Roc's reference counting is assumed to be correct: a reference is copied or released
  only by someone who holds it, and the release of the last one calls the deallocator
  once.  Resources are numbered in the order of their insertion.
*/
module HostResourceRuns {
  import opened Bags
  import opened ResourceTokens
  import opened HostResourceHeap

  datatype Reservation = Reservation(index: nat, generation: nat)

  /** A Roc reference to the resource that was inserted at `index` in `generation`. */
  datatype Ref = Ref(index: nat, generation: nat, resource: nat)

  /** A thread inside `route_dealloc`: called by the last release; running the native
      drop; done with it. */
  datatype Closer =
    | Finalizing(index: nat)
    | Dropping(index: nat, generation: nat, resource: nat)
    | Returning(index: nat, generation: nat)

  datatype World = World(
    slab: Slab, heap: Heap<nat>, reservations: seq<Reservation>, refs: seq<Ref>, closers: seq<Closer>,
    inserted: nat, dropped: seq<nat>, issued: seq<nat>, gone: bool, fault: bool)

  datatype Action =
    | Reserve
    | Insert(reservation: nat)
    | Cancel(reservation: nat)
    | Share(ref: nat)
    | Release(ref: nat, poison: bool)
    | BeginClose(closer: nat)
    | DropNative(closer: nat)
    | FinishClose(closer: nat)
    | DropHeap

  function Initial(slab: Slab): World {
    World(slab, Fresh(slab.len), [], [], [], 0, [], [], false, false)
  }

  predicate Sound(w: World) { Sized(w.heap) && ValidSlab(w.slab) && w.slab.len == |w.heap.states| }

  function Without<A>(s: seq<A>, i: nat): seq<A>
    requires i < |s|
  {
    s[..i] + s[i + 1..]
  }

  predicate InRange(w: World, i: nat) { i < |w.heap.states| }

  predicate Enabled(w: World, a: Action) {
    && Sound(w) && !w.gone
    && match a
       case Reserve => true
       case Insert(p) => p < |w.reservations| && InRange(w, w.reservations[p].index)
       case Cancel(p) => p < |w.reservations| && InRange(w, w.reservations[p].index)
       case Share(p) => p < |w.refs| && InRange(w, w.refs[p].index)
       case Release(p, _) => p < |w.refs| && InRange(w, w.refs[p].index)
       case BeginClose(p) => p < |w.closers| && w.closers[p].Finalizing? && InRange(w, w.closers[p].index)
       case DropNative(p) => p < |w.closers| && w.closers[p].Dropping?
       case FinishClose(p) => p < |w.closers| && w.closers[p].Returning? && InRange(w, w.closers[p].index)
       case DropHeap => w.reservations == [] && w.closers == []
  }

  function DoReserve(w: World): World
    requires Sound(w)
  {
    var (h, granted) := ReserveIn(w.heap);
    w.(heap := h,
       reservations := w.reservations
                       + if granted.Some? then [Reservation(granted.value.0, granted.value.1)] else [])
  }

  function DoInsert(w: World, p: nat): World
    requires Sound(w) && p < |w.reservations| && InRange(w, w.reservations[p].index)
  {
    var r := w.reservations[p];
    w.(heap := CommitIn(w.heap, r.index, r.generation, w.inserted),
       reservations := Without(w.reservations, p),
       refs := w.refs + [Ref(r.index, r.generation, w.inserted)],
       inserted := w.inserted + 1,
       issued := w.issued + [EncodeToken(r.index, r.generation)],
       fault := w.fault || w.heap.states[r.index] != SlotState.Reserved || w.heap.generations[r.index] != r.generation)
  }

  function DoCancel(w: World, p: nat): World
    requires Sound(w) && p < |w.reservations| && InRange(w, w.reservations[p].index)
  {
    var r := w.reservations[p];
    w.(heap := CancelIn(w.heap, r.index, r.generation), reservations := Without(w.reservations, p))
  }

  function DoShare(w: World, p: nat): World
    requires Sound(w) && p < |w.refs| && InRange(w, w.refs[p].index)
  {
    var i := w.refs[p].index;
    w.(heap := SetCount(w.heap, i, w.heap.cells[i].refcount + 1), refs := w.refs + [w.refs[p]])
  }

  function DoRelease(w: World, p: nat, poison: bool): World
    requires Sound(w) && p < |w.refs| && InRange(w, w.refs[p].index)
  {
    var i := w.refs[p].index;
    var left := w.heap.cells[i].refcount - 1;
    w.(heap := SetCount(w.heap, i, if left == 0 && poison then REFCOUNT_POISON else left),
       refs := Without(w.refs, p),
       closers := w.closers + if left == 0 then [Finalizing(i)] else [])
  }

  function DoBeginClose(w: World, p: nat): World
    requires Sound(w) && p < |w.closers| && InRange(w, w.closers[p].index)
  {
    var route := RouteOf(w.slab, w.heap, BaseAddress(w.slab, w.closers[p].index));
    if route.Close? then
      w.(heap := CloseIn(w.heap, route.index),
         closers := w.closers[p := Dropping(route.index, route.generation, route.resource)])
    else
      w.(fault := true)
  }

  function DoDropNative(w: World, p: nat): World
    requires p < |w.closers| && w.closers[p].Dropping?
  {
    var c := w.closers[p];
    w.(closers := w.closers[p := Returning(c.index, c.generation)], dropped := w.dropped + [c.resource])
  }

  function DoFinishClose(w: World, p: nat): World
    requires Sound(w) && p < |w.closers| && w.closers[p].Returning? && InRange(w, w.closers[p].index)
  {
    var c := w.closers[p];
    w.(heap := FreeSlot(w.heap, c.index), closers := Without(w.closers, p),
       fault := w.fault || w.heap.states[c.index] != SlotState.Closing || w.heap.generations[c.index] != c.generation)
  }

  function DoDropHeap(w: World): World
    requires Sound(w)
  {
    w.(dropped := w.dropped + LiveResources(w.heap, |w.heap.states|), gone := true)
  }

  function Next(w: World, a: Action): World
    requires Enabled(w, a)
  {
    match a
    case Reserve => DoReserve(w)
    case Insert(p) => DoInsert(w, p)
    case Cancel(p) => DoCancel(w, p)
    case Share(p) => DoShare(w, p)
    case Release(p, poison) => DoRelease(w, p, poison)
    case BeginClose(p) => DoBeginClose(w, p)
    case DropNative(p) => DoDropNative(w, p)
    case FinishClose(p) => DoFinishClose(w, p)
    case DropHeap => DoDropHeap(w)
  }

  // -------------------------------------------------------------- invariant

  function N(b: bool): nat { if b then 1 else 0 }

  predicate Is(h: Heap<nat>, k: nat, s: SlotState) { k < |h.states| && h.states[k] == s }

  /** References to slot `k` that its count stands for. */
  function Counted(h: Heap<nat>, k: nat): int {
    if Is(h, k, SlotState.Live) && k < |h.cells| && h.cells[k].refcount > 0 then h.cells[k].refcount else 0
  }

  predicate Finished(h: Heap<nat>, k: nat) {
    Is(h, k, SlotState.Live) && k < |h.cells| && h.cells[k].refcount <= 0
  }

  function ReservedIndex(r: Reservation): Option<nat> { Some(r.index) }
  function RefIndex(r: Ref): Option<nat> { Some(r.index) }
  function FinalIndex(c: Closer): Option<nat> { if c.Finalizing? then Some(c.index) else None }
  function ClosingIndex(c: Closer): Option<nat> { if c.Finalizing? then None else Some(c.index) }
  function Carried(c: Closer): Option<nat> { if c.Dropping? then Some(c.resource) else None }
  function Stored(c: Cell<nat>): Option<nat> { c.resource }
  function Vacant(s: SlotState): Option<nat> { if s == SlotState.Free then Some(0) else None }
  function Spent(s: SlotState): Option<nat> { if s == SlotState.Retired then Some(0) else None }
  function Busy(s: SlotState): Option<nat> {
    if s == SlotState.Reserved || s == SlotState.Live || s == SlotState.Closing then Some(0) else None
  }

  /** Whoever has a claim on slot `k` agrees with its state: the free list, reservations,
      references, the last release, and threads that close it. */
  ghost predicate SlotHeld(w: World, k: nat) {
    && Tally(w.heap.free, Itself, k) == N(Is(w.heap, k, SlotState.Free))
    && Tally(w.reservations, ReservedIndex, k) == N(Is(w.heap, k, SlotState.Reserved))
    && Tally(w.refs, RefIndex, k) == Counted(w.heap, k)
    && Tally(w.closers, FinalIndex, k) == N(Finished(w.heap, k))
    && Tally(w.closers, ClosingIndex, k) == N(Is(w.heap, k, SlotState.Closing))
  }

  ghost predicate Held(w: World) { forall k: nat :: SlotHeld(w, k) }

  /** What slot `k` contains follows from its state. */
  predicate CellOk(h: Heap<nat>, k: nat)
    requires Sized(h) && k < |h.states|
  {
    && h.generations[k] <= MAX_GENERATION
    && (Busy(h.states[k]).Some? ==> h.generations[k] >= 1)
    && (h.states[k] == SlotState.Retired ==> h.generations[k] == MAX_GENERATION)
    && (h.states[k] == SlotState.Live <==> h.cells[k].resource.Some?)
    && (h.states[k] == SlotState.Live ==> h.cells[k].token == EncodeToken(k, h.generations[k]))
    && (Finished(h, k) ==> IsFinalized(h.cells[k].refcount))
  }

  predicate Cells(h: Heap<nat>)
    requires Sized(h)
  {
    forall k :: 0 <= k < |h.states| ==> CellOk(h, k)
  }

  predicate RefOk(h: Heap<nat>, r: Ref)
    requires Sized(h)
  {
    r.index < |h.states| && h.cells[r.index].resource == Some(r.resource) && h.generations[r.index] == r.generation
  }

  predicate Stamped(h: Heap<nat>, i: nat, g: nat)
    requires Sized(h)
  {
    i < |h.states| && h.generations[i] == g
  }

  /** Everyone remembers the generation of the slot they hold. */
  predicate Linked(w: World)
    requires Sized(w.heap)
  {
    && (forall p :: 0 <= p < |w.reservations| ==>
          Stamped(w.heap, w.reservations[p].index, w.reservations[p].generation))
    && (forall p :: 0 <= p < |w.refs| ==> RefOk(w.heap, w.refs[p]))
    && (forall p :: 0 <= p < |w.closers| && !w.closers[p].Finalizing? ==>
          Stamped(w.heap, w.closers[p].index, w.closers[p].generation))
  }

  predicate Counts(h: Heap<nat>) {
    && h.active == Size(h.states, Busy) <= h.highWater <= |h.states|
    && |h.free| == Size(h.states, Vacant)
  }

  ghost function Account(w: World, k: nat): nat {
    Tally(w.heap.cells, Stored, k) + Tally(w.closers, Carried, k) + Tally(w.dropped, Itself, k)
  }

  /** Every inserted resource is in a slot, with a closing thread, or dropped, once. */
  ghost predicate Conserved(w: World) { forall k: nat :: Account(w, k) == N(k < w.inserted) }

  /** The token names an earlier stay in its slot, or the present one. */
  predicate TokenSpent(h: Heap<nat>, token: nat)
    requires Sized(h)
  {
    var d := DecodeToken(token);
    && d.Some? && d.value.0 < |h.states| && d.value.1 <= h.generations[d.value.0]
    && (h.states[d.value.0] == SlotState.Reserved ==> d.value.1 < h.generations[d.value.0])
  }

  predicate Tokens(w: World)
    requires Sized(w.heap)
  {
    && (forall p :: 0 <= p < |w.issued| ==> TokenSpent(w.heap, w.issued[p]))
    && (forall p, q :: 0 <= p < q < |w.issued| ==> w.issued[p] != w.issued[q])
  }

  ghost predicate Inv(w: World) {
    && Sound(w) && w.slab.len <= TOKEN_INDEX_MASK && !w.fault
    && Held(w) && Cells(w.heap) && Linked(w) && Counts(w.heap) && Conserved(w) && Tokens(w)
  }

  // ------------------------------------------------ who cannot hold a slot

  lemma NoReservation(w: World, i: nat)
    requires SlotHeld(w, i) && !Is(w.heap, i, SlotState.Reserved)
    ensures forall p :: 0 <= p < |w.reservations| ==> w.reservations[p].index != i
  {
    forall p: nat | p < |w.reservations| ensures w.reservations[p].index != i {
      if w.reservations[p].index == i {
        Has(w.reservations, ReservedIndex, p, i);
      }
    }
  }

  lemma NoRef(w: World, i: nat)
    requires SlotHeld(w, i) && Counted(w.heap, i) == 0
    ensures forall p :: 0 <= p < |w.refs| ==> w.refs[p].index != i
  {
    forall p: nat | p < |w.refs| ensures w.refs[p].index != i {
      if w.refs[p].index == i {
        Has(w.refs, RefIndex, p, i);
      }
    }
  }

  lemma NoCloser(w: World, i: nat)
    requires SlotHeld(w, i) && !Is(w.heap, i, SlotState.Closing)
    ensures forall p :: 0 <= p < |w.closers| && !w.closers[p].Finalizing? ==> w.closers[p].index != i
  {
    forall p: nat | p < |w.closers| && !w.closers[p].Finalizing? ensures w.closers[p].index != i {
      if w.closers[p].index == i {
        Has(w.closers, ClosingIndex, p, i);
      }
    }
  }

  // ---------------------------------------------------------------- reserve

  /** The slot on top of the free list is free. */
  lemma TopIsFree(w: World) returns (i: nat)
    requires Sound(w) && Held(w) && w.heap.free != []
    ensures i == w.heap.free[|w.heap.free| - 1] && Is(w.heap, i, SlotState.Free)
  {
    var n := |w.heap.free| - 1;
    i := w.heap.free[n];
    assert SlotHeld(w, i);
    Has(w.heap.free, Itself, n, i);
  }

  lemma PopTally(s: seq<nat>, k: nat)
    requires s != []
    ensures Tally(s[..|s| - 1], Itself, k) == Tally(s, Itself, k) - One(Some(s[|s| - 1]), k)
  {
    Append(s[..|s| - 1], Itself, s[|s| - 1], k);
    assert s == s[..|s| - 1] + [s[|s| - 1]];
  }

  lemma RetireKeeps(w: World)
    requires Inv(w) && w.heap.free != [] && Exhausted(w.heap)
    ensures Inv(w.(heap := Retire(w.heap)))
  {
    var i := TopIsFree(w);
    var h, h' := w.heap, Retire(w.heap);
    var w' := w.(heap := h');
    Update(h.states, Busy, i, SlotState.Retired, 0);
    Update(h.states, Vacant, i, SlotState.Retired, 0);
    RetireHeld(w, w', i);
    forall k | 0 <= k < |h'.states| ensures CellOk(h', k) {
      assert CellOk(h, k);
    }
    forall p | 0 <= p < |w.issued| ensures TokenSpent(h', w.issued[p]) {
      assert TokenSpent(h, w.issued[p]);
    }
    ConservedFrame(w, w');
  }

  lemma RetireHeld(w: World, w': World, i: nat)
    requires Sound(w) && Held(w) && w.heap.free != [] && w' == w.(heap := Retire(w.heap))
    requires i == w.heap.free[|w.heap.free| - 1] && Is(w.heap, i, SlotState.Free)
    ensures Held(w')
  {
    forall k: nat ensures SlotHeld(w', k) {
      assert SlotHeld(w, k);
      PopTally(w.heap.free, k);
    }
  }

  lemma ConservedFrame(w: World, w': World)
    requires Conserved(w) && w'.heap.cells == w.heap.cells && w'.closers == w.closers
    requires w'.dropped == w.dropped && w'.inserted == w.inserted
    ensures Conserved(w')
  {
    forall k: nat ensures Account(w', k) == N(k < w'.inserted) {
      assert Account(w, k) == N(k < w.inserted);
    }
  }

  /** The new state after a grant at slot `i`. */
  function Granted(w: World, i: nat): World
    requires Sound(w) && w.heap.free != [] && i < |w.heap.states|
  {
    w.(heap := Grant(w.heap),
       reservations := w.reservations + [Reservation(i, SaturatingIncrement(w.heap.generations[i]))])
  }

  lemma GrantHeld(w: World, i: nat)
    requires Inv(w) && w.heap.free != [] && i == w.heap.free[|w.heap.free| - 1] && Is(w.heap, i, SlotState.Free)
    ensures Held(Granted(w, i))
  {
    var w' := Granted(w, i);
    forall k: nat ensures SlotHeld(w', k) {
      assert SlotHeld(w, k);
      PopTally(w.heap.free, k);
      Append(w.reservations, ReservedIndex, w'.reservations[|w.reservations|], k);
    }
  }

  lemma BusyBound(w: World, i: nat)
    requires Sound(w) && i < |w.heap.states| && w.heap.states[i] == SlotState.Free
    ensures Size(w.heap.states, Busy) < |w.heap.states|
  {
    Split(w.heap.states, Busy, i, 0);
  }

  lemma GrantCells(w: World, i: nat)
    requires Inv(w) && w.heap.free != [] && i == w.heap.free[|w.heap.free| - 1] && Is(w.heap, i, SlotState.Free)
    requires !Exhausted(w.heap)
    ensures Cells(Grant(w.heap)) && Tokens(Granted(w, i))
  {
    var h, h' := w.heap, Grant(w.heap);
    forall k | 0 <= k < |h'.states| ensures CellOk(h', k) {
      assert CellOk(h, k);
    }
    forall p | 0 <= p < |w.issued| ensures TokenSpent(h', w.issued[p]) {
      assert TokenSpent(h, w.issued[p]);
    }
  }

  lemma GrantCounts(w: World, i: nat)
    requires Inv(w) && w.heap.free != [] && i == w.heap.free[|w.heap.free| - 1] && Is(w.heap, i, SlotState.Free)
    ensures Counts(Grant(w.heap))
  {
    Update(w.heap.states, Busy, i, SlotState.Reserved, 0);
    Update(w.heap.states, Vacant, i, SlotState.Reserved, 0);
    BusyBound(w, i);
  }

  lemma GrantLinked(w: World, i: nat)
    requires Inv(w) && w.heap.free != [] && i == w.heap.free[|w.heap.free| - 1] && Is(w.heap, i, SlotState.Free)
    ensures Linked(Granted(w, i))
  {
    var h, h' := w.heap, Grant(w.heap);
    assert SlotHeld(w, i);
    NoReservation(w, i);
    NoRef(w, i);
    NoCloser(w, i);
    forall p | 0 <= p < |w.refs| ensures RefOk(h', w.refs[p]) {
      assert RefOk(h, w.refs[p]);
    }
  }

  lemma GrantKeeps(w: World)
    requires Inv(w) && w.heap.free != [] && !Exhausted(w.heap)
    ensures Inv(Granted(w, w.heap.free[|w.heap.free| - 1]))
  {
    var i := TopIsFree(w);
    GrantHeld(w, i);
    GrantCells(w, i);
    GrantCounts(w, i);
    GrantLinked(w, i);
    ConservedFrame(w, Granted(w, i));
  }

  lemma {:induction false} ReserveKeeps(w: World)
    requires Inv(w)
    ensures Inv(DoReserve(w))
    decreases |w.heap.free|
  {
    if w.heap.free == [] {
      assert DoReserve(w) == w;
    } else if Exhausted(w.heap) {
      RetireKeeps(w);
      ReserveKeeps(w.(heap := Retire(w.heap)));
    } else {
      GrantKeeps(w);
    }
  }

  // -------------------------------------------------------- insert and cancel

  /** A reservation in hand means the slot is reserved, and nobody else reserved it. */
  lemma ReservationHolds(w: World, p: nat)
    requires Inv(w) && p < |w.reservations|
    ensures var r := w.reservations[p];
      Is(w.heap, r.index, SlotState.Reserved) && w.heap.generations[r.index] == r.generation
  {
    var r := w.reservations[p];
    assert SlotHeld(w, r.index);
    Has(w.reservations, ReservedIndex, p, r.index);
    assert Stamped(w.heap, r.index, r.generation);
  }

  lemma InsertHeld(w: World, p: nat)
    requires Sound(w) && Held(w) && p < |w.reservations| && Is(w.heap, w.reservations[p].index, SlotState.Reserved)
    ensures Held(DoInsert(w, p))
  {
    var r, w' := w.reservations[p], DoInsert(w, p);
    forall k: nat ensures SlotHeld(w', k) {
      assert SlotHeld(w, k);
      Remove(w.reservations, ReservedIndex, p, k);
      Append(w.refs, RefIndex, Ref(r.index, r.generation, w.inserted), k);
    }
  }

  lemma InsertTokens(w: World, p: nat)
    requires Inv(w) && p < |w.reservations| && Is(w.heap, w.reservations[p].index, SlotState.Reserved)
    requires w.heap.generations[w.reservations[p].index] == w.reservations[p].generation
    ensures Tokens(DoInsert(w, p))
  {
    var r, w' := w.reservations[p], DoInsert(w, p);
    assert CellOk(w.heap, r.index);
    var token := EncodeToken(r.index, r.generation);
    TokenRoundTrip(r.index, r.generation);
    forall q | 0 <= q < |w.issued| ensures TokenSpent(w'.heap, w.issued[q]) && w.issued[q] != token {
      assert TokenSpent(w.heap, w.issued[q]);
    }
    assert TokenSpent(w'.heap, token);
  }

  lemma InsertConserved(w: World, p: nat)
    requires Inv(w) && p < |w.reservations| && Is(w.heap, w.reservations[p].index, SlotState.Reserved)
    ensures Conserved(DoInsert(w, p))
  {
    var r, w' := w.reservations[p], DoInsert(w, p);
    assert CellOk(w.heap, r.index);
    forall k: nat ensures Account(w', k) == N(k < w'.inserted) {
      assert Account(w, k) == N(k < w.inserted);
      Update(w.heap.cells, Stored, r.index, w'.heap.cells[r.index], k);
    }
  }

  lemma InsertCells(w: World, p: nat)
    requires Inv(w) && p < |w.reservations| && Is(w.heap, w.reservations[p].index, SlotState.Reserved)
    requires w.heap.generations[w.reservations[p].index] == w.reservations[p].generation
    ensures Cells(DoInsert(w, p).heap) && Counts(DoInsert(w, p).heap)
  {
    var i, h' := w.reservations[p].index, DoInsert(w, p).heap;
    Update(w.heap.states, Busy, i, SlotState.Live, 0);
    Update(w.heap.states, Vacant, i, SlotState.Live, 0);
    forall k | 0 <= k < |h'.states| ensures CellOk(h', k) {
      assert CellOk(w.heap, k);
    }
  }

  lemma InsertLinked(w: World, p: nat)
    requires Inv(w) && p < |w.reservations| && Is(w.heap, w.reservations[p].index, SlotState.Reserved)
    requires w.heap.generations[w.reservations[p].index] == w.reservations[p].generation
    ensures Linked(DoInsert(w, p))
  {
    var i, w' := w.reservations[p].index, DoInsert(w, p);
    assert SlotHeld(w, i);
    NoRef(w, i);
    forall q | 0 <= q < |w'.refs| ensures RefOk(w'.heap, w'.refs[q]) {
      assert q < |w.refs| ==> RefOk(w.heap, w.refs[q]);
    }
  }

  lemma InsertKeeps(w: World, p: nat)
    requires Inv(w) && p < |w.reservations|
    ensures Inv(DoInsert(w, p))
  {
    ReservationHolds(w, p);
    InsertHeld(w, p);
    InsertTokens(w, p);
    InsertConserved(w, p);
    InsertCells(w, p);
    InsertLinked(w, p);
  }

  lemma CancelHeld(w: World, p: nat)
    requires Inv(w) && p < |w.reservations| && Is(w.heap, w.reservations[p].index, SlotState.Reserved)
    requires w.heap.generations[w.reservations[p].index] == w.reservations[p].generation
    ensures Held(DoCancel(w, p))
  {
    var i, w' := w.reservations[p].index, DoCancel(w, p);
    forall k: nat ensures SlotHeld(w', k) {
      assert SlotHeld(w, k);
      Remove(w.reservations, ReservedIndex, p, k);
      Append(w.heap.free, Itself, i, k);
    }
  }

  lemma CancelKeeps(w: World, p: nat)
    requires Inv(w) && p < |w.reservations|
    ensures Inv(DoCancel(w, p))
  {
    ReservationHolds(w, p);
    CancelHeld(w, p);
    var i, w' := w.reservations[p].index, DoCancel(w, p);
    Update(w.heap.states, Busy, i, SlotState.Free, 0);
    Update(w.heap.states, Vacant, i, SlotState.Free, 0);
    FreeRest(w, w', i);
    forall q | 0 <= q < |w'.reservations|
      ensures Stamped(w'.heap, w'.reservations[q].index, w'.reservations[q].generation)
    {
      var q' := if q < p then q else q + 1;
      assert w'.reservations[q] == w.reservations[q'];
      assert Stamped(w.heap, w.reservations[q'].index, w.reservations[q'].generation);
    }
    ConservedFrame(w, w');
  }

  /** What freeing slot `i` leaves alone. */
  lemma FreeRest(w: World, w': World, i: nat)
    requires Inv(w) && i < |w.heap.states| && w'.heap == FreeSlot(w.heap, i)
    requires w.heap.states[i] == SlotState.Reserved || w.heap.states[i] == SlotState.Closing
    requires w'.refs == w.refs && w'.issued == w.issued && w'.slab == w.slab
    ensures Sound(w') && Cells(w'.heap) && Tokens(w') && Counts(w'.heap)
    ensures forall p :: 0 <= p < |w'.refs| ==> RefOk(w'.heap, w'.refs[p])
  {
    Update(w.heap.states, Busy, i, SlotState.Free, 0);
    Update(w.heap.states, Vacant, i, SlotState.Free, 0);
    forall k | 0 <= k < |w'.heap.states| ensures CellOk(w'.heap, k) {
      assert CellOk(w.heap, k);
    }
    forall q | 0 <= q < |w.refs| ensures RefOk(w'.heap, w.refs[q]) {
      assert RefOk(w.heap, w.refs[q]);
    }
    forall q | 0 <= q < |w.issued| ensures TokenSpent(w'.heap, w.issued[q]) {
      assert TokenSpent(w.heap, w.issued[q]);
    }
  }

  // ------------------------------------------------------------- references

  /** A reference in hand pins the slot: it is live, counted, and its token and resource
      are those of the insertion the reference came from. */
  lemma RefPins(w: World, p: nat)
    requires Inv(w) && p < |w.refs|
    ensures var r := w.refs[p];
      && Is(w.heap, r.index, SlotState.Live)
      && w.heap.generations[r.index] == r.generation
      && w.heap.cells[r.index].refcount > 0
      && w.heap.cells[r.index].token == EncodeToken(r.index, r.generation)
      && w.heap.cells[r.index].resource == Some(r.resource)
  {
    var r := w.refs[p];
    assert SlotHeld(w, r.index);
    Has(w.refs, RefIndex, p, r.index);
    assert RefOk(w.heap, r);
    assert CellOk(w.heap, r.index);
  }

  /** Changing only the count of slot `i`. */
  lemma CountRest(w: World, w': World, i: nat, n: int)
    requires Inv(w) && Is(w.heap, i, SlotState.Live) && w'.heap == SetCount(w.heap, i, n)
    requires n > 0 || IsFinalized(n)
    requires w'.issued == w.issued && w'.slab == w.slab
    ensures Sound(w') && Cells(w'.heap) && Tokens(w') && Counts(w'.heap)
    ensures forall r: Ref :: RefOk(w.heap, r) ==> RefOk(w'.heap, r)
    ensures forall k: nat :: Tally(w'.heap.cells, Stored, k) == Tally(w.heap.cells, Stored, k)
  {
    forall k | 0 <= k < |w'.heap.states| ensures CellOk(w'.heap, k) {
      assert CellOk(w.heap, k);
    }
    forall q | 0 <= q < |w.issued| ensures TokenSpent(w'.heap, w.issued[q]) {
      assert TokenSpent(w.heap, w.issued[q]);
    }
    forall k: nat ensures Tally(w'.heap.cells, Stored, k) == Tally(w.heap.cells, Stored, k) {
      Update(w.heap.cells, Stored, i, w'.heap.cells[i], k);
    }
  }

  lemma ShareHeld(w: World, p: nat)
    requires Inv(w) && p < |w.refs| && Is(w.heap, w.refs[p].index, SlotState.Live)
    requires w.heap.cells[w.refs[p].index].refcount > 0
    ensures Held(DoShare(w, p))
  {
    var w' := DoShare(w, p);
    forall k: nat ensures SlotHeld(w', k) {
      assert SlotHeld(w, k);
      Append(w.refs, RefIndex, w.refs[p], k);
    }
  }

  lemma ShareKeeps(w: World, p: nat)
    requires Inv(w) && p < |w.refs|
    ensures Inv(DoShare(w, p))
  {
    RefPins(w, p);
    ShareHeld(w, p);
    var i, w' := w.refs[p].index, DoShare(w, p);
    CountRest(w, w', i, w.heap.cells[i].refcount + 1);
    forall k: nat ensures Account(w', k) == N(k < w'.inserted) {
      assert Account(w, k) == N(k < w.inserted);
    }
    StampedFrame(w.heap, w'.heap);
  }

  lemma StampedFrame(h: Heap<nat>, h': Heap<nat>)
    requires Sized(h) && Sized(h') && h'.generations == h.generations
    ensures forall i: nat, g: nat :: Stamped(h, i, g) ==> Stamped(h', i, g)
  {
  }

  lemma ReleaseHeld(w: World, p: nat, poison: bool)
    requires Inv(w) && p < |w.refs| && Is(w.heap, w.refs[p].index, SlotState.Live)
    requires w.heap.cells[w.refs[p].index].refcount > 0
    ensures Held(DoRelease(w, p, poison))
  {
    var i, w' := w.refs[p].index, DoRelease(w, p, poison);
    forall k: nat ensures SlotHeld(w', k) {
      assert SlotHeld(w, k);
      Remove(w.refs, RefIndex, p, k);
      Append(w.closers, FinalIndex, Finalizing(i), k);
      Append(w.closers, ClosingIndex, Finalizing(i), k);
      assert w.closers + [] == w.closers;
    }
  }

  lemma ReleaseConserved(w: World, p: nat, poison: bool)
    requires Inv(w) && p < |w.refs| && InRange(w, w.refs[p].index)
    ensures Conserved(DoRelease(w, p, poison))
  {
    var i, w' := w.refs[p].index, DoRelease(w, p, poison);
    forall k: nat ensures Account(w', k) == N(k < w'.inserted) {
      assert Account(w, k) == N(k < w.inserted);
      Update(w.heap.cells, Stored, i, w'.heap.cells[i], k);
      Append(w.closers, Carried, Finalizing(i), k);
      assert w.closers + [] == w.closers;
    }
  }

  lemma ReleaseLinked(w: World, p: nat, poison: bool)
    requires Inv(w) && p < |w.refs| && InRange(w, w.refs[p].index)
    requires forall r: Ref :: RefOk(w.heap, r) ==> RefOk(DoRelease(w, p, poison).heap, r)
    ensures Linked(DoRelease(w, p, poison))
  {
    var w' := DoRelease(w, p, poison);
    StampedFrame(w.heap, w'.heap);
    forall q | 0 <= q < |w'.refs| ensures RefOk(w'.heap, w'.refs[q]) {
      assert w'.refs[q] == w.refs[if q < p then q else q + 1];
    }
    forall q | 0 <= q < |w'.closers| && !w'.closers[q].Finalizing?
      ensures Stamped(w'.heap, w'.closers[q].index, w'.closers[q].generation)
    {
      assert w'.closers[q] == w.closers[q];
    }
  }

  lemma ReleaseKeeps(w: World, p: nat, poison: bool)
    requires Inv(w) && p < |w.refs|
    ensures Inv(DoRelease(w, p, poison))
  {
    RefPins(w, p);
    ReleaseHeld(w, p, poison);
    ReleaseConserved(w, p, poison);
    var i, w' := w.refs[p].index, DoRelease(w, p, poison);
    CountRest(w, w', i, w'.heap.cells[i].refcount);
    ReleaseLinked(w, p, poison);
  }

  // ---------------------------------------------------------------- closing

  /** The thread of the last release finds its slot live and finished. */
  lemma FinalizerHolds(w: World, p: nat)
    requires Inv(w) && p < |w.closers| && w.closers[p].Finalizing?
    ensures var i := w.closers[p].index;
      && Finished(w.heap, i) && i < |w.heap.cells| && w.heap.cells[i].resource.Some?
      && RouteOf(w.slab, w.heap, BaseAddress(w.slab, i))
         == Close(i, w.heap.generations[i], w.heap.cells[i].resource.value)
  {
    var i := w.closers[p].index;
    assert SlotHeld(w, i);
    Has(w.closers, FinalIndex, p, i);
    assert CellOk(w.heap, i);
    TokenRoundTrip(i, w.heap.generations[i]);
    BaseInverse(w.slab, BaseAddress(w.slab, i), i);
  }

  lemma BeginCloseHeld(w: World, p: nat)
    requires Inv(w) && p < |w.closers| && w.closers[p].Finalizing? && Finished(w.heap, w.closers[p].index)
    ensures Held(Closing(w, p))
  {
    var i, w' := w.closers[p].index, Closing(w, p);
    forall k: nat ensures SlotHeld(w', k) {
      assert SlotHeld(w, k);
      Update(w.closers, FinalIndex, p, w'.closers[p], k);
      Update(w.closers, ClosingIndex, p, w'.closers[p], k);
    }
  }

  /** The new state when closing slot `i` begins. */
  function Closing(w: World, p: nat): World
    requires Sound(w) && p < |w.closers| && InRange(w, w.closers[p].index)
  {
    var i := w.closers[p].index;
    var r := w.heap.cells[i].resource;
    w.(heap := CloseIn(w.heap, i),
       closers := w.closers[p := Dropping(i, w.heap.generations[i], if r.Some? then r.value else 0)])
  }

  lemma BeginCloseRest(w: World, p: nat)
    requires Inv(w) && p < |w.closers| && w.closers[p].Finalizing? && Finished(w.heap, w.closers[p].index)
    ensures var w' := Closing(w, p);
      Sound(w') && Cells(w'.heap) && Linked(w') && Counts(w'.heap) && Tokens(w')
  {
    var i, w' := w.closers[p].index, Closing(w, p);
    Update(w.heap.states, Busy, i, SlotState.Closing, 0);
    Update(w.heap.states, Vacant, i, SlotState.Closing, 0);
    forall k | 0 <= k < |w'.heap.states| ensures CellOk(w'.heap, k) {
      assert CellOk(w.heap, k);
    }
    assert SlotHeld(w, i);
    NoRef(w, i);
    forall q | 0 <= q < |w.refs| ensures RefOk(w'.heap, w.refs[q]) {
      assert RefOk(w.heap, w.refs[q]);
    }
    forall q | 0 <= q < |w.issued| ensures TokenSpent(w'.heap, w.issued[q]) {
      assert TokenSpent(w.heap, w.issued[q]);
    }
  }

  lemma BeginCloseKeeps(w: World, p: nat)
    requires Inv(w) && p < |w.closers| && w.closers[p].Finalizing? && InRange(w, w.closers[p].index)
    ensures Inv(DoBeginClose(w, p))
  {
    FinalizerHolds(w, p);
    var i, w' := w.closers[p].index, Closing(w, p);
    assert DoBeginClose(w, p) == w';
    BeginCloseHeld(w, p);
    BeginCloseRest(w, p);
    forall k: nat ensures Account(w', k) == N(k < w'.inserted) {
      assert Account(w, k) == N(k < w.inserted);
      Update(w.heap.cells, Stored, i, w'.heap.cells[i], k);
      Update(w.closers, Carried, p, w'.closers[p], k);
    }
  }

  lemma DropNativeKeeps(w: World, p: nat)
    requires Inv(w) && p < |w.closers| && w.closers[p].Dropping?
    ensures Inv(DoDropNative(w, p))
  {
    var w' := DoDropNative(w, p);
    forall k: nat ensures SlotHeld(w', k) {
      assert SlotHeld(w, k);
      Update(w.closers, FinalIndex, p, w'.closers[p], k);
      Update(w.closers, ClosingIndex, p, w'.closers[p], k);
    }
    forall k: nat ensures Account(w', k) == N(k < w'.inserted) {
      assert Account(w, k) == N(k < w.inserted);
      Update(w.closers, Carried, p, w'.closers[p], k);
      Append(w.dropped, Itself, w.closers[p].resource, k);
    }
    forall q | 0 <= q < |w'.closers| && !w'.closers[q].Finalizing?
      ensures Stamped(w'.heap, w'.closers[q].index, w'.closers[q].generation)
    {
      assert Stamped(w.heap, w.closers[q].index, w.closers[q].generation);
    }
  }

  /** A thread that is done with the native drop still finds its slot closing. */
  lemma CloserHolds(w: World, p: nat)
    requires Inv(w) && p < |w.closers| && !w.closers[p].Finalizing?
    ensures var c := w.closers[p];
      Is(w.heap, c.index, SlotState.Closing) && w.heap.generations[c.index] == c.generation
  {
    var c := w.closers[p];
    assert SlotHeld(w, c.index);
    Has(w.closers, ClosingIndex, p, c.index);
    assert Stamped(w.heap, c.index, c.generation);
  }

  lemma FinishCloseHeld(w: World, p: nat)
    requires Inv(w) && p < |w.closers| && w.closers[p].Returning?
    requires Is(w.heap, w.closers[p].index, SlotState.Closing)
    ensures Held(DoFinishClose(w, p))
  {
    var c, w' := w.closers[p], DoFinishClose(w, p);
    forall k: nat ensures SlotHeld(w', k) {
      assert SlotHeld(w, k);
      Remove(w.closers, FinalIndex, p, k);
      Remove(w.closers, ClosingIndex, p, k);
      Append(w.heap.free, Itself, c.index, k);
    }
  }

  lemma FinishCloseKeeps(w: World, p: nat)
    requires Inv(w) && p < |w.closers| && w.closers[p].Returning?
    ensures Inv(DoFinishClose(w, p))
  {
    CloserHolds(w, p);
    FinishCloseHeld(w, p);
    var c, w' := w.closers[p], DoFinishClose(w, p);
    FreeRest(w, w', c.index);
    forall q | 0 <= q < |w'.closers| && !w'.closers[q].Finalizing?
      ensures Stamped(w'.heap, w'.closers[q].index, w'.closers[q].generation)
    {
      var q' := if q < p then q else q + 1;
      assert w'.closers[q] == w.closers[q'];
      assert Stamped(w.heap, w.closers[q'].index, w.closers[q'].generation);
    }
    forall q | 0 <= q < |w'.reservations|
      ensures Stamped(w'.heap, w'.reservations[q].index, w'.reservations[q].generation)
    {
      assert Stamped(w.heap, w.reservations[q].index, w.reservations[q].generation);
    }
    forall k: nat ensures Account(w', k) == N(k < w'.inserted) {
      assert Account(w, k) == N(k < w.inserted);
      Remove(w.closers, Carried, p, k);
    }
  }

  // -------------------------------------------------------------- every step

  lemma {:induction false} LiveTally(h: Heap<nat>, n: nat, k: nat)
    requires Sized(h) && Cells(h) && n <= |h.states|
    ensures Tally(LiveResources(h, n), Itself, k) == Tally(h.cells[..n], Stored, k)
  {
    if n > 0 {
      LiveTally(h, n - 1, k);
      assert CellOk(h, n - 1);
      assert h.cells[..n] == h.cells[..n - 1] + [h.cells[n - 1]];
      Append(h.cells[..n - 1], Stored, h.cells[n - 1], k);
      var x := h.cells[n - 1].resource;
      if x.Some? {
        Append(LiveResources(h, n - 1), Itself, x.value, k);
      } else {
        assert LiveResources(h, n) == LiveResources(h, n - 1);
      }
    }
  }

  /** Once the heap is dropped, every inserted resource has been dropped once. */
  ghost predicate Ended(w: World)
    requires Sized(w.heap)
  {
    !w.fault && Tokens(w) && forall k: nat :: Tally(w.dropped, Itself, k) == N(k < w.inserted)
  }

  lemma DropHeapEnds(w: World)
    requires Inv(w) && w.closers == []
    ensures Ended(DoDropHeap(w))
  {
    var n := |w.heap.states|;
    forall k: nat ensures Tally(DoDropHeap(w).dropped, Itself, k) == N(k < w.inserted) {
      assert Account(w, k) == N(k < w.inserted);
      LiveTally(w.heap, n, k);
      assert w.heap.cells[..n] == w.heap.cells;
      Concat(w.dropped, LiveResources(w.heap, n), Itself, k);
    }
  }

  ghost predicate Good(w: World) { Sized(w.heap) && if w.gone then Ended(w) else Inv(w) }

  lemma StepKeeps(w: World, a: Action)
    requires Good(w) && Enabled(w, a)
    ensures Good(Next(w, a))
  {
    match a {
      case Reserve => ReserveKeeps(w);
      case Insert(p) => InsertKeeps(w, p);
      case Cancel(p) => CancelKeeps(w, p);
      case Share(p) => ShareKeeps(w, p);
      case Release(p, poison) => ReleaseKeeps(w, p, poison);
      case BeginClose(p) => BeginCloseKeeps(w, p);
      case DropNative(p) => DropNativeKeeps(w, p);
      case FinishClose(p) => FinishCloseKeeps(w, p);
      case DropHeap => DropHeapEnds(w);
    }
    StepGone(w, a);
  }

  lemma StepGone(w: World, a: Action)
    requires Enabled(w, a)
    ensures Next(w, a).gone == a.DropHeap? && (a.DropHeap? ==> Next(w, a).heap == w.heap)
  {
  }

  predicate ValidStart(slab: Slab) { ValidSlab(slab) && 0 < slab.len <= TOKEN_INDEX_MASK }

  lemma {:induction false} CountdownTally(n: nat, m: nat, k: nat)
    requires m <= n
    ensures Tally(Countdown(n, m), Itself, k) == N(n - m <= k < n)
    decreases m
  {
    if m > 0 {
      CountdownTally(n, m - 1, k);
      assert Countdown(n, m)[..m - 1] == Countdown(n, m - 1);
    }
  }

  lemma InitKeeps(slab: Slab)
    requires ValidStart(slab)
    ensures Inv(Initial(slab))
  {
    var w, n := Initial(slab), slab.len;
    forall k: nat ensures SlotHeld(w, k) {
      CountdownTally(n, n, k);
    }
    SizeZero(w.heap.states, Busy);
    SizeFull(w.heap.states, Vacant);
    forall k: nat ensures Account(w, k) == N(k < w.inserted) {
      Absent(w.heap.cells, Stored, k);
    }
  }

  // ----------------------------------------------------------------- lookups

  /** A handle resolves exactly while someone holds a reference, and to what that
      reference was made for. */
  lemma LookupExact(w: World, handle: nat, r: nat)
    requires Inv(w)
    ensures LookUp(w.slab, w.heap, handle) == Found(r)
       <==> exists p :: 0 <= p < |w.refs| && handle == Payload(w.slab, w.refs[p].index) && w.refs[p].resource == r
    ensures LookUp(w.slab, w.heap, handle) != ReadUninitialised
  {
    if p: nat :| p < |w.refs| && handle == Payload(w.slab, w.refs[p].index) && w.refs[p].resource == r {
      RefPins(w, p);
      var i := w.refs[p].index;
      PayloadInverse(w.slab, handle, i);
      assert CellOk(w.heap, i);
      TokenRoundTrip(i, w.heap.generations[i]);
    }
    var found := PayloadIndex(w.slab, handle);
    if found.Some? {
      var i := found.value;
      PayloadInverse(w.slab, handle, i);
      assert CellOk(w.heap, i);
      if LookUp(w.slab, w.heap, handle) == Found(r) {
        assert SlotHeld(w, i);
        var p := Find(w.refs, RefIndex, i);
        assert RefOk(w.heap, w.refs[p]);
      }
    }
  }

  /** Addresses outside the slab are left to the ordinary allocator, and only those. */
  lemma NotOwnedExact<T>(slab: Slab, h: Heap<T>, address: nat)
    requires Sized(h) && ValidSlab(slab) && slab.len == |h.states|
    ensures RouteOf(slab, h, address) == NotOwned <==> !Contains(slab, address)
  {
    var index := IndexForBase(slab, address);
    if index.Some? {
      BaseInverse(slab, address, index.value);
      BaseInside(slab, index.value);
    }
  }

  // ----------------------------------------------------------------- theorems

  ghost predicate Step(w: World, w': World) { exists a :: Enabled(w, a) && Next(w, a) == w' }

  ghost predicate IsRun(slab: Slab, run: seq<World>) {
    && run != [] && run[0] == Initial(slab)
    && forall i :: 0 <= i < |run| - 1 ==> Step(run[i], run[i + 1])
  }

  function MaxActive(run: seq<World>): int
    requires run != []
  {
    var a := run[|run| - 1].heap.active;
    if |run| == 1 then a else Max(MaxActive(run[..|run| - 1]), a)
  }

  lemma {:induction false} ReserveHighWater(h: Heap<nat>)
    requires Sized(h) && h.highWater >= h.active
    ensures var h' := ReserveIn(h).0; h'.highWater == Max(h.highWater, h'.active)
    decreases |h.free|
  {
    if h.free != [] && Exhausted(h) {
      ReserveHighWater(Retire(h));
    }
  }

  lemma StepHighWater(w: World, a: Action)
    requires Inv(w) && Enabled(w, a)
    ensures Next(w, a).heap.highWater == Max(w.heap.highWater, Next(w, a).heap.active)
  {
    ReserveHighWater(w.heap);
  }

  lemma {:induction false} GoodAlways(slab: Slab, run: seq<World>)
    requires ValidStart(slab) && IsRun(slab, run)
    ensures Good(run[|run| - 1])
    ensures run[|run| - 1].heap.highWater == MaxActive(run)
    decreases |run|
  {
    if |run| == 1 {
      InitKeeps(slab);
    } else {
      var before := run[..|run| - 1];
      GoodAlways(slab, before);
      assert Step(run[|run| - 2], run[|run| - 1]);
      var w := before[|before| - 1];
      var a :| Enabled(w, a) && Next(w, a) == run[|run| - 1];
      StepKeeps(w, a);
      StepHighWater(w, a);
    }
  }

  lemma {:induction false} StatesPartition(s: seq<SlotState>)
    ensures Size(s, Vacant) + Size(s, Busy) + Size(s, Spent) == |s|
    decreases |s|
  {
    if s != [] {
      StatesPartition(s[..|s| - 1]);
    }
  }

  lemma FreeListExact(w: World)
    requires Inv(w)
    ensures forall p, q :: 0 <= p < q < |w.heap.free| ==> w.heap.free[p] != w.heap.free[q]
    ensures forall i: nat :: i in w.heap.free <==> Is(w.heap, i, SlotState.Free)
  {
    var free := w.heap.free;
    forall p: nat, q: nat | p < q < |free| ensures free[p] != free[q] {
      if free[p] == free[q] {
        assert SlotHeld(w, free[p]);
        Twice(free, Itself, p, q, free[p]);
      }
    }
    forall i: nat ensures i in free <==> Is(w.heap, i, SlotState.Free) {
      assert SlotHeld(w, i);
      if Is(w.heap, i, SlotState.Free) {
        var p := Find(free, Itself, i);
      }
      if p: nat :| p < |free| && free[p] == i {
        Has(free, Itself, p, i);
      }
    }
  }

  /** What the heap promises while it exists. */
  ghost predicate Promises(w: World)
    requires Sized(w.heap) && w.slab.stride > 0 && w.slab.len == |w.heap.states|
  {
    && (forall p, q :: 0 <= p < q < |w.heap.free| ==> w.heap.free[p] != w.heap.free[q])
    && (forall i: nat :: i in w.heap.free <==> Is(w.heap, i, SlotState.Free))
    && |w.heap.free| + w.heap.active + Size(w.heap.states, Spent) == |w.heap.states|
    && w.heap.active == Size(w.heap.states, Busy)
    && (forall i :: 0 <= i < |w.heap.states| ==>
          w.heap.generations[i] <= MAX_GENERATION
          && (w.heap.states[i] == SlotState.Retired ==> w.heap.generations[i] == MAX_GENERATION))
    && (forall p :: 0 <= p < |w.refs| ==>
          && LookUp(w.slab, w.heap, Payload(w.slab, w.refs[p].index)) == Found(w.refs[p].resource)
          && Tally(w.dropped, Itself, w.refs[p].resource) == 0)
  }

  lemma InvPromises(w: World)
    requires Inv(w)
    ensures Promises(w)
  {
    FreeListExact(w);
    StatesPartition(w.heap.states);
    forall i | 0 <= i < |w.heap.states|
      ensures w.heap.generations[i] <= MAX_GENERATION
      ensures w.heap.states[i] == SlotState.Retired ==> w.heap.generations[i] == MAX_GENERATION
    {
      assert CellOk(w.heap, i);
    }
    forall p: nat | p < |w.refs|
      ensures LookUp(w.slab, w.heap, Payload(w.slab, w.refs[p].index)) == Found(w.refs[p].resource)
      ensures Tally(w.dropped, Itself, w.refs[p].resource) == 0
    {
      var r := w.refs[p];
      LookupExact(w, Payload(w.slab, r.index), r.resource);
      assert RefOk(w.heap, r);
      Has(w.heap.cells, Stored, r.index, r.resource);
      assert Account(w, r.resource) <= 1;
    }
  }

  /** In every run, `reserve` grants a slot exactly if some slot is free and has a generation
      left, and then one of those. */
  lemma ReservesWhileUsable(slab: Slab, run: seq<World>)
    requires ValidStart(slab) && IsRun(slab, run) && !run[|run| - 1].gone
    ensures Sound(run[|run| - 1])
    ensures var w := run[|run| - 1];
            var granted := ReserveIn(w.heap).1;
      && (granted.Some? <==>
            exists i :: 0 <= i < |w.heap.states| && w.heap.states[i] == SlotState.Free
                        && w.heap.generations[i] < MAX_GENERATION)
      && (granted.Some? ==>
            Is(w.heap, granted.value.0, SlotState.Free)
            && granted.value.1 == w.heap.generations[granted.value.0] + 1 <= MAX_GENERATION)
  {
    GoodAlways(slab, run);
    var w := run[|run| - 1];
    FreeListExact(w);
    ReserveExact(w.heap);
    if i :| 0 <= i < |w.heap.states| && w.heap.states[i] == SlotState.Free && w.heap.generations[i] < MAX_GENERATION {
      assert Is(w.heap, i, SlotState.Free);
      var p :| 0 <= p < |w.heap.free| && w.heap.free[p] == i;
      assert Grantable(w.heap);
    }
    if Grantable(w.heap) {
      var p :| 0 <= p < |w.heap.free| && w.heap.generations[w.heap.free[p]] < MAX_GENERATION;
      assert Is(w.heap, w.heap.free[p], SlotState.Free);
    }
  }

  /** In every run: no assertion fails, nothing is routed as corrupt and no
      uninitialised slot is read; free list, counters and high-water mark are exact;
      a held reference always resolves to its own resource, which is not dropped; no
      resource is dropped twice, and dropping the heap leaves none undropped; and no
      token is ever issued twice. */
  lemma RunsKeepPromises(slab: Slab, run: seq<World>)
    requires ValidStart(slab) && IsRun(slab, run)
    ensures var w := run[|run| - 1];
      && !w.fault
      && w.heap.highWater == MaxActive(run)
      && (!w.gone ==> Sound(w) && Promises(w))
      && (forall k: nat :: Tally(w.dropped, Itself, k) <= N(k < w.inserted))
      && (w.gone ==> forall k: nat :: Tally(w.dropped, Itself, k) == N(k < w.inserted))
      && (forall p, q :: 0 <= p < q < |w.issued| ==> w.issued[p] != w.issued[q])
  {
    GoodAlways(slab, run);
    var w := run[|run| - 1];
    if !w.gone {
      InvPromises(w);
      forall k: nat ensures Tally(w.dropped, Itself, k) <= N(k < w.inserted) {
        assert Account(w, k) == N(k < w.inserted);
      }
    }
  }

  // ------------------------------------------------------------ stale handles

  function OneSlot(free: seq<nat>, g: nat, s: SlotState, active: int, cell: Cell<nat>): Heap<nat> {
    Heap(free, [g], [s], active, if g == 0 then 0 else 1, [cell])
  }

  /** A heap of one slot: resource 0 is inserted and released, then the slot is taken by
      resource 1. */
  function StaleWorld(slab: Slab, n: nat): World {
    var first, second := EncodeToken(0, 1), EncodeToken(0, 2);
    if n == 0 then World(slab, OneSlot([0], 0, Free, 0, Cell(0, 0, None)), [], [], [], 0, [], [], false, false)
    else if n == 1 then
      World(slab, OneSlot([], 1, Reserved, 1, Cell(0, 0, None)), [Reservation(0, 1)], [], [], 0, [], [], false, false)
    else if n == 2 then
      World(slab, OneSlot([], 1, Live, 1, Cell(1, first, Some(0))), [], [Ref(0, 1, 0)], [],
            1, [], [first], false, false)
    else if n == 3 then
      World(slab, OneSlot([], 1, Live, 1, Cell(0, first, Some(0))), [], [], [Finalizing(0)],
            1, [], [first], false, false)
    else if n == 4 then
      World(slab, OneSlot([], 1, SlotState.Closing, 1, Cell(0, first, None)), [], [], [Dropping(0, 1, 0)],
            1, [], [first], false, false)
    else if n == 5 then
      World(slab, OneSlot([], 1, SlotState.Closing, 1, Cell(0, first, None)), [], [], [Returning(0, 1)],
            1, [0], [first], false, false)
    else if n == 6 then
      World(slab, OneSlot([0], 1, Free, 0, Cell(0, first, None)), [], [], [], 1, [0], [first], false, false)
    else if n == 7 then
      World(slab, OneSlot([], 2, Reserved, 1, Cell(0, first, None)), [Reservation(0, 2)], [], [],
            1, [0], [first], false, false)
    else
      World(slab, OneSlot([], 2, Live, 1, Cell(1, second, Some(1))), [], [Ref(0, 2, 1)], [],
            2, [0], [first, second], false, false)
  }

  function StaleAction(n: nat): Action {
    if n == 0 || n == 6 then Reserve
    else if n == 1 || n == 7 then Insert(0)
    else if n == 2 then Release(0, false)
    else if n == 3 then BeginClose(0)
    else if n == 4 then DropNative(0)
    else FinishClose(0)
  }

  lemma StaleReserveStep(slab: Slab, n: nat)
    requires ValidSlab(slab) && slab.len == 1 && (n == 0 || n == 6)
    ensures Enabled(StaleWorld(slab, n), Reserve) && Next(StaleWorld(slab, n), Reserve) == StaleWorld(slab, n + 1)
  {
    var h := StaleWorld(slab, n).heap;
    assert h.free == [0] && !Exhausted(h);
    assert Grant(h).free == [];
  }

  lemma StaleInsertStep(slab: Slab, n: nat)
    requires ValidSlab(slab) && slab.len == 1 && (n == 1 || n == 7)
    ensures Enabled(StaleWorld(slab, n), Insert(0)) && Next(StaleWorld(slab, n), Insert(0)) == StaleWorld(slab, n + 1)
  {
  }

  lemma StaleCloseStep(slab: Slab, n: nat)
    requires ValidSlab(slab) && slab.len == 1 && (n == 2 || 4 <= n < 6)
    ensures Enabled(StaleWorld(slab, n), StaleAction(n))
    ensures Next(StaleWorld(slab, n), StaleAction(n)) == StaleWorld(slab, n + 1)
  {
    var w, w' := StaleWorld(slab, n), StaleWorld(slab, n + 1);
    if n == 2 {
      assert DoRelease(w, 0, false) == w';
    } else if n == 4 {
      assert DoDropNative(w, 0) == w';
    } else {
      assert DoFinishClose(w, 0) == w';
    }
  }

  lemma StaleRouteStep(slab: Slab)
    requires ValidSlab(slab) && slab.len == 1
    ensures Enabled(StaleWorld(slab, 3), BeginClose(0))
    ensures Next(StaleWorld(slab, 3), BeginClose(0)) == StaleWorld(slab, 4)
  {
    TokenRoundTrip(0, 1);
    BaseInverse(slab, BaseAddress(slab, 0), 0);
  }

  lemma StaleStep(slab: Slab, n: nat)
    requires ValidSlab(slab) && slab.len == 1 && n < 8
    ensures Step(StaleWorld(slab, n), StaleWorld(slab, n + 1))
  {
    if n == 0 || n == 6 {
      StaleReserveStep(slab, n);
    } else if n == 1 || n == 7 {
      StaleInsertStep(slab, n);
    } else if n == 3 {
      StaleRouteStep(slab);
    } else {
      StaleCloseStep(slab, n);
    }
    var w, a := StaleWorld(slab, n), StaleAction(n);
    assert Enabled(w, a) && Next(w, a) == StaleWorld(slab, n + 1);
  }

  lemma StaleLookups(slab: Slab)
    requires ValidSlab(slab) && slab.len == 1
    ensures LookUp(slab, StaleWorld(slab, 2).heap, Payload(slab, 0)) == Found(0)
    ensures LookUp(slab, StaleWorld(slab, 8).heap, Payload(slab, 0)) == Found(1)
  {
    PayloadInverse(slab, Payload(slab, 0), 0);
    TokenRoundTrip(0, 1);
    TokenRoundTrip(0, 2);
  }

  function StaleRun(slab: Slab): (run: seq<World>)
    ensures |run| == 9 && forall n :: 0 <= n < 9 ==> run[n] == StaleWorld(slab, n)
  {
    seq(9, n requires 0 <= n < 9 => StaleWorld(slab, n))
  }

  /** The token lives in the slot, so a handle kept past its last reference resolves to
      the next resource of the slot: in this run resource 0 is dropped, and the handle
      that found it finds resource 1. */
  lemma StaleHandleFindsNextOccupant(slab: Slab)
    requires ValidSlab(slab) && slab.len == 1
    ensures IsRun(slab, StaleRun(slab))
    ensures LookUp(slab, StaleWorld(slab, 2).heap, Payload(slab, 0)) == Found(0)
    ensures StaleWorld(slab, 8).dropped == [0]
    ensures LookUp(slab, StaleWorld(slab, 8).heap, Payload(slab, 0)) == Found(1)
  {
    var run := StaleRun(slab);
    forall n | 0 <= n < |run| - 1 ensures Step(run[n], run[n + 1]) {
      StaleStep(slab, n);
    }
    assert run[0] == Initial(slab);
    StaleLookups(slab);
  }
}
