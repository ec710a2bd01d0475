/**
  The finite heap of host resources handed to Roc as boxes (src/host_resource.rs).

  `ResourceHeap` is the object behind the heap's mutex: each of its methods is one
  lock-held region of the source, proved against a function on the value of its fields.
*/
module HostResourceHeap {
  import opened Bags
  import opened ResourceTokens

  const REFCOUNT_POISON := 0xdead_beef_dead_beef - WORD

  predicate IsFinalized(refcount: int) { refcount == 0 || refcount == REFCOUNT_POISON }

  datatype SlotState = Free | Reserved | Live | Closing | Retired

  /** One slot of the slab; `resource` is `None` while the slot is uninitialised. */
  datatype Cell<T> = Cell(refcount: int, token: nat, resource: Option<T>)

  datatype Heap<T> = Heap(free: seq<nat>, generations: seq<nat>, states: seq<SlotState>,
                          active: int, highWater: int, cells: seq<Cell<T>>)

  predicate Sized<T>(h: Heap<T>) {
    && |h.states| == |h.generations| == |h.cells|
    && forall p :: 0 <= p < |h.free| ==> h.free[p] < |h.states|
  }

  function Max(a: int, b: int): int { if a >= b then a else b }

  function SaturatingIncrement(g: nat): nat { if g + 1 < WORD then g + 1 else WORD - 1 }

  // ------------------------------------------------------ lock-held regions

  /** The last `m` slots below `n`, highest first. */
  function Countdown(n: nat, m: nat): seq<nat>
    requires m <= n
  {
    seq(m, i requires 0 <= i < m => n - 1 - i)
  }

  function Fresh<T>(capacity: nat): Heap<T> {
    Heap(Countdown(capacity, capacity), seq(capacity, _ => 0),
         seq(capacity, _ => Free), 0, 0, seq(capacity, _ => Cell(0, 0, None)))
  }

  function Retire<T>(h: Heap<T>): Heap<T>
    requires Sized(h) && h.free != []
  {
    var n := |h.free| - 1;
    h.(free := h.free[..n], states := h.states[h.free[n] := SlotState.Retired])
  }

  function Grant<T>(h: Heap<T>): Heap<T>
    requires Sized(h) && h.free != []
  {
    var n := |h.free| - 1;
    var i := h.free[n];
    h.(free := h.free[..n], generations := h.generations[i := SaturatingIncrement(h.generations[i])],
       states := h.states[i := SlotState.Reserved],
       active := h.active + 1, highWater := Max(h.highWater, h.active + 1))
  }

  predicate Exhausted<T>(h: Heap<T>)
    requires Sized(h) && h.free != []
  {
    var g := SaturatingIncrement(h.generations[h.free[|h.free| - 1]]);
    g == 0 || g > MAX_GENERATION
  }

  /** `reserve`: retire exhausted slots until one can be granted. */
  function ReserveIn<T>(h: Heap<T>): (Heap<T>, Option<(nat, nat)>)
    requires Sized(h)
    decreases |h.free|
  {
    if h.free == [] then (h, None)
    else if Exhausted(h) then ReserveIn(Retire(h))
    else
      var i := h.free[|h.free| - 1];
      (Grant(h), Some((i, SaturatingIncrement(h.generations[i]))))
  }

  predicate SameSize<T>(h: Heap<T>, h': Heap<T>) {
    Sized(h) && Sized(h') && |h'.states| == |h.states|
  }

  /** Slot `k` is as it was, or it was free, had used up its generations and is now retired. */
  ghost predicate Untouched<T>(h: Heap<T>, h': Heap<T>, k: nat)
    requires SameSize(h, h') && k < |h.states|
  {
    && h'.generations[k] == h.generations[k] && h'.cells[k] == h.cells[k]
    && (h'.states[k] == h.states[k]
        || (h'.states[k] == SlotState.Retired && h.generations[k] >= MAX_GENERATION && k in h.free))
  }

  /** Some free slot can still be given a new generation. */
  predicate Grantable<T>(h: Heap<T>)
    requires Sized(h)
  {
    exists p :: 0 <= p < |h.free| && h.generations[h.free[p]] < MAX_GENERATION
  }

  /** The last slot of the free list that has a generation left is taken under its next
      generation, the slots above it are retired, and nothing else happens. */
  ghost predicate TookLastUsable<T>(h: Heap<T>, h': Heap<T>, granted: Option<(nat, nat)>)
    requires SameSize(h, h')
  {
    var n := |h'.free|;
    && n + Any(granted) <= |h.free| && h'.free == h.free[..n]
    && (granted.Some? <==> Grantable(h)) && (granted.None? ==> n == 0)
    && (forall p :: n + Any(granted) <= p < |h.free| ==>
          h.generations[h.free[p]] >= MAX_GENERATION && h'.states[h.free[p]] == SlotState.Retired)
    && (granted.None? ==> h'.active == h.active && h'.highWater == h.highWater)
    && (granted.Some? ==>
          var (i, g) := granted.value;
          && i == h.free[n] && h'.states[i] == SlotState.Reserved && h'.cells[i] == h.cells[i]
          && g == h'.generations[i] == h.generations[i] + 1 <= MAX_GENERATION
          && h'.active == h.active + 1 && h'.highWater == Max(h.highWater, h'.active))
    && (forall k :: 0 <= k < |h.states| && (granted.None? || granted.value.0 != k) ==> Untouched(h, h', k))
  }

  function CommitIn<T>(h: Heap<T>, i: nat, g: nat, r: T): Heap<T>
    requires Sized(h) && i < |h.states|
  {
    h.(cells := h.cells[i := Cell(1, EncodeToken(i, g), Some(r))], states := h.states[i := SlotState.Live])
  }

  function FreeSlot<T>(h: Heap<T>, i: nat): Heap<T>
    requires Sized(h) && i < |h.states|
  {
    h.(states := h.states[i := SlotState.Free], active := h.active - 1, free := h.free + [i])
  }

  function CancelIn<T>(h: Heap<T>, i: nat, g: nat): Heap<T>
    requires Sized(h) && i < |h.states|
  {
    if h.states[i] == SlotState.Reserved && h.generations[i] == g then FreeSlot(h, i) else h
  }

  function CloseIn<T>(h: Heap<T>, i: nat): Heap<T>
    requires Sized(h) && i < |h.states|
  {
    h.(states := h.states[i := SlotState.Closing], cells := h.cells[i := h.cells[i].(resource := None)])
  }

  function SetCount<T>(h: Heap<T>, i: nat, refcount: int): Heap<T>
    requires Sized(h) && i < |h.states|
  {
    h.(cells := h.cells[i := h.cells[i].(refcount := refcount)])
  }

  datatype Lookup<T> = Found(resource: T) | Invalid | Stale | ReadUninitialised

  /** `get`. */
  function LookUp<T>(slab: Slab, h: Heap<T>, handle: nat): Lookup<T>
    requires Sized(h) && slab.stride > 0 && slab.len == |h.states|
  {
    var index := PayloadIndex(slab, handle);
    if index.None? then Invalid
    else
      var i := index.value;
      var decoded := DecodeToken(h.cells[i].token);
      if h.cells[i].refcount <= 0 || decoded.None? then Stale
      else if decoded.value != (i, h.generations[i]) || h.states[i] != SlotState.Live then Stale
      else if h.cells[i].resource.None? then ReadUninitialised
      else Found(h.cells[i].resource.value)
  }

  datatype Route<T> =
    | NotOwned | Corrupt | CloseReadsUninitialised
    | Close(index: nat, generation: nat, resource: T)

  /** `route_dealloc` up to the release of its first lock. */
  function RouteOf<T>(slab: Slab, h: Heap<T>, address: nat): Route<T>
    requires Sized(h) && slab.stride > 0 && slab.len == |h.states|
  {
    var index := IndexForBase(slab, address);
    if index.None? then (if Contains(slab, address) then Corrupt else NotOwned)
    else
      var i := index.value;
      var decoded := DecodeToken(h.cells[i].token);
      if h.states[i] != SlotState.Live || !IsFinalized(h.cells[i].refcount) then Corrupt
      else if decoded.None? || decoded.value != (i, h.generations[i]) then Corrupt
      else if h.cells[i].resource.None? then CloseReadsUninitialised
      else Close(i, h.generations[i], h.cells[i].resource.value)
  }

  function Held<T>(x: Option<T>): seq<T> { if x.Some? then [x.value] else [] }

  /** What dropping the heap drops: the live resources of its first `n` slots. */
  function LiveResources<T>(h: Heap<T>, n: nat): seq<T>
    requires Sized(h) && n <= |h.states|
  {
    if n == 0 then []
    else LiveResources(h, n - 1) + if h.states[n - 1] == SlotState.Live then Held(h.cells[n - 1].resource) else []
  }

  // ------------------------------------------------------------- the object

  class ResourceHeap<T> {
    var free: seq<nat>
    const generations: array<nat>
    const states: array<SlotState>
    const cells: array<Cell<T>>
    var active: int
    var highWater: int
    const slab: Slab

    function View(): Heap<T>
      reads this, generations, states, cells
    {
      Heap(free, generations[..], states[..], active, highWater, cells[..])
    }

    predicate Valid()
      reads this, generations, states, cells
    {
      Sized(View()) && slab.stride > 0 && slab.len == states.Length
    }

    constructor (capacity: nat, start: nat, stride: nat)
      requires 0 < capacity <= TOKEN_INDEX_MASK && stride > TOKEN_OFFSET
      ensures Valid() && View() == Fresh(capacity) && slab == Slab(start, stride, capacity)
      ensures fresh(generations) && fresh(states) && fresh(cells)
    {
      free := Countdown(capacity, capacity);
      generations := new nat[capacity](_ => 0);
      states := new SlotState[capacity](_ => SlotState.Free);
      cells := new Cell<T>[capacity](_ => Cell(0, 0, None));
      active, highWater := 0, 0;
      slab := Slab(start, stride, capacity);
      new;
      assert generations[..] == seq(capacity, _ => 0);
      assert states[..] == seq(capacity, _ => SlotState.Free);
      assert cells[..] == seq(capacity, _ => Cell(0, 0, None));
    }

    method Reserve() returns (granted: Option<(nat, nat)>)
      requires Valid()
      modifies this, generations, states
      ensures Valid() && (View(), granted) == ReserveIn(old(View()))
      ensures SameSize(old(View()), View()) && TookLastUsable(old(View()), View(), granted)
    {
      ReserveExact(View());
      while free != []
        invariant Valid()
        invariant ReserveIn(View()) == ReserveIn(old(View()))
        decreases |free|
      {
        ghost var before := View();
        var index := free[|free| - 1];
        var generation := SaturatingIncrement(generations[index]);
        free := free[..|free| - 1];
        if generation == 0 || generation > MAX_GENERATION {
          states[index] := SlotState.Retired;
          assert View() == Retire(before);
        } else {
          generations[index] := generation;
          states[index] := SlotState.Reserved;
          active := active + 1;
          highWater := Max(highWater, active);
          assert View() == Grant(before);
          return Some((index, generation));
        }
      }
      granted := None;
    }

    method Commit(index: nat, generation: nat, resource: T)
      requires Valid() && index < states.Length
      requires states[index] == SlotState.Reserved && generations[index] == generation
      modifies states, cells
      ensures Valid() && View() == CommitIn(old(View()), index, generation, resource)
    {
      cells[index] := Cell(1, EncodeToken(index, generation), Some(resource));
      states[index] := SlotState.Live;
      assert View() == CommitIn(old(View()), index, generation, resource);
    }

    method CancelReservation(index: nat, generation: nat)
      requires Valid() && index < states.Length
      modifies this, states
      ensures Valid() && View() == CancelIn(old(View()), index, generation)
      ensures View() != old(View()) <==>
                old(states[index]) == SlotState.Reserved && old(generations[index]) == generation
    {
      if states[index] == SlotState.Reserved && generations[index] == generation {
        states[index] := SlotState.Free;
        active := active - 1;
        free := free + [index];
        assert View() == FreeSlot(old(View()), index);
      }
    }

    method Get(handle: nat) returns (found: Lookup<T>)
      requires Valid()
      ensures found == LookUp(slab, View(), handle)
    {
      var index := PayloadIndex(slab, handle);
      if index.None? {
        return Invalid;
      }
      var cell := cells[index.value];
      if cell.refcount <= 0 {
        return Stale;
      }
      var decoded := DecodeToken(cell.token);
      if decoded.None? {
        return Stale;
      }
      var (tokenIndex, generation) := decoded.value;
      if tokenIndex != index.value || states[index.value] != SlotState.Live || generations[index.value] != generation {
        return Stale;
      }
      found := if cell.resource.None? then ReadUninitialised else Found(cell.resource.value);
    }

    method BeginClose(address: nat) returns (route: Route<T>)
      requires Valid()
      modifies states, cells
      ensures route == RouteOf(slab, old(View()), address)
      ensures Valid() && View() == if route.Close? then CloseIn(old(View()), route.index) else old(View())
    {
      var index := IndexForBase(slab, address);
      if index.None? {
        return if Contains(slab, address) then Corrupt else NotOwned;
      }
      var i := index.value;
      var cell := cells[i];
      if states[i] != SlotState.Live || !IsFinalized(cell.refcount) {
        return Corrupt;
      }
      var decoded := DecodeToken(cell.token);
      if decoded.None? {
        return Corrupt;
      }
      var (tokenIndex, generation) := decoded.value;
      if tokenIndex != i || generations[i] != generation {
        return Corrupt;
      }
      if cell.resource.None? {
        return CloseReadsUninitialised;
      }
      cells[i] := cell.(resource := None);
      states[i] := SlotState.Closing;
      route := Close(i, generation, cell.resource.value);
      assert View() == CloseIn(old(View()), i);
    }

    method FinishClose(index: nat, generation: nat)
      requires Valid() && index < states.Length
      requires states[index] == SlotState.Closing && generations[index] == generation
      modifies this, states
      ensures Valid() && View() == FreeSlot(old(View()), index)
    {
      states[index] := SlotState.Free;
      active := active - 1;
      free := free + [index];
      assert View() == FreeSlot(old(View()), index);
    }

    /** `incref_box` on a box of this heap, by someone who holds a reference. */
    method Retain(index: nat, amount: nat)
      requires Valid() && index < states.Length && cells[index].refcount > 0
      modifies cells
      ensures Valid() && View() == SetCount(old(View()), index, old(cells[index]).refcount + amount)
    {
      cells[index] := cells[index].(refcount := cells[index].refcount + amount);
      assert View() == SetCount(old(View()), index, old(cells[index]).refcount + amount);
    }

    /** `decref_box` on a box of this heap: `last` tells whether it deallocates. */
    method Release(index: nat) returns (last: bool)
      requires Valid() && index < states.Length && cells[index].refcount > 0
      modifies cells
      ensures Valid() && View() == SetCount(old(View()), index, old(cells[index]).refcount - 1)
      ensures last == (old(cells[index]).refcount == 1)
    {
      last := cells[index].refcount == 1;
      cells[index] := cells[index].(refcount := cells[index].refcount - 1);
      assert View() == SetCount(old(View()), index, old(cells[index]).refcount - 1);
    }

    /** `Drop for HostResourceHeap`. */
    method DropAll() returns (dropped: seq<T>)
      requires Valid()
      modifies states
      ensures dropped == LiveResources(old(View()), states.Length)
      ensures forall i :: 0 <= i < states.Length ==> states[i] != SlotState.Live
    {
      dropped := [];
      for i := 0 to states.Length
        invariant dropped == LiveResources(old(View()), i)
        invariant forall j :: 0 <= j < i ==> states[j] != SlotState.Live
        invariant forall j :: i <= j < states.Length ==> states[j] == old(states[j])
      {
        if states[i] == SlotState.Live {
          if cells[i].resource.Some? {
            dropped := dropped + [cells[i].resource.value];
          }
          states[i] := SlotState.Free;
        }
      }
    }
  }

  // ----------------------------------------------------- one lock-held region

  lemma ExhaustedExact<T>(h: Heap<T>)
    requires Sized(h) && h.free != []
    ensures Exhausted(h) <==> h.generations[h.free[|h.free| - 1]] >= MAX_GENERATION
  {
  }

  /** `reserve` grants exactly if some free slot has a generation left: then it takes the last
      such slot and retires those above it; otherwise it retires every free slot. */
  lemma {:induction false} ReserveExact<T>(h: Heap<T>)
    requires Sized(h)
    ensures SameSize(h, ReserveIn(h).0) && TookLastUsable(h, ReserveIn(h).0, ReserveIn(h).1)
    decreases |h.free|
  {
    if h.free != [] {
      ExhaustedExact(h);
      if Exhausted(h) {
        ReserveExact(Retire(h));
        RetireFirst(h, ReserveIn(h).0, ReserveIn(h).1);
      }
    }
  }

  lemma RetireFirst<T>(h: Heap<T>, h': Heap<T>, granted: Option<(nat, nat)>)
    requires Sized(h) && h.free != [] && h.generations[h.free[|h.free| - 1]] >= MAX_GENERATION
    requires SameSize(Retire(h), h') && TookLastUsable(Retire(h), h', granted)
    ensures TookLastUsable(h, h', granted)
  {
    var m := |h.free| - 1;
    var mid := Retire(h);
    assert forall p :: 0 <= p < m ==> mid.free[p] == h.free[p];
    assert Grantable(mid) == Grantable(h);
    assert Untouched(mid, h', h.free[m]);
    forall k | 0 <= k < |h.states| && (granted.None? || granted.value.0 != k) ensures Untouched(h, h', k) {
      assert Untouched(mid, h', k);
    }
  }

  /** What `reserve` grants is reserved, under a generation that fits a token. */
  lemma {:induction false} ReserveGrants<T>(h: Heap<T>)
    requires Sized(h)
    ensures var (h', granted) := ReserveIn(h);
      && Sized(h') && |h'.states| == |h.states| && h'.cells == h.cells
      && (granted.Some? ==>
            var (i, g) := granted.value;
            i < |h'.states| && h'.states[i] == SlotState.Reserved && h'.generations[i] == g
            && 1 <= g <= MAX_GENERATION)
    decreases |h.free|
  {
    if h.free != [] && Exhausted(h) {
      ReserveGrants(Retire(h));
    }
  }

  /** A slot that was just committed is found under its own address. */
  lemma CommittedIsFound<T>(slab: Slab, h: Heap<T>, i: nat, r: T, n: int)
    requires Sized(h) && ValidSlab(slab) && slab.len == |h.states| <= TOKEN_INDEX_MASK && i < |h.states|
    requires h.states[i] == SlotState.Live && 1 <= h.generations[i] <= MAX_GENERATION
    requires h.cells[i] == Cell(n, EncodeToken(i, h.generations[i]), Some(r))
    ensures n > 0 ==> LookUp(slab, h, Payload(slab, i)) == Found(r)
    ensures n == 0 ==> RouteOf(slab, h, BaseAddress(slab, i)) == Close(i, h.generations[i], r)
  {
    PayloadInverse(slab, Payload(slab, i), i);
    BaseInverse(slab, BaseAddress(slab, i), i);
    TokenRoundTrip(i, h.generations[i]);
  }
}
