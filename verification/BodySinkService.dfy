/**
  `write_file` (src/body_sink.rs) as one call, undisturbed by other writers: every
  method takes steps of the machine, and a call succeeds exactly when nothing fails.

  The outside world is given in advance: the random names, what the system calls do,
  what the body delivers and when the server stops.
*/
module BodySinkService {
  import opened Bags
  import opened BodySink
  import opened FilePaths
  import opened Text

  /** What the next turn of the loop meets: a chunk, of which `count` bytes are written,
      an error of the body, or the server stopping. */
  datatype Event = Chunk(data: Bytes, count: nat) | BodyError | StopSignal

  /** What the system calls after the loop do. */
  datatype Faults = Faults(stopping: bool, publishFails: bool, cleanFails: bool, dropFails: bool)

  function DataOf(events: seq<Event>): seq<Bytes> {
    seq(|events|, k requires 0 <= k < |events| => if events[k].Chunk? then events[k].data else [])
  }

  /** From the `k`-th on, a name that is not taken comes before any failure of the system. */
  predicate Creatable(names: seq<Bytes>, fails: seq<bool>, dir: map<Bytes, nat>, k: nat)
    requires k <= |names| == |fails|
    decreases |names| - k
  {
    k < |names| && !fails[k] && (names[k] !in dir || Creatable(names, fails, dir, k + 1))
  }

  /** The first name from the `k`-th on that is not taken. */
  function Chosen(names: seq<Bytes>, dir: map<Bytes, nat>, k: nat): Bytes
    requires k <= |names|
    decreases |names| - k
  {
    if k == |names| then [] else if names[k] !in dir then names[k] else Chosen(names, dir, k + 1)
  }

  /** Every chunk is written whole, and their number of bytes fits in 64 bits. */
  predicate Arrives(events: seq<Event>) {
    AllWhole(events) && |Flat(DataOf(events))| < U64
  }

  /** The destination gets its name. */
  predicate Links(events: seq<Event>, faults: Faults, dest: Bytes, dir: map<Bytes, nat>) {
    Arrives(events) && !faults.stopping && !faults.publishFails && dest !in dir
  }

  /** The directory after a call that staged file `f` under `name`. */
  function DirAfter(dir: map<Bytes, nat>, name: Bytes, dest: Bytes, f: nat, linked: bool, faults: Faults)
    : map<Bytes, nat>
  {
    var d := if linked then dir[dest := f] else dir;
    if faults.cleanFails && faults.dropFails then d[name := f] else d
  }

  predicate Whole(e: Event) { e.Chunk? && e.count >= |e.data| }

  predicate AllWhole(events: seq<Event>) { forall k :: 0 <= k < |events| ==> Whole(events[k]) }

  // ------------------------------------------------------ runs of the machine

  ghost predicate StepAt(run: seq<World>, k: nat)
    requires k + 1 < |run|
  {
    Step(run[k], run[k + 1])
  }

  ghost predicate Linked(run: seq<World>) { run != [] && forall k: nat :: k + 1 < |run| ==> StepAt(run, k) }

  ghost predicate Reaches(w: World, w': World) {
    exists run :: Linked(run) && run[0] == w && run[|run| - 1] == w'
  }

  lemma Stays(w: World)
    ensures Reaches(w, w)
  {
    assert Linked([w]);
  }

  lemma Joins(a: World, b: World, c: World)
    requires Reaches(a, b) && Reaches(b, c)
    ensures Reaches(a, c)
  {
    var x :| Linked(x) && x[0] == a && x[|x| - 1] == b;
    var y :| Linked(y) && y[0] == b && y[|y| - 1] == c;
    var run := x + y[1..];
    forall k: nat | k + 1 < |run| ensures StepAt(run, k) {
      if k + 1 < |x| {
        assert StepAt(x, k);
      } else {
        assert StepAt(y, k + 1 - |x|);
      }
    }
    assert Linked(run);
  }

  lemma Goes(z: World, w: World, a: Action, w': World)
    requires Reaches(z, w) && Enabled(w, a) && w' == Next(w, a)
    ensures Reaches(z, w')
  {
    var run := [w, w'];
    assert StepAt(run, 0);
    assert Linked(run);
    assert Reaches(w, w');
    Joins(z, w, w');
  }

  lemma GoesCreate(z: World, w: World, i: nat, name: Bytes, fails: bool, w': World)
    requires Reaches(z, w) && Enabled(w, Create(i, name, fails)) && w' == DoCreate(w, i, name, fails)
    ensures Reaches(z, w')
  {
    Goes(z, w, Create(i, name, fails), w');
  }

  lemma GoesWrite(z: World, w: World, i: nat, chunk: Bytes, count: nat, w': World)
    requires Reaches(z, w) && Enabled(w, Write(i, chunk, count)) && w' == DoWrite(w, i, chunk, count)
    ensures Reaches(z, w')
  {
    Goes(z, w, Write(i, chunk, count), w');
  }

  lemma GoesGiveUp(z: World, w: World, i: nat, error: Error, w': World)
    requires Reaches(z, w) && Enabled(w, GiveUp(i, error))
    requires w' == Set(w, i, w.writers[i].(phase := Cleaning(Failed(error))))
    ensures Reaches(z, w')
  {
    Goes(z, w, GiveUp(i, error), w');
  }

  lemma GoesOut(z: World, w: World, i: nat, w': World)
    requires Reaches(z, w) && Enabled(w, Leave(i)) && w' == DoRelease(DoLeave(w, i), i)
    ensures Reaches(z, w')
  {
    Goes(z, w, Leave(i), DoLeave(w, i));
    Goes(z, DoLeave(w, i), Release(i), w');
  }

  lemma GoesIn(o: World, z: World, dest: Bytes, w': World)
    requires Reaches(o, z) && SafeSegment(dest) && z.taken < z.permits
    requires w' == DoMark(DoCount(DoBegin(z, dest), |z.writers|), |z.writers|)
    ensures Reaches(o, w')
  {
    var me, w := |z.writers|, DoBegin(z, dest);
    Goes(o, z, Begin(dest), w);
    Goes(o, w, Count(me), DoCount(w, me));
    Goes(o, DoCount(w, me), Mark(me), w');
  }

  lemma AnyStepKeeps(w: World, w': World)
    requires Inv(w) && Step(w, w')
    ensures Inv(w')
  {
    var a :| Enabled(w, a) && Next(w, a) == w';
    StepKeeps(w, a);
  }

  /** What the machine keeps, a call keeps. */
  lemma {:induction false} LinkedKeeps(run: seq<World>)
    requires Linked(run) && Inv(run[0])
    ensures Inv(run[|run| - 1])
    decreases |run|
  {
    if |run| > 1 {
      var n := |run| - 1;
      var before := run[..n];
      forall k: nat | k + 1 < n ensures StepAt(before, k) { assert StepAt(run, k); }
      LinkedKeeps(before);
      assert StepAt(run, n - 1);
      AnyStepKeeps(run[n - 1], run[n]);
    }
  }

  lemma CallKeeps(w: World, w': World)
    requires Inv(w) && Reaches(w, w')
    ensures Inv(w')
  {
    var run :| Linked(run) && run[0] == w && run[|run| - 1] == w';
    LinkedKeeps(run);
  }

  lemma {:induction false} FlatGrows(chunks: seq<Bytes>, k: nat)
    requires k <= |chunks|
    ensures |Flat(chunks[..k])| <= |Flat(chunks)|
    decreases |chunks| - k
  {
    if k == |chunks| {
      assert chunks[..k] == chunks;
    } else {
      FlatGrows(chunks, k + 1);
      assert chunks[..k + 1] == chunks[..k] + [chunks[k]];
      FlatOne(chunks[..k], chunks[k]);
    }
  }

  /** How much of a chunk is written. */
  function Stored(e: Event): (n: nat)
    requires e.Chunk?
    ensures n <= |e.data|
  {
    if e.count < |e.data| then e.count else |e.data|
  }

  function Attempt(k: nat): Phase { if k < STAGING_CREATE_ATTEMPTS then Creating(k) else Leaving(Failed(Io)) }

  /** Since `z`, writer `me` has written the chunks of `events` to its file `f`. */
  predicate Sofar(z: World, w: World, events: seq<Event>, me: nat, f: nat)
    requires me < |z.writers| && f < |z.files|
  {
    var data := DataOf(events);
    w == z.(files := z.files[f := Flat(data)],
            writers := z.writers[me := z.writers[me].(chunks := data, bytesWritten := |Flat(data)|)])
  }

  predicate AllStaging(names: seq<Bytes>) { forall k :: 0 <= k < |names| ==> IsStaging(names[k]) }

  lemma StagedApart(names: seq<Bytes>, name: Bytes, dest: Bytes)
    requires AllStaging(names) && name in names && SafeSegment(dest)
    ensures name != dest
  {
    StagingIsNoDestination(name);
  }

  /** The writer once its staging file is there. */
  function Staged(x: Writer, name: Bytes, f: nat): Writer {
    x.(phase := Writing, name := name, file := Some(f), staged := true)
  }

  /** After `k` names that were taken. */
  predicate Trying(z: World, w: World, me: nat, k: nat)
    requires me < |z.writers|
  {
    w == z.(writers := z.writers[me := z.writers[me].(phase := Attempt(k))])
  }

  /** One attempt at a staging name, seen from the fields it may change. */
  predicate Tries(w: World, w': World, me: nat, k: nat, name: Bytes, fails: bool)
    requires me < |w.writers|
  {
    if !fails && name !in w.dir then
      w' == w.(dir := w.dir[name := |w.files|], files := w.files + [[]],
               writers := w.writers[me := Staged(w.writers[me], name, |w.files|)])
    else
      var phase := if fails then Leaving(Failed(Io)) else Attempt(k + 1);
      w' == w.(writers := w.writers[me := w.writers[me].(phase := phase)])
  }

  lemma TriesIsAStep(o: World, z: World, w: World, w': World, me: nat, k: nat, names: seq<Bytes>, fails: bool)
    requires me < |z.writers| && Trying(z, w, me, k) && Reaches(o, w) && z.writers[me].file.None?
    requires k < STAGING_CREATE_ATTEMPTS == |names| && AllStaging(names) && Tries(w, w', me, k, names[k], fails)
    ensures Reaches(o, w')
    ensures !fails && names[k] !in z.dir ==>
      && w'.writers == z.writers[me := Staged(z.writers[me], names[k], |z.files|)]
      && w'.dir == z.dir[names[k] := |z.files|] && w'.files == z.files + [[]]
    ensures fails ==> Trying(z, w', me, STAGING_CREATE_ATTEMPTS)
    ensures !fails && names[k] in z.dir ==> Trying(z, w', me, k + 1)
  {
    assert w' == DoCreate(w, me, names[k], fails);
    GoesCreate(o, w, me, names[k], fails, w');
  }

  /** Writer `me` gave up with an error, its file in whatever state. */
  predicate GaveUp(z: World, w: World, me: nat, f: nat, error: Error)
    requires me < |z.writers| && f < |z.files|
  {
    && |w.files| == |z.files| && |w.writers| == |z.writers|
    && w == z.(files := z.files[f := w.files[f]], writers := z.writers[me := w.writers[me]])
    && Kept(z.writers[me], w.writers[me]) && w.writers[me].phase == Cleaning(Failed(error))
    && error != CleanupFailed
  }

  lemma SofarStarts(z: World, events: seq<Event>, me: nat, f: nat)
    requires me < |z.writers| && f < |z.files| && z.files[f] == []
    requires z.writers[me].chunks == [] && z.writers[me].bytesWritten == 0
    ensures Sofar(z, z, events[..0], me, f) && |Flat(DataOf(events[..0]))| == 0
  {
    assert DataOf(events[..0]) == [];
    assert z.files == z.files[f := []] && z.writers == z.writers[me := z.writers[me]];
  }

  /** The staging name comes and goes. */
  lemma NameGone(dir: map<Bytes, nat>, name: Bytes, dest: Bytes, f: nat)
    requires name !in dir && name != dest
    ensures dir[name := f] - {name} == dir && dir[name := f][dest := f] - {name} == dir[dest := f]
    ensures dir[name := f][dest := f] == dir[dest := f][name := f]
    ensures dest in dir[name := f] <==> dest in dir
  {
  }

  lemma FileAdded(before: seq<Bytes>, after: seq<Bytes>)
    requires |after| == |before| + 1 && after == (before + [[]])[|before| := after[|before|]]
    ensures before <= after && after == before + [after[|before|]]
  {
  }

  /** One more event, after those before it were written. */
  lemma SofarMore(z: World, w: World, w': World, events: seq<Event>, k: nat, me: nat, f: nat)
    requires me < |z.writers| && f < |z.files| && k < |events| && Sofar(z, w, events[..k], me, f)
    requires z.writers[me].file == Some(f) && events[k].Chunk?
    requires w' == DoWrite(w, me, events[k].data, Stored(events[k]))
    ensures var fits := |Flat(DataOf(events[..k]))| + |events[k].data| < U64 && events[k].count >= |events[k].data|;
      if fits then Sofar(z, w', events[..k + 1], me, f) else GaveUp(z, w', me, f, Io)
  {
    OneMore(events, k);
  }

  /** The event was good, or the writer gave up. */
  predicate Turned(w: World, w': World, e: Event, me: nat, error: Option<Error>)
    requires me < |w.writers| && w.writers[me].file.Some? && w.writers[me].file.value < |w.files|
  {
    && (error.None? <==> Whole(e) && w.writers[me].bytesWritten + |e.data| < U64)
    && (if e.Chunk? then w' == DoWrite(w, me, e.data, Stored(e)) && (error.Some? ==> error.value == Io)
        else && (error == Some(Stopping) || error == Some(BodyFailed))
             && w' == Set(w, me, w.writers[me].(phase := Cleaning(Failed(error.value)))))
  }

  lemma WholeMore(events: seq<Event>, k: nat)
    requires k < |events| && AllWhole(events[..k]) && Whole(events[k])
    ensures AllWhole(events[..k + 1])
  {
    var more := events[..k + 1];
    forall j | 0 <= j < |more| ensures Whole(more[j]) {
      assert j < k ==> more[j] == events[..k][j];
    }
  }

  lemma TurnLeads(o: World, z: World, w: World, w': World, events: seq<Event>, k: nat, me: nat, f: nat,
                  error: Option<Error>)
    requires me < |z.writers| && f < |z.files| && k < |events| && Sofar(z, w, events[..k], me, f) && Reaches(o, w)
    requires z.writers[me].file == Some(f) && z.writers[me].phase.Writing? && Turned(w, w', events[k], me, error)
    ensures Reaches(o, w')
    ensures if error.None? then Sofar(z, w', events[..k + 1], me, f) else GaveUp(z, w', me, f, error.value)
    ensures error.Some? ==> !Arrives(events)
    ensures error.None? ==> Whole(events[k])
    ensures error.None? ==>
      |Flat(DataOf(events[..k + 1]))| == |Flat(DataOf(events[..k]))| + |events[k].data| < U64
  {
    if error.None? { OneMore(events, k); }
    if events[k].Chunk? {
      GoesWrite(o, w, me, events[k].data, Stored(events[k]), w');
      SofarMore(z, w, w', events, k, me, f);
    } else {
      GoesGiveUp(o, w, me, error.value, w');
    }
    Overflows(events, k);
  }

  lemma OneMore(events: seq<Event>, k: nat)
    requires k < |events| && events[k].Chunk?
    ensures DataOf(events[..k + 1]) == DataOf(events[..k]) + [events[k].data]
    ensures Flat(DataOf(events[..k + 1])) == Flat(DataOf(events[..k])) + events[k].data
  {
    assert DataOf(events[..k + 1]) == DataOf(events[..k]) + [events[k].data];
    FlatOne(DataOf(events[..k]), events[k].data);
  }

  /** A chunk that does not fit makes all of them not fit. */
  lemma Overflows(events: seq<Event>, k: nat)
    requires k < |events|
    ensures events[k].Chunk? ==> |Flat(DataOf(events[..k]))| + |events[k].data| <= |Flat(DataOf(events))|
  {
    if events[k].Chunk? {
      OneMore(events, k);
      assert DataOf(events)[..k + 1] == DataOf(events[..k + 1]);
      FlatGrows(DataOf(events), k + 1);
    }
  }

  // ------------------------------------------------------------- the service

  class Sink {
    const before: map<Bytes, nat>
    const original: seq<Bytes>
    const permits: nat
    var dir: map<Bytes, nat>
    var files: seq<Bytes>
    var taken: int
    var active: int
    var highWater: int
    var fault: bool
    ghost var writers: seq<Writer>

    ghost function View(): World
      reads this
    {
      World(before, original, dir, files, writers, permits, taken, active, highWater, fault)
    }

    constructor (dir: map<Bytes, nat>, files: seq<Bytes>, permits: nat)
      requires ValidStart(dir, files)
      ensures View() == Initial(dir, files, permits) && Inv(View())
    {
      before, original, this.dir, this.files, this.permits := dir, files, dir, files, permits;
      taken, active, highWater, fault, writers := 0, 0, 0, false, [];
    }

    /** `try_acquire_owned` and `SinkLease::new`. */
    method Acquire(dest: Bytes, ghost o: World) returns (ok: bool)
      requires SafeSegment(dest)
      requires Reaches(o, View())
      modifies this`taken, this`active, this`highWater, this`writers
      ensures Reaches(o, View())
      ensures ok == (old(taken) < permits)
      ensures ok ==> taken == old(taken) + 1 && active == old(active) + 1 && highWater == Max(old(highWater), active)
                     && writers == old(writers) + [Arrival(dest).(phase := Creating(0))]
      ensures !ok ==> taken == old(taken) && active == old(active) && highWater == old(highWater)
                      && writers == old(writers) + [Arrival(dest).(phase := Done(Failed(Saturated)))]
    {
      ghost var z, me := View(), |writers|;
      if taken >= permits {
        writers := writers + [Arrival(dest).(phase := Done(Failed(Saturated)))];
        Goes(o, z, Begin(dest), View());
        return false;
      }
      taken := taken + 1;
      var current := active + 1;
      active := active + 1;
      highWater := Max(highWater, current);
      writers := writers + [Arrival(dest).(phase := Creating(0))];
      GoesIn(o, z, dest, View());
      ok := true;
    }

    /** One attempt at a staging name, the `k`-th. */
    method TryName(name: Bytes, fails: bool, k: nat, ghost me: nat) returns (created: bool)
      requires me < |writers| && writers[me].phase == Creating(k)
      modifies this`dir, this`files, this`writers
      ensures Tries(old(View()), View(), me, k, name, fails)
      ensures created == (!fails && name !in old(dir))
    {
      if !fails && name !in dir {
        writers := writers[me := Staged(writers[me], name, |files|)];
        dir, files := dir[name := |files|], files + [[]];
        return true;
      }
      writers := writers[me := writers[me].(phase := if fails then Leaving(Failed(Io)) else Attempt(k + 1))];
      created := false;
    }

    /** The `k`-th turn of the loop of `StagingFile::create`, which was entered at `z`. */
    method TryNext(names: seq<Bytes>, fails: bool, k: nat, ghost me: nat, ghost o: World, ghost z: World)
      returns (created: bool)
      requires k < STAGING_CREATE_ATTEMPTS == |names| && AllStaging(names) && Reaches(o, View())
      requires me < |z.writers| && z.writers[me].file.None? && Trying(z, View(), me, k)
      modifies this`dir, this`files, this`writers
      ensures Reaches(o, View()) && created == (!fails && names[k] !in z.dir)
      ensures created ==>
        && dir == z.dir[names[k] := |z.files|] && files == z.files + [[]]
        && writers == z.writers[me := Staged(z.writers[me], names[k], |z.files|)]
      ensures !created ==> Trying(z, View(), me, if fails then STAGING_CREATE_ATTEMPTS else k + 1)
    {
      ghost var w := View();
      created := TryName(names[k], fails, k, me);
      TriesIsAStep(o, z, w, View(), me, k, names, fails);
    }

    /** `StagingFile::create`: up to sixteen names; a failure of the system ends it. */
    method CreateStaging(names: seq<Bytes>, fails: seq<bool>, ghost me: nat, ghost o: World)
      returns (name: Option<Bytes>)
      requires |names| == |fails| == STAGING_CREATE_ATTEMPTS
      requires AllStaging(names)
      requires me < |writers| && writers[me].phase == Creating(0) && writers[me].file.None?
      requires Reaches(o, View())
      modifies this`dir, this`files, this`writers
      ensures Reaches(o, View())
      ensures name.Some? <==> Creatable(names, fails, old(dir), 0)
      ensures name.Some? ==>
        && name.value == Chosen(names, old(dir), 0) && name.value in names && name.value !in old(dir)
        && dir == old(dir)[name.value := old(|files|)] && files == old(files) + [[]]
        && writers == old(writers)[me := Staged(old(writers)[me], name.value, old(|files|))]
      ensures name.None? ==> dir == old(dir) && files == old(files)
                             && writers == old(writers)[me := old(writers)[me].(phase := Leaving(Failed(Io)))]
    {
      ghost var z := View();
      for k := 0 to STAGING_CREATE_ATTEMPTS
        invariant Trying(z, View(), me, k) && Reaches(o, View())
        invariant Creatable(names, fails, z.dir, 0) == Creatable(names, fails, z.dir, k)
        invariant Chosen(names, z.dir, 0) == Chosen(names, z.dir, k)
      {
        var created := TryNext(names, fails[k], k, me, o, z);
        if created {
          return Some(names[k]);
        }
        if fails[k] {
          return None;
        }
      }
      name := None;
    }

    /** One turn of the loop of `write_file`. */
    method Turn(event: Event, f: nat, bytesWritten: nat, ghost me: nat) returns (error: Option<Error>, total: nat)
      requires me < |writers| && f < |files| && writers[me].file == Some(f) && writers[me].bytesWritten == bytesWritten
      modifies this`files, this`writers
      ensures Turned(old(View()), View(), event, me, error)
      ensures error.None? ==> total == bytesWritten + |event.data|
    {
      total := bytesWritten;
      if event.Chunk? && event.count >= |event.data| && bytesWritten + |event.data| < U64 {
        total := bytesWritten + |event.data|;
        files := files[f := files[f] + event.data];
        ghost var x := writers[me];
        writers := writers[me := x.(chunks := x.chunks + [event.data], bytesWritten := total)];
        return None, total;
      }
      if event.Chunk? && bytesWritten + |event.data| < U64 {
        files := files[f := files[f] + event.data[..event.count]];
      }
      error := Some(if event.Chunk? then Io else if event.StopSignal? then Stopping else BodyFailed);
      writers := writers[me := writers[me].(phase := Cleaning(Failed(error.value)))];
    }

    /** The loop of `write_file`: either all chunks are in the file, or an error. */
    method WriteChunks(events: seq<Event>, f: nat, ghost me: nat, ghost o: World)
      returns (error: Option<Error>, bytesWritten: nat)
      requires me < |writers| && f < |files| && files[f] == []
      requires var x := writers[me]; x.phase.Writing? && x.file == Some(f) && x.chunks == [] && x.bytesWritten == 0
      requires Reaches(o, View())
      modifies this`files, this`writers
      ensures Reaches(o, View())
      ensures error.None? <==> Arrives(events)
      ensures error.None? ==> Sofar(old(View()), View(), events, me, f) && bytesWritten == |Flat(DataOf(events))|
      ensures error.Some? ==> GaveUp(old(View()), View(), me, f, error.value)
    {
      ghost var z := View();
      bytesWritten := 0;
      SofarStarts(z, events, me, f);
      for k := 0 to |events|
        invariant Sofar(z, View(), events[..k], me, f) && Reaches(o, View())
        invariant bytesWritten == |Flat(DataOf(events[..k]))| < U64
        invariant AllWhole(events[..k])
      {
        ghost var w := View();
        var problem, total := Turn(events[k], f, bytesWritten, me);
        TurnLeads(o, z, w, View(), events, k, me, f, problem);
        if problem.Some? {
          return problem, bytesWritten;
        }
        WholeMore(events, k);
        bytesWritten := total;
      }
      assert events[..|events|] == events;
      error := None;
    }

    /** The last look at the stop signal, and `StagingFile::publish`. */
    method Publish(dest: Bytes, f: nat, bytesWritten: nat, faults: Faults, ghost me: nat, ghost o: World)
      returns (outcome: Outcome)
      requires me < |writers| && f < |files|
      requires var x := writers[me];
        x.phase.Writing? && x.file == Some(f) && x.dest == dest && x.bytesWritten == bytesWritten && !x.published
      requires Reaches(o, View())
      modifies this`dir, this`writers
      ensures Reaches(o, View())
      ensures outcome.Ok? <==> !faults.stopping && !faults.publishFails && dest !in old(dir)
      ensures outcome.Ok? ==> outcome.bytes == bytesWritten && dir == old(dir)[dest := f]
      ensures outcome.Failed? ==> outcome.error != CleanupFailed && dir == old(dir)
      ensures writers == old(writers)[me := old(writers)[me].(phase := Cleaning(outcome), published := outcome.Ok?)]
    {
      ghost var z := View();
      writers := writers[me := writers[me].(phase := Publishing)];
      ghost var w := View();
      Goes(o, z, Finish(me), w);
      if faults.stopping {
        outcome := Failed(Stopping);
        writers := writers[me := writers[me].(phase := Cleaning(outcome))];
        Goes(o, w, GiveUp(me, Stopping), View());
        return;
      }
      if dest in dir {
        outcome := Failed(DestinationExists);
      } else if faults.publishFails {
        outcome := Failed(PublishFailed);
      } else {
        outcome := Ok(bytesWritten);
        dir := dir[dest := f];
      }
      writers := writers[me := writers[me].(phase := Cleaning(outcome), published := outcome.Ok?)];
      Goes(o, w, Action.Publish(me, faults.publishFails), View());
    }

    /** `StagingFile::cleanup`, alone or from `fail_with_cleanup`: the staging name goes, at
        the second attempt if the first one fails. */
    method Cleanup(name: Bytes, outcome: Outcome, faults: Faults, ghost me: nat, ghost o: World) returns (r: Outcome)
      requires me < |writers| && writers[me].phase == Cleaning(outcome) && writers[me].name == name
      requires writers[me].file.Some? && writers[me].file.value < |files|
      requires Reaches(o, View())
      modifies this`dir, this`writers
      ensures Reaches(o, View())
      ensures r == if faults.cleanFails then Failed(CleanupFailed) else outcome
      ensures dir == if faults.cleanFails && faults.dropFails then old(dir) else old(dir) - {name}
      ensures |writers| == old(|writers|) && writers == old(writers)[me := writers[me]]
      ensures writers[me].phase == Leaving(r) && Kept(old(writers)[me], writers[me])
    {
      ghost var z := View();
      if faults.cleanFails {
        writers := writers[me := writers[me].(phase := Dropping)];
        ghost var w := View();
        Goes(o, z, Clean(me, true), w);
        if !faults.dropFails {
          dir := dir - {name};
        }
        writers := writers[me := writers[me].(phase := Leaving(Failed(CleanupFailed)),
                                              staged := writers[me].staged && faults.dropFails)];
        Goes(o, w, Action.Drop(me, faults.dropFails), View());
        return Failed(CleanupFailed);
      }
      dir := dir - {name};
      writers := writers[me := writers[me].(phase := Leaving(outcome), staged := false)];
      Goes(o, z, Clean(me, false), View());
      r := outcome;
    }

    /** The lease is dropped: the count first, then the permit. */
    method DropLease(ghost me: nat, ghost o: World)
      requires me < |writers| && writers[me].phase.Leaving?
      requires writers[me].file.Some? ==> writers[me].file.value < |files|
      requires Reaches(o, View())
      modifies this`taken, this`active, this`fault, this`writers
      ensures Reaches(o, View())
      ensures taken == old(taken) - 1 && active == old(active) - 1 && fault == (old(fault) || old(active) <= 0)
      ensures writers == old(writers)[me := old(writers)[me].(phase := Done(old(writers)[me].phase.result))]
    {
      ghost var z, r := View(), writers[me].phase.result;
      fault := fault || active <= 0;
      active := active - 1;
      taken := taken - 1;
      writers := writers[me := writers[me].(phase := Uncounted(r))][me := writers[me].(phase := Done(r))];
      GoesOut(o, z, me, View());
    }

    /** `write_file` once its staging file is there. */
    method Deliver(dest: Bytes, name: Bytes, f: nat, events: seq<Event>, faults: Faults, ghost me: nat, ghost o: World)
      returns (r: Outcome)
      requires me < |writers| && f < |files| && files[f] == []
      requires writers[me] == Staged(Arrival(dest), name, f)
      requires Reaches(o, View())
      modifies this`dir, this`files, this`writers
      ensures Reaches(o, View())
      ensures |files| == old(|files|) && files == old(files)[f := files[f]]
      ensures |writers| == old(|writers|) && writers[me].phase == Leaving(r) && writers[me].file == Some(f)
      ensures r.Ok? <==>
        Arrives(events) && !faults.stopping && !faults.publishFails && !faults.cleanFails && dest !in old(dir)
      ensures r.Ok? ==> dir == old(dir)[dest := f] - {name}
                        && files[f] == Flat(DataOf(events)) && r.bytes == |Flat(DataOf(events))|
      ensures r == Failed(CleanupFailed) <==> faults.cleanFails
      ensures r.Failed? && r.error != CleanupFailed ==> dir == old(dir) - {name}
      ensures var d := if Links(events, faults, dest, old(dir)) then old(dir)[dest := f] else old(dir);
        dir == if faults.cleanFails && faults.dropFails then d else d - {name}
    {
      var error, bytesWritten := WriteChunks(events, f, me, o);
      var outcome: Outcome;
      if error.Some? {
        outcome := Failed(error.value);
      } else {
        outcome := Publish(dest, f, bytesWritten, faults, me, o);
      }
      r := Cleanup(name, outcome, faults, me, o);
    }

    /** `write_file` under its lease. */
    method Transfer(dest: Bytes, names: seq<Bytes>, fails: seq<bool>, events: seq<Event>, faults: Faults,
                    ghost me: nat, ghost o: World)
      returns (r: Outcome)
      requires SafeSegment(dest) && |names| == |fails| == STAGING_CREATE_ATTEMPTS
      requires AllStaging(names)
      requires me < |writers| && writers[me] == Arrival(dest).(phase := Creating(0))
      requires Reaches(o, View())
      modifies this`dir, this`files, this`writers
      ensures Reaches(o, View())
      ensures r.Ok? <==>
        && Creatable(names, fails, old(dir), 0) && Arrives(events)
        && !faults.stopping && !faults.publishFails && !faults.cleanFails && dest !in old(dir)
      ensures r.Ok? ==>
        && dir == old(dir)[dest := old(|files|)] && files == old(files) + [Flat(DataOf(events))]
        && r.bytes == |Flat(DataOf(events))|
      ensures r == Failed(CleanupFailed) <==> Creatable(names, fails, old(dir), 0) && faults.cleanFails
      ensures r.Failed? && r.error != CleanupFailed ==> dir == old(dir)
      ensures dir ==
        if !Creatable(names, fails, old(dir), 0) then old(dir)
        else DirAfter(old(dir), Chosen(names, old(dir), 0), dest, old(|files|),
                      Links(events, faults, dest, old(dir)), faults)
      ensures old(files) <= files && |writers| == old(|writers|) && writers[me].phase == Leaving(r)
      ensures writers[me].file.Some? ==> writers[me].file.value < |files|
    {
      ghost var z := View();
      var name := CreateStaging(names, fails, me, o);
      if name.None? {
        return Failed(Io);
      }
      StagedApart(names, name.value, dest);
      NameGone(z.dir, name.value, dest, |z.files|);
      r := Deliver(dest, name.value, |files| - 1, events, faults, me, o);
      FileAdded(z.files, files);
    }

    /** `write_file`: Ok publishes exactly the chunks under a new name, an error other than a
        failed cleanup leaves the directory as it was, and a failed cleanup leaves what was
        published and, if the second removal fails too, the staging name. */
    method WriteFile(stopped: bool, dest: Bytes, names: seq<Bytes>, fails: seq<bool>, events: seq<Event>,
                     faults: Faults)
      returns (r: Outcome)
      requires SafeSegment(dest) && |names| == |fails| == STAGING_CREATE_ATTEMPTS
      requires AllStaging(names)
      modifies this
      ensures Reaches(old(View()), View())
      ensures r.Ok? <==>
        && !stopped && old(taken) < permits && Creatable(names, fails, old(dir), 0) && Arrives(events)
        && !faults.stopping && !faults.publishFails && !faults.cleanFails && dest !in old(dir)
      ensures r.Ok? ==>
        && dir == old(dir)[dest := old(|files|)] && files == old(files) + [Flat(DataOf(events))]
        && r.bytes == |Flat(DataOf(events))|
      ensures r == Failed(CleanupFailed) <==>
        !stopped && old(taken) < permits && Creatable(names, fails, old(dir), 0) && faults.cleanFails
      ensures r.Failed? && r.error != CleanupFailed ==> dir == old(dir)
      ensures dir ==
        if stopped || old(taken) >= permits || !Creatable(names, fails, old(dir), 0) then old(dir)
        else DirAfter(old(dir), Chosen(names, old(dir), 0), dest, old(|files|),
                      Links(events, faults, dest, old(dir)), faults)
      ensures old(files) <= files && taken == old(taken) && active == old(active)
    {
      ghost var z, me := View(), |writers|;
      Stays(z);
      if stopped {
        return Failed(Stopping);
      }
      var ok := Acquire(dest, z);
      if !ok {
        return Failed(Saturated);
      }
      r := Transfer(dest, names, fails, events, faults, me, z);
      DropLease(me, z);
    }
  }

  /** All of a writer but its phase and what it did. */
  predicate Kept(x: Writer, x': Writer) { x'.dest == x.dest && x'.file == x.file && x'.name == x.name }
}
