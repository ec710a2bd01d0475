/**
  Request bodies written to files (src/body_sink.rs): any number of writers stage their
  data in one directory and publish it with a hard link that never replaces a file.

  A directory maps names to files, and a file is its contents.  Each step is one system
  call of one writer, or one action on the semaphore or the diagnostic counters; whether
  a call fails, and where a write stops, is up to the step.
  Nobody else changes the directory.
*/
module BodySink {
  import opened Bags
  import opened FilePaths
  import opened Text

  const U64 := 0x1_0000_0000_0000_0000
  const STAGING_CREATE_ATTEMPTS := 16

  /** ".basic-webserver-upload-" */
  const STAGING_PREFIX: Bytes :=
    [46, 98, 97, 115, 105, 99, 45, 119, 101, 98, 115, 101, 114, 118, 101, 114, 45, 117, 112, 108, 111, 97, 100, 45]

  /** A staging name ends in 24 random bytes, as hexadecimal digits. */
  predicate IsStaging(name: Bytes) {
    && |name| == |STAGING_PREFIX| + 48 && STAGING_PREFIX <= name
    && forall i :: |STAGING_PREFIX| <= i < |name| ==> HexValue(name[i]).Some?
  }

  /** No destination that validation accepts is a staging name. */
  lemma StagingIsNoDestination(name: Bytes)
    ensures !(IsStaging(name) && SafeSegment(name))
  {
    if IsStaging(name) {
      assert name[0] == STAGING_PREFIX[0] == DOT;
    }
  }

  datatype Error = Saturated | Stopping | BodyFailed | Io | DestinationExists | PublishFailed | CleanupFailed

  datatype Outcome = Ok(bytes: nat) | Failed(error: Error)

  datatype Phase =
    | Arriving                       // with a permit
    | Counted(current: int)          // counted, the high-water mark not yet raised
    | Creating(attempts: nat)
    | Writing
    | Publishing
    | Cleaning(outcome: Outcome)     // the explicit cleanup
    | Dropping                       // the second removal, when the cleanup failed
    | Leaving(result: Outcome)       // the lease is about to be dropped
    | Uncounted(result: Outcome)     // no longer counted, the permit not yet back
    | Done(result: Outcome)

  /** `staged`: its staging name is in the directory.  `published`: so is its destination. */
  datatype Writer = Writer(dest: Bytes, phase: Phase, name: Bytes, file: Option<nat>, chunks: seq<Bytes>,
                           bytesWritten: nat, staged: bool, published: bool)

  /** `before` and `original` are the directory and the files at the start.  `taken` is
      what is missing from the semaphore, `active` and `highWater` are the diagnostics,
      and `fault` records that their assertion failed. */
  datatype World = World(
    before: map<Bytes, nat>, original: seq<Bytes>, dir: map<Bytes, nat>, files: seq<Bytes>,
    writers: seq<Writer>, permits: nat, taken: int, active: int, highWater: int, fault: bool)

  datatype Action =
    | Begin(dest: Bytes)
    | Count(writer: nat)
    | Mark(writer: nat)
    | Create(writer: nat, name: Bytes, fails: bool)
    | Write(writer: nat, chunk: Bytes, count: nat)
    | GiveUp(writer: nat, error: Error)
    | Finish(writer: nat)
    | Publish(writer: nat, fails: bool)
    | Clean(writer: nat, fails: bool)
    | Drop(writer: nat, fails: bool)
    | Leave(writer: nat)
    | Release(writer: nat)

  function Initial(dir: map<Bytes, nat>, files: seq<Bytes>, permits: nat): World {
    World(dir, files, dir, files, [], permits, 0, 0, 0, false)
  }

  predicate At(w: World, i: nat) {
    i < |w.writers| && (w.writers[i].file.Some? ==> w.writers[i].file.value < |w.files|)
  }

  predicate Enabled(w: World, a: Action) {
    match a
    case Begin(dest) => SafeSegment(dest)
    case Count(i) => At(w, i) && w.writers[i].phase.Arriving?
    case Mark(i) => At(w, i) && w.writers[i].phase.Counted?
    case Create(i, name, _) => At(w, i) && w.writers[i].phase.Creating? && IsStaging(name)
    case Write(i, chunk, count) =>
      At(w, i) && w.writers[i].phase.Writing? && w.writers[i].file.Some? && count <= |chunk|
    case GiveUp(i, error) =>
      At(w, i) && ((w.writers[i].phase.Writing? && (error.Stopping? || error.BodyFailed?))
                   || (w.writers[i].phase.Publishing? && error.Stopping?))
    case Finish(i) => At(w, i) && w.writers[i].phase.Writing?
    case Publish(i, _) => At(w, i) && w.writers[i].phase.Publishing? && w.writers[i].file.Some?
    case Clean(i, _) => At(w, i) && w.writers[i].phase.Cleaning?
    case Drop(i, _) => At(w, i) && w.writers[i].phase.Dropping?
    case Leave(i) => At(w, i) && w.writers[i].phase.Leaving?
    case Release(i) => At(w, i) && w.writers[i].phase.Uncounted?
  }

  function Set(w: World, i: nat, x: Writer): World
    requires i < |w.writers|
  {
    w.(writers := w.writers[i := x])
  }

  /** `write_file` returns; the lease goes last. */
  function Return(w: World, i: nat, x: Writer, r: Outcome): World
    requires i < |w.writers|
  {
    Set(w, i, x.(phase := Leaving(r)))
  }

  function Max(a: int, b: int): int { if a >= b then a else b }

  function Arrival(dest: Bytes): Writer { Writer(dest, Arriving, [], None, [], 0, false, false) }

  /** `try_acquire_owned`. */
  function DoBegin(w: World, dest: Bytes): World {
    if w.taken >= w.permits then w.(writers := w.writers + [Arrival(dest).(phase := Done(Failed(Saturated)))])
    else w.(writers := w.writers + [Arrival(dest)], taken := w.taken + 1)
  }

  function DoCount(w: World, i: nat): World
    requires i < |w.writers|
  {
    Set(w, i, w.writers[i].(phase := Counted(w.active + 1))).(active := w.active + 1)
  }

  function DoMark(w: World, i: nat): World
    requires i < |w.writers| && w.writers[i].phase.Counted?
  {
    Set(w, i, w.writers[i].(phase := Creating(0))).(highWater := Max(w.highWater, w.writers[i].phase.current))
  }

  /** `SinkLease::drop`; the permit it holds is dropped after it. */
  function DoLeave(w: World, i: nat): World
    requires i < |w.writers| && w.writers[i].phase.Leaving?
  {
    Set(w, i, w.writers[i].(phase := Uncounted(w.writers[i].phase.result)))
      .(active := w.active - 1, fault := w.fault || w.active <= 0)
  }

  function DoRelease(w: World, i: nat): World
    requires i < |w.writers| && w.writers[i].phase.Uncounted?
  {
    Set(w, i, w.writers[i].(phase := Done(w.writers[i].phase.result))).(taken := w.taken - 1)
  }

  function DoCreate(w: World, i: nat, name: Bytes, fails: bool): World
    requires i < |w.writers| && w.writers[i].phase.Creating?
  {
    var x := w.writers[i];
    if fails then Return(w, i, x, Failed(Io))
    else if name in w.dir then
      if x.phase.attempts + 1 >= STAGING_CREATE_ATTEMPTS then Return(w, i, x, Failed(Io))
      else Set(w, i, x.(phase := Creating(x.phase.attempts + 1)))
    else
      Set(w, i, x.(phase := Writing, name := name, file := Some(|w.files|), staged := true))
        .(dir := w.dir[name := |w.files|], files := w.files + [[]])
  }

  function DoWrite(w: World, i: nat, chunk: Bytes, count: nat): World
    requires i < |w.writers| && w.writers[i].file.Some? && w.writers[i].file.value < |w.files| && count <= |chunk|
  {
    var x := w.writers[i];
    var f := x.file.value;
    if x.bytesWritten + |chunk| >= U64 then Set(w, i, x.(phase := Cleaning(Failed(Io))))
    else if count < |chunk| then
      Set(w, i, x.(phase := Cleaning(Failed(Io)))).(files := w.files[f := w.files[f] + chunk[..count]])
    else
      Set(w, i, x.(chunks := x.chunks + [chunk], bytesWritten := x.bytesWritten + |chunk|))
        .(files := w.files[f := w.files[f] + chunk])
  }

  function DoPublish(w: World, i: nat, fails: bool): World
    requires i < |w.writers| && w.writers[i].file.Some?
  {
    var x := w.writers[i];
    if x.dest in w.dir then Set(w, i, x.(phase := Cleaning(Failed(DestinationExists))))
    else if fails then Set(w, i, x.(phase := Cleaning(Failed(PublishFailed))))
    else Set(w, i, x.(phase := Cleaning(Ok(x.bytesWritten)), published := true)).(dir := w.dir[x.dest := x.file.value])
  }

  function Unlinked(w: World, i: nat): World
    requires i < |w.writers|
  {
    w.(dir := w.dir - {w.writers[i].name})
  }

  function DoClean(w: World, i: nat, fails: bool): World
    requires i < |w.writers| && w.writers[i].phase.Cleaning?
  {
    var x := w.writers[i];
    if fails then Set(w, i, x.(phase := Dropping))
    else Return(Unlinked(w, i), i, x.(staged := false), x.phase.outcome)
  }

  function DoDrop(w: World, i: nat, fails: bool): World
    requires i < |w.writers|
  {
    var x := w.writers[i];
    if fails then Return(w, i, x, Failed(CleanupFailed))
    else Return(Unlinked(w, i), i, x.(staged := false), Failed(CleanupFailed))
  }

  function Next(w: World, a: Action): World
    requires Enabled(w, a)
  {
    match a
    case Begin(dest) => DoBegin(w, dest)
    case Count(i) => DoCount(w, i)
    case Mark(i) => DoMark(w, i)
    case Create(i, name, fails) => DoCreate(w, i, name, fails)
    case Write(i, chunk, count) => DoWrite(w, i, chunk, count)
    case GiveUp(i, error) => Set(w, i, w.writers[i].(phase := Cleaning(Failed(error))))
    case Finish(i) => Set(w, i, w.writers[i].(phase := Publishing))
    case Publish(i, fails) => DoPublish(w, i, fails)
    case Clean(i, fails) => DoClean(w, i, fails)
    case Drop(i, fails) => DoDrop(w, i, fails)
    case Leave(i) => DoLeave(w, i)
    case Release(i) => DoRelease(w, i)
  }

  // -------------------------------------------------------------- invariant

  /** What a writer knows about itself. */
  predicate PhaseOk(x: Writer) {
    && SafeSegment(x.dest)
    && (x.staged ==> IsStaging(x.name) && x.file.Some?) && (x.published ==> x.file.Some?)
    && match x.phase
       case Arriving => x == Arrival(x.dest)
       case Counted(_) => x == Arrival(x.dest).(phase := x.phase)
       case Creating(_) => x == Arrival(x.dest).(phase := x.phase)
       case Writing => x.staged && !x.published
       case Publishing => x.staged && !x.published
       case Cleaning(r) =>
         x.staged && x.published == r.Ok? && r != Failed(CleanupFailed) && (r.Ok? ==> r == Ok(x.bytesWritten))
       case Dropping => x.staged
       case Leaving(r) => ResultOk(x, r)
       case Uncounted(r) => ResultOk(x, r)
       case Done(r) => ResultOk(x, r)
  }

  predicate ResultOk(x: Writer, r: Outcome) {
    && (r.Ok? ==> x.published && !x.staged && r == Ok(x.bytesWritten))
    && (r.Failed? && r != Failed(CleanupFailed) ==> !x.published && !x.staged)
  }

  /** Its names lead to its file, which holds what it wrote. */
  predicate LinksOk(w: World, x: Writer) {
    && (x.file.Some? ==> |w.original| <= x.file.value < |w.files|)
    && (x.staged ==> x.name in w.dir && x.file == Some(w.dir[x.name]))
    && (x.published ==> x.dest in w.dir && x.file == Some(w.dir[x.dest]))
    && (x.file.Some? && (x.phase.Writing? || x.phase.Publishing? || x.published) ==>
          w.files[x.file.value] == Flat(x.chunks) && x.bytesWritten == |Flat(x.chunks)|)
  }

  predicate WriterOk(w: World, i: nat)
    requires i < |w.writers|
  {
    PhaseOk(w.writers[i]) && LinksOk(w, w.writers[i])
  }

  predicate Distinct(w: World) {
    forall i, j :: 0 <= i < j < |w.writers| && w.writers[i].file.Some? && w.writers[j].file.Some? ==>
      w.writers[i].file != w.writers[j].file
  }

  /** A name in the directory was there before, or is a writer's. */
  predicate Explains(w: World, n: Bytes, x: Writer) {
    n in w.dir && x.file == Some(w.dir[n]) && ((x.staged && n == x.name) || (x.published && n == x.dest))
  }

  predicate Known(w: World, n: Bytes) {
    n in w.before || exists i :: 0 <= i < |w.writers| && Explains(w, n, w.writers[i])
  }

  predicate DirOk(w: World) {
    && w.original <= w.files
    && (forall n :: n in w.before ==> w.before[n] < |w.original| && n in w.dir && w.dir[n] == w.before[n])
    && (forall n :: n in w.dir ==> Known(w, n))
  }

  /** Has a permit. */
  function Holding(x: Writer): Option<nat> { if x.phase.Done? then None else Some(0) }

  /** Is counted as active. */
  function InUse(x: Writer): Option<nat> {
    if x.phase.Arriving? || x.phase.Uncounted? || x.phase.Done? then None else Some(0)
  }

  /** Every writer that is active is under the mark, or one that will raise it is coming. */
  predicate Peaked(w: World) {
    w.active <= w.highWater
    || exists i :: 0 <= i < |w.writers| && w.writers[i].phase.Counted? && w.writers[i].phase.current >= w.active
  }

  predicate Leases(w: World) {
    && w.taken == Size(w.writers, Holding) <= w.permits && w.active == Size(w.writers, InUse)
    && w.highWater <= w.permits && Peaked(w) && !w.fault
    && forall i :: 0 <= i < |w.writers| && w.writers[i].phase.Counted? ==> w.writers[i].phase.current <= w.permits
  }

  predicate Inv(w: World) {
    && (forall i :: 0 <= i < |w.writers| ==> WriterOk(w, i))
    && Distinct(w) && DirOk(w) && Leases(w)
  }

  // ---------------------------------------------------- one writer takes a step

  /** The step of writer `i` to `x'` touches only its own file and its own names. */
  predicate Local(w: World, w': World, i: nat, x': Writer)
    requires i < |w.writers|
  {
    var x := w.writers[i];
    && w'.writers == w.writers[i := x'] && w'.before == w.before && w'.original == w.original
    && x'.dest == x.dest && (x.published ==> x'.published)
    && (x'.file == x.file || (x.file.None? && x'.file == Some(|w.files|)))
    && |w.files| <= |w'.files|
    && (forall f: nat :: f < |w.files| && x.file != Some(f) ==> w'.files[f] == w.files[f])
    && (forall n :: n in w.dir && !(x.staged && n == x.name) ==> n in w'.dir && w'.dir[n] == w.dir[n])
    && (x.staged && x.name in w'.dir ==> x'.staged && x'.name == x.name)
    && (forall n :: n in w'.dir && n !in w.dir ==> Explains(w', n, x'))
  }

  lemma OtherLinks(w: World, w': World, i: nat, x': Writer, j: nat)
    requires Inv(w) && i < |w.writers| && j < |w.writers| && j != i && Local(w, w', i, x')
    ensures WriterOk(w', j)
  {
    var x, y := w.writers[i], w.writers[j];
    assert WriterOk(w, i) && WriterOk(w, j);
    assert y.file.Some? ==> x.file != y.file;
    assert y.staged && x.staged ==> y.name != x.name;
    if y.published && x.staged {
      StagingIsNoDestination(x.name);
    }
  }

  lemma LocalDir(w: World, w': World, i: nat, x': Writer)
    requires Inv(w) && i < |w.writers| && Local(w, w', i, x') && PhaseOk(x') && LinksOk(w', x')
    ensures DirOk(w')
  {
    var x := w.writers[i];
    assert WriterOk(w, i);
    forall n | n in w.before ensures n in w'.dir && w'.dir[n] == w.before[n] {
      assert !(x.staged && n == x.name);
    }
    forall n | n in w'.dir ensures Known(w', n) {
      if n !in w.dir {
        assert Explains(w', n, w'.writers[i]);
      } else if n !in w.before {
        assert Known(w, n);
        var j :| 0 <= j < |w.writers| && Explains(w, n, w.writers[j]);
        assert WriterOk(w, j);
        if j != i {
          assert w.writers[j].file != x.file;
          assert Explains(w', n, w'.writers[j]);
        } else {
          if x.staged && x.published {
            StagingIsNoDestination(x.name);
          }
          assert Explains(w', n, w'.writers[i]);
        }
      }
    }
    assert forall f: nat :: f < |w.original| ==> w'.files[f] == w.files[f];
  }

  lemma LocalKeeps(w: World, w': World, i: nat, x': Writer)
    requires Inv(w) && i < |w.writers| && Local(w, w', i, x') && PhaseOk(x') && LinksOk(w', x')
    ensures forall j :: 0 <= j < |w'.writers| ==> WriterOk(w', j)
    ensures Distinct(w') && DirOk(w')
  {
    LocalDir(w, w', i, x');
    forall j | 0 <= j < |w'.writers| ensures WriterOk(w', j) {
      if j != i {
        OtherLinks(w, w', i, x', j);
      }
    }
    forall j, k | 0 <= j < k < |w'.writers| && w'.writers[j].file.Some? && w'.writers[k].file.Some?
      ensures w'.writers[j].file != w'.writers[k].file
    {
      assert WriterOk(w, j) && WriterOk(w, k);
    }
  }

  /** Between counting and leaving, a step changes nothing about the leases. */
  lemma LeaseKept(w: World, w': World, i: nat, x': Writer)
    requires Leases(w) && i < |w.writers| && w'.writers == w.writers[i := x']
    requires Holding(x').Some? && Holding(w.writers[i]).Some? && InUse(x').Some? && InUse(w.writers[i]).Some?
    requires !w.writers[i].phase.Counted? && !x'.phase.Counted?
    requires w'.permits == w.permits && w'.taken == w.taken && w'.active == w.active && w'.highWater == w.highWater
    requires w'.fault == w.fault
    ensures Leases(w')
  {
    Update(w.writers, Holding, i, x', 0);
    Update(w.writers, InUse, i, x', 0);
    PeakedElse(w, w', i);
  }

  lemma PeakedElse(w: World, w': World, i: nat)
    requires Peaked(w) && i < |w.writers| == |w'.writers| && w'.writers == w.writers[i := w'.writers[i]]
    requires w'.active <= w.active && w.highWater <= w'.highWater
    requires w.writers[i].phase.Counted? ==> w.writers[i].phase.current <= w'.highWater
    ensures Peaked(w')
  {
    if w.active > w.highWater {
      var k :| 0 <= k < |w.writers| && w.writers[k].phase.Counted? && w.writers[k].phase.current >= w.active;
      assert k != i ==> w'.writers[k].phase.Counted? && w'.writers[k].phase.current >= w'.active;
    }
  }

  /** Whoever is counted has a permit; a writer that has one and is not counted is left over. */
  lemma CountedHold(writers: seq<Writer>, i: nat)
    requires i < |writers| && InUse(writers[i]).None? && Holding(writers[i]).Some?
    ensures Size(writers, InUse) + 1 <= Size(writers, Holding)
  {
    Split(writers, InUse, i, 0);
    Split(writers, Holding, i, 0);
    SizeMono(writers[..i], InUse, Holding);
    SizeMono(writers[i + 1..], InUse, Holding);
  }

  // ------------------------------------------------------------------- steps

  /** A new writer without a file changes nothing for the others. */
  lemma ArrivalKeeps(w: World, w': World, x: Writer)
    requires Inv(w) && w'.writers == w.writers + [x] && PhaseOk(x) && x.file.None?
    requires w'.before == w.before && w'.original == w.original && w'.dir == w.dir && w'.files == w.files
    ensures forall j :: 0 <= j < |w'.writers| ==> WriterOk(w', j)
    ensures Distinct(w') && DirOk(w')
  {
    forall j | 0 <= j < |w'.writers| ensures WriterOk(w', j) {
      assert j < |w.writers| ==> WriterOk(w, j);
    }
    forall n | n in w'.dir ensures Known(w', n) {
      assert Known(w, n);
      if n !in w.before {
        var j :| 0 <= j < |w.writers| && Explains(w, n, w.writers[j]);
        assert w'.writers[j] == w.writers[j];
        assert Explains(w', n, w'.writers[j]);
      }
    }
  }

  lemma BeginKeeps(w: World, dest: Bytes)
    requires Inv(w) && SafeSegment(dest)
    ensures Inv(DoBegin(w, dest))
  {
    var x := if w.taken >= w.permits then Arrival(dest).(phase := Done(Failed(Saturated))) else Arrival(dest);
    var w' := DoBegin(w, dest);
    assert w'.writers == w.writers + [x] && PhaseOk(x);
    ArrivalKeeps(w, w', x);
    BeginLeases(w, w', x);
  }

  lemma BeginLeases(w: World, w': World, x: Writer)
    requires Leases(w) && w'.writers == w.writers + [x] && InUse(x).None? && !x.phase.Counted?
    requires w' == w.(writers := w'.writers, taken := w'.taken)
    requires w'.taken == w.taken + (if x.phase.Done? then 0 else 1) && w'.taken <= w.permits
    ensures Leases(w')
  {
    Append(w.writers, Holding, x, 0);
    Append(w.writers, InUse, x, 0);
    if w.active > w.highWater {
      var k :| 0 <= k < |w.writers| && w.writers[k].phase.Counted? && w.writers[k].phase.current >= w.active;
      assert w'.writers[k] == w.writers[k];
    }
  }

  /** Only the phase of one writer changes, and counters. */
  lemma PhaseLocal(w: World, w': World, i: nat, x': Writer)
    requires Inv(w) && i < |w.writers| && w'.writers == w.writers[i := x']
    requires x' == w.writers[i].(phase := x'.phase) && PhaseOk(x')
    requires x'.phase.Writing? || x'.phase.Publishing? ==> w.writers[i].phase.Writing?
    requires w'.before == w.before && w'.original == w.original && w'.dir == w.dir && w'.files == w.files
    ensures forall j :: 0 <= j < |w'.writers| ==> WriterOk(w', j)
    ensures Distinct(w') && DirOk(w')
  {
    assert WriterOk(w, i);
    LocalKeeps(w, w', i, x');
  }

  lemma CountKeeps(w: World, i: nat)
    requires Inv(w) && Enabled(w, Count(i))
    ensures Inv(DoCount(w, i))
  {
    var w' := DoCount(w, i);
    assert WriterOk(w, i);
    PhaseLocal(w, w', i, w'.writers[i]);
    CountedHold(w.writers, i);
    Update(w.writers, Holding, i, w'.writers[i], 0);
    Update(w.writers, InUse, i, w'.writers[i], 0);
    assert w'.writers[i].phase.Counted? && w'.writers[i].phase.current >= w'.active;
  }

  lemma MarkKeeps(w: World, i: nat)
    requires Inv(w) && Enabled(w, Mark(i))
    ensures Inv(DoMark(w, i))
  {
    var w' := DoMark(w, i);
    assert WriterOk(w, i);
    PhaseLocal(w, w', i, w'.writers[i]);
    Update(w.writers, Holding, i, w'.writers[i], 0);
    Update(w.writers, InUse, i, w'.writers[i], 0);
    PeakedElse(w, w', i);
  }

  /** The count never goes below zero. */
  lemma LeaveKeeps(w: World, i: nat)
    requires Inv(w) && Enabled(w, Leave(i))
    ensures Inv(DoLeave(w, i))
  {
    var w' := DoLeave(w, i);
    assert WriterOk(w, i);
    PhaseLocal(w, w', i, w'.writers[i]);
    Has(w.writers, InUse, i, 0);
    Update(w.writers, Holding, i, w'.writers[i], 0);
    Update(w.writers, InUse, i, w'.writers[i], 0);
    PeakedElse(w, w', i);
  }

  lemma ReleaseKeeps(w: World, i: nat)
    requires Inv(w) && Enabled(w, Release(i))
    ensures Inv(DoRelease(w, i))
  {
    var w' := DoRelease(w, i);
    assert WriterOk(w, i);
    PhaseLocal(w, w', i, w'.writers[i]);
    Update(w.writers, Holding, i, w'.writers[i], 0);
    Update(w.writers, InUse, i, w'.writers[i], 0);
    PeakedElse(w, w', i);
  }

  /** Steps that only change the phase of a writer at work. */
  lemma PhaseStepKeeps(w: World, w': World, i: nat, x': Writer)
    requires Inv(w) && i < |w.writers| && InUse(w.writers[i]).Some? && !w.writers[i].phase.Counted?
    requires x' == w.writers[i].(phase := x'.phase) && PhaseOk(x') && InUse(x').Some? && !x'.phase.Counted?
    requires x'.phase.Writing? || x'.phase.Publishing? ==> w.writers[i].phase.Writing?
    requires w' == Set(w, i, x')
    ensures Inv(w')
  {
    PhaseLocal(w, w', i, x');
    LeaseKept(w, w', i, x');
  }

  lemma CreateKeeps(w: World, i: nat, name: Bytes, fails: bool)
    requires Inv(w) && Enabled(w, Create(i, name, fails))
    ensures Inv(DoCreate(w, i, name, fails))
  {
    var x, w' := w.writers[i], DoCreate(w, i, name, fails);
    var x' := w'.writers[i];
    assert WriterOk(w, i);
    if fails || name in w.dir {
      PhaseStepKeeps(w, w', i, x');
    } else {
      CreateFresh(w, i, name);
    }
  }

  /** A file that was just created. */
  lemma CreateFresh(w: World, i: nat, name: Bytes)
    requires Inv(w) && Enabled(w, Create(i, name, false)) && name !in w.dir && w.writers[i].chunks == []
    requires w.writers[i].bytesWritten == 0
    ensures Inv(DoCreate(w, i, name, false))
  {
    var w' := DoCreate(w, i, name, false);
    var x' := w'.writers[i];
    assert WriterOk(w, i);
    assert Explains(w', name, x');
    LocalKeeps(w, w', i, x');
    LeaseKept(w, w', i, x');
  }

  /** A chunk is written, and the writer goes on. */
  lemma ChunkKeeps(w: World, w': World, i: nat, chunk: Bytes)
    requires Inv(w) && i < |w.writers| && w.writers[i].phase.Writing? && WriterOk(w, i)
    requires var x := w.writers[i]; var f := x.file.value;
      w' == Set(w, i, x.(chunks := x.chunks + [chunk], bytesWritten := x.bytesWritten + |chunk|))
              .(files := w.files[f := w.files[f] + chunk])
    ensures Inv(w')
  {
    var x' := w'.writers[i];
    assert w'.files[x'.file.value] == Flat(x'.chunks) by {
      FlatOne(w.writers[i].chunks, chunk);
    }
    assert x'.bytesWritten == |Flat(x'.chunks)|;
    assert PhaseOk(x') && LinksOk(w', x') && Local(w, w', i, x');
    LocalKeeps(w, w', i, x');
    LeaseKept(w, w', i, x');
  }

  /** A chunk is cut short, and the writer cleans up. */
  lemma CutKeeps(w: World, w': World, i: nat, data: Bytes)
    requires Inv(w) && i < |w.writers| && w.writers[i].phase.Writing? && WriterOk(w, i)
    requires var x := w.writers[i]; var f := x.file.value;
      w' == Set(w, i, x.(phase := Cleaning(Failed(Io)))).(files := w.files[f := w.files[f] + data])
    ensures Inv(w')
  {
    LocalKeeps(w, w', i, w'.writers[i]);
    LeaseKept(w, w', i, w'.writers[i]);
  }

  lemma WriteKeeps(w: World, i: nat, chunk: Bytes, count: nat)
    requires Inv(w) && Enabled(w, Write(i, chunk, count))
    ensures Inv(DoWrite(w, i, chunk, count))
  {
    var w' := DoWrite(w, i, chunk, count);
    assert WriterOk(w, i);
    if w.writers[i].bytesWritten + |chunk| >= U64 {
      PhaseStepKeeps(w, w', i, w'.writers[i]);
    } else if count < |chunk| {
      CutKeeps(w, w', i, chunk[..count]);
    } else {
      ChunkKeeps(w, w', i, chunk);
    }
  }

  lemma PublishKeeps(w: World, i: nat, fails: bool)
    requires Inv(w) && Enabled(w, Publish(i, fails))
    ensures Inv(DoPublish(w, i, fails))
  {
    var w' := DoPublish(w, i, fails);
    var x' := w'.writers[i];
    assert WriterOk(w, i);
    assert x'.published ==> Explains(w', x'.dest, x');
    LocalKeeps(w, w', i, x');
    LeaseKept(w, w', i, x');
  }

  /** Removing its own staging name, which is not its destination. */
  lemma RemovalKeeps(w: World, i: nat, r: Outcome)
    requires Inv(w) && i < |w.writers| && (w.writers[i].phase.Cleaning? || w.writers[i].phase.Dropping?)
    requires w.writers[i].staged && PhaseOk(w.writers[i].(staged := false, phase := Leaving(r)))
    ensures Inv(Return(Unlinked(w, i), i, w.writers[i].(staged := false), r))
  {
    var x := w.writers[i];
    var w' := Return(Unlinked(w, i), i, x.(staged := false), r);
    var x' := w'.writers[i];
    assert WriterOk(w, i);
    StagingIsNoDestination(x.name);
    LocalKeeps(w, w', i, x');
    LeaseKept(w, w', i, x');
  }

  lemma CleanKeeps(w: World, i: nat, fails: bool)
    requires Inv(w) && Enabled(w, Clean(i, fails))
    ensures Inv(DoClean(w, i, fails))
  {
    assert WriterOk(w, i);
    if fails {
      PhaseStepKeeps(w, DoClean(w, i, fails), i, DoClean(w, i, fails).writers[i]);
    } else {
      RemovalKeeps(w, i, w.writers[i].phase.outcome);
    }
  }

  lemma DropKeeps(w: World, i: nat, fails: bool)
    requires Inv(w) && Enabled(w, Drop(i, fails))
    ensures Inv(DoDrop(w, i, fails))
  {
    assert WriterOk(w, i);
    if fails {
      PhaseStepKeeps(w, DoDrop(w, i, fails), i, DoDrop(w, i, fails).writers[i]);
    } else {
      RemovalKeeps(w, i, Failed(CleanupFailed));
    }
  }

  lemma StepKeeps(w: World, a: Action)
    requires Inv(w) && Enabled(w, a)
    ensures Inv(Next(w, a))
  {
    match a {
      case Begin(dest) => BeginKeeps(w, dest);
      case Count(i) => CountKeeps(w, i);
      case Mark(i) => MarkKeeps(w, i);
      case Create(i, name, fails) => CreateKeeps(w, i, name, fails);
      case Write(i, chunk, count) => WriteKeeps(w, i, chunk, count);
      case GiveUp(i, error) =>
        assert WriterOk(w, i);
        PhaseStepKeeps(w, Next(w, a), i, Next(w, a).writers[i]);
      case Finish(i) =>
        assert WriterOk(w, i);
        PhaseStepKeeps(w, Next(w, a), i, Next(w, a).writers[i]);
      case Publish(i, fails) => PublishKeeps(w, i, fails);
      case Clean(i, fails) => CleanKeeps(w, i, fails);
      case Drop(i, fails) => DropKeeps(w, i, fails);
      case Leave(i) => LeaveKeeps(w, i);
      case Release(i) => ReleaseKeeps(w, i);
    }
  }

  // ----------------------------------------------------------- files stay put

  /** A file under a name that is no staging name keeps its place and its contents. */
  predicate FilesKept(w: World, w': World) {
    forall n :: n in w.dir && !IsStaging(n) ==>
      && n in w'.dir && w'.dir[n] == w.dir[n]
      && w.dir[n] < |w.files| && w.dir[n] < |w'.files| && w'.files[w.dir[n]] == w.files[w.dir[n]]
  }

  /** A public file is not the one of a writer that is still writing. */
  lemma PublicIsDone(w: World, i: nat, n: Bytes)
    requires Inv(w) && i < |w.writers| && w.writers[i].phase.Writing? && n in w.dir && !IsStaging(n)
    ensures w.dir[n] < |w.files| && w.writers[i].file != Some(w.dir[n])
  {
    assert WriterOk(w, i);
    assert Known(w, n);
    if n !in w.before {
      var j :| 0 <= j < |w.writers| && Explains(w, n, w.writers[j]);
      assert WriterOk(w, j);
    }
  }

  lemma PublicExists(w: World, n: Bytes)
    requires Inv(w) && n in w.dir
    ensures w.dir[n] < |w.files|
  {
    assert Known(w, n);
    if n !in w.before {
      var j :| 0 <= j < |w.writers| && Explains(w, n, w.writers[j]);
      assert WriterOk(w, j);
    }
  }

  lemma WriteKeepsFiles(w: World, i: nat, chunk: Bytes, count: nat)
    requires Inv(w) && Enabled(w, Write(i, chunk, count))
    ensures FilesKept(w, DoWrite(w, i, chunk, count))
  {
    var w' := DoWrite(w, i, chunk, count);
    forall n | n in w.dir && !IsStaging(n)
      ensures w.dir[n] < |w.files| && w'.files[w.dir[n]] == w.files[w.dir[n]]
    {
      PublicIsDone(w, i, n);
    }
  }

  lemma UnlinkKeepsFiles(w: World, w': World, i: nat)
    requires Inv(w) && i < |w.writers| && w.writers[i].staged && w'.files == w.files
    requires w'.dir == w.dir || w'.dir == w.dir - {w.writers[i].name}
    ensures FilesKept(w, w')
  {
    assert WriterOk(w, i);
    FilesKeptSelf(w);
  }

  /** A step that only adds names and files. */
  lemma AddKeepsFiles(w: World, w': World)
    requires Inv(w) && w.files <= w'.files
    requires forall n :: n in w.dir ==> n in w'.dir && w'.dir[n] == w.dir[n]
    ensures FilesKept(w, w')
  {
    FilesKeptSelf(w);
  }

  lemma StepKeepsFiles(w: World, a: Action)
    requires Inv(w) && Enabled(w, a)
    ensures FilesKept(w, Next(w, a))
  {
    match a {
      case Write(i, chunk, count) => WriteKeepsFiles(w, i, chunk, count);
      case Clean(i, _) =>
        assert WriterOk(w, i);
        UnlinkKeepsFiles(w, Next(w, a), i);
      case Drop(i, _) =>
        assert WriterOk(w, i);
        UnlinkKeepsFiles(w, Next(w, a), i);
      case _ => AddKeepsFiles(w, Next(w, a));
    }
  }

  // ----------------------------------------------------------------- theorems

  ghost predicate Step(w: World, w': World) { exists a :: Enabled(w, a) && Next(w, a) == w' }

  /** The directory at the start has only existing files. */
  predicate ValidStart(dir: map<Bytes, nat>, files: seq<Bytes>) { forall n :: n in dir ==> dir[n] < |files| }

  ghost predicate IsRun(run: seq<World>) {
    && run != [] && run[0] == Initial(run[0].before, run[0].original, run[0].permits)
    && ValidStart(run[0].before, run[0].original)
    && forall i :: 0 <= i < |run| - 1 ==> Step(run[i], run[i + 1])
  }

  /** A longer run is a run and one more step. */
  lemma LastStep(run: seq<World>) returns (a: Action)
    requires IsRun(run) && |run| > 1
    ensures IsRun(run[..|run| - 1])
    ensures Enabled(run[|run| - 2], a) && Next(run[|run| - 2], a) == run[|run| - 1]
  {
    assert Step(run[|run| - 2], run[|run| - 1]);
    a :| Enabled(run[|run| - 2], a) && Next(run[|run| - 2], a) == run[|run| - 1];
  }

  lemma {:induction false} InvAlways(run: seq<World>)
    requires IsRun(run)
    ensures Inv(run[|run| - 1])
    decreases |run|
  {
    if |run| > 1 {
      var a := LastStep(run);
      InvAlways(run[..|run| - 1]);
      StepKeeps(run[|run| - 2], a);
    }
  }

  /** Once a file is in place under its name, no later step of any writer changes it. */
  lemma {:induction false} PublishedFilesNeverChange(run: seq<World>, k: nat)
    requires IsRun(run) && k < |run|
    ensures FilesKept(run[k], run[|run| - 1])
    decreases |run|
  {
    if k == |run| - 1 {
      InvAlways(run);
      FilesKeptSelf(run[k]);
    } else {
      var before, after := run[|run| - 2], run[|run| - 1];
      var a := LastStep(run);
      InvAlways(run[..|run| - 1]);
      PublishedFilesNeverChange(run[..|run| - 1], k);
      StepKeepsFiles(before, a);
      FilesKeptTwice(run[k], before, after);
    }
  }

  lemma FilesKeptSelf(w: World)
    requires Inv(w)
    ensures FilesKept(w, w)
  {
    forall n | n in w.dir ensures w.dir[n] < |w.files| {
      PublicExists(w, n);
    }
  }

  lemma FilesKeptTwice(a: World, b: World, c: World)
    requires FilesKept(a, b) && FilesKept(b, c)
    ensures FilesKept(a, c)
  {
    forall n | n in a.dir && !IsStaging(n)
      ensures n in c.dir && c.dir[n] == a.dir[n]
      ensures a.dir[n] < |a.files| && a.dir[n] < |c.files| && c.files[a.dir[n]] == a.files[a.dir[n]]
    {
      assert n in b.dir && b.dir[n] == a.dir[n];
    }
  }

  predicate Succeeded(x: Writer) { x.phase.Done? && x.phase.result.Ok? }

  /** It returned an error, and not the one that says that cleaning up failed. */
  predicate FailedCleanly(x: Writer) {
    x.phase.Done? && x.phase.result.Failed? && x.phase.result != Failed(CleanupFailed)
  }

  /** In every run: files that were there stay as they are; two writers that return Ok
      have different destinations; an Ok destination holds exactly the chunks, and the
      result is their length; every other error leaves no name for the writer's file;
      and the diagnostics count at most the permits, never below zero. */
  lemma RunsKeepPromises(run: seq<World>)
    requires IsRun(run)
    ensures var w := run[|run| - 1];
      && FilesKept(run[0], w)
      && (forall i, j :: 0 <= i < j < |w.writers| && Succeeded(w.writers[i]) && Succeeded(w.writers[j]) ==>
            w.writers[i].dest != w.writers[j].dest)
      && (forall i :: 0 <= i < |w.writers| && Succeeded(w.writers[i]) ==> Delivered(w, w.writers[i]))
      && (forall i :: 0 <= i < |w.writers| && FailedCleanly(w.writers[i]) ==> Traceless(w, w.writers[i]))
      && w.taken == Size(w.writers, Holding) && w.active == Size(w.writers, InUse)
      && 0 <= w.active <= w.taken <= w.permits && w.highWater <= w.permits && !w.fault
      && ((forall i :: 0 <= i < |w.writers| ==> !w.writers[i].phase.Counted?) ==> w.active <= w.highWater)
  {
    InvAlways(run);
    PublishedFilesNeverChange(run, 0);
    var w := run[|run| - 1];
    SizeMono(w.writers, InUse, Holding);
    forall i, j | 0 <= i < j < |w.writers| && Succeeded(w.writers[i]) && Succeeded(w.writers[j])
      ensures w.writers[i].dest != w.writers[j].dest
    {
      assert WriterOk(w, i) && WriterOk(w, j);
    }
    forall i | 0 <= i < |w.writers| && Succeeded(w.writers[i]) ensures Delivered(w, w.writers[i]) {
      assert WriterOk(w, i);
    }
    forall i | 0 <= i < |w.writers| && FailedCleanly(w.writers[i]) ensures Traceless(w, w.writers[i]) {
      FailureIsTraceless(w, i);
    }
  }

  /** The destination holds the chunks, and the result counts them. */
  predicate Delivered(w: World, x: Writer) {
    && x.dest in w.dir && w.dir[x.dest] < |w.files|
    && w.files[w.dir[x.dest]] == Flat(x.chunks)
    && x.phase == Done(Ok(|Flat(x.chunks)|))
  }

  /** No name leads to the writer's file. */
  predicate Traceless(w: World, x: Writer) { forall n :: n in w.dir ==> x.file != Some(w.dir[n]) }

  lemma FailureIsTraceless(w: World, i: nat)
    requires Inv(w) && i < |w.writers| && FailedCleanly(w.writers[i])
    ensures Traceless(w, w.writers[i])
  {
    var x := w.writers[i];
    assert WriterOk(w, i);
    forall n | n in w.dir ensures x.file != Some(w.dir[n]) {
      assert Known(w, n);
      if n !in w.before {
        var j :| 0 <= j < |w.writers| && Explains(w, n, w.writers[j]);
        assert WriterOk(w, j);
      }
    }
  }

  /** When every writer has returned and none failed to clean up, the directory is what
      it was, with exactly the destinations of the successful writers added. */
  lemma FinalDirectory(run: seq<World>, n: Bytes)
    requires IsRun(run)
    requires var w := run[|run| - 1];
      forall i :: 0 <= i < |w.writers| ==> Succeeded(w.writers[i]) || FailedCleanly(w.writers[i])
    ensures var w := run[|run| - 1];
      n in w.dir <==>
      n in w.before || exists i :: 0 <= i < |w.writers| && Succeeded(w.writers[i]) && w.writers[i].dest == n
  {
    InvAlways(run);
    var w := run[|run| - 1];
    if n in w.dir && n !in w.before {
      assert Known(w, n);
      var j :| 0 <= j < |w.writers| && Explains(w, n, w.writers[j]);
      assert WriterOk(w, j);
      assert Succeeded(w.writers[j]);
    }
    if i :| 0 <= i < |w.writers| && Succeeded(w.writers[i]) && w.writers[i].dest == n {
      assert WriterOk(w, i);
    }
  }
}
