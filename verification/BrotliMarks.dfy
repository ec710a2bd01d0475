/**
  The high-water marks of the Brotli executor (src/brotli_executor.rs), in every run: a task
  counts itself and raises the mark in two separate atomic actions, and still the mark is the
  greatest value its counter ever had, as soon as no task is between the two.
*/
module BrotliMarks {
  import opened BrotliExecutor
  import opened BrotliRuns

  datatype Gauge = ActiveLanes | QueuedJobs | RunningJobs

  function Value(g: Gauge, s: State): int {
    match g
    case ActiveLanes => s.active
    case QueuedJobs => s.queued
    case RunningJobs => s.running
  }

  function Mark(g: Gauge, s: State): int {
    match g
    case ActiveLanes => s.activeHigh
    case QueuedJobs => s.queuedHigh
    case RunningJobs => s.runningHigh
  }

  /** The task has raised the counter and not yet the mark. */
  predicate Between(g: Gauge, p: Phase) {
    match g
    case ActiveLanes => p.Counted?
    case QueuedJobs => p.SubmitCounted?
    case RunningJobs => p.RunCounted?
  }

  /** The value it raised the counter to. */
  function Seen(p: Phase): int { if p.Counted? || p.SubmitCounted? || p.RunCounted? then p.current else 0 }

  /** How one step treats a counter and its mark, by what task `i` does. */
  predicate Raises(g: Gauge, s: State, s': State, i: nat) {
    && i < |s.tasks| == |s'.tasks|
    && (forall k :: 0 <= k < |s.tasks| && k != i ==> s'.tasks[k].phase == s.tasks[k].phase)
    && (var p, p' := s.tasks[i].phase, s'.tasks[i].phase;
        if Between(g, p) && p' != p then
          Mark(g, s') == Max(Mark(g, s), Seen(p)) && Value(g, s') <= Value(g, s) && !Between(g, p')
        else
          && Mark(g, s') == Mark(g, s)
          && (p' != p && Between(g, p') ==> Seen(p') == Value(g, s'))
          && (Value(g, s') <= Value(g, s) || (p' != p && Between(g, p'))))
  }

  lemma RaisesAdmit(g: Gauge, s: State, i: nat)
    requires InBounds(s, i)
    ensures Raises(g, s, AdvanceAdmit(s, i), i)
  {
  }

  lemma RaisesSubmit(g: Gauge, c: Config, s: State, i: nat)
    requires InBounds(s, i)
    ensures Raises(g, s, AdvanceSubmit(c, s, i), i)
  {
  }

  lemma RaisesJob(g: Gauge, s: State, i: nat)
    requires InBounds(s, i)
    ensures Raises(g, s, AdvanceJob(s, i), i)
  {
  }

  lemma RaisesReturn(g: Gauge, c: Config, s: State, i: nat)
    requires InBounds(s, i) && RoleOf(s.tasks[i].phase).Returns?
    ensures Raises(g, s, AdvanceReturn(c, s, i), i)
  {
  }

  predicate Counts(p: Phase) { p.Received? || p.Dequeued? || p.RunCounted? }

  lemma RaisesCount(g: Gauge, s: State, i: nat)
    requires InBounds(s, i) && Counts(s.tasks[i].phase)
    ensures Raises(g, s, AdvanceRun(s, i), i)
  {
  }

  lemma RaisesRun(g: Gauge, s: State, i: nat)
    requires InBounds(s, i)
    ensures Raises(g, s, AdvanceRun(s, i), i)
  {
    if Counts(s.tasks[i].phase) {
      RaisesCount(g, s, i);
    } else {
      assert AdvanceRun(s, i).runningHigh == s.runningHigh;
    }
  }

  lemma RaisesPublish(g: Gauge, s: State, i: nat)
    requires InBounds(s, i)
    ensures s.tasks[i].phase.Publishing? ==> Raises(g, s, DoPublish(s, i), i)
    ensures s.tasks[i].phase.Waking? ==> Raises(g, s, DoTakeWaker(s, i), i)
  {
  }

  lemma RaisesWorker(g: Gauge, s: State, i: nat)
    requires Enabled(s, Advance(i))
    ensures Raises(g, s, AdvanceWorker(s, i), i)
  {
    var p := s.tasks[i].phase;
    if p.Publishing? || p.Waking? {
      RaisesPublish(g, s, i);
    } else if !p.Waiting? && !p.Notifying? {
      RaisesRun(g, s, i);
    }
  }

  lemma RaisesStep(g: Gauge, c: Config, s: State, a: Action)
    requires Enabled(s, a) && !a.Admit?
    ensures Raises(g, s, Next(c, s, a), a.task)
  {
    if a.Advance? {
      RaisesAdmit(g, s, a.task);
      RaisesSubmit(g, c, s, a.task);
      RaisesJob(g, s, a.task);
      if RoleOf(s.tasks[a.task].phase).Returns? {
        RaisesReturn(g, c, s, a.task);
      }
      if a.task < c.workers {
        RaisesWorker(g, s, a.task);
      }
    }
  }

  // ------------------------------------------------------------- whole runs

  /** The greatest value the counter had in a run. */
  function Greatest(g: Gauge, run: seq<State>): int
    requires run != []
  {
    var v := Value(g, run[|run| - 1]);
    if |run| == 1 then v else Max(Greatest(g, run[..|run| - 1]), v)
  }

  /** Nothing is above `most`, and the mark has reached it or a task is about to raise it there. */
  ghost predicate Tracks(g: Gauge, s: State, most: int) {
    && Value(g, s) <= most && Mark(g, s) <= most
    && (forall i :: 0 <= i < |s.tasks| && Between(g, s.tasks[i].phase) ==> Seen(s.tasks[i].phase) <= most)
    && (Mark(g, s) == most
        || exists i :: 0 <= i < |s.tasks| && Between(g, s.tasks[i].phase) && Seen(s.tasks[i].phase) == most)
  }

  lemma RaisesTracks(g: Gauge, s: State, s': State, i: nat, most: int)
    requires Tracks(g, s, most) && Raises(g, s, s', i)
    ensures Tracks(g, s', Max(most, Value(g, s')))
  {
    var most' := Max(most, Value(g, s'));
    var p, p' := s.tasks[i].phase, s'.tasks[i].phase;
    forall k | 0 <= k < |s'.tasks| && Between(g, s'.tasks[k].phase) ensures Seen(s'.tasks[k].phase) <= most' {
      assert k != i ==> s'.tasks[k].phase == s.tasks[k].phase;
    }
    if most' > most {
      assert Between(g, s'.tasks[i].phase) && Seen(s'.tasks[i].phase) == most';
    } else if Mark(g, s) < most {
      var k :| 0 <= k < |s.tasks| && Between(g, s.tasks[k].phase) && Seen(s.tasks[k].phase) == most;
      assert k != i || p' == p ==> Between(g, s'.tasks[k].phase) && Seen(s'.tasks[k].phase) == most;
    }
  }

  lemma StepTracks(g: Gauge, c: Config, s: State, s': State, most: int)
    requires Tracks(g, s, most) && Step(c, s, s')
    ensures Tracks(g, s', Max(most, Value(g, s')))
  {
    var a :| Enabled(s, a) && s' == Next(c, s, a);
    if a.Admit? {
      assert forall k :: 0 <= k < |s.tasks| ==> s'.tasks[k] == s.tasks[k];
      if Mark(g, s) < most {
        var k :| 0 <= k < |s.tasks| && Between(g, s.tasks[k].phase) && Seen(s.tasks[k].phase) == most;
        assert s'.tasks[k] == s.tasks[k];
      }
    } else {
      RaisesStep(g, c, s, a);
      RaisesTracks(g, s, s', a.task, most);
    }
  }

  lemma {:induction false} TracksAlways(g: Gauge, c: Config, run: seq<State>)
    requires Run(c, run)
    ensures Tracks(g, run[|run| - 1], Greatest(g, run))
    decreases |run|
  {
    var n := |run| - 1;
    if n > 0 {
      assert Step(c, run[n - 1], run[n - 1 + 1]);
      TracksAlways(g, c, run[..n]);
      StepTracks(g, c, run[n - 1], run[n], Greatest(g, run[..n]));
    }
  }

  /** In every run each mark is at most the greatest value its counter has had, and equal to it
      unless a task has counted itself with that value and not yet raised the mark. */
  lemma MarksAreMaxima(g: Gauge, c: Config, run: seq<State>)
    requires Run(c, run)
    ensures var s, most := run[|run| - 1], Greatest(g, run);
      && Mark(g, s) <= most
      && (Mark(g, s) != most ==>
            exists i :: 0 <= i < |s.tasks| && Between(g, s.tasks[i].phase) && Seen(s.tasks[i].phase) == most)
      && ((forall i :: 0 <= i < |s.tasks| ==> !Between(g, s.tasks[i].phase)) ==> Mark(g, s) == most)
  {
    TracksAlways(g, c, run);
  }
}
