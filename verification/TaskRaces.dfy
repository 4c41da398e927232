/**
 Promoting takes no mutex of the task manager: what happens when the deferred tasks are promoted in the
 middle of another operation.
 */
module TaskRaces {
  import opened Options
  import opened Tasks
  import opened TaskRuns
  import M = TaskManagers

  /**
   Promoting between the two halves of a resubmission, which found nothing equivalent among the ready
   tasks and then looks at the deferred ones.
   */
  function RacedRetry(s: Run, written: bool): Run
    requires s.phase.Executing?
  {
    if Holds(s.tasks, s.phase.entry.task) then Step(Overtaken(s), Promote)
    else Saved(s.(phase := Idle, tasks := s.tasks + s.deferred, deferred := [s.phase.entry]), written)
  }

  /** No newer equivalent is about to be promoted past the failed task. */
  predicate RaceIsHarmless(s: Run)
    requires s.phase.Executing?
  {
    Holds(s.tasks, s.phase.entry.task) || !Holds(s.deferred, s.phase.entry.task)
  }

  lemma HarmlessRace(s: Run, written: bool)
    requires s.phase.Executing? && RaceIsHarmless(s)
    ensures var retry := Finish(M.NeedsRetry, written);
      RacedRetry(s, written) ==
        if Holds(s.tasks, s.phase.entry.task) then Step(Step(s, retry), Promote) else Step(Step(s, Promote), retry)
  {
    var e, promoted := s.phase.entry, Step(s, Promote);
    ResubmittedIs(s, written);
    if !Holds(s.tasks, e.task) {
      HoldsPending(s, e.task);
      ResubmittedIs(promoted, written);
      assert !Holds(promoted.tasks, e.task) && !Holds(promoted.deferred, e.task);
      assert Returned(promoted) == s.(phase := Idle, tasks := s.tasks + s.deferred, deferred := [e]);
    }
  }

  // Everything that waits is promoted and executed.
  lemma ExecutesAll(r: Run) returns (states: seq<Run>, events: seq<Event>)
    requires r.phase.Idle? && Pending(r) != []
    ensures IsRunFrom(r, states, events) && RestartsInOrder(states, events)
    ensures states[|events|].executed == r.executed + Pending(r)
  {
    var promoted := Step(r, Promote);
    assert promoted.tasks == Pending(r) && Pending(r)[..|Pending(r)|] == Pending(r);
    states, events := RunThrough(promoted, |Pending(r)| - 1);
    RunExtends(r, Promote, states, events);
    states, events := [r] + states, [Promote] + events;
  }

  lemma HarmfulRace(s: Run, written: bool)
    requires s.phase.Executing? && OlderThan(s.phase.entry, Pending(s)) && !RaceIsHarmless(s)
    ensures !DuplicateFree(Pending(RacedRetry(s, written))) && !StaysInOrder(RacedRetry(s, written))
  {
    var e, r := s.phase.entry, RacedRetry(s, written);
    var p :| p in s.deferred && Is(p.task, e.task);
    var k :| 0 <= k < |s.deferred| && s.deferred[k] == p;
    var q := Pending(r);
    assert q == s.tasks + s.deferred + [e] && q[|s.tasks| + k] == p && q[|q| - 1] == e;
    assert p in Pending(s) && e.stamp < p.stamp;
    var states, events := ExecutesAll(r);
    OutOfOrder(r.executed + q, |r.executed| + |s.tasks| + k, |r.executed| + |q| - 1);
  }

  /**
   A promotion in the middle of a resubmission amounts to one before or after it, keeps the queues free of
   duplicates, and keeps the order of execution for good, exactly when the failed task has an equivalent
   among the ready tasks or none among the deferred ones.
   */
  lemma RacedRetryIff(s: Run, written: bool)
    requires Inv(s) && InOrder(s) && s.phase.Executing?
    ensures DuplicateFree(Pending(RacedRetry(s, written))) <==> RaceIsHarmless(s)
    ensures StaysInOrder(RacedRetry(s, written)) <==> RaceIsHarmless(s)
  {
    if RaceIsHarmless(s) {
      HarmlessRace(s, written);
      if Holds(s.tasks, s.phase.entry.task) {
        TwoStepsStay(s, Finish(M.NeedsRetry, written), Promote);
      } else {
        TwoStepsStay(s, Promote, Finish(M.NeedsRetry, written));
      }
    } else {
      HarmfulRace(s, written);
    }
  }

  lemma TwoStepsStay(s: Run, first: Event, second: Event)
    requires Inv(s) && InOrder(s) && !first.Restart? && !second.Restart?
    requires Enabled(s, first) && Enabled(Step(s, first), second)
    ensures DuplicateFree(Pending(Step(Step(s, first), second))) && StaysInOrder(Step(Step(s, first), second))
  {
    StepKeepsInv(s, first);
    StepKeepsOrder(s, first);
    StepKeepsInv(Step(s, first), second);
    StepKeepsOrder(Step(s, first), second);
    InOrderStays(Step(Step(s, first), second));
  }

  /** Promoting between the two reads of a save: the deferred tasks are missing from both. */
  function TornSave(s: Run): Run {
    Step(s, Promote).(file := Some(s.tasks), stale := false)
  }

  lemma TornQueues(s: Run)
    ensures var r := TornSave(s);
      && Pending(r) == s.tasks + s.deferred && OnDisk(r) == s.tasks && Out(r) == Out(s) && InFlight(r) == InFlight(s)
      && Pending(Restarted(r)) == s.tasks && !r.stale
  {
  }

  /** Such a save is as good as any other exactly when nothing was deferred; a restart forgets what was. */
  lemma TornSaveIff(s: Run)
    requires Core(s)
    ensures Inv(TornSave(s)) <==> s.deferred == []
    ensures Pending(Restarted(TornSave(s))) == s.tasks
  {
    TornQueues(s);
    if s.deferred == [] {
      NothingTorn(s);
      SavedKeepsInv(s, true);
    } else {
      assert |Pending(TornSave(s))| > |OnDisk(TornSave(s))|;
    }
  }

  lemma NothingTorn(s: Run)
    requires s.deferred == []
    ensures TornSave(s) == Saved(s, true)
  {
    assert s.tasks + [] == s.tasks;
  }

  lemma NewerDeferred(s: Run)
    requires s.phase == Executing(Entry(OLD, 0)) && s.tasks == [] && s.deferred == [] && |s.submitted| == 1
    ensures var s' := Step(s, Submit(true, [NEW], true));
      s'.phase == s.phase && s'.tasks == [] && s'.deferred == [Entry(NEW, 1)]
  {
    assert AllPlaced(s, true, [NEW]) == Placed(s, true, NEW);
  }

  lemma RacedBehindNewer(s: Run)
    requires s.phase == Executing(Entry(OLD, 0)) && s.tasks == [] && s.deferred == [Entry(NEW, 1)]
    ensures Pending(RacedRetry(s, true)) == [Entry(NEW, 1), Entry(OLD, 0)] && !StaysInOrder(RacedRetry(s, true))
  {
    assert s.deferred[0] in s.deferred && Is(NEW, OLD);
    assert Pending(s) == [Entry(NEW, 1)];
    HarmfulRace(s, true);
  }

  /** An old task fails while a newer one is deferred and promoted: the old one runs again after the newer one. */
  lemma RacedRetryRun()
    ensures Enabled(Submitted(OLD), Pull)
    ensures var s := Step(PullAndExecute(Submitted(OLD)), Submit(true, [NEW], true));
      && s.phase == Executing(Entry(OLD, 0)) && Pending(RacedRetry(s, true)) == [Entry(NEW, 1), Entry(OLD, 0)]
      && !StaysInOrder(RacedRetry(s, true))
  {
    SubmittedIs(OLD);
    NewerDeferred(PullAndExecute(Submitted(OLD)));
    RacedBehindNewer(Step(PullAndExecute(Submitted(OLD)), Submit(true, [NEW], true)));
  }

  lemma DeferredIsSaved(t: Task)
    ensures var s := Step(START, Submit(true, [t], true));
      s.tasks == [] && s.deferred == [Entry(t, 0)] && OnDisk(s) == [Entry(t, 0)] && s.phase == Idle
  {
    assert AllPlaced(START, true, [t]) == Placed(START, true, t);
    assert [] + [Entry(t, 0)] == [Entry(t, 0)];
  }

  /** A deferred task is saved, promoted during the next save, and forgotten by a restart. */
  lemma TornSaveRun(t: Task)
    ensures var s := Step(START, Submit(true, [t], true));
      OnDisk(s) == [Entry(t, 0)] && Pending(TornSave(s)) == [Entry(t, 0)] && Pending(Restarted(TornSave(s))) == []
  {
    DeferredIsSaved(t);
    TornQueues(Step(START, Submit(true, [t], true)));
  }
}
