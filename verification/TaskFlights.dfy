/** A task that the worker has pulled: for how long is it still in the file? */
module TaskFlights {
  import opened Tasks
  import opened TaskRuns

  predicate Offers(ev: Event, t: Task) {
    ev.Submit? && exists x :: x in ev.ts && Is(x, t)
  }

  /** While a task is in flight, only submissions save. */
  predicate Saves(ev: Event) {
    ev.Submit? && ev.written
  }

  lemma {:induction false} AllPlacedHolds(s: Run, toDeferred: bool, ts: seq<Task>, t: Task)
    ensures Holds(Pending(AllPlaced(s, toDeferred, ts)), t) <==> Holds(Pending(s), t) || exists x :: x in ts && Is(x, t)
    decreases |ts|
  {
    if ts != [] {
      var s' := Placed(s, toDeferred, ts[0]);
      PlacedReplaces(s, toDeferred, ts[0]);
      ReplacedHolds(Pending(s), Pending(s'), Entry(ts[0], |s.submitted|), t);
      AllPlacedHolds(s', toDeferred, ts[1..], t);
      assert forall x :: x in ts <==> x == ts[0] || x in ts[1..];
    }
  }

  lemma {:induction false} AllPlacedInFlight(s: Run, toDeferred: bool, ts: seq<Task>)
    ensures var s' := AllPlaced(s, toDeferred, ts); s'.phase == s.phase && s'.file == s.file
    decreases |ts|
  {
    if ts != [] {
      AllPlacedInFlight(Placed(s, toDeferred, ts[0]), toDeferred, ts[1..]);
    }
  }

  lemma StepInFlight(s: Run, ev: Event, s': Run, t: Task)
    requires Enabled(s, ev) && s' == Step(s, ev) && !s.phase.Idle? && !s'.phase.Idle?
    ensures s'.phase.entry == s.phase.entry
    ensures Holds(Pending(s'), t) <==> Holds(Pending(s), t) || Offers(ev, t)
    ensures OnDisk(s') == if Saves(ev) then Pending(s') else OnDisk(s)
  {
    if ev.Submit? {
      AllPlacedInFlight(s, ev.toDeferred, ev.ts);
      AllPlacedHolds(s, ev.toDeferred, ev.ts, t);
      assert Pending(s') == Pending(AllPlaced(s, ev.toDeferred, ev.ts));
    } else if ev.Promote? {
      assert Pending(s') == Pending(s);
    }
  }

  ghost predicate InFlightBetween(states: seq<Run>, m: nat, n: nat)
    requires n < |states|
  {
    forall i :: m <= i <= n ==> !states[i].phase.Idle?
  }

  /** No save since `m`, or an equivalent of `t` was submitted before one of them or with it. */
  ghost predicate StillStored(events: seq<Event>, m: nat, n: nat, t: Task)
    requires n <= |events|
  {
    || (forall i :: m <= i < n ==> !Saves(events[i]))
    || (exists i, k :: m <= i <= k < n && Offers(events[i], t) && Saves(events[k]))
  }

  /** What a step does to the class of `t` and to the file while something is in flight. */
  ghost predicate FlightStep(s: Run, ev: Event, s': Run, t: Task) {
    && !s.phase.Idle? && !s'.phase.Idle? && s'.phase.entry == s.phase.entry
    && (Holds(Pending(s'), t) <==> Holds(Pending(s), t) || Offers(ev, t))
    && OnDisk(s') == if Saves(ev) then Pending(s') else OnDisk(s)
  }

  ghost predicate IsFlight(states: seq<Run>, events: seq<Event>, m: nat, n: nat, t: Task)
    requires n < |states| == |events| + 1
  {
    forall i :: m <= i < n ==> FlightStep(states[i], events[i], states[i + 1], t)
  }

  lemma RunIsFlight(states: seq<Run>, events: seq<Event>, m: nat, n: nat, t: Task)
    requires IsRun(states, events) && n < |states| && InFlightBetween(states, m, n)
    ensures IsFlight(states, events, m, n, t)
  {
    forall i | m <= i < n ensures FlightStep(states[i], events[i], states[i + 1], t) {
      StepInFlight(states[i], events[i], states[i + 1], t);
    }
  }

  lemma {:induction false} FlightSoFar(states: seq<Run>, events: seq<Event>, m: nat, n: nat, t: Task)
    requires m <= n < |states| == |events| + 1 && IsFlight(states, events, m, n, t) && !states[m].phase.Idle?
    requires !Holds(Pending(states[m]), t) && Holds(OnDisk(states[m]), t)
    ensures !states[n].phase.Idle? && states[n].phase.entry == states[m].phase.entry
    ensures Holds(Pending(states[n]), t) <==> exists i :: m <= i < n && Offers(events[i], t)
    ensures Holds(OnDisk(states[n]), t) <==> StillStored(events, m, n, t)
    decreases n
  {
    if m < n {
      FlightSoFar(states, events, m, n - 1, t);
      assert FlightStep(states[n - 1], events[n - 1], states[n - 1 + 1], t);
      StoredStep(events, m, n, t);
    }
  }

  lemma StoredStep(events: seq<Event>, m: nat, n: nat, t: Task)
    requires m < n <= |events|
    ensures !Saves(events[n - 1]) ==> (StillStored(events, m, n, t) <==> StillStored(events, m, n - 1, t))
    ensures Saves(events[n - 1]) ==> (StillStored(events, m, n, t) <==> exists i :: m <= i < n && Offers(events[i], t))
  {
  }

  lemma PulledIsAlone(s: Run, s': Run)
    requires Inv(s) && Enabled(s, Pull) && s' == Step(s, Pull)
    ensures s'.phase.Pulled? && !Holds(Pending(s'), s'.phase.entry.task)
  {
    PullShape(s);
    PulledPending(Pending(s), s.submitted);
    assert s.tasks[0] in [s.tasks[0]];
  }

  lemma PulledOnRun(states: seq<Run>, events: seq<Event>, m: nat)
    requires IsRun(states, events) && 0 < m < |states| && events[m - 1] == Pull
    ensures states[m].phase.Pulled? && !Holds(Pending(states[m]), states[m].phase.entry.task)
  {
    var k := m - 1;
    RunStep(states, events, k);
    InvOnEveryRun(START, states, events, k);
    PulledIsAlone(states[k], states[m]);
  }

  lemma RunStep(states: seq<Run>, events: seq<Event>, k: nat)
    requires IsRun(states, events) && k < |events|
    ensures Enabled(states[k], events[k]) && states[k + 1] == Step(states[k], events[k])
  {
  }

  /**
   A task that was on disk when it was pulled, for as long as it is in flight: an equivalent is on disk
   exactly when nothing was saved since, or an equivalent was submitted no later than the last save. Saving
   any other submission takes the task off the disk, executed or not.
   */
  lemma PulledTaskOnDiskIff(states: seq<Run>, events: seq<Event>, m: nat, n: nat)
    requires IsRun(states, events) && 0 < m <= n < |states| && events[m - 1] == Pull && InFlightBetween(states, m, n)
    requires Holds(OnDisk(states[m]), states[m].phase.entry.task)
    ensures states[n].phase.entry == states[m].phase.entry
    ensures Holds(OnDisk(states[n]), states[m].phase.entry.task) <==>
      StillStored(events, m, n, states[m].phase.entry.task)
  {
    var t := states[m].phase.entry.task;
    PulledOnRun(states, events, m);
    RunIsFlight(states, events, m, n, t);
    FlightSoFar(states, events, m, n, t);
  }

  const OTHER := LandscapeConfigure("conf")

  lemma OtherSubmitted(s: Run)
    requires s.phase == Pulled(Entry(NEW, 0)) && s.tasks == [] && s.deferred == [] && |s.submitted| == 1
    ensures var s' := Step(s, Submit(false, [OTHER], true));
      && s'.phase == s.phase && s'.executed == s.executed
      && OnDisk(s') == [Entry(OTHER, 1)] && Pending(Restarted(s')) == [Entry(OTHER, 1)]
  {
    PlacedAlone(s, OTHER);
  }

  /** A task is pulled, and another one is submitted and saved: after a restart the first one is gone. */
  lemma PulledTaskLeavesDiskRun()
    ensures Enabled(Submitted(NEW), Pull)
    ensures var s := Step(Step(Submitted(NEW), Pull), Submit(false, [OTHER], true));
      && s.phase == Pulled(Entry(NEW, 0)) && s.executed == [] && OnDisk(s) == [Entry(OTHER, 1)]
      && !Holds(Pending(Restarted(s)), NEW)
  {
    SubmittedIs(NEW);
    OtherSubmitted(Step(Submitted(NEW), Pull));
  }
}
