/**
 What de-duplication means for each kind of task, and the order in which tasks of different classes run.
 Everything here is said with the constructors of tasks.
 */
module TaskClasses {
  import opened Options
  import opened Seqs
  import opened Tasks
  import Q = TaskQueues
  import M = TaskManagers
  import opened TaskRuns

  function NotPro(): Task -> bool {
    (x: Task) => !x.ProAttachment?
  }

  function NotLandscape(): Task -> bool {
    (x: Task) => !x.LandscapeConfigure?
  }

  function NotEqual(t: Task): Task -> bool {
    x => x != t
  }

  /** What a task of the same kind leaves in a queue: no other Pro attachment, no other Landscape configuration, or no equal. */
  function Others(q: seq<Task>, t: Task): seq<Task> {
    match t
    case ProAttachment(_) => Keep(q, NotPro())
    case LandscapeConfigure(_) => Keep(q, NotLandscape())
    case Plain(_, _) => Keep(q, NotEqual(t))
  }

  /** Removing keeps exactly the others, in order. */
  lemma RemovedLeavesOthers(q: seq<Task>, t: Task)
    ensures Q.Without(q, t) == Others(q, t)
  {
    match t
    case ProAttachment(_) => KeepSame(q, Not(Q.EquivalentTo(t)), NotPro());
    case LandscapeConfigure(_) => KeepSame(q, Not(Q.EquivalentTo(t)), NotLandscape());
    case Plain(_, _) => KeepSame(q, Not(Q.EquivalentTo(t)), NotEqual(t));
  }

  /** After a push the others are there in their order, and the pushed task is last and the only one of its kind. */
  lemma PushedIsLastAndOnly(q: seq<Task>, t: Task)
    ensures Q.Pushed(q, t) == Others(q, t) + [t]
    ensures t.ProAttachment? ==> forall x :: x in Others(q, t) ==> !x.ProAttachment?
    ensures t.LandscapeConfigure? ==> forall x :: x in Others(q, t) ==> !x.LandscapeConfigure?
    ensures t.Plain? ==> t !in Others(q, t) && forall x :: x in q && x != t ==> x in Others(q, t)
    ensures !t.Plain? ==> forall x :: x in q && x.Plain? ==> x in Others(q, t)
    ensures t.ProAttachment? ==> forall x :: x in q && x.LandscapeConfigure? ==> x in Others(q, t)
    ensures t.LandscapeConfigure? ==> forall x :: x in q && x.ProAttachment? ==> x in Others(q, t)
  {
    RemovedLeavesOthers(q, t);
    match t
    case ProAttachment(_) => KeepMembers(q, NotPro());
    case LandscapeConfigure(_) => KeepMembers(q, NotLandscape());
    case Plain(_, _) => KeepMembers(q, NotEqual(t));
  }

  /** A task is pushed as new exactly when none of its kind is queued, and then it is last. */
  lemma PushedIfNewIff(q: seq<Task>, t: Task)
    ensures var kind := (x: Task) => (t.ProAttachment? && x.ProAttachment?) ||
                                     (t.LandscapeConfigure? && x.LandscapeConfigure?) || x == t;
      Q.PushedIfNew(q, t) == if exists x :: x in q && kind(x) then q else q + [t]
  {
    var kind := (x: Task) => (t.ProAttachment? && x.ProAttachment?) ||
                             (t.LandscapeConfigure? && x.LandscapeConfigure?) || x == t;
    assert forall x :: Is(x, t) <==> kind(x);
  }

  /** At most one Pro attachment, at most one Landscape configuration, and no plain task twice. */
  ghost predicate OneOfEach(q: seq<Entry>) {
    forall i, j :: 0 <= i < j < |q| ==>
      && !(q[i].task.ProAttachment? && q[j].task.ProAttachment?)
      && !(q[i].task.LandscapeConfigure? && q[j].task.LandscapeConfigure?)
      && q[i].task != q[j].task
  }

  /** On every run, whatever saves fail and whenever the agent restarts, this holds of all that waits and of the file. */
  lemma OneOfEachOnEveryRun(states: seq<Run>, events: seq<Event>, n: nat)
    requires IsRun(states, events) && n < |states|
    ensures OneOfEach(states[n].tasks + states[n].deferred) && OneOfEach(OnDisk(states[n]))
  {
    NoDuplicatesOnEveryRun(states, events, n);
    OneOfEachIff(states[n].tasks + states[n].deferred);
    OneOfEachIff(OnDisk(states[n]));
  }

  lemma OneOfEachIff(q: seq<Entry>)
    ensures OneOfEach(q) <==> DuplicateFree(q)
  {
  }

  /** Two tasks of which the later one replaces the earlier one. */
  predicate SameKind(a: Task, b: Task) {
    (a.ProAttachment? && b.ProAttachment?) || (a.LandscapeConfigure? && b.LandscapeConfigure?) || a == b
  }

  /** Pro attachments are executed in the order of their submission, and so are Landscape configurations. */
  lemma KindsInOrderOnEveryRun(states: seq<Run>, events: seq<Event>, n: nat, i: nat, j: nat)
    requires IsRun(states, events) && RestartsInOrder(states, events) && n < |states|
    requires i < j < |states[n].executed| && SameKind(states[n].executed[i].task, states[n].executed[j].task)
    ensures states[n].executed[i].stamp <= states[n].executed[j].stamp
  {
    LatestWinsOnEveryRun(states, events, n, i, j);
  }

  // ---------------------------------------------------------------- first come, first served

  ghost predicate Ascending(q: seq<Entry>) {
    forall i, j :: 0 <= i < j < |q| ==> q[i].stamp < q[j].stamp
  }

  /** Nothing is deferred, comes back or is read from the file. */
  predicate Plainly(ev: Event) {
    match ev
    case Submit(toDeferred, _, _) => !toDeferred
    case Finish(result, _) => !result.NeedsRetry?
    case Promote => false
    case Restart => false
    case _ => true
  }

  /** What the worker has handed over or holds, followed by what waits. */
  function Line(s: Run): seq<Entry> {
    Served(s) + s.tasks
  }

  /** What was executed, and what is pulled but not executed. */
  function Served(s: Run): seq<Entry> {
    s.executed + (if s.phase.Pulled? then [s.phase.entry] else [])
  }

  ghost predicate InLine(s: Run) {
    && s.deferred == [] && Ascending(Line(s))
    && forall e :: e in Line(s) ==> e.stamp < |s.submitted|
  }

  lemma {:induction false} KeepAscending(q: seq<Entry>, p: Entry -> bool)
    requires Ascending(q)
    ensures Ascending(Keep(q, p))
  {
    if q != [] {
      KeepAscending(q[1..], p);
      KeepMembers(q[1..], p);
      forall e | e in Keep(q[1..], p) ensures q[0].stamp < e.stamp {
        var k :| 0 <= k < |q[1..]| && q[1..][k] == e;
        assert q[k + 1] == e;
      }
    }
  }

  lemma AscendingConcat(a: seq<Entry>, b: seq<Entry>)
    ensures Ascending(a + b) <==> Ascending(a) && Ascending(b) && forall x, y :: x in a && y in b ==> x.stamp < y.stamp
  {
    var c := a + b;
    if Ascending(c) {
      forall i, j | 0 <= i < j < |b| ensures b[i].stamp < b[j].stamp {
        assert b[i] == c[|a| + i] && b[j] == c[|a| + j];
      }
      forall x, y | x in a && y in b ensures x.stamp < y.stamp {
        var i, j :| 0 <= i < |a| && 0 <= j < |b| && a[i] == x && b[j] == y;
        assert c[i] == x && c[|a| + j] == y;
      }
      assert forall i :: 0 <= i < |a| ==> a[i] == c[i];
    }
  }

  // A part of the line leaves it, and a newer entry joins at its end.
  lemma JoinsLine(served: seq<Entry>, waiting: seq<Entry>, staying: seq<Entry>, e: Entry)
    requires Ascending(served + waiting) && Ascending(staying) && forall x :: x in staying ==> x in waiting
    requires forall x :: x in served + waiting ==> x.stamp < e.stamp
    ensures Ascending(served + (staying + [e]))
  {
    AscendingConcat(served, waiting);
    AscendingConcat(staying, [e]);
    AscendingConcat(served, staying + [e]);
  }

  lemma PlacedLine(s: Run, t: Task)
    requires s.deferred == []
    ensures var s' := Placed(s, false, t);
      && s'.deferred == [] && s'.submitted == s.submitted + [t]
      && Line(s') == Served(s) + (Without(s.tasks, t) + [Entry(t, |s.submitted|)])
  {
    assert Without([], t) == [];
  }

  lemma PlacedInLine(s: Run, t: Task)
    requires InLine(s)
    ensures InLine(Placed(s, false, t))
  {
    var e, staying := Entry(t, |s.submitted|), Without(s.tasks, t);
    AscendingConcat(Served(s), s.tasks);
    KeepAscending(s.tasks, Not(Like(t)));
    WithoutMembers(s.tasks, t);
    JoinsLine(Served(s), s.tasks, staying, e);
    PlacedLine(s, t);
    forall x | x in Served(s) + (staying + [e]) ensures x.stamp <= |s.submitted| {
      assert x == e || x in Line(s);
    }
  }

  lemma {:induction false} AllPlacedInLine(s: Run, ts: seq<Task>)
    requires InLine(s)
    ensures InLine(AllPlaced(s, false, ts))
    decreases |ts|
  {
    if ts != [] {
      PlacedInLine(s, ts[0]);
      AllPlacedInLine(Placed(s, false, ts[0]), ts[1..]);
    }
  }

  lemma StepInLine(s: Run, ev: Event)
    requires InLine(s) && Enabled(s, ev) && Plainly(ev)
    ensures InLine(Step(s, ev))
  {
    match ev
    case Submit(_, ts, written) =>
      AllPlacedInLine(s, ts);
      assert Line(Step(s, ev)) == Line(AllPlaced(s, false, ts));
    case Pull => assert Line(Step(s, ev)) == Line(s);
    case Execute => assert Line(Step(s, ev)) == Line(s);
    case Finish(_, _) => LessInLine(s, Step(s, ev));
    case Drop => LessInLine(s, Step(s, ev));
  }

  lemma DropMiddle(a: seq<Entry>, b: seq<Entry>, c: seq<Entry>)
    requires Ascending(a + b + c)
    ensures Ascending(a + c) && Ascending(a)
  {
    AscendingConcat(a + b, c);
    AscendingConcat(a, b);
    AscendingConcat(a, c);
  }

  // A pulled task that is given up leaves the line.
  lemma LessInLine(s: Run, s': Run)
    requires InLine(s) && s'.phase.Idle? && s'.executed == s.executed && s'.tasks == s.tasks && s'.deferred == []
    requires s'.submitted == s.submitted
    ensures InLine(s')
  {
    DropMiddle(s.executed, if s.phase.Pulled? then [s.phase.entry] else [], s.tasks);
    assert Line(s') == s.executed + s.tasks;
    assert forall x :: x in Line(s') ==> x in Line(s);
  }

  /**
   As long as nothing is deferred, retried or restarted, tasks are executed in the order of their
   submission, whatever their classes.
   */
  lemma {:induction false} FirstComeFirstServed(states: seq<Run>, events: seq<Event>, n: nat)
    requires IsRun(states, events) && n < |states| && forall i :: 0 <= i < n ==> Plainly(events[i])
    ensures InLine(states[n]) && Ascending(states[n].executed)
  {
    if n > 0 {
      FirstComeFirstServed(states, events, n - 1);
      StepInLine(states[n - 1], events[n - 1]);
    }
    var s := states[n];
    DropMiddle(s.executed, if s.phase.Pulled? then [s.phase.entry] else [], s.tasks);
  }
}
