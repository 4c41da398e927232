/**
 Whole runs of the task pipeline: submissions, the single worker that pulls, executes, retries and
 drops tasks, failing writes, and restarts from the file. Every submission gets a stamp, its position in
 the history of submissions; stamps are bookkeeping that no operation looks at (see Erasure).
 */
module TaskRuns {
  import opened Options
  import opened Seqs
  import opened Tasks
  import Q = TaskQueues
  import M = TaskManagers

  datatype Entry = Entry(task: Task, stamp: nat)

  /** The worker: nothing pulled, a task pulled but not handed to Execute, or a task handed to Execute. */
  datatype Phase = Idle | Pulled(entry: Entry) | Executing(entry: Entry)

  datatype Run = Run(
    tasks: seq<Entry>,
    deferred: seq<Entry>,
    file: Option<seq<Entry>>,
    stale: bool,                    // the last attempt to save failed
    phase: Phase,
    submitted: seq<Task>,           // every submission ever; the index is the stamp
    executed: seq<Entry>,           // every task handed to Execute, across restarts
    admitted: multiset<Entry>,      // what this process loaded or accepted
    superseded: multiset<Entry>,    // dropped in favour of a newer equivalent
    finished: multiset<Entry>)      // succeeded, failed for good, or dropped with an unreachable distro

  datatype Event =
    | Submit(toDeferred: bool, ts: seq<Task>, written: bool)
    | Pull
    | Execute
    | Finish(result: M.TaskResult, written: bool)
    | Drop
    | Promote
    | Restart

  const START := Run([], [], None, false, Idle, [], [], multiset{}, multiset{}, multiset{})

  function Pending(s: Run): seq<Entry> {
    s.tasks + s.deferred
  }

  function OnDisk(s: Run): seq<Entry> {
    if s.file.None? then [] else s.file.value
  }

  function InFlight(s: Run): multiset<Entry> {
    if s.phase.Idle? then multiset{} else multiset{s.phase.entry}
  }

  function Like(t: Task): Entry -> bool {
    (e: Entry) => Is(t, e.task)
  }

  function Without(q: seq<Entry>, t: Task): seq<Entry> {
    Keep(q, Not(Like(t)))
  }

  predicate Holds(q: seq<Entry>, t: Task) {
    exists e :: e in q && Is(e.task, t)
  }

  function Saved(s: Run, written: bool): Run {
    if written then s.(file := Some(Pending(s)), stale := false) else s.(stale := true)
  }

  function Placed(s: Run, toDeferred: bool, t: Task): Run {
    var e := Entry(t, |s.submitted|);
    var ready, deferred := Without(s.tasks, t), Without(s.deferred, t);
    s.(tasks := if toDeferred then ready else ready + [e],
       deferred := if toDeferred then deferred + [e] else deferred,
       submitted := s.submitted + [t],
       admitted := s.admitted + multiset{e},
       superseded := s.superseded + (multiset(Keep(s.tasks, Like(t))) + multiset(Keep(s.deferred, Like(t)))))
  }

  function AllPlaced(s: Run, toDeferred: bool, ts: seq<Task>): Run
    decreases |ts|
  {
    if ts == [] then s else AllPlaced(Placed(s, toDeferred, ts[0]), toDeferred, ts[1..])
  }

  function Resubmitted(s: Run, e: Entry, written: bool): Run {
    if Holds(s.tasks, e.task) then s.(superseded := s.superseded + multiset{e})
    else if Holds(s.deferred, e.task) then Saved(s.(superseded := s.superseded + multiset{e}), written)
    else Saved(s.(deferred := s.deferred + [e]), written)
  }

  /** A retry follows only an execution; a task that never ran can only fail for good or be dropped. */
  predicate Enabled(s: Run, ev: Event) {
    match ev
    case Submit(_, _, _) => true
    case Pull => s.phase.Idle? && s.tasks != []
    case Execute => s.phase.Pulled?
    case Finish(result, _) => s.phase.Executing? || (s.phase.Pulled? && result.Failed?)
    case Drop => s.phase.Pulled?
    case Promote => true
    case Restart => true
  }

  function Restarted(s: Run): Run {
    s.(tasks := OnDisk(s), deferred := [], phase := Idle, stale := false,
       admitted := multiset(OnDisk(s)), superseded := multiset{}, finished := multiset{})
  }

  function Step(s: Run, ev: Event): Run
    requires Enabled(s, ev)
  {
    match ev
    case Submit(toDeferred, ts, written) => Saved(AllPlaced(s, toDeferred, ts), written)
    case Pull => s.(tasks := s.tasks[1..], phase := Pulled(s.tasks[0]))
    case Execute => s.(phase := Executing(s.phase.entry), executed := s.executed + [s.phase.entry])
    case Finish(result, written) =>
      var e, idle := s.phase.entry, s.(phase := Idle);
      if result.NeedsRetry? then Resubmitted(idle, e, written)
      else Saved(idle.(finished := s.finished + multiset{e}), written)
    case Drop => s.(phase := Idle, finished := s.finished + multiset{s.phase.entry})
    case Promote => s.(tasks := s.tasks + s.deferred, deferred := [])
    case Restart => Restarted(s)
  }

  // ---------------------------------------------------------------- what every reachable state satisfies

  type History = seq<Task>

  predicate Recorded(h: History, e: Entry) {
    e.stamp < |h| && h[e.stamp] == e.task
  }

  ghost predicate AllRecorded(h: History, q: seq<Entry>) {
    forall e :: e in q ==> Recorded(h, e)
  }

  /** No equivalent task was submitted after `e`. */
  ghost predicate Newest(h: History, e: Entry) {
    forall i :: e.stamp < i < |h| ==> !Is(h[i], e.task)
  }

  ghost predicate AllNewest(h: History, q: seq<Entry>) {
    forall e :: e in q ==> Newest(h, e)
  }

  ghost predicate DuplicateFree(q: seq<Entry>) {
    forall i, j :: 0 <= i < j < |q| ==> !Is(q[i].task, q[j].task)
  }

  ghost predicate IsSuffix(p: seq<Entry>, q: seq<Entry>) {
    |p| <= |q| && q[|q| - |p|..] == p
  }

  /** Equivalent tasks were executed in the order in which they were submitted. */
  ghost predicate LatestWins(executed: seq<Entry>) {
    forall i, j :: 0 <= i < j < |executed| && Is(executed[i].task, executed[j].task) ==>
      executed[i].stamp <= executed[j].stamp
  }

  /** Nothing in `q` is older than an equivalent task in `done`. */
  ghost predicate NotOvertaken(done: seq<Entry>, q: seq<Entry>) {
    forall x, y :: x in done && y in q && Is(x.task, y.task) ==> x.stamp <= y.stamp
  }

  /** Every task the process admitted is accounted for once, and what was superseded has a newer equivalent. */
  ghost predicate AccountInv(h: History, pending: multiset<Entry>, inFlight: multiset<Entry>,
                             superseded: multiset<Entry>, finished: multiset<Entry>, admitted: multiset<Entry>) {
    && admitted == pending + inFlight + superseded + finished
    && (forall e :: e in admitted ==> admitted[e] == 1 && Recorded(h, e))
    && (forall e :: e in superseded ==> !Newest(h, e))
  }

  ghost predicate Account(s: Run) {
    AccountInv(s.submitted, multiset(Pending(s)), InFlight(s), s.superseded, s.finished, s.admitted)
  }

  /** What was handed to Execute, followed by what is in flight: the next one to be handed over. */
  function Out(s: Run): seq<Entry> {
    s.executed + (if s.phase.Idle? then [] else [s.phase.entry])
  }

  ghost predicate OlderThan(e: Entry, pending: seq<Entry>) {
    forall p :: p in pending && Is(p.task, e.task) ==> e.stamp < p.stamp
  }

  /** What holds in the middle of an operation, before the file is written. */
  ghost predicate Core(s: Run) {
    && AllRecorded(s.submitted, Pending(s)) && AllRecorded(s.submitted, OnDisk(s)) && AllRecorded(s.submitted, Out(s))
    && DuplicateFree(Pending(s)) && DuplicateFree(OnDisk(s))
    && (s.phase.Idle? || OlderThan(s.phase.entry, Pending(s)))
    && Account(s)
  }

  /** What holds on every run: unless the last save failed, what is pending is the tail of the file. */
  ghost predicate Inv(s: Run) {
    Core(s) && (!s.stale ==> IsSuffix(Pending(s), OnDisk(s)))
  }

  ghost predicate InOrderInMemory(s: Run) {
    LatestWins(Out(s)) && NotOvertaken(Out(s), Pending(s))
  }

  /** Latest wins, and no later step but a restart from a stale file can change that. */
  ghost predicate InOrder(s: Run) {
    InOrderInMemory(s) && (!s.stale ==> NotOvertaken(Out(s), OnDisk(s)))
  }

  ghost predicate UpToDateInMemory(s: Run) {
    && AllNewest(s.submitted, Pending(s))
    && (s.phase.Idle? || Newest(s.submitted, s.phase.entry) || Holds(Pending(s), s.phase.entry.task))
  }

  /** What waits is the newest of its class, and a task in flight that is not has the newest one waiting. */
  ghost predicate UpToDate(s: Run) {
    UpToDateInMemory(s) && (!s.stale ==> AllNewest(s.submitted, OnDisk(s)))
  }

  // ---------------------------------------------------------------- placing a submission

  lemma WithoutMembers(q: seq<Entry>, t: Task)
    ensures forall e :: e in Without(q, t) <==> e in q && !Is(t, e.task)
    ensures forall e :: e in Keep(q, Like(t)) <==> e in q && Is(t, e.task)
    ensures multiset(q) == multiset(Keep(q, Like(t))) + multiset(Without(q, t))
  {
    KeepMembers(q, Not(Like(t)));
    KeepMembers(q, Like(t));
    KeepPartition(q, Like(t));
  }

  ghost predicate Apart(a: seq<Entry>, b: seq<Entry>) {
    forall x, y :: x in a && y in b ==> !Is(x.task, y.task)
  }

  lemma DuplicateFreeConcat(a: seq<Entry>, b: seq<Entry>)
    ensures DuplicateFree(a + b) <==> DuplicateFree(a) && DuplicateFree(b) && Apart(a, b)
  {
    var c := a + b;
    if DuplicateFree(c) {
      forall i, j | 0 <= i < j < |b| ensures !Is(b[i].task, b[j].task) {
        assert b[i] == c[|a| + i] && b[j] == c[|a| + j];
      }
      forall x, y | x in a && y in b ensures !Is(x.task, y.task) {
        var i, j :| 0 <= i < |a| && 0 <= j < |b| && a[i] == x && b[j] == y;
        assert c[i] == x && c[|a| + j] == y;
      }
      assert forall i :: 0 <= i < |a| ==> a[i] == c[i];
    }
  }

  lemma {:induction false} WithoutDuplicateFree(q: seq<Entry>, t: Task)
    requires DuplicateFree(q)
    ensures DuplicateFree(Without(q, t))
  {
    if q != [] {
      assert q == [q[0]] + q[1..];
      DuplicateFreeConcat([q[0]], q[1..]);
      WithoutDuplicateFree(q[1..], t);
      WithoutMembers(q[1..], t);
      DuplicateFreeConcat([q[0]], Without(q[1..], t));
    }
  }

  /** The pending tasks after placing `e`: its equivalents are gone and it is there. */
  ghost predicate Replaces(before: seq<Entry>, after: seq<Entry>, e: Entry) {
    forall x :: x in after <==> x == e || (x in before && !Is(e.task, x.task))
  }

  lemma PlacedReplaces(s: Run, toDeferred: bool, t: Task)
    ensures Replaces(Pending(s), Pending(Placed(s, toDeferred, t)), Entry(t, |s.submitted|))
  {
    WithoutMembers(s.tasks, t);
    WithoutMembers(s.deferred, t);
  }

  lemma PlacedDuplicateFree(s: Run, toDeferred: bool, t: Task)
    requires DuplicateFree(Pending(s))
    ensures DuplicateFree(Pending(Placed(s, toDeferred, t)))
  {
    var e := [Entry(t, |s.submitted|)];
    var ready, deferred := Without(s.tasks, t), Without(s.deferred, t);
    DuplicateFreeConcat(s.tasks, s.deferred);
    WithoutDuplicateFree(s.tasks, t);
    WithoutDuplicateFree(s.deferred, t);
    WithoutMembers(s.tasks, t);
    WithoutMembers(s.deferred, t);
    if toDeferred {
      DuplicateFreeConcat(deferred, e);
      DuplicateFreeConcat(ready, deferred + e);
    } else {
      DuplicateFreeConcat(ready, e);
      DuplicateFreeConcat(ready + e, deferred);
    }
  }

  lemma HistoryGrows(h: History, t: Task, q: seq<Entry>)
    requires AllRecorded(h, q)
    ensures AllRecorded(h + [t], q)
  {
  }

  lemma ReplacedRecorded(h: History, before: seq<Entry>, after: seq<Entry>, e: Entry)
    requires AllRecorded(h, before) && e.stamp == |h| && Replaces(before, after, e)
    ensures AllRecorded(h + [e.task], after)
  {
  }

  lemma ReplacedOlder(h: History, before: seq<Entry>, after: seq<Entry>, e: Entry, x: Entry)
    requires Recorded(h, x) && OlderThan(x, before) && e.stamp == |h| && Replaces(before, after, e)
    ensures OlderThan(x, after)
  {
  }

  lemma ReplacedAccount(h: History, pending: multiset<Entry>, inFlight: multiset<Entry>, superseded: multiset<Entry>,
                        finished: multiset<Entry>, admitted: multiset<Entry>, e: Entry,
                        kept: multiset<Entry>, removed: multiset<Entry>)
    requires AccountInv(h, pending, inFlight, superseded, finished, admitted)
    requires e.stamp == |h| && pending == kept + removed
    requires forall x :: x in removed ==> Is(e.task, x.task)
    ensures AccountInv(h + [e.task], kept + multiset{e}, inFlight, superseded + removed, finished, admitted + multiset{e})
  {
    var h' := h + [e.task];
    assert e !in admitted;
    forall x | x in superseded + removed ensures !Newest(h', x) {
      if x in superseded {
        var i :| x.stamp < i < |h| && Is(h[i], x.task);
        assert Is(h'[i], x.task);
      } else {
        assert x in admitted && Is(h'[|h|], x.task);
      }
    }
  }

  function Removed(s: Run, t: Task): multiset<Entry> {
    multiset(Keep(s.tasks, Like(t))) + multiset(Keep(s.deferred, Like(t)))
  }

  lemma PlacedSplit(s: Run, toDeferred: bool, t: Task)
    ensures var kept := multiset(Without(s.tasks, t)) + multiset(Without(s.deferred, t));
      && multiset(Pending(s)) == kept + Removed(s, t)
      && multiset(Pending(Placed(s, toDeferred, t))) == kept + multiset{Entry(t, |s.submitted|)}
    ensures forall x :: x in Removed(s, t) ==> Is(t, x.task)
  {
    WithoutMembers(s.tasks, t);
    WithoutMembers(s.deferred, t);
  }

  lemma PlacedKeepsAccount(s: Run, toDeferred: bool, t: Task)
    requires Account(s)
    ensures Account(Placed(s, toDeferred, t))
  {
    var kept := multiset(Without(s.tasks, t)) + multiset(Without(s.deferred, t));
    PlacedSplit(s, toDeferred, t);
    ReplacedAccount(s.submitted, multiset(Pending(s)), InFlight(s), s.superseded, s.finished, s.admitted,
                    Entry(t, |s.submitted|), kept, Removed(s, t));
    assert InFlight(Placed(s, toDeferred, t)) == InFlight(s);
  }

  lemma PlacedKeepsCore(s: Run, toDeferred: bool, t: Task)
    requires Core(s)
    ensures Core(Placed(s, toDeferred, t))
  {
    var s' := Placed(s, toDeferred, t);
    var e := Entry(t, |s.submitted|);
    PlacedReplaces(s, toDeferred, t);
    PlacedDuplicateFree(s, toDeferred, t);
    ReplacedRecorded(s.submitted, Pending(s), Pending(s'), e);
    HistoryGrows(s.submitted, t, OnDisk(s));
    HistoryGrows(s.submitted, t, Out(s));
    if !s.phase.Idle? {
      assert s.phase.entry in Out(s);
      ReplacedOlder(s.submitted, Pending(s), Pending(s'), e, s.phase.entry);
    }
    PlacedKeepsAccount(s, toDeferred, t);
  }

  lemma PlacedKeepsOrder(s: Run, toDeferred: bool, t: Task)
    requires Core(s) && InOrderInMemory(s)
    ensures InOrderInMemory(Placed(s, toDeferred, t))
  {
    PlacedReplaces(s, toDeferred, t);
  }

  // What waits after placing `e` is `e`, which is the newest, and what `e` does not make older.
  lemma ReplacedNewest(h: History, before: seq<Entry>, after: seq<Entry>, e: Entry)
    requires AllNewest(h, before) && AllRecorded(h, before) && e.stamp == |h| && Replaces(before, after, e)
    ensures AllNewest(h + [e.task], after)
  {
  }

  lemma ReplacedHolds(before: seq<Entry>, after: seq<Entry>, e: Entry, t: Task)
    requires Replaces(before, after, e)
    ensures Holds(after, t) <==> Is(e.task, t) || Holds(before, t)
  {
    if Is(e.task, t) {
      assert e in after;
    } else if Holds(before, t) {
      var p :| p in before && Is(p.task, t);
      assert p in after;
    }
  }

  lemma StaysNewest(h: History, t: Task, x: Entry)
    requires Recorded(h, x) && Newest(h, x) && !Is(t, x.task)
    ensures Newest(h + [t], x)
  {
  }

  lemma PlacedKeepsUpToDate(s: Run, toDeferred: bool, t: Task)
    requires Core(s) && UpToDateInMemory(s)
    ensures UpToDateInMemory(Placed(s, toDeferred, t))
  {
    var s', e := Placed(s, toDeferred, t), Entry(t, |s.submitted|);
    PlacedReplaces(s, toDeferred, t);
    ReplacedNewest(s.submitted, Pending(s), Pending(s'), e);
    if !s.phase.Idle? {
      var x := s.phase.entry;
      ReplacedHolds(Pending(s), Pending(s'), e, x.task);
      if !Is(t, x.task) && Newest(s.submitted, x) {
        assert x in Out(s);
        StaysNewest(s.submitted, t, x);
      }
    }
  }

  lemma {:induction false} AllPlacedKeepsCore(s: Run, toDeferred: bool, ts: seq<Task>)
    requires Core(s)
    ensures Core(AllPlaced(s, toDeferred, ts))
    ensures InOrderInMemory(s) ==> InOrderInMemory(AllPlaced(s, toDeferred, ts))
    ensures UpToDateInMemory(s) ==> UpToDateInMemory(AllPlaced(s, toDeferred, ts))
    decreases |ts|
  {
    if ts != [] {
      PlacedKeepsCore(s, toDeferred, ts[0]);
      if InOrderInMemory(s) {
        PlacedKeepsOrder(s, toDeferred, ts[0]);
      }
      if UpToDateInMemory(s) {
        PlacedKeepsUpToDate(s, toDeferred, ts[0]);
      }
      AllPlacedKeepsCore(Placed(s, toDeferred, ts[0]), toDeferred, ts[1..]);
    }
  }

  lemma AppendInTurn(h: History, ts: seq<Task>)
    requires ts != []
    ensures h + [ts[0]] + ts[1..] == h + ts
  {
  }

  lemma PlacedGrowsHistory(s: Run, toDeferred: bool, t: Task)
    ensures Placed(s, toDeferred, t).submitted == s.submitted + [t]
  {
  }

  /** Tasks submitted at once are submitted one after the other. */
  lemma {:induction false} SubmittedInTurn(s: Run, toDeferred: bool, ts: seq<Task>)
    ensures AllPlaced(s, toDeferred, ts).submitted == s.submitted + ts
    decreases |ts|
  {
    if ts != [] {
      var s' := Placed(s, toDeferred, ts[0]);
      PlacedGrowsHistory(s, toDeferred, ts[0]);
      SubmittedInTurn(s', toDeferred, ts[1..]);
      AppendInTurn(s.submitted, ts);
      assert AllPlaced(s, toDeferred, ts) == AllPlaced(s', toDeferred, ts[1..]);
    }
  }

  // Saving makes the file say what is pending, or marks it as stale.
  lemma SavedKeepsInv(s: Run, written: bool)
    requires Core(s)
    ensures Inv(Saved(s, written))
    ensures InOrderInMemory(s) ==> InOrder(Saved(s, written))
    ensures UpToDateInMemory(s) ==> UpToDate(Saved(s, written))
  {
    var s' := Saved(s, written);
    assert Pending(s') == Pending(s) && Out(s') == Out(s) && InFlight(s') == InFlight(s);
    assert written ==> OnDisk(s') == Pending(s);
  }

  // ---------------------------------------------------------------- the worker's steps

  lemma PulledPending(q: seq<Entry>, h: History)
    requires q != [] && AllRecorded(h, q) && DuplicateFree(q)
    ensures Recorded(h, q[0]) && Apart([q[0]], q[1..]) && AllRecorded(h, q[1..]) && DuplicateFree(q[1..])
    ensures multiset(q) == multiset(q[1..]) + multiset{q[0]}
  {
    assert q == [q[0]] + q[1..];
    DuplicateFreeConcat([q[0]], q[1..]);
  }

  lemma SuffixTail(p: seq<Entry>, q: seq<Entry>)
    requires p != [] && IsSuffix(p, q)
    ensures IsSuffix(p[1..], q) && p[0] in q
  {
    assert q[|q| - |p|..][1..] == q[|q| - |p[1..]|..];
    assert q[|q| - |p|] == p[0];
  }

  lemma PullKeepsAccount(s: Run)
    requires Account(s) && Enabled(s, Pull)
    ensures Account(Step(s, Pull))
  {
    var s' := Step(s, Pull);
    assert Pending(s) == [s.tasks[0]] + Pending(s');
    assert InFlight(s') == multiset{s.tasks[0]} && InFlight(s) == multiset{};
  }

  lemma PullShape(s: Run)
    requires Enabled(s, Pull)
    ensures var s' := Step(s, Pull);
      && Pending(s) != [] && Pending(s)[0] == s.tasks[0] && Pending(s') == Pending(s)[1..]
      && OnDisk(s') == OnDisk(s) && Out(s') == Out(s) + [s.tasks[0]]
  {
  }

  lemma PullKeepsInv(s: Run)
    requires Inv(s) && Enabled(s, Pull)
    ensures Inv(Step(s, Pull))
  {
    PullShape(s);
    PulledPending(Pending(s), s.submitted);
    assert s.tasks[0] in [s.tasks[0]];
    PullKeepsAccount(s);
    if !s.stale {
      SuffixTail(Pending(s), OnDisk(s));
    }
  }

  lemma ExecutedInOrder(executed: seq<Entry>, e: Entry)
    requires LatestWins(executed) && NotOvertaken(executed, [e])
    ensures LatestWins(executed + [e])
  {
    assert e in [e];
  }

  lemma SameClass(q: seq<Entry>, a: Entry, b: Entry)
    requires DuplicateFree(q) && a in q && b in q && Is(a.task, b.task)
    ensures a == b
  {
  }

  lemma PullKeepsOrder(s: Run)
    requires Inv(s) && InOrder(s) && Enabled(s, Pull)
    ensures InOrder(Step(s, Pull))
  {
    var e, s' := s.tasks[0], Step(s, Pull);
    PullShape(s);
    PulledPending(Pending(s), s.submitted);
    assert e in [e];
    ExecutedInOrder(Out(s), e);
    if !s.stale {
      SuffixTail(Pending(s), OnDisk(s));
      forall y | y in OnDisk(s) && Is(e.task, y.task) ensures e == y {
        SameClass(OnDisk(s), e, y);
      }
    }
  }

  lemma ExecuteShape(s: Run)
    requires Enabled(s, Execute)
    ensures var s' := Step(s, Execute);
      && Pending(s') == Pending(s) && OnDisk(s') == OnDisk(s) && InFlight(s') == InFlight(s)
      && Out(s') == Out(s) + [s.phase.entry] && s.phase.entry in Out(s)
  {
    assert Out(s)[|s.executed|] == s.phase.entry;
  }

  lemma ExecuteKeepsInv(s: Run)
    requires Inv(s) && Enabled(s, Execute)
    ensures Inv(Step(s, Execute))
  {
    ExecuteShape(s);
  }

  lemma ExecuteKeepsOrder(s: Run)
    requires Enabled(s, Execute)
    ensures InOrder(s) ==> InOrder(Step(s, Execute))
    ensures UpToDate(s) ==> UpToDate(Step(s, Execute))
  {
    ExecuteShape(s);
    if InOrder(s) {
      assert Out(s)[|s.executed|] == s.phase.entry;
      ExecutedInOrder(Out(s), s.phase.entry);
    }
  }

  // When the worker is done with a task, less is out.
  lemma LessOut(s: Run, s': Run)
    requires InOrderInMemory(s) && s'.executed == s.executed && s'.phase.Idle?
    ensures LatestWins(Out(s')) && NotOvertaken(Out(s'), Pending(s)) && NotOvertaken(s.executed, InFlightList(s))
    ensures forall q :: NotOvertaken(Out(s), q) ==> NotOvertaken(Out(s'), q)
  {
    assert Out(s') == s.executed == Out(s)[..|s.executed|];
  }

  function InFlightList(s: Run): seq<Entry> {
    if s.phase.Idle? then [] else [s.phase.entry]
  }

  lemma DropKeepsAccount(s: Run)
    requires Account(s) && Enabled(s, Drop)
    ensures Account(Step(s, Drop))
  {
    assert InFlight(s) == multiset{s.phase.entry} && InFlight(Step(s, Drop)) == multiset{};
  }

  lemma DropKeepsInv(s: Run)
    requires Inv(s) && Enabled(s, Drop)
    ensures Inv(Step(s, Drop))
    ensures InOrder(s) ==> InOrder(Step(s, Drop))
    ensures UpToDate(s) ==> UpToDate(Step(s, Drop))
  {
    DropKeepsAccount(s);
    if InOrder(s) {
      LessOut(s, Step(s, Drop));
    }
  }

  lemma PromoteKeepsInv(s: Run)
    requires Inv(s)
    ensures Inv(Step(s, Promote)) && Pending(Step(s, Promote)) == Pending(s)
    ensures InOrder(s) ==> InOrder(Step(s, Promote))
    ensures UpToDate(s) ==> UpToDate(Step(s, Promote))
  {
    assert Pending(Step(s, Promote)) == Pending(s);
  }

  lemma HoldsPending(s: Run, t: Task)
    ensures Holds(Pending(s), t) <==> Holds(s.tasks, t) || Holds(s.deferred, t)
  {
    forall x | x in s.tasks || x in s.deferred ensures x in Pending(s) {
    }
  }

  function Overtaken(s: Run): Run
    requires !s.phase.Idle?
  {
    s.(phase := Idle, superseded := s.superseded + multiset{s.phase.entry})
  }

  function Returned(s: Run): Run
    requires !s.phase.Idle?
  {
    s.(phase := Idle, deferred := s.deferred + [s.phase.entry])
  }

  function Done(s: Run): Run
    requires !s.phase.Idle?
  {
    s.(phase := Idle, finished := s.finished + multiset{s.phase.entry})
  }

  // The failed task has been overtaken: it is dropped in favour of what is waiting.
  lemma OvertakenKeepsCore(s: Run)
    requires Core(s) && s.phase.Executing? && Holds(Pending(s), s.phase.entry.task)
    ensures Core(Overtaken(s))
  {
    var e := s.phase.entry;
    var p :| p in Pending(s) && Is(p.task, e.task);
    assert Recorded(s.submitted, p) && Is(s.submitted[p.stamp], e.task) && e.stamp < p.stamp;
    OvertakenKeepsAccount(s);
    assert Out(Overtaken(s)) == s.executed;
  }

  lemma OvertakenKeepsAccount(s: Run)
    requires Account(s) && s.phase.Executing? && !Newest(s.submitted, s.phase.entry)
    ensures Account(Overtaken(s))
  {
    assert InFlight(s) == multiset{s.phase.entry} && InFlight(Overtaken(s)) == multiset{};
  }

  lemma OvertakenKeepsRest(s: Run)
    requires s.phase.Executing?
    ensures Pending(Overtaken(s)) == Pending(s) && OnDisk(Overtaken(s)) == OnDisk(s)
    ensures InOrderInMemory(s) ==> InOrderInMemory(Overtaken(s)) && (InOrder(s) ==> InOrder(Overtaken(s)))
    ensures UpToDateInMemory(s) ==> UpToDateInMemory(Overtaken(s)) && (UpToDate(s) ==> UpToDate(Overtaken(s)))
  {
    if InOrderInMemory(s) {
      LessOut(s, Overtaken(s));
    }
  }

  // The failed task is the only one of its class: it waits again.
  lemma ReturnedKeepsCore(s: Run)
    requires Core(s) && s.phase.Executing? && !Holds(Pending(s), s.phase.entry.task)
    ensures Core(Returned(s)) && Pending(Returned(s)) == Pending(s) + [s.phase.entry]
  {
    var e := s.phase.entry;
    assert Pending(Returned(s)) == Pending(s) + [e];
    assert e in Out(s);
    DuplicateFreeConcat(Pending(s), [e]);
  }

  lemma ReturnedKeepsOrder(s: Run)
    requires Core(s) && s.phase.Executing? && !Holds(Pending(s), s.phase.entry.task)
    ensures InOrderInMemory(s) ==> InOrderInMemory(Returned(s))
    ensures UpToDateInMemory(s) ==> UpToDateInMemory(Returned(s))
  {
    assert Pending(Returned(s)) == Pending(s) + [s.phase.entry];
    if InOrderInMemory(s) {
      LessOut(s, Returned(s));
    }
  }

  lemma DoneKeepsCore(s: Run)
    requires Core(s) && !s.phase.Idle?
    ensures Core(Done(s))
    ensures InOrderInMemory(s) ==> InOrderInMemory(Done(s))
    ensures UpToDateInMemory(s) ==> UpToDateInMemory(Done(s))
  {
    assert InFlight(s) == multiset{s.phase.entry} && InFlight(Done(s)) == multiset{};
    if InOrderInMemory(s) {
      LessOut(s, Done(s));
    }
  }

  lemma ResubmittedIs(s: Run, written: bool)
    requires s.phase.Executing?
    ensures Resubmitted(s.(phase := Idle), s.phase.entry, written) ==
      if Holds(s.tasks, s.phase.entry.task) then Overtaken(s)
      else if Holds(s.deferred, s.phase.entry.task) then Saved(Overtaken(s), written)
      else Saved(Returned(s), written)
  {
  }

  lemma ResubmittedKeepsInv(s: Run, written: bool)
    requires Inv(s) && s.phase.Executing?
    ensures var s' := Resubmitted(s.(phase := Idle), s.phase.entry, written);
      Inv(s') && (InOrder(s) ==> InOrder(s')) && (UpToDate(s) ==> UpToDate(s'))
  {
    ResubmittedIs(s, written);
    HoldsPending(s, s.phase.entry.task);
    if Holds(Pending(s), s.phase.entry.task) {
      OvertakenKeepsCore(s);
      OvertakenKeepsRest(s);
      SavedKeepsInv(Overtaken(s), written);
    } else {
      ReturnedKeepsCore(s);
      ReturnedKeepsOrder(s);
      SavedKeepsInv(Returned(s), written);
    }
  }

  lemma FinishKeepsInv(s: Run, result: M.TaskResult, written: bool)
    requires Inv(s) && Enabled(s, Finish(result, written))
    ensures var s' := Step(s, Finish(result, written));
      Inv(s') && (InOrder(s) ==> InOrder(s')) && (UpToDate(s) ==> UpToDate(s'))
  {
    if result.NeedsRetry? {
      ResubmittedKeepsInv(s, written);
    } else {
      DoneKeepsCore(s);
      SavedKeepsInv(Done(s), written);
    }
  }

  lemma {:induction false} DuplicateFreeCounts(q: seq<Entry>)
    requires DuplicateFree(q)
    ensures forall e :: e in q ==> multiset(q)[e] == 1
  {
    if q != [] {
      assert q == [q[0]] + q[1..];
      DuplicateFreeConcat([q[0]], q[1..]);
      DuplicateFreeCounts(q[1..]);
      assert q[0] in [q[0]];
    }
  }

  /** Nothing on disk is older than an equivalent task that was executed: a restart from it is harmless. */
  ghost predicate DiskInOrder(s: Run) {
    NotOvertaken(s.executed, OnDisk(s))
  }

  lemma RestartKeepsInv(s: Run)
    requires Inv(s)
    ensures Inv(Restarted(s))
  {
    var r := Restarted(s);
    assert Pending(r) == OnDisk(s) == OnDisk(r) && Out(r) == s.executed == Out(s)[..|s.executed|];
    DuplicateFreeCounts(OnDisk(s));
  }

  lemma RestartKeepsOrder(s: Run)
    requires InOrder(s) && DiskInOrder(s)
    ensures InOrder(Restarted(s))
  {
    var r := Restarted(s);
    assert Pending(r) == OnDisk(s) == OnDisk(r) && Out(r) == s.executed == Out(s)[..|s.executed|];
  }

  lemma RestartKeepsUpToDate(s: Run)
    requires AllNewest(s.submitted, OnDisk(s))
    ensures UpToDate(Restarted(s))
  {
    assert Pending(Restarted(s)) == OnDisk(s) == OnDisk(Restarted(s));
  }

  lemma StepKeepsInv(s: Run, ev: Event)
    requires Inv(s) && Enabled(s, ev)
    ensures Inv(Step(s, ev))
  {
    match ev
    case Submit(toDeferred, ts, written) =>
      AllPlacedKeepsCore(s, toDeferred, ts);
      SavedKeepsInv(AllPlaced(s, toDeferred, ts), written);
    case Pull => PullKeepsInv(s);
    case Execute => ExecuteKeepsInv(s);
    case Finish(result, written) => FinishKeepsInv(s, result, written);
    case Drop => DropKeepsInv(s);
    case Promote => PromoteKeepsInv(s);
    case Restart => RestartKeepsInv(s);
  }

  lemma StepKeepsOrder(s: Run, ev: Event)
    requires Inv(s) && InOrder(s) && Enabled(s, ev) && (ev.Restart? && s.stale ==> DiskInOrder(s))
    ensures InOrder(Step(s, ev))
  {
    match ev
    case Submit(toDeferred, ts, written) =>
      AllPlacedKeepsCore(s, toDeferred, ts);
      SavedKeepsInv(AllPlaced(s, toDeferred, ts), written);
    case Pull => PullKeepsOrder(s);
    case Execute => ExecuteKeepsOrder(s);
    case Finish(result, written) => FinishKeepsInv(s, result, written);
    case Drop => DropKeepsInv(s);
    case Promote => PromoteKeepsInv(s);
    case Restart =>
      ExecutedInOrderOfOut(s);
      RestartKeepsOrder(s);
  }

  lemma StepKeepsUpToDate(s: Run, ev: Event)
    requires Inv(s) && UpToDate(s) && Enabled(s, ev) && (ev.Restart? ==> !s.stale)
    ensures UpToDate(Step(s, ev))
  {
    match ev
    case Submit(toDeferred, ts, written) =>
      AllPlacedKeepsCore(s, toDeferred, ts);
      SavedKeepsInv(AllPlaced(s, toDeferred, ts), written);
    case Pull => PullShape(s);
    case Execute => ExecuteKeepsOrder(s);
    case Finish(result, written) => FinishKeepsInv(s, result, written);
    case Drop => DropKeepsInv(s);
    case Promote => PromoteKeepsInv(s);
    case Restart => RestartKeepsUpToDate(s);
  }

  // ---------------------------------------------------------------- whole runs

  ghost predicate IsRunFrom(s: Run, states: seq<Run>, events: seq<Event>) {
    && |states| == |events| + 1 && states[0] == s
    && forall i :: 0 <= i < |events| ==> Enabled(states[i], events[i]) && states[i + 1] == Step(states[i], events[i])
  }

  ghost predicate IsRun(states: seq<Run>, events: seq<Event>) {
    IsRunFrom(START, states, events)
  }

  /** Every restart after a failed save finds nothing on disk that has been overtaken. */
  ghost predicate RestartsInOrder(states: seq<Run>, events: seq<Event>)
    requires |states| == |events| + 1
  {
    forall i :: 0 <= i < |events| && events[i].Restart? && states[i].stale ==> DiskInOrder(states[i])
  }

  ghost predicate NoStaleRestarts(states: seq<Run>, events: seq<Event>)
    requires |states| == |events| + 1
  {
    forall i :: 0 <= i < |events| && events[i].Restart? ==> !states[i].stale
  }

  lemma {:induction false} InvOnEveryRun(s: Run, states: seq<Run>, events: seq<Event>, n: nat)
    requires Inv(s) && IsRunFrom(s, states, events) && n < |states|
    ensures Inv(states[n])
  {
    if n > 0 {
      InvOnEveryRun(s, states, events, n - 1);
      StepKeepsInv(states[n - 1], events[n - 1]);
    }
  }

  lemma {:induction false} InOrderOnEveryRun(s: Run, states: seq<Run>, events: seq<Event>, n: nat)
    requires Inv(s) && InOrder(s) && IsRunFrom(s, states, events) && RestartsInOrder(states, events) && n < |states|
    ensures InOrder(states[n])
  {
    if n > 0 {
      InOrderOnEveryRun(s, states, events, n - 1);
      InvOnEveryRun(s, states, events, n - 1);
      StepKeepsOrder(states[n - 1], events[n - 1]);
    }
  }

  lemma {:induction false} UpToDateOnEveryRun(states: seq<Run>, events: seq<Event>, n: nat)
    requires IsRun(states, events) && NoStaleRestarts(states, events) && n < |states|
    ensures UpToDate(states[n])
  {
    if n > 0 {
      UpToDateOnEveryRun(states, events, n - 1);
      InvOnEveryRun(START, states, events, n - 1);
      StepKeepsUpToDate(states[n - 1], events[n - 1]);
    }
  }

  lemma ExecutedPart(s: Run, i: nat, j: nat)
    requires i < j < |s.executed| && Is(s.executed[i].task, s.executed[j].task)
    ensures LatestWins(Out(s)) ==> s.executed[i].stamp <= s.executed[j].stamp
    ensures AllRecorded(s.submitted, Out(s)) ==> Recorded(s.submitted, s.executed[i]) && Recorded(s.submitted, s.executed[j])
  {
    assert Out(s)[i] == s.executed[i] && Out(s)[j] == s.executed[j];
  }

  /**
   Newer instructions override older equivalent ones: over retries and restarts, the tasks of one
   equivalence class are handed to Execute in the order in which they were submitted. Restarts after a
   failed save must not find an overtaken task on disk (RestartIsSafeIff shows that they must not).
   */
  lemma LatestWinsOnEveryRun(states: seq<Run>, events: seq<Event>, n: nat, i: nat, j: nat)
    requires IsRun(states, events) && RestartsInOrder(states, events) && n < |states|
    requires i < j < |states[n].executed| && Is(states[n].executed[i].task, states[n].executed[j].task)
    ensures states[n].executed[i].stamp <= states[n].executed[j].stamp
    ensures Recorded(states[n].submitted, states[n].executed[i]) && Recorded(states[n].submitted, states[n].executed[j])
  {
    InvOnEveryRun(START, states, events, n);
    InOrderOnEveryRun(START, states, events, n);
    ExecutedPart(states[n], i, j);
  }

  /** Ready and deferred tasks taken together never hold two equivalent tasks, and neither does the file. */
  lemma NoDuplicatesOnEveryRun(states: seq<Run>, events: seq<Event>, n: nat)
    requires IsRun(states, events) && n < |states|
    ensures DuplicateFree(states[n].tasks + states[n].deferred) && DuplicateFree(OnDisk(states[n]))
  {
    InvOnEveryRun(START, states, events, n);
  }

  /** Unless the last save failed, the pending tasks are the tail of the file; after a restart they are the file. */
  lemma FileKeepsPendingOnEveryRun(states: seq<Run>, events: seq<Event>, n: nat)
    requires IsRun(states, events) && n < |states|
    ensures !states[n].stale ==> IsSuffix(states[n].tasks + states[n].deferred, OnDisk(states[n]))
    ensures n < |events| && events[n].Restart? ==> states[n + 1].tasks == OnDisk(states[n]) && states[n + 1].deferred == []
  {
    assert !states[n].stale ==> IsSuffix(Pending(states[n]), OnDisk(states[n])) by {
      InvOnEveryRun(START, states, events, n);
    }
  }

  /**
   While no restart follows a failed save: what is pending is the newest of its class, and so is a task
   in flight unless the newest one is pending, so a retry never displaces a newer task.
   */
  lemma NewestWaitsOnEveryRun(states: seq<Run>, events: seq<Event>, n: nat)
    requires IsRun(states, events) && n < |states|
    requires NoStaleRestarts(states, events)
    ensures AllNewest(states[n].submitted, states[n].tasks + states[n].deferred)
    ensures var s := states[n];
      !s.phase.Idle? && !Newest(s.submitted, s.phase.entry) ==>
        exists p :: p in s.tasks + s.deferred && Is(p.task, s.phase.entry.task) && Newest(s.submitted, p)
  {
    UpToDateOnEveryRun(states, events, n);
    var s := states[n];
    if !s.phase.Idle? && !Newest(s.submitted, s.phase.entry) {
      var p :| p in Pending(s) && Is(p.task, s.phase.entry.task);
      assert Newest(s.submitted, p);
    }
  }

  /** Each task of the process is exactly one of pending, in flight, superseded by a newer one, or finished. */
  lemma EveryTaskAccountedForOnce(states: seq<Run>, events: seq<Event>, n: nat, e: Entry)
    requires IsRun(states, events) && n < |states| && e in states[n].admitted
    ensures var s := states[n];
      multiset(Pending(s))[e] + InFlight(s)[e] + s.superseded[e] + s.finished[e] == 1
    ensures e in states[n].superseded ==>
      exists i :: e.stamp < i < |states[n].submitted| && Is(states[n].submitted[i], e.task)
  {
    assert Account(states[n]) by {
      InvOnEveryRun(START, states, events, n);
    }
    AccountedOnce(states[n], e);
  }

  lemma AccountedOnce(s: Run, e: Entry)
    requires Account(s) && e in s.admitted
    ensures multiset(Pending(s))[e] + InFlight(s)[e] + s.superseded[e] + s.finished[e] == 1
    ensures e in s.superseded ==> exists i :: e.stamp < i < |s.submitted| && Is(s.submitted[i], e.task)
  {
    assert s.admitted[e] == multiset(Pending(s))[e] + InFlight(s)[e] + s.superseded[e] + s.finished[e];
  }

  // ---------------------------------------------------------------- restarting from a stale file

  /** However the run goes on from here, latest wins, as long as later restarts are harmless. */
  ghost predicate StaysInOrder(s: Run) {
    forall states: seq<Run>, events :: IsRunFrom(s, states, events) && RestartsInOrder(states, events) ==>
      LatestWins(states[|events|].executed)
  }

  lemma ExecutedInOrderOfOut(s: Run)
    requires InOrder(s)
    ensures LatestWins(s.executed) && (!s.stale ==> DiskInOrder(s))
  {
    assert Out(s)[..|s.executed|] == s.executed;
  }

  lemma InOrderStays(s: Run)
    requires Inv(s) && InOrder(s)
    ensures StaysInOrder(s)
  {
    forall states: seq<Run>, events | IsRunFrom(s, states, events) && RestartsInOrder(states, events)
      ensures LatestWins(states[|events|].executed)
    {
      var last := states[|events|];
      InOrderOnEveryRun(s, states, events, |events|);
      ExecutedInOrderOfOut(last);
    }
  }

  lemma RunExtends(s: Run, ev: Event, states: seq<Run>, events: seq<Event>)
    requires Enabled(s, ev) && !ev.Restart?
    requires IsRunFrom(Step(s, ev), states, events) && RestartsInOrder(states, events)
    ensures IsRunFrom(s, [s] + states, [ev] + events) && RestartsInOrder([s] + states, [ev] + events)
  {
  }

  // The worker executes the ready tasks up to position k.
  lemma {:induction false} RunThrough(s: Run, k: nat) returns (states: seq<Run>, events: seq<Event>)
    requires s.phase.Idle? && k < |s.tasks|
    ensures IsRunFrom(s, states, events) && RestartsInOrder(states, events)
    ensures states[|events|].executed == s.executed + s.tasks[..k + 1]
    decreases k
  {
    var pulled := Step(s, Pull);
    var executing := Step(pulled, Execute);
    if k == 0 {
      states, events := [executing], [];
    } else {
      var done := Finish(M.Succeeded, true);
      states, events := RunThrough(Step(executing, done), k - 1);
      RunExtends(executing, done, states, events);
      states, events := [executing] + states, [done] + events;
      assert s.tasks[..k + 1] == [s.tasks[0]] + s.tasks[1..][..k];
    }
    RunExtends(pulled, Execute, states, events);
    states, events := [pulled] + states, [Execute] + events;
    RunExtends(s, Pull, states, events);
    states, events := [s] + states, [Pull] + events;
  }

  lemma OutOfOrder(executed: seq<Entry>, i: nat, j: nat)
    requires i < j < |executed| && Is(executed[i].task, executed[j].task) && executed[i].stamp > executed[j].stamp
    ensures !LatestWins(executed)
  {
  }

  lemma OvertakenOnDiskBreaksOrder(s: Run)
    requires !DiskInOrder(s)
    ensures !StaysInOrder(Restarted(s))
  {
    var r := Restarted(s);
    var x, y :| x in s.executed && y in OnDisk(s) && Is(x.task, y.task) && x.stamp > y.stamp;
    var k :| 0 <= k < |OnDisk(s)| && OnDisk(s)[k] == y;
    var i :| 0 <= i < |s.executed| && s.executed[i] == x;
    var states, events := RunThrough(r, k);
    OutOfOrder(s.executed + r.tasks[..k + 1], i, |s.executed| + k);
  }

  lemma RestartStaysInOrderIff(s: Run)
    requires Inv(s) && InOrder(s)
    ensures StaysInOrder(Restarted(s)) <==> DiskInOrder(s)
  {
    if DiskInOrder(s) {
      RestartKeepsInv(s);
      RestartKeepsOrder(s);
      InOrderStays(Restarted(s));
    } else {
      OvertakenOnDiskBreaksOrder(s);
    }
  }

  /**
   From any reachable state, a restart is safe, whatever the run does afterwards, exactly when nothing on
   disk has been overtaken by an equivalent task that was executed. A file whose last save succeeded is safe.
   */
  lemma RestartIsSafeIff(states: seq<Run>, events: seq<Event>, n: nat)
    requires IsRun(states, events) && RestartsInOrder(states, events) && n < |states|
    ensures StaysInOrder(Restarted(states[n])) <==> DiskInOrder(states[n])
    ensures !states[n].stale ==> DiskInOrder(states[n])
  {
    InvOnEveryRun(START, states, events, n);
    InOrderOnEveryRun(START, states, events, n);
    RestartStaysInOrderIff(states[n]);
    ExecutedInOrderOfOut(states[n]);
  }

  const OLD := ProAttachment("old")
  const NEW := ProAttachment("new")

  lemma PlacedAlone(s: Run, t: Task)
    requires s.deferred == [] && (s.tasks == [] || (|s.tasks| == 1 && Is(t, s.tasks[0].task)))
    ensures var s' := AllPlaced(s, false, [t]);
      && s'.tasks == [Entry(t, |s.submitted|)] && s'.deferred == [] && s'.submitted == s.submitted + [t]
      && s'.file == s.file && s'.phase == s.phase && s'.executed == s.executed
  {
    assert AllPlaced(s, false, [t]) == Placed(s, false, t);
    assert Without(s.tasks, t) == [];
  }

  /** A run that starts with a submission that is saved. */
  function Submitted(t: Task): Run {
    Step(START, Submit(false, [t], true))
  }

  lemma SubmittedIs(t: Task)
    ensures var s := Submitted(t);
      && s.tasks == [Entry(t, 0)] && s.deferred == [] && s.file == Some([Entry(t, 0)]) && !s.stale
      && s.phase == Idle && s.submitted == [t] && s.executed == []
  {
    PlacedAlone(START, t);
    assert [Entry(t, 0)] + [] == [Entry(t, 0)];
  }

  /** Two submissions of which only the first reaches the file. */
  function HalfSaved(): Run {
    Step(Submitted(OLD), Submit(false, [NEW], false))
  }

  lemma HalfSavedQueues()
    ensures HalfSaved().tasks == [Entry(NEW, 1)] && HalfSaved().deferred == []
    ensures OnDisk(HalfSaved()) == [Entry(OLD, 0)] && HalfSaved().stale
    ensures HalfSaved().phase == Idle && HalfSaved().executed == []
  {
    SubmittedIs(OLD);
    PlacedAlone(Submitted(OLD), NEW);
  }

  function PullAndExecute(s: Run): Run
    requires Enabled(s, Pull)
  {
    Step(Step(s, Pull), Execute)
  }

  lemma OldAfterNew(s: Run)
    requires s.phase == Idle && s.tasks == [Entry(NEW, 1)] && OnDisk(s) == [Entry(OLD, 0)] && s.executed == []
    ensures var s' := Step(PullAndExecute(s), Restart);
      Enabled(s', Pull) && !LatestWins(PullAndExecute(s').executed)
  {
    var executed := PullAndExecute(Step(PullAndExecute(s), Restart)).executed;
    assert executed[0] == Entry(NEW, 1) && executed[1] == Entry(OLD, 0) && Is(NEW, OLD);
  }

  /**
   A restart after a failed save can execute an old task after a newer one that already ran; before the
   newer one runs, the same restart is harmless.
   */
  lemma StaleFileBreaksLatestWins()
    ensures Enabled(HalfSaved(), Pull) && DiskInOrder(HalfSaved())
    ensures var s := Step(PullAndExecute(HalfSaved()), Restart);
      Enabled(s, Pull) && !LatestWins(PullAndExecute(s).executed)
  {
    HalfSavedQueues();
    OldAfterNew(HalfSaved());
  }

  // ---------------------------------------------------------------- stamps are only bookkeeping

  function TaskOf(e: Entry): Task {
    e.task
  }

  function Unstamped(q: seq<Entry>): seq<Task> {
    Map(TaskOf, q)
  }

  function Erase(s: Run): M.State {
    M.State(Unstamped(s.tasks), Unstamped(s.deferred), if s.file.None? then None else Some(Marshal(Unstamped(s.file.value))))
  }

  lemma UnstampedConcat(a: seq<Entry>, b: seq<Entry>)
    ensures Unstamped(a + b) == Unstamped(a) + Unstamped(b)
  {
  }

  lemma ErasedWithout(q: seq<Entry>, t: Task)
    ensures Unstamped(Without(q, t)) == Q.Without(Unstamped(q), t)
  {
    KeepMap(TaskOf, q, Not(Like(t)), Not(Q.EquivalentTo(t)));
  }

  lemma ErasedHolds(q: seq<Entry>, t: Task)
    ensures Holds(q, t) <==> Q.Holds(Unstamped(q), t)
  {
    if Holds(q, t) {
      var e :| e in q && Is(e.task, t);
      var i :| 0 <= i < |q| && q[i] == e;
      assert Unstamped(q)[i] in Unstamped(q);
    }
  }

  lemma ErasedSaved(s: Run, written: bool)
    ensures Erase(Saved(s, written)) == M.Saved(Erase(s), written)
  {
    UnstampedConcat(s.tasks, s.deferred);
  }

  lemma {:induction false} ErasedAllPlaced(s: Run, toDeferred: bool, ts: seq<Task>)
    ensures Erase(AllPlaced(s, toDeferred, ts)) == M.AllPlaced(Erase(s), toDeferred, ts)
    decreases |ts|
  {
    if ts != [] {
      var e := [Entry(ts[0], |s.submitted|)];
      ErasedWithout(s.tasks, ts[0]);
      ErasedWithout(s.deferred, ts[0]);
      UnstampedConcat(Without(s.tasks, ts[0]), e);
      UnstampedConcat(Without(s.deferred, ts[0]), e);
      assert Unstamped(e) == [ts[0]];
      assert Erase(Placed(s, toDeferred, ts[0])) == M.Placed(Erase(s), toDeferred, ts[0]);
      ErasedAllPlaced(Placed(s, toDeferred, ts[0]), toDeferred, ts[1..]);
    }
  }

  lemma ErasedFinished(s: Run, result: M.TaskResult, written: bool)
    requires Enabled(s, Finish(result, written))
    ensures Erase(Step(s, Finish(result, written))) == M.Finished(Erase(s), s.phase.entry.task, result, written)
  {
    if result.NeedsRetry? {
      ErasedResubmitted(s, written);
    } else {
      ErasedSaved(Done(s), written);
    }
  }

  lemma ErasedResubmitted(s: Run, written: bool)
    requires s.phase.Executing?
    ensures Erase(Resubmitted(s.(phase := Idle), s.phase.entry, written)) ==
      M.Resubmitted(Erase(s), s.phase.entry.task, written)
  {
    var e := s.phase.entry;
    ResubmittedIs(s, written);
    ErasedHolds(s.tasks, e.task);
    ErasedHolds(s.deferred, e.task);
    ErasedReturned(s);
    assert Erase(Overtaken(s)) == Erase(s);
    ErasedSaved(Overtaken(s), written);
    ErasedSaved(Returned(s), written);
  }

  lemma ErasedReturned(s: Run)
    requires !s.phase.Idle?
    ensures Erase(Returned(s)) == Erase(s).(deferred := Erase(s).deferred + [s.phase.entry.task])
  {
    UnstampedConcat(s.deferred, [s.phase.entry]);
    assert Unstamped([s.phase.entry]) == [s.phase.entry.task];
  }

  lemma ErasedSubmitted(s: Run, toDeferred: bool, ts: seq<Task>, written: bool)
    ensures Erase(Step(s, Submit(toDeferred, ts, written))) == M.Submitted(Erase(s), toDeferred, ts, written)
  {
    ErasedAllPlaced(s, toDeferred, ts);
    ErasedSaved(AllPlaced(s, toDeferred, ts), written);
  }

  lemma ErasedPulled(s: Run)
    requires Enabled(s, Pull)
    ensures var m := Erase(s);
      m.tasks != [] && Erase(Step(s, Pull)) == m.(tasks := m.tasks[1..]) && Step(s, Pull).phase.entry.task == m.tasks[0]
  {
    assert Unstamped(s.tasks[1..]) == Unstamped(s.tasks)[1..];
  }

  lemma ErasedPromoted(s: Run)
    ensures Erase(Step(s, Promote)) == M.Promoted(Erase(s))
  {
    UnstampedConcat(s.tasks, s.deferred);
  }

  // A new manager over the same file.
  lemma ErasedRestarted(s: Run, registry: Registry)
    requires AllRegistered(registry, Unstamped(OnDisk(s)))
    ensures M.Loaded(M.State([], [], Erase(s).file), registry, true) == Some(Erase(Restarted(s)))
  {
    RoundTrip(registry, Unstamped(OnDisk(s)));
  }

  /** Forgetting the stamps turns every step of a run into the corresponding step of the task manager. */
  ghost predicate Corresponds(s: Run, ev: Event, registry: Registry)
    requires Enabled(s, ev)
  {
    var m, m' := Erase(s), Erase(Step(s, ev));
    match ev
    case Submit(toDeferred, ts, written) => m' == M.Submitted(m, toDeferred, ts, written)
    case Pull => m.tasks != [] && m' == m.(tasks := m.tasks[1..]) && Step(s, ev).phase.entry.task == m.tasks[0]
    case Finish(result, written) => m' == M.Finished(m, s.phase.entry.task, result, written)
    case Promote => m' == M.Promoted(m)
    case Restart =>
      AllRegistered(registry, Unstamped(OnDisk(s))) ==> M.Loaded(M.State([], [], m.file), registry, true) == Some(m')
    case _ => m' == m
  }

  lemma Erasure(s: Run, ev: Event, registry: Registry)
    requires Enabled(s, ev)
    ensures Corresponds(s, ev, registry)
  {
    match ev
    case Submit(toDeferred, ts, written) => ErasedSubmitted(s, toDeferred, ts, written);
    case Pull => ErasedPulled(s);
    case Finish(result, written) => ErasedFinished(s, result, written);
    case Promote => ErasedPromoted(s);
    case Restart =>
      if AllRegistered(registry, Unstamped(OnDisk(s))) {
        ErasedRestarted(s, registry);
      }
    case _ =>
  }
}
