/**
 The worker of one distro: it pulls a task, locks the distro awake, waits for a connection, executes
 the task and reports the result. What the environment answers is chosen arbitrarily.
 */
module Workers {
  import opened Options
  import opened Tasks
  import opened TaskQueues
  import opened AwakeLock
  import opened TaskManagers
  import R = TaskRuns

  /** The largest count that processing one task (an outer lock and one nested lock) cannot overflow. */
  const SAFE_COUNT: nat := MODULUS - 3

  datatype DistroState = DistroState(lock: Lock, invalidated: bool)

  /** Once the registry disowns the distro it stays invalid, whatever the registry says later. */
  function Checked(s: DistroState, registered: bool): DistroState {
    s.(invalidated := s.invalidated || !registered)
  }

  function LockedAwake(s: DistroState, registered: bool, probe: Probe, touched: bool): (DistroState, bool) {
    var checked := Checked(s, registered);
    if checked.invalidated then (checked, false) else
      var (lock, ok) := Locked(s.lock, probe, touched);
      (checked.(lock := lock), ok)
  }

  function ReleasedAwake(s: DistroState, registered: bool): (DistroState, bool) {
    var checked := Checked(s, registered);
    if checked.invalidated then (checked, false) else
      var (lock, ok) := Released(s.lock);
      (checked.(lock := lock), ok)
  }

  class Distro {
    const manager: StateManager
    var invalidated: bool

    constructor ()
      ensures fresh(manager) && Value() == DistroState(UNLOCKED, false)
    {
      manager := new StateManager();
      invalidated := false;
    }

    function Value(): DistroState
      reads this, manager
    {
      DistroState(manager.Value(), invalidated)
    }

    ghost predicate Valid()
      reads this, manager
    {
      Cancellable(manager.Value())
    }

    method Invalidate()
      modifies `invalidated
      ensures invalidated
    {
      invalidated := true;
    }

    method IsValid(registered: bool) returns (valid: bool)
      modifies `invalidated
      ensures Value() == Checked(old(Value()), registered) && valid == !invalidated
    {
      if invalidated {
        return false;
      }
      if !registered {
        Invalidate();
        return false;
      }
      return true;
    }

    method LockAwake(registered: bool, probe: Probe, touched: bool) returns (ok: bool)
      requires Valid()
      modifies this, manager
      ensures Valid() && (Value(), ok) == LockedAwake(old(Value()), registered, probe, touched)
    {
      var valid := IsValid(registered);
      if !valid {
        return false;
      }
      ok := manager.Acquire(probe, touched);
    }

    method ReleaseAwake(registered: bool) returns (ok: bool)
      requires Valid()
      modifies this, manager
      ensures Valid() && (Value(), ok) == ReleasedAwake(old(Value()), registered)
    {
      var valid := IsValid(registered);
      if !valid {
        return false;
      }
      ok := manager.Release();
    }

    method Cleanup()
      requires Valid()
      modifies manager
      ensures Valid() && Value() == old(Value()).(lock := Reset(old(manager.Value())))
    {
      manager.ResetAll();
    }
  }

  /** Waiting ends with a connection, with the agent stopping, or with a distro that was not reached in time. */
  datatype Wait = Connected | AgentStopping | NotReached

  /** What processing a task amounts to: the distro is unreachable, the agent stops, or the task was executed. */
  datatype Outcome = Unreachable | Interrupted | Ran(result: TaskResult)

  /** What the environment answers while one attempt to connect locks the distro, waits and releases it. */
  datatype Attempt = Attempt(registered: bool, probe: Probe, touched: bool, wait: Wait, registeredAtRelease: bool)

  const ATTEMPTS: nat := 5

  /** What the environment answers while one task is processed. */
  datatype Answers = Answers(
    registered: bool, registeredAtLock: bool, probe: Probe, touched: bool,
    attempts: seq<Attempt>, sent: bool, plainResult: TaskResult, registeredAtRelease: bool)

  predicate Complete(a: Answers) {
    |a.attempts| == ATTEMPTS
  }

  /** The shipped tasks ask for a retry on any error; a plain task may end in any way. */
  function Execution(t: Task, sent: bool, plainResult: TaskResult): TaskResult {
    match t
    case Plain(_, _) => plainResult
    case _ => if sent then Succeeded else NeedsRetry
  }

  function Tried(s: DistroState, a: Attempt): (DistroState, Wait) {
    var (locked, ok) := LockedAwake(s, a.registered, a.probe, a.touched);
    if ok then (ReleasedAwake(locked, a.registeredAtRelease).0, a.wait) else (locked, NotReached)
  }

  /** Attempts follow one another until one connects; the last one decides how the waiting ended. */
  function Waited(s: DistroState, attempts: seq<Attempt>): (DistroState, Wait)
    requires attempts != []
    decreases |attempts|
  {
    var (s', wait) := Tried(s, attempts[0]);
    if wait == Connected || |attempts| == 1 then (s', wait) else Waited(s', attempts[1..])
  }

  /** The task's own lock is taken. */
  predicate TakesLock(s: DistroState, a: Answers) {
    a.registered && LockedAwake(s, a.registeredAtLock, a.probe, a.touched).1
  }

  function Processed(s: DistroState, t: Task, a: Answers): (DistroState, Outcome)
    requires Complete(a)
  {
    var checked := Checked(s, a.registered);
    if checked.invalidated then (checked, Unreachable) else
      var (locked, ok) := LockedAwake(checked, a.registeredAtLock, a.probe, a.touched);
      if !ok then (locked, Unreachable) else
        var (waited, wait) := Waited(locked, a.attempts);
        (ReleasedAwake(waited, a.registeredAtRelease).0,
          match wait
          case NotReached => Unreachable
          case AgentStopping => Interrupted
          case Connected => Ran(Execution(t, a.sent, a.plainResult)))
  }

  method WaitForActiveConnection(distro: Distro, attempts: seq<Attempt>) returns (wait: Wait)
    requires distro.Valid() && |attempts| == ATTEMPTS
    modifies distro, distro.manager
    ensures distro.Valid() && (distro.Value(), wait) == Waited(old(distro.Value()), attempts)
  {
    wait := NotReached;
    for i := 0 to ATTEMPTS
      invariant distro.Valid()
      invariant Waited(old(distro.Value()), attempts) ==
        if i == ATTEMPTS then (distro.Value(), wait) else Waited(distro.Value(), attempts[i..])
    {
      assert attempts[i..][1..] == attempts[i + 1..];
      wait := TryToConnect(distro, attempts[i]);
      if wait == Connected {
        return;
      }
    }
  }

  // One attempt: the distro may have stopped, so it is locked again while waiting for the client.
  method TryToConnect(distro: Distro, a: Attempt) returns (wait: Wait)
    requires distro.Valid()
    modifies distro, distro.manager
    ensures distro.Valid() && (distro.Value(), wait) == Tried(old(distro.Value()), a)
  {
    var locked := distro.LockAwake(a.registered, a.probe, a.touched);
    if !locked {
      return NotReached;
    }
    var _ := distro.ReleaseAwake(a.registeredAtRelease);
    return a.wait;
  }

  method ProcessSingleTask(distro: Distro, t: Task, a: Answers) returns (outcome: Outcome)
    requires distro.Valid() && Complete(a)
    modifies distro, distro.manager
    ensures distro.Valid() && (distro.Value(), outcome) == Processed(old(distro.Value()), t, a)
  {
    var valid := distro.IsValid(a.registered);
    if !valid {
      return Unreachable;
    }
    var locked := distro.LockAwake(a.registeredAtLock, a.probe, a.touched);
    if !locked {
      return Unreachable;
    }
    var wait := WaitForActiveConnection(distro, a.attempts);
    match wait {
      case NotReached => outcome := Unreachable;
      case AgentStopping => outcome := Interrupted;
      case Connected => outcome := Ran(Execution(t, a.sent, a.plainResult));
    }
    var _ := distro.ReleaseAwake(a.registeredAtRelease);
  }

  // ---------------------------------------------------------------- what processing does to the lock

  lemma TriedIsBalanced(s: DistroState, a: Attempt)
    requires s.lock.refcount < MODULUS - 1
    ensures var s' := Tried(s, a).0;
      && (s.invalidated ==> s' == s)
      && s.lock.refcount <= s'.lock.refcount <= s.lock.refcount + 1
      && (s'.lock.refcount == s.lock.refcount <==>
            !(LockedAwake(s, a.registered, a.probe, a.touched).1 && s'.invalidated))
  {
    assert Successor(s.lock.refcount) == s.lock.refcount + 1;
  }

  // After a leak the distro is invalid, so there is at most one.
  lemma {:induction false} WaitedIsBalanced(s: DistroState, attempts: seq<Attempt>)
    requires attempts != [] && s.lock.refcount < MODULUS - 1
    ensures var s' := Waited(s, attempts).0;
      && (s.invalidated ==> s' == s)
      && s.lock.refcount <= s'.lock.refcount <= s.lock.refcount + 1
      && (!s'.invalidated ==> s'.lock.refcount == s.lock.refcount)
      && (!s.invalidated ==> (s'.invalidated <==> !StaysRegistered(s.lock, attempts)))
    decreases |attempts|
  {
    TriedIsBalanced(s, attempts[0]);
    var (s', wait) := Tried(s, attempts[0]);
    if wait != Connected && |attempts| > 1 {
      if s'.invalidated {
        WaitedInvalid(s', attempts[1..]);
      } else {
        WaitedIsBalanced(s', attempts[1..]);
      }
    }
  }

  lemma {:induction false} WaitedInvalid(s: DistroState, attempts: seq<Attempt>)
    requires attempts != [] && s.invalidated
    ensures Waited(s, attempts) == (s, NotReached)
    decreases |attempts|
  {
    if |attempts| > 1 {
      WaitedInvalid(s, attempts[1..]);
    }
  }

  /** The registry knows the distro whenever it is asked during the attempts that are made. */
  predicate StaysRegistered(lock: Lock, attempts: seq<Attempt>)
    requires attempts != []
    decreases |attempts|
  {
    var a := attempts[0];
    var (locked, ok) := Locked(lock, a.probe, a.touched);
    && a.registered && (ok ==> a.registeredAtRelease)
    && ((ok && a.wait == Connected) || |attempts| == 1
        || StaysRegistered(if ok then Released(locked).0 else locked, attempts[1..]))
  }

  /** The registry knows the distro whenever it is asked after the task's own lock was taken. */
  predicate RegisteredThroughout(s: DistroState, a: Answers)
    requires Complete(a)
  {
    StaysRegistered(Locked(s.lock, a.probe, a.touched).0, a.attempts) && a.registeredAtRelease
  }

  /**
   Processing a task leaves the refcount as it found it exactly when its lock was not taken or the registry
   knows the distro whenever it is asked until the lock is released: an invalid distro refuses to release
   what was locked. At most the task's own lock and one nested lock are left behind.
   */
  lemma ProcessingIsBalancedIff(s: DistroState, t: Task, a: Answers)
    requires Complete(a) && s.lock.refcount <= SAFE_COUNT
    ensures var s' := Processed(s, t, a).0;
      && (s'.lock.refcount == s.lock.refcount <==> !TakesLock(s, a) || RegisteredThroughout(s, a))
      && s.lock.refcount <= s'.lock.refcount <= s.lock.refcount + 2
  {
    var checked := Checked(s, a.registered);
    if !checked.invalidated {
      var (locked, ok) := LockedAwake(checked, a.registeredAtLock, a.probe, a.touched);
      if ok {
        assert locked.lock.refcount == s.lock.refcount + 1 && !locked.invalidated;
        WaitedIsBalanced(locked, a.attempts);
      }
    }
  }

  // ---------------------------------------------------------------- how processing ends

  /** WSL lets a held distro be locked once more. */
  predicate Reaches(a: Attempt) {
    a.probe == Running || (a.probe == Stopped && a.touched)
  }

  /** The registry knew the distro whenever it was asked in the first `i` attempts. */
  predicate KnownUpTo(attempts: seq<Attempt>, i: nat)
    requires i <= |attempts|
  {
    forall k :: 0 <= k < i ==> attempts[k].registered && (Reaches(attempts[k]) ==> attempts[k].registeredAtRelease)
  }

  predicate Locks(attempts: seq<Attempt>, i: nat)
    requires i < |attempts|
  {
    KnownUpTo(attempts, i) && attempts[i].registered && Reaches(attempts[i])
  }

  predicate Connects(attempts: seq<Attempt>) {
    exists i :: 0 <= i < |attempts| && Locks(attempts, i) && attempts[i].wait == Connected
  }

  /** The agent was stopping when the last attempt waited for the client. */
  predicate StoppedAtLast(attempts: seq<Attempt>) {
    attempts != [] && Locks(attempts, |attempts| - 1) && attempts[|attempts| - 1].wait == AgentStopping
  }

  lemma FirstAttempt(s: DistroState, a: Attempt)
    requires !s.invalidated && 0 < s.lock.refcount < MODULUS - 1
    ensures LockedAwake(s, a.registered, a.probe, a.touched).1 <==> a.registered && Reaches(a)
    ensures var (s', wait) := Tried(s, a);
      && (s'.invalidated <==> !(a.registered && (Reaches(a) ==> a.registeredAtRelease)))
      && wait == if a.registered && Reaches(a) then a.wait else NotReached
  {
    LockedIff(s.lock, a.probe, a.touched);
  }

  lemma LaterAttempts(attempts: seq<Attempt>, i: nat)
    requires i + 1 < |attempts|
    ensures Locks(attempts, i + 1) <==>
      attempts[0].registered && (Reaches(attempts[0]) ==> attempts[0].registeredAtRelease) && Locks(attempts[1..], i)
  {
    var later := attempts[1..];
    assert forall k :: 0 <= k < i ==> later[k] == attempts[k + 1];
    if attempts[0].registered && (Reaches(attempts[0]) ==> attempts[0].registeredAtRelease) && KnownUpTo(later, i) {
      assert forall k :: 0 < k < i + 1 ==> attempts[k] == later[k - 1];
    }
  }

  lemma ConnectsStep(attempts: seq<Attempt>)
    requires |attempts| > 1
    ensures Connects(attempts) <==>
      || (Locks(attempts, 0) && attempts[0].wait == Connected)
      || (attempts[0].registered && (Reaches(attempts[0]) ==> attempts[0].registeredAtRelease) && Connects(attempts[1..]))
  {
    var later := attempts[1..];
    forall i | 0 <= i < |later|
      ensures Locks(attempts, i + 1) <==>
        attempts[0].registered && (Reaches(attempts[0]) ==> attempts[0].registeredAtRelease) && Locks(later, i)
    {
      LaterAttempts(attempts, i);
    }
    if i :| 0 <= i < |later| && Locks(later, i) && later[i].wait == Connected {
      assert attempts[i + 1] == later[i];
    }
    if i :| 0 < i < |attempts| && Locks(attempts, i) && attempts[i].wait == Connected {
      assert attempts[i] == later[i - 1] && (Locks(attempts, i - 1 + 1) ==> Locks(later, i - 1));
    }
  }

  lemma {:induction false} WaitedIff(s: DistroState, attempts: seq<Attempt>)
    requires attempts != [] && !s.invalidated && 0 < s.lock.refcount < MODULUS - 1
    ensures Waited(s, attempts).1 == Connected <==> Connects(attempts)
    ensures Waited(s, attempts).1 == AgentStopping <==> !Connects(attempts) && StoppedAtLast(attempts)
    decreases |attempts|
  {
    FirstAttempt(s, attempts[0]);
    TriedIsBalanced(s, attempts[0]);
    var (s', wait) := Tried(s, attempts[0]);
    if |attempts| == 1 {
      assert Connects(attempts) <==> Locks(attempts, 0) && attempts[0].wait == Connected;
    } else {
      ConnectsStep(attempts);
      LaterAttempts(attempts, |attempts| - 2);
      if wait != Connected {
        if s'.invalidated {
          WaitedInvalid(s', attempts[1..]);
        } else {
          WaitedIff(s', attempts[1..]);
        }
      }
    }
  }

  /** The task's own lock is taken: the distro is known, and it runs or can be started. */
  predicate OwnLock(s: DistroState, a: Answers) {
    && !s.invalidated && a.registered && a.registeredAtLock
    && if s.lock.refcount == 0 then a.touched else a.probe == Running || (a.probe == Stopped && a.touched)
  }

  /** What executing the task amounts to: shipped tasks succeed when sent and confirmed and are retried otherwise. */
  predicate EndsAs(t: Task, a: Answers, result: TaskResult) {
    if t.Plain? then result == a.plainResult else (result == Succeeded <==> a.sent) && (result == NeedsRetry <==> !a.sent)
  }

  /**
   A task is executed exactly when its lock is taken and one of five attempts locks the distro and connects.
   Otherwise it is interrupted exactly when the agent was stopping at the last attempt, and in every other
   case the distro counts as unreachable: it could not be locked, or no client came in time.
   */
  lemma OutcomeIff(s: DistroState, t: Task, a: Answers)
    requires |a.attempts| == 5 && s.lock.refcount <= SAFE_COUNT
    ensures var outcome := Processed(s, t, a).1;
      && (outcome.Ran? <==> OwnLock(s, a) && Connects(a.attempts))
      && (outcome.Ran? ==> EndsAs(t, a, outcome.result))
      && (outcome == Interrupted <==> OwnLock(s, a) && !Connects(a.attempts) && StoppedAtLast(a.attempts))
      && (outcome == Unreachable <==> !OwnLock(s, a) || !(Connects(a.attempts) || StoppedAtLast(a.attempts)))
  {
    LockedIff(s.lock, a.probe, a.touched);
    if OwnLock(s, a) {
      WaitedIff(LockedAwake(Checked(s, a.registered), a.registeredAtLock, a.probe, a.touched).0, a.attempts);
    }
  }

  /**
   What a round does with it: an agent that stops leaves the distro as valid as the registry says and saves
   what waits; a distro that is not reached in time is invalid for good, and nothing is saved.
   */
  lemma StopAndTimeoutDiffer(d: DistroState, s: State, t: Task, a: Answers, written: bool)
    requires |a.attempts| == 5 && d.lock.refcount <= SAFE_COUNT && OwnLock(d, a) && !Connects(a.attempts)
    ensures var (d', outcome) := Handled(d, t, a);
      var after := Reported(s, t, outcome, written);
      if StoppedAtLast(a.attempts) then
        && (d'.invalidated <==> !RegisteredThroughout(d, a))
        && after == (if written then s.(file := Some(Marshal(s.tasks + s.deferred))) else s)
      else d'.invalidated && after == s
  {
    OutcomeIff(d, t, a);
    ProcessedValidIff(d, t, a);
  }

  lemma ProcessedValidIff(s: DistroState, t: Task, a: Answers)
    requires Complete(a) && s.lock.refcount <= SAFE_COUNT && OwnLock(s, a)
    ensures Processed(s, t, a).0.invalidated <==> !RegisteredThroughout(s, a)
  {
    LockedIff(s.lock, a.probe, a.touched);
    var locked := LockedAwake(Checked(s, a.registered), a.registeredAtLock, a.probe, a.touched).0;
    assert locked.lock == Locked(s.lock, a.probe, a.touched).0 && !locked.invalidated;
    WaitedIsBalanced(locked, a.attempts);
  }

  /** A new distro whose only task succeeds, but which is unregistered before the lock is released. */
  const UNREGISTERED_IN_TIME := Answers(
    true, true, Stopped, true, seq(ATTEMPTS, _ => Attempt(true, Running, true, Connected, true)), true, Succeeded, false)

  lemma LockLeaks(t: Task)
    requires !t.Plain?
    ensures var (s, outcome) := Processed(DistroState(UNLOCKED, false), t, UNREGISTERED_IN_TIME);
      outcome == Ran(Succeeded) && s.invalidated && s.lock.refcount == 1 && !ReleasedAwake(s, true).1
  {
    assert Successor(0) == 1 && Successor(1) == 2;
  }

  // ---------------------------------------------------------------- what becomes of a pulled task

  /** The manager after a pulled task had this outcome. */
  function Reported(s: State, t: Task, outcome: Outcome, written: bool): State {
    match outcome
    case Unreachable => s
    case Interrupted => Finished(s, t, Failed, written)
    case Ran(result) => Finished(s, t, result, written)
  }

  /** The file lists a task equivalent to `t`. */
  ghost predicate Stored(file: Option<seq<Tagged>>, t: Task) {
    file.Some? && exists u :: Is(u, t) && Encode(u) in file.value
  }

  lemma EncodeInjective(u: Task, v: Task)
    requires Encode(u) == Encode(v)
    ensures u == v
  {
    var registry := {TypeName(u)};
    assert Decode(registry, Encode(u)) == Success(u) && Decode(registry, Encode(v)) == Success(v);
  }

  lemma StoredIff(q: seq<Task>, t: Task)
    ensures Stored(Some(Marshal(q)), t) <==> Holds(q, t)
  {
    if Stored(Some(Marshal(q)), t) {
      var u :| Is(u, t) && Encode(u) in Marshal(q);
      var i :| 0 <= i < |q| && Marshal(q)[i] == Encode(u);
      EncodeInjective(q[i], u);
    }
    if Holds(q, t) {
      var u :| u in q && Is(u, t);
      var i :| 0 <= i < |q| && q[i] == u;
      assert Marshal(q)[i] == Encode(u);
    }
  }

  lemma HoldsEither(a: seq<Task>, b: seq<Task>, t: Task)
    ensures Holds(a + b, t) <==> Holds(a, t) || Holds(b, t)
  {
    forall x | x in a || x in b ensures x in a + b {
    }
  }

  /**
   Of a pulled task that is in the file, an equivalent is still there afterwards exactly when nothing was
   saved, an equivalent is waiting, or the task asked for a retry. In particular a task that was
   interrupted by the agent's end leaves the file with the next save, although it was not executed.
   */
  lemma PulledTaskStaysStoredIff(s: State, t: Task, outcome: Outcome, written: bool)
    requires Stored(s.file, t)
    ensures Stored(Reported(s, t, outcome, written).file, t) <==>
      || outcome == Unreachable || outcome == Ran(NeedsRetry) || !written || Holds(s.tasks, t) || Holds(s.deferred, t)
  {
    StoredIff(s.tasks + s.deferred, t);
    HoldsEither(s.tasks, s.deferred, t);
    if outcome == Ran(NeedsRetry) {
      RetryKeepsAnEquivalent(s, t, written);
      var after := Reported(s, t, outcome, written);
      StoredIff(after.tasks + after.deferred, t);
      HoldsEither(after.tasks, after.deferred, t);
    }
  }

  /** From an empty start: a task that is submitted, saved and pulled as the agent stops is gone without a trace. */
  lemma InterruptedTaskIsLost()
    ensures R.Enabled(R.Submitted(R.NEW), R.Pull)
    ensures var s := Round(R.Submitted(R.NEW), Interrupted, true);
      && R.Entry(R.NEW, 0) in s.admitted && R.Newest(s.submitted, R.Entry(R.NEW, 0))
      && s.executed == [] && R.Pending(s) == [] && s.file == Some([]) && R.Pending(R.Step(s, R.Restart)) == []
  {
    R.SubmittedIs(R.NEW);
    assert R.AllPlaced(R.START, false, [R.NEW]) == R.Placed(R.START, false, R.NEW);
  }

  /** A round of the worker as events of a run. */
  function Round(s: R.Run, outcome: Outcome, written: bool): R.Run
    requires R.Enabled(s, R.Pull)
  {
    var pulled := R.Step(s, R.Pull);
    match outcome
    case Unreachable => R.Step(pulled, R.Drop)
    case Interrupted => R.Step(pulled, R.Finish(Failed, written))
    case Ran(result) => R.Step(R.Step(pulled, R.Execute), R.Finish(result, written))
  }

  /** What ProcessNext does to the manager is what these events do in a run, so it keeps its invariants. */
  lemma RoundIsARun(s: R.Run, outcome: Outcome, written: bool)
    requires R.Enabled(s, R.Pull)
    ensures var m := R.Erase(s);
      m.tasks != [] && R.Erase(Round(s, outcome, written)) ==
        Reported(m.(tasks := m.tasks[1..]), m.tasks[0], outcome, written)
    ensures R.Inv(s) ==> R.Inv(Round(s, outcome, written))
    ensures R.Inv(s) && R.InOrder(s) ==> R.InOrder(Round(s, outcome, written))
  {
    var pulled := R.Step(s, R.Pull);
    R.ErasedPulled(s);
    Keeps(s, R.Pull);
    match outcome
    case Unreachable => Follow(pulled, R.Drop);
    case Interrupted => Follow(pulled, R.Finish(Failed, written));
    case Ran(result) =>
      Follow(pulled, R.Execute);
      Follow(R.Step(pulled, R.Execute), R.Finish(result, written));
  }

  lemma Keeps(s: R.Run, ev: R.Event)
    requires R.Enabled(s, ev) && !ev.Restart?
    ensures R.Inv(s) ==> R.Inv(R.Step(s, ev))
    ensures R.Inv(s) && R.InOrder(s) ==> R.InOrder(R.Step(s, ev))
  {
    if R.Inv(s) {
      R.StepKeepsInv(s, ev);
      if R.InOrder(s) {
        R.StepKeepsOrder(s, ev);
      }
    }
  }

  lemma Follow(s: R.Run, ev: R.Event)
    requires R.Enabled(s, ev) && (ev.Drop? || ev.Execute? || ev.Finish?)
    ensures var m, m' := R.Erase(s), R.Erase(R.Step(s, ev));
      m' == if ev.Finish? then Finished(m, s.phase.entry.task, ev.result, ev.written) else m
    ensures R.Inv(s) ==> R.Inv(R.Step(s, ev))
    ensures R.Inv(s) && R.InOrder(s) ==> R.InOrder(R.Step(s, ev))
  {
    R.Erasure(s, ev, {});
    Keeps(s, ev);
  }

  // ---------------------------------------------------------------- the worker

  class Worker {
    const distro: Distro
    const manager: TaskManager

    constructor (distro: Distro, manager: TaskManager)
      ensures this.distro == distro && this.manager == manager
    {
      this.distro, this.manager := distro, manager;
    }

    ghost predicate Valid()
      reads distro, distro.manager, manager.tasks, manager.deferredTasks,
            manager.tasks.wait, manager.deferredTasks.wait
    {
      distro.Valid() && manager.Valid()
    }

    // What the loop does with the outcome: invalidate and forget, or report to the manager.
    method Report(t: Task, outcome: Outcome, written: bool)
      requires Valid()
      modifies manager.Objects(), distro
      ensures manager.Valid() && manager.KeptOrFresh()
      ensures distro.invalidated == (old(distro.invalidated) || outcome == Unreachable)
      ensures manager.Value() == Reported(old(manager.Value()), t, outcome, written)
    {
      if outcome == Unreachable {
        distro.Invalidate();
        return;
      }
      var report := manager.TaskDone(t, if outcome.Ran? then outcome.result else Failed, written);
    }

    method Handle(t: Task, a: Answers, written: bool) returns (outcome: Outcome)
      requires Valid() && Complete(a)
      modifies manager.Objects(), distro, distro.manager
      ensures Valid() && manager.KeptOrFresh()
      ensures (distro.Value(), outcome) == Handled(old(distro.Value()), t, a)
      ensures manager.Value() == Reported(old(manager.Value()), t, outcome, written)
    {
      ghost var s := manager.Value();
      outcome := ProcessSingleTask(distro, t, a);
      assert manager.Value() == s;
      Report(t, outcome, written);
    }

    /**
     One round of the processing loop. A task whose distro is unreachable is dropped, without saving,
     and the distro becomes invalid for good; any other result is reported to the manager.
     */
    method ProcessNext(a: Answers, written: bool) returns (next: Option<Task>, outcome: Outcome)
      requires Valid() && Complete(a)
      modifies manager.Objects(), distro, distro.manager
      ensures Valid() && manager.KeptOrFresh()
      ensures old(manager.Value()).tasks == [] ==>
        next == None && manager.Value() == old(manager.Value()) && distro.Value() == old(distro.Value())
      ensures old(manager.Value()).tasks != [] ==>
        var s := old(manager.Value());
        && next == Some(s.tasks[0])
        && (distro.Value(), outcome) == Handled(old(distro.Value()), s.tasks[0], a)
        && manager.Value() == Reported(s.(tasks := s.tasks[1..]), s.tasks[0], outcome, written)
    {
      outcome := Unreachable;
      next := manager.TryNextTask();
      if next.Some? {
        outcome := Handle(next.value, a, written);
      }
    }
  }

  /** An unreachable distro is marked as invalid for good. */
  function Handled(s: DistroState, t: Task, a: Answers): (DistroState, Outcome)
    requires Complete(a)
  {
    var (s', outcome) := Processed(s, t, a);
    (s'.(invalidated := s'.invalidated || outcome == Unreachable), outcome)
  }
}
