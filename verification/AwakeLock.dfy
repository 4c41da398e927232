/**
 The awake lock of a distro: a 32-bit count of lock holders, the cancel function of the loop that
 keeps the distro awake, and the loops that are still running.
 */
module AwakeLock {
  import opened Options

  /** The refcount is a 32-bit counter that wraps around. */
  const MODULUS: nat := 0x1_0000_0000

  type Count = n: nat | n < MODULUS

  /** Asking WSL whether the distro runs can fail. */
  datatype Probe = ProbeFailed | Running | Stopped

  /** A loop is identified by the context that was created for it; `created` counts the contexts. */
  datatype Lock = Lock(refcount: Count, cancel: Option<nat>, live: set<nat>, created: nat)

  const UNLOCKED := Lock(0, None, {}, 0)

  function Successor(n: Count): Count {
    (n + 1) % MODULUS
  }

  function Cancelled(s: Lock): Lock {
    if s.cancel.Some? then s.(live := s.live - {s.cancel.value}) else s
  }

  /** keepAwake under a fresh context; nothing is started when the distro cannot be touched. */
  function Awakened(s: Lock, touched: bool): (Lock, bool) {
    if touched then
      (s.(refcount := Successor(s.refcount), cancel := Some(s.created), live := s.live + {s.created},
          created := s.created + 1), true)
    else (s.(created := s.created + 1), false)
  }

  function Locked(s: Lock, probe: Probe, touched: bool): (Lock, bool) {
    if s.refcount == 0 then Awakened(s, touched)
    else
      match probe
      case ProbeFailed => (s, false)
      case Running => (s.(refcount := Successor(s.refcount)), true)
      case Stopped => Awakened(Cancelled(s), touched)
  }

  function Released(s: Lock): (Lock, bool) {
    if s.refcount == 0 then (s, false)
    else if s.refcount > 1 then (s.(refcount := s.refcount - 1), true)
    else (Cancelled(s).(refcount := 0, cancel := None), true)
  }

  function Reset(s: Lock): Lock {
    if s.refcount == 0 then s.(cancel := None) else Cancelled(s).(refcount := 0, cancel := None)
  }

  /**
   Locking succeeds exactly when WSL says that a held distro is running, or a distro that is not held or has
   stopped could be started. Only starting it makes a loop, and a failure leaves the count alone.
   */
  lemma LockedIff(s: Lock, probe: Probe, touched: bool)
    ensures var (s', ok) := Locked(s, probe, touched);
      && (ok <==> if s.refcount == 0 then touched else probe == Running || (probe == Stopped && touched))
      && s'.refcount == (if ok then (s.refcount + 1) % MODULUS else s.refcount)
      && (s.created in s'.live && s.created !in s.live ==> touched && ok)
      && (ok && (s.refcount == 0 || probe == Stopped) ==> s.created in s'.live && s'.cancel == Some(s.created))
      && (s.refcount == 0 && !ok ==> s'.live == s.live && s'.cancel == s.cancel)
      && (s.refcount > 0 && probe != Stopped ==> s'.live == s.live && s'.cancel == s.cancel)
      && (s.refcount > 0 && probe == Stopped && s.cancel.Some? && s.cancel.value < s.created ==> s.cancel.value !in s'.live)
  {
  }

  /** Releasing succeeds exactly when somebody holds the lock; the last release cancels the loop. */
  lemma ReleasedIff(s: Lock)
    ensures var (s', ok) := Released(s);
      && (ok <==> s.refcount > 0)
      && s'.refcount == (if ok then s.refcount - 1 else 0)
      && (s.refcount != 1 ==> s'.live == s.live && s'.cancel == s.cancel)
      && (s.refcount == 1 ==> s'.cancel == None && (s.cancel.Some? ==> s'.live == s.live - {s.cancel.value}))
  {
  }

  /** Whoever holds the lock finds a cancel function, so a nil one is never called. */
  ghost predicate Cancellable(s: Lock) {
    s.refcount > 0 ==> s.cancel.Some?
  }

  /** No cancel function without a holder, and no loop but the one it cancels. */
  ghost predicate Consistent(s: Lock) {
    && (s.cancel.None? <==> s.refcount == 0)
    && s.live <= (if s.cancel.Some? then {s.cancel.value} else {})
    && (forall k :: k in s.live ==> k < s.created)
  }

  /** The one call that breaks consistency is the one that takes the counter over its limit. */
  lemma LockIsConsistentIff(s: Lock, probe: Probe, touched: bool)
    requires Consistent(s)
    ensures Consistent(Locked(s, probe, touched).0) <==> !(s.refcount == MODULUS - 1 && Locked(s, probe, touched).1)
  {
    if s.refcount < MODULUS - 1 {
      assert Successor(s.refcount) == s.refcount + 1;
    } else {
      assert Successor(s.refcount) == 0;
    }
  }

  /** The promise of the lock: while somebody holds it, a loop keeps the distro awake. */
  ghost predicate KeptAwake(s: Lock) {
    s.refcount > 0 ==> s.live != {}
  }

  /** A lock call breaks the promise exactly when it finds a held distro stopped and cannot start it again. */
  lemma LockKeepsAwakeIff(s: Lock, probe: Probe, touched: bool)
    requires Consistent(s) && KeptAwake(s)
    ensures KeptAwake(Locked(s, probe, touched).0) <==> !(s.refcount > 0 && probe == Stopped && !touched)
  {
  }

  lemma ReleaseAndResetConsistent(s: Lock)
    requires Consistent(s)
    ensures Consistent(Released(s).0) && Consistent(Reset(s))
    ensures KeptAwake(s) ==> KeptAwake(Released(s).0)
    ensures Reset(s).refcount == 0 && Reset(s).live == {}
  {
  }

  // ---------------------------------------------------------------- runs

  datatype Event = LockCall(probe: Probe, touched: bool) | ReleaseCall | ResetCall | ContextEnds

  /** The lock next to its ledger: successful locks minus successful releases since the last reset. */
  datatype Ledger = Ledger(lock: Lock, balance: int)

  function Step(s: Ledger, ev: Event): Ledger {
    match ev
    case LockCall(probe, touched) =>
      var (lock, ok) := Locked(s.lock, probe, touched);
      Ledger(lock, if ok then s.balance + 1 else s.balance)
    case ReleaseCall =>
      var (lock, ok) := Released(s.lock);
      Ledger(lock, if ok then s.balance - 1 else s.balance)
    case ResetCall => Ledger(Reset(s.lock), 0)
    // The context that the loops were derived from ends: every loop stops on its own.
    case ContextEnds => s.(lock := s.lock.(live := {}))
  }

  function RunFrom(s: Ledger, events: seq<Event>): Ledger
    decreases |events|
  {
    if events == [] then s else RunFrom(Step(s, events[0]), events[1..])
  }

  /** No prefix of the run has more than 2^32 - 1 outstanding locks. */
  ghost predicate StaysBelowLimit(s: Ledger, events: seq<Event>)
    decreases |events|
  {
    s.balance < MODULUS && (events == [] || StaysBelowLimit(Step(s, events[0]), events[1..]))
  }

  lemma SuccessorAgrees(balance: nat, refcount: Count)
    requires refcount == balance % MODULUS
    ensures Successor(refcount) == (balance + 1) % MODULUS
    ensures refcount > 0 ==> balance > 0 && refcount - 1 == (balance - 1) % MODULUS
  {
  }

  lemma StepKeepsLedger(s: Ledger, ev: Event)
    requires s.balance >= 0 && s.lock.refcount == s.balance % MODULUS && Cancellable(s.lock)
    ensures var s' := Step(s, ev);
      s'.balance >= 0 && s'.lock.refcount == s'.balance % MODULUS && Cancellable(s'.lock)
  {
    SuccessorAgrees(s.balance, s.lock.refcount);
  }

  /** On every run the counter is the ledger modulo 2^32 and a holder can always cancel. */
  lemma {:induction false} CounterMatchesLedger(s: Ledger, events: seq<Event>)
    requires s.balance >= 0 && s.lock.refcount == s.balance % MODULUS && Cancellable(s.lock)
    ensures var s' := RunFrom(s, events);
      s'.balance >= 0 && s'.lock.refcount == s'.balance % MODULUS && Cancellable(s'.lock)
    decreases |events|
  {
    if events != [] {
      StepKeepsLedger(s, events[0]);
      CounterMatchesLedger(Step(s, events[0]), events[1..]);
    }
  }

  ghost predicate Counted(s: Ledger) {
    s.lock.refcount == s.balance && Consistent(s.lock)
  }

  lemma StepKeepsCounted(s: Ledger, ev: Event)
    requires Counted(s) && Step(s, ev).balance < MODULUS
    ensures Counted(Step(s, ev))
  {
    StepKeepsLedger(s, ev);
    match ev
    case LockCall(probe, touched) => LockIsConsistentIff(s.lock, probe, touched);
    case ReleaseCall => ReleaseAndResetConsistent(s.lock);
    case ResetCall => ReleaseAndResetConsistent(s.lock);
    case ContextEnds =>
  }

  lemma AtMostOne(s: Lock)
    requires Consistent(s)
    ensures |s.live| == if s.live == {} then 0 else 1
    ensures s.refcount == 0 ==> s.live == {}
  {
    if s.live != {} {
      assert s.live == {s.cancel.value};
    }
  }

  /**
   Below the limit the counter is the ledger itself, cancel is nil exactly when nobody holds the lock,
   and at most one loop is running, none when nobody holds the lock.
   */
  lemma {:induction false} AtMostOneKeeper(s: Ledger, events: seq<Event>)
    requires Counted(s) && StaysBelowLimit(s, events)
    ensures var s' := RunFrom(s, events);
      && s'.lock.refcount == s'.balance && Consistent(s'.lock)
      && |s'.lock.live| <= 1 && (s'.balance == 0 ==> s'.lock.live == {})
    decreases |events|
  {
    if events == [] {
      AtMostOne(s.lock);
    } else {
      StepKeepsCounted(s, events[0]);
      AtMostOneKeeper(Step(s, events[0]), events[1..]);
    }
  }

  // ---------------------------------------------------------------- when the distro is kept awake

  /** The two steps that leave a held distro without a loop. */
  predicate LosesKeeper(s: Ledger, ev: Event) {
    s.lock.refcount > 0 && (ev == LockCall(Stopped, false) || ev == ContextEnds)
  }

  lemma StepKeepsAwakeIff(s: Ledger, ev: Event)
    requires Counted(s) && KeptAwake(s.lock)
    ensures KeptAwake(Step(s, ev).lock) <==> !LosesKeeper(s, ev)
    ensures LosesKeeper(s, ev) ==> Step(s, ev).lock.live == {} && Step(s, ev).balance == s.balance
  {
    if ev.LockCall? {
      LockKeepsAwakeIff(s.lock, ev.probe, ev.touched);
    } else {
      ReleaseAndResetConsistent(s.lock);
    }
  }

  ghost predicate KeptAwakeThroughout(s: Ledger, events: seq<Event>)
    decreases |events|
  {
    KeptAwake(s.lock) && (events == [] || KeptAwakeThroughout(Step(s, events[0]), events[1..]))
  }

  predicate NeverLosesKeeper(s: Ledger, events: seq<Event>)
    decreases |events|
  {
    events == [] || (!LosesKeeper(s, events[0]) && NeverLosesKeeper(Step(s, events[0]), events[1..]))
  }

  /**
   A distro is kept awake whenever it is locked, throughout a run, exactly when the run has none of the
   two steps; and then exactly one loop is running while somebody holds the lock.
   */
  lemma {:induction false} KeptAwakeIff(s: Ledger, events: seq<Event>)
    requires Counted(s) && KeptAwake(s.lock) && StaysBelowLimit(s, events)
    ensures KeptAwakeThroughout(s, events) <==> NeverLosesKeeper(s, events)
    ensures NeverLosesKeeper(s, events) ==>
      |RunFrom(s, events).lock.live| == if RunFrom(s, events).balance > 0 then 1 else 0
    decreases |events|
  {
    if events == [] {
      AtMostOne(s.lock);
    } else {
      StepKeepsAwakeIff(s, events[0]);
      StepKeepsCounted(s, events[0]);
      if !LosesKeeper(s, events[0]) {
        KeptAwakeIff(Step(s, events[0]), events[1..]);
      }
    }
  }

  const NEW_LEDGER := Ledger(UNLOCKED, 0)

  /** From a fresh lock: a failed second start, and the end of the context, leave a holder without a loop. */
  lemma HeldWithoutKeeper()
    ensures Counted(NEW_LEDGER) && KeptAwake(NEW_LEDGER.lock)
    ensures var s := RunFrom(NEW_LEDGER, [LockCall(Stopped, true), LockCall(Stopped, false)]);
      s.balance == 1 && s.lock.refcount == 1 && s.lock.live == {}
    ensures var s := RunFrom(NEW_LEDGER, [LockCall(Stopped, true), ContextEnds]);
      s.balance == 1 && s.lock.refcount == 1 && s.lock.live == {}
  {
    var s := Step(NEW_LEDGER, LockCall(Stopped, true));
    assert s == Ledger(Lock(1, Some(0), {0}, 1), 1);
    TwoSteps(NEW_LEDGER, LockCall(Stopped, true), LockCall(Stopped, false));
    TwoSteps(NEW_LEDGER, LockCall(Stopped, true), ContextEnds);
  }

  lemma TwoSteps(s: Ledger, first: Event, second: Event)
    ensures RunFrom(s, [first, second]) == Step(Step(s, first), second)
  {
    assert [first, second][1..] == [second];
    assert RunFrom(Step(Step(s, first), second), [second][1..]) == Step(Step(s, first), second);
  }

  // ---------------------------------------------------------------- the state manager

  class StateManager {
    var refcount: Count
    var cancel: Option<nat>
    // The loops started by keepAwake that have not been cancelled, and the contexts created so far.
    var live: set<nat>
    var created: nat

    function Value(): Lock
      reads this
    {
      Lock(refcount, cancel, live, created)
    }

    constructor ()
      ensures Value() == UNLOCKED
    {
      refcount, cancel, live, created := 0, None, {}, 0;
    }

    method CallCancel()
      requires cancel.Some?
      modifies `live
      ensures Value() == Cancelled(old(Value()))
    {
      live := live - {cancel.value};
    }

    method Acquire(probe: Probe, touched: bool) returns (ok: bool)
      requires Cancellable(Value())
      modifies this
      ensures (Value(), ok) == Locked(old(Value()), probe, touched) && Cancellable(Value())
      ensures ok <==> if old(refcount) == 0 then touched else probe == Running || (probe == Stopped && touched)
      ensures refcount == if ok then (old(refcount) + 1) % MODULUS else old(refcount)
      ensures !touched ==> live <= old(live)
      ensures !ok && old(refcount) == 0 ==> live == old(live) && cancel == old(cancel)
    {
      if refcount > 0 {
        if probe == ProbeFailed {
          return false;
        }
        if probe == Running {
          refcount := Successor(refcount);
          return true;
        }
        CallCancel();
      }
      var context := created;
      created := created + 1;
      if !touched {
        return false;
      }
      live := live + {context};
      refcount := Successor(refcount);
      cancel := Some(context);
      return true;
    }

    method Release() returns (ok: bool)
      requires Cancellable(Value())
      modifies this
      ensures (Value(), ok) == Released(old(Value())) && Cancellable(Value())
      ensures ok == (old(refcount) > 0) && refcount == if ok then old(refcount) - 1 else 0
    {
      if refcount == 0 {
        return false;
      }
      refcount := refcount - 1;
      if refcount > 0 {
        return true;
      }
      CallCancel();
      cancel := None;
      return true;
    }

    method ResetAll()
      requires Cancellable(Value())
      modifies this
      ensures Value() == Reset(old(Value())) && Cancellable(Value())
    {
      if refcount == 0 {
        cancel := None;
        return;
      }
      refcount := 0;
      CallCancel();
      cancel := None;
    }
  }
}
