/**
 The task manager: a queue of ready tasks, a queue of deferred tasks and the file that backs both.
 Each operation is one step on a `State`; the class performs it on two queues and a file.
 */
module TaskManagers {
  import opened Options
  import opened Tasks
  import opened TaskQueues

  datatype State = State(tasks: seq<Task>, deferred: seq<Task>, file: Option<seq<Tagged>>)

  /** How a task that was handed to the worker ended. */
  datatype TaskResult = Succeeded | NeedsRetry | Failed

  /** What TaskDone tells the worker. */
  datatype Report = Fine | TaskFailed | SaveFailed

  /** The file is replaced by a rename, so a write that fails leaves the old file. */
  function Saved(s: State, written: bool): State {
    if written then s.(file := Some(Marshal(s.tasks + s.deferred))) else s
  }

  function Placed(s: State, deferred: bool, t: Task): State {
    if deferred then s.(tasks := Without(s.tasks, t), deferred := Pushed(s.deferred, t))
    else s.(tasks := Pushed(s.tasks, t), deferred := Without(s.deferred, t))
  }

  function AllPlaced(s: State, deferred: bool, ts: seq<Task>): State
    decreases |ts|
  {
    if ts == [] then s else AllPlaced(Placed(s, deferred, ts[0]), deferred, ts[1..])
  }

  lemma AllPlacedUnfolds(s: State, deferred: bool, ts: seq<Task>, i: nat)
    requires i < |ts|
    ensures AllPlaced(s, deferred, ts[i..]) == AllPlaced(Placed(s, deferred, ts[i]), deferred, ts[i + 1..])
  {
    assert ts[i..][1..] == ts[i + 1..];
  }

  function Submitted(s: State, deferred: bool, ts: seq<Task>, written: bool): State {
    Saved(AllPlaced(s, deferred, ts), written)
  }

  /** A failed task goes back to the deferred tasks, unless an equivalent one is waiting already. */
  function Resubmitted(s: State, t: Task, written: bool): State {
    if Holds(s.tasks, t) then s
    else Saved(s.(deferred := PushedIfNew(s.deferred, t)), written)
  }

  function Finished(s: State, t: Task, result: TaskResult, written: bool): State {
    if result.NeedsRetry? then Resubmitted(s, t, written) else Saved(s, written)
  }

  function Promoted(s: State): State {
    s.(tasks := s.tasks + s.deferred, deferred := [])
  }

  /** The ready tasks come from the file, if there is one; None when it cannot be read or decoded. */
  function Loaded(s: State, registry: Registry, readable: bool): Option<State> {
    if s.file == None then Some(s)
    else if !readable then None
    else
      match Unmarshal(registry, s.file.value)
      case Failure(_) => None
      case Success(ts) => Some(s.(tasks := ts))
  }

  /** The retry rule: whatever was waiting, an equivalent of the failed task is waiting afterwards. */
  lemma RetryKeepsAnEquivalent(s: State, t: Task, written: bool)
    ensures var after := Finished(s, t, NeedsRetry, written);
      Holds(after.tasks, t) || Holds(after.deferred, t)
  {
    if !Holds(s.tasks, t) && !Holds(s.deferred, t) {
      assert t in s.deferred + [t];
    }
  }

  /** Of several tasks submitted at once the last one is last in its queue, so it is the one that its kind keeps. */
  lemma {:induction false} LastSubmittedIsLast(s: State, deferred: bool, ts: seq<Task>)
    requires ts != []
    ensures var after := AllPlaced(s, deferred, ts);
      var q := if deferred then after.deferred else after.tasks;
      q != [] && q[|q| - 1] == ts[|ts| - 1]
    decreases |ts|
  {
    if |ts| == 1 {
      assert AllPlaced(s, deferred, ts) == Placed(s, deferred, ts[0]);
    } else {
      LastSubmittedIsLast(Placed(s, deferred, ts[0]), deferred, ts[1..]);
    }
  }

  /**
   What a retry does: the ready tasks stay as they are, and the failed task becomes the last deferred one
   exactly when nothing of its kind waits. The file is written unless something of its kind is ready.
   */
  lemma RetryWaitsBehind(s: State, t: Task, written: bool)
    ensures var after := Finished(s, t, NeedsRetry, written);
      var inReady, inDeferred := exists x :: x in s.tasks && Is(x, t), exists x :: x in s.deferred && Is(x, t);
      && after.tasks == s.tasks
      && after.deferred == (if inReady || inDeferred then s.deferred else s.deferred + [t])
      && after.file == (if inReady || !written then s.file else Some(Marshal(after.tasks + after.deferred)))
  {
  }

  /** Any other end of a task leaves what waits alone, and saves it. */
  lemma OtherEndsOnlySave(s: State, t: Task, result: TaskResult, written: bool)
    requires result != NeedsRetry
    ensures var after := Finished(s, t, result, written);
      && after.tasks == s.tasks && after.deferred == s.deferred
      && after.file == if written then Some(Marshal(s.tasks + s.deferred)) else s.file
  {
  }

  /**
   Loading fails exactly when there is a file and it cannot be read, or one of its entries has no contents
   of a registered type; and then the ready tasks are, position by position, of the types that it names.
   */
  lemma LoadedIff(s: State, registry: Registry, readable: bool)
    ensures Loaded(s, registry, readable) == None <==>
      s.file.Some? && (!readable || exists i :: 0 <= i < |s.file.value| && !Decodable(registry, s.file.value[i]))
    ensures s.file.None? ==> Loaded(s, registry, readable) == Some(s)
    ensures s.file.Some? && Loaded(s, registry, readable).Some? ==>
      var after := Loaded(s, registry, readable).value;
      && after.deferred == s.deferred && after.file == s.file && |after.tasks| == |s.file.value|
      && forall i :: 0 <= i < |after.tasks| ==> TypeName(after.tasks[i]) == s.file.value[i].typeName
  {
    if s.file.Some? {
      UnmarshalSucceedsIff(registry, s.file.value);
    }
  }

  /** The backing file, which outlives the process. */
  class Storage {
    var document: Option<seq<Tagged>>

    constructor ()
      ensures document == None
    {
      document := None;
    }
  }

  class TaskManager {
    const storage: Storage
    const tasks: TaskQueue
    const deferredTasks: TaskQueue

    ghost predicate Valid()
      reads tasks, deferredTasks, tasks.wait, deferredTasks.wait
    {
      && tasks.Valid() && deferredTasks.Valid()
      && tasks != deferredTasks && tasks.buf != deferredTasks.buf && tasks.wait != deferredTasks.wait
    }

    ghost function Objects(): set<object>
      reads tasks, deferredTasks
    {
      {storage, tasks, deferredTasks, tasks.buf, deferredTasks.buf, tasks.wait, deferredTasks.wait}
    }

    ghost function Value(): State
      requires Valid()
      reads storage, tasks, deferredTasks, tasks.buf, deferredTasks.buf, tasks.wait, deferredTasks.wait
    {
      State(tasks.Contents(), deferredTasks.Contents(), storage.document)
    }

    // Backing arrays and channels are kept or replaced by new ones, so the footprint stays apart from others.
    twostate predicate KeptOrFresh()
      reads tasks, deferredTasks
    {
      && (tasks.buf == old(tasks.buf) || fresh(tasks.buf))
      && (deferredTasks.buf == old(deferredTasks.buf) || fresh(deferredTasks.buf))
      && (tasks.wait == old(tasks.wait) || fresh(tasks.wait))
      && (deferredTasks.wait == old(deferredTasks.wait) || fresh(deferredTasks.wait))
    }

    constructor (storage: Storage)
      ensures Valid() && fresh(Objects() - {storage})
      ensures this.storage == storage && Value() == State([], [], storage.document)
    {
      this.storage := storage;
      tasks := new TaskQueue();
      deferredTasks := new TaskQueue();
    }

    method Save(written: bool) returns (ok: bool)
      requires Valid()
      modifies storage
      ensures Valid() && ok == written && Value() == Saved(old(Value()), written)
    {
      var ready := tasks.Data();
      var deferred := deferredTasks.Data();
      if !written {
        return false;
      }
      storage.document := Some(Marshal(ready + deferred));
      return true;
    }

    // One round of Submit's loop: the task leaves one queue and enters the other.
    method Place(thisQueue: TaskQueue, otherQueue: TaskQueue, ghost deferred: bool, t: Task)
      requires Valid()
      requires if deferred then thisQueue == deferredTasks && otherQueue == tasks
                           else thisQueue == tasks && otherQueue == deferredTasks
      modifies tasks, deferredTasks, tasks.buf, deferredTasks.buf, tasks.wait, deferredTasks.wait
      ensures Valid() && KeptOrFresh()
      ensures Value() == Placed(old(Value()), deferred, t)
    {
      otherQueue.Remove(t);
      thisQueue.Push(t);
    }

    method PlaceAll(thisQueue: TaskQueue, otherQueue: TaskQueue, ghost deferred: bool, submitted: seq<Task>)
      requires Valid()
      requires if deferred then thisQueue == deferredTasks && otherQueue == tasks
                           else thisQueue == tasks && otherQueue == deferredTasks
      modifies tasks, deferredTasks, tasks.buf, deferredTasks.buf, tasks.wait, deferredTasks.wait
      ensures Valid() && KeptOrFresh()
      ensures Value() == AllPlaced(old(Value()), deferred, submitted)
    {
      ghost var s := Value();
      for i := 0 to |submitted|
        invariant Valid() && KeptOrFresh()
        invariant AllPlaced(s, deferred, submitted) == AllPlaced(Value(), deferred, submitted[i..])
      {
        AllPlacedUnfolds(Value(), deferred, submitted, i);
        Place(thisQueue, otherQueue, deferred, submitted[i]);
      }
    }

    method Submit(deferred: bool, submitted: seq<Task>, written: bool) returns (ok: bool)
      requires Valid()
      modifies Objects()
      ensures Valid() && KeptOrFresh()
      ensures ok == written && Value() == Submitted(old(Value()), deferred, submitted, written)
    {
      var thisQueue, otherQueue := tasks, deferredTasks;
      if deferred {
        thisQueue, otherQueue := otherQueue, thisQueue;
      }
      PlaceAll(thisQueue, otherQueue, deferred, submitted);
      ok := Save(written);
    }

    method Resubmit(t: Task, written: bool) returns (ok: bool)
      requires Valid()
      modifies Objects()
      ensures Valid() && KeptOrFresh()
      ensures ok == (written || old(Holds(tasks.Contents(), t)))
      ensures Value() == Resubmitted(old(Value()), t, written)
    {
      var waiting := tasks.Contains(t);
      if waiting {
        return true;
      }
      deferredTasks.PushIfNew(t);
      ok := Save(written);
    }

    // The non-blocking part of NextTask: the caller waits on the queue's channel when there is nothing.
    method TryNextTask() returns (next: Option<Task>)
      requires Valid()
      modifies tasks
      ensures Valid() && KeptOrFresh()
      ensures old(Value()).tasks == [] ==> next == None && Value() == old(Value())
      ensures old(Value()).tasks != [] ==>
        next == Some(old(Value()).tasks[0]) && Value() == old(Value()).(tasks := old(Value()).tasks[1..])
    {
      next := tasks.TryPopFront();
    }

    method TaskDone(t: Task, result: TaskResult, written: bool) returns (report: Report)
      requires Valid()
      modifies Objects()
      ensures Valid() && KeptOrFresh()
      ensures Value() == Finished(old(Value()), t, result, written)
      ensures report == Fine <==>
        if result.NeedsRetry? then written || old(Holds(tasks.Contents(), t)) else written && result.Succeeded?
    {
      if result.NeedsRetry? {
        var resubmitted := Resubmit(t, written);
        return if resubmitted then Fine else SaveFailed;
      }
      var ok := Save(written);
      if !ok {
        return SaveFailed;
      }
      return if result.Succeeded? then Fine else TaskFailed;
    }

    method EnqueueDeferredTasks()
      requires Valid()
      modifies Objects()
      ensures Valid() && KeptOrFresh()
      ensures Value() == Promoted(old(Value()))
    {
      tasks.Absorb(deferredTasks);
    }

    method Load(registry: Registry, readable: bool) returns (ok: bool)
      requires Valid()
      modifies tasks, tasks.wait
      ensures Valid() && KeptOrFresh()
      ensures
        match Loaded(old(Value()), registry, readable)
        case None => !ok && Value() == old(Value())
        case Some(s) => ok && Value() == s
    {
      if storage.document == None {
        return true;
      }
      if !readable {
        return false;
      }
      match Unmarshal(registry, storage.document.value)
      case Failure(_) =>
        return false;
      case Success(ts) =>
        var newData := new Task[|ts|](i requires 0 <= i < |ts| => ts[i]);
        assert newData[..] == ts;
        tasks.Load(newData);
        return true;
    }
  }

  method NewTaskManager(storage: Storage, registry: Registry, readable: bool) returns (tm: TaskManager, ok: bool)
    ensures tm.Valid() && fresh(tm.Objects() - {storage}) && tm.storage == storage
    ensures
      match Loaded(State([], [], storage.document), registry, readable)
      case None => !ok && tm.Value() == State([], [], storage.document)
      case Some(s) => ok && tm.Value() == s
  {
    tm := new TaskManager(storage);
    ok := tm.Load(registry, readable);
  }
}
