# Ubuntu Pro for WSL: a verified model

The Windows agent keeps WSL distros configured: it queues tasks for each distro, keeps the distro awake while it
executes them, talks to the service inside the distro over reversed unary calls, and stores its configuration and its
list of distros on disk. This project models these mechanisms in Dafny and proves what they promise.

| file | subject |
|---|---|
| `Task.dfy`, `TaskQueue.dfy`, `TaskManager.dfy` | tasks and their stored form, the de-duplicating queue over a slice, the manager with its file |
| `TaskRuns.dfy` | whole runs of the pipeline: submissions, retries, drops, failing saves, restarts |
| `TaskClasses.dfy` | what de-duplication means for each kind of task, and first come, first served |
| `TaskFlights.dfy`, `TaskRaces.dfy` | a pulled task and the file; promotions in the middle of other operations |
| `AwakeLock.dfy`, `Worker.dfy` | the lock that keeps a distro awake, and the worker that uses it |
| `WakeUp.dfy` | the consumer that waits on the queue, interleaved with its producers |
| `Config.dfy`, `ConfigRuns.dfy` | the configuration store and what its observers know |
| `ReverseCall.dfy` | commands and replies between agent and service over two streams |
| `Daemon.dfy` | quitting and restarting the daemon |
| `Reconnect.dfy` | asking the Landscape service to reconnect |
| `Database.dfy` | the table of distros and its file |
| `NetWatcher.dfy`, `AdapterBuffer.dfy` | new network adapters, and the buffer for the Windows API |
| `Seqs.dfy`, `Strings.dfy`, `Options.dfy` | filtering, ordering, optional values |

`dafny verify dfyconfig.toml` checks everything.

## Reading the model

Objects whose methods update fields are classes whose contracts give the new state as a function of the old one; the
theorems about runs are about these functions. What other goroutines, the disk, WSL, the registry or the network decide
appears as a parameter (`readable`, `written`, `probe`, `registered`, a record of `Answers`), as an event of a run, or as an arbitrary choice.
A write either happens or leaves the file as it was. Hashing, completing a Landscape configuration, lower-casing names
and looking up the registry are arbitrary functions; the hash is assumed injective and non-empty where a lemma says so.

In `TaskRuns.dfy` every submission carries a stamp, its place in the history of submissions. `TaskRuns.Erasure` shows
that the stamps influence nothing, and `Workers.RoundIsARun` ties the worker's loop to the events of a run.

## Where the code differs from its comments or from what one would expect

Each of these is shown on a run from the start, and the condition under which it cannot happen is proved.

- A restart after a failed save can execute an old task after a newer equivalent one
  (`TaskRuns.StaleFileBreaksLatestWins`; exactly when: `TaskRuns.RestartIsSafeIff`).
- A consumer between its failed pop and its read of the channel misses a replacement of the channel that leaves tasks
  (`WakeUp.LostWakeUpRun`; exactly when: `WakeUp.ReplacementInGapLosesWakeUpIff`, `WakeUp.StepKeepsInvIff`).
- A task that was pulled can leave the file without having been executed: while it is in flight, with the next save of
  another submission (`TaskFlights.PulledTaskLeavesDiskRun`; exactly when: `TaskFlights.PulledTaskOnDiskIff`), and when
  the agent stops (`Workers.InterruptedTaskIsLost`; exactly when: `Workers.PulledTaskStaysStoredIff`).
- Promoting takes no mutex of the task manager. In the middle of a resubmission it can leave duplicates and let an old
  task run after a newer one (`TaskRaces.RacedRetryRun`; exactly when: `TaskRaces.RacedRetryIff`); in the middle of a
  save it can leave the deferred tasks out of the file (`TaskRaces.TornSaveRun`; exactly when: `TaskRaces.TornSaveIff`).
- A distro that becomes invalid while it is locked refuses the release, so the count stays up until the cleanup
  (`Workers.LockLeaks`; exactly when: `Workers.ProcessingIsBalancedIff`).
- The comment at windows-agent/internal/distros/distro/distro_state.go:16 promises a running distro while the count is
  positive. A failed second start and the end of the context leave a positive count without a loop that keeps the distro
  awake (`AwakeLock.HeldWithoutKeeper`; exactly when: `AwakeLock.LockKeepsAwakeIff`, `AwakeLock.KeptAwakeIff`).
- Pro observers are told a token that is not in force after an empty store token that uncovers a user token, after a
  user or store token set before the first registry push, after a registry push between the priority check and the
  commit of a setter, and after a registry push that could not be dumped is taken back. Notices go out after the mutex
  is released, so they can also arrive in another order than their commits, or get lost in a restart that comes first
  (`ConfigRuns`, the lemmas ending in `Run`; exactly when: `ConfigRuns.StepKeepsInvIff`, `ConfigRuns.AllDeliveredIff`,
  `ConfigRuns.RevertAfterUndumpedPushInSyncIff`). The Landscape configuration of the registry is lost by a restart with
  unchanged registry data (`ConfigRuns.LostLandscapeRun`; exactly when:
  `ConfigRuns.RegistryLandscapeSurvivesRestartIff`).
- `Quit` and `restart` can return before their own request is carried out, on the token of another request; after a
  restart even `Quit` can return while the daemon goes on serving, although the comments at
  windows-agent/internal/daemon/daemon.go:178-180 and 206 say otherwise (`Daemons.EarlyQuitRun`; exactly when:
  `Daemons.EarlyReturnIff`, `Daemons.ReturnWhileRunningIff`).
- `Serve` and its callers can hang for good: cleaning up joins the network watcher, whose callback may be inside
  `restart`, waiting for a token that nobody publishes any more (`Daemons.JoinStuckRun`) or for room in the request
  channel (`Daemons.FullChannelRun`; exactly when: `Daemons.BlockedIff`, `Daemons.EveryCallerReturnsUnlessStuck`).
- The comment at windows-agent/internal/distros/database/database.go:29-30 promises that every write to the table
  reaches the disk; an invalid distro that cannot be created again leaves the table but not the file
  (`Databases.InvalidDistroRun`; exactly when: `Databases.DistroDB.GetDistroAndUpdateProperties`).
- A network adapter that disappears and comes back is not reported unless another one was added in between
  (`NetWatchers.ReturningAdapterRun`; exactly when: `NetWatchers.ReturningAdapterReportedIff`).

## Model

| member | source | states |
|---|---|---|
| `Tasks.Is` | windows-agent/internal/distros/task/task.go:31-36 | two tasks match exactly when they belong to the same class: all Pro attachments, all Landscape configurations, or one and the same plain task |
| `Tasks.IsByType` | windows-agent/internal/tasks/landscape_configure.go:39-42 | two tasks match if and only if both are Pro attachments, both are Landscape configurations, or they are equal |
| `Tasks.IsEquivalence` | windows-agent/internal/distros/task/task.go:31-36 | matching is reflexive, symmetric and transitive, so the argument order in the queue does not matter |
| `Tasks.RoundTrip` | windows-agent/internal/distros/task/yaml.go:33-112 | storing a list of tasks and reading it back is the identity if and only if every task type is registered; otherwise the whole document is rejected |
| `Tasks.StoredForm` | windows-agent/internal/distros/task/yaml.go:33-44 | the type name and the single field that are written for each type |
| `Tasks.UnmarshalSucceedsIff` | windows-agent/internal/distros/task/yaml.go:47-112 | a document is read if and only if each entry has contents of a registered type, and the tasks are, position by position, of the types that are named |
| `TaskQueues.RemoveIf` | windows-agent/internal/distros/worker/task_queue.go:204-233 | the in-place swaps leave the order-preserving filter of the slice in front, a permutation of the slice overall, and the rest of the backing array alone |
| `TaskQueues.AcceptOrReject` | windows-agent/internal/distros/worker/task_queue.go:205-216 | one round of the loop moves the half-processed picture (accepted, rejected, unprocessed) one entry further |
| `TaskQueues.TaskQueue.Load` | windows-agent/internal/distros/worker/task_queue.go:40-48 | the queue holds the new data, the old channel is closed and a fresh one without tokens replaces it |
| `TaskQueues.TaskQueue.Absorb` | windows-agent/internal/distros/worker/task_queue.go:51-67 | the contents are appended, the other queue is empty, both channels are closed and replaced |
| `TaskQueues.TaskQueue.Push` | windows-agent/internal/distros/worker/task_queue.go:86-101 | equivalents are gone, the task is last, and a token is sent unless four are waiting |
| `TaskQueues.TaskQueue.PushIfNew` | windows-agent/internal/distros/worker/task_queue.go:105-124 | nothing happens if an equivalent is queued; otherwise the task is last and a token is sent |
| `TaskQueues.TaskQueue.Contains` | windows-agent/internal/distros/worker/task_queue.go:127-138 | true if and only if an equivalent task is queued |
| `TaskQueues.TaskQueue.Remove` | windows-agent/internal/distros/worker/task_queue.go:141-146 | exactly the equivalents disappear, the order of the rest is kept |
| `TaskQueues.TaskQueue.TryPopFront` | windows-agent/internal/distros/worker/task_queue.go:190-201 | the first task is removed and returned; nothing happens on an empty queue |
| `TaskManagers.TaskManager.Save` | windows-agent/internal/distros/worker/task_management.go:147-166 | the file lists ready then deferred tasks, or is untouched when the write fails |
| `TaskManagers.TaskManager.Submit` | windows-agent/internal/distros/worker/task_management.go:69-92 | each task in turn leaves one queue and is pushed on the other, in memory even if the save fails |
| `TaskManagers.TaskManager.Resubmit` | windows-agent/internal/distros/worker/task_management.go:96-109 | a failed task becomes deferred unless an equivalent is ready (nothing saved) or deferred already |
| `TaskManagers.TaskManager.TryNextTask` | windows-agent/internal/distros/worker/task_management.go:114-117 | the first ready task, without touching the file |
| `TaskManagers.TaskManager.TaskDone` | windows-agent/internal/distros/worker/task_management.go:120-138 | retries go back, everything else is saved; no error is reported exactly when the task succeeded or will be retried and the save worked or was not needed |
| `TaskManagers.TaskManager.EnqueueDeferredTasks` | windows-agent/internal/distros/worker/task_management.go:142-144 | deferred tasks follow the ready ones |
| `TaskManagers.TaskManager.Load` | windows-agent/internal/distros/worker/task_management.go:169-191 | the ready tasks become those of the file; a missing file changes nothing, and an unreadable or undecodable one is an error that changes nothing |
| `TaskManagers.NewTaskManager` | windows-agent/internal/distros/worker/task_management.go:35-46 | a manager whose ready queue is the file and whose deferred queue is empty, or an error and an empty manager |
| `TaskManagers.RetryKeepsAnEquivalent` | windows-agent/internal/distros/worker/task_management.go:123-126 | after a retry error an equivalent task is always waiting |
| `TaskManagers.RetryWaitsBehind` | windows-agent/internal/distros/worker/task_management.go:96-109 | a retry leaves the ready tasks alone, defers the failed task last if and only if nothing of its kind waits, and saves unless something of its kind is ready |
| `TaskManagers.OtherEndsOnlySave` | windows-agent/internal/distros/worker/task_management.go:128-137 | every other end of a task leaves what waits alone and saves it |
| `TaskManagers.LastSubmittedIsLast` | windows-agent/internal/distros/worker/task_management.go:87-90 | of several tasks submitted at once the last one ends up last in its queue |
| `TaskManagers.LoadedIff` | windows-agent/internal/distros/worker/task_management.go:169-191 | loading fails if and only if there is a file that cannot be read or has an entry that cannot be decoded; otherwise the ready tasks are, position by position, of the types in the file |
| `TaskRuns.LatestWinsOnEveryRun` | windows-agent/internal/distros/worker/task_management.go:77-138 | on every run over submissions, retries, drops, failing saves and restarts, equivalent tasks are handed to Execute in submission order, provided that a restart after a failed save finds nothing on disk that was overtaken by an executed equivalent |
| `TaskRuns.NoDuplicatesOnEveryRun` | windows-agent/internal/distros/worker/task_queue.go:51-67 | ready and deferred tasks together, and the file, never hold two equivalent tasks, whatever saves fail and whenever the agent restarts |
| `TaskRuns.NewestWaitsOnEveryRun` | windows-agent/internal/distros/worker/task_management.go:94-109 | while no restart follows a failed save, what waits is the newest of its class, and a task in flight that is not the newest has the newest one waiting |
| `TaskRuns.FileKeepsPendingOnEveryRun` | windows-agent/internal/distros/worker/task_management.go:142-191 | unless the last save failed, ready then deferred tasks are the tail of the file; after a restart the ready queue is the file |
| `TaskRuns.EveryTaskAccountedForOnce` | windows-agent/internal/distros/worker/worker.go:157-180 | each admitted task is exactly one of pending, in flight, superseded by a newer equivalent, or finished |
| `TaskRuns.PromoteKeepsInv` | windows-agent/internal/distros/worker/task_management.go:142-144 | promoting keeps the concatenation, which is why it needs no save, and all invariants |
| `TaskRuns.RestartIsSafeIff` | windows-agent/internal/distros/worker/task_management.go:169-191 | from any reachable state, every continuation of a restart executes equivalent tasks in submission order if and only if nothing on disk was overtaken by an executed equivalent; a file whose last save succeeded is always safe |
| `TaskRuns.StaleFileBreaksLatestWins` | windows-agent/internal/distros/worker/task_management.go:147-166 | after a failed save, a restart is harmless before the newer task ran, and after it an old task runs after the newer one |
| `TaskRuns.StepKeepsInv` | windows-agent/internal/distros/worker/task_management.go:77-191 | every single step, restarts from a stale file included, keeps the invariant behind duplicates, file and conservation |
| `TaskRuns.StepKeepsOrder` | windows-agent/internal/distros/worker/task_management.go:77-191 | every step but a restart from a stale file with an overtaken task keeps the invariant behind the execution order |
| `TaskRuns.Erasure` | windows-agent/internal/distros/worker/task_management.go:69-191 | forgetting the stamps maps every step of a run to the step of the task manager, so the stamps are only bookkeeping |
| `TaskClasses.PushedIsLastAndOnly` | windows-agent/internal/distros/worker/task_queue.go:86-101 | after a push the pushed task is last and the only Pro attachment, Landscape configuration or equal plain task, and exactly the others are there before it, in order |
| `TaskClasses.PushedIfNewIff` | windows-agent/internal/distros/worker/task_queue.go:105-124 | a task is pushed as new if and only if no task of its type, or no equal plain one, is queued |
| `TaskClasses.OneOfEachOnEveryRun` | windows-agent/internal/distros/worker/task_queue.go:51-124 | on every run, ready and deferred tasks together, and the file, hold at most one Pro attachment, at most one Landscape configuration and no plain task twice |
| `TaskClasses.KindsInOrderOnEveryRun` | windows-agent/internal/distros/worker/task_management.go:77-138 | Pro attachments are executed in the order of submission, and so are Landscape configurations and equal plain tasks |
| `TaskClasses.FirstComeFirstServed` | windows-agent/internal/distros/worker/task_management.go:69-117 | as long as nothing is deferred, retried or restarted, tasks of all kinds are executed in the order of submission |
| `TaskFlights.PulledTaskOnDiskIff` | windows-agent/internal/distros/worker/task_management.go:69-117 | on every run, as long as a task that was on disk when pulled is in flight, an equivalent is on disk if and only if nothing was saved since or an equivalent was submitted no later than the last save |
| `TaskFlights.PulledTaskLeavesDiskRun` | windows-agent/internal/distros/worker/task_management.go:77-92 | from the start: a task is pulled, another one is submitted and saved, and a restart has forgotten the first one, which was not executed |
| `TaskRaces.RacedRetryIff` | windows-agent/internal/distros/worker/task_management.go:96-109 | a promotion between the two halves of a resubmission keeps the queues free of duplicates, and every continuation in submission order, if and only if an equivalent is ready or none is deferred |
| `TaskRaces.HarmlessRace` | windows-agent/internal/distros/worker/task_management.go:96-109 | in that case the race amounts to a promotion before or after the resubmission |
| `TaskRaces.RacedRetryRun` | windows-agent/internal/distros/worker/task_management.go:96-144 | from the start: an old task fails while a newer one is deferred and promoted, and runs again after it |
| `TaskRaces.TornSaveIff` | windows-agent/internal/distros/worker/task_management.go:142-150 | a promotion between the two reads of a save keeps the invariant of the file if and only if nothing is deferred; a restart forgets what was |
| `TaskRaces.TornSaveRun` | windows-agent/internal/distros/worker/task_management.go:142-150 | from the start: a deferred task is saved, promoted during the next save, and forgotten by a restart |
| `Workers.Distro.IsValid` | windows-agent/internal/distros/distro/distro.go:255-266 | valid means registered now and never found invalid before |
| `Workers.Distro.LockAwake` | windows-agent/internal/distros/distro/distro.go:279-284 | an invalid distro is not locked |
| `Workers.Distro.ReleaseAwake` | windows-agent/internal/distros/distro/distro.go:288-293 | an invalid distro is not released |
| `Workers.Distro.Cleanup` | windows-agent/internal/distros/distro/distro.go:235-241 | the lock is reset: its count is zero and its loop is cancelled |
| `Workers.WaitForActiveConnection` | windows-agent/internal/distros/worker/worker.go:230-258 | for every sequence of answers of WSL, registry and client, the loop over at most five attempts does to the distro what the recursive definition says, and ends as its last attempt |
| `Workers.ProcessSingleTask` | windows-agent/internal/distros/worker/worker.go:199-228 | for every answer of the environment, the outcome and the new state of the distro are those of the step function, which the next rows characterise |
| `Workers.ProcessingIsBalancedIff` | windows-agent/internal/distros/worker/worker.go:199-258 | the refcount is as before if and only if the outer lock was not taken or the registry knows the distro whenever it is asked until the release; at most two locks are left behind |
| `Workers.OutcomeIff` | windows-agent/internal/distros/worker/worker.go:199-274 | a task is executed if and only if its lock is taken and one of five attempts locks the distro and connects, and then ends as sent and confirmed or not; it is interrupted if and only if instead the agent was stopping at the last attempt; otherwise the distro is unreachable |
| `Workers.StopAndTimeoutDiffer` | windows-agent/internal/distros/worker/worker.go:165-178 | an agent that stops leaves the distro as valid as the registry says and saves what waits; a distro that is not reached in time is invalid for good and nothing is saved |
| `Workers.LockLeaks` | windows-agent/internal/distros/distro/distro.go:288-293 | a new distro that is unregistered while its only task succeeds keeps a count of one that cannot be released |
| `Workers.Worker.Report` | windows-agent/internal/distros/worker/worker.go:165-178 | unreachable: the distro is invalidated and nothing is saved; otherwise the manager is told |
| `Workers.Worker.ProcessNext` | windows-agent/internal/distros/worker/worker.go:157-180 | one round of the loop: the first ready task is pulled and the manager ends as its outcome prescribes |
| `Workers.RoundIsARun` | windows-agent/internal/distros/worker/worker.go:157-180 | such a round is a sequence of events of a run, so it keeps the invariants of the pipeline |
| `Workers.PulledTaskStaysStoredIff` | windows-agent/internal/distros/worker/worker.go:157-228 | for every outcome of a task in the file, an equivalent is still there after the report if and only if nothing was saved, an equivalent waits, or the task asked for a retry |
| `Workers.InterruptedTaskIsLost` | windows-agent/internal/distros/worker/worker.go:217-220 | from an empty start, a task that is submitted, saved and pulled as the agent stops is neither executed nor pending nor in the file |
| `WakeUp.NoLostWakeUp` | windows-agent/internal/distros/worker/task_queue.go:86-186 | in every interleaving that does not replace the channel and leave tasks between a failed pop and the read of the channel, a parked consumer has an empty queue |
| `WakeUp.StepKeepsInvIff` | windows-agent/internal/distros/worker/task_queue.go:86-186 | a step keeps a token available for the consumer if and only if it is not such a replacement |
| `WakeUp.StepsAreQueueOperations` | windows-agent/internal/distros/worker/task_queue.go:40-201 | the steps do to contents and tokens what the contracts of the queue's methods say, and the consumer takes the first task |
| `WakeUp.CancelLeavesQueue` | windows-agent/internal/distros/worker/task_queue.go:153-170 | a consumer that waits can be cancelled and takes nothing |
| `WakeUp.ConsumerIsServed` | windows-agent/internal/distros/worker/task_queue.go:153-186 | left alone with a non-empty queue, the consumer leaves with the first task within three steps |
| `WakeUp.ReplacementInGapLosesWakeUpIff` | windows-agent/internal/distros/worker/task_queue.go:162-169 | whatever a producer does in the gap, the consumer goes to sleep on a non-empty queue if and only if the producer replaced the channel and left tasks |
| `WakeUp.LostWakeUpRun` | windows-agent/internal/distros/worker/task_queue.go:51-67 | from an empty queue, absorbed deferred tasks are slept on |
| `AwakeLock.StateManager.Acquire` | windows-agent/internal/distros/distro/distro_state.go:48-78 | a lock succeeds if and only if a held distro runs, or a distro that is not held or has stopped could be started; the count grows exactly then, and a failed first lock changes nothing |
| `AwakeLock.StateManager.Release` | windows-agent/internal/distros/distro/distro_state.go:81-98 | an excess release is refused; the last one cancels the loop |
| `AwakeLock.StateManager.ResetAll` | windows-agent/internal/distros/distro/distro_state.go:101-113 | all standing locks are gone |
| `AwakeLock.LockedIff` | windows-agent/internal/distros/distro/distro_state.go:48-78 | only starting the distro makes a loop, which replaces the one of a stopped distro; a running one keeps its loop |
| `AwakeLock.ReleasedIff` | windows-agent/internal/distros/distro/distro_state.go:81-98 | a release succeeds if and only if somebody holds the lock, and only the last one cancels the loop |
| `AwakeLock.CounterMatchesLedger` | windows-agent/internal/distros/distro/distro_state.go:48-113 | on every run the 32-bit count is successful locks minus releases since the last reset, modulo 2^32, and a holder always has a cancel function, so a nil one is never called |
| `AwakeLock.AtMostOneKeeper` | windows-agent/internal/distros/distro/distro_state.go:48-144 | below 2^32 outstanding locks the count is that difference, cancel is nil exactly at zero, and at most one loop is alive, none at zero |
| `AwakeLock.LockIsConsistentIff` | windows-agent/internal/distros/distro/distro_state.go:74-75 | a lock keeps this consistency if and only if it does not succeed at the largest count |
| `AwakeLock.LockKeepsAwakeIff` | windows-agent/internal/distros/distro/distro_state.go:63-72 | a lock call keeps the distro awake for its holders if and only if it does not find a held distro stopped and fail to start it |
| `AwakeLock.StepKeepsAwakeIff` | windows-agent/internal/distros/distro/distro_state.go:48-144 | of all steps, exactly that lock call and the end of the context of a held distro leave holders without a loop |
| `AwakeLock.KeptAwakeIff` | windows-agent/internal/distros/distro/distro_state.go:14-17 | throughout a run the distro is kept awake whenever it is locked if and only if the run has none of these steps, and then exactly one loop is alive while the count is positive |
| `AwakeLock.HeldWithoutKeeper` | windows-agent/internal/distros/distro/distro_state.go:14-17 | from a fresh lock, both steps lead to a positive count with no loop alive |
| `AwakeLock.ReleaseAndResetConsistent` | windows-agent/internal/distros/distro/distro_state.go:81-113 | release and reset keep the consistency and the promise of the lock |
| `Configs.LoadAfterDump` | windows-agent/internal/config/config_marshal.go:13-54 | loading after a dump changes nothing although registry fields are not written, and loading twice is loading once |
| `Configs.ResolveIsHighest` | windows-agent/internal/config/config_source.go:28-62 | the token and the Landscape configuration in force come from the highest source that has something: registry before store before user |
| `Configs.LoadedFields` | windows-agent/internal/config/config_marshal.go:13-39 | field by field, the registry's values are those in memory and everything else is what the file says |
| `Configs.DigestInjective` | windows-agent/internal/config/config.go:358-371 | equal checksums mean equal values, the empty one included |
| `Configs.Config.Load` | windows-agent/internal/config/config_marshal.go:13-39 | the file wins except for the two registry fields; an unreadable file changes nothing |
| `Configs.Config.Set` | windows-agent/internal/config/config.go:257-278 | memory and file change together or both stay as load left them |
| `Configs.Config.Commit` | windows-agent/internal/config/config.go:119-126 | the second half of a token setter: all or nothing, and a notice is due exactly when the value was written |
| `Configs.Config.Deliver` | windows-agent/internal/config/config.go:306-314 | one of the notices that are due goes out, whichever goroutine comes first |
| `Configs.Config.SetSubscription` | windows-agent/internal/config/config.go:106-153 | refused if and only if the registry has a token in memory or, for a user token, the store has one in the file; otherwise the commit; a notice is due exactly when the value was written |
| `Configs.SetterIff` | windows-agent/internal/config/config.go:106-153 | a token gets into the file, and a notice is due, if and only if no other source stands above, everything can be read and written, and it is new; the other fields stay |
| `Configs.PushedFields` | windows-agent/internal/config/config.go:303-354 | field by field, what a loaded push leaves in memory and file; a Landscape configuration is taken over if and only if its checksum is another one, and counts as empty when it cannot be completed |
| `Configs.Config.SetUserLandscapeConfig` | windows-agent/internal/config/config.go:156-176 | refused if and only if the registry has a configuration in memory; the UID comes from memory, the write is all or nothing, observers get the completed configuration |
| `Configs.Config.SetLandscapeAgentUID` | windows-agent/internal/config/config.go:179-243 | UID and configuration change together exactly when the UID is new, some configuration exists, it can be completed and the dump works; a failed dump leaves what load produced |
| `Configs.Config.UpdateRegistryData` | windows-agent/internal/config/config.go:303-354 | the checksums decide who is owed a notice, of the resolved value, even if the dump fails |
| `ConfigRuns.ObserversInSyncOnEveryRun` | windows-agent/internal/config/config.go:106-371 | over every run of expected steps, with restarts, failing setters, steps between the two halves of a setter and notices that go out later in any order: whenever no notice is due the last one told the token in force, and otherwise the newest that is due will |
| `ConfigRuns.StepKeepsInvIff` | windows-agent/internal/config/config.go:106-371 | each of these steps keeps that, together with the checksum of the latest registry token in the file, if and only if it is expected |
| `ConfigRuns.DeliverOnCourseIff` | windows-agent/internal/config/config.go:119-126 | a delivery does so if and only if it is not the newest notice overtaking an older one with another token; the only notice that is due always brings observers in sync |
| `ConfigRuns.AllDeliveredIff` | windows-agent/internal/config/config.go:306-314 | in whatever order all the notices that are due go out, observers end in sync if and only if the last one says what the newest one says |
| `ConfigRuns.SetTokenInSyncIff` | windows-agent/internal/config/config.go:106-153 | a user or store token, before or after the first push, in one go or interrupted, keeps observers on course if and only if it is refused, writes nothing, or prevails over the other sources |
| `ConfigRuns.PrimedSetterIff` | windows-agent/internal/config/config.go:114-145 | after the first push, a token that passes the priority check prevails if and only if it is not an empty store token that uncovers a user token |
| `ConfigRuns.ReplacedTokenRun` | windows-agent/internal/config/config.go:106-127 | from the start: a user token and another one in its place reach the observers and the file |
| `ConfigRuns.HigherSourceRun` | windows-agent/internal/config/config.go:130-153 | from the start: a store token takes over from a user token, and the registry's from both |
| `ConfigRuns.EmptyStoreTokenRun` | windows-agent/internal/config/config.go:143-150 | from the start: an empty store token after a user and a store token leaves observers out of sync |
| `ConfigRuns.TokenBeforePushRun` | windows-agent/internal/config/config.go:114-145 | from the start: a user or store token after a push and a restart leaves them out of sync |
| `ConfigRuns.OvertakenSetterRun` | windows-agent/internal/config/config.go:109-126 | from the start: so does a user token that is committed after a push overtook its priority check |
| `ConfigRuns.ReorderedNoticesRun` | windows-agent/internal/config/config.go:119-126 | from the start: the notice of a user token goes out after that of a later registry token |
| `ConfigRuns.LostNoticeRun` | windows-agent/internal/config/config.go:303-351 | from the start: a restart before the notice of a registry token leaves the observers without it, and the same push again does not help |
| `ConfigRuns.PushKeepsInvIff` | windows-agent/internal/config/config.go:321-351 | a push keeps observers on course; it keeps the invariant if and only if it is not loaded, is dumped, or repeats the latest token |
| `ConfigRuns.RevertAfterUndumpedPushInSyncIff` | windows-agent/internal/config/config.go:321-371 | going back to the old token after a push that was not dumped keeps observers in sync if and only if both tokens resolve alike |
| `ConfigRuns.RevertedPushRun` | windows-agent/internal/config/config.go:321-371 | from the start: a token that is pushed without a dump and taken back leaves observers out of sync |
| `ConfigRuns.RegistryLandscapeSurvivesRestartIff` | windows-agent/internal/config/config.go:334-347 | after a restart with unchanged registry data the Landscape configuration of the registry is back if and only if it is empty |
| `ConfigRuns.LostLandscapeRun` | windows-agent/internal/config/config.go:334-347 | from the start: the configuration is in memory after a push and gone after a restart and the same push |
| `ReverseCalls.ReplyRoundTrip` | windows-agent/internal/proservices/wslinstance/client.go:98-113 | decoding an encoded result gives it back if and only if it is not an error without a text, which reads as success |
| `ReverseCalls.MsgToErrorIff` | windows-agent/internal/proservices/wslinstance/client.go:98-113 | only a result says something about the command, and it is an error if and only if it has a text |
| `ReverseCalls.HandshakeIff` | windows-agent/internal/proservices/wslinstance/wslinstance.go:146-161 | a handshake takes the first message and attaches the stream if and only if it is a non-empty name |
| `ReverseCalls.SendRefusedIff` | windows-agent/internal/proservices/wslinstance/proattachment.go:39-62 | nothing is sent exactly when the client is closed or the stream is not attached; a send that fails closes the client |
| `ReverseCalls.CallGetsThrough` | wsl-pro-service/internal/streams/server.go:184-223 | on a ready stream every command is run and answered, for every payload and result: one call is logged, it reports success or exactly this error, and the stream is ready again |
| `ReverseCalls.FirstCallSucceedsRun` | wsl-pro-service/internal/streams/server.go:101-168 | from the start, on either stream: a service sends its name, and the first command succeeds |
| `ReverseCalls.BrokenBeforeSending` | windows-agent/internal/proservices/wslinstance/landscapeconfig.go:68-75 | a command that cannot be sent is not run |
| `ReverseCalls.BrokenAfterRunning` | windows-agent/internal/proservices/wslinstance/landscapeconfig.go:77-82 | a stream that breaks while the command runs gives the caller the same answer, although the command did run |
| `ReverseCalls.DisconnectedMeansClosed` | windows-agent/internal/proservices/wslinstance/proattachment.go:54-67 | on every run, a client that reported a broken connection is closed |
| `ReverseCalls.RepliesArePaired` | windows-agent/internal/proservices/wslinstance/proattachment.go:39-74 | on every run with breaking streams, a reported success or error stands for the run of exactly this command with this result, different calls stand for different runs, and no reply is ever not a result |
| `ReverseCalls.ClosedSendsNothing` | windows-agent/internal/proservices/wslinstance/landscapeconfig.go:54-82 | a closed client stays closed and sends nothing more |
| `ReverseCalls.LinkStepKeepsLink` | wsl-pro-service/internal/streams/server.go:184-223 | the service answers its commands in order, one result each, after its name |
| `ReverseCalls.ReplyIsTruthful` | windows-agent/internal/proservices/wslinstance/landscapeconfig.go:77-88 | the message that the agent takes as the reply is the result of the command it awaits |
| `ReverseCalls.StepKeepsInv` | windows-agent/internal/proservices/wslinstance/client.go:86-113 | every step of agent, service and transport keeps the pairing invariant |
| `Daemons.PublishingIsNeverStuck` | windows-agent/internal/daemon/daemon.go:118-125 | whenever the token buffer is full, some accepted caller can take the token, after which publishing goes on |
| `Daemons.BlockedIff` | windows-agent/internal/daemon/daemon.go:85-203 | while an accepted caller waits, loop, callers and watchers cannot move without outside help if and only if no watcher gets on with its call and either a graceful stop waits for RPCs in flight or cleaning up is stuck joining a watcher inside restart |
| `Daemons.EveryCallerReturnsUnlessStuck` | windows-agent/internal/daemon/daemon.go:85-203 | left to itself, with RPCs in flight ending, the daemon makes a bounded number of steps in any order; when none is left, the loop is caught cleaning up if and only if that join is stuck, and otherwise every accepted caller has returned |
| `Daemons.StuckForGood` | windows-agent/internal/daemon/daemon.go:166-176 | a stuck join stays stuck whatever is called; the end of the context frees only a watcher whose request was not accepted |
| `Daemons.OnlyLastWatcherIsJoined` | windows-agent/internal/daemon/daemon.go:166-176 | cleaning up waits for the watcher that subscribed last and for no other one |
| `Daemons.FullChannelEnds` | windows-agent/internal/daemon/daemon.go:207-225 | when the context ends, a watcher whose request was not accepted gives up, and everybody returns |
| `Daemons.GracefulQuitWaitsRun` | windows-agent/internal/daemon/daemon.go:144-151 | a graceful quit waits for an RPC in flight and a forced one does not |
| `Daemons.ServerEndIsFinal` | windows-agent/internal/daemon/daemon.go:133-139 | a server that ends by itself ends the loop after one more token |
| `Daemons.JoinStuckRun` | windows-agent/internal/daemon/daemon.go:166-225 | from the start: a quit takes the last token while the watcher's restart is accepted, and neither Serve nor the watcher returns |
| `Daemons.FullChannelRun` | windows-agent/internal/daemon/daemon.go:166-225 | from the start: a second quit fills the channel, and the watcher cannot hand over its restart |
| `Daemons.StepKeepsInv` | windows-agent/internal/daemon/daemon.go:105-225 | accepted callers are as many as requests queued, in hand, or published and unread |
| `Daemons.ReturnsAfterAStop` | windows-agent/internal/daemon/daemon.go:205-225 | a caller that found the token buffer empty returns only after a later stop, its own or another one's |
| `Daemons.EarlyReturnIff` | windows-agent/internal/daemon/daemon.go:178-225 | a caller can return before its own request is carried out, without the server ending by itself, if and only if somebody else waits when it is accepted |
| `Daemons.ReturnWhileRunningIff` | windows-agent/internal/daemon/daemon.go:178-225 | it can do so while the daemon goes on if and only if the token of a restart is unread or a restart is in the loop's hands; at once if and only if a token is unread |
| `Daemons.EarlyQuitRun` | windows-agent/internal/daemon/daemon.go:178-203 | from the start: a quit returns on the token of a restart while the daemon serves and the quit is still queued |
| `Reconnects.RetryConnection.Request` | windows-agent/internal/proservices/landscape/utils.go:334-339 | after a request the channel has been closed exactly once |
| `Reconnects.RetryConnection.Reset` | windows-agent/internal/proservices/landscape/utils.go:348-354 | the old channel has been closed exactly once and a fresh open one takes its place |
| `Reconnects.NoChannelClosedTwice` | windows-agent/internal/proservices/landscape/utils.go:313-354 | on every run each channel is closed at most once, and every replaced one was closed |
| `Reconnects.NoRequestIsLost` | windows-agent/internal/proservices/landscape/service.go:159-249 | unless the service stops, an open request is followed by an attempt within seven steps of the loop, which is never blocked meanwhile |
| `Reconnects.AttemptAnswersRequest` | windows-agent/internal/proservices/landscape/service.go:185-188 | an attempt takes earlier requests off the books; a request during it is open again and visible |
| `Reconnects.CooldownArmedIff` | windows-agent/internal/proservices/landscape/service.go:160-189 | the loop tries again by itself if and only if no attempt has failed for want of a configuration since the last success |
| `Reconnects.EveryEndStartsOver` | windows-agent/internal/proservices/landscape/service.go:199-249 | however an attempt or a connection ends, the loop starts over unless the service was stopped |
| `Reconnects.StoppedLoopEnds` | windows-agent/internal/proservices/landscape/service.go:167-225 | after a stop every step brings the loop closer to its end, and it is never blocked |
| `Databases.DumpLoadRoundTrip` | windows-agent/internal/distros/database/database.go:242-313 | loading a dump rebuilds the same table, restricted to the entries that can be revived |
| `Databases.RevivedIff` | windows-agent/internal/distros/database/serializable_distro.go:24-30 | an entry is revived, valid and unchanged, if and only if its name is still registered with its GUID, or with any if it has none, and its worker starts |
| `Databases.NewDistroIff` | windows-agent/internal/distros/distro/distro.go:86-139 | a distro is made if and only if its name is registered, with the asked-for GUID if any, and its worker starts; it has the registered GUID and is valid |
| `Databases.StaysValidIff` | windows-agent/internal/distros/distro/distro.go:255-266 | it is valid as long as it is not invalidated and its name keeps its GUID |
| `Databases.LoadedFromLast` | windows-agent/internal/distros/database/database.go:262-271 | for every document, also one in which names collide, a key is loaded from the last entry under it that can be revived |
| `Databases.DumpAscends` | windows-agent/internal/distros/database/database.go:281-292 | the entries of a dump stand in the ascending lexicographic order of their keys, each key once |
| `Databases.DumpIsDeterministic` | windows-agent/internal/distros/database/database.go:276-313 | the order in which the map is walked does not show in the dump |
| `Databases.DistroDB.Dump` | windows-agent/internal/distros/database/database.go:278-313 | the file lists the entries sorted by key, or is untouched when the write fails |
| `Databases.DistroDB.Load` | windows-agent/internal/distros/database/database.go:242-274 | every loaded key is the lower-cased name of its entry; entries that cannot be revived are skipped; a missing file is an empty table, and one that cannot be read or parsed is an error that changes nothing |
| `Databases.NewDistroDB` | windows-agent/internal/distros/database/database.go:61-84 | opening fails exactly when there is a file that cannot be read or parsed |
| `Databases.DistroDB.GetDistroAndUpdateProperties` | windows-agent/internal/distros/database/database.go:138-189 | the returned distro is valid, in the table and has the properties, nothing else changes, and the file keeps following the table unless an invalid distro cannot be created again |
| `Databases.InvalidDistroRun` | windows-agent/internal/distros/database/database.go:155-170 | from an empty database: a distro that is found, unregistered and asked for again is in the file but not in the table |
| `Databases.DistroDB.Cleanup` | windows-agent/internal/distros/database/database.go:215-239 | exactly the invalid distros leave, and the file follows |
| `NetWatchers.Find` | windows-agent/internal/daemon/netwatcher.go:162-164 | binary search finds the first position not before the string, and whether the string is there |
| `NetWatchers.SearchDifference` | windows-agent/internal/daemon/netwatcher.go:154-170 | for a sorted second list the result is the linear filter of the first |
| `NetWatchers.DifferenceCounts` | windows-agent/internal/daemon/netwatcher.go:153-170 | nothing of the second list, everything else as often as in the first |
| `NetWatchers.DifferenceSorted` | windows-agent/internal/daemon/netwatcher.go:153-170 | the difference of a sorted list is sorted |
| `NetWatchers.ListAdapters` | windows-agent/internal/daemon/netwatcher.go:126-151 | the names of the devices with a valid GUID, sorted, or a failure exactly when listing or a name lookup fails |
| `NetWatchers.NetWatcher.Notify` | windows-agent/internal/daemon/netwatcher.go:77-94 | the cache stays sorted and moves only with a report |
| `NetWatchers.ReportedIff` | windows-agent/internal/daemon/netwatcher.go:84-93 | an adapter is reported if and only if it is listed and missing from the cache |
| `NetWatchers.ReturningAdapterReportedIff` | windows-agent/internal/daemon/netwatcher.go:84-93 | after any number of listings without it, an adapter that comes back is reported if and only if one of them held an adapter missing from the original cache |
| `NetWatchers.ReturningAdapterRun` | windows-agent/internal/daemon/netwatcher.go:84-93 | a single adapter that goes and comes back is never reported |
| `AdapterBuffers.NothingOverflows` | windows-agent/internal/daemon/networking.go:163-174 | for every element size no 64-bit step wraps around |
| `AdapterBuffers.RoundedIsLeastMultiple` | windows-agent/internal/daemon/networking.go:161-185 | the rounded size is the least multiple not below the request, and narrowing it to 32 bits loses nothing |
| `AdapterBuffers.Buffer.ResizeBytes` | windows-agent/internal/daemon/networking.go:162-185 | the allocation holds the returned size and never shrinks; a refusal changes nothing |
| `AdapterBuffers.GetAddrList` | windows-agent/internal/daemon/networking.go:98-151 | for every sequence of answers each call gets a non-empty buffer and a byte count within it; an overflow is retried with exactly the rounded size it asked for if that fits, ten times at most, and the last answer decides the outcome |

## Left out

- The graphical user interface, the Store API, the console launcher, logging, translations and generators: no state worth a proof.
- gRPC, TLS, YAML, INI, hashing and the WSL registry: libraries; they appear as functions or as arbitrary answers.
- The Landscape executor, cloud-init files and the subprocess calls of the Linux service: sequences of I/O.
- Time: time-outs, cool-downs and back-off are choices that may happen at any moment, including whether a dropped Landscape connection counts as short-lived.
- The blocking `Pull`, the serve loop, the Landscape loop and the two ends of the streams are concurrent; they are state machines over their steps on values, not methods, so update in place and aliasing are not captured there.
- The endless loop of `processTasks` is modelled by one round, `Workers.Worker.ProcessNext`; `SetConnection` and closing the old connection are not modelled.
- Interleavings inside one operation of the task manager: runs treat each operation as one step. `TaskRaces` covers a promotion inside a resubmission or a save; a pull inside a submission is not modelled.
- Writes that leave a truncated file behind: a failed write is taken to leave the old contents.
- Observers of the Landscape configuration over whole runs, and the order in which their notices go out; only the single operations and the loss after a restart are covered.
- Configs.Config.SetSubscription: the method takes the two critical sections of a setter one after the other; what happens between them is modelled in runs, by `ConfigRuns.Event.CommitToken`.
- A second `Serve`, and what the network watcher does besides calling `restart`; callers of `Quit` whose request is not accepted yet are not part of the daemon's state.
- A second supervising loop started by a repeated `Connect`, and the hand-over of the first attempt's result.
- Uniqueness of a client per distro name across reconnects; pairing is stated per client.
- Distro objects that are still referenced after they left the table; entries of the table are values, so properties set through such a reference are not modelled.
- Comparing plain tasks whose type cannot be compared, and tasks whose stored form loses fields.
- Workers.Distro.Cleanup: stopping the worker, which comes first in the source, is not modelled.
- Databases.DistroDB.Load: a file that exists but cannot be parsed is the same as one that cannot be read.
- Configs.Config.Load: a file that exists but cannot be parsed is the same as one that cannot be read.
