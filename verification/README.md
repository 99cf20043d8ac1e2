# Verified model of wamr-ext's stateful cores

wamr-ext runs WebAssembly apps with threads, child processes and sockets on top of
wasm-micro-runtime. This project models the parts of it whose correctness depends on state shared
between threads or on loops that fill arrays, and proves what these parts are meant to guarantee.

Each concurrent core is a system of atomic steps: a `State`, a `Label` per step, `Enabled` saying
when the step is possible, and `Apply` saying what it does. A step is one mutex critical section of
the C++ code, or one action outside all of them that another thread can observe. A run is a list of
labels, so a statement about `After(Initial, run)` is about every interleaving. Beside the step
systems stand classes whose methods update fields and arrays the way the C++ does. The methods of
the thread manager, of an instance and of the instance list are proved to make the protocol's own
steps; the child tables are proved against the two table updates that the process protocol applies,
with lemmas that say when it does; the others are proved against functions.

| files | core |
|---|---|
| `ThreadHandles`, `ThreadProtocol`, `ThreadInvariant`, `ThreadCleanup`, `ThreadHistory`, `ThreadAccidents`, `PthreadManager` | app threads: spawn, exit section, the joiner `CleanupAppThreadInfo` (`src/wamr_ext_lib/WasiPthreadExt.cpp`, `.h`) |
| `InstanceProtocol`, `InstanceInvariant`, `InstanceTheorems`, `InstanceArguments`, `InstanceApi`, `InstanceMemory` | instances: start, exec, destroy, the reaper loop thread, memory enlargement (`src/wamr_ext_api/wamr_ext_api.cpp`) |
| `ProcessProtocol`, `ProcessInvariant`, `ProcessTheorems`, `ProcessDescriptors`, `ProcManager`, `Redirection` | child processes: spawn, wait, redirection (`src/wamr_ext_lib/WasiProcessExt.cpp`, `.h`) |
| `PollOneOff`, `InterfaceListing` | `poll_oneoff` of WASI snapshot preview1 and the interface listing (`src/wamr_ext_lib/WasiSocketExt.cpp`) |

## Results in short

- **App threads.** When cleanup returns, in every interleaving with threads that keep spawning,
  every thread ever spawned has left its exit section, was joined or detached once and freed its
  stack once, and the map holds the main entry alone. A run has at most its starting work plus
  twenty steps per spawn, and cleanup is never stuck, so with finitely many spawns it ends,
  provided an app thread that was told to stop does leave app code. Info records outlive their
  threads, no wakeup is lost, and no thread is stopped or given an exception without a cause.
- **Destructors.** Cleanup is not the end: destroy of a started instance then runs the app's
  destructors, which can spawn threads that nobody joins. When destroy comes to tear the instance
  down, all app threads are over and disposed of once if and only if no record in the map still has
  a `waitCount` of zero or more; otherwise teardown deletes the `std::thread` of a thread that still
  runs. A thread a destructor left in the map may well be over, for it detaches itself and nobody
  erases its record. Without destructors the condition always holds.
- **When it fails.** A step out of a good state is safe if and only if it is `Orderly`. The five
  unsafe cases are real branches of the code: a condition variable waking without a notification
  (`exitCV.wait` has no predicate; cleanup then deadlocks for good), a thread reaching `detach` or
  being joined before its spawner stored `pHostThread` (null dereference), a spawn that fails
  after its info record exists (`handleID` is still 0, so the main entry is erased and exceptions
  no longer reach the main thread), and teardown under a thread that a destructor spawned. A
  concrete run reaches each of the five.
- **Instances.** Phases only rise along the documented edges; no call and no loop visit uses a
  module instance or exec env that is gone; the exception callback fires at most once, does
  fire, and fires for nothing but an exception; one loop pass removes everything that was destroyed before it began and nothing that was
  not. Instances of one module that start at once each get their own arguments, thanks to
  `gWasmLock`. Destroy can find the thread manager if and only if start did not run out of memory
  while enlarging: after that failure the exec env exists but its custom data was never set, and a
  concrete run takes destroy there.
- **Memory.** Start reads the memory limit five times without the lock under which
  `wamr_ext_instance_set_opt` changes it. Enlargement leaves a consistent memory, with the heap at
  its old offset and distance from the end, if and only if the four reads after the first agree on
  a limit that has room for a heap; when nobody sets the option during start they do. A limit
  lowered in between can leave a heap that ends far behind the allocated block. The assertion `max == cur == 1` in the code compares a truth value with 1 and
  accepts any equal counts, though the result is consistent only for a count of one.
- **Child processes.** A child inherits the write end of its own pipe and of no other, and its own
  exactly unless a redirection replaces it. A read end hangs up if and only if the child's own
  family and, inside the critical section, its spawner have let go. The two table maps stay
  inverse, `waitpid` always knows the child it is asked about, and each child is in flight, in the
  table or reported, exactly one of these. No pipe end is leaked, whether spawns succeed or fail.
  Without the global lock a sibling can inherit a write end.
- **Redirection.** The last action on a stream wins; the host's three dup2 calls act at once, for
  every descriptor table, if and only if no source is clobbered by an earlier call.
- **Polling and listing.** The output array is an order-preserving selection of the subscriptions
  followed by zeros, each event saying what the host answered for its subscription; the timeout is
  the first minimum; the two passes of the interface listing
  agree and list every address once.

## Modelling decisions

- The runtime's own operations (instantiate, exec env, allocation, running app code) are steps or
  parameters with any outcome. The operating system may do anything, except that it hands out
  process ids and descriptors not in use and that nobody else reaps the runtime's children.
- `new std::thread` is two steps, the thread starting and the spawner storing the pointer; the
  insertion into the map is a step of its own before them. Cleanup is the only joiner, because
  destroy holds `execFuncLock`, and the main thread is in no app code meanwhile for the same reason.
- Destroying the exec env and the module instance and deleting the records is one step; threads
  that still run at that point have no defined behaviour and take no step after it.
- Main is thread 0 with key 0, registered before the first spawn (`wamr_ext_api.cpp` line 358).
- `gWasmLock` is held by start from setting the module's arguments to registration. Creating an
  instance and stepping the loop thread's iterator wait for it.
- An app thread that was told to stop can always leave app code; that it does is the runtime's part.
- A stored map iterator is a process id. A direct child's `exited` flag is what `waitpid` would see.
- Hash-map iteration order is arbitrary: snapshots are any listing of the entries.

## Model

| member | source | states |
|---|---|---|
| ThreadHandles.FirstFreeIsUnique | src/wamr_ext_lib/WasiPthreadExt.cpp:174-185 | the probe of the wrapping handle counter has one possible answer for a map and a counter value |
| ThreadHandles.ProbeEndsIff | src/wamr_ext_lib/WasiPthreadExt.cpp:174-185 | the probe reaches an answer if and only if some handle is free, which any map of fewer than 2^32 keys guarantees |
| ThreadHandles.FreshHandle | src/wamr_ext_lib/WasiPthreadExt.cpp:176-184 | with the main entry present the handle found is neither 0 nor a live one |
| ThreadHandles.TidCollision | src/wamr_ext_lib/WasiPthreadExt.cpp:181 | thread ids lie in 1..INT32_MAX and are the handle up to there; two handles share one exactly when both have reached INT32_MAX |
| ThreadHandles.CarvedStackFitsIff | src/wamr_ext_lib/WasiPthreadExt.cpp:153-173 | the stack bottom is 16-aligned; it lies in the block and leaves more than the requested size and at most 16 bytes more if and only if the block does not wrap |
| ThreadInvariant.OrderlyStepKeepsInv | src/wamr_ext_lib/WasiPthreadExt.cpp:37-206 | every orderly step of spawners, exiting threads and the joiner keeps the invariant on map, records, wait counts and the cleanup round |
| ThreadInvariant.OrderlyRunKeepsInv | src/wamr_ext_lib/WasiPthreadExt.cpp:37-206 | so it holds throughout every orderly run |
| ThreadInvariant.EraseKeepsInv | src/wamr_ext_lib/WasiPthreadExt.cpp:86-89 | the erase at the end of a join removes that thread's record and no other, although it goes by handle |
| ThreadInvariant.SnapshotListsRegistered | src/wamr_ext_lib/WasiPthreadExt.cpp:40-47 | a snapshot holds exactly the registered app threads |
| ThreadCleanup.StepIsSafeIffOrderly | src/wamr_ext_lib/WasiPthreadExt.cpp:68-213 | a step out of a good state is safe, and keeps the invariant, if and only if it is not one of the five unsafe branches |
| ThreadCleanup.RecordOutlivesItsThread | src/wamr_ext_lib/WasiPthreadExt.cpp:186-206 | a thread before the end of its exit section has a live record and no disposal yet; an unmapped record's thread was joined or detached once; the stack is freed once, on exit; at teardown all are over |
| ThreadCleanup.NoLostWakeup | src/wamr_ext_lib/WasiPthreadExt.cpp:71-84 | an un-notified joiner waits for a thread that was told to stop and is still to run its exit section, `join` for one that has left it, and `waitCount` is -1 or the number of waiters not resumed |
| ThreadCleanup.CleanupIsComplete | src/wamr_ext_lib/WasiPthreadExt.cpp:37-57 | at return every thread ever spawned is over, disposed of once and its stack freed once, and the map is exactly the main entry |
| ThreadCleanup.ReturnedLeavesDestroyAlone | src/wamr_ext_api/wamr_ext_api.cpp:421-448 | right after the return no app thread can take a step; destroy goes on with the destructors of a started instance and with teardown of any other |
| ThreadCleanup.TearDownIsCleanIff | src/wamr_ext_api/wamr_ext_api.cpp:421-452 | at teardown, in every run, all app threads are over and disposed of once, and no joinable `std::thread` is deleted, if and only if no mapped record counts waiters; always so without destructors or with only main mapped |
| ThreadCleanup.OnlyDestructorsLeaveThreads | src/wamr_ext_api/wamr_ext_api.cpp:421-428 | a thread that is not over at any time after cleanup returned was spawned after that |
| ThreadInvariant.UnfinishedIsJoinable | src/wamr_ext_lib/WasiPthreadExt.h:42 | if any app thread is not settled at teardown, some mapped record holds a joinable host thread |
| ThreadCleanup.RunsAreBounded | src/wamr_ext_lib/WasiPthreadExt.cpp:39-54 | an orderly run is no longer than the work at its start plus twenty steps per spawn |
| ThreadCleanup.CleanupNeverStuck | src/wamr_ext_lib/WasiPthreadExt.cpp:39-90 | between begin and return of cleanup some orderly step other than a spawn is possible |
| ThreadCleanup.MaximalRunReturns | src/wamr_ext_lib/WasiPthreadExt.cpp:37-57 | a run with cleanup begun that only spawning or destroy's later steps can prolong has seen it return, within a bound given by its spawns |
| ThreadCleanup.SpuriousWakeupDeadlocks | src/wamr_ext_lib/WasiPthreadExt.cpp:77-84 | after a wakeup without notification the joiner never returns, in any run |
| ThreadCleanup.ExceptionReachesEveryRegisteredThread | src/wamr_ext_lib/WasiPthreadExt.cpp:92-112 | an exception of an ending app thread is copied, text unchanged, to every other registered thread, main included |
| ThreadCleanup.MainHearsOfEveryException | src/wamr_ext_lib/WasiPthreadExt.cpp:95-106 | from then on the main thread carries an exception, in every later state |
| ThreadCleanup.LiveTidsDiffer | src/wamr_ext_lib/WasiPthreadExt.cpp:176-182 | registered threads have different handles, and different ids unless both handles passed INT32_MAX |
| ThreadHistory.UnwindSpreadsOwnExceptionOnly | src/wamr_ext_lib/WasiPthreadExt.cpp:92-112 | a thread that ends without an exception changes no other; one with an exception hands it to the other registered threads alone |
| ThreadHistory.NoExceptionFromNowhere | src/wamr_ext_lib/WasiPthreadExt.cpp:95-106 | in every run, accidents included, an exception carried by any thread was raised by app code |
| ThreadHistory.OnlyCleanupStopsThreads | src/wamr_ext_lib/WasiPthreadExt.cpp:50-51 | an app thread told to stop while in app code is in the round of a cleanup under way |
| ThreadHistory.HandlesCountSpawns | src/wamr_ext_lib/WasiPthreadExt.cpp:176-182 | the first 2^32 - 1 app threads get the handles 1, 2, 3 and so on, so none is used twice before the counter comes round |
| ThreadAccidents.NullDetachIsPossible | src/wamr_ext_lib/WasiPthreadExt.cpp:186-201 | a concrete run in which a thread detaches before its spawner stored `pHostThread` |
| ThreadAccidents.SpuriousWakeupIsPossible | src/wamr_ext_lib/WasiPthreadExt.cpp:71-84 | a concrete run after which a spurious wakeup deadlocks cleanup |
| ThreadAccidents.NullJoinIsPossible | src/wamr_ext_lib/WasiPthreadExt.cpp:77-84 | a concrete run in which cleanup joins a thread before its spawner stored `pHostThread` |
| ThreadAccidents.LateFailureIsPossible | src/wamr_ext_lib/WasiPthreadExt.cpp:208-214 | a concrete run after which a late spawn failure keeps an app thread's exception from the main thread, which it would reach otherwise |
| ThreadAccidents.DestructorSpawnIsTornDown | src/wamr_ext_api/wamr_ext_api.cpp:423-448 | a concrete run in which a destructor spawns a thread and teardown comes while it runs |
| ThreadAccidents.DetachedThreadStaysMapped | src/wamr_ext_lib/WasiPthreadExt.cpp:197-201 | a concrete run in which a destructor's thread is over at teardown though its record is still mapped |
| ThreadAccidents.LateFailureHidesExceptions | src/wamr_ext_lib/WasiPthreadExt.cpp:208-214 | once a late spawn failure erased key 0, an app thread's exception leaves the main thread as it was |
| PthreadManager.Manager.constructor | src/wamr_ext_lib/WasiPthreadExt.cpp:28-35 | the manager starts in the protocol's initial state |
| PthreadManager.Manager.PublishThread | src/wamr_ext_lib/WasiPthreadExt.cpp:174-185 | the probing loop ends and makes one publish step under a fresh handle; the counter stands behind it, and the id is the handle up to INT32_MAX |
| PthreadManager.Manager.AppThreadExit | src/wamr_ext_lib/WasiPthreadExt.cpp:92-112 | one unwind step: the own exception, if there is one, goes unchanged to the other registered threads, nobody else changes, and the thread is cancelled |
| PthreadManager.Manager.ExitThread | src/wamr_ext_lib/WasiPthreadExt.cpp:197-205 | the exit section makes one exit step, and crashes exactly when it detaches with no host thread stored |
| PthreadManager.Manager.TakeSnapshot | src/wamr_ext_lib/WasiPthreadExt.cpp:40-49 | the snapshot loop lists the app threads, in any order, and makes one snapshot step |
| PthreadManager.Manager.CancelNext | src/wamr_ext_lib/WasiPthreadExt.cpp:50-51 | one turn of the loop makes one cancel step |
| PthreadManager.Manager.LockAndWait | src/wamr_ext_lib/WasiPthreadExt.cpp:70-78 | the first part of a join makes one lock step |
| PthreadManager.Manager.WakeUp | src/wamr_ext_lib/WasiPthreadExt.cpp:79-81 | the part after the wait makes one resume step, and crashes exactly when no host thread is stored |
| PthreadManager.Manager.FinishJoin | src/wamr_ext_lib/WasiPthreadExt.cpp:81-83 | the return of `join` makes one join-return step |
| PthreadManager.Manager.Dispose | src/wamr_ext_lib/WasiPthreadExt.h:42 | deleting the records one by one makes one teardown step, and ends the process exactly when some record still counts waiters |
| PthreadManager.Manager.EraseEntry | src/wamr_ext_lib/WasiPthreadExt.cpp:86-89 | the tail of a join makes one erase step |
| InstanceInvariant.LocalStepIsOk | src/wamr_ext_api/wamr_ext_api.cpp:256-455 | each step of start, exec and destroy establishes what the next one relies on and never lowers the phase |
| InstanceInvariant.StepsKeepInv | src/wamr_ext_api/wamr_ext_api.cpp:114-455 | every step of any API thread and of the loop thread keeps the invariant |
| InstanceTheorems.OnlyLiveObjectsAreUsed | src/wamr_ext_api/wamr_ext_api.cpp:125-148 | no API thread uses a module instance, exec env or thread manager that is not there, calls on one instance exclude each other, the loop thread's iterator is a live node whenever it is under way and it queries live modules only |
| InstanceTheorems.CleanupFindsManagerIff | src/wamr_ext_api/wamr_ext_api.cpp:328-422 | destroy of an instance with an exec env finds its thread manager if and only if start did not fail in the reallocation |
| InstanceTheorems.ManagerCanBeMissing | src/wamr_ext_api/wamr_ext_api.cpp:328-334 | a concrete run that takes destroy to the cleanup of an instance whose thread manager cannot be found |
| InstanceArguments.InstantiatedWithOwnArguments | src/wamr_ext_api/wamr_ext_api.cpp:301-309 | in every run each instance is instantiated with the arguments its own start put into the shared module |
| InstanceArguments.OverlappingStartsMixArguments | src/wamr_ext_api/wamr_ext_api.cpp:301-309 | without `gWasmLock` two starts on one module can give one instance the other's arguments |
| InstanceTheorems.StepsFollowEdges | src/wamr_ext_api/wamr_ext_api.cpp:114-455 | one step changes a phase only along an edge of the life cycle |
| InstanceTheorems.PhasesOnlyRise | src/wamr_ext_lib/WamrExtInternalDef.h:33-39 | over every run the phase of every instance rises |
| InstanceTheorems.EndedRunsNoDtors | src/wamr_ext_api/wamr_ext_api.cpp:411-428 | an instance that ended, by an exception or a failed start, before any destroy never runs destructors in any continuation |
| InstanceTheorems.DestroyLeavesNothingOut | src/wamr_ext_api/wamr_ext_api.cpp:421-452 | destructors run after the threads were cleaned up, and an instance that start brought up is destroyed only with threads cleaned up, files closed and nothing left allocated |
| InstanceTheorems.CallbackAtMostOnce | src/wamr_ext_api/wamr_ext_api.cpp:127-141 | the exception callback runs at most once per instance and only after it ended |
| InstanceTheorems.ExceptionIsReported | src/wamr_ext_api/wamr_ext_api.cpp:127-141 | a visit that finds a started instance with an exception ends it, and a configured callback has run once as soon as the loop thread moves on |
| InstanceTheorems.OnlyExceptionsEnd | src/wamr_ext_api/wamr_ext_api.cpp:125-148 | a step ends a started instance, or sends the loop thread to a callback, only if it visits that instance started with an exception; the loop thread changes nothing else of any instance |
| InstanceTheorems.EndsOnlyByException | src/wamr_ext_api/wamr_ext_api.cpp:125-148 | so over every run behind each ended start and each callback lies such a visit |
| InstanceTheorems.PassRemovesTheDead | src/wamr_ext_api/wamr_ext_api.cpp:114-160 | one loop pass with concurrent calls and appends removes every instance destroyed before it began |
| InstanceTheorems.OnlyTheDeadAreRemoved | src/wamr_ext_api/wamr_ext_api.cpp:143-157 | over any run only destroyed instances leave the list, none twice, and the others keep their order |
| InstanceApi.StartSteps | src/wamr_ext_api/wamr_ext_api.cpp:256-377 | where start leaves an instance, for every outcome of the runtime calls it makes |
| InstanceApi.DestroySteps | src/wamr_ext_api/wamr_ext_api.cpp:406-455 | where destroy leaves an instance |
| InstanceApi.Instance.Start | src/wamr_ext_api/wamr_ext_api.cpp:256-377 | start does the protocol's steps; it returns 0 exactly for a new instance whose runtime calls all succeed and else -1, and a failure before the exec env leaves the instance new |
| InstanceApi.Instance.ExecMain | src/wamr_ext_api/wamr_ext_api.cpp:379-404 | main runs exactly on a started instance that exports it, with module and exec env in place; its value is returned, and any failure gives -1 |
| InstanceApi.Instance.Destroy | src/wamr_ext_api/wamr_ext_api.cpp:406-455 | destroy does the protocol's steps: it cleans up threads, runs destructors once for a started instance and not at all otherwise, closes files and releases everything; it comes to its end if and only if start did not give up for want of memory |
| InstanceApi.NodeSteps | src/wamr_ext_api/wamr_ext_api.cpp:122-153 | what the visit, callback and advance steps at one node come to together |
| InstanceApi.InstanceTable.VisitNode | src/wamr_ext_api/wamr_ext_api.cpp:122-153 | one visit makes the loop thread's visit, callback and advance steps: exactly a started instance with an exception ends, with its callback called if set, and exactly a destroyed one is erased |
| InstanceApi.InstanceTable.LoopCheckInstanceRoutine | src/wamr_ext_api/wamr_ext_api.cpp:114-160 | an undisturbed pass is a run of the loop thread's steps: exactly the listed instances that were started with an exception end, healthy ones stay as they were, and the list keeps exactly those not destroyed, in order |
| InstanceMemory.LimitsAreWholePages | src/wamr_ext_api/wamr_ext_api.cpp:55-63 | every option sequence leaves a positive whole number of pages |
| InstanceMemory.InstanceConfig.SetMaxMemory | src/wamr_ext_api/wamr_ext_api.cpp:55-63 | the new limit is the value rounded down to pages, less than a page below it; a value below a page is refused and changes nothing |
| InstanceMemory.HeapGrowsWithMemory | src/wamr_ext_api/wamr_ext_api.cpp:321-322 | for one limit the heap size computed in uint32 is the old one plus the growth, fits the limit and keeps the distance to the end |
| InstanceMemory.LayoutHoldsIff | src/wamr_ext_api/wamr_ext_api.cpp:319-342 | with each read of the limit on its own, the result is consistent with the heap in place if and only if the reads after the guard agree and leave room for a heap |
| InstanceMemory.SteadyLimitKeepsLayout | src/wamr_ext_api/wamr_ext_api.cpp:317-356 | with the option left alone the result is consistent and the heap in place for every limit |
| InstanceMemory.HeapInsideBlockIff | src/wamr_ext_api/wamr_ext_api.cpp:321-339 | exactly when the heap ends inside the allocated block |
| InstanceMemory.ChecksAreExact | src/wamr_ext_api/wamr_ext_api.cpp:343-355 | each width's bound check admits exactly the accesses inside the memory size, all inside the block if and only if the limit did not fall between the reads |
| InstanceMemory.ReadsCanDisagree | src/wamr_ext_api/wamr_ext_api.cpp:248-253 | a lowered option during start leaves a 4 MiB heap in a 128 KiB block |
| InstanceMemory.AssertIsTooWeak | src/wamr_ext_api/wamr_ext_api.cpp:320-323 | the assertion accepts any equal page counts while pages and bytes agree afterwards only for one page |
| InstanceMemory.MemoryInstance.Enlarge | src/wamr_ext_api/wamr_ext_api.cpp:317-356 | the statements update the fields to the enlarged memory at the new address, consistent under that same condition; a small enough limit changes nothing and a failed realloc leaves no heap |
| ProcessInvariant.InheritsOwnPipe | src/wamr_ext_lib/WasiProcessExt.cpp:131-141 | a child forked under the lock inherits no write end but that of its own pipe, and that one exactly unless a dup2 action replaces it |
| ProcessInvariant.StepKeepsInv | src/wamr_ext_lib/WasiProcessExt.cpp:129-249 | every step of spawners, waiters and processes keeps the invariant on descriptors, processes and tables |
| ProcessTheorems.HangUpIffFamilyLetGo | src/wamr_ext_lib/WasiProcessExt.cpp:129-151 | a read end hangs up if and only if the child's own family and its spawner in the critical section have let go |
| ProcessTheorems.TablesStayInverse | src/wamr_ext_lib/WasiProcessExt.cpp:152-155 | the two maps are inverse in every reachable state and `waitpid` knows every entry |
| ProcessTheorems.ChildrenAreConserved | src/wamr_ext_lib/WasiProcessExt.cpp:142-234 | every spawned child is in flight, tabled or reported, one of these, reported once, and its read end is open exactly until then |
| ProcessDescriptors.NoPipeEndIsLeaked | src/wamr_ext_lib/WasiProcessExt.cpp:131-151 | over every run with failed spawns among its steps, an open pipe end belongs to a spawn under way or to a child not reported yet |
| ProcessDescriptors.QuietHostHoldsChildrensEnds | src/wamr_ext_lib/WasiProcessExt.cpp:131-151 | with no spawn under the lock the open pipe ends are exactly the read ends of the children not reported yet |
| ProcessTheorems.LiveChildrenDiffer | src/wamr_ext_lib/WasiProcessExt.cpp:152-155 | children awaiting their report differ in process id and read end |
| ProcessTheorems.ReapReportsTheExited | src/wamr_ext_lib/WasiProcessExt.cpp:214-238 | the wait's critical section reports a child exactly when it is tabled under the descriptor and has exited, and otherwise changes nothing |
| ProcessTheorems.ReportsAreFinal | src/wamr_ext_lib/WasiProcessExt.cpp:218-234 | reports are never taken back |
| ProcessTheorems.OverlappingSpawnsLeakWriteEnd | src/wamr_ext_lib/WasiProcessExt.cpp:131-151 | without the global lock a sibling ends up holding a child's write end |
| ProcManager.InsertIsProtocolStep | src/wamr_ext_lib/WasiProcessExt.cpp:152-155 | wherever the protocol inserts, the entry is new and the step is that table update, on this table alone |
| ProcManager.ReapIsProtocolStep | src/wamr_ext_lib/WasiProcessExt.cpp:214-238 | wherever the protocol reaps a tabled child, the step removes, closes and reports it if it has exited and changes nothing if it runs |
| ProcManager.RoundIsProtocolRun | src/wamr_ext_lib/WasiProcessExt.cpp:209-242 | a round over running children and then one more descriptor is a run of reap steps that comes to the last one |
| ProcManager.Manager.Insert | src/wamr_ext_lib/WasiProcessExt.cpp:152-155 | the insert makes the protocol's table update and keeps the maps inverse |
| ProcManager.Manager.Snapshot | src/wamr_ext_lib/WasiProcessExt.cpp:176-193 | the descriptors polled are exactly those of the children asked for |
| ProcManager.Manager.TryReap | src/wamr_ext_lib/WasiProcessExt.cpp:210-242 | one round reports at most one child, one that is ready and over, or shows that none is |
| ProcManager.Manager.WaitPid | src/wamr_ext_lib/WasiProcessExt.cpp:169-251 | the last round decides: a poll error is returned, a timeout reports nothing, and a child asked for that is ready and over is reported with its own status and removed exactly if there is one; the wait goes on only after quiet rounds and polls once with WNOHANG |
| Redirection.LastActionWins | src/wamr_ext_lib/WasiProcessExt.cpp:97-116 | a stream gets the source of the last action on it, else its own descriptor |
| Redirection.Fold | src/wamr_ext_lib/WasiProcessExt.cpp:96-116 | the fold computes these slots and fails exactly when a redirecting action has an unknown source |
| Redirection.DupsInOrderAreSimultaneousIff | src/wamr_ext_lib/WasiProcessExt.cpp:123-126 | the three dup2 calls in order act as one simultaneous redirection, for every table, if and only if no source is clobbered |
| Redirection.HighSourcesNeverClobber | src/wamr_ext_lib/WasiProcessExt.cpp:123-126 | sources of at least 3 never clobber |
| PollOneOff.FirstMinimumIsUnique | src/wamr_ext_lib/WasiSocketExt.cpp:887-890 | timeout and recorded subscription are determined by the subscriptions |
| PollOneOff.AllowanceEndsAtDeadline | src/wamr_ext_lib/WasiSocketExt.cpp:878-891 | a relative clock allows its timeout, an absolute one the time to its deadline and nothing afterwards, an unreadable one no limit |
| PollOneOff.FdTable.Get | src/wamr_ext_lib/WasiSocketExt.cpp:894-896 | a successful lookup returns with the wrap locked |
| PollOneOff.ScanFd | src/wamr_ext_lib/WasiSocketExt.cpp:893-914 | one subscription fills its poll entry with the host descriptor and direction, or marks it invalid, and every descriptor wrap locked on the way is unlocked again |
| PollOneOff.Scan | src/wamr_ext_lib/WasiSocketExt.cpp:865-916 | the scan finds the first minimum timeout, if any is limited, fills the poll entries, knows whether anything is to be polled and releases every lock |
| PollOneOff.MillisAreWithinOne | src/wamr_ext_lib/WasiSocketExt.cpp:928 | the poll timeout is never longer than the request and less than a millisecond short of it unless clamped |
| PollOneOff.EventsAreOrderedSelection | src/wamr_ext_lib/WasiSocketExt.cpp:945-969 | the events are an order-preserving selection with one event for each reporting subscription and none for the others |
| PollOneOff.EventsDescribe | src/wamr_ext_lib/WasiSocketExt.cpp:945-969 | exactly the subscriptions with something to report have an event, with their own user data and type, and bad descriptor, success or broken pipe and hang-up as the host answered |
| PollOneOff.Deliver | src/wamr_ext_lib/WasiSocketExt.cpp:934-971 | from the host's answer to error, count and these events |
| PollOneOff.EveryEventHasItsSubscription | src/wamr_ext_lib/WasiSocketExt.cpp:945-969 | every event is that of exactly one subscription |
| PollOneOff.NoEventsIff | src/wamr_ext_lib/WasiSocketExt.cpp:945-969 | no event comes out exactly when every descriptor is valid and shows neither data nor hang-up |
| PollOneOff.Collect | src/wamr_ext_lib/WasiSocketExt.cpp:945-969 | the compaction loop writes exactly these events, each describing its own subscription and what its descriptor came back with, and leaves the rest zero |
| PollOneOff.Poll | src/wamr_ext_lib/WasiSocketExt.cpp:852-972 | error, count and content of the output array and the time waited, on every path |
| InterfaceListing.AddressRoundTrip | src/wamr_ext_lib/WasiSocketExt.cpp:154-197 | internet addresses survive conversion to the app's form and back |
| InterfaceListing.LessIsLexicographic | src/wamr_ext_lib/WasiSocketExt.cpp:783 | names are compared byte by byte, a prefix first |
| InterfaceListing.AssignIsMapUpdate | src/wamr_ext_lib/WasiSocketExt.cpp:783-788 | assignment in the sorted map changes one key and keeps the order |
| InterfaceListing.AddressesAreFiltered | src/wamr_ext_lib/WasiSocketExt.cpp:786-804 | a name collects exactly its internet addresses, in list order |
| InterfaceListing.TableTabulates | src/wamr_ext_lib/WasiSocketExt.cpp:786-804 | the map is sorted and holds exactly the names of the host list |
| InterfaceListing.LatestEntryWins | src/wamr_ext_lib/WasiSocketExt.cpp:786-804 | an interface has the flags of its last entry and the hardware address and index of its last link-layer entry |
| InterfaceListing.Build | src/wamr_ext_lib/WasiSocketExt.cpp:786-804 | the first loop builds this map |
| InterfaceListing.Count | src/wamr_ext_lib/WasiSocketExt.cpp:805-806 | the counting pass computes the number of slots |
| InterfaceListing.FillGroup | src/wamr_ext_lib/WasiSocketExt.cpp:817-837 | one interface's slots are written and nothing before them |
| InterfaceListing.SlotCarriesItsEntry | src/wamr_ext_lib/WasiSocketExt.cpp:816-837 | a slot carries its name, cut to 31 bytes, the known flags and the internet address, netmask and broadcast address of its own host entry, recoverably, and the hardware address and index of its interface |
| InterfaceListing.BareSlotCarriesItsInterface | src/wamr_ext_lib/WasiSocketExt.cpp:817-825 | an interface without internet addresses has one slot, without addresses, with its last entry's flags and its hardware address |
| InterfaceListing.AddressesKeepOrder | src/wamr_ext_lib/WasiSocketExt.cpp:816-828 | each internet address stands behind those listed before it under its name |
| InterfaceListing.FlagsAreMasked | src/wamr_ext_lib/WasiSocketExt.cpp:758-776 | the eight flags WASI knows are kept and all others dropped |
| InterfaceListing.Fill | src/wamr_ext_lib/WasiSocketExt.cpp:816-839 | the filling pass writes exactly the counted slots |
| InterfaceListing.GetIfAddrs | src/wamr_ext_lib/WasiSocketExt.cpp:750-850 | status, count and array of the whole call |
| InterfaceListing.ListingIsGroupedByName | src/wamr_ext_lib/WasiSocketExt.cpp:805-838 | each interface has one run of slots, one per address or a single bare one, and names rise from run to run |
| InterfaceListing.ListingIsComplete | src/wamr_ext_lib/WasiSocketExt.cpp:805-839 | the slots number the internet addresses plus the interfaces that have none |

## Left out

- Runtime internals: instantiation, exec envs, the app allocator, uvwasi's descriptor table and libuv are outcomes or flags.
- What threads spawned by destructors do after the module instance is destroyed under them: undefined, so the model stops there.
- What a late spawn failure does besides erasing key 0: the second deinstantiation through the info record's deleter.
- Failing spawns before the info record exists: they change nothing of the manager.
- More than one joiner per thread: destroy holds `execFuncLock`, so cleanup is alone.
- API calls through a handle that destroy has already cleared, and freeing a removed instance while its lock is being released.
- A pipe's read end that gets descriptor 0, 1 or 2: the child's close action would then close a redirected stream.
- Loss of a module instance when start is retried after exec-env creation failed: the retry itself is modelled, the leak is not counted.
- Memory instances whose page counts are not one: `InstanceMemory.MemoryInstance.Enlarge` starts from what instantiation with a one-page heap leaves; `AssertIsTooWeak` says what other counts would do.
- Blocking waits that never end: `ProcManager.Manager.WaitPid` returns `Blocked` when the given answers of the operating system run out.
- Waiters on a descriptor number that was closed and reused: the step system lets them reap whatever child now owns the number; that a wait reports the pid it asked for is claimed for calls that do not overlap.
- Request validation and the whitelist lookup in ProcessSpawn, building argv, and cyclic action lists.
- Overlap of the subscription and event buffers in app memory, and subscription types other than clock and descriptor.
- `uint32_t` overflow of the allocation size in the interface listing, which needs more than 17 million entries.
- Finite tables: errno map, socket options, message flags, sysctl names; and MiniApp, module loading, LoopThread, thread names.
