/** The life of app threads: `WasiThreadSpawn`, the exit section of the host thread, the joiner
    `CleanupAppThreadInfo` and what destroy does after it, as a system of atomic steps. Thread 0 is the instance's main
    thread; every other number is one app thread ever spawned. A step is one mutex critical
    section, or one action outside all of them that another thread can observe. */
module ThreadProtocol {
  import opened Prelude
  import opened ThreadHandles

  datatype Pc =
    | Published                 // in the map, its host thread not yet created
    | Running                   // executing app code
    | Spawning(child: nat)      // inside WasiThreadSpawn, the child is in the map
    | Assigning(child: nat)     // the child runs, `pHostThread` not yet stored
    | Unwound                   // app code and DoAppThreadExit are over
    | StackFreed
    | Done                      // left the exit section; for main: in no app code

  datatype Thread = Thread(
    handle: nat,
    parent: nat,
    pc: Pc,
    waitCount: int,
    hostStored: bool,             // `pHostThread` holds the host thread
    joins: nat,
    detaches: nat,
    frees: nat,                 // times its app stack was freed
    cancelled: bool,
    exception: Option<string>)

  /** The only joiner. `round` is the snapshot vector, `next` the entry being worked on. */
  datatype Joiner =
    | NotStarted
    | Snapshotting
    | Cancelling(round: seq<nat>, next: nat)
    | Joining(round: seq<nat>, next: nat)     // about to lock the entry's exitLock
    | Waiting(round: seq<nat>, next: nat)     // in exitCV.wait, not notified
    | Woken(round: seq<nat>, next: nat)       // notified
    | InJoin(round: seq<nat>, next: nat)      // in pHostThread->join(), holding exitLock
    | Erasing(round: seq<nat>, next: nat)     // about to erase the map entry
    | Returned
    | Destructing                             // the main thread runs the app's destructors
    | TornDown                                // exec env, module instance and records are gone

  datatype State = State(
    threads: seq<Thread>,
    threadMap: map<nat, nat>,   // handle -> thread
    cursor: nat,                // m_curHandleId
    joiner: Joiner,
    dtors: bool,                // destroy will run the app's destructors
    crashed: bool)              // a null pHostThread was used, or a joinable std::thread deleted

  datatype Label =
    | Publish(spawner: nat, handle: nat)
    | LateSpawnFailure(spawner: nat)
    | CreateHost(spawner: nat)
    | AssignHost(spawner: nat)
    | Raise(thread: nat, text: string)
    | Unwind(thread: nat)
    | FreeStack(thread: nat)
    | ExitSection(thread: nat)
    | BeginCleanup(dtors: bool)
    | Snapshot(order: seq<nat>)
    | Cancel
    | JoinLock
    | SpuriousWake
    | Resume
    | JoinReturn
    | Erase
    | RunDtors
    | TearDown

  const PREFIX: string := "Exception: "

  const MainThread: Thread := Thread(0, 0, Running, -1, true, 0, 0, 0, false, None)

  /** After `InitAppMainThreadInfo`. */
  const Initial: State := State([MainThread], map[0 := 0], 1, NotStarted, false, false)

  predicate Is(s: State, i: nat) {
    i < |s.threads|
  }

  predicate AtPc(s: State, i: nat, pc: Pc) {
    Is(s, i) && s.threads[i].pc == pc
  }

  predicate HasEntry(j: Joiner) {
    j.Cancelling? || j.Joining? || j.Waiting? || j.Woken? || j.InJoin? || j.Erasing?
  }

  predicate AtEntry(s: State) {
    HasEntry(s.joiner) && s.joiner.next < |s.joiner.round| && Is(s, s.joiner.round[s.joiner.next])
  }

  function Entry(s: State): (i: nat)
    requires AtEntry(s)
    ensures Is(s, i)
  {
    s.joiner.round[s.joiner.next]
  }

  predicate JoinerIs(s: State, i: nat) {
    AtEntry(s) && Entry(s) == i
  }

  /** The map's app entries, in whatever order the hash map yields them. */
  ghost predicate ListsAppThreads(s: State, order: seq<nat>) {
    && Distinct(order)
    && forall i :: i in order <==> i in s.threadMap.Values && Is(s, i) && s.threads[i].handle != 0
  }

  ghost predicate Enabled(s: State, l: Label) {
    && !s.crashed && s.cursor < U32 && Is(s, 0)
    && match l
       case Publish(spawner, h) => AtPc(s, spawner, Running) && IsFirstFree(s.threadMap.Keys, s.cursor, h)
       case LateSpawnFailure(spawner) => AtPc(s, spawner, Running)
       case CreateHost(spawner) => Is(s, spawner) && s.threads[spawner].pc.Spawning? && Is(s, s.threads[spawner].pc.child)
       case AssignHost(spawner) => Is(s, spawner) && s.threads[spawner].pc.Assigning? && Is(s, s.threads[spawner].pc.child)
       case Raise(i, _) => AtPc(s, i, Running) && s.threads[i].exception.None?
       case Unwind(i) => i > 0 && AtPc(s, i, Running)
       case FreeStack(i) => i > 0 && AtPc(s, i, Unwound)
       case ExitSection(i) => i > 0 && AtPc(s, i, StackFreed) && !(s.joiner.InJoin? && JoinerIs(s, i))
       case BeginCleanup(_) => s.joiner.NotStarted? && AtPc(s, 0, Running)
       case Snapshot(order) => s.joiner.Snapshotting? && ListsAppThreads(s, order)
       case Cancel => s.joiner.Cancelling? && AtEntry(s)
       case JoinLock => s.joiner.Joining? && AtEntry(s)
       case SpuriousWake => s.joiner.Waiting? && AtEntry(s)
       case Resume => s.joiner.Woken? && AtEntry(s)
       case JoinReturn => s.joiner.InJoin? && AtEntry(s) && s.threads[Entry(s)].pc == Done
       case Erase => s.joiner.Erasing? && AtEntry(s)
       case RunDtors => s.joiner.Returned? && s.dtors
       case TearDown => if s.dtors then s.joiner.Destructing? && AtPc(s, 0, Running) else s.joiner.Returned?
  }

  function SetPc(s: State, i: nat, pc: Pc): State
    requires Is(s, i)
  {
    s.(threads := s.threads[i := s.threads[i].(pc := pc)])
  }

  function SpawnedThread(spawner: nat, h: nat): Thread {
    Thread(h, spawner, Published, 0, false, 0, 0, 0, false, None)
  }

  /** What `wasm_runtime_get_exception` yields, without its prefix. */
  function ExceptionText(full: string): string {
    if |full| >= |PREFIX| then full[|PREFIX|..] else ""
  }

  /** `text` written to every thread of `targets`. */
  function Spread(threads: seq<Thread>, targets: set<nat>, text: string): (r: seq<Thread>)
    ensures |r| == |threads|
    ensures forall j: nat :: j < |r| ==>
      r[j] == threads[j].(exception := if j in targets then Some(text) else threads[j].exception)
  {
    if threads == [] then [] else
      var last := |threads| - 1;
      Spread(threads[..last], targets, text) +
      [if last in targets then threads[last].(exception := Some(text)) else threads[last]]
  }

  /** `DoAppThreadExit` of an app thread: spread its exception over the map, then cancel it. */
  function Unwinding(s: State, i: nat): (r: seq<Thread>)
    requires Is(s, i)
    ensures |r| == |s.threads|
  {
    var own := s.threads[i];
    var cancelled := s.threads[i := own.(pc := Unwound, cancelled := true)];
    if own.exception.None? then cancelled
    else Spread(cancelled, s.threadMap.Values - {i}, PREFIX + ExceptionText(own.exception.value))
  }

  /** The host thread's last critical section. */
  function Exiting(s: State, i: nat): State
    requires Is(s, i)
  {
    var t := s.threads[i];
    if t.waitCount == 0 then
      if !t.hostStored then s.(crashed := true)
      else s.(threads := s.threads[i := t.(pc := Done, detaches := t.detaches + 1, waitCount := -1)])
    else
      var woken := SetPc(s, i, Done);
      if s.joiner.Waiting? && JoinerIs(s, i)
      then woken.(joiner := Woken(s.joiner.round, s.joiner.next)) else woken
  }

  /** The joiner moves to the next entry of its round, or to a new round. */
  function NextEntry(round: seq<nat>, next: nat): Joiner {
    if next + 1 < |round| then Joining(round, next + 1) else Snapshotting
  }

  /** `DoHostThreadJoin` from the return of `exitCV.wait` to the call of `join`. */
  function AfterWait(s: State): State
    requires AtEntry(s)
  {
    var i := Entry(s);
    var t := s.threads[i].(waitCount := s.threads[i].waitCount - 1);
    var s' := s.(threads := s.threads[i := t]);
    if t.waitCount != 0 then s'.(joiner := NextEntry(s.joiner.round, s.joiner.next))
    else if !t.hostStored then s'.(crashed := true)
    else s'.(joiner := InJoin(s.joiner.round, s.joiner.next))
  }

  /** Deleting the record ends the process: its `std::thread` is neither joined nor detached. */
  predicate Joinable(t: Thread) {
    t.handle != 0 && t.hostStored && t.joins + t.detaches == 0
  }

  /** No record left in the map is one that a joiner would have to wait for. */
  predicate NoneUnfinished(s: State) {
    forall h :: h in s.threadMap && Is(s, s.threadMap[h]) ==> s.threads[s.threadMap[h]].waitCount < 0
  }

  /** The exec env and the module instance go, and with the instance all records in the map. */
  function TearingDown(s: State): State
    requires Is(s, 0)
  {
    SetPc(s, 0, Done).(
      joiner := TornDown,
      crashed := exists h :: h in s.threadMap && Is(s, s.threadMap[h]) && Joinable(s.threads[s.threadMap[h]]))
  }

  ghost function Apply(s: State, l: Label): State
    requires Enabled(s, l)
  {
    match l
    case Publish(spawner, h) =>
      var c := |s.threads|;
      var s' := SetPc(s, spawner, Spawning(c));
      s'.(threads := s'.threads + [SpawnedThread(spawner, h)],
          threadMap := s.threadMap[h := c], cursor := Increment(h))
    case LateSpawnFailure(_) =>
      s.(threadMap := s.threadMap - {0})
    case CreateHost(spawner) =>
      var c := s.threads[spawner].pc.child;
      SetPc(SetPc(s, spawner, Assigning(c)), c, Running)
    case AssignHost(spawner) =>
      var c := s.threads[spawner].pc.child;
      var s' := SetPc(s, spawner, Running);
      s'.(threads := s'.threads[c := s'.threads[c].(hostStored := true)])
    case Raise(i, text) =>
      s.(threads := s.threads[i := s.threads[i].(exception := Some(PREFIX + text))])
    case Unwind(i) =>
      s.(threads := Unwinding(s, i))
    case FreeStack(i) =>
      s.(threads := s.threads[i := s.threads[i].(pc := StackFreed, frees := s.threads[i].frees + 1)])
    case ExitSection(i) => Exiting(s, i)
    case BeginCleanup(dtors) => SetPc(s, 0, Done).(joiner := Snapshotting, dtors := dtors)
    case Snapshot(order) =>
      s.(joiner := if order == [] then Returned else Cancelling(order, 0))
    case Cancel =>
      var i := Entry(s);
      var r, k := s.joiner.round, s.joiner.next;
      s.(threads := s.threads[i := s.threads[i].(cancelled := true)],
         joiner := if k + 1 < |r| then Cancelling(r, k + 1) else Joining(r, 0))
    case JoinLock =>
      var i := Entry(s);
      var r, k := s.joiner.round, s.joiner.next;
      var t := s.threads[i];
      if t.waitCount < 0 then s.(joiner := Erasing(r, k))
      else s.(threads := s.threads[i := t.(waitCount := t.waitCount + 1)], joiner := Waiting(r, k))
    case SpuriousWake => AfterWait(s)
    case Resume => AfterWait(s)
    case JoinReturn =>
      var i := Entry(s);
      var t := s.threads[i];
      s.(threads := s.threads[i := t.(joins := t.joins + 1, waitCount := -1)],
         joiner := Erasing(s.joiner.round, s.joiner.next))
    case Erase =>
      s.(threadMap := s.threadMap - {s.threads[Entry(s)].handle},
         joiner := NextEntry(s.joiner.round, s.joiner.next))
    case RunDtors => SetPc(s, 0, Running).(joiner := Destructing)
    case TearDown => TearingDown(s)
  }

  /** What the steps of a well-scheduled run obey: a condition variable wakes only when
      notified, `pHostThread` is stored before anyone detaches or joins through it, no spawn
      fails after its info record exists, and no thread is left unfinished by destructors. */
  predicate Orderly(s: State, l: Label) {
    match l
    case ExitSection(i) => Is(s, i) && s.threads[i].waitCount == 0 ==> s.threads[i].hostStored
    case Resume => AtEntry(s) && s.threads[Entry(s)].waitCount == 1 ==> s.threads[Entry(s)].hostStored
    case SpuriousWake => false
    case LateSpawnFailure(_) => false
    case TearDown => NoneUnfinished(s)
    case _ => true
  }

  /** A run, its end, and whether all its steps were orderly. */
  ghost predicate IsRun(s: State, run: seq<Label>)
    decreases |run|
  {
    run == [] || (Enabled(s, run[0]) && IsRun(Apply(s, run[0]), run[1..]))
  }

  ghost function After(s: State, run: seq<Label>): State
    requires IsRun(s, run)
    decreases |run|
  {
    if run == [] then s else After(Apply(s, run[0]), run[1..])
  }

  ghost predicate OrderlyRun(s: State, run: seq<Label>)
    decreases |run|
  {
    run == [] || (Enabled(s, run[0]) && Orderly(s, run[0]) && OrderlyRun(Apply(s, run[0]), run[1..]))
  }

  lemma {:induction false} OrderlyRunIsRun(s: State, run: seq<Label>)
    requires OrderlyRun(s, run)
    ensures IsRun(s, run)
    decreases |run|
  {
    if run != [] {
      OrderlyRunIsRun(Apply(s, run[0]), run[1..]);
    }
  }
}
