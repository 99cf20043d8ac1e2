/** What the app-thread protocol guarantees: cleanup is complete, it always comes to an end, no
    wakeup is lost and no record dies before its thread; and which scheduling accidents break
    exactly these guarantees. */
module ThreadCleanup {
  import opened Prelude
  import opened ThreadHandles
  import opened ThreadProtocol
  import opened ThreadInvariant

  // ---------------------------------------------------------------- safety of one state

  /** No null host thread was used, `join` is only called on a thread that has left its exit
      section for good, and the main entry is where exceptions are spread to. */
  predicate Safe(s: State) {
    && !s.crashed
    && (s.joiner.InJoin? && AtEntry(s) ==> s.threads[Entry(s)].pc == Done)
    && 0 in s.threadMap
  }

  /** A step out of a good state is safe exactly when it is orderly: the guards of the five
      failing branches are the whole list of what can go wrong. */
  lemma StepIsSafeIffOrderly(s: State, l: Label)
    requires Inv(s) && Enabled(s, l)
    ensures Safe(Apply(s, l)) <==> Orderly(s, l)
    ensures Inv(Apply(s, l)) <==> Orderly(s, l)
  {
    if Orderly(s, l) {
      OrderlyStepKeepsInv(s, l);
    } else if l.Resume? || l.SpuriousWake? {
      assert ThreadOk(s, Entry(s));
    } else if l.TearDown? {
      TearDownCrashesIff(s);
    }
  }

  /** A host thread still inside app code or its exit section has its info record in the map;
      a record leaves the map only after its host thread was joined or detached, once; and
      teardown comes after all of them. */
  lemma {:induction false} RecordOutlivesItsThread(run: seq<Label>, i: nat)
    requires OrderlyRun(Initial, run) && IsRun(Initial, run)
    requires 0 < i < |After(Initial, run).threads|
    ensures var s := After(Initial, run); var t := s.threads[i];
      && (t.pc != Done ==> Registered(s, i) && t.joins + t.detaches == 0)
      && (!Registered(s, i) ==> t.pc == Done && t.joins + t.detaches == 1)
      && t.joins + t.detaches <= 1
      && t.frees == (if t.pc == StackFreed || t.pc == Done then 1 else 0)
      && (s.joiner.TornDown? ==> t.pc == Done && t.joins + t.detaches == 1)
  {
    InitialInv();
    OrderlyRunKeepsInv(Initial, run);
    assert ThreadOk(After(Initial, run), i);
  }

  /** A joiner waiting un-notified waits for a thread that was told to stop and has yet to run
      its exit section; a joiner inside `join` waits for one that has left it; `waitCount` is -1
      once the thread is joined or detached and otherwise the number of waiters not yet resumed. */
  lemma {:induction false} NoLostWakeup(run: seq<Label>, i: nat)
    requires OrderlyRun(Initial, run) && IsRun(Initial, run)
    requires 0 < i < |After(Initial, run).threads|
    ensures var s := After(Initial, run); var t := s.threads[i];
      && (s.joiner.Waiting? && JoinerIs(s, i) ==> t.pc != Done && t.cancelled)
      && (s.joiner.InJoin? && JoinerIs(s, i) ==> t.pc == Done && t.hostStored)
      && t.waitCount == (if t.joins + t.detaches == 1 then -1 else if WaitedOn(s, i) then 1 else 0)
  {
    InitialInv();
    OrderlyRunKeepsInv(Initial, run);
    var s := After(Initial, run);
    assert ThreadOk(s, i) && SpawnOk(s, i);
  }

  // ---------------------------------------------------------------- completeness

  /** The host thread has left its exit section, was joined or detached once and freed its app
      stack once. */
  predicate Over(t: Thread) {
    t.pc == Done && t.joins + t.detaches == 1 && t.frees == 1
  }

  /** When `CleanupAppThreadInfo` returns, in every interleaving with threads that keep
      spawning, every app thread ever spawned has left its exit section, was joined or detached
      once and freed its stack once, and the map is exactly the main entry. */
  lemma {:induction false} CleanupIsComplete(run: seq<Label>)
    requires OrderlyRun(Initial, run) && IsRun(Initial, run) && After(Initial, run).joiner.Returned?
    ensures var s := After(Initial, run);
      && s.threadMap == map[0 := 0]
      && forall i :: 0 < i < |s.threads| ==>
           Over(s.threads[i])
  {
    InitialInv();
    OrderlyRunKeepsInv(Initial, run);
    var s := After(Initial, run);
    forall i | 0 < i < |s.threads|
      ensures Over(s.threads[i])
    {
      assert ThreadOk(s, i);
    }
    forall h | h in s.threadMap ensures h == 0 {
      var i := s.threadMap[h];
      if i > 0 { assert Registered(s, i); }
    }
  }

  /** After it has returned no thread is left to spawn another: the only step is destroy's own
      next one, the destructors if the instance was started and teardown if not. */
  lemma ReturnedLeavesDestroyAlone(s: State, l: Label)
    requires Inv(s) && s.joiner.Returned?
    ensures Enabled(s, l) <==> l == if s.dtors then RunDtors else TearDown
  {
    forall i | 0 < i < |s.threads| ensures s.threads[i].pc == Done {
      assert ThreadOk(s, i);
    }
  }

  /** After teardown nothing more happens. */
  lemma TornDownIsFinal(s: State, l: Label)
    requires Inv(s) && s.joiner.TornDown?
    ensures !Enabled(s, l)
  {
    forall i | 0 < i < |s.threads| ensures s.threads[i].pc == Done {
      assert ThreadOk(s, i);
    }
  }

  // ---------------------------------------------------------------- destructors and teardown

  /** Destructors are app code: they run after cleanup and can spawn threads which nobody joins.
      When destroy is about to tear the instance down, all app threads are over if and only if
      none of the records in the map still counts waiters, that is, every thread the destructors
      started has detached itself; otherwise teardown deletes the `std::thread` of one that still
      runs. Without destructors the condition always holds. */
  lemma {:induction false} TearDownIsCleanIff(run: seq<Label>)
    requires OrderlyRun(Initial, run) && IsRun(Initial, run) && Enabled(After(Initial, run), TearDown)
    ensures var s := After(Initial, run);
      && ((forall i :: 0 < i < |s.threads| ==> Over(s.threads[i])) <==> NoneUnfinished(s))
      && (Apply(s, TearDown).crashed <==> !NoneUnfinished(s))
      && (!s.dtors || s.threadMap.Keys == {0} ==> NoneUnfinished(s))
  {
    InitialInv();
    OrderlyRunKeepsInv(Initial, run);
    var s := After(Initial, run);
    forall i | 0 < i < |s.threads| ensures Over(s.threads[i]) <==> Settled(s.threads[i]) {
      assert ThreadOk(s, i);
    }
    NoneUnfinishedIff(s);
    TearDownCrashesIff(s);
    if !s.dtors || s.threadMap.Keys == {0} {
      forall h | h in s.threadMap ensures s.threadMap[h] == 0 {
        assert Registered(s, s.threadMap[h]);
      }
    }
  }

  /** A thread not over at teardown is one that was spawned after cleanup had returned. */
  lemma {:induction false} OnlyDestructorsLeaveThreads(run: seq<Label>, more: seq<Label>, i: nat)
    requires OrderlyRun(Initial, run) && IsRun(Initial, run) && After(Initial, run).joiner.Returned?
    requires IsRun(After(Initial, run), more)
    requires Is(After(After(Initial, run), more), i) && !Over(After(After(Initial, run), more).threads[i])
    ensures i == 0 || i >= |After(Initial, run).threads|
  {
    InitialInv();
    OrderlyRunKeepsInv(Initial, run);
    var s := After(Initial, run);
    if 0 < i < |s.threads| {
      ReturnLeavesAlone(s, i);
      OverStays(s, more, i);
    }
  }

  lemma ReturnLeavesAlone(s: State, i: nat)
    requires Inv(s) && s.joiner.Returned? && 0 < i < |s.threads|
    ensures LeftAlone(s, i)
  {
    forall j | 0 < j < |s.threads| ensures Over(s.threads[j]) {
      assert ThreadOk(s, j);
    }
  }

  /** Cleanup has returned, thread `i` is over and no spawner has it in hand. */
  ghost predicate LeftAlone(s: State, i: nat) {
    && (s.joiner.Returned? || s.joiner.Destructing? || s.joiner.TornDown?)
    && i > 0 && Is(s, i) && Over(s.threads[i])
    && forall j :: 0 <= j < |s.threads| ==>
         s.threads[j].pc != Spawning(i) && s.threads[j].pc != Assigning(i)
  }

  lemma StaysLeftAlone(s: State, l: Label, i: nat)
    requires LeftAlone(s, i) && Enabled(s, l)
    ensures LeftAlone(Apply(s, l), i)
  {
    if l.Unwind? {
      UnwindingShape(s, l.thread);
    }
  }

  lemma {:induction false} OverStays(s: State, run: seq<Label>, i: nat)
    requires IsRun(s, run) && LeftAlone(s, i)
    ensures Is(After(s, run), i) && Over(After(s, run).threads[i])
    decreases |run|
  {
    if run != [] {
      StaysLeftAlone(s, run[0], i);
      OverStays(Apply(s, run[0]), run[1..], i);
    }
  }

  // ---------------------------------------------------------------- termination

  function PcRank(pc: Pc): nat {
    match pc
    case Published => 6
    case Running => 5
    case Spawning(_) => 7
    case Assigning(_) => 6
    case Unwound => 4
    case StackFreed => 3
    case Done => 0
  }

  function ThreadRank(t: Thread): nat {
    PcRank(t.pc) + if t.exception.None? then 1 else 0
  }

  function TotalRank(ts: seq<Thread>): nat {
    if ts == [] then 0 else TotalRank(ts[..|ts| - 1]) + ThreadRank(ts[|ts| - 1])
  }

  /** Work left to the joiner, given the number of map entries. */
  function JoinerRank(j: Joiner, entries: nat): int {
    match j
    case NotStarted => 10 * entries + 13
    case Snapshotting => 10 * entries + 12
    case Cancelling(r, k) => 10 * (entries - |r|) + (|r| - k) + 6 * |r| + 14
    case Returned => 7
    case Destructing => 1
    case TornDown => 0
    case _ =>
      var left := |j.round| - j.next;
      10 * (entries - left) + 6 * left + 7 +
        (if j.Joining? then 6 else if j.Waiting? then 5 else if j.Woken? then 4 else if j.InJoin? then 3 else 2)
  }

  function Rank(s: State): int {
    TotalRank(s.threads) + JoinerRank(s.joiner, |s.threadMap|)
  }

  lemma {:induction false} RankOfUpdate(ts: seq<Thread>, i: nat, t: Thread)
    requires i < |ts|
    ensures TotalRank(ts[i := t]) == TotalRank(ts) - ThreadRank(ts[i]) + ThreadRank(t)
  {
    var last := |ts| - 1;
    if i < last {
      assert ts[i := t][..last] == ts[..last][i := t];
      RankOfUpdate(ts[..last], i, t);
    } else {
      assert ts[i := t][..last] == ts[..last];
    }
  }

  lemma {:induction false} RankBelow(a: seq<Thread>, b: seq<Thread>)
    requires |a| == |b| && forall i :: 0 <= i < |a| ==> ThreadRank(a[i]) <= ThreadRank(b[i])
    ensures TotalRank(a) <= TotalRank(b)
  {
    if a != [] {
      var last := |a| - 1;
      RankBelow(a[..last], b[..last]);
    }
  }

  /** Records of distinct threads sit under distinct keys. */
  lemma RegisteredFit(s: State, ids: seq<nat>)
    requires Distinct(ids) && forall j :: 0 <= j < |ids| ==> Registered(s, ids[j])
    ensures |ids| <= |s.threadMap|
  {
    var keys := seq(|ids|, j requires 0 <= j < |ids| => s.threads[ids[j]].handle);
    forall j, k | 0 <= j < k < |ids| ensures keys[j] != keys[k] {
      assert s.threadMap[keys[j]] == ids[j] && s.threadMap[keys[k]] == ids[k];
    }
    DistinctFits(keys, s.threadMap.Keys);
  }

  lemma RankIsNatural(s: State)
    requires Inv(s)
    ensures Rank(s) >= 0
  {
    if HasEntry(s.joiner) {
      var r, k := s.joiner.round, s.joiner.next;
      if s.joiner.Cancelling? {
        RegisteredFit(s, r);
      } else {
        RegisteredFit(s, r[k..]);
      }
    }
  }

  function SpawnsIn(run: seq<Label>): nat
    decreases |run|
  {
    if run == [] then 0 else (if run[0].Publish? then 1 else 0) + SpawnsIn(run[1..])
  }

  lemma PublishRaisesRank(s: State, spawner: nat, h: nat)
    requires Inv(s) && Enabled(s, Publish(spawner, h))
    ensures Rank(Apply(s, Publish(spawner, h))) <= Rank(s) + 19
  {
    var s' := Apply(s, Publish(spawner, h));
    var c := |s.threads|;
    var mid := SetPc(s, spawner, Spawning(c));
    RankOfUpdate(s.threads, spawner, mid.threads[spawner]);
    assert s'.threads[..c] == mid.threads;
    assert |s'.threadMap| == |s.threadMap| + 1 by {
      assert s'.threadMap.Keys == s.threadMap.Keys + {h};
    }
  }

  lemma SpawnStepLowersRank(s: State, l: Label)
    requires Inv(s) && Enabled(s, l) && (l.CreateHost? || l.AssignHost?)
    ensures Rank(Apply(s, l)) < Rank(s)
  {
    var s' := Apply(s, l);
    var parent := l.spawner;
    assert SpawnOk(s, parent);
    var c := s.threads[parent].pc.child;
    assert SpawnOk(s, c);
    var mid := s.threads[parent := s'.threads[parent]];
    RankOfUpdate(s.threads, parent, mid[parent]);
    RankOfUpdate(mid, c, s'.threads[c]);
    assert s'.threads == mid[c := s'.threads[c]];
  }

  lemma UnwindingLowersRank(s: State, i: nat)
    requires AtPc(s, i, Running)
    ensures TotalRank(Unwinding(s, i)) < TotalRank(s.threads)
  {
    var r := Unwinding(s, i);
    var mid := s.threads[i := s.threads[i].(pc := Unwound, cancelled := true)];
    UnwindingShape(s, i);
    forall j | 0 <= j < |mid| ensures ThreadRank(r[j]) <= ThreadRank(mid[j]) {
      assert r[j] == mid[j].(exception := r[j].exception);
    }
    RankBelow(r, mid);
    RankOfUpdate(s.threads, i, mid[i]);
  }

  lemma UnwindLowersRank(s: State, i: nat)
    requires Inv(s) && Enabled(s, Unwind(i))
    ensures Rank(Apply(s, Unwind(i))) < Rank(s)
  {
    UnwindingLowersRank(s, i);
  }

  /** One thread changed and the map did not. */
  lemma RankOfOneChange(s: State, s': State, i: nat)
    requires Is(s, i) && |s'.threads| == |s.threads| && s'.threadMap == s.threadMap
    requires forall j: nat :: j < |s.threads| && j != i ==> s'.threads[j] == s.threads[j]
    ensures Rank(s') - Rank(s) ==
      ThreadRank(s'.threads[i]) - ThreadRank(s.threads[i])
      + JoinerRank(s'.joiner, |s.threadMap|) - JoinerRank(s.joiner, |s.threadMap|)
  {
    RankOfUpdate(s.threads, i, s'.threads[i]);
    assert s'.threads == s.threads[i := s'.threads[i]];
  }

  lemma ThreadStepLowersRank(s: State, l: Label)
    requires Inv(s) && Enabled(s, l) && Orderly(s, l)
    requires l.Raise? || l.FreeStack?
    ensures Rank(Apply(s, l)) < Rank(s)
  {
    RankOfOneChange(s, Apply(s, l), l.thread);
  }

  lemma MainStepLowersRank(s: State, l: Label)
    requires Inv(s) && Enabled(s, l) && (l.BeginCleanup? || l.RunDtors? || l.TearDown?)
    ensures Rank(Apply(s, l)) < Rank(s)
  {
    RankOfOneChange(s, Apply(s, l), 0);
  }

  lemma ExitLowersRank(s: State, i: nat)
    requires Inv(s) && AtPc(s, i, StackFreed) && (s.threads[i].waitCount == 0 ==> s.threads[i].hostStored)
    ensures Rank(Exiting(s, i)) < Rank(s)
  {
    var s' := Exiting(s, i);
    assert ThreadRank(s'.threads[i]) < ThreadRank(s.threads[i]);
    assert JoinerRank(s'.joiner, |s.threadMap|) <= JoinerRank(s.joiner, |s.threadMap|);
    RankOfOneChange(s, s', i);
  }

  lemma CancelLowersRank(s: State)
    requires Inv(s) && Enabled(s, Cancel)
    ensures Rank(Apply(s, Cancel)) < Rank(s)
  {
    RankOfOneChange(s, Apply(s, Cancel), Entry(s));
  }

  lemma JoinLockLowersRank(s: State)
    requires Inv(s) && Enabled(s, JoinLock)
    ensures Rank(Apply(s, JoinLock)) < Rank(s)
  {
    RankOfOneChange(s, Apply(s, JoinLock), Entry(s));
  }

  lemma ResumeLowersRank(s: State)
    requires Inv(s) && Enabled(s, Resume) && Orderly(s, Resume)
    ensures Rank(Apply(s, Resume)) < Rank(s)
  {
    assert ThreadOk(s, Entry(s));
    RankOfOneChange(s, Apply(s, Resume), Entry(s));
  }

  lemma JoinReturnLowersRank(s: State)
    requires Inv(s) && Enabled(s, JoinReturn)
    ensures Rank(Apply(s, JoinReturn)) < Rank(s)
  {
    RankOfOneChange(s, Apply(s, JoinReturn), Entry(s));
  }

  lemma SnapshotLowersRank(s: State, order: seq<nat>)
    requires Inv(s) && Enabled(s, Snapshot(order))
    ensures Rank(Apply(s, Snapshot(order))) < Rank(s)
  {
  }

  lemma EraseLowersRank(s: State)
    requires Inv(s) && Enabled(s, Erase)
    ensures Rank(Apply(s, Erase)) < Rank(s)
  {
    var s' := Apply(s, Erase);
    var h := s.threads[Entry(s)].handle;
    assert Registered(s, Entry(s));
    assert s'.threadMap.Keys == s.threadMap.Keys - {h};
    assert |s'.threadMap| == |s.threadMap| - 1;
  }

  lemma OtherStepLowersRank(s: State, l: Label)
    requires Inv(s) && Enabled(s, l) && Orderly(s, l) && !l.Publish?
    ensures Rank(Apply(s, l)) < Rank(s)
  {
    match l
    case CreateHost(_) => SpawnStepLowersRank(s, l);
    case AssignHost(_) => SpawnStepLowersRank(s, l);
    case Unwind(i) => UnwindLowersRank(s, i);
    case Raise(_, _) => ThreadStepLowersRank(s, l);
    case FreeStack(_) => ThreadStepLowersRank(s, l);
    case ExitSection(i) => ExitLowersRank(s, i);
    case BeginCleanup(_) => MainStepLowersRank(s, l);
    case RunDtors => MainStepLowersRank(s, l);
    case TearDown => MainStepLowersRank(s, l);
    case Snapshot(order) => SnapshotLowersRank(s, order);
    case Erase => EraseLowersRank(s);
    case Cancel => CancelLowersRank(s);
    case JoinLock => JoinLockLowersRank(s);
    case Resume => ResumeLowersRank(s);
    case JoinReturn => JoinReturnLowersRank(s);
    case _ =>
  }

  /** Every orderly run is short: no longer than the work at its start plus twenty steps for
      every thread spawned on the way. So with finitely many spawns, cleanup ends. */
  lemma {:induction false} RunsAreBounded(s: State, run: seq<Label>)
    requires Inv(s) && OrderlyRun(s, run)
    ensures |run| <= Rank(s) + 20 * SpawnsIn(run)
    decreases |run|
  {
    if run == [] {
      RankIsNatural(s);
    } else {
      var l := run[0];
      OrderlyStepKeepsInv(s, l);
      RunsAreBounded(Apply(s, l), run[1..]);
      if l.Publish? {
        PublishRaisesRank(s, l.spawner, l.handle);
      } else {
        OtherStepLowersRank(s, l);
      }
    }
  }

  /** Inside cleanup some orderly step other than a spawn is always possible: neither the joiner nor a lock is ever stuck. */
  lemma CleanupNeverStuck(s: State) returns (l: Label)
    requires Inv(s) && (s.joiner.Snapshotting? || HasEntry(s.joiner))
    ensures Enabled(s, l) && Orderly(s, l) && !l.Publish? && !l.RunDtors? && !l.TearDown?
  {
    match s.joiner
    case Snapshotting =>
      var mapped := set i | i in s.threadMap.Values && Is(s, i) && s.threads[i].handle != 0;
      var order := Listing(mapped);
      l := Snapshot(order);
    case Cancelling(_, _) => l := Cancel;
    case Joining(_, _) => l := JoinLock;
    case Erasing(_, _) => l := Erase;
    case InJoin(_, _) => l := JoinReturn;
    case Woken(_, _) =>
      var i := Entry(s);
      assert SpawnOk(s, i);
      if s.threads[i].hostStored {
        l := Resume;
      } else {
        l := AssignHost(s.threads[i].parent);
      }
    case Waiting(_, _) =>
      var i := Entry(s);
      assert ThreadOk(s, i) && SpawnOk(s, i);
      match s.threads[i].pc {
        case Published => l := CreateHost(s.threads[i].parent);
        case Running => l := Unwind(i);
        case Spawning(_) => l := CreateHost(i);
        case Assigning(_) => l := AssignHost(i);
        case Unwound => l := FreeStack(i);
        case StackFreed => l := ExitSection(i);
        case Done =>
      }
  }

  /** Together: once cleanup has begun, a run that only spawns or destroy's later steps could
      prolong has seen it return. */
  lemma {:induction false} MaximalRunReturns(before: seq<Label>)
    requires OrderlyRun(Initial, before) && IsRun(Initial, before)
    requires !After(Initial, before).joiner.NotStarted?
    requires forall l :: Enabled(After(Initial, before), l) && Orderly(After(Initial, before), l) ==>
      l.Publish? || l.RunDtors? || l.TearDown?
    ensures var j := After(Initial, before).joiner; j.Returned? || j.Destructing? || j.TornDown?
    ensures |before| <= 29 + 20 * SpawnsIn(before)
  {
    InitialInv();
    OrderlyRunKeepsInv(Initial, before);
    RunsAreBounded(Initial, before);
    assert Initial.threads == [MainThread] && TotalRank([MainThread]) == TotalRank([]) + 6;
    var j := After(Initial, before).joiner;
    if j.Snapshotting? || HasEntry(j) {
      var l := CleanupNeverStuck(After(Initial, before));
    }
  }

  // ---------------------------------------------------------------- what a spurious wakeup does

  /** The joiner sits in `join` holding the exitLock its target still needs. */
  predicate DeadlockedOn(s: State, i: nat) {
    s.joiner.InJoin? && JoinerIs(s, i) && i > 0 && s.threads[i].pc != Done
  }

  lemma DeadlockPersists(s: State, l: Label, i: nat)
    requires DeadlockedOn(s, i) && Enabled(s, l)
    ensures DeadlockedOn(Apply(s, l), i)
  {
  }

  /** A wakeup without a notification deadlocks cleanup: from then on, in every run, the joiner
      never returns and its target never leaves its exit section. */
  lemma {:induction false} SpuriousWakeupDeadlocks(s: State, run: seq<Label>)
    requires Inv(s) && Enabled(s, SpuriousWake) && s.threads[Entry(s)].hostStored
    requires IsRun(Apply(s, SpuriousWake), run)
    ensures DeadlockedOn(After(Apply(s, SpuriousWake), run), Entry(s))
  {
    assert ThreadOk(s, Entry(s));
    DeadlockLasts(Apply(s, SpuriousWake), run, Entry(s));
  }

  lemma {:induction false} DeadlockLasts(s: State, run: seq<Label>, i: nat)
    requires DeadlockedOn(s, i) && IsRun(s, run)
    ensures DeadlockedOn(After(s, run), i)
    decreases |run|
  {
    if run != [] {
      DeadlockPersists(s, run[0], i);
      DeadlockLasts(Apply(s, run[0]), run[1..], i);
    }
  }

  // ---------------------------------------------------------------- exceptions

  /** An app thread that ends with an exception leaves the same text with every other registered
      thread, the main thread among them. */
  lemma ExceptionReachesEveryRegisteredThread(s: State, i: nat, j: nat)
    requires Inv(s) && Enabled(s, Unwind(i)) && s.threads[i].exception.Some?
    requires Registered(s, j)
    ensures Registered(s, 0)
    ensures Apply(s, Unwind(i)).threads[j].exception == s.threads[i].exception
  {
    var full := s.threads[i].exception.value;
    assert PREFIX + full[|PREFIX|..] == full;
    assert s.threadMap[s.threads[j].handle] in s.threadMap.Values;
  }

  lemma ExceptionStays(s: State, l: Label, j: nat)
    requires Enabled(s, l) && Is(s, j) && s.threads[j].exception.Some?
    ensures Is(Apply(s, l), j) && Apply(s, l).threads[j].exception.Some?
  {
  }

  /** Over any later run the main thread keeps an exception to be found by the loop thread. */
  lemma {:induction false} MainHearsOfEveryException(s: State, i: nat, run: seq<Label>)
    requires Inv(s) && Enabled(s, Unwind(i)) && s.threads[i].exception.Some?
    requires IsRun(Apply(s, Unwind(i)), run)
    ensures After(Apply(s, Unwind(i)), run).threads != []
    ensures After(Apply(s, Unwind(i)), run).threads[0].exception.Some?
  {
    ExceptionReachesEveryRegisteredThread(s, i, 0);
    ExceptionLasts(Apply(s, Unwind(i)), run, 0);
  }

  lemma {:induction false} ExceptionLasts(s: State, run: seq<Label>, j: nat)
    requires IsRun(s, run) && Is(s, j) && s.threads[j].exception.Some?
    ensures Is(After(s, run), j) && After(s, run).threads[j].exception.Some?
    decreases |run|
  {
    if run != [] {
      ExceptionStays(s, run[0], j);
      ExceptionLasts(Apply(s, run[0]), run[1..], j);
    }
  }

  // ---------------------------------------------------------------- thread ids

  /** Two app threads with records in the map have the same thread id only when both handles
      have passed INT32_MAX. */
  lemma {:induction false} LiveTidsDiffer(run: seq<Label>, i: nat, j: nat)
    requires OrderlyRun(Initial, run) && IsRun(Initial, run)
    requires 0 < i && 0 < j && i != j && Registered(After(Initial, run), i) && Registered(After(Initial, run), j)
    ensures var s := After(Initial, run); var h, g := s.threads[i].handle, s.threads[j].handle;
      && h != g && 0 < h && 0 < g
      && (Tid(h) == Tid(g) <==> h >= INT32_MAX && g >= INT32_MAX)
  {
    InitialInv();
    OrderlyRunKeepsInv(Initial, run);
    var s := After(Initial, run);
    assert ThreadOk(s, i) && ThreadOk(s, j);
    TidCollision(s.threads[i].handle, s.threads[j].handle);
  }
}
