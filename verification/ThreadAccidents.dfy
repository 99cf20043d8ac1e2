/** Concrete orderly runs after which each of the unsafe steps is possible: a detach and a join
    through a null pointer, a wakeup without notification, a late spawn failure, and a teardown
    under a running thread. None of what `Orderly` asks for is implied by the code. */
module ThreadAccidents {
  import opened Prelude
  import opened ThreadHandles
  import opened ThreadProtocol
  import opened ThreadInvariant
  import opened ThreadCleanup

  lemma {:induction false} Extend(s: State, run: seq<Label>, l: Label)
    requires OrderlyRun(s, run) && IsRun(s, run)
    requires Enabled(After(s, run), l) && Orderly(After(s, run), l)
    ensures OrderlyRun(s, run + [l]) && IsRun(s, run + [l])
    ensures After(s, run + [l]) == Apply(After(s, run), l)
    decreases |run|
  {
    if run == [] {
      assert ([] + [l])[1..] == [];
    } else {
      assert (run + [l])[1..] == run[1..] + [l];
      Extend(Apply(s, run[0]), run[1..], l);
    }
  }

  /** The main thread spawns one app thread, up to the point where it runs. */
  lemma FirstSpawn() returns (run: seq<Label>)
    ensures OrderlyRun(Initial, run) && IsRun(Initial, run)
    ensures var s := After(Initial, run);
      && s == State([MainThread.(pc := Assigning(1)), SpawnedThread(0, 1).(pc := Running)],
                    map[0 := 0, 1 := 1], 2, NotStarted, false, false)
  {
    assert IsFirstFree(Initial.threadMap.Keys, 1, 1);
    Extend(Initial, [], Publish(0, 1));
    run := [] + [Publish(0, 1)];
    assert After(Initial, run).threads == [MainThread.(pc := Spawning(1)), SpawnedThread(0, 1)];
    Extend(Initial, run, CreateHost(0));
    run := run + [CreateHost(0)];
    assert After(Initial, run).threads == [MainThread.(pc := Assigning(1)), SpawnedThread(0, 1).(pc := Running)];
    assert After(Initial, run).threadMap == map[0 := 0, 1 := 1];
  }

  /** A quick thread can reach its exit section before `pHostThread` is stored, and then
      detaches through a null pointer. */
  lemma NullDetachIsPossible() returns (run: seq<Label>, s: State)
    ensures OrderlyRun(Initial, run) && IsRun(Initial, run) && s == After(Initial, run)
    ensures Enabled(s, ExitSection(1)) && Apply(s, ExitSection(1)).crashed
  {
    run := FirstSpawn();
    Extend(Initial, run, Unwind(1));
    run := run + [Unwind(1)];
    Extend(Initial, run, FreeStack(1));
    run := run + [FreeStack(1)];
    s := After(Initial, run);
  }

  /** The first spawn completed and cleanup begun. */
  lemma CleanupBegun() returns (run: seq<Label>)
    ensures OrderlyRun(Initial, run) && IsRun(Initial, run)
    ensures After(Initial, run) ==
      State([MainThread.(pc := Done), SpawnedThread(0, 1).(pc := Running, hostStored := true)],
            map[0 := 0, 1 := 1], 2, Snapshotting, false, false)
  {
    run := FirstSpawn();
    Extend(Initial, run, AssignHost(0));
    run := run + [AssignHost(0)];
    Extend(Initial, run, BeginCleanup(false));
    run := run + [BeginCleanup(false)];
    assert After(Initial, run).threads ==
      [MainThread.(pc := Done), SpawnedThread(0, 1).(pc := Running, hostStored := true)];
  }

  lemma FirstSnapshot() returns (run: seq<Label>)
    ensures OrderlyRun(Initial, run) && IsRun(Initial, run)
    ensures var s := After(Initial, run);
      && |s.threads| == 2 && s.threads[1] == SpawnedThread(0, 1).(pc := Running, hostStored := true)
      && s.joiner == Cancelling([1], 0) && s.cursor == 2 && !s.crashed
  {
    run := CleanupBegun();
    assert After(Initial, run).threadMap[1] == 1;
    Extend(Initial, run, Snapshot([1]));
    run := run + [Snapshot([1])];
  }

  /** Cleanup can be waiting for a thread that has stored everything and still runs: there a
      spurious wakeup deadlocks. */
  lemma SpuriousWakeupIsPossible() returns (run: seq<Label>, s: State)
    ensures OrderlyRun(Initial, run) && IsRun(Initial, run) && s == After(Initial, run)
    ensures Enabled(s, SpuriousWake) && DeadlockedOn(Apply(s, SpuriousWake), 1)
  {
    run := FirstSnapshot();
    Extend(Initial, run, Cancel);
    run := run + [Cancel];
    Extend(Initial, run, JoinLock);
    run := run + [JoinLock];
    s := After(Initial, run);
  }

  /** A second app thread, spawned by the first, runs while its spawner has yet to store its
      `pHostThread`. */
  lemma NestedSpawn() returns (run: seq<Label>)
    ensures OrderlyRun(Initial, run) && IsRun(Initial, run)
    ensures After(Initial, run) ==
      State([MainThread, SpawnedThread(0, 1).(pc := Assigning(2), hostStored := true),
             SpawnedThread(1, 2).(pc := Running)],
            map[0 := 0, 1 := 1, 2 := 2], 3, NotStarted, false, false)
  {
    run := FirstSpawn();
    Extend(Initial, run, AssignHost(0));
    run := run + [AssignHost(0)];
    assert IsFirstFree(After(Initial, run).threadMap.Keys, 2, 2);
    Extend(Initial, run, Publish(1, 2));
    run := run + [Publish(1, 2)];
    Extend(Initial, run, CreateHost(1));
    run := run + [CreateHost(1)];
    assert After(Initial, run).threads ==
      [MainThread, SpawnedThread(0, 1).(pc := Assigning(2), hostStored := true),
       SpawnedThread(1, 2).(pc := Running)];
    assert After(Initial, run).threadMap == map[0 := 0, 1 := 1, 2 := 2];
  }

  /** Both are in the snapshot, the younger one first. */
  lemma NestedSnapshot() returns (run: seq<Label>)
    ensures OrderlyRun(Initial, run) && IsRun(Initial, run)
    ensures var s := After(Initial, run);
      && s.threads == [MainThread.(pc := Done), SpawnedThread(0, 1).(pc := Assigning(2), hostStored := true),
                       SpawnedThread(1, 2).(pc := Running)]
      && s.joiner == Cancelling([2, 1], 0) && s.cursor == 3 && !s.crashed
  {
    run := NestedSpawn();
    Extend(Initial, run, BeginCleanup(false));
    run := run + [BeginCleanup(false)];
    assert After(Initial, run).threads ==
      [MainThread.(pc := Done), SpawnedThread(0, 1).(pc := Assigning(2), hostStored := true),
       SpawnedThread(1, 2).(pc := Running)];
    assert ListsAppThreads(After(Initial, run), [2, 1]) by {
      assert After(Initial, run).threadMap[1] == 1 && After(Initial, run).threadMap[2] == 2;
    }
    Extend(Initial, run, Snapshot([2, 1]));
    run := run + [Snapshot([2, 1])];
  }

  lemma NestedWait() returns (run: seq<Label>)
    ensures OrderlyRun(Initial, run) && IsRun(Initial, run)
    ensures var s := After(Initial, run);
      && |s.threads| == 3 && s.threads[0].pc == Done
      && s.threads[2] == SpawnedThread(1, 2).(pc := Running, waitCount := 1, cancelled := true)
      && s.joiner == Waiting([2, 1], 0) && s.cursor == 3 && !s.crashed
  {
    run := NestedSnapshot();
    Extend(Initial, run, Cancel);
    run := run + [Cancel];
    Extend(Initial, run, Cancel);
    run := run + [Cancel];
    Extend(Initial, run, JoinLock);
    run := run + [JoinLock];
  }

  /** Its exit section notifies the joiner, which then joins through a null pointer. */
  lemma NullJoinIsPossible() returns (run: seq<Label>, s: State)
    ensures OrderlyRun(Initial, run) && IsRun(Initial, run) && s == After(Initial, run)
    ensures Enabled(s, Resume) && Apply(s, Resume).crashed
  {
    run := NestedWait();
    Extend(Initial, run, Unwind(2));
    run := run + [Unwind(2)];
    Extend(Initial, run, FreeStack(2));
    run := run + [FreeStack(2)];
    Extend(Initial, run, ExitSection(2));
    run := run + [ExitSection(2)];
    s := After(Initial, run);
  }

  /** A spawn that fails after its info record exists drops the main entry, and from then on an
      exception of an app thread no longer reaches the main thread. */
  lemma LateFailureHidesExceptions(s: State, spawner: nat, i: nat)
    requires Inv(s) && Enabled(s, LateSpawnFailure(spawner))
    requires i > 0 && AtPc(s, i, Running) && s.threads[i].exception.Some?
    ensures var s' := Apply(s, LateSpawnFailure(spawner));
      && Enabled(s', Unwind(i))
      && Apply(s', Unwind(i)).threads[0].exception == s.threads[0].exception
  {
    var s' := Apply(s, LateSpawnFailure(spawner));
    assert forall h :: h in s.threadMap && s.threadMap[h] == 0 ==> s.threads[0].handle == h;
  }

  /** The main thread fails late in a second spawn while the first app thread carries an
      exception; the main thread never hears of it. */
  lemma LateFailureIsPossible(text: string) returns (run: seq<Label>, s: State)
    ensures OrderlyRun(Initial, run) && IsRun(Initial, run) && s == After(Initial, run)
    ensures Enabled(s, LateSpawnFailure(0)) && AtPc(s, 1, Running) && s.threads[1].exception == Some(PREFIX + text)
    ensures Enabled(Apply(s, LateSpawnFailure(0)), Unwind(1))
    ensures Apply(Apply(s, LateSpawnFailure(0)), Unwind(1)).threads[0].exception.None?
    ensures Apply(s, Unwind(1)).threads[0].exception == Some(PREFIX + text)
  {
    run := FirstSpawn();
    Extend(Initial, run, AssignHost(0));
    run := run + [AssignHost(0)];
    Extend(Initial, run, Raise(1, text));
    run := run + [Raise(1, text)];
    s := After(Initial, run);
    InitialInv();
    OrderlyRunKeepsInv(Initial, run);
    LateFailureHidesExceptions(s, 0, 1);
    ExceptionReachesEveryRegisteredThread(s, 1, 0);
  }

  /** Cleanup of a started instance without app threads, and a destructor that spawns one. */
  lemma DestructorSpawn() returns (run: seq<Label>)
    ensures OrderlyRun(Initial, run) && IsRun(Initial, run)
    ensures After(Initial, run) ==
      State([MainThread, SpawnedThread(0, 1).(pc := Running, hostStored := true)],
            map[0 := 0, 1 := 1], 2, Destructing, true, false)
  {
    run := [];
    Extend(Initial, run, BeginCleanup(true));
    run := run + [BeginCleanup(true)];
    Extend(Initial, run, Snapshot([]));
    run := run + [Snapshot([])];
    Extend(Initial, run, RunDtors);
    run := run + [RunDtors];
    assert After(Initial, run) == Initial.(joiner := Destructing, dtors := true);
    assert IsFirstFree(Initial.threadMap.Keys, 1, 1);
    Extend(Initial, run, Publish(0, 1));
    run := run + [Publish(0, 1)];
    Extend(Initial, run, CreateHost(0));
    run := run + [CreateHost(0)];
    Extend(Initial, run, AssignHost(0));
    run := run + [AssignHost(0)];
    assert After(Initial, run).threads == [MainThread, SpawnedThread(0, 1).(pc := Running, hostStored := true)];
  }

  /** Destroy can tear the instance down under a thread its destructors spawned, and then
      deletes that thread's joinable `std::thread`. */
  lemma DestructorSpawnIsTornDown() returns (run: seq<Label>, s: State)
    ensures OrderlyRun(Initial, run) && IsRun(Initial, run) && s == After(Initial, run)
    ensures Enabled(s, TearDown) && AtPc(s, 1, Running) && Apply(s, TearDown).crashed
  {
    run := DestructorSpawn();
    s := After(Initial, run);
    assert s.threadMap[1] == 1;
  }

  /** A thread left in the map need not be unfinished: one that ends before teardown has detached
      itself, and nobody erases its record. */
  lemma DetachedThreadStaysMapped() returns (run: seq<Label>, s: State)
    ensures OrderlyRun(Initial, run) && IsRun(Initial, run) && s == After(Initial, run)
    ensures Enabled(s, TearDown) && Registered(s, 1) && Over(s.threads[1]) && !Apply(s, TearDown).crashed
  {
    run := DestructorSpawn();
    Extend(Initial, run, Unwind(1));
    run := run + [Unwind(1)];
    Extend(Initial, run, FreeStack(1));
    run := run + [FreeStack(1)];
    Extend(Initial, run, ExitSection(1));
    run := run + [ExitSection(1)];
    s := After(Initial, run);
  }
}
