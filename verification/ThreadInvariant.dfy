/** The invariant of the app-thread protocol, and the proof that every orderly step keeps it. */
module ThreadInvariant {
  import opened Prelude
  import opened ThreadHandles
  import opened ThreadProtocol

  /** Thread `i`'s info record is in the map. */
  predicate Registered(s: State, i: nat) {
    && Is(s, i)
    && var h := s.threads[i].handle;
       h in s.threadMap && s.threadMap[h] == i
  }

  /** The host thread has been joined or detached, once. */
  predicate Settled(t: Thread) {
    t.joins + t.detaches == 1
  }

  ghost predicate MapOk(s: State) {
    && s.cursor < U32
    && 0 in s.threadMap && s.threadMap[0] == 0
    && forall h :: h in s.threadMap ==> h < U32 && Is(s, s.threadMap[h]) && s.threads[s.threadMap[h]].handle == h
  }

  /** The main thread may be in app code. */
  predicate MainInApp(j: Joiner) {
    j.NotStarted? || j.Destructing?
  }

  predicate MainOk(s: State) {
    && Is(s, 0)
    && var m := s.threads[0];
       && m.handle == 0 && m.waitCount == -1 && m.joins == 0 && m.detaches == 0 && m.hostStored
       && (MainInApp(s.joiner) ==> m.pc.Running? || m.pc.Spawning? || m.pc.Assigning?)
       && (!MainInApp(s.joiner) ==> m.pc == Done)
  }

  /** The joiner is counted in thread `i`'s `waitCount`. */
  predicate WaitedOn(s: State, i: nat) {
    (s.joiner.Waiting? || s.joiner.Woken?) && JoinerIs(s, i)
  }

  predicate ThreadOk(s: State, i: nat)
    requires Is(s, i)
  {
    var t := s.threads[i];
    && t.handle != 0
    && t.joins + t.detaches <= 1
    && (Settled(t) ==> t.pc == Done)
    && (!Settled(t) ==> Registered(s, i))
    && (t.pc == Done && !Settled(t) ==> (s.joiner.Woken? || s.joiner.InJoin?) && JoinerIs(s, i))
    && t.waitCount == (if Settled(t) then -1 else if WaitedOn(s, i) then 1 else 0)
    && t.frees == (if t.pc == StackFreed || t.pc == Done then 1 else 0)
  }

  /** Spawner and child agree on how far the spawn got. */
  predicate SpawnOk(s: State, i: nat)
    requires Is(s, i)
  {
    var t := s.threads[i];
    && (i > 0 ==> t.parent < i)
    && (t.pc == Published ==> i > 0 && AtPc(s, t.parent, Spawning(i)))
    && (!t.hostStored && t.pc != Published ==> i > 0 && AtPc(s, t.parent, Assigning(i)))
    && (t.hostStored ==> t.pc != Published)
    && (t.pc.Spawning? ==>
          var c := t.pc.child;
          c > 0 && AtPc(s, c, Published) && s.threads[c].parent == i)
    && (t.pc.Assigning? ==>
          var c := t.pc.child;
          c > 0 && Is(s, c) && s.threads[c].pc != Published && !s.threads[c].hostStored && s.threads[c].parent == i)
  }

  ghost predicate RoundOk(s: State, round: seq<nat>) {
    && Distinct(round)
    && forall j :: 0 <= j < |round| ==> 0 < round[j] && Is(s, round[j])
  }

  /** Before the entry at hand a round has erased, from it on the records are still mapped; no
      thread is joined before all of its round were cancelled. */
  ghost predicate JoinerOk(s: State) {
    match s.joiner
    case NotStarted => true
    case Snapshotting => true
    case Destructing => true
    case Returned => forall i :: 0 < i < |s.threads| ==> !Registered(s, i)
    case TornDown => forall i :: 0 < i < |s.threads| ==> Settled(s.threads[i])
    case Cancelling(r, k) =>
      && RoundOk(s, r) && k < |r|
      && forall j :: 0 <= j < |r| ==> Registered(s, r[j]) && (j < k ==> s.threads[r[j]].cancelled)
    case _ =>
      var r, k := s.joiner.round, s.joiner.next;
      && RoundOk(s, r) && k < |r|
      && (forall j :: 0 <= j < |r| ==> s.threads[r[j]].cancelled && (Registered(s, r[j]) <==> k <= j))
      && var t := s.threads[r[k]];
         && (s.joiner.Waiting? ==> t.pc != Done)
         && (s.joiner.Woken? ==> t.pc == Done && !Settled(t))
         && (s.joiner.InJoin? ==> t.pc == Done && !Settled(t) && t.hostStored)
         && (s.joiner.Erasing? ==> Settled(t))
  }

  ghost predicate AllThreadsOk(s: State) {
    forall i :: 0 < i < |s.threads| ==> ThreadOk(s, i)
  }

  ghost predicate AllSpawnsOk(s: State) {
    forall i :: 0 <= i < |s.threads| ==> SpawnOk(s, i)
  }

  ghost predicate ExceptionsOk(s: State) {
    forall i :: 0 <= i < |s.threads| && s.threads[i].exception.Some?
      ==> PREFIX <= s.threads[i].exception.value
  }

  ghost predicate Inv(s: State) {
    && !s.crashed
    && MapOk(s) && MainOk(s) && JoinerOk(s)
    && AllThreadsOk(s) && AllSpawnsOk(s) && ExceptionsOk(s)
  }

  lemma InitialInv()
    ensures Inv(Initial)
  {
  }

  /** The map is untouched, so the same records are in it. */
  ghost predicate SameMap(s: State, s': State) {
    && |s'.threads| == |s.threads| && s'.threadMap == s.threadMap && s'.cursor == s.cursor
    && forall i :: 0 <= i < |s.threads| ==> s'.threads[i].handle == s.threads[i].handle
  }

  lemma SameMapKeepsMap(s: State, s': State)
    requires MapOk(s) && SameMap(s, s')
    ensures MapOk(s')
    ensures forall i :: Is(s, i) ==> (Registered(s', i) <==> Registered(s, i))
  {
  }

  /** The same threads are over and settled. */
  ghost predicate SameEnds(s: State, s': State) {
    && |s'.threads| == |s.threads|
    && forall i :: 0 <= i < |s.threads| ==>
         && s'.threads[i].joins + s'.threads[i].detaches == s.threads[i].joins + s.threads[i].detaches
         && (s'.threads[i].pc == Done <==> s.threads[i].pc == Done)
         && (s.threads[i].hostStored ==> s'.threads[i].hostStored)
         && (s.threads[i].cancelled ==> s'.threads[i].cancelled)
  }

  lemma SameEndsKeepJoiner(s: State, s': State)
    requires MapOk(s) && JoinerOk(s) && SameMap(s, s') && SameEnds(s, s') && s'.joiner == s.joiner
    ensures JoinerOk(s')
  {
    SameMapKeepsMap(s, s');
  }

  predicate Plain(pc: Pc) {
    pc == Running || pc == Unwound || pc == StackFreed || pc == Done
  }

  /** No thread entered or left a spawn. */
  ghost predicate SameSpawns(s: State, s': State) {
    && |s'.threads| == |s.threads|
    && forall i :: 0 <= i < |s.threads| ==>
         && s'.threads[i].parent == s.threads[i].parent
         && s'.threads[i].hostStored == s.threads[i].hostStored
         && (s'.threads[i].pc == s.threads[i].pc || (Plain(s'.threads[i].pc) && Plain(s.threads[i].pc)))
  }

  lemma SameSpawnsKeepSpawns(s: State, s': State)
    requires AllSpawnsOk(s) && SameSpawns(s, s')
    ensures AllSpawnsOk(s')
  {
    forall i | 0 <= i < |s.threads| ensures SpawnOk(s', i) { assert SpawnOk(s, i); }
  }

  /** All threads but `changed` keep everything that `ThreadOk` looks at. */
  ghost predicate OthersSame(s: State, s': State, changed: nat) {
    && |s'.threads| == |s.threads|
    && forall i :: 0 <= i < |s.threads| && i != changed ==>
         var t, t' := s.threads[i], s'.threads[i];
         && t'.pc == t.pc && t'.waitCount == t.waitCount
         && t'.joins == t.joins && t'.detaches == t.detaches && t'.frees == t.frees
  }

  /** Where the joiner stands, as far as threads other than `changed` can tell. */
  predicate SameWait(s: State, s': State, i: nat) {
    && (WaitedOn(s', i) <==> WaitedOn(s, i))
    && ((s'.joiner.Woken? || s'.joiner.InJoin?) && JoinerIs(s', i) <==>
        (s.joiner.Woken? || s.joiner.InJoin?) && JoinerIs(s, i))
  }

  lemma OthersKeepThreadOk(s: State, s': State, changed: nat)
    requires MapOk(s) && AllThreadsOk(s) && SameMap(s, s') && OthersSame(s, s', changed)
    requires forall i :: Is(s, i) && i != changed ==> SameWait(s, s', i)
    requires 0 < changed < |s.threads| ==> ThreadOk(s', changed)
    ensures AllThreadsOk(s')
  {
    SameMapKeepsMap(s, s');
    forall i | 0 < i < |s.threads| ensures ThreadOk(s', i) {
      if i != changed {
        assert ThreadOk(s, i) && SameWait(s, s', i);
      }
    }
  }

  /** A new thread `c` is appended under a key the map did not hold. */
  ghost predicate Appended(s: State, s': State, spawner: nat, h: nat) {
    var c := |s.threads|;
    && AtPc(s, spawner, Running) && h !in s.threadMap && 0 < h < U32
    && s'.threads == s.threads[spawner := s.threads[spawner].(pc := Spawning(c))] + [SpawnedThread(spawner, h)]
    && s'.threadMap == s.threadMap[h := c] && s'.cursor < U32
    && s'.joiner == s.joiner && s'.crashed == s.crashed
  }

  lemma AppendedKeepsMap(s: State, s': State, spawner: nat, h: nat)
    requires MapOk(s) && MainOk(s) && Appended(s, s', spawner, h)
    ensures MapOk(s') && MainOk(s')
    ensures forall i :: Is(s, i) ==> (Registered(s', i) <==> Registered(s, i))
    ensures Registered(s', |s.threads|)
  {
  }

  lemma AppendedKeepsThreads(s: State, s': State, spawner: nat, h: nat)
    requires MapOk(s) && MainOk(s) && JoinerOk(s) && AllThreadsOk(s) && Appended(s, s', spawner, h)
    ensures AllThreadsOk(s')
  {
    AppendedKeepsMap(s, s', spawner, h);
    forall i | 0 < i < |s'.threads| ensures ThreadOk(s', i) {
      if i < |s.threads| { assert ThreadOk(s, i); }
    }
  }

  lemma AppendedKeepsSpawns(s: State, s': State, spawner: nat, h: nat)
    requires AllSpawnsOk(s) && Appended(s, s', spawner, h)
    ensures AllSpawnsOk(s')
  {
    forall i | 0 <= i < |s'.threads| ensures SpawnOk(s', i) {
      if i < |s.threads| { assert SpawnOk(s, i); }
    }
  }

  lemma NobodyRunsAtRest(s: State, i: nat)
    requires MainOk(s) && JoinerOk(s) && AllThreadsOk(s) && AtPc(s, i, Running)
    ensures !s.joiner.Returned? && !s.joiner.TornDown?
  {
    assert i > 0 ==> ThreadOk(s, i);
  }

  lemma AppendedKeepsJoiner(s: State, s': State, spawner: nat, h: nat)
    requires MapOk(s) && MainOk(s) && JoinerOk(s) && Appended(s, s', spawner, h)
    requires !s.joiner.Returned? && !s.joiner.TornDown? && (spawner > 0 ==> ThreadOk(s, spawner))
    ensures JoinerOk(s')
  {
    AppendedKeepsMap(s, s', spawner, h);
    OldThreadsKeepJoiner(s, s');
  }

  /** A joiner inside cleanup does not look at new threads. */
  lemma OldThreadsKeepJoiner(s: State, s': State)
    requires JoinerOk(s) && s'.joiner == s.joiner && !s.joiner.Returned? && !s.joiner.TornDown?
    requires |s'.threads| >= |s.threads|
    requires forall i :: Is(s, i) ==> (Registered(s', i) <==> Registered(s, i))
    requires forall i :: 0 <= i < |s.threads| ==>
      && s'.threads[i].joins + s'.threads[i].detaches == s.threads[i].joins + s.threads[i].detaches
      && (s'.threads[i].pc == Done <==> s.threads[i].pc == Done)
      && s'.threads[i].hostStored == s.threads[i].hostStored
      && s'.threads[i].cancelled == s.threads[i].cancelled
    ensures JoinerOk(s')
  {
  }

  lemma PublishKeepsInv(s: State, spawner: nat, h: nat, s': State)
    requires Inv(s) && Enabled(s, Publish(spawner, h)) && s' == Apply(s, Publish(spawner, h))
    ensures Inv(s')
  {
    FreshHandle(s.threadMap.Keys, s.cursor, h);
    assert Appended(s, s', spawner, h);
    AppendedKeepsMap(s, s', spawner, h);
    AppendedKeepsThreads(s, s', spawner, h);
    AppendedKeepsSpawns(s, s', spawner, h);
    NobodyRunsAtRest(s, spawner);
    assert spawner > 0 ==> ThreadOk(s, spawner);
    AppendedKeepsJoiner(s, s', spawner, h);
  }

  lemma CreateKeepsSpawns(s: State, spawner: nat, c: nat, s': State)
    requires AllSpawnsOk(s) && Is(s, c) && AtPc(s, spawner, Spawning(c)) && c != spawner
    requires s'.threads == s.threads[spawner := s.threads[spawner].(pc := Assigning(c))][c := s.threads[c].(pc := Running)]
    ensures AllSpawnsOk(s')
  {
    assert SpawnOk(s, spawner) && SpawnOk(s, c);
    forall i | 0 <= i < |s.threads| ensures SpawnOk(s', i) { assert SpawnOk(s, i); }
  }

  /** App code is not over yet. */
  predicate InAppCode(pc: Pc) {
    pc == Published || pc == Running || pc.Spawning? || pc.Assigning?
  }

  lemma PcKeepsThreads(s: State, i: nat, pc: Pc)
    requires MapOk(s) && AllThreadsOk(s) && Is(s, i)
    requires InAppCode(s.threads[i].pc) && InAppCode(pc)
    ensures SameMap(s, SetPc(s, i, pc)) && SameEnds(s, SetPc(s, i, pc))
    ensures MapOk(SetPc(s, i, pc)) && AllThreadsOk(SetPc(s, i, pc))
  {
    var s' := SetPc(s, i, pc);
    SameMapKeepsMap(s, s');
    if i > 0 { assert ThreadOk(s, i); }
    OthersKeepThreadOk(s, s', i);
  }

  lemma CreateKeepsInv(s: State, spawner: nat, s': State)
    requires Inv(s) && Enabled(s, CreateHost(spawner)) && s' == Apply(s, CreateHost(spawner))
    ensures Inv(s')
  {
    var c := s.threads[spawner].pc.child;
    assert c != spawner && s.threads[c].pc == Published by { assert SpawnOk(s, spawner); }
    var mid := SetPc(s, spawner, Assigning(c));
    PcKeepsThreads(s, spawner, Assigning(c));
    PcKeepsThreads(mid, c, Running);
    CreateKeepsSpawns(s, spawner, c, s');
    assert JoinerOk(s') by {
      SameEndsKeepJoiner(s, mid);
      SameEndsKeepJoiner(mid, s');
    }
  }

  lemma AssignKeepsSpawns(s: State, spawner: nat, c: nat, s': State)
    requires AllSpawnsOk(s) && Is(s, c) && AtPc(s, spawner, Assigning(c)) && c != spawner
    requires s'.threads == s.threads[spawner := s.threads[spawner].(pc := Running)][c := s.threads[c].(hostStored := true)]
    ensures AllSpawnsOk(s')
  {
    assert SpawnOk(s, spawner) && SpawnOk(s, c);
    forall i | 0 <= i < |s.threads| ensures SpawnOk(s', i) { assert SpawnOk(s, i); }
  }

  lemma StoreKeepsThreads(s: State, c: nat, s': State)
    requires MapOk(s) && AllThreadsOk(s) && JoinerOk(s) && Is(s, c)
    requires s' == s.(threads := s.threads[c := s.threads[c].(hostStored := true)])
    ensures MapOk(s') && AllThreadsOk(s') && JoinerOk(s')
  {
    SameMapKeepsMap(s, s');
    SameEndsKeepJoiner(s, s');
    if c > 0 { assert ThreadOk(s, c); }
    OthersKeepThreadOk(s, s', c);
  }

  lemma AssignKeepsInv(s: State, spawner: nat, s': State)
    requires Inv(s) && Enabled(s, AssignHost(spawner)) && s' == Apply(s, AssignHost(spawner))
    ensures Inv(s')
  {
    var c := s.threads[spawner].pc.child;
    assert c > 0 && c != spawner by { assert SpawnOk(s, spawner) && SpawnOk(s, c); }
    var mid := SetPc(s, spawner, Running);
    PcKeepsThreads(s, spawner, Running);
    SameEndsKeepJoiner(s, mid);
    StoreKeepsThreads(mid, c, s');
    AssignKeepsSpawns(s, spawner, c, s');
  }

  /** Thread `i` alone changed, within app code or on its way out of it. */
  lemma ThreadStepKeepsInv(s: State, i: nat, s': State)
    requires Inv(s) && Is(s, i) && SameMap(s, s') && SameEnds(s, s') && SameSpawns(s, s') && OthersSame(s, s', i)
    requires s'.joiner == s.joiner && s'.crashed == s.crashed && MainOk(s') && ExceptionsOk(s')
    requires i > 0 ==> ThreadOk(s', i)
    ensures Inv(s')
  {
    SameMapKeepsMap(s, s');
    SameEndsKeepJoiner(s, s');
    SameSpawnsKeepSpawns(s, s');
    OthersKeepThreadOk(s, s', i);
  }

  /** Only exception texts changed. */
  lemma ExceptionsKeepInv(s: State, s': State)
    requires Inv(s) && s'.joiner == s.joiner && s'.threadMap == s.threadMap && s'.cursor == s.cursor
    requires !s'.crashed && |s'.threads| == |s.threads| && ExceptionsOk(s')
    requires forall j :: 0 <= j < |s.threads| ==>
      s'.threads[j] == s.threads[j].(exception := s'.threads[j].exception)
    ensures Inv(s')
  {
    SameMapKeepsMap(s, s');
    SameEndsKeepJoiner(s, s');
    SameSpawnsKeepSpawns(s, s');
    OthersKeepThreadOk(s, s', 0);
  }

  lemma RaiseKeepsInv(s: State, i: nat, text: string, s': State)
    requires Inv(s) && Enabled(s, Raise(i, text)) && s' == Apply(s, Raise(i, text))
    ensures Inv(s')
  {
    if i > 0 { assert ThreadOk(s, i); }
    ThreadStepKeepsInv(s, i, s');
  }

  lemma FreeStackKeepsInv(s: State, i: nat, s': State)
    requires Inv(s) && Enabled(s, FreeStack(i)) && s' == Apply(s, FreeStack(i))
    ensures Inv(s')
  {
    assert ThreadOk(s, i);
    ThreadStepKeepsInv(s, i, s');
  }

  lemma UnwindingShape(s: State, i: nat)
    requires Is(s, i)
    ensures var mid := s.threads[i := s.threads[i].(pc := Unwound, cancelled := true)];
      forall j: nat :: j < |s.threads| ==>
        && Unwinding(s, i)[j] == mid[j].(exception := Unwinding(s, i)[j].exception)
        && (Unwinding(s, i)[j].exception == mid[j].exception
            || (Unwinding(s, i)[j].exception.Some? && PREFIX <= Unwinding(s, i)[j].exception.value))
  {
  }

  lemma LeaveAppCodeKeepsInv(s: State, i: nat)
    requires Inv(s) && i > 0 && AtPc(s, i, Running)
    ensures Inv(s.(threads := s.threads[i := s.threads[i].(pc := Unwound, cancelled := true)]))
  {
    assert ThreadOk(s, i);
    ThreadStepKeepsInv(s, i, s.(threads := s.threads[i := s.threads[i].(pc := Unwound, cancelled := true)]));
  }

  lemma UnwindKeepsInv(s: State, i: nat, s': State)
    requires Inv(s) && Enabled(s, Unwind(i)) && s' == Apply(s, Unwind(i))
    ensures Inv(s')
  {
    UnwindingShape(s, i);
    LeaveAppCodeKeepsInv(s, i);
    ExceptionsKeepInv(s.(threads := s.threads[i := s.threads[i].(pc := Unwound, cancelled := true)]), s');
  }

  /** The main thread leaves app code for cleanup, or comes back to it for the destructors. */
  lemma MainMoveKeepsInv(s: State, l: Label, s': State)
    requires Inv(s) && (l.BeginCleanup? || l.RunDtors?) && Enabled(s, l) && s' == Apply(s, l)
    ensures Inv(s')
  {
    assert OthersSame(s, s', 0) && SameMap(s, s');
    SameMapKeepsMap(s, s');
    SameSpawnsKeepSpawns(s, s');
    OthersKeepThreadOk(s, s', 0);
  }

  lemma DetachKeepsJoiner(s: State, i: nat, s': State)
    requires MapOk(s) && JoinerOk(s) && 0 < i && AtPc(s, i, StackFreed) && ThreadOk(s, i) && s.threads[i].waitCount == 0
    requires var t := s.threads[i];
      s' == s.(threads := s.threads[i := t.(pc := Done, detaches := t.detaches + 1, waitCount := -1)])
    ensures JoinerOk(s')
  {
    assert !HasEntry(s.joiner) || s.joiner.Cancelling? || s.joiner.Joining? || !JoinerIs(s, i);
    SameMapKeepsMap(s, s');
  }

  lemma DetachKeepsInv(s: State, i: nat, s': State)
    requires Inv(s) && 0 < i && AtPc(s, i, StackFreed) && s.threads[i].waitCount == 0
    requires var t := s.threads[i];
      s' == s.(threads := s.threads[i := t.(pc := Done, detaches := t.detaches + 1, waitCount := -1)])
    ensures Inv(s')
  {
    assert ThreadOk(s, i);
    DetachKeepsJoiner(s, i, s');
    SameMapKeepsMap(s, s');
    SameSpawnsKeepSpawns(s, s');
    OthersKeepThreadOk(s, s', i);
  }

  lemma NotifyKeepsInv(s: State, i: nat, s': State)
    requires Inv(s) && 0 < i && AtPc(s, i, StackFreed) && s.threads[i].waitCount != 0
    requires s.joiner.Waiting? && JoinerIs(s, i)
    requires s' == SetPc(s, i, Done).(joiner := Woken(s.joiner.round, s.joiner.next))
    ensures Inv(s')
  {
    assert ThreadOk(s, i);
    SameMapKeepsMap(s, s');
    SameSpawnsKeepSpawns(s, s');
    OthersKeepThreadOk(s, s', i);
  }

  lemma ExitKeepsInv(s: State, i: nat, s': State)
    requires Inv(s) && Enabled(s, ExitSection(i)) && Orderly(s, ExitSection(i)) && s' == Apply(s, ExitSection(i))
    ensures Inv(s')
  {
    assert ThreadOk(s, i);
    if s.threads[i].waitCount == 0 {
      DetachKeepsInv(s, i, s');
    } else {
      NotifyKeepsInv(s, i, s');
    }
  }

  lemma SnapshotKeepsInv(s: State, order: seq<nat>, s': State)
    requires Inv(s) && Enabled(s, Snapshot(order)) && s' == Apply(s, Snapshot(order))
    ensures Inv(s')
  {
    assert OthersSame(s, s', 0) && SameMap(s, s');
    SameMapKeepsMap(s, s');
    SnapshotListsRegistered(s, order);
    assert forall j :: 0 <= j < |order| ==> order[j] in order;
    assert JoinerOk(s');
    SameSpawnsKeepSpawns(s, s');
    OthersKeepThreadOk(s, s', 0);
  }

  lemma SnapshotListsRegistered(s: State, order: seq<nat>)
    requires Inv(s) && ListsAppThreads(s, order)
    ensures forall i :: i in order <==> i > 0 && Registered(s, i)
  {
    forall i | i > 0 && Registered(s, i) ensures i in order {
      assert s.threadMap[s.threads[i].handle] == i;
      assert ThreadOk(s, i);
    }
    forall i | i in order ensures i > 0 && Registered(s, i) {
      var h :| h in s.threadMap && s.threadMap[h] == i;
      assert s.threads[i].handle == h;
    }
  }

  /** The joiner moved within its round and changed at most its entry's thread. */
  lemma JoinerStepKeepsInv(s: State, s': State)
    requires Inv(s) && AtEntry(s) && SameMap(s, s') && SameSpawns(s, s') && OthersSame(s, s', Entry(s))
    requires !s'.crashed && MainOk(s') && ExceptionsOk(s')
    requires ThreadOk(s', Entry(s)) && JoinerOk(s')
    requires forall i :: Is(s, i) && i != Entry(s) ==> SameWait(s, s', i)
    ensures Inv(s')
  {
    SameMapKeepsMap(s, s');
    SameSpawnsKeepSpawns(s, s');
    OthersKeepThreadOk(s, s', Entry(s));
  }

  lemma CancelKeepsInv(s: State, s': State)
    requires Inv(s) && Enabled(s, Cancel) && s' == Apply(s, Cancel)
    ensures Inv(s')
  {
    assert ThreadOk(s, Entry(s));
    JoinerStepKeepsInv(s, s');
  }

  lemma JoinLockKeepsInv(s: State, s': State)
    requires Inv(s) && Enabled(s, JoinLock) && s' == Apply(s, JoinLock)
    ensures Inv(s')
  {
    assert ThreadOk(s, Entry(s));
    JoinLockKeepsJoiner(s, s');
    JoinerStepKeepsInv(s, s');
  }

  lemma JoinLockKeepsJoiner(s: State, s': State)
    requires s.joiner.Joining? && AtEntry(s) && MapOk(s) && JoinerOk(s) && ThreadOk(s, Entry(s))
    requires s'.threadMap == s.threadMap && s'.cursor == s.cursor
    requires var i, t := Entry(s), s.threads[Entry(s)];
      && s'.threads == (if t.waitCount < 0 then s.threads else s.threads[i := t.(waitCount := t.waitCount + 1)])
      && s'.joiner == (if t.waitCount < 0 then Erasing(s.joiner.round, s.joiner.next)
                       else Waiting(s.joiner.round, s.joiner.next))
    ensures JoinerOk(s')
  {
    SameMapKeepsMap(s, s');
  }

  lemma ResumeKeepsInv(s: State, s': State)
    requires Inv(s) && Enabled(s, Resume) && Orderly(s, Resume) && s' == Apply(s, Resume)
    ensures Inv(s')
  {
    assert ThreadOk(s, Entry(s));
    JoinerStepKeepsInv(s, s');
  }

  lemma JoinReturnKeepsInv(s: State, s': State)
    requires Inv(s) && Enabled(s, JoinReturn) && s' == Apply(s, JoinReturn)
    ensures Inv(s')
  {
    assert ThreadOk(s, Entry(s));
    JoinerStepKeepsInv(s, s');
  }

  lemma EraseKeepsInv(s: State, s': State)
    requires Inv(s) && Enabled(s, Erase) && s' == Apply(s, Erase)
    ensures Inv(s')
    ensures forall i :: Is(s, i) ==> (Registered(s', i) <==> Registered(s, i) && i != Entry(s))
  {
    var gone := Entry(s);
    assert ThreadOk(s, gone) && Registered(s, gone);
    forall i | Is(s, i) ensures Registered(s', i) <==> Registered(s, i) && i != gone {}
    forall i | 0 < i < |s.threads| ensures ThreadOk(s', i) { assert ThreadOk(s, i); }
    SameSpawnsKeepSpawns(s, s');
  }

  /** A thread that is not over was spawned by one that is not over or by a main thread still in
      its spawn, so the first one not over has its host thread stored and would be deleted
      joinable. */
  lemma {:induction false} UnfinishedIsJoinable(s: State, i: nat) returns (first: nat)
    requires Inv(s) && 0 < i && Is(s, i) && !Settled(s.threads[i])
    requires s.threads[0].pc == Running || s.threads[0].pc == Done
    ensures 0 < first && Registered(s, first) && Joinable(s.threads[first])
  {
    assert ThreadOk(s, i) && SpawnOk(s, i);
    if s.threads[i].hostStored {
      first := i;
    } else {
      assert ThreadOk(s, s.threads[i].parent);
      first := UnfinishedIsJoinable(s, s.threads[i].parent);
    }
  }

  /** Before teardown every record of a thread that is not over is in the map, and no joiner
      waits, so counting at zero is what tells it from the others. */
  lemma NoneUnfinishedIff(s: State)
    requires Inv(s) && (s.joiner.Returned? || s.joiner.Destructing?)
    ensures NoneUnfinished(s) <==> forall i :: 0 < i < |s.threads| ==> Settled(s.threads[i])
  {
    forall i | 0 < i < |s.threads| ensures Settled(s.threads[i]) || !NoneUnfinished(s) {
      assert ThreadOk(s, i);
    }
    forall h | h in s.threadMap && (forall i :: 0 < i < |s.threads| ==> Settled(s.threads[i]))
      ensures s.threads[s.threadMap[h]].waitCount < 0
    {
      var i := s.threadMap[h];
      assert i > 0 ==> ThreadOk(s, i);
    }
  }

  lemma TearDownCrashesIff(s: State)
    requires Inv(s) && Enabled(s, TearDown)
    ensures TearingDown(s).crashed <==> !NoneUnfinished(s)
  {
    NoneUnfinishedIff(s);
    if i :| 0 < i < |s.threads| && !Settled(s.threads[i]) {
      var first := UnfinishedIsJoinable(s, i);
      assert s.threadMap[s.threads[first].handle] == first;
    }
  }

  lemma TearDownKeepsInv(s: State, s': State)
    requires Inv(s) && Enabled(s, TearDown) && Orderly(s, TearDown) && s' == Apply(s, TearDown)
    ensures Inv(s')
  {
    TearDownCrashesIff(s);
    NoneUnfinishedIff(s);
    assert OthersSame(s, s', 0) && SameMap(s, s');
    SameMapKeepsMap(s, s');
    SameSpawnsKeepSpawns(s, s');
    OthersKeepThreadOk(s, s', 0);
  }

  /** The steps of spawners and app threads. */
  lemma ThreadsKeepInv(s: State, l: Label)
    requires Inv(s) && Enabled(s, l) && Orderly(s, l)
    requires l.Publish? || l.CreateHost? || l.AssignHost? || l.Raise? || l.Unwind? || l.FreeStack? || l.ExitSection?
    ensures Inv(Apply(s, l))
  {
    var s' := Apply(s, l);
    match l
    case Publish(spawner, h) => PublishKeepsInv(s, spawner, h, s');
    case CreateHost(spawner) => CreateKeepsInv(s, spawner, s');
    case AssignHost(spawner) => AssignKeepsInv(s, spawner, s');
    case Raise(i, text) => RaiseKeepsInv(s, i, text, s');
    case Unwind(i) => UnwindKeepsInv(s, i, s');
    case FreeStack(i) => FreeStackKeepsInv(s, i, s');
    case ExitSection(i) => ExitKeepsInv(s, i, s');
    case _ =>
  }

  /** The steps of the joiner. */
  lemma JoinerKeepsInv(s: State, l: Label)
    requires Inv(s) && Enabled(s, l) && Orderly(s, l)
    requires l.Snapshot? || l.Cancel? || l.JoinLock? || l.Resume? || l.JoinReturn? || l.Erase?
    ensures Inv(Apply(s, l))
  {
    var s' := Apply(s, l);
    match l
    case Snapshot(order) => SnapshotKeepsInv(s, order, s');
    case Cancel => CancelKeepsInv(s, s');
    case JoinLock => JoinLockKeepsInv(s, s');
    case Resume => ResumeKeepsInv(s, s');
    case JoinReturn => JoinReturnKeepsInv(s, s');
    case Erase => EraseKeepsInv(s, s');
    case _ =>
  }

  lemma OrderlyStepKeepsInv(s: State, l: Label)
    requires Inv(s) && Enabled(s, l) && Orderly(s, l)
    ensures Inv(Apply(s, l))
  {
    if l.BeginCleanup? || l.RunDtors? {
      MainMoveKeepsInv(s, l, Apply(s, l));
    } else if l.TearDown? {
      TearDownKeepsInv(s, Apply(s, l));
    } else if l.Snapshot? || l.Cancel? || l.JoinLock? || l.Resume? || l.JoinReturn? || l.Erase? {
      JoinerKeepsInv(s, l);
    } else {
      ThreadsKeepInv(s, l);
    }
  }

  lemma {:induction false} OrderlyRunKeepsInv(s: State, run: seq<Label>)
    requires Inv(s) && OrderlyRun(s, run)
    ensures IsRun(s, run) && Inv(After(s, run))
    decreases |run|
  {
    OrderlyRunIsRun(s, run);
    if run != [] {
      OrderlyStepKeepsInv(s, run[0]);
      OrderlyRunKeepsInv(Apply(s, run[0]), run[1..]);
    }
  }
}
