/** `InstancePthreadManager` with its info records: each method is one critical section of the
    thread code, updating the fields in place, and makes exactly one step of the protocol. */
module PthreadManager {
  import opened Prelude
  import opened ThreadHandles
  import opened ThreadProtocol
  import opened ThreadInvariant
  import opened ThreadHistory

  /** The exceptions of the registered threads other than `i`, then `i` itself, make an unwind. */
  lemma SpreadIsUnwinding(s: State, i: nat, infos: seq<Thread>)
    requires Inv(s) && Is(s, i) && |infos| == |s.threads| && s.threads[i].exception.Some?
    requires forall j: nat :: j < |infos| ==>
      infos[j] == s.threads[j].(exception :=
        if j != i && Registered(s, j) then Some(PREFIX + ExceptionText(s.threads[i].exception.value))
        else s.threads[j].exception)
    ensures infos[i := infos[i].(pc := Unwound, cancelled := true)] == Unwinding(s, i)
  {
    forall j: nat | Is(s, j) ensures Registered(s, j) <==> j in s.threadMap.Values {
      if j in s.threadMap.Values {
        var h :| h in s.threadMap && s.threadMap[h] == j;
      }
    }
  }

  /** A notified joiner is the only one counted, and its target has left its exit section. */
  lemma NotifiedJoiner(s: State)
    requires Inv(s) && Enabled(s, Resume)
    ensures s.threads[Entry(s)].waitCount == 1
    ensures s.threads[Entry(s)].hostStored ==> Inv(Apply(s, Resume)) && Enabled(Apply(s, Resume), JoinReturn)
  {
    assert ThreadOk(s, Entry(s));
    if s.threads[Entry(s)].hostStored {
      OrderlyStepKeepsInv(s, Resume);
    }
  }

  lemma ExitIsSafe(s: State, i: nat)
    requires Inv(s) && Enabled(s, ExitSection(i))
    ensures Exiting(s, i).crashed <==> s.threads[i].waitCount == 0 && !s.threads[i].hostStored
    ensures !Exiting(s, i).crashed ==> Inv(Exiting(s, i))
  {
    if s.threads[i].waitCount == 0 ==> s.threads[i].hostStored {
      OrderlyStepKeepsInv(s, ExitSection(i));
    }
  }

  lemma UnwindOutcome(s: State, i: nat)
    requires Inv(s) && 0 < i && AtPc(s, i, Running)
    ensures Enabled(s, Unwind(i)) && Inv(Apply(s, Unwind(i)))
    ensures var r := Unwinding(s, i);
      && |r| == |s.threads| && r[i].pc == Unwound && r[i].cancelled
      && (forall j: nat :: j < |r| ==>
            r[j].exception ==
              if s.threads[i].exception.Some? && j != i && Registered(s, j)
              then s.threads[i].exception else s.threads[j].exception)
      && forall j: nat :: j < |r| && j != i ==> r[j] == s.threads[j].(exception := r[j].exception)
  {
    OrderlyStepKeepsInv(s, Unwind(i));
    forall j: nat | j < |s.threads|
      ensures var t' := Unwinding(s, i)[j];
        && t'.exception == (if s.threads[i].exception.Some? && j != i && Registered(s, j)
                            then s.threads[i].exception else s.threads[j].exception)
        && (j != i ==> t' == s.threads[j].(exception := t'.exception))
    {
      UnwindSpreadsOwnExceptionOnly(s, i, j);
    }
    UnwindSpreadsOwnExceptionOnly(s, i, i);
  }

  class Manager {
    var infos: seq<Thread>
    var threadMap: map<nat, nat>
    var curHandleId: nat
    var joiner: Joiner
    var dtors: bool
    var crashed: bool

    function Abstract(): State
      reads this
    {
      State(infos, threadMap, curHandleId, joiner, dtors, crashed)
    }

    /** `InitAppMainThreadInfo` on a new instance. */
    constructor ()
      ensures Abstract() == Initial && Inv(Abstract())
    {
      infos := [MainThread];
      threadMap := map[0 := 0];
      curHandleId := 1;
      joiner := NotStarted;
      dtors := false;
      crashed := false;
    }

    /** Probe the wrapping counter for a free key and publish a new record under it. The loop
        ends because each failed probe brings the counter one step closer to a free key. */
    method PublishThread(spawner: nat) returns (handle: nat, tid: nat)
      requires Inv(Abstract()) && AtPc(Abstract(), spawner, Running) && |threadMap| < U32
      modifies this
      ensures Enabled(old(Abstract()), Publish(spawner, handle))
      ensures Abstract() == Apply(old(Abstract()), Publish(spawner, handle)) && Inv(Abstract())
      ensures 0 < handle < U32 && handle !in old(threadMap)
      ensures threadMap == old(threadMap)[handle := |old(infos)|]
      ensures curHandleId == if handle + 1 == U32 then 0 else handle + 1
      ensures tid == if handle <= INT32_MAX then handle else INT32_MAX
    {
      ghost var before := Abstract();
      ghost var keys := threadMap.Keys;
      ghost var free := SomeUnused(keys, U32);
      ghost var start := curHandleId;
      handle := curHandleId;
      while true
        invariant Abstract() == before.(cursor := curHandleId) && curHandleId < U32
        invariant CyclicDistance(start, curHandleId) + CyclicDistance(curHandleId, free) == CyclicDistance(start, free)
        invariant forall g: nat :: g < U32 && CyclicDistance(start, g) < CyclicDistance(start, curHandleId) ==> g in keys
        decreases CyclicDistance(curHandleId, free)
      {
        handle := curHandleId;
        curHandleId := Increment(curHandleId);
        if handle !in threadMap {
          break;
        }
        ProbeAdvances(start, handle, free);
      }
      assert IsFirstFree(keys, start, handle);
      FreshHandle(keys, start, handle);
      var child := |infos|;
      threadMap := threadMap[handle := child];
      infos := infos[spawner := infos[spawner].(pc := Spawning(child))] + [SpawnedThread(spawner, handle)];
      tid := if handle < INT32_MAX then handle else INT32_MAX;
      OrderlyStepKeepsInv(before, Publish(spawner, handle));
    }

    /** The loop over the map that hands thread `i`'s exception to every other entry. */
    method SpreadException(i: nat, text: string)
      requires Inv(Abstract()) && Is(Abstract(), i)
      modifies this`infos
      ensures |infos| == |old(infos)|
      ensures forall j: nat :: j < |infos| ==>
        infos[j] == old(infos)[j].(exception :=
          if j != i && old(Registered(Abstract(), j)) then Some(PREFIX + text) else old(infos)[j].exception)
    {
      ghost var before := Abstract();
      var todo := threadMap.Keys;
      while todo != {}
        invariant todo <= threadMap.Keys && |infos| == |before.threads|
        invariant forall j: nat :: j < |infos| ==>
          infos[j] == before.threads[j].(exception :=
            if j != i && Registered(before, j) && before.threads[j].handle !in todo
            then Some(PREFIX + text) else before.threads[j].exception)
      {
        var h :| h in todo;
        todo := todo - {h};
        var j := threadMap[h];
        if j != i {
          infos := infos[j := infos[j].(exception := Some(PREFIX + text))];
        }
      }
    }

    /** `DoAppThreadExit` of app thread `i`, holding the map's lock while it spreads. */
    method AppThreadExit(i: nat)
      requires Inv(Abstract()) && 0 < i && AtPc(Abstract(), i, Running)
      modifies this
      ensures Abstract() == Apply(old(Abstract()), Unwind(i)) && Inv(Abstract())
      ensures |infos| == |old(infos)| && infos[i].pc == Unwound && infos[i].cancelled
      ensures forall j: nat :: j < |infos| ==>
        infos[j].exception ==
          if old(infos[i].exception.Some?) && j != i && old(Registered(Abstract(), j))
          then old(infos)[i].exception else old(infos)[j].exception
      ensures forall j: nat :: j < |infos| && j != i ==>
        infos[j] == old(infos)[j].(exception := infos[j].exception)
    {
      ghost var before := Abstract();
      UnwindOutcome(before, i);
      var exception := infos[i].exception;
      if exception.Some? {
        SpreadException(i, ExceptionText(exception.value));
        SpreadIsUnwinding(before, i, infos);
      }
      infos := infos[i := infos[i].(pc := Unwound, cancelled := true)];
    }

    /** The last critical section of host thread `i`. */
    method ExitThread(i: nat)
      requires Inv(Abstract()) && Enabled(Abstract(), ExitSection(i))
      modifies this
      ensures Abstract() == Apply(old(Abstract()), ExitSection(i))
      ensures crashed <==> old(infos[i].waitCount == 0 && !infos[i].hostStored)
      ensures !crashed ==> Inv(Abstract())
    {
      ExitIsSafe(Abstract(), i);
      var t := infos[i];
      if t.waitCount == 0 {
        if t.hostStored {
          infos := infos[i := t.(pc := Done, detaches := t.detaches + 1, waitCount := -1)];
        } else {
          crashed := true;
        }
      } else {
        infos := infos[i := t.(pc := Done)];
        if joiner.Waiting? && joiner.next < |joiner.round| && joiner.round[joiner.next] == i {
          joiner := Woken(joiner.round, joiner.next);
        }
      }
    }

    /** The snapshot loop at the head of each cleanup round; the map yields its entries in an
        order of its own. */
    method TakeSnapshot() returns (round: seq<nat>)
      requires Inv(Abstract()) && joiner.Snapshotting?
      modifies this
      ensures Enabled(old(Abstract()), Snapshot(round))
      ensures Abstract() == Apply(old(Abstract()), Snapshot(round)) && Inv(Abstract())
    {
      ghost var before := Abstract();
      round := [];
      var todo := threadMap.Keys;
      while todo != {}
        invariant todo <= threadMap.Keys && Distinct(round)
        invariant forall i :: i in round <==>
          i > 0 && Registered(before, i) && before.threads[i].handle !in todo
      {
        var h :| h in todo;
        todo := todo - {h};
        var i := threadMap[h];
        assert i > 0 ==> ThreadOk(before, i);
        if infos[i].handle != 0 {
          assert i > 0 && i !in round;
          round := round + [i];
        }
      }
      forall i | i in threadMap.Values && Is(before, i) && infos[i].handle != 0 ensures i in round {
        var h :| h in threadMap && threadMap[h] == i;
        assert Registered(before, i);
      }
      forall i | i in round ensures i in threadMap.Values && infos[i].handle != 0 {
        assert threadMap[infos[i].handle] == i;
        assert ThreadOk(before, i);
      }
      joiner := if round == [] then Returned else Cancelling(round, 0);
      OrderlyStepKeepsInv(before, Snapshot(round));
    }

    /** One turn of the loop that tells the threads of the round to stop. */
    method CancelNext()
      requires Inv(Abstract()) && Enabled(Abstract(), Cancel)
      modifies this
      ensures Abstract() == Apply(old(Abstract()), Cancel) && Inv(Abstract())
      ensures infos[old(joiner).round[old(joiner).next]].cancelled
    {
      OrderlyStepKeepsInv(Abstract(), Cancel);
      var r, k := joiner.round, joiner.next;
      infos := infos[r[k] := infos[r[k]].(cancelled := true)];
      joiner := if k + 1 < |r| then Cancelling(r, k + 1) else Joining(r, 0);
    }

    /** `DoHostThreadJoin` up to the wait. */
    method LockAndWait()
      requires Inv(Abstract()) && Enabled(Abstract(), JoinLock)
      modifies this
      ensures Abstract() == Apply(old(Abstract()), JoinLock) && Inv(Abstract())
    {
      ghost var before := Abstract();
      var i := joiner.round[joiner.next];
      if infos[i].waitCount < 0 {
        joiner := Erasing(joiner.round, joiner.next);
      } else {
        infos := infos[i := infos[i].(waitCount := infos[i].waitCount + 1)];
        joiner := Waiting(joiner.round, joiner.next);
      }
      OrderlyStepKeepsInv(before, JoinLock);
    }

    /** `DoHostThreadJoin` from its wakeup to the call of `join`. */
    method WakeUp()
      requires Inv(Abstract()) && Enabled(Abstract(), Resume)
      modifies this
      ensures Abstract() == Apply(old(Abstract()), Resume)
      ensures crashed <==> old(!infos[joiner.round[joiner.next]].hostStored)
      ensures !crashed ==> Inv(Abstract()) && Enabled(Abstract(), JoinReturn)
    {
      ghost var before := Abstract();
      NotifiedJoiner(before);
      var i := joiner.round[joiner.next];
      infos := infos[i := infos[i].(waitCount := infos[i].waitCount - 1)];
      if infos[i].waitCount == 0 {
        if infos[i].hostStored {
          joiner := InJoin(joiner.round, joiner.next);
        } else {
          crashed := true;
        }
      }
    }

    /** `DoHostThreadJoin` from the return of `join` to the release of `exitLock`. */
    method FinishJoin()
      requires Inv(Abstract()) && Enabled(Abstract(), JoinReturn)
      modifies this
      ensures Abstract() == Apply(old(Abstract()), JoinReturn) && Inv(Abstract())
    {
      ghost var before := Abstract();
      var i := joiner.round[joiner.next];
      infos := infos[i := infos[i].(joins := infos[i].joins + 1, waitCount := -1)];
      joiner := Erasing(joiner.round, joiner.next);
      OrderlyStepKeepsInv(before, JoinReturn);
    }

    /** The tail of `DoHostThreadJoin`. */
    method EraseEntry()
      requires Inv(Abstract()) && Enabled(Abstract(), Erase)
      modifies this
      ensures Abstract() == Apply(old(Abstract()), Erase) && Inv(Abstract())
    {
      ghost var before := Abstract();
      var r, k := joiner.round, joiner.next;
      threadMap := threadMap - {infos[r[k]].handle};
      joiner := if k + 1 < |r| then Joining(r, k + 1) else Snapshotting;
      OrderlyStepKeepsInv(before, Erase);
    }

    /** The end of destroy and the deletion of the instance: every record in the map goes, and
        with it its `std::thread`. */
    method Dispose()
      requires Inv(Abstract()) && Enabled(Abstract(), TearDown)
      modifies this
      ensures Abstract() == Apply(old(Abstract()), TearDown)
      ensures crashed <==> old(!NoneUnfinished(Abstract()))
      ensures !crashed ==> Inv(Abstract())
    {
      ghost var before := Abstract();
      var todo := threadMap.Keys;
      while todo != {}
        invariant todo <= threadMap.Keys && Abstract() == before.(crashed := crashed)
        invariant crashed <==> exists h :: h in threadMap && h !in todo && Joinable(before.threads[threadMap[h]])
      {
        var h :| h in todo;
        todo := todo - {h};
        crashed := crashed || Joinable(infos[threadMap[h]]);
      }
      infos := infos[0 := infos[0].(pc := Done)];
      joiner := TornDown;
      TearDownCrashesIff(before);
      if !crashed {
        OrderlyStepKeepsInv(before, TearDown);
      }
    }
  }
}
