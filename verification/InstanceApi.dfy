/** Start, destroy and the loop thread's pass as the C++ runs them, field by field. Run without
    interruption each does what its steps of the protocol do. */
module InstanceApi {
  import opened Prelude
  import opened InstanceProtocol
  import opened InstanceInvariant

  /** How the runtime calls made by start turn out. */
  datatype Outcomes = Outcomes(instantiate: bool, createEnv: bool, enlarge: bool, initialize: bool)

  function OutcomeAt(pc: Api, o: Outcomes): bool {
    match pc
    case Instantiating(_) => o.instantiate
    case CreatingEnv(_) => o.createEnv
    case Enlarging(_) => o.enlarge
    case _ => o.initialize
  }

  function StepsLeft(pc: Api): nat {
    match pc
    case StartEntry(_) => 8
    case Locking(_) => 7
    case Instantiating(_) => 6
    case CreatingEnv(_) => 5
    case Enlarging(_) => 4
    case Registering(_) => 3
    case Initializing(_) => 2
    case Finishing(_) => 1
    case DestroyEntry(_) => 7
    case CleaningUp(_, _) => 6
    case RunningDtors(_, _) => 5
    case ClosingFds(_) => 4
    case DestroyingEnv(_) => 3
    case Deinstantiating(_) => 2
    case MarkingDestroyed(_) => 1
    case _ => 0
  }

  /** The protocol's steps of start from `pc` up to its return. */
  function StartFrom(t: Inst, pc: Api, o: Outcomes): Inst
    decreases StepsLeft(pc)
  {
    if !InStart(pc) then t
    else
      var (t', pc') := StartStep(t, pc, OutcomeAt(pc, o));
      StartFrom(t', pc', o)
  }

  /** The protocol's steps of destroy from `pc` up to its return. */
  function DestroyFrom(t: Inst, pc: Api): Inst
    decreases StepsLeft(pc)
  {
    if !pc.DestroyEntry? && !InDestroy(pc) then t
    else
      var (t', pc') := DestroyStep(t, pc);
      DestroyFrom(t', pc')
  }

  /** Start from the enlargement on. */
  lemma BringUpSteps(t: Inst, o: Outcomes)
    ensures StartFrom(t, Enlarging(0), o) ==
      if !o.enlarge then t.(phase := Ended, reallocFailed := true)
      else t.(registered := true, phase := if o.initialize then Started else Ended)
  {
    if o.enlarge {
      var t' := t.(registered := true);
      assert StartFrom(t, Enlarging(0), o) == StartFrom(t, Registering(0), o);
      assert StartFrom(t, Registering(0), o) == StartFrom(t', Initializing(0), o);
      if o.initialize {
        assert StartFrom(t', Initializing(0), o) == StartFrom(t', Finishing(0), o);
      }
    }
  }

  /** Start on a new instance, with its runtime calls' outcomes tried in turn. */
  lemma StartSteps(t: Inst, o: Outcomes)
    requires t.phase == New
    ensures StartFrom(t, StartEntry(0), o) ==
      if !o.instantiate then t.(mod := false, exception := false)
      else if !o.createEnv then t.(mod := true, exception := false)
      else if !o.enlarge then t.(mod := true, exception := false, env := true, phase := Ended, reallocFailed := true)
      else t.(mod := true, exception := false, env := true, registered := true,
              phase := if o.initialize then Started else Ended)
  {
    var t1 := t.(mod := o.instantiate, exception := false);
    assert StartFrom(t, StartEntry(0), o) == StartFrom(t, Locking(0), o);
    assert StartFrom(t, Locking(0), o) == StartFrom(t, Instantiating(0), o);
    if o.instantiate {
      assert StartFrom(t, Instantiating(0), o) == StartFrom(t1, CreatingEnv(0), o);
      if o.createEnv {
        assert StartFrom(t1, CreatingEnv(0), o) == StartFrom(t1.(env := true), Enlarging(0), o);
        BringUpSteps(t1.(env := true), o);
      }
    }
  }

  /** Everything released, with what destroy has done added up. */
  function TornDown(t: Inst, work: Teardown): Inst {
    t.(phase := Destroyed, env := false, mod := false, work := work)
  }

  lemma ReleaseSteps(t: Inst)
    ensures DestroyFrom(t, ClosingFds(0)) == TornDown(t, t.work.(closed := t.work.closed || t.mod))
  {
    var t1 := t.(work := t.work.(closed := t.work.closed || t.mod));
    var t2 := t1.(env := false);
    assert DestroyFrom(t, ClosingFds(0)) == DestroyFrom(t1, DestroyingEnv(0));
    assert DestroyFrom(t1, DestroyingEnv(0)) == DestroyFrom(t2, Deinstantiating(0));
    assert DestroyFrom(t2, Deinstantiating(0)) == DestroyFrom(t2.(mod := false), MarkingDestroyed(0));
  }

  lemma CleanupSteps(t: Inst, d: bool)
    ensures DestroyFrom(t, CleaningUp(0, d)) ==
      TornDown(t, Teardown(t.work.cleaned || t.env, t.work.dtorRuns + if d then 1 else 0, t.work.closed || t.mod))
  {
    var t1 := t.(work := t.work.(cleaned := t.work.cleaned || t.env));
    var t2 := if d then t1.(work := t1.work.(dtorRuns := t1.work.dtorRuns + 1)) else t1;
    assert DestroyFrom(t, CleaningUp(0, d)) == DestroyFrom(t1, RunningDtors(0, d));
    assert DestroyFrom(t1, RunningDtors(0, d)) == DestroyFrom(t2, ClosingFds(0));
    ReleaseSteps(t2);
  }

  lemma DestroySteps(t: Inst)
    requires t.phase != Destroying && t.phase != Destroyed
    ensures DestroyFrom(t, DestroyEntry(0)) ==
      TornDown(t, Teardown(t.work.cleaned || t.env, t.work.dtorRuns + if t.phase == Started then 1 else 0,
                           t.work.closed || t.mod))
  {
    CleanupSteps(t.(phase := Destroying), t.phase == Started);
  }

  lemma {:induction false} StartFromIsOk(t: Inst, pc: Api, o: Outcomes)
    requires InstOk(t, pc) && (InStart(pc) || pc == Outside)
    ensures InstOk(StartFrom(t, pc, o), Outside)
    decreases StepsLeft(pc)
  {
    if InStart(pc) {
      var (t', pc') := StartStep(t, pc, OutcomeAt(pc, o));
      StartStepIsOk(t, pc, OutcomeAt(pc, o));
      StartFromIsOk(t', pc', o);
    }
  }

  lemma {:induction false} DestroyFromIsOk(t: Inst, pc: Api)
    requires InstOk(t, pc) && (pc.DestroyEntry? || InDestroy(pc) || pc == Outside)
    ensures InstOk(DestroyFrom(t, pc), Outside)
    decreases StepsLeft(pc)
  {
    if pc != Outside {
      var (t', pc') := DestroyStep(t, pc);
      DestroyStepIsOk(t, pc);
      DestroyFromIsOk(t', pc');
    }
  }

  class Instance {
    var mainModule: nat
    var state: Phase
    var mainInstance: bool
    var mainExecEnv: bool
    var registered: bool
    var exception: bool
    var callback: bool
    var owner: Option<nat>
    var fired: nat
    var dtorRuns: nat
    var reallocFailed: bool
    var cleaned: bool
    var closed: bool

    function Abstract(): Inst reads this {
      Inst(mainModule, state, mainInstance, mainExecEnv, registered, exception, callback, owner, fired,
           Teardown(cleaned, dtorRuns, closed), reallocFailed)
    }

    /** `wamr_ext_instance_start` with `execFuncLock` held. */
    method Start(o: Outcomes) returns (err: int)
      requires InstOk(Abstract(), StartEntry(0))
      modifies this
      ensures Abstract() == StartFrom(old(Abstract()), StartEntry(0), o)
      ensures InstOk(Abstract(), Outside)
      ensures err == 0 <==> old(state) == New && state == Started
      ensures err == 0 <==> old(state) == New && o.instantiate && o.createEnv && o.enlarge && o.initialize
      ensures err == 0 || err == -1
      ensures err != 0 && old(state) == New ==>
        state == if o.instantiate && o.createEnv then Ended else New
    {
      StartFromIsOk(Abstract(), StartEntry(0), o);
      if state != New {
        return -1;
      }
      StartSteps(Abstract(), o);
      mainInstance, exception := o.instantiate, false;
      if !mainInstance {
        return -1;
      }
      if !o.createEnv {
        return -1;
      }
      mainExecEnv := true;
      if !o.enlarge {
        state, reallocFailed := Ended, true;
        return -1;
      }
      registered := true;
      if !o.initialize {
        state := Ended;
        return -1;
      }
      state := Started;
      err := 0;
    }

    /** `wamr_ext_instance_exec_main_func` with `execFuncLock` held. `found` says whether the app
        exports its main function, `result` what the call returns unless it traps. */
    method ExecMain(found: bool, result: Option<int>) returns (err: int, ret: Option<int>, ran: bool)
      requires InstOk(Abstract(), ExecEntry(0))
      ensures ran <==> state == Started && found
      ensures ran ==> mainInstance && mainExecEnv && registered
      ensures LocalStep(Abstract(), ExecEntry(0), true) == (Abstract(), if state == Started then InMain(0) else Outside)
      ensures if ran && result.Some? then err == 0 && ret == result else err == -1 && ret.None?
    {
      err, ret, ran := -1, None, false;
      if state != Started {
        return;
      }
      if !found {
        return;
      }
      ran := true;
      if result.Some? {
        err, ret := 0, result;
      }
    }

    /** `wamr_ext_instance_destroy` with `execFuncLock` held. It comes to its end unless start
        gave up for want of memory: then there is an exec env to clean up, but the thread manager
        is looked up through custom data that was never set. */
    method Destroy() returns (completed: bool)
      requires InstOk(Abstract(), DestroyEntry(0))
      modifies this
      ensures completed <==> !(old(state) == Ended && old(reallocFailed))
      ensures !completed ==>
        && (Abstract(), CleaningUp(0, false)) == DestroyStep(old(Abstract()), DestroyEntry(0))
        && mainExecEnv && !registered
      ensures completed ==>
        && Abstract() == DestroyFrom(old(Abstract()), DestroyEntry(0))
        && InstOk(Abstract(), Outside)
        && state == Destroyed && !mainExecEnv && !mainInstance
        && cleaned == old(cleaned || mainExecEnv) && closed == old(closed || mainInstance)
        && dtorRuns == old(dtorRuns) + if old(state) == Started then 1 else 0
      ensures old(state) == Destroyed ==> unchanged(this)
    {
      if PhaseRank(state) >= PhaseRank(Destroying) {
        return true;
      }
      DestroySteps(Abstract());
      DestroyFromIsOk(Abstract(), DestroyEntry(0));
      var runDtor := state == Started;
      state := Destroying;
      if mainExecEnv {
        if !registered {
          return false;
        }
        cleaned := true;
      }
      Release(runDtor);
      completed := true;
    }

    /** The rest of destroy, once the app's threads are cleaned up. */
    method Release(runDtor: bool)
      modifies this
      ensures Abstract() == TornDown(old(Abstract()),
        Teardown(old(cleaned), old(dtorRuns) + if runDtor then 1 else 0, old(closed || mainInstance)))
    {
      if runDtor {
        dtorRuns := dtorRuns + 1;
      }
      if mainInstance {
        closed := true;
      }
      mainExecEnv := false;
      mainInstance := false;
      state := Destroyed;
    }
  }

  /** An instance after the loop thread's visit and the callback that may follow it. */
  function Visited(t: Inst): Inst {
    if EndsAtVisit(t) then t.(phase := Ended, fired := if t.callback then t.fired + 1 else t.fired) else t
  }

  predicate Dead(insts: seq<Inst>, i: nat) {
    i < |insts| && insts[i].phase == Destroyed
  }

  /** The nodes that stay, and the nodes that go, in list order. */
  function Survivors(insts: seq<Inst>, list: seq<nat>): seq<nat> {
    if list == [] then []
    else
      var last := list[|list| - 1];
      Survivors(insts, list[..|list| - 1]) + if Dead(insts, last) then [] else [last]
  }

  function Reaped(insts: seq<Inst>, list: seq<nat>): seq<nat> {
    if list == [] then []
    else
      var last := list[|list| - 1];
      Reaped(insts, list[..|list| - 1]) + if Dead(insts, last) then [last] else []
  }

  lemma {:induction false} SurvivorsAreLive(insts: seq<Inst>, list: seq<nat>)
    ensures forall i :: i in Survivors(insts, list) <==> i in list && !Dead(insts, i)
  {
    if list != [] {
      var last := |list| - 1;
      SurvivorsAreLive(insts, list[..last]);
      assert list == list[..last] + [list[last]];
    }
  }

  lemma VisitKeepsList(s: State, i: nat)
    requires ListOk(s) && Is(s, i)
    ensures ListOk(With(s, i, Visited(s.insts[i])))
  {
  }

  // ---------------------------------------------------------------- the steps of a pass

  /** The loop thread's steps for the node its iterator is at. */
  function NodeLabels(t: Inst): seq<Label> {
    if EndsAtVisit(t) && t.callback then [LoopVisit, LoopFire, LoopAdvance] else [LoopVisit, LoopAdvance]
  }

  /** The loop thread with its iterator at position `k`, or at the end. */
  function Standing(s: State, k: nat): State {
    s.(loop := if k < |s.list| then AtNode(s.list[k]) else Resting)
  }

  /** What these steps come to. */
  function NodeDone(s: State, k: nat): State
    requires k < |s.list| && Is(s, s.list[k])
  {
    var i := s.list[k];
    var list := if Dead(s.insts, i) then s.list[..k] + s.list[k + 1..] else s.list;
    Standing(With(s, i, Visited(s.insts[i])).(
               list := list,
               removed := if Dead(s.insts, i) then s.removed + [i] else s.removed),
             if Dead(s.insts, i) then k else k + 1)
  }

  lemma RisingIndex(list: seq<nat>, k: nat)
    requires Rising(list) && k < |list|
    ensures list[k] in list && IndexOf(list, list[k]) == k
  {
  }

  /** The visit, and the callback if there is one. */
  lemma LeavingIsReached(s: State, k: nat)
    requires Rising(s.list) && k < |s.list| && Is(s, s.list[k]) && s.wasmLock.None?
    ensures var i := s.list[k]; var t := s.insts[i];
      var s1 := Apply(Standing(s, k), LoopVisit);
      var s2 := With(s, i, Visited(t)).(loop := Leaving(i, Dead(s.insts, i)));
      && Enabled(Standing(s, k), LoopVisit)
      && (EndsAtVisit(t) && t.callback ==> Enabled(s1, LoopFire) && Apply(s1, LoopFire) == s2)
      && (!(EndsAtVisit(t) && t.callback) ==> s1 == s2)
      && Enabled(s2, LoopAdvance)
  {
  }

  lemma AdvanceIsDone(s: State, k: nat)
    requires Rising(s.list) && k < |s.list| && Is(s, s.list[k]) && s.wasmLock.None?
    ensures var i := s.list[k];
      Stepping(With(s, i, Visited(s.insts[i])).(loop := Leaving(i, Dead(s.insts, i))), i, Dead(s.insts, i)) == NodeDone(s, k)
  {
    RisingIndex(s.list, k);
  }

  lemma NodeSteps(s: State, k: nat)
    requires Rising(s.list) && k < |s.list| && Is(s, s.list[k]) && s.wasmLock.None?
    ensures IsRun(Standing(s, k), NodeLabels(s.insts[s.list[k]]))
    ensures After(Standing(s, k), NodeLabels(s.insts[s.list[k]])) == NodeDone(s, k)
  {
    LeavingIsReached(s, k);
    AdvanceIsDone(s, k);
    var run := NodeLabels(s.insts[s.list[k]]);
    var s1 := Apply(Standing(s, k), LoopVisit);
    if run[1] == LoopFire {
      assert run[1..] == [LoopFire, LoopAdvance] && run[1..][1..] == [LoopAdvance];
      var s2 := Apply(s1, LoopFire);
      assert IsRun(s2, [LoopAdvance]) && After(s2, [LoopAdvance]) == Apply(s2, LoopAdvance);
      assert IsRun(s1, run[1..]) && After(s1, run[1..]) == After(s2, [LoopAdvance]);
    } else {
      assert run[1..] == [LoopAdvance];
      assert IsRun(s1, [LoopAdvance]) && After(s1, [LoopAdvance]) == Apply(s1, LoopAdvance);
    }
  }

  lemma {:induction false} Concat(s: State, a: seq<Label>, b: seq<Label>)
    requires IsRun(s, a) && IsRun(After(s, a), b)
    ensures IsRun(s, a + b) && After(s, a + b) == After(After(s, a), b)
    decreases |a|
  {
    if a == [] {
      assert a + b == b;
    } else {
      assert (a + b)[1..] == a[1..] + b;
      Concat(Apply(s, a[0]), a[1..], b);
    }
  }

  /** `gAllInstanceList` as one undisturbed loop pass sees it: API threads stay where they are
      and none of them is inside gWasmLock. */
  class InstanceTable {
    var insts: seq<Inst>
    var list: seq<nat>
    ghost var removed: seq<nat>
    ghost var actors: map<nat, Api>
    ghost var args: map<nat, nat>
    ghost var given: map<nat, nat>

    ghost function Abstract(): State reads this {
      State(insts, list, removed, actors, Resting, None, args, given)
    }

    /** One visit and the step of the iterator after it. */
    method VisitNode(k: nat) returns (next: nat)
      requires ListOk(Abstract()) && k < |list|
      modifies this
      ensures ListOk(Abstract()) && Is(old(Abstract()), old(list)[k])
      ensures Standing(Abstract(), next) == NodeDone(old(Abstract()), k)
      ensures next == (if Dead(old(insts), old(list)[k]) then k else k + 1) && next <= |list|
      ensures var run := NodeLabels(old(insts)[old(list)[k]]);
        && IsRun(Standing(old(Abstract()), k), run)
        && After(Standing(old(Abstract()), k), run) == Standing(Abstract(), next)
      ensures var i, t := old(list)[k], old(insts)[old(list)[k]];
        && |insts| == |old(insts)|
        && (forall j: nat :: j < |insts| && j != i ==> insts[j] == old(insts)[j])
        && (t.phase != Started || !t.exception ==> insts[i] == t)
        && (t.phase == Started && t.exception ==>
              insts[i] == t.(phase := Ended, fired := t.fired + if t.callback then 1 else 0))
        && (t.phase == Destroyed ==>
              list == old(list)[..k] + old(list)[k + 1..] && removed == old(removed) + [i] && next == k)
        && (t.phase != Destroyed ==> list == old(list) && removed == old(removed) && next == k + 1)
    {
      var i := list[k];
      assert i in list;
      NodeSteps(Abstract(), k);
      VisitKeepsList(Abstract(), i);
      var t := insts[i];
      if t.phase == Started && t.exception {
        insts := insts[i := t.(phase := Ended, fired := if t.callback then t.fired + 1 else t.fired)];
      }
      next := k + 1;
      if t.phase == Destroyed {
        RemovalKeepsList(Abstract(), k);
        removed := removed + [i];
        list := list[..k] + list[k + 1..];
        next := k;
      }
    }

    /** `LoopCheckInstanceRoutine`: visit every node, end started instances that carry an
        exception and call back, erase destroyed ones. `run` is the pass as steps. */
    method LoopCheckInstanceRoutine() returns (ghost run: seq<Label>)
      requires ListOk(Abstract())
      modifies this
      ensures ListOk(Abstract())
      ensures IsRun(old(Abstract()), run) && After(old(Abstract()), run) == Abstract()
      ensures list == Survivors(old(insts), old(list))
      ensures removed == old(removed) + Reaped(old(insts), old(list))
      ensures |insts| == |old(insts)|
      ensures forall i: nat :: i < |insts| ==>
        insts[i] == if i in old(list) then Visited(old(insts)[i]) else old(insts)[i]
      ensures forall i: nat :: i < |insts| ==>
        var t := old(insts)[i];
        insts[i] ==
          if i in old(list) && t.phase == Started && t.exception
          then t.(phase := Ended, fired := t.fired + if t.callback then 1 else 0) else t
      ensures Rising(list) && forall i :: i in list <==> i in old(list) && old(insts)[i].phase != Destroyed
    {
      ghost var before := Abstract();
      ghost var done: nat := 0;
      var k: nat := 0;
      run := [LoopBegin];
      PassBegins(before);
      while k < |list|
        invariant PassAt(before, done, run, Abstract(), k)
        decreases |list| - k
      {
        ghost var mid, at := Abstract(), k;
        k := VisitNode(k);
        PassGoesOn(before, done, run, mid, at, Abstract());
        run := run + NodeLabels(mid.insts[mid.list[at]]);
        done := done + 1;
      }
      PassEnds(before, done, run, Abstract(), k);
    }
  }

  /** The pass has taken the steps `run` and dealt with `done` nodes; the iterator is at `k`. */
  ghost predicate PassAt(before: State, done: nat, run: seq<Label>, s: State, k: nat) {
    && ListOk(s) && s.wasmLock.None? && Swept(before, done, s, k)
    && IsRun(before, run) && After(before, run) == Standing(s, k)
    && s == before.(insts := s.insts, list := s.list, removed := s.removed)
  }

  lemma PassBegins(s: State)
    requires ListOk(s) && s.wasmLock.None? && s.loop == Resting
    ensures PassAt(s, 0, [LoopBegin], s, 0)
  {
    var s' := Apply(s, LoopBegin);
    assert IsRun(s', []) && After(s', []) == s' && s' == Standing(s, 0);
  }

  lemma PassGoesOn(before: State, done: nat, run: seq<Label>, s: State, k: nat, s': State)
    requires ListOk(before) && PassAt(before, done, run, s, k) && k < |s.list| && Is(s, s.list[k])
    requires ListOk(s') && s' == NodeDone(s, k).(loop := s.loop)
    ensures PassAt(before, done + 1, run + NodeLabels(s.insts[s.list[k]]), s', if Dead(s.insts, s.list[k]) then k else k + 1)
  {
    NodeSteps(s, k);
    Concat(before, run, NodeLabels(s.insts[s.list[k]]));
    SweepOn(before, done, s, k, s');
  }

  lemma PassEnds(before: State, done: nat, run: seq<Label>, s: State, k: nat)
    requires PassAt(before, done, run, s, k) && k >= |s.list| && before.loop == Resting
    ensures IsRun(before, run) && After(before, run) == s
    ensures s.list == Survivors(before.insts, before.list)
    ensures s.removed == before.removed + Reaped(before.insts, before.list)
    ensures |s.insts| == |before.insts|
    ensures forall i: nat :: i < |s.insts| ==>
      s.insts[i] == if i in before.list then Visited(before.insts[i]) else before.insts[i]
    ensures forall i :: i in s.list <==> i in before.list && !Dead(before.insts, i)
  {
    SurvivorsAreLive(before.insts, before.list);
    assert s.list[..k] == s.list && s.list[k..] == [];
    assert before.list[..done] == before.list;
  }

  /** The first `done` nodes of `before` are dealt with; the next to visit sits at `k`. */
  ghost predicate Swept(before: State, done: nat, s: State, k: nat) {
    && done <= |before.list| && k <= |s.list|
    && s.list[..k] == Survivors(before.insts, before.list[..done])
    && s.list[k..] == before.list[done..]
    && s.removed == before.removed + Reaped(before.insts, before.list[..done])
    && VisitedUpTo(before, done, s.insts)
  }

  ghost predicate VisitedUpTo(before: State, done: nat, insts: seq<Inst>)
    requires done <= |before.list|
  {
    && |insts| == |before.insts|
    && forall i: nat :: i < |insts| ==>
         insts[i] == if i in before.list[..done] then Visited(before.insts[i]) else before.insts[i]
  }

  lemma VisitedOneMore(before: State, done: nat, insts: seq<Inst>)
    requires Rising(before.list) && done < |before.list| && VisitedUpTo(before, done, insts)
    requires before.list[done] < |insts|
    ensures var i := before.list[done];
      insts[i] == before.insts[i] && VisitedUpTo(before, done + 1, insts[i := Visited(insts[i])])
  {
    var i := before.list[done];
    DistinctPrefix(before.list, done);
    assert before.list[..done + 1] == before.list[..done] + [i];
  }

  lemma SweepOn(before: State, done: nat, s: State, k: nat, s': State)
    requires ListOk(before) && Swept(before, done, s, k) && k < |s.list|
    requires s.list[k] < |s.insts|
    requires var i := s.list[k];
      && s'.insts == s.insts[i := Visited(s.insts[i])]
      && s'.list == (if Dead(s.insts, i) then s.list[..k] + s.list[k + 1..] else s.list)
      && s'.removed == s.removed + (if Dead(s.insts, i) then [i] else [])
    ensures Swept(before, done + 1, s', if Dead(s.insts, s.list[k]) then k else k + 1)
  {
    var i := s.list[k];
    assert i == before.list[done] by { assert s.list[k..][0] == before.list[done..][0]; }
    VisitedOneMore(before, done, s.insts);
    PrefixGrows(before.insts, before.list, done);
    SplitAt(s.list, k);
    assert before.list[done + 1..] == before.list[done..][1..];
    assert Dead(s.insts, i) == Dead(before.insts, i);
  }

  lemma PrefixGrows(insts: seq<Inst>, list: seq<nat>, k: nat)
    requires k < |list|
    ensures list[..k + 1] == list[..k] + [list[k]]
    ensures Survivors(insts, list[..k + 1]) == Survivors(insts, list[..k]) + if Dead(insts, list[k]) then [] else [list[k]]
    ensures Reaped(insts, list[..k + 1]) == Reaped(insts, list[..k]) + if Dead(insts, list[k]) then [list[k]] else []
  {
    assert list[..k + 1][..k] == list[..k];
  }

  /** Erasing or passing the node at `k` takes it off what is still to visit. */
  lemma SplitAt(list: seq<nat>, k: nat)
    requires k < |list|
    ensures var erased := list[..k] + list[k + 1..];
      erased[..k] == list[..k] && erased[k..] == list[k..][1..]
    ensures list[..k + 1] == list[..k] + [list[k]] && list[k + 1..] == list[k..][1..]
  {
  }

  lemma DistinctPrefix(list: seq<nat>, k: nat)
    requires Rising(list) && k < |list|
    ensures list[k] !in list[..k]
  {
  }
}
