/** The invariant of the instance protocol: what an API thread may rely on at each point of
    start, exec and destroy, and what the loop thread may rely on while it walks the list. */
module InstanceInvariant {
  import opened Prelude
  import opened InstanceProtocol

  function OwnerAt(s: State, t: Inst): Api {
    if t.owner.Some? then At(s, t.owner.value) else Outside
  }

  /** Destroy has got beyond cleaning up threads, and beyond closing files. */
  predicate PastCleanup(t: Inst, pc: Api) {
    t.phase == Destroyed || (InDestroy(pc) && !pc.CleaningUp?)
  }

  predicate PastClosing(t: Inst, pc: Api) {
    t.phase == Destroyed || pc.DestroyingEnv? || pc.Deinstantiating? || pc.MarkingDestroyed?
  }

  /** What holds of an instance while its lock holder is at `pc`. */
  predicate InstOk(t: Inst, pc: Api) {
    && (t.env ==> t.mod)
    && (t.registered ==> !t.reallocFailed)
    && (t.phase == Destroying <==> InDestroy(pc))
    && (t.phase == Destroyed ==> !t.env && !t.mod)
    && (t.phase == Started ==> t.env && t.registered)
    && (t.phase == Ended ==> t.env && (t.registered <==> !t.reallocFailed))
    && t.work.dtorRuns <= 1 && (t.work.dtorRuns == 1 ==> t.work.cleaned)
    && (t.work.dtorRuns == 1 ==> t.phase == Destroyed || (InDestroy(pc) && !pc.CleaningUp? && !pc.RunningDtors?))
    && (t.work.cleaned ==> PastCleanup(t, pc)) && (t.registered && PastCleanup(t, pc) ==> t.work.cleaned)
    && (t.work.closed ==> PastClosing(t, pc)) && (t.registered && PastClosing(t, pc) ==> t.work.closed)
    && t.fired <= 1 && (t.fired == 1 ==> PhaseRank(t.phase) >= PhaseRank(Ended))
    && match pc
       case Locking(_) => t.phase == New && !t.env && !t.registered && !t.reallocFailed
       case Instantiating(_) => t.phase == New && !t.env && !t.registered && !t.reallocFailed
       case CreatingEnv(_) => t.phase == New && t.mod && !t.env && !t.registered && !t.reallocFailed
       case Enlarging(_) => t.phase == New && t.env && !t.registered && !t.reallocFailed
       case Registering(_) => t.phase == New && t.env && !t.registered && !t.reallocFailed
       case Initializing(_) => t.phase == New && t.env && t.registered
       case Finishing(_) => t.phase == New && t.env && t.registered
       case InMain(_) => (t.phase == Started || t.phase == Ended) && t.env && t.registered
       case CleaningUp(_, d) => (d ==> t.env && t.registered) && (t.registered ==> t.env) && (t.env ==> (t.registered <==> !t.reallocFailed))
       case RunningDtors(_, d) => (d ==> t.env && t.registered) && (t.registered ==> t.env && t.mod)
       case ClosingFds(_) => t.registered ==> t.env && t.mod
       case Deinstantiating(_) => !t.env
       case MarkingDestroyed(_) => !t.env && !t.mod
       case _ =>
         && (t.registered && t.phase != Destroyed && (pc == Outside || pc.StartEntry? || pc.ExecEntry? || pc.DestroyEntry?) ==> t.env)
         && (t.phase == New ==> !t.env && !t.registered && !t.reallocFailed)
  }

  /** execFuncLock is held by exactly the API thread that is inside a call on the instance. */
  ghost predicate LocksOk(s: State) {
    && (forall a :: a in s.actors && s.actors[a] != Outside ==>
          Is(s, s.actors[a].inst) && s.insts[s.actors[a].inst].owner == Some(a))
    && (forall i :: 0 <= i < |s.insts| && s.insts[i].owner.Some? ==>
          At(s, s.insts[i].owner.value) != Outside && At(s, s.insts[i].owner.value).inst == i)
  }

  predicate InstAt(s: State, i: nat)
    requires Is(s, i)
  {
    InstOk(s.insts[i], OwnerAt(s, s.insts[i]))
  }

  ghost predicate InstsOk(s: State) {
    forall i :: 0 <= i < |s.insts| ==> InstAt(s, i)
  }

  ghost predicate Rising(list: seq<nat>) {
    forall j, k :: 0 <= j < k < |list| ==> list[j] < list[k]
  }

  /** Every instance is on the list or was removed, once, after it was destroyed. */
  ghost predicate ListOk(s: State) {
    && Rising(s.list)
    && Distinct(s.removed)
    && (forall i :: i in s.list ==> Is(s, i) && i !in s.removed)
    && (forall i :: i in s.removed ==> Is(s, i) && s.insts[i].phase == Destroyed)
    && (forall i :: 0 <= i < |s.insts| ==> i in s.list || i in s.removed)
  }

  /** The saved iterator refers to a live node, and what the visit saw still holds. */
  predicate LoopOk(s: State) {
    && (s.loop != Resting ==> s.loop.node in s.list && Is(s, s.loop.node))
    && (s.loop.Firing? && Is(s, s.loop.node) ==>
          s.insts[s.loop.node].fired == 0 && PhaseRank(s.insts[s.loop.node].phase) >= PhaseRank(Ended))
    && (s.loop.Leaving? && s.loop.destroyed && Is(s, s.loop.node) ==> s.insts[s.loop.node].phase == Destroyed)
  }

  ghost predicate Inv(s: State) {
    LocksOk(s) && InstsOk(s) && ListOk(s) && LoopOk(s)
  }

  lemma EmptyInv()
    ensures Inv(Empty)
  {
  }

  lemma CreateKeepsInv(s: State, mainModule: nat, callback: bool, s': State)
    requires Inv(s) && Enabled(s, Create(mainModule, callback)) && s' == Apply(s, Create(mainModule, callback))
    ensures Inv(s')
  {
    assert forall i :: 0 <= i < |s.insts| ==> s'.insts[i] == s.insts[i] && OwnerAt(s', s'.insts[i]) == OwnerAt(s, s.insts[i]);
    forall i | 0 <= i < |s'.insts| ensures InstAt(s', i) {
      if i < |s.insts| { assert InstAt(s, i); }
    }
    assert forall j :: 0 <= j < |s.list| ==> s.list[j] in s.list;
    assert |s.insts| in s'.list;
  }

  /** Only instance `i` changed, and not its lock holder's place. */
  lemma OneInstKeepsInv(s: State, i: nat, t: Inst)
    requires Inv(s) && Is(s, i) && t.owner == s.insts[i].owner && t.fired == s.insts[i].fired
    requires t.phase == s.insts[i].phase
    requires InstOk(t, OwnerAt(s, s.insts[i]))
    ensures Inv(With(s, i, t))
  {
    var s' := With(s, i, t);
    forall j | 0 <= j < |s.insts| ensures InstAt(s', j) { assert InstAt(s, j); }
  }

  lemma CallKeepsInv(s: State, a: nat, i: nat, e: Entry, s': State)
    requires Inv(s) && Is(s, i) && At(s, a) == Outside && s.insts[i].owner.None?
    requires s' == Move(With(s, i, s.insts[i].(owner := Some(a))), a, EntryPoint(e, i))
    ensures Inv(s')
  {
    forall j | 0 <= j < |s.insts| && j != i ensures InstAt(s', j) {
      assert InstAt(s, j);
      assert s.insts[j].owner != Some(a);
    }
    assert InstAt(s, i);
    EntryIsOk(s.insts[i], e, Some(a));
  }

  lemma EntryIsOk(t: Inst, e: Entry, owner: Option<nat>)
    requires InstOk(t, Outside)
    ensures forall i :: InstOk(t.(owner := owner), EntryPoint(e, i))
  {
  }

  /** An API thread moved on within its call, changing at most its own instance. */
  lemma MoveKeepsInv(s: State, a: nat, i: nat, t: Inst, pc: Api)
    requires Inv(s) && Is(s, i) && s.insts[i].owner == Some(a) && At(s, a) != Outside
    requires pc != Outside && pc.inst == i
    requires t.owner == Some(a) && t.fired == s.insts[i].fired
    requires PhaseRank(t.phase) >= PhaseRank(s.insts[i].phase)
    requires InstOk(t, pc)
    ensures Inv(Move(With(s, i, t), a, pc))
  {
    var s' := Move(With(s, i, t), a, pc);
    forall j | 0 <= j < |s.insts| ensures InstAt(s', j) { assert InstAt(s, j); }
  }

  /** An API thread returned, leaving its instance as `t`. */
  lemma LeaveKeepsInv(s: State, a: nat, i: nat, t: Inst)
    requires Inv(s) && Is(s, i) && s.insts[i].owner == Some(a) && At(s, a) != Outside
    requires t.owner == Some(a) && t.fired == s.insts[i].fired
    requires PhaseRank(t.phase) >= PhaseRank(s.insts[i].phase)
    requires InstOk(t, Outside)
    ensures Inv(Leave(With(s, i, t), a, i))
  {
    var s' := Leave(With(s, i, t), a, i);
    forall j | 0 <= j < |s.insts| ensures InstAt(s', j) { assert InstAt(s, j); }
  }

  lemma LocalStepIsOk(t: Inst, pc: Api, ok: bool)
    requires InstOk(t, pc) && pc != Outside
    ensures var (t', pc') := LocalStep(t, pc, ok);
      && InstOk(t', pc') && PhaseRank(t'.phase) >= PhaseRank(t.phase)
      && t'.owner == t.owner && t'.fired == t.fired && (pc' != Outside ==> pc'.inst == pc.inst)
  {
    if InStart(pc) {
      StartStepIsOk(t, pc, ok);
    } else if pc.DestroyEntry? || InDestroy(pc) {
      DestroyStepIsOk(t, pc);
    }
  }

  lemma StartStepIsOk(t: Inst, pc: Api, ok: bool)
    requires InstOk(t, pc) && InStart(pc)
    ensures var (t', pc') := StartStep(t, pc, ok);
      && InstOk(t', pc') && PhaseRank(t'.phase) >= PhaseRank(t.phase)
      && t'.owner == t.owner && t'.fired == t.fired && (pc' != Outside ==> pc'.inst == pc.inst)
  {
  }

  lemma DestroyStepIsOk(t: Inst, pc: Api)
    requires InstOk(t, pc) && (pc.DestroyEntry? || InDestroy(pc))
    ensures var (t', pc') := DestroyStep(t, pc);
      && InstOk(t', pc') && PhaseRank(t'.phase) >= PhaseRank(t.phase)
      && t'.owner == t.owner && t'.fired == t.fired && (pc' != Outside ==> pc'.inst == pc.inst)
  {
  }

  /** The invariant does not look at the module and its lock. */
  lemma WasmStepKeepsInv(s: State, s': State)
    requires Inv(s) && s' == s.(wasmLock := s'.wasmLock, args := s'.args, given := s'.given)
    ensures Inv(s')
  {
    forall j | 0 <= j < |s.insts| ensures InstAt(s', j) { assert InstAt(s, j); }
  }

  lemma AdvanceKeepsInv(s: State, a: nat, ok: bool, s': State)
    requires Inv(s) && Enabled(s, Advance(a, ok)) && s' == Apply(s, Advance(a, ok))
    ensures Inv(s')
  {
    var pc := At(s, a);
    var i := pc.inst;
    assert InstAt(s, i);
    var (t, pc') := LocalStep(s.insts[i], pc, ok);
    LocalStepIsOk(s.insts[i], pc, ok);
    var s1 := WasmStep(s, a, pc, pc');
    WasmStepKeepsInv(s, s1);
    if pc' == Outside {
      LeaveKeepsInv(s1, a, i, t);
    } else {
      MoveKeepsInv(s1, a, i, t, pc');
    }
  }

  /** The loop thread turns a started instance into an ended one. */
  lemma EndKeepsInv(s: State, i: nat, loop: Loop)
    requires Inv(s) && Is(s, i) && s.insts[i].phase == Started && i in s.list
    requires loop == Firing(i) || loop == Leaving(i, false)
    ensures Inv(With(s, i, s.insts[i].(phase := Ended)).(loop := loop))
  {
    var s' := With(s, i, s.insts[i].(phase := Ended)).(loop := loop);
    assert InstAt(s, i);
    forall j | 0 <= j < |s.insts| ensures InstAt(s', j) { assert InstAt(s, j); }
  }

  lemma LoopMoveKeepsInv(s: State, loop: Loop)
    requires Inv(s) && LoopOk(s.(loop := loop))
    ensures Inv(s.(loop := loop))
  {
    forall j | 0 <= j < |s.insts| ensures InstAt(s.(loop := loop), j) { assert InstAt(s, j); }
  }

  lemma VisitKeepsInv(s: State, s': State)
    requires Inv(s) && Enabled(s, LoopVisit) && s' == Apply(s, LoopVisit)
    ensures Inv(s')
  {
    var i := s.loop.node;
    var t := s.insts[i];
    if EndsAtVisit(t) {
      EndKeepsInv(s, i, s'.loop);
    } else {
      LoopMoveKeepsInv(s, Leaving(i, t.phase == Destroyed));
    }
  }

  lemma FireKeepsInv(s: State, s': State)
    requires Inv(s) && Enabled(s, LoopFire) && s' == Apply(s, LoopFire)
    ensures Inv(s')
  {
    forall j | 0 <= j < |s.insts| ensures InstAt(s', j) { assert InstAt(s, j); }
  }

  /** What erasing a node does to the list. */
  lemma EraseNode(list: seq<nat>, k: nat)
    requires Rising(list) && k < |list|
    ensures Rising(list[..k] + list[k + 1..])
    ensures forall i :: i in list[..k] + list[k + 1..] <==> i in list && i != list[k]
  {
    var rest := list[..k] + list[k + 1..];
    forall i | i in list && i != list[k] ensures i in rest {
      var j :| 0 <= j < |list| && list[j] == i;
      assert rest[if j < k then j else j - 1] == i;
    }
  }

  lemma RemovalKeepsList(s: State, k: nat)
    requires ListOk(s) && k < |s.list| && Is(s, s.list[k]) && s.insts[s.list[k]].phase == Destroyed
    ensures ListOk(s.(list := s.list[..k] + s.list[k + 1..], removed := s.removed + [s.list[k]]))
  {
    EraseNode(s.list, k);
    assert s.list[k] in s.list;
    assert Distinct(s.removed + [s.list[k]]);
  }

  lemma StepKeepsList(s: State, i: nat, destroyed: bool)
    requires ListOk(s) && i in s.list && (destroyed ==> Is(s, i) && s.insts[i].phase == Destroyed)
    ensures ListOk(Stepping(s, i, destroyed))
  {
    if destroyed {
      RemovalKeepsList(s, IndexOf(s.list, i));
    }
  }

  lemma StepKeepsInv(s: State, s': State)
    requires Inv(s) && Enabled(s, LoopAdvance) && s' == Apply(s, LoopAdvance)
    ensures Inv(s')
  {
    StepKeepsList(s, s.loop.node, s.loop.destroyed);
    forall j | 0 <= j < |s.insts| ensures InstAt(s', j) { assert InstAt(s, j); }
  }

  lemma StepsKeepInv(s: State, l: Label)
    requires Inv(s) && Enabled(s, l)
    ensures Inv(Apply(s, l))
  {
    var s' := Apply(s, l);
    match l
    case Create(mainModule, callback) => CreateKeepsInv(s, mainModule, callback, s');
    case SetCallback(i, on) =>
      assert InstAt(s, i);
      OneInstKeepsInv(s, i, s.insts[i].(callback := on));
    case Raise(i) =>
      assert InstAt(s, i);
      OneInstKeepsInv(s, i, s.insts[i].(exception := true));
    case Call(a, i, e) => CallKeepsInv(s, a, i, e, s');
    case Advance(a, ok) => AdvanceKeepsInv(s, a, ok, s');
    case LoopBegin => LoopMoveKeepsInv(s, s'.loop);
    case LoopVisit => VisitKeepsInv(s, s');
    case LoopFire => FireKeepsInv(s, s');
    case LoopAdvance => StepKeepsInv(s, s');
  }

  lemma {:induction false} RunKeepsInv(s: State, run: seq<Label>)
    requires Inv(s) && IsRun(s, run)
    ensures Inv(After(s, run))
    decreases |run|
  {
    if run != [] {
      StepsKeepInv(s, run[0]);
      RunKeepsInv(Apply(s, run[0]), run[1..]);
    }
  }
}
