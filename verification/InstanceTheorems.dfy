/** What the instance protocol guarantees over whole runs. */
module InstanceTheorems {
  import opened Prelude
  import opened InstanceProtocol
  import opened InstanceInvariant

  lemma {:induction false} ReachableInv(run: seq<Label>)
    requires IsRun(Empty, run)
    ensures Inv(After(Empty, run))
  {
    EmptyInv();
    RunKeepsInv(Empty, run);
  }

  // ---------------------------------------------------------------- live objects only

  /** The step at `pc` dereferences wasmMainInstance. */
  predicate UsesModule(t: Inst, pc: Api) {
    pc.CreatingEnv? || pc.Enlarging? || pc.Registering? || pc.Initializing? || pc.InMain?
    || (pc.CleaningUp? && t.env) || (pc.RunningDtors? && pc.dtors)
  }

  /** The step at `pc` dereferences pMainExecEnv. */
  predicate UsesEnv(pc: Api) {
    pc.Registering? || pc.Initializing? || pc.InMain? || (pc.RunningDtors? && pc.dtors)
  }

  /** The step at `pc` goes through the module instance's custom data to the thread manager. */
  predicate UsesManager(t: Inst, pc: Api) {
    pc.Initializing? || pc.InMain? || (pc.CleaningUp? && t.env && !t.reallocFailed)
  }

  /** In every reachable state no API thread is about to use a module instance or exec env that
      is not there, two API threads are never inside calls on the same instance, the loop
      thread's iterator always refers to a node still on the list, and it asks only live module
      instances for exceptions. */
  lemma {:induction false} OnlyLiveObjectsAreUsed(run: seq<Label>, a: nat, b: nat)
    requires IsRun(Empty, run)
    ensures var s := After(Empty, run);
      && (At(s, a) != Outside ==>
            && Is(s, At(s, a).inst)
            && var t := s.insts[At(s, a).inst];
               && (UsesModule(t, At(s, a)) ==> t.mod)
               && (UsesManager(t, At(s, a)) ==> t.mod && t.env && t.registered)
               && (UsesEnv(At(s, a)) ==> t.env)
               && (a != b && At(s, b) != Outside ==> At(s, b).inst != At(s, a).inst))
      && (s.loop != Resting ==> Is(s, s.loop.node) && s.loop.node in s.list)
      && (s.loop.AtNode? && s.insts[s.loop.node].phase == Started ==>
            s.insts[s.loop.node].mod && s.insts[s.loop.node].env)
  {
    ReachableInv(run);
    var s := After(Empty, run);
    if At(s, a) != Outside {
      assert InstAt(s, At(s, a).inst);
    }
    if s.loop.AtNode? {
      assert InstAt(s, s.loop.node);
    }
  }

  /** While destroy is about to clean up app threads of an instance with an exec env, the thread
      manager can be found exactly when start did not run out of memory while enlarging. */
  lemma {:induction false} CleanupFindsManagerIff(run: seq<Label>, a: nat, ok: bool)
    requires IsRun(Empty, run) && At(After(Empty, run), a).CleaningUp?
    requires Is(After(Empty, run), At(After(Empty, run), a).inst)
    requires After(Empty, run).insts[At(After(Empty, run), a).inst].env
    ensures var s := After(Empty, run);
      Enabled(s, Advance(a, ok)) <==> !s.insts[At(s, a).inst].reallocFailed
  {
    ReachableInv(run);
    var s := After(Empty, run);
    assert InstAt(s, At(s, a).inst);
  }

  lemma {:induction false} Extend(s: State, run: seq<Label>, l: Label)
    requires IsRun(s, run) && Enabled(After(s, run), l)
    ensures IsRun(s, run + [l]) && After(s, run + [l]) == Apply(After(s, run), l)
    decreases |run|
  {
    if run == [] {
      assert ([] + [l])[1..] == [];
    } else {
      assert (run + [l])[1..] == run[1..] + [l];
      Extend(Apply(s, run[0]), run[1..], l);
    }
  }

  /** Start has just been called on the first instance. */
  lemma StartIsCalled() returns (run: seq<Label>)
    ensures IsRun(Empty, run)
    ensures var s := After(Empty, run);
      && At(s, 0) == StartEntry(0) && |s.insts| == 1 && s.wasmLock.None?
      && s.insts[0] == Inst(0, New, false, false, false, false, false, Some(0), 0, Untouched, false)
  {
    run := [];
    Extend(Empty, run, Create(0, false));
    run := run + [Create(0, false)];
    Extend(Empty, run, Call(0, 0, Start));
    run := run + [Call(0, 0, Start)];
  }

  /** Start gets as far as the enlargement when all runtime calls succeed. */
  lemma EnlargingIsReached() returns (run: seq<Label>)
    ensures IsRun(Empty, run)
    ensures var s := After(Empty, run);
      && At(s, 0) == Enlarging(0) && |s.insts| == 1
      && s.insts[0] == Inst(0, New, true, true, false, false, false, Some(0), 0, Untouched, false)
  {
    run := StartIsCalled();
    for k := 0 to 4
      invariant IsRun(Empty, run)
      invariant var s := After(Empty, run);
        && |s.insts| == 1 && s.insts[0] == Inst(0, New, k >= 3, k >= 4, false, false, false, Some(0), 0, Untouched, false)
        && At(s, 0) == [StartEntry(0), Locking(0), Instantiating(0), CreatingEnv(0), Enlarging(0)][k]
        && (k < 2 ==> s.wasmLock.None?)
    {
      Extend(Empty, run, Advance(0, true));
      run := run + [Advance(0, true)];
    }
  }

  /** There the reallocation fails, and destroy is called. */
  lemma DestroyAfterFailedRealloc() returns (run: seq<Label>)
    ensures IsRun(Empty, run)
    ensures var s := After(Empty, run);
      && At(s, 0) == DestroyEntry(0) && |s.insts| == 1
      && s.insts[0] == Inst(0, Ended, true, true, false, false, false, Some(0), 0, Untouched, true)
  {
    run := EnlargingIsReached();
    Extend(Empty, run, Advance(0, false));
    run := run + [Advance(0, false)];
    Extend(Empty, run, Call(0, 0, Destroy));
    run := run + [Call(0, 0, Destroy)];
  }

  /** Destroy can get to the cleanup of an instance whose thread manager cannot be found. */
  lemma ManagerCanBeMissing() returns (run: seq<Label>, s: State)
    ensures IsRun(Empty, run) && s == After(Empty, run)
    ensures At(s, 0) == CleaningUp(0, false) && Is(s, 0) && s.insts[0].env
    ensures forall ok :: !Enabled(s, Advance(0, ok))
  {
    run := DestroyAfterFailedRealloc();
    Extend(Empty, run, Advance(0, true));
    run := run + [Advance(0, true)];
    s := After(Empty, run);
  }

  // ---------------------------------------------------------------- phases only rise

  /** The edges of the life of an instance. */
  predicate PhaseEdge(p: Phase, q: Phase) {
    match p
    case New => q == Started || q == Ended || q == Destroying
    case Started => q == Ended || q == Destroying
    case Ended => q == Destroying
    case Destroying => q == Destroyed
    case Destroyed => false
  }

  lemma StepsFollowEdges(s: State, l: Label, i: nat)
    requires Inv(s) && Enabled(s, l) && Is(s, i)
    ensures Is(Apply(s, l), i)
    ensures var p, q := s.insts[i].phase, Apply(s, l).insts[i].phase;
      p == q || PhaseEdge(p, q)
  {
    if l.Advance? {
      assert InstOk(s.insts[At(s, l.actor).inst], At(s, l.actor)) by { assert InstAt(s, At(s, l.actor).inst); }
      AdvanceFollowsEdges(s, l.actor, l.ok, i);
    } else {
      OtherStepsFollowEdges(s, l, i);
    }
  }

  lemma OneInstFollowsEdges(s: State, s': State, j: nat, q: Phase, i: nat)
    requires Is(s, i) && Is(s, j) && |s'.insts| == |s.insts| && s'.insts[j].phase == q
    requires s.insts[j].phase == q || PhaseEdge(s.insts[j].phase, q)
    requires i != j ==> s'.insts[i] == s.insts[i]
    ensures s.insts[i].phase == s'.insts[i].phase || PhaseEdge(s.insts[i].phase, s'.insts[i].phase)
  {
  }

  lemma AdvanceFollowsEdges(s: State, a: nat, ok: bool, i: nat)
    requires Ready(s, a) && Is(s, i) && InstOk(s.insts[At(s, a).inst], At(s, a))
    ensures Is(Advancing(s, a, ok), i)
    ensures var p, q := s.insts[i].phase, Advancing(s, a, ok).insts[i].phase;
      p == q || PhaseEdge(p, q)
  {
    var t, pc := s.insts[At(s, a).inst], At(s, a);
    LocalStepFollowsEdges(t, pc, ok);
    var (t', pc') := LocalStep(t, pc, ok);
    OneInstFollowsEdges(s, Advancing(s, a, ok), pc.inst, t'.phase, i);
  }

  lemma LocalStepFollowsEdges(t: Inst, pc: Api, ok: bool)
    requires InstOk(t, pc) && pc != Outside
    ensures var q := LocalStep(t, pc, ok).0.phase; t.phase == q || PhaseEdge(t.phase, q)
  {
  }

  lemma OtherStepsFollowEdges(s: State, l: Label, i: nat)
    requires Enabled(s, l) && Is(s, i) && !l.Advance?
    ensures Is(Apply(s, l), i)
    ensures var p, q := s.insts[i].phase, Apply(s, l).insts[i].phase;
      p == q || PhaseEdge(p, q)
  {
  }

  lemma StepsRaisePhases(s: State, l: Label, i: nat)
    requires Inv(s) && Enabled(s, l) && Is(s, i)
    ensures Is(Apply(s, l), i)
    ensures PhaseRank(s.insts[i].phase) <= PhaseRank(Apply(s, l).insts[i].phase)
  {
    StepsFollowEdges(s, l, i);
  }

  lemma {:induction false} PhasesOnlyRise(s: State, run: seq<Label>, i: nat)
    requires Inv(s) && IsRun(s, run) && Is(s, i)
    ensures Is(After(s, run), i)
    ensures PhaseRank(s.insts[i].phase) <= PhaseRank(After(s, run).insts[i].phase)
    decreases |run|
  {
    if run != [] {
      StepsKeepInv(s, run[0]);
      StepsRaisePhases(s, run[0], i);
      PhasesOnlyRise(Apply(s, run[0]), run[1..], i);
    }
  }

  // ---------------------------------------------------------------- destructors

  /** Ended or later with no destructors run, and none to run by the lock holder at `pc`. */
  predicate NoDtorsFrom(t: Inst, pc: Api) {
    && PhaseRank(t.phase) >= PhaseRank(Ended) && t.work.dtorRuns == 0
    && !((pc.CleaningUp? || pc.RunningDtors?) && pc.dtors)
  }

  predicate PastStarted(s: State, i: nat)
    requires Is(s, i)
  {
    NoDtorsFrom(s.insts[i], OwnerAt(s, s.insts[i]))
  }

  lemma LocalStepRunsNoDtors(t: Inst, pc: Api, ok: bool)
    requires InstOk(t, pc) && pc != Outside && NoDtorsFrom(t, pc)
    ensures var (t', pc') := LocalStep(t, pc, ok); NoDtorsFrom(t', pc') && t'.owner == t.owner
  {
  }

  lemma OwnAdvancePastStarted(s: State, a: nat, ok: bool)
    requires Ready(s, a) && InstOk(s.insts[At(s, a).inst], At(s, a)) && s.insts[At(s, a).inst].owner == Some(a)
    requires PastStarted(s, At(s, a).inst)
    ensures Is(Advancing(s, a, ok), At(s, a).inst) && PastStarted(Advancing(s, a, ok), At(s, a).inst)
  {
    LocalStepRunsNoDtors(s.insts[At(s, a).inst], At(s, a), ok);
  }

  lemma OtherAdvancePastStarted(s: State, a: nat, ok: bool, i: nat)
    requires Ready(s, a) && Is(s, i) && PastStarted(s, i) && At(s, a).inst != i && s.insts[i].owner != Some(a)
    ensures Is(Advancing(s, a, ok), i) && PastStarted(Advancing(s, a, ok), i)
  {
  }

  lemma AdvancePastStarted(s: State, a: nat, ok: bool, i: nat)
    requires Inv(s) && Ready(s, a) && Is(s, i) && PastStarted(s, i)
    ensures Is(Advancing(s, a, ok), i) && PastStarted(Advancing(s, a, ok), i)
  {
    if At(s, a).inst == i {
      assert InstAt(s, i);
      OwnAdvancePastStarted(s, a, ok);
    } else {
      OtherAdvancePastStarted(s, a, ok, i);
    }
  }

  lemma CallPastStarted(s: State, l: Label, i: nat)
    requires Enabled(s, l) && l.Call? && Is(s, i) && PastStarted(s, i)
    requires l.inst != i ==> s.insts[i].owner != Some(l.actor)
    ensures Is(Apply(s, l), i) && PastStarted(Apply(s, l), i)
  {
  }

  lemma PastStartedStays(s: State, l: Label, i: nat)
    requires Inv(s) && Enabled(s, l) && Is(s, i) && PastStarted(s, i)
    ensures Is(Apply(s, l), i) && PastStarted(Apply(s, l), i)
  {
    if l.Advance? {
      AdvancePastStarted(s, l.actor, l.ok, i);
    } else if l.Call? {
      CallPastStarted(s, l, i);
    }
  }

  /** An instance that has ended, by an exception or a failed start, never runs destructors. */
  lemma {:induction false} EndedRunsNoDtors(s: State, run: seq<Label>, i: nat)
    requires Inv(s) && IsRun(s, run) && Is(s, i) && PastStarted(s, i)
    ensures Is(After(s, run), i) && After(s, run).insts[i].work.dtorRuns == 0
    decreases |run|
  {
    if run != [] {
      StepsKeepInv(s, run[0]);
      PastStartedStays(s, run[0], i);
      EndedRunsNoDtors(Apply(s, run[0]), run[1..], i);
    }
  }

  /** Destructors run once at most, after the app's threads were cleaned up; and an instance that
      start brought up is destroyed only after its threads were cleaned up, its files closed, and
      its destructors run if it was started when destroy began. */
  lemma {:induction false} DestroyLeavesNothingOut(run: seq<Label>, i: nat)
    requires IsRun(Empty, run) && Is(After(Empty, run), i)
    ensures var t := After(Empty, run).insts[i];
      && t.work.dtorRuns <= 1 && (t.work.dtorRuns == 1 ==> t.work.cleaned)
      && (t.phase == Destroyed && t.registered ==> t.work.cleaned && t.work.closed)
      && (t.phase == Destroyed ==> !t.env && !t.mod)
      && (t.work.cleaned || t.work.closed ==> PhaseRank(t.phase) >= PhaseRank(Destroying))
  {
    ReachableInv(run);
    assert InstAt(After(Empty, run), i);
  }

  // ---------------------------------------------------------------- the exception callback

  /** Over a whole run the callback of an instance is called at most once, and never before the
      instance has ended. */
  lemma {:induction false} CallbackAtMostOnce(run: seq<Label>, i: nat)
    requires IsRun(Empty, run) && Is(After(Empty, run), i)
    ensures var t := After(Empty, run).insts[i];
      t.fired <= 1 && (t.fired == 1 ==> PhaseRank(t.phase) >= PhaseRank(Ended))
  {
    ReachableInv(run);
    assert InstAt(After(Empty, run), i);
  }

  lemma LocalStepKeepsFired(t: Inst, pc: Api, ok: bool)
    requires pc != Outside
    ensures LocalStep(t, pc, ok).0.fired == t.fired
  {
  }

  /** Only the loop thread moves the loop thread and calls callbacks. */
  lemma CallsLeaveLoopAlone(s: State, l: Label, i: nat)
    requires Enabled(s, l) && Is(s, i) && !l.LoopBegin? && !l.LoopVisit? && !l.LoopFire? && !l.LoopAdvance?
    ensures Apply(s, l).loop == s.loop && Is(Apply(s, l), i) && Apply(s, l).insts[i].fired == s.insts[i].fired
  {
    if l.Advance? {
      LocalStepKeepsFired(s.insts[At(s, l.actor).inst], At(s, l.actor), l.ok);
    }
  }

  lemma FiringLeadsToFired(s: State, l: Label, i: nat)
    requires Inv(s) && Enabled(s, l) && Is(s, i) && (s.loop == Firing(i) || s.insts[i].fired == 1)
    ensures Is(Apply(s, l), i) && (Apply(s, l).loop == Firing(i) || Apply(s, l).insts[i].fired == 1)
  {
    if !l.LoopBegin? && !l.LoopVisit? && !l.LoopFire? && !l.LoopAdvance? {
      CallsLeaveLoopAlone(s, l, i);
    }
  }

  lemma {:induction false} FiringEndsFired(s: State, run: seq<Label>, i: nat)
    requires Inv(s) && IsRun(s, run) && Is(s, i) && (s.loop == Firing(i) || s.insts[i].fired == 1)
    ensures Is(After(s, run), i) && (After(s, run).loop == Firing(i) || After(s, run).insts[i].fired == 1)
    decreases |run|
  {
    if run != [] {
      StepsKeepInv(s, run[0]);
      FiringLeadsToFired(s, run[0], i);
      FiringEndsFired(Apply(s, run[0]), run[1..], i);
    }
  }

  /** A visit that finds a started instance with an exception ends it; if a callback is set, then
      as soon as the loop thread moves on the callback has been called, exactly once, for good. */
  lemma {:induction false} ExceptionIsReported(s: State, run: seq<Label>)
    requires Inv(s) && Enabled(s, LoopVisit) && IsRun(Apply(s, LoopVisit), run)
    requires s.insts[s.loop.node].phase == Started && s.insts[s.loop.node].exception
    ensures var i := s.loop.node; var s' := After(Apply(s, LoopVisit), run);
      && Is(s', i) && PhaseRank(s'.insts[i].phase) >= PhaseRank(Ended)
      && (s.insts[i].callback && s'.loop != Firing(i) ==> s'.insts[i].fired == 1)
  {
    StepsKeepInv(s, LoopVisit);
    PhasesOnlyRise(Apply(s, LoopVisit), run, s.loop.node);
    if s.insts[s.loop.node].callback {
      FiringEndsFired(Apply(s, LoopVisit), run, s.loop.node);
    }
  }

  /** The loop thread finds instance `i` started with an exception. */
  predicate FindsException(s: State, l: Label, i: nat) {
    && l == LoopVisit && s.loop == AtNode(i) && Is(s, i)
    && s.insts[i].phase == Started && s.insts[i].exception
  }

  /** No other step ends a started instance, or sends the loop thread to its callback; and no
      loop step changes anything else of an instance than what such a visit and a callback do. */
  lemma OnlyExceptionsEnd(s: State, l: Label, i: nat)
    requires Inv(s) && Enabled(s, l) && Is(s, i)
    ensures Is(Apply(s, l), i)
    ensures s.insts[i].phase == Started && Apply(s, l).insts[i].phase == Ended ==> FindsException(s, l, i)
    ensures Apply(s, l).loop == Firing(i) && s.loop != Firing(i) ==> FindsException(s, l, i) && s.insts[i].callback
    ensures Apply(s, l).insts[i].fired != s.insts[i].fired ==> l == LoopFire && s.loop == Firing(i)
    ensures l.LoopBegin? || l.LoopVisit? || l.LoopFire? || l.LoopAdvance? ==>
      Apply(s, l).insts[i] ==
        if FindsException(s, l, i) then s.insts[i].(phase := Ended)
        else if l == LoopFire && s.loop == Firing(i) then s.insts[i].(fired := s.insts[i].fired + 1)
        else s.insts[i]
  {
    if l.Advance? {
      AdvanceEndsNone(s, l.actor, l.ok, i);
    }
  }

  lemma AdvanceEndsNone(s: State, a: nat, ok: bool, i: nat)
    requires Inv(s) && Ready(s, a) && Is(s, i)
    ensures Is(Advancing(s, a, ok), i)
    ensures s.insts[i].phase == Started ==> Advancing(s, a, ok).insts[i].phase != Ended
    ensures Advancing(s, a, ok).insts[i].fired == s.insts[i].fired
  {
    assert InstAt(s, At(s, a).inst);
    LocalStepKeepsFired(s.insts[At(s, a).inst], At(s, a), ok);
  }

  /** No callback was called for instance `i`, and none is about to be. */
  predicate Unfired(s: State, i: nat) {
    Is(s, i) && s.insts[i].fired == 0 && s.loop != Firing(i)
  }

  lemma UnfiredStays(s: State, l: Label, i: nat)
    requires Inv(s) && Enabled(s, l) && Unfired(s, i) && !FindsException(s, l, i)
    ensures Unfired(Apply(s, l), i)
    ensures s.insts[i].phase == Started ==>
      Apply(s, l).insts[i].phase == Started || PhaseRank(Apply(s, l).insts[i].phase) > PhaseRank(Ended)
  {
    OnlyExceptionsEnd(s, l, i);
    StepsFollowEdges(s, l, i);
  }

  /** Over any run a started instance comes to have ended, or the callback of an instance to be
      called, only by a visit that finds it started with an exception. */
  lemma {:induction false} EndsOnlyByException(s: State, run: seq<Label>, i: nat) returns (k: nat)
    requires Inv(s) && IsRun(s, run) && Unfired(s, i) && Is(After(s, run), i)
    requires (s.insts[i].phase == Started && After(s, run).insts[i].phase == Ended) || After(s, run).insts[i].fired > 0
    ensures k < |run| && IsRun(s, run[..k]) && FindsException(After(s, run[..k]), run[k], i)
    decreases |run|
  {
    if FindsException(s, run[0], i) {
      k := 0;
    } else {
      var s1 := Apply(s, run[0]);
      StepsKeepInv(s, run[0]);
      UnfiredStays(s, run[0], i);
      PhasesOnlyRise(s1, run[1..], i);
      var j := EndsOnlyByException(s1, run[1..], i);
      k := j + 1;
      assert run[..k][1..] == run[1..][..j];
    }
  }

  // ---------------------------------------------------------------- the reaper

  /** The steps of one `LoopCheckInstanceRoutine` call, other threads' steps among them: the
      loop thread is under way until the last step. */
  predicate OnePass(s: State, run: seq<Label>)
    decreases |run|
  {
    && run != [] && Enabled(s, run[0])
    && (Apply(s, run[0]).loop == Resting ==> |run| == 1)
    && (Apply(s, run[0]).loop != Resting ==> OnePass(Apply(s, run[0]), run[1..]))
  }

  /** The destroyed instances `dead` still on the list lie at or after the iterator, and at it
      only if the visit is yet to come or saw the instance destroyed. */
  ghost predicate PassOk(s: State, dead: set<nat>) {
    && (forall d :: d in dead ==> Is(s, d) && s.insts[d].phase == Destroyed)
    && (s.loop == Resting ==> forall d :: d in dead ==> d !in s.list)
    && (s.loop != Resting ==> forall d :: d in dead && d in s.list ==>
          s.loop.node <= d && (s.loop.Firing? || (s.loop.Leaving? && !s.loop.destroyed) ==> s.loop.node != d))
  }

  lemma LaterNodes(list: seq<nat>, k: nat, d: nat)
    requires Rising(list) && k < |list| && d in list && list[k] < d
    ensures k + 1 < |list| && list[k + 1] <= d
  {
    var j :| 0 <= j < |list| && list[j] == d;
    assert forall m :: 0 <= m <= k ==> list[m] <= list[k];
  }

  lemma SteppingKeepsPass(s: State, dead: set<nat>)
    requires Rising(s.list) && s.loop.Leaving? && s.loop.node in s.list && PassOk(s, dead)
    ensures PassOk(Stepping(s, s.loop.node, s.loop.destroyed), dead)
  {
    var i := s.loop.node;
    var k := IndexOf(s.list, i);
    var s' := Stepping(s, i, s.loop.destroyed);
    EraseNode(s.list, k);
    forall d | d in dead && d in s'.list ensures s'.loop != Resting && s'.loop.node <= d {
      assert d in s.list && d != i;
      LaterNodes(s.list, k, d);
    }
  }

  lemma DestroyedStays(s: State, l: Label, d: nat)
    requires Inv(s) && Enabled(s, l) && Is(s, d) && s.insts[d].phase == Destroyed
    ensures Is(Apply(s, l), d) && Apply(s, l).insts[d].phase == Destroyed
  {
    StepsFollowEdges(s, l, d);
  }

  lemma StepsKeepPass(s: State, l: Label, dead: set<nat>)
    requires Inv(s) && Enabled(s, l) && PassOk(s, dead) && s.loop != Resting
    ensures PassOk(Apply(s, l), dead)
  {
    forall d | d in dead
      ensures Is(Apply(s, l), d) && Apply(s, l).insts[d].phase == Destroyed
    {
      DestroyedStays(s, l, d);
    }
    if l.LoopAdvance? {
      SteppingKeepsPass(s, dead);
    }
  }

  lemma {:induction false} PassEndsClean(s: State, run: seq<Label>, dead: set<nat>)
    requires Inv(s) && PassOk(s, dead) && s.loop != Resting && OnePass(s, run)
    ensures IsRun(s, run) && After(s, run).loop == Resting && PassOk(After(s, run), dead)
    decreases |run|
  {
    var s' := Apply(s, run[0]);
    StepsKeepPass(s, run[0], dead);
    StepsKeepInv(s, run[0]);
    if s'.loop == Resting {
      assert run[1..] == [];
    } else {
      PassEndsClean(s', run[1..], dead);
    }
  }

  /** One pass, whatever is created, started or destroyed meanwhile, removes every instance that
      was destroyed before it began. */
  lemma {:induction false} PassRemovesTheDead(s: State, run: seq<Label>)
    requires Inv(s) && Enabled(s, LoopBegin) && s.list != [] && OnePass(Apply(s, LoopBegin), run)
    ensures IsRun(Apply(s, LoopBegin), run)
    ensures var s' := After(Apply(s, LoopBegin), run);
      forall d: nat :: Is(s, d) && s.insts[d].phase == Destroyed ==> d !in s'.list && d in s'.removed
  {
    var dead := set d: nat | d < |s.insts| && s.insts[d].phase == Destroyed;
    var s1 := Apply(s, LoopBegin);
    StepsKeepInv(s, LoopBegin);
    assert PassOk(s1, dead);
    PassEndsClean(s1, run, dead);
    RunKeepsInv(s1, run);
    var s2 := After(s1, run);
    forall d: nat | Is(s, d) && s.insts[d].phase == Destroyed ensures d !in s2.list && d in s2.removed {
      assert d in dead;
    }
  }

  /** Over any run, only destroyed instances leave the list, none twice, survivors keep their
      order, and what is removed stays removed. */
  lemma {:induction false} OnlyTheDeadAreRemoved(s: State, run: seq<Label>)
    requires Inv(s) && IsRun(s, run)
    ensures var s' := After(s, run);
      && s.removed <= s'.removed && Distinct(s'.removed) && Rising(s'.list)
      && (forall i :: i in s'.removed ==> Is(s', i) && s'.insts[i].phase == Destroyed)
      && (forall i :: i in s.list && i !in s'.list ==> i in s'.removed)
    decreases |run|
  {
    RunKeepsInv(s, run);
    RemovedGrows(s, run);
    var s' := After(s, run);
    forall i | i in s.list && i !in s'.list ensures i in s'.removed {
      PhasesOnlyRise(s, run, i);
    }
  }

  lemma {:induction false} RemovedGrows(s: State, run: seq<Label>)
    requires IsRun(s, run)
    ensures s.removed <= After(s, run).removed
    decreases |run|
  {
    if run != [] {
      RemovedGrows(Apply(s, run[0]), run[1..]);
    }
  }
}
