/** Instances of one module share it: start writes its arguments, environment and directories into
    the module and then instantiates. gWasmLock keeps another start from coming in between. */
module InstanceArguments {
  import opened Prelude
  import opened InstanceProtocol
  import opened InstanceInvariant

  ghost predicate LockOk(s: State) {
    forall a: nat :: InWasmLock(At(s, a)) <==> s.wasmLock == Some(a)
  }

  /** A start about to instantiate finds its own arguments in its module. */
  ghost predicate ArgsOk(s: State) {
    && LockOk(s)
    && (forall a: nat :: At(s, a).Instantiating? && Is(s, At(s, a).inst) ==>
          var i := At(s, a).inst;
          s.insts[i].mainModule in s.args && s.args[s.insts[i].mainModule] == i)
    && forall i :: i in s.given ==> s.given[i] == i
  }

  /** The lock is taken on the way from `Locking` to `Instantiating` and nowhere else. */
  lemma LocalStepLocks(t: Inst, pc: Api, ok: bool)
    requires pc != Outside
    ensures var pc' := LocalStep(t, pc, ok).1;
      && (pc'.Instantiating? <==> pc.Locking?)
      && (InWasmLock(pc') ==> pc.Locking? || InWasmLock(pc))
      && (pc' != Outside ==> pc'.inst == pc.inst)
  {
  }

  lemma LocalStepKeepsModule(t: Inst, pc: Api, ok: bool)
    requires pc != Outside
    ensures LocalStep(t, pc, ok).0.mainModule == t.mainModule
  {
  }

  /** What an advance does to everything `ArgsOk` looks at. */
  lemma AdvanceShape(s: State, a: nat, ok: bool, pc: Api)
    requires Ready(s, a) && pc == LocalStep(s.insts[At(s, a).inst], At(s, a), ok).1
    ensures var s', w := Advancing(s, a, ok), WasmStep(s, a, At(s, a), pc);
      && At(s', a) == pc && (forall b: nat :: b != a ==> At(s', b) == At(s, b))
      && s'.wasmLock == w.wasmLock && s'.args == w.args && s'.given == w.given
      && |s'.insts| == |s.insts|
      && forall j :: 0 <= j < |s.insts| ==> s'.insts[j].mainModule == s.insts[j].mainModule
  {
    LocalStepKeepsModule(s.insts[At(s, a).inst], At(s, a), ok);
  }

  lemma AdvanceKeepsArgs(s: State, a: nat, ok: bool)
    requires ArgsOk(s) && CanAdvance(s, a)
    ensures ArgsOk(Advancing(s, a, ok))
  {
    var t := s.insts[At(s, a).inst];
    LocalStepLocks(t, At(s, a), ok);
    AdvanceShape(s, a, ok, LocalStep(t, At(s, a), ok).1);
  }

  /** Steps that move no API thread into or out of the lock. */
  lemma OthersKeepArgs(s: State, s': State)
    requires ArgsOk(s) && |s'.insts| >= |s.insts|
    requires s'.wasmLock == s.wasmLock && s'.args == s.args && s'.given == s.given
    requires forall b: nat :: At(s', b) == At(s, b) || (!InWasmLock(At(s', b)) && !InWasmLock(At(s, b)))
    requires forall b: nat :: At(s, b) != Outside ==> Is(s, At(s, b).inst)
    requires forall j :: 0 <= j < |s.insts| ==> s'.insts[j].mainModule == s.insts[j].mainModule
    ensures ArgsOk(s')
  {
  }

  lemma StepsKeepArgs(s: State, l: Label)
    requires Inv(s) && ArgsOk(s) && Enabled(s, l)
    ensures ArgsOk(Apply(s, l))
  {
    if l.Advance? {
      AdvanceKeepsArgs(s, l.actor, l.ok);
    } else {
      OthersKeepArgs(s, Apply(s, l));
    }
  }

  lemma {:induction false} RunKeepsArgs(s: State, run: seq<Label>)
    requires Inv(s) && ArgsOk(s) && IsRun(s, run)
    ensures ArgsOk(After(s, run))
    decreases |run|
  {
    if run != [] {
      StepsKeepArgs(s, run[0]);
      StepsKeepInv(s, run[0]);
      RunKeepsArgs(Apply(s, run[0]), run[1..]);
    }
  }

  /** Whatever starts on instances of the same module run at once, every instance is instantiated
      with the arguments its own start has set. */
  lemma {:induction false} InstantiatedWithOwnArguments(run: seq<Label>, i: nat)
    requires IsRun(Empty, run) && i in After(Empty, run).given
    ensures After(Empty, run).given[i] == i
  {
    EmptyInv();
    RunKeepsArgs(Empty, run);
  }

  /** Two instances of one module, both about to take gWasmLock. */
  lemma TwoStarts(a: nat, b: nat) returns (s: State)
    requires a != b
    ensures |s.insts| == 2 && s.insts[0].mainModule == s.insts[1].mainModule
    ensures At(s, a) == Locking(0) && At(s, b) == Locking(1) && s.wasmLock.None?
  {
    s := Apply(Empty, Create(0, false));
    s := Apply(s, Create(0, false));
    s := Apply(s, Call(a, 0, Start));
    s := Apply(s, Call(b, 1, Start));
    s := Advancing(s, a, true);
    s := Advancing(s, b, true);
  }

  /** Without gWasmLock two starts on one module can overlap, and the first instance gets the
      second one's arguments. */
  lemma OverlappingStartsMixArguments(a: nat, b: nat) returns (s: State)
    requires a != b
    ensures 0 in s.given && s.given[0] == 1
  {
    s := TwoStarts(a, b);
    var m := s.insts[0].mainModule;
    s := Advancing(s, a, true);
    assert Ready(s, b) && !CanAdvance(s, b);
    assert s.insts[0].mainModule == m && s.insts[1].mainModule == m;
    s := Advancing(s, b, true);
    assert m in s.args && s.args[m] == 1 && s.insts[0].mainModule == m;
    s := Advancing(s, a, true);
  }
}
