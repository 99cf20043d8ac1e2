/** Instances, the API calls on them and the background loop thread, as a system of atomic
    steps. Instances are numbered by creation. `execFuncLock` is held by the API thread inside
    start, exec or destroy, `gWasmLock` by the one start that is between setting its module's
    arguments and registering; every other access under a lock is one step. */
module InstanceProtocol {
  import opened Prelude

  datatype Phase = New | Started | Ended | Destroying | Destroyed

  function PhaseRank(p: Phase): nat {
    match p
    case New => 0
    case Started => 1
    case Ended => 2
    case Destroying => 3
    case Destroyed => 4
  }

  datatype Teardown = Teardown(
    cleaned: bool,           // the app's threads were cleaned up
    dtorRuns: nat,           // times the app's destructors ran
    closed: bool)            // the app's open files were closed

  const Untouched: Teardown := Teardown(false, 0, false)

  datatype Inst = Inst(
    mainModule: nat,             // pMainModule, which instances can share
    phase: Phase,
    mod: bool,               // wasmMainInstance is a live module instance
    env: bool,               // pMainExecEnv is a live exec env
    registered: bool,        // custom data set and main thread info initialised
    exception: bool,         // the module instance carries an exception
    callback: bool,          // config.exceptionCB is set
    owner: Option<nat>,      // API thread holding execFuncLock
    fired: nat,              // times the exception callback ran
    work: Teardown,          // what destroy has done
    reallocFailed: bool)     // start gave up for want of memory

  /** Where an API thread is. The number is the instance it works on. */
  datatype Api =
    | Outside
    | StartEntry(inst: nat)
    | Locking(inst: nat)                    // about to take gWasmLock
    | Instantiating(inst: nat)
    | CreatingEnv(inst: nat)
    | Enlarging(inst: nat)
    | Registering(inst: nat)
    | Initializing(inst: nat)
    | Finishing(inst: nat)
    | ExecEntry(inst: nat)
    | InMain(inst: nat)
    | DestroyEntry(inst: nat)
    | CleaningUp(inst: nat, dtors: bool)
    | RunningDtors(inst: nat, dtors: bool)
    | ClosingFds(inst: nat)
    | DestroyingEnv(inst: nat)
    | Deinstantiating(inst: nat)
    | MarkingDestroyed(inst: nat)

  /** Where the loop thread is in `LoopCheckInstanceRoutine`; the number is its list iterator. */
  datatype Loop =
    | Resting
    | AtNode(node: nat)
    | Firing(node: nat)                     // about to run the callback, no lock held
    | Leaving(node: nat, destroyed: bool)   // about to take gWasmLock

  datatype State = State(
    insts: seq<Inst>,
    list: seq<nat>,          // gAllInstanceList
    removed: seq<nat>,       // instances taken off the list so far, in order
    actors: map<nat, Api>,
    loop: Loop,
    wasmLock: Option<nat>,   // the API thread holding gWasmLock
    args: map<nat, nat>,     // module -> instance whose arguments it carries
    given: map<nat, nat>)    // instance -> instance whose arguments it was instantiated with

  datatype Entry = Start | ExecMain | Destroy

  datatype Label =
    | Create(mainModule: nat, callback: bool)
    | SetCallback(inst: nat, on: bool)
    | Raise(inst: nat)
    | Call(actor: nat, inst: nat, entry: Entry)
    | Advance(actor: nat, ok: bool)
    | LoopBegin
    | LoopVisit
    | LoopFire
    | LoopAdvance

  const Empty: State := State([], [], [], map[], Resting, None, map[], map[])

  predicate Is(s: State, i: nat) {
    i < |s.insts|
  }

  function At(s: State, a: nat): Api {
    if a in s.actors then s.actors[a] else Outside
  }

  function With(s: State, i: nat, inst: Inst): State
    requires Is(s, i)
  {
    s.(insts := s.insts[i := inst])
  }

  function Move(s: State, a: nat, pc: Api): State {
    s.(actors := s.actors[a := pc])
  }

  /** Return from an API call: execFuncLock is released. */
  function Leave(s: State, a: nat, i: nat): State
    requires Is(s, i)
  {
    Move(With(s, i, s.insts[i].(owner := None)), a, Outside)
  }

  /** `CleanupAppThreadInfo` finds its thread manager through the custom data of the module
      instance; without it the call has no defined outcome and the model no step. */
  predicate Ready(s: State, a: nat) {
    && At(s, a) != Outside
    && Is(s, At(s, a).inst)
    && (At(s, a).CleaningUp? && s.insts[At(s, a).inst].env ==> s.insts[At(s, a).inst].registered)
  }

  predicate CanAdvance(s: State, a: nat) {
    Ready(s, a) && (At(s, a).Locking? ==> s.wasmLock.None?)
  }

  /** Inside the scope of start's lock on gWasmLock. */
  predicate InWasmLock(pc: Api) {
    pc.Instantiating? || pc.CreatingEnv? || pc.Enlarging? || pc.Registering?
  }

  function EntryPoint(e: Entry, i: nat): Api {
    match e
    case Start => StartEntry(i)
    case ExecMain => ExecEntry(i)
    case Destroy => DestroyEntry(i)
  }

  predicate InStart(pc: Api) {
    pc.StartEntry? || pc.Locking? || pc.Instantiating? || pc.CreatingEnv? || pc.Enlarging?
    || pc.Registering? || pc.Initializing? || pc.Finishing?
  }

  /** Destroy has set the phase and not yet returned. */
  predicate InDestroy(pc: Api) {
    pc.CleaningUp? || pc.RunningDtors? || pc.ClosingFds? || pc.DestroyingEnv? || pc.Deinstantiating? || pc.MarkingDestroyed?
  }

  /** A step of start at `pc`; `ok` is the outcome of the runtime call it makes. */
  function StartStep(t: Inst, pc: Api, ok: bool): (Inst, Api)
    requires InStart(pc)
  {
    var i := pc.inst;
    match pc
    case StartEntry(_) => (t, if t.phase != New then Outside else Locking(i))
    case Locking(_) => (t, Instantiating(i))
    case Instantiating(_) => (t.(mod := ok, exception := false), if ok then CreatingEnv(i) else Outside)
    case CreatingEnv(_) => if ok then (t.(env := true), Enlarging(i)) else (t, Outside)
    case Enlarging(_) =>
      if ok then (t, Registering(i)) else (t.(phase := Ended, reallocFailed := true), Outside)
    case Registering(_) => (t.(registered := true), Initializing(i))
    case Initializing(_) => if ok then (t, Finishing(i)) else (t.(phase := Ended), Outside)
    case Finishing(_) => (t.(phase := Started), Outside)
  }

  /** A step of destroy at `pc`. */
  function DestroyStep(t: Inst, pc: Api): (Inst, Api)
    requires pc.DestroyEntry? || InDestroy(pc)
  {
    var i := pc.inst;
    match pc
    case DestroyEntry(_) =>
      if t.phase == Destroying || t.phase == Destroyed then (t, Outside)
      else (t.(phase := Destroying), CleaningUp(i, t.phase == Started))
    case CleaningUp(_, dtors) => (t.(work := t.work.(cleaned := t.work.cleaned || t.env)), RunningDtors(i, dtors))
    case RunningDtors(_, dtors) =>
      (if dtors then t.(work := t.work.(dtorRuns := t.work.dtorRuns + 1)) else t, ClosingFds(i))
    case ClosingFds(_) => (t.(work := t.work.(closed := t.work.closed || t.mod)), DestroyingEnv(i))
    case DestroyingEnv(_) => (t.(env := false), Deinstantiating(i))
    case Deinstantiating(_) => (t.(mod := false), MarkingDestroyed(i))
    case MarkingDestroyed(_) => (t.(phase := Destroyed), Outside)
  }

  /** The next step of an API thread at `pc`, as it affects its instance; `Outside` means that it
      returns. */
  function LocalStep(t: Inst, pc: Api, ok: bool): (Inst, Api)
    requires pc != Outside
  {
    if InStart(pc) then StartStep(t, pc, ok)
    else if pc.ExecEntry? then (t, if t.phase != Started then Outside else InMain(pc.inst))
    else if pc.InMain? then (t, Outside)
    else DestroyStep(t, pc)
  }

  /** The module and its lock, as API thread `a` goes on from `was` to `pc`. */
  function WasmStep(s: State, a: nat, was: Api, pc: Api): State
    requires was != Outside && Is(s, was.inst)
  {
    var i := was.inst;
    var m := s.insts[i].mainModule;
    s.(wasmLock := if InWasmLock(pc) then Some(a) else if InWasmLock(was) then None else s.wasmLock,
       args := if was.Locking? then s.args[m := i] else s.args,
       given := if was.Instantiating? && m in s.args then s.given[i := s.args[m]] else s.given)
  }

  function Advancing(s: State, a: nat, ok: bool): State
    requires Ready(s, a)
  {
    var i := At(s, a).inst;
    var (t, pc) := LocalStep(s.insts[i], At(s, a), ok);
    var s' := WasmStep(s, a, At(s, a), pc);
    if pc == Outside then Leave(With(s', i, t), a, i) else Move(With(s', i, t), a, pc)
  }

  function IndexOf(list: seq<nat>, node: nat): (k: nat)
    requires node in list
    ensures k < |list| && list[k] == node
  {
    if list[0] == node then 0 else 1 + IndexOf(list[1..], node)
  }

  /** A visit ends a started instance that carries an exception. */
  predicate EndsAtVisit(t: Inst) {
    t.phase == Started && t.exception
  }

  /** One visit, under instanceLock. */
  function Visiting(s: State, i: nat): State
    requires Is(s, i)
  {
    var t := s.insts[i];
    if EndsAtVisit(t)
    then With(s, i, t.(phase := Ended)).(loop := if t.callback then Firing(i) else Leaving(i, false))
    else s.(loop := Leaving(i, t.phase == Destroyed))
  }

  /** Step the iterator, erasing its node first if the visit saw it destroyed. */
  function Stepping(s: State, i: nat, destroyed: bool): State
    requires i in s.list
  {
    var k := IndexOf(s.list, i);
    var list := if destroyed then s.list[..k] + s.list[k + 1..] else s.list;
    var next := if destroyed then k else k + 1;
    s.(list := list,
       removed := if destroyed then s.removed + [i] else s.removed,
       loop := if next < |list| then AtNode(list[next]) else Resting)
  }

  predicate Enabled(s: State, l: Label) {
    match l
    case Create(_, _) => s.wasmLock.None?
    case SetCallback(i, _) => Is(s, i)
    case Raise(i) => Is(s, i) && s.insts[i].mod
    case Call(a, i, _) => Is(s, i) && At(s, a) == Outside && s.insts[i].owner.None?
    case Advance(a, _) => CanAdvance(s, a)
    case LoopBegin => s.loop == Resting && s.wasmLock.None?
    case LoopVisit => s.loop.AtNode? && Is(s, s.loop.node)
    case LoopFire => s.loop.Firing? && Is(s, s.loop.node)
    case LoopAdvance => s.loop.Leaving? && s.loop.node in s.list && s.wasmLock.None?
  }

  function Apply(s: State, l: Label): State
    requires Enabled(s, l)
  {
    match l
    case Create(mainModule, callback) =>
      s.(insts := s.insts + [Inst(mainModule, New, false, false, false, false, callback, None, 0, Untouched, false)],
         list := s.list + [|s.insts|])
    case SetCallback(i, on) => With(s, i, s.insts[i].(callback := on))
    case Raise(i) => With(s, i, s.insts[i].(exception := true))
    case Call(a, i, e) => Move(With(s, i, s.insts[i].(owner := Some(a))), a, EntryPoint(e, i))
    case Advance(a, ok) => Advancing(s, a, ok)
    case LoopBegin => s.(loop := if s.list == [] then Resting else AtNode(s.list[0]))
    case LoopVisit => Visiting(s, s.loop.node)
    case LoopFire =>
      var i := s.loop.node;
      With(s, i, s.insts[i].(fired := s.insts[i].fired + 1)).(loop := Leaving(i, false))
    case LoopAdvance => Stepping(s, s.loop.node, s.loop.destroyed)
  }

  predicate IsRun(s: State, run: seq<Label>)
    decreases |run|
  {
    run == [] || (Enabled(s, run[0]) && IsRun(Apply(s, run[0]), run[1..]))
  }

  function After(s: State, run: seq<Label>): State
    requires IsRun(s, run)
    decreases |run|
  {
    if run == [] then s else After(Apply(s, run[0]), run[1..])
  }
}
