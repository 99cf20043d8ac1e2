/** Spawning and reaping child processes from many instances at once, with the host's open
    files, the processes of each child's family and the per-instance child tables. */
module ProcessProtocol {
  import opened Prelude

  datatype End = ReadEnd(pipe: nat) | WriteEnd(pipe: nat) | OtherFile

  /** A successful spawn: the process id it got, its pipe and the host's read end. */
  datatype Child = Child(pid: nat, pipe: nat, rd: nat, inst: nat, spawner: nat)

  /** A live or unreaped process. `root` is the child it descends from, or is. */
  datatype Proc = Proc(root: nat, direct: bool, holds: set<nat>, exited: bool)

  /** A thread in `ProcessSpawn`, from taking the spawn lock to the table insert. */
  datatype Spawner =
    | Idle
    | Locked(inst: nat)
    | Piped(inst: nat, rd: nat, wr: nat, pipe: nat)
    | ForkFailed(inst: nat, rd: nat, wr: nat, pipe: nat)
    | Forked(inst: nat, wr: nat, child: nat)
    | Inserting(inst: nat, child: nat)

  /** `ProcManager`: childProcMap and pollFDToProcMap, a stored iterator being a process id. */
  datatype Manager = Manager(childMap: map<nat, nat>, fdMap: map<nat, nat>)

  function Added(m: Manager, pid: nat, fd: nat): Manager {
    Manager(m.childMap[pid := fd], m.fdMap[fd := pid])
  }

  function Removed(m: Manager, pid: nat, fd: nat): Manager {
    Manager(m.childMap - {pid}, m.fdMap - {fd})
  }

  datatype State = State(
    fds: map<nat, End>,
    pipes: nat,                  // pipes ever created
    children: seq<Child>,
    reported: seq<nat>,          // children whose end was reported, in order
    phantoms: nat,               // times waitpid denied knowing a tabled process
    procs: map<nat, Proc>,
    managers: map<nat, Manager>,
    spawners: map<nat, Spawner>,
    spawnLock: Option<nat>)

  datatype Label =
    | HostOpen(fd: nat)
    | HostClose(fd: nat)
    | Lock(t: nat, inst: nat)
    | MakePipe(t: nat, ok: bool, rd: nat, wr: nat)
    | Fork(t: nat, ok: bool, pid: nat, over: set<nat>)   // `over`: what the dup2 actions replace
    | CloseEnds(t: nat)
    | Insert(t: nat)
    | ProcFork(pid: nat, newPid: nat)
    | ProcClose(pid: nat, pipe: nat)
    | ProcExit(pid: nat)
    | Collect(pid: nat)
    | Reap(inst: nat, fd: nat)

  const Initial: State := State(map[], 0, [], [], 0, map[], map[], map[], None)

  function At(s: State, t: nat): Spawner {
    if t in s.spawners then s.spawners[t] else Idle
  }

  function Table(s: State, inst: nat): Manager {
    if inst in s.managers then s.managers[inst] else Manager(map[], map[])
  }

  /** Enabled but for the spawn lock being free: the operating system hands out descriptors and
      process ids that are not in use, and only the runtime itself reaps direct children. */
  predicate Ready(s: State, l: Label) {
    match l
    case HostOpen(fd) => fd !in s.fds
    case HostClose(fd) => fd in s.fds && s.fds[fd] == OtherFile
    case Lock(t, _) => At(s, t) == Idle
    case MakePipe(t, ok, rd, wr) => At(s, t).Locked? && (ok ==> rd != wr && rd !in s.fds && wr !in s.fds)
    case Fork(t, ok, pid, over) => At(s, t).Piped? && over <= {0, 1, 2} && (ok ==> pid !in s.procs && pid > 0)
    case CloseEnds(t) => At(s, t).ForkFailed? || At(s, t).Forked?
    case Insert(t) => At(s, t).Inserting? && At(s, t).child < |s.children|
    case ProcFork(pid, newPid) => pid in s.procs && !s.procs[pid].exited && newPid !in s.procs && newPid > 0
    case ProcClose(pid, _) => pid in s.procs && !s.procs[pid].exited
    case ProcExit(pid) => pid in s.procs && !s.procs[pid].exited
    case Collect(pid) => pid in s.procs && s.procs[pid].exited && !s.procs[pid].direct
    case Reap(_, _) => true
  }

  predicate Enabled(s: State, l: Label) {
    Ready(s, l) && (l.Lock? ==> s.spawnLock.None?)
  }

  function Move(s: State, t: nat, pc: Spawner): State {
    s.(spawners := s.spawners[t := pc])
  }

  /** A new process inherits every descriptor open at the fork but those its file actions put
      something else on; of pipes, the write ends matter. */
  function Inherited(s: State, over: set<nat>): set<nat> {
    set p: nat | p < s.pipes && WriteEnd(p) in (s.fds - over).Values
  }

  /** `waitpid(pid, WNOHANG)` on a process only the runtime reaps. */
  datatype WaitOutcome = NoChild | StillRunning | Exited(child: nat)

  function WaitPid(s: State, pid: nat): WaitOutcome {
    if pid !in s.procs || !s.procs[pid].direct then NoChild
    else if s.procs[pid].exited then Exited(s.procs[pid].root) else StillRunning
  }

  /** The critical section of ProcessWaitPID for one polled descriptor, which may be stale. */
  function Reaping(s: State, inst: nat, fd: nat): State {
    var m := Table(s, inst);
    if fd !in m.fdMap then s
    else
      var pid := m.fdMap[fd];
      var s' := s.(fds := s.fds - {fd},
                   managers := s.managers[inst := Removed(m, pid, fd)]);
      match WaitPid(s, pid)
      case StillRunning => s
      case Exited(c) => s'.(procs := s.procs - {pid}, reported := s.reported + [c])
      case NoChild => s'.(phantoms := s.phantoms + 1)
  }

  function Apply(s: State, l: Label): State
    requires Ready(s, l)
  {
    match l
    case HostOpen(fd) => s.(fds := s.fds[fd := OtherFile])
    case HostClose(fd) => s.(fds := s.fds - {fd})
    case Lock(t, inst) => Move(s, t, Locked(inst)).(spawnLock := Some(t))
    case MakePipe(t, ok, rd, wr) =>
      if !ok then Move(s, t, Idle).(spawnLock := None)
      else Move(s, t, Piped(At(s, t).inst, rd, wr, s.pipes))
             .(fds := s.fds[rd := ReadEnd(s.pipes)][wr := WriteEnd(s.pipes)], pipes := s.pipes + 1)
    case Fork(t, ok, pid, over) =>
      var pc := At(s, t);
      if !ok then Move(s, t, ForkFailed(pc.inst, pc.rd, pc.wr, pc.pipe))
      else
        var c := |s.children|;
        Move(s, t, Forked(pc.inst, pc.wr, c))
          .(children := s.children + [Child(pid, pc.pipe, pc.rd, pc.inst, t)],
            procs := s.procs[pid := Proc(c, true, Inherited(s, over), false)])
    case CloseEnds(t) =>
      var pc := At(s, t);
      if pc.Forked?
      then Move(s, t, Inserting(pc.inst, pc.child)).(fds := s.fds - {pc.wr}, spawnLock := None)
      else Move(s, t, Idle).(fds := s.fds - {pc.wr, pc.rd}, spawnLock := None)
    case Insert(t) =>
      var pc := At(s, t);
      var child := s.children[pc.child];
      Move(s, t, Idle)
        .(managers := s.managers[pc.inst := Added(Table(s, pc.inst), child.pid, child.rd)])
    case ProcFork(pid, newPid) =>
      s.(procs := s.procs[newPid := s.procs[pid].(direct := false)])
    case ProcClose(pid, pipe) =>
      s.(procs := s.procs[pid := s.procs[pid].(holds := s.procs[pid].holds - {pipe})])
    case ProcExit(pid) =>
      s.(procs := s.procs[pid := s.procs[pid].(holds := {}, exited := true)])
    case Collect(pid) => s.(procs := s.procs - {pid})
    case Reap(inst, fd) => Reaping(s, inst, fd)
  }

  predicate IsRun(s: State, run: seq<Label>)
    decreases |run|
  {
    run == [] || (Enabled(s, run[0]) && IsRun(Apply(s, run[0]), run[1..]))
  }

  function After(s: State, run: seq<Label>): State
    requires IsRun(s, run)
    decreases |run|
  {
    if run == [] then s else After(Apply(s, run[0]), run[1..])
  }
}
