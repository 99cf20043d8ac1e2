/** `ProcManager` of one instance: the table insert at the end of ProcessSpawn and
    ProcessWaitPID, for calls that do not overlap. Its updates of the two maps are those of the
    process protocol. */
module ProcManager {
  import opened Prelude
  import P = ProcessProtocol
  import I = ProcessInvariant

  // ---------------------------------------------------------------- what the protocol does here

  /** Wherever the protocol inserts, the process id and the descriptor are new to the table, and
      the step adds them to it and to no other. */
  lemma InsertIsProtocolStep(s: P.State, t: nat, other: nat)
    requires I.Inv(s) && P.Enabled(s, P.Insert(t))
    ensures var inst := P.At(s, t).inst; var c := s.children[P.At(s, t).child];
      && c.pid !in P.Table(s, inst).childMap && c.rd !in P.Table(s, inst).fdMap
      && P.Table(P.Apply(s, P.Insert(t)), inst) == P.Added(P.Table(s, inst), c.pid, c.rd)
      && (other != inst ==> P.Table(P.Apply(s, P.Insert(t)), other) == P.Table(s, other))
  {
    var inst, c := P.At(s, t).inst, P.At(s, t).child;
    assert I.SpawnerOk(s, t) && I.ChildOk(s, c) && I.TableOk(s, inst);
    var m := P.Table(s, inst);
    forall pid | pid in m.childMap ensures pid != s.children[c].pid && m.childMap[pid] != s.children[c].rd {
      var d := s.procs[pid].root;
      assert I.ProcOk(s, pid);
      if d != c { I.Distinguished(s, c, d); }
    }
  }

  /** Wherever the protocol reaps a table entry whose process is over, the step reports that child,
      closes its read end and removes the entry; a child still running is left alone, and there
      is no third case. */
  lemma ReapIsProtocolStep(s: P.State, inst: nat, pid: nat)
    requires I.Inv(s) && pid in P.Table(s, inst).childMap
    ensures var m := P.Table(s, inst); var fd := m.childMap[pid]; var s' := P.Apply(s, P.Reap(inst, fd));
      match P.WaitPid(s, pid)
      case StillRunning => s' == s
      case Exited(c) =>
        && P.Table(s', inst) == P.Removed(m, pid, fd) && s'.fds == s.fds - {fd}
        && s'.reported == s.reported + [c] && I.Is(s, c) && s.children[c].pid == pid
      case NoChild => false
  {
    assert I.TableOk(s, inst);
    var fd := P.Table(s, inst).childMap[pid];
    var c := I.EntryChild(s, inst, fd);
  }

  function Reaps(inst: nat, fds: seq<nat>): seq<P.Label> {
    seq(|fds|, k requires 0 <= k < |fds| => P.Reap(inst, fds[k]))
  }

  /** The critical sections of one round, for the descriptors of children still running and then
      for the first child that is over, come to the one step that reports it. */
  lemma {:induction false} RoundIsProtocolRun(s: P.State, inst: nat, quiet: seq<nat>, fd: nat)
    requires I.Inv(s)
    requires var m := P.Table(s, inst).fdMap;
      forall k :: 0 <= k < |quiet| ==> quiet[k] in m && P.WaitPid(s, m[quiet[k]]) == P.StillRunning
    ensures P.IsRun(s, Reaps(inst, quiet + [fd]))
    ensures P.After(s, Reaps(inst, quiet + [fd])) == P.Apply(s, P.Reap(inst, fd))
    decreases |quiet|
  {
    var run := Reaps(inst, quiet + [fd]);
    if quiet == [] {
      assert run == [P.Reap(inst, fd)] && run[1..] == [];
      var s' := P.Apply(s, P.Reap(inst, fd));
      assert P.IsRun(s', []) && P.After(s', []) == s';
    } else {
      assert I.TableOk(s, inst);
      ReapIsProtocolStep(s, inst, P.Table(s, inst).fdMap[quiet[0]]);
      assert run[1..] == Reaps(inst, quiet[1..] + [fd]);
      RoundIsProtocolRun(s, inst, quiet[1..], fd);
    }
  }

  // ---------------------------------------------------------------- the class

  /** What one `poll` on the snapshot returns; `fds` are those with POLLIN or POLLHUP. */
  datatype Poll = PollFailed(err: nat) | TimedOut | Ready(fds: set<nat>)

  /** What `waitpid(pid, WNOHANG)` returns. */
  datatype Wait = StillRunning | Exited(status: nat) | NoChild

  /** The operating system's answers during one turn of the outer loop. */
  datatype Round = Round(poll: Poll, waits: nat -> Wait)

  datatype Outcome =
    | NoChildren                         // ECHILD
    | Failed(err: nat)
    | Nothing                            // success, pid 0
    | Reported(pid: nat, status: nat)
    | Blocked                            // still waiting when the answers ran out

  class Manager {
    var childProcMap: map<nat, nat>      // pid -> read end
    var pollFDToProcMap: map<nat, nat>   // read end -> pid
    var closed: seq<nat>                 // read ends closed so far

    /** The table as the protocol has it. */
    ghost function Table(): P.Manager reads this {
      P.Manager(childProcMap, pollFDToProcMap)
    }

    ghost predicate Valid() reads this {
      && (forall pid :: pid in childProcMap ==>
            childProcMap[pid] in pollFDToProcMap && pollFDToProcMap[childProcMap[pid]] == pid)
      && (forall fd :: fd in pollFDToProcMap ==>
            pollFDToProcMap[fd] in childProcMap && childProcMap[pollFDToProcMap[fd]] == fd)
    }

    constructor ()
      ensures Valid() && childProcMap == map[] && pollFDToProcMap == map[] && closed == []
    {
      childProcMap, pollFDToProcMap, closed := map[], map[], [];
    }

    /** The operating system gave a process id not in use and a descriptor not in use. */
    method Insert(pid: nat, fd: nat)
      requires Valid() && pid !in childProcMap && fd !in pollFDToProcMap
      modifies this
      ensures Valid() && closed == old(closed)
      ensures Table() == P.Added(old(Table()), pid, fd)
    {
      childProcMap := childProcMap[pid := fd];
      pollFDToProcMap := pollFDToProcMap[fd := pid];
    }

    /** There is no child to wait for. */
    predicate Childless(pid: int) reads this {
      if pid > 0 then pid !in childProcMap else childProcMap == map[]
    }

    /** Child `p` is one the wait asked for. */
    predicate Asked(pid: int, p: nat) reads this {
      p in childProcMap && (pid > 0 ==> p == pid)
    }

    /** The round showed no asked-for child to be over. */
    ghost predicate Quiet(pid: int, r: Round) reads this {
      && r.poll.Ready?
      && forall p :: Asked(pid, p) && childProcMap[p] in r.poll.fds ==> r.waits(p) == StillRunning
    }

    /** The descriptors to poll: one, or all in the hash map's order. */
    method Snapshot(pid: int) returns (polled: seq<nat>)
      requires Valid() && !Childless(pid)
      ensures forall fd :: fd in polled <==> fd in pollFDToProcMap && Asked(pid, pollFDToProcMap[fd])
      ensures |polled| == if pid > 0 then 1 else |childProcMap|
    {
      if pid > 0 {
        polled := [childProcMap[pid]];
      } else {
        polled := [];
        var todo := childProcMap.Keys;
        while todo != {}
          invariant todo <= childProcMap.Keys && |polled| == |childProcMap.Keys| - |todo|
          invariant forall fd :: fd in polled <==> fd in pollFDToProcMap && pollFDToProcMap[fd] !in todo
        {
          var p :| p in todo;
          todo := todo - {p};
          polled := polled + [childProcMap[p]];
        }
      }
    }

    /** Try the ready descriptors of one round in order, up to the first child that is over. */
    method TryReap(pid: int, polled: seq<nat>, r: Round) returns (out: Outcome)
      requires Valid() && r.poll.Ready?
      requires forall fd :: fd in polled <==> fd in pollFDToProcMap && Asked(pid, pollFDToProcMap[fd])
      modifies this
      ensures Valid() && (out.Nothing? || out.Reported?)
      ensures out.Nothing? ==> unchanged(this) && Quiet(pid, r)
      ensures out.Reported? ==>
        && old(Asked(pid, out.pid)) && old(childProcMap[out.pid]) in r.poll.fds
        && (r.waits(out.pid) == Exited(out.status) || (r.waits(out.pid) == NoChild && out.status == 0))
        && !old(Quiet(pid, r))
        && Table() == P.Removed(old(Table()), out.pid, old(childProcMap[out.pid]))
        && closed == old(closed) + [old(childProcMap[out.pid])]
    {
      for k := 0 to |polled|
        invariant Valid() && unchanged(this)
        invariant forall j :: 0 <= j < k && polled[j] in r.poll.fds ==>
          r.waits(pollFDToProcMap[polled[j]]) == StillRunning
      {
        var fd := polled[k];
        if fd in r.poll.fds {
          assert fd in polled;
          var p := pollFDToProcMap[fd];
          var w := r.waits(p);
          if w != StillRunning {
            out := Reported(p, if w.Exited? then w.status else 0);
            closed := closed + [fd];
            childProcMap := childProcMap - {p};
            pollFDToProcMap := pollFDToProcMap - {fd};
            return;
          }
        }
      }
      out := Nothing;
      forall p | Asked(pid, p) && childProcMap[p] in r.poll.fds ensures r.waits(p) == StillRunning {
        assert childProcMap[p] in polled;
      }
    }

    /** `ProcessWaitPID`. It reports only children it was asked for, removes a child from both
        maps and closes its read end exactly when it reports it, and polls once with WNOHANG. */
    method WaitPid(pid: int, nohang: bool, rounds: seq<Round>) returns (out: Outcome, used: nat)
      requires Valid()
      modifies this
      ensures Valid() && used <= |rounds|
      ensures out.NoChildren? <==> old(Childless(pid))
      ensures out.Reported? ==>
        && (pid > 0 ==> out.pid == pid) && out.pid in old(childProcMap)
        && Table() == P.Removed(old(Table()), out.pid, old(childProcMap[out.pid]))
        && closed == old(closed) + [old(childProcMap[out.pid])]
        && used > 0
        && var r := rounds[used - 1];
           && r.poll.Ready? && old(childProcMap)[out.pid] in r.poll.fds
           && (r.waits(out.pid) == Exited(out.status) || (r.waits(out.pid) == NoChild && out.status == 0))
      ensures !out.Reported? ==> unchanged(this)
      ensures forall k :: 0 <= k < used - 1 ==> old(Quiet(pid, rounds[k]))
      ensures out.Nothing? ==>
        && used > 0
        && (rounds[used - 1].poll == TimedOut || (nohang && old(Quiet(pid, rounds[used - 1]))))
      ensures out.Failed? ==> used > 0 && rounds[used - 1].poll == PollFailed(out.err)
      ensures used > 0 ==>
        match rounds[used - 1].poll
        case PollFailed(err) => out == Failed(err)
        case TimedOut => out == Nothing
        case Ready(fds) =>
          if exists p :: p in old(childProcMap) && (pid > 0 ==> p == pid)
                         && old(childProcMap)[p] in fds && rounds[used - 1].waits(p) != StillRunning
          then out.Reported?
          else out == if nohang then Nothing else Blocked
      ensures out.Blocked? ==> used == |rounds| && (nohang ==> used == 0)
      ensures nohang ==> used <= 1
    {
      used := 0;
      while true
        invariant Valid() && unchanged(this) && used <= |rounds|
        invariant used > 0 ==> !nohang && !Childless(pid)
        invariant forall k :: 0 <= k < used ==> Quiet(pid, rounds[k])
        decreases |rounds| - used
      {
        if pid > 0 {
          if pid !in childProcMap { return NoChildren, used; }
        } else {
          if childProcMap == map[] { return NoChildren, used; }
        }
        if used == |rounds| { return Blocked, used; }
        var polled := Snapshot(pid);
        var r := rounds[used];
        used := used + 1;
        match r.poll {
          case PollFailed(err) => return Failed(err), used;
          case TimedOut => return Nothing, used;
          case Ready(_) =>
            out := TryReap(pid, polled, r);
            if out.Reported? || nohang { return; }
        }
      }
    }
  }
}
