/** What the process protocol guarantees over whole runs. */
module ProcessTheorems {
  import opened Prelude
  import opened ProcessProtocol
  import opened ProcessInvariant

  lemma {:induction false} ReachableInv(run: seq<Label>)
    requires IsRun(Initial, run)
    ensures Inv(After(Initial, run))
  {
    InitialInv();
    RunKeepsInv(Initial, run);
  }

  /** The spawner of child `c` is still between fork and closing the write end. */
  predicate SpawnerHolds(s: State, c: nat)
    requires Is(s, c)
  {
    var pc := At(s, s.children[c].spawner);
    pc.Forked? && pc.child == c
  }

  predicate FamilyHolds(s: State, c: nat)
    requires Is(s, c)
  {
    exists pid :: pid in s.procs && s.procs[pid].root == c && s.children[c].pipe in s.procs[pid].holds
  }

  /** The read end of child `c` signals hang-up: nobody has the write end. */
  predicate HungUp(s: State, c: nat)
    requires Is(s, c)
  {
    && (forall fd :: fd in s.fds ==> s.fds[fd] != WriteEnd(s.children[c].pipe))
    && (forall pid :: pid in s.procs ==> s.children[c].pipe !in s.procs[pid].holds)
  }

  /** With spawns running concurrently from any number of instances, the only holders of a
      child's write end are that child, its own descendants and, inside the spawn critical
      section, its spawner; so a read end hangs up exactly when all of these have let go, and
      never waits for a sibling. */
  lemma {:induction false} HangUpIffFamilyLetGo(run: seq<Label>, c: nat)
    requires IsRun(Initial, run) && Is(After(Initial, run), c)
    ensures var s := After(Initial, run);
      HungUp(s, c) <==> !SpawnerHolds(s, c) && !FamilyHolds(s, c)
  {
    ReachableInv(run);
    var s := After(Initial, run);
    var pipe := s.children[c].pipe;
    assert SpawnerOk(s, s.children[c].spawner);
    if !SpawnerHolds(s, c) {
      forall fd | fd in s.fds ensures s.fds[fd] != WriteEnd(pipe) {
        if s.fds[fd] == WriteEnd(pipe) {
          assert FdOk(s, fd);
          WriteEndIsOwnSpawners(s, fd, c);
        }
      }
    }
    forall pid | pid in s.procs && pipe in s.procs[pid].holds ensures s.procs[pid].root == c {
      assert ProcOk(s, pid);
      assert s.children[s.procs[pid].root].pipe == pipe;
    }
  }

  lemma WriteEndIsOwnSpawners(s: State, fd: nat, c: nat)
    requires Inv(s) && Is(s, c) && fd in s.fds && s.fds[fd] == WriteEnd(s.children[c].pipe)
    ensures SpawnerHolds(s, c)
  {
    assert FdOk(s, fd);
    var t := s.spawnLock.value;
    assert SpawnerOk(s, t);
    assert At(s, t).Forked?;
    assert s.children[At(s, t).child].pipe == s.children[c].pipe;
  }

  /** The two maps of every instance are inverse to each other, and an entry is always a child
      `waitpid` knows: the branch for an unknown child is never taken. */
  lemma {:induction false} TablesStayInverse(run: seq<Label>, inst: nat, pid: nat, fd: nat)
    requires IsRun(Initial, run)
    ensures var s := After(Initial, run); var m := Table(s, inst);
      && (pid in m.childMap && m.childMap[pid] == fd <==> fd in m.fdMap && m.fdMap[fd] == pid)
      && (pid in m.childMap ==> WaitPid(s, pid) != NoChild)
      && s.phantoms == 0
  {
    ReachableInv(run);
    assert TableOk(After(Initial, run), inst);
  }

  /** Every successfully spawned child is in flight to the table, in its instance's table, or
      reported: in exactly one of these, reported at most once, and its read end is open until
      it is reported and closed from then on. */
  lemma {:induction false} ChildrenAreConserved(run: seq<Label>, c: nat)
    requires IsRun(Initial, run) && Is(After(Initial, run), c)
    ensures var s := After(Initial, run); var rd := s.children[c].rd;
      && Distinct(s.reported)
      && (c in s.reported ==> !InFlight(s, c) && !Tabled(s, c))
      && (c !in s.reported ==> (InFlight(s, c) <==> !Tabled(s, c)))
      && (c !in s.reported ==> rd in s.fds && s.fds[rd] == ReadEnd(s.children[c].pipe))
      && (c in s.reported ==> ReadEnd(s.children[c].pipe) !in s.fds.Values)
  {
    ReachableInv(run);
    assert ChildOk(After(Initial, run), c);
  }

  /** No two children awaiting their report share a process id or a read end. */
  lemma {:induction false} LiveChildrenDiffer(run: seq<Label>, c: nat, d: nat)
    requires IsRun(Initial, run) && Is(After(Initial, run), c) && Is(After(Initial, run), d) && c != d
    requires c !in After(Initial, run).reported && d !in After(Initial, run).reported
    ensures var s := After(Initial, run);
      s.children[c].pid != s.children[d].pid && s.children[c].rd != s.children[d].rd
  {
    ReachableInv(run);
    Distinguished(After(Initial, run), c, d);
  }

  /** The wait's critical section reports a tabled child exactly when its process has exited,
      and otherwise changes nothing, whichever descriptor, stale or not, led to it. */
  lemma ReapReportsTheExited(s: State, inst: nat, fd: nat, c: nat)
    requires Inv(s) && Is(s, c) && c !in s.reported
    ensures var s' := Apply(s, Reap(inst, fd));
      && (c in s'.reported <==>
            Tabled(s, c) && s.children[c].inst == inst && s.children[c].rd == fd && s.procs[s.children[c].pid].exited)
      && (s'.reported == s.reported ==> s' == s)
  {
    assert ChildOk(s, c) && TableOk(s, inst);
    if fd in Table(s, inst).fdMap {
      var d := EntryChild(s, inst, fd);
      if d != c { Distinguished(s, c, d); }
    }
  }

  lemma {:induction false} ReportsAreFinal(s: State, run: seq<Label>)
    requires Inv(s) && IsRun(s, run)
    ensures s.reported <= After(s, run).reported
    decreases |run|
  {
    if run != [] {
      StepKeepsInv(s, run[0]);
      ReportsAreFinal(Apply(s, run[0]), run[1..]);
    }
  }

  /** Without the global lock two spawns can overlap: the second child then inherits the first
      one's write end, and the first read end would not hang up before the second child is gone. */
  lemma OverlappingSpawnsLeakWriteEnd(a: nat, b: nat, inst: nat) returns (s: State)
    requires a != b
    ensures |s.children| == 2 && s.children[0].pipe != s.children[1].pipe
    ensures s.children[0].pid in s.procs && s.children[1].pipe in s.procs[s.children[0].pid].holds
    ensures At(s, a) == Inserting(inst, 1) && At(s, b) == Inserting(inst, 0)
  {
    s := Apply(Initial, Lock(a, inst));
    s := Apply(s, MakePipe(a, true, 3, 4));
    assert Ready(s, Lock(b, inst)) && !Enabled(s, Lock(b, inst));
    s := Apply(s, Lock(b, inst));
    s := Apply(s, MakePipe(b, true, 5, 6));
    assert s.fds[4] == WriteEnd(0) && s.fds[6] == WriteEnd(1);
    assert (s.fds - {})[4] == WriteEnd(0);
    s := Apply(s, Fork(b, true, 100, {}));
    assert 0 in s.procs[100].holds;
    s := Apply(s, CloseEnds(b));
    s := Apply(s, Fork(a, true, 101, {}));
    s := Apply(s, CloseEnds(a));
  }
}
