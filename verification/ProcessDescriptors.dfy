/** No pipe end is leaked: every one that is open in the host belongs to a spawn under way or to a
    child whose end is still to be reported. */
module ProcessDescriptors {
  import opened Prelude
  import opened ProcessProtocol
  import opened ProcessInvariant

  /** Descriptor `fd` is the read end a spawner inside the lock has made and not yet given to a
      child or closed. */
  predicate ReadInSpawn(s: State, fd: nat, pipe: nat) {
    && s.spawnLock.Some?
    && var pc := At(s, s.spawnLock.value);
       (pc.Piped? || pc.ForkFailed?) && pc.rd == fd && pc.pipe == pipe
  }

  predicate ReadOf(s: State, c: nat, fd: nat, pipe: nat) {
    Is(s, c) && c !in s.reported && s.children[c].rd == fd && s.children[c].pipe == pipe
  }

  ghost predicate ReadOwned(s: State, fd: nat, pipe: nat) {
    ReadInSpawn(s, fd, pipe) || exists c :: ReadOf(s, c, fd, pipe)
  }

  ghost predicate ReadsOwned(s: State) {
    forall fd :: fd in s.fds && s.fds[fd].ReadEnd? ==> ReadOwned(s, fd, s.fds[fd].pipe)
  }

  /** Children and their reports are untouched. */
  lemma ChildrenKeepReads(s: State, s': State, fd: nat, pipe: nat)
    requires s.children <= s'.children && s'.reported == s.reported
    requires ReadOwned(s, fd, pipe) && !ReadInSpawn(s, fd, pipe)
    ensures ReadOwned(s', fd, pipe)
  {
    var c :| ReadOf(s, c, fd, pipe);
    assert ReadOf(s', c, fd, pipe);
  }

  lemma SpawnKeepsReads(s: State, l: Label)
    requires Inv(s) && ReadsOwned(s) && Enabled(s, l) && (l.Lock? || l.MakePipe? || l.CloseEnds?)
    ensures ReadsOwned(Apply(s, l))
  {
    var s' := Apply(s, l);
    assert SpawnerOk(s, l.t);
    forall fd | fd in s'.fds && s'.fds[fd].ReadEnd? ensures ReadOwned(s', fd, s'.fds[fd].pipe) {
      if !ReadInSpawn(s', fd, s'.fds[fd].pipe) {
        ChildrenKeepReads(s, s', fd, s.fds[fd].pipe);
      }
    }
  }

  lemma ForkKeepsReads(s: State, t: nat, ok: bool, pid: nat, over: set<nat>)
    requires Inv(s) && ReadsOwned(s) && Enabled(s, Fork(t, ok, pid, over))
    ensures ReadsOwned(Apply(s, Fork(t, ok, pid, over)))
  {
    var s' := Apply(s, Fork(t, ok, pid, over));
    assert SpawnerOk(s, t);
    forall fd | fd in s'.fds && s'.fds[fd].ReadEnd? ensures ReadOwned(s', fd, s'.fds[fd].pipe) {
      var p := s.fds[fd].pipe;
      if ReadInSpawn(s, fd, p) {
        assert ok ==> ReadOf(s', |s.children|, fd, p);
      } else {
        ChildrenKeepReads(s, s', fd, p);
      }
    }
  }

  lemma ReapKeepsReads(s: State, inst: nat, fd: nat)
    requires Inv(s) && ReadsOwned(s)
    ensures ReadsOwned(Reaping(s, inst, fd))
  {
    var s' := Reaping(s, inst, fd);
    if s' != s {
      var c := EntryChild(s, inst, fd);
      forall f | f in s'.fds && s'.fds[f].ReadEnd? ensures ReadOwned(s', f, s'.fds[f].pipe) {
        if !ReadInSpawn(s, f, s.fds[f].pipe) {
          var d :| ReadOf(s, d, f, s.fds[f].pipe);
          assert ReadOf(s', d, f, s'.fds[f].pipe);
        }
      }
    }
  }

  /** Steps that neither spawn nor reap leave pipe ends, spawners and children as they are. */
  lemma OthersKeepReads(s: State, s': State)
    requires ReadsOwned(s)
    requires s'.children == s.children && s'.reported == s.reported && s'.spawnLock == s.spawnLock
    requires s.spawnLock.Some? ==> At(s', s.spawnLock.value) == At(s, s.spawnLock.value) || !InCritical(At(s, s.spawnLock.value))
    requires forall fd :: fd in s'.fds && s'.fds[fd].ReadEnd? ==> fd in s.fds && s.fds[fd] == s'.fds[fd]
    ensures ReadsOwned(s')
  {
    forall fd | fd in s'.fds && s'.fds[fd].ReadEnd? ensures ReadOwned(s', fd, s'.fds[fd].pipe) {
      if !ReadInSpawn(s, fd, s.fds[fd].pipe) {
        ChildrenKeepReads(s, s', fd, s.fds[fd].pipe);
      }
    }
  }

  lemma StepKeepsReads(s: State, l: Label)
    requires Inv(s) && ReadsOwned(s) && Enabled(s, l)
    ensures ReadsOwned(Apply(s, l))
  {
    if l.Lock? || l.MakePipe? || l.CloseEnds? {
      SpawnKeepsReads(s, l);
    } else if l.Fork? {
      ForkKeepsReads(s, l.t, l.ok, l.pid, l.over);
    } else if l.Reap? {
      ReapKeepsReads(s, l.inst, l.fd);
    } else {
      assert l.Insert? ==> SpawnerOk(s, l.t);
      OthersKeepReads(s, Apply(s, l));
    }
  }

  lemma {:induction false} RunKeepsReads(s: State, run: seq<Label>)
    requires Inv(s) && ReadsOwned(s) && IsRun(s, run)
    ensures Inv(After(s, run)) && ReadsOwned(After(s, run))
    decreases |run|
  {
    if run != [] {
      StepKeepsReads(s, run[0]);
      StepKeepsInv(s, run[0]);
      RunKeepsReads(Apply(s, run[0]), run[1..]);
    }
  }

  /** Over every run, failed spawns among its steps, an open read end is that of a spawner between
      its pipe and its fork, or of one whose fork failed and who is about to close it, or of a
      child not reported yet; and an open write end is that of a spawner inside the lock. */
  lemma {:induction false} NoPipeEndIsLeaked(run: seq<Label>, fd: nat)
    requires IsRun(Initial, run) && fd in After(Initial, run).fds
    ensures var s := After(Initial, run);
      match s.fds[fd]
      case ReadEnd(p) => ReadInSpawn(s, fd, p) || exists c :: ReadOf(s, c, fd, p)
      case WriteEnd(_) => OpenedInSpawn(s, fd)
      case OtherFile => true
  {
    InitialInv();
    RunKeepsReads(Initial, run);
    assert FdOk(After(Initial, run), fd);
  }

  /** So when no spawn holds the lock, the open pipe ends are exactly the read ends of the children
      not reported yet. */
  lemma {:induction false} QuietHostHoldsChildrensEnds(run: seq<Label>, fd: nat, pipe: nat)
    requires IsRun(Initial, run) && After(Initial, run).spawnLock.None?
    ensures var s := After(Initial, run);
      && (fd in s.fds && s.fds[fd] == ReadEnd(pipe) <==> exists c :: ReadOf(s, c, fd, pipe))
      && !(fd in s.fds && s.fds[fd].WriteEnd?)
  {
    InitialInv();
    RunKeepsReads(Initial, run);
    var s := After(Initial, run);
    if fd in s.fds {
      assert FdOk(s, fd);
    }
    if c :| ReadOf(s, c, fd, pipe) {
      assert ChildOk(s, c);
    }
  }
}
