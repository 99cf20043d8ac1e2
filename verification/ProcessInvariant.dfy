/** The invariant of the process protocol. */
module ProcessInvariant {
  import opened Prelude
  import opened ProcessProtocol

  predicate Is(s: State, c: nat) {
    c < |s.children|
  }

  predicate InCritical(pc: Spawner) {
    pc.Locked? || pc.Piped? || pc.ForkFailed? || pc.Forked?
  }

  /** The spawn that made child `c` has not put it into the table yet. */
  predicate InFlight(s: State, c: nat)
    requires Is(s, c)
  {
    var pc := At(s, s.children[c].spawner);
    (pc.Forked? || pc.Inserting?) && pc.child == c
  }

  /** The process of child `c` has not been reaped. */
  predicate Unreaped(s: State, c: nat)
    requires Is(s, c)
  {
    var pid := s.children[c].pid;
    pid in s.procs && s.procs[pid].direct && s.procs[pid].root == c
  }

  predicate Tabled(s: State, c: nat)
    requires Is(s, c)
  {
    var child := s.children[c];
    var m := Table(s, child.inst);
    && Unreaped(s, c)
    && child.pid in m.childMap && m.childMap[child.pid] == child.rd
    && child.rd in m.fdMap && m.fdMap[child.rd] == child.pid
  }

  /** Descriptor `rd` is the one open read end of `pipe`. */
  ghost predicate OnlyReadEnd(s: State, rd: nat, pipe: nat) {
    && rd in s.fds && s.fds[rd] == ReadEnd(pipe)
    && forall fd :: fd in s.fds && s.fds[fd] == ReadEnd(pipe) ==> fd == rd
  }

  /** A child is in flight, in the table or reported, and in no two of these. */
  ghost predicate ChildOk(s: State, c: nat)
    requires Is(s, c)
  {
    var child := s.children[c];
    && child.pipe < s.pipes
    && (InFlight(s, c) ==> At(s, child.spawner).inst == child.inst)
    && if c in s.reported
       then !InFlight(s, c) && !Unreaped(s, c)
            && forall fd :: fd in s.fds ==> s.fds[fd] != ReadEnd(child.pipe)
       else Unreaped(s, c) && OnlyReadEnd(s, child.rd, child.pipe)
            && (InFlight(s, c) <==> !Tabled(s, c))
  }

  ghost predicate SpawnerOk(s: State, t: nat) {
    var pc := At(s, t);
    && (InCritical(pc) <==> s.spawnLock == Some(t))
    && (pc.Piped? || pc.ForkFailed? ==>
          && pc.pipe < s.pipes && pc.rd != pc.wr
          && OnlyReadEnd(s, pc.rd, pc.pipe)
          && pc.wr in s.fds && s.fds[pc.wr] == WriteEnd(pc.pipe)
          && forall c :: 0 <= c < |s.children| ==> s.children[c].pipe != pc.pipe)
    && (pc.Forked? ==>
          Is(s, pc.child) && pc.wr in s.fds && s.fds[pc.wr] == WriteEnd(s.children[pc.child].pipe))
    && (pc.Forked? || pc.Inserting? ==>
          Is(s, pc.child) && s.children[pc.child].spawner == t && s.children[pc.child].inst == pc.inst)
  }

  /** Descriptor `fd` is the write end the spawner holding the lock has yet to close. */
  predicate OpenedInSpawn(s: State, fd: nat) {
    && s.spawnLock.Some?
    && var pc := At(s, s.spawnLock.value);
       (pc.Piped? || pc.ForkFailed? || pc.Forked?) && pc.wr == fd
  }

  predicate FdOk(s: State, fd: nat)
    requires fd in s.fds
  {
    match s.fds[fd]
    case ReadEnd(p) => p < s.pipes
    case WriteEnd(p) => p < s.pipes && OpenedInSpawn(s, fd)
    case OtherFile => true
  }

  /** A process holds at most the write end of its own family. */
  predicate ProcOk(s: State, pid: nat)
    requires pid in s.procs
  {
    var p := s.procs[pid];
    && Is(s, p.root)
    && p.holds <= {s.children[p.root].pipe}
    && (p.exited ==> p.holds == {})
    && (p.direct ==> s.children[p.root].pid == pid && p.root !in s.reported)
  }

  /** The two maps are inverse, and each entry is an unreaped child of the instance. */
  ghost predicate TableOk(s: State, inst: nat) {
    var m := Table(s, inst);
    && (forall pid :: pid in m.childMap ==>
          && m.childMap[pid] in m.fdMap && m.fdMap[m.childMap[pid]] == pid
          && pid in s.procs && s.procs[pid].direct && Is(s, s.procs[pid].root)
          && var child := s.children[s.procs[pid].root];
             child.pid == pid && child.rd == m.childMap[pid] && child.inst == inst)
    && (forall fd :: fd in m.fdMap ==>
          m.fdMap[fd] in m.childMap && m.childMap[m.fdMap[fd]] == fd)
  }

  ghost predicate ChildrenOk(s: State) {
    && (forall c :: 0 <= c < |s.children| ==> ChildOk(s, c))
    && (forall c, d :: 0 <= c < d < |s.children| ==> s.children[c].pipe != s.children[d].pipe)
    && Distinct(s.reported) && (forall c :: c in s.reported ==> Is(s, c))
    && s.phantoms == 0
  }

  ghost predicate SpawnersOk(s: State) {
    forall t :: SpawnerOk(s, t)
  }

  ghost predicate FdsOk(s: State) {
    forall fd :: fd in s.fds ==> FdOk(s, fd)
  }

  ghost predicate ProcsOk(s: State) {
    forall pid :: pid in s.procs ==> ProcOk(s, pid)
  }

  ghost predicate TablesOk(s: State) {
    forall inst :: TableOk(s, inst)
  }

  ghost predicate Inv(s: State) {
    ChildrenOk(s) && SpawnersOk(s) && FdsOk(s) && ProcsOk(s) && TablesOk(s)
  }

  lemma InitialInv()
    ensures Inv(Initial)
  {
  }

  /** The tables are untouched and every unreaped direct child is still there. */
  lemma KeepTables(s: State, s': State)
    requires TablesOk(s) && s'.managers == s.managers && s.children <= s'.children
    requires forall pid :: pid in s.procs && s.procs[pid].direct ==>
      pid in s'.procs && s'.procs[pid].direct && s'.procs[pid].root == s.procs[pid].root
    ensures TablesOk(s')
  {
    forall i ensures TableOk(s', i) {
      KeepTable(s, s', i);
    }
  }

  lemma KeepTable(s: State, s': State, inst: nat)
    requires TableOk(s, inst) && Table(s', inst) == Table(s, inst) && s.children <= s'.children
    requires forall pid :: pid in s.procs && s.procs[pid].direct ==>
      pid in s'.procs && s'.procs[pid].direct && s'.procs[pid].root == s.procs[pid].root
    ensures TableOk(s', inst)
  {
    var m := Table(s, inst);
    forall pid | pid in m.childMap
      ensures pid in s'.procs && s'.procs[pid].direct && s'.procs[pid].root == s.procs[pid].root
    {
      assert pid in s.procs && s.procs[pid].direct;
    }
  }

  lemma HostOpenKeepsInv(s: State, fd: nat, s': State)
    requires Inv(s) && Enabled(s, HostOpen(fd)) && s' == Apply(s, HostOpen(fd))
    ensures Inv(s')
  {
    forall c | 0 <= c < |s'.children| ensures ChildOk(s', c) { assert ChildOk(s, c); }
    forall u ensures SpawnerOk(s', u) { assert SpawnerOk(s, u); }
    forall f | f in s'.fds ensures FdOk(s', f) { if f in s.fds { assert FdOk(s, f); } }
    forall p | p in s'.procs ensures ProcOk(s', p) { if p in s.procs { assert ProcOk(s, p); } }
    KeepTables(s, s');
  }

  lemma HostCloseKeepsInv(s: State, fd: nat, s': State)
    requires Inv(s) && Enabled(s, HostClose(fd)) && s' == Apply(s, HostClose(fd))
    ensures Inv(s')
  {
    forall c | 0 <= c < |s'.children| ensures ChildOk(s', c) { assert ChildOk(s, c); }
    forall u ensures SpawnerOk(s', u) { assert SpawnerOk(s, u); }
    forall f | f in s'.fds ensures FdOk(s', f) { if f in s.fds { assert FdOk(s, f); } }
    forall p | p in s'.procs ensures ProcOk(s', p) { if p in s.procs { assert ProcOk(s, p); } }
    KeepTables(s, s');
  }

  lemma LockKeepsInv(s: State, t: nat, inst: nat, s': State)
    requires Inv(s) && Enabled(s, Lock(t, inst)) && s' == Apply(s, Lock(t, inst))
    ensures Inv(s')
  {
    forall c | 0 <= c < |s'.children| ensures ChildOk(s', c) { assert ChildOk(s, c); }
    forall u ensures SpawnerOk(s', u) { assert SpawnerOk(s, u); }
    forall f | f in s'.fds ensures FdOk(s', f) { if f in s.fds { assert FdOk(s, f); } }
    forall p | p in s'.procs ensures ProcOk(s', p) { if p in s.procs { assert ProcOk(s, p); } }
    KeepTables(s, s');
  }

  lemma PipeKeepsChildren(s: State, t: nat, rd: nat, wr: nat, s': State)
    requires Inv(s) && Enabled(s, MakePipe(t, true, rd, wr)) && s' == Apply(s, MakePipe(t, true, rd, wr))
    ensures ChildrenOk(s') && SpawnerOk(s', t)
  {
    assert SpawnerOk(s, t);
    assert forall f :: f in s.fds ==> FdOk(s, f);
    forall c | 0 <= c < |s.children| ensures ChildOk(s', c) && s.children[c].pipe < s.pipes { assert ChildOk(s, c); }
  }

  lemma MakePipeKeepsInv(s: State, t: nat, ok: bool, rd: nat, wr: nat, s': State)
    requires Inv(s) && Enabled(s, MakePipe(t, ok, rd, wr)) && s' == Apply(s, MakePipe(t, ok, rd, wr))
    ensures Inv(s')
  {
    assert SpawnerOk(s, t);
    if ok {
      PipeKeepsChildren(s, t, rd, wr, s');
    } else {
      forall c | 0 <= c < |s'.children| ensures ChildOk(s', c) { assert ChildOk(s, c); }
    }
    forall u ensures SpawnerOk(s', u) { assert SpawnerOk(s, u); }
    forall f | f in s'.fds ensures FdOk(s', f) { if f in s.fds { assert FdOk(s, f); } }
    forall p | p in s'.procs ensures ProcOk(s', p) { if p in s.procs { assert ProcOk(s, p); } }
    KeepTables(s, s');
  }

  /** Whatever else the host has open, a child forked under the lock inherits no write end but
      its own, and that one exactly unless a dup2 action replaces it, which takes a host that was
      started with a standard stream closed. */
  lemma InheritsOwnPipe(s: State, t: nat, over: set<nat>)
    requires SpawnersOk(s) && FdsOk(s) && At(s, t).Piped?
    ensures Inherited(s, over) == if At(s, t).wr in over then {} else {At(s, t).pipe}
    ensures over <= {0, 1, 2} && At(s, t).wr >= 3 ==> Inherited(s, over) == {At(s, t).pipe}
  {
    assert SpawnerOk(s, t);
    var pc := At(s, t);
    forall p: nat | p in Inherited(s, over) ensures p == pc.pipe && pc.wr !in over {
      var fd :| fd in s.fds - over && s.fds[fd] == WriteEnd(p);
      assert FdOk(s, fd);
    }
    if pc.wr !in over {
      assert pc.wr in s.fds - over && (s.fds - over)[pc.wr] == WriteEnd(pc.pipe);
    }
  }

  lemma ForkKeepsChildren(s: State, t: nat, pid: nat, over: set<nat>, s': State)
    requires Inv(s) && Enabled(s, Fork(t, true, pid, over)) && s' == Apply(s, Fork(t, true, pid, over))
    ensures ChildrenOk(s')
  {
    assert SpawnerOk(s, t) && TableOk(s, At(s, t).inst);
    forall c | 0 <= c < |s'.children| ensures ChildOk(s', c) {
      if c < |s.children| { assert ChildOk(s, c); }
    }
  }

  lemma ForkedKeepsInv(s: State, t: nat, pid: nat, over: set<nat>, s': State)
    requires Inv(s) && Enabled(s, Fork(t, true, pid, over)) && s' == Apply(s, Fork(t, true, pid, over))
    ensures Inv(s')
  {
    assert SpawnerOk(s, t);
    ForkKeepsChildren(s, t, pid, over, s');
    InheritsOwnPipe(s, t, over);
    forall u ensures SpawnerOk(s', u) { assert SpawnerOk(s, u); }
    forall f | f in s'.fds ensures FdOk(s', f) { assert FdOk(s, f); }
    forall p | p in s'.procs ensures ProcOk(s', p) { if p in s.procs { assert ProcOk(s, p); } }
    KeepTables(s, s');
  }

  lemma ForkKeepsInv(s: State, t: nat, ok: bool, pid: nat, over: set<nat>, s': State)
    requires Inv(s) && Enabled(s, Fork(t, ok, pid, over)) && s' == Apply(s, Fork(t, ok, pid, over))
    ensures Inv(s')
  {
    if ok {
      ForkedKeepsInv(s, t, pid, over, s');
    } else {
      assert SpawnerOk(s, t);
      forall c | 0 <= c < |s'.children| ensures ChildOk(s', c) { assert ChildOk(s, c); }
      forall u ensures SpawnerOk(s', u) { assert SpawnerOk(s, u); }
      forall f | f in s'.fds ensures FdOk(s', f) { assert FdOk(s, f); }
      forall p | p in s'.procs ensures ProcOk(s', p) { assert ProcOk(s, p); }
      KeepTables(s, s');
    }
  }

  lemma CloseKeepsChildren(s: State, t: nat, s': State)
    requires Inv(s) && Enabled(s, CloseEnds(t)) && s' == Apply(s, CloseEnds(t))
    ensures ChildrenOk(s')
  {
    assert SpawnerOk(s, t);
    forall c | 0 <= c < |s'.children| ensures ChildOk(s', c) { assert ChildOk(s, c); }
  }

  lemma CloseEndsKeepsInv(s: State, t: nat, s': State)
    requires Inv(s) && Enabled(s, CloseEnds(t)) && s' == Apply(s, CloseEnds(t))
    ensures Inv(s')
  {
    assert SpawnerOk(s, t);
    CloseKeepsChildren(s, t, s');
    forall u ensures SpawnerOk(s', u) { assert SpawnerOk(s, u); }
    forall f | f in s'.fds ensures FdOk(s', f) { if f in s.fds { assert FdOk(s, f); } }
    forall p | p in s'.procs ensures ProcOk(s', p) { if p in s.procs { assert ProcOk(s, p); } }
    KeepTables(s, s');
  }

  /** Children not yet reported have their process id and read end to themselves. */
  lemma Distinguished(s: State, c: nat, d: nat)
    requires ChildrenOk(s) && Is(s, c) && Is(s, d) && c != d && c !in s.reported && d !in s.reported
    ensures s.children[c].pid != s.children[d].pid && s.children[c].rd != s.children[d].rd
  {
    assert ChildOk(s, c) && ChildOk(s, d);
    assert s.children[c].pipe != s.children[d].pipe;
  }

  lemma InsertKeepsTable(s: State, inst: nat, c: nat, s': State)
    requires ChildrenOk(s) && TableOk(s, inst) && ProcsOk(s) && Is(s, c) && c !in s.reported && !Tabled(s, c)
    requires Unreaped(s, c) && s.children[c].inst == inst && s'.procs == s.procs && s'.children == s.children
    requires var child := s.children[c]; var m := Table(s, inst);
      Table(s', inst) == Manager(m.childMap[child.pid := child.rd], m.fdMap[child.rd := child.pid])
    ensures TableOk(s', inst)
  {
    var child := s.children[c];
    var m := Table(s, inst);
    forall pid | pid in m.childMap ensures pid != child.pid && m.childMap[pid] != child.rd {
      var d := s.procs[pid].root;
      assert ProcOk(s, pid);
      if d != c { Distinguished(s, c, d); }
    }
  }

  /** Every table entry is an unreaped child of the instance, so `waitpid` knows it. */
  lemma EntryChild(s: State, inst: nat, fd: nat) returns (c: nat)
    requires Inv(s) && fd in Table(s, inst).fdMap
    ensures Is(s, c) && c !in s.reported && Tabled(s, c)
    ensures s.children[c].rd == fd && s.children[c].inst == inst
    ensures Table(s, inst).fdMap[fd] == s.children[c].pid
    ensures WaitPid(s, s.children[c].pid) != NoChild && s.procs[s.children[c].pid].root == c
  {
    assert TableOk(s, inst);
    var pid := Table(s, inst).fdMap[fd];
    c := s.procs[pid].root;
    assert ProcOk(s, pid);
  }

  lemma InsertKeepsChildren(s: State, t: nat, s': State)
    requires Inv(s) && Enabled(s, Insert(t)) && s' == Apply(s, Insert(t))
    ensures ChildrenOk(s')
  {
    assert SpawnerOk(s, t);
    var c := At(s, t).child;
    assert ChildOk(s, c);
    forall d | 0 <= d < |s.children| ensures ChildOk(s', d) {
      assert ChildOk(s, d);
      if d != c && d !in s.reported { Distinguished(s, c, d); }
    }
  }

  lemma InsertKeepsInv(s: State, t: nat, s': State)
    requires Inv(s) && Enabled(s, Insert(t)) && s' == Apply(s, Insert(t))
    ensures Inv(s')
  {
    assert SpawnerOk(s, t);
    var c := At(s, t).child;
    assert ChildOk(s, c);
    InsertKeepsChildren(s, t, s');
    forall u ensures SpawnerOk(s', u) { assert SpawnerOk(s, u); }
    forall f | f in s'.fds ensures FdOk(s', f) { assert FdOk(s, f); }
    forall p | p in s'.procs ensures ProcOk(s', p) { assert ProcOk(s, p); }
    forall i ensures TableOk(s', i) {
      assert TableOk(s, i);
      if i == At(s, t).inst {
        InsertKeepsTable(s, i, c, s');
      }
    }
  }

  lemma ProcForkKeepsInv(s: State, pid: nat, newPid: nat, s': State)
    requires Inv(s) && Enabled(s, ProcFork(pid, newPid)) && s' == Apply(s, ProcFork(pid, newPid))
    ensures Inv(s')
  {
    forall c | 0 <= c < |s'.children| ensures ChildOk(s', c) { assert ChildOk(s, c); }
    forall u ensures SpawnerOk(s', u) { assert SpawnerOk(s, u); }
    forall f | f in s'.fds ensures FdOk(s', f) { if f in s.fds { assert FdOk(s, f); } }
    forall p | p in s'.procs ensures ProcOk(s', p) { if p in s.procs { assert ProcOk(s, p); } }
    KeepTables(s, s');
  }

  lemma ProcCloseKeepsInv(s: State, pid: nat, pipe: nat, s': State)
    requires Inv(s) && Enabled(s, ProcClose(pid, pipe)) && s' == Apply(s, ProcClose(pid, pipe))
    ensures Inv(s')
  {
    forall c | 0 <= c < |s'.children| ensures ChildOk(s', c) { assert ChildOk(s, c); }
    forall u ensures SpawnerOk(s', u) { assert SpawnerOk(s, u); }
    forall f | f in s'.fds ensures FdOk(s', f) { if f in s.fds { assert FdOk(s, f); } }
    forall p | p in s'.procs ensures ProcOk(s', p) { if p in s.procs { assert ProcOk(s, p); } }
    KeepTables(s, s');
  }

  lemma ProcExitKeepsInv(s: State, pid: nat, s': State)
    requires Inv(s) && Enabled(s, ProcExit(pid)) && s' == Apply(s, ProcExit(pid))
    ensures Inv(s')
  {
    forall c | 0 <= c < |s'.children| ensures ChildOk(s', c) { assert ChildOk(s, c); }
    forall u ensures SpawnerOk(s', u) { assert SpawnerOk(s, u); }
    forall f | f in s'.fds ensures FdOk(s', f) { if f in s.fds { assert FdOk(s, f); } }
    forall p | p in s'.procs ensures ProcOk(s', p) { if p in s.procs { assert ProcOk(s, p); } }
    KeepTables(s, s');
  }

  lemma CollectKeepsInv(s: State, pid: nat, s': State)
    requires Inv(s) && Enabled(s, Collect(pid)) && s' == Apply(s, Collect(pid))
    ensures Inv(s')
  {
    forall c | 0 <= c < |s'.children| ensures ChildOk(s', c) { assert ChildOk(s, c); }
    forall u ensures SpawnerOk(s', u) { assert SpawnerOk(s, u); }
    forall f | f in s'.fds ensures FdOk(s', f) { if f in s.fds { assert FdOk(s, f); } }
    forall p | p in s'.procs ensures ProcOk(s', p) { if p in s.procs { assert ProcOk(s, p); } }
    KeepTables(s, s');
  }

  lemma ReapKeepsOwnTable(s: State, inst: nat, c: nat, s': State)
    requires TableOk(s, inst) && Is(s, c) && Tabled(s, c) && s.children[c].inst == inst
    requires s'.children == s.children && s'.procs == s.procs - {s.children[c].pid}
    requires var m := Table(s, inst);
      Table(s', inst) == Manager(m.childMap - {s.children[c].pid}, m.fdMap - {s.children[c].rd})
    ensures TableOk(s', inst)
  {
  }

  lemma ReapKeepsOtherTable(s: State, i: nat, c: nat, s': State)
    requires TableOk(s, i) && Is(s, c) && Unreaped(s, c) && s.children[c].inst != i
    requires s'.children == s.children && s'.procs == s.procs - {s.children[c].pid}
    requires Table(s', i) == Table(s, i)
    ensures TableOk(s', i)
  {
  }

  lemma ReapKeepsChildren(s: State, inst: nat, c: nat, s': State)
    requires Inv(s) && Is(s, c) && c !in s.reported && Tabled(s, c) && s.children[c].inst == inst
    requires s'.children == s.children && s'.procs == s.procs - {s.children[c].pid}
    requires s'.fds == s.fds - {s.children[c].rd} && s'.reported == s.reported + [c]
    requires s'.pipes == s.pipes && s'.phantoms == s.phantoms && s'.spawners == s.spawners
    requires var m := Table(s, inst);
      s'.managers == s.managers[inst := Manager(m.childMap - {s.children[c].pid}, m.fdMap - {s.children[c].rd})]
    ensures forall d :: 0 <= d < |s.children| ==> ChildOk(s', d)
  {
    assert ChildOk(s, c);
    assert forall u :: At(s', u) == At(s, u);
    forall d | 0 <= d < |s.children| ensures ChildOk(s', d) {
      assert ChildOk(s, d);
      if d != c && d !in s.reported { Distinguished(s, c, d); }
    }
  }

  lemma ReapRemoves(s: State, inst: nat, fd: nat, c: nat, s': State)
    requires Inv(s) && Is(s, c) && c !in s.reported && Tabled(s, c)
    requires s.children[c].rd == fd && s.children[c].inst == inst
    requires s'.children == s.children && s'.procs == s.procs - {s.children[c].pid}
    requires s'.fds == s.fds - {fd} && s'.reported == s.reported + [c]
    requires s'.pipes == s.pipes && s'.phantoms == s.phantoms
    requires s'.spawners == s.spawners && s'.spawnLock == s.spawnLock
    requires var m := Table(s, inst);
      s'.managers == s.managers[inst := Manager(m.childMap - {s.children[c].pid}, m.fdMap - {fd})]
    ensures Inv(s')
  {
    ReapKeepsChildren(s, inst, c, s');
    assert ChildOk(s, c);
    assert forall u :: At(s', u) == At(s, u);
    assert Distinct(s'.reported);
    forall u ensures SpawnerOk(s', u) { assert SpawnerOk(s, u); }
    forall f | f in s'.fds ensures FdOk(s', f) { assert FdOk(s, f); }
    forall p | p in s'.procs ensures ProcOk(s', p) { assert ProcOk(s, p); }
    forall i ensures TableOk(s', i) {
      assert TableOk(s, i);
      if i == inst { ReapKeepsOwnTable(s, inst, c, s'); } else { ReapKeepsOtherTable(s, i, c, s'); }
    }
  }

  lemma ReapKeepsInv(s: State, inst: nat, fd: nat, s': State)
    requires Inv(s) && Enabled(s, Reap(inst, fd)) && s' == Apply(s, Reap(inst, fd))
    ensures Inv(s')
  {
    if fd in Table(s, inst).fdMap {
      var c := EntryChild(s, inst, fd);
      if s.procs[s.children[c].pid].exited {
        ReapRemoves(s, inst, fd, c, s');
      }
    }
  }

  lemma StepKeepsInv(s: State, l: Label)
    requires Inv(s) && Enabled(s, l)
    ensures Inv(Apply(s, l))
  {
    var s' := Apply(s, l);
    match l
    case HostOpen(fd) => HostOpenKeepsInv(s, fd, s');
    case HostClose(fd) => HostCloseKeepsInv(s, fd, s');
    case Lock(t, inst) => LockKeepsInv(s, t, inst, s');
    case MakePipe(t, ok, rd, wr) => MakePipeKeepsInv(s, t, ok, rd, wr, s');
    case Fork(t, ok, pid, over) => ForkKeepsInv(s, t, ok, pid, over, s');
    case CloseEnds(t) => CloseEndsKeepsInv(s, t, s');
    case Insert(t) => InsertKeepsInv(s, t, s');
    case ProcFork(pid, newPid) => ProcForkKeepsInv(s, pid, newPid, s');
    case ProcClose(pid, pipe) => ProcCloseKeepsInv(s, pid, pipe, s');
    case ProcExit(pid) => ProcExitKeepsInv(s, pid, s');
    case Collect(pid) => CollectKeepsInv(s, pid, s');
    case Reap(inst, fd) => ReapKeepsInv(s, inst, fd, s');
  }

  lemma {:induction false} RunKeepsInv(s: State, run: seq<Label>)
    requires Inv(s) && IsRun(s, run)
    ensures Inv(After(s, run))
    decreases |run|
  {
    if run != [] {
      StepKeepsInv(s, run[0]);
      RunKeepsInv(Apply(s, run[0]), run[1..]);
    }
  }
}
