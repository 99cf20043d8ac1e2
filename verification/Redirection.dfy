/** Standard-stream redirection of a spawned child: folding the app's dup2 actions, and what the
    host's dup2 calls, made one after the other, then do. */
module Redirection {
  import opened Prelude

  datatype Action = Dup2(src: int, dest: int) | OtherAction(cmd: nat)

  /** An action that redirects one of the three standard streams. */
  predicate Redirects(a: Action) {
    a.Dup2? && 0 <= a.dest < 3
  }

  /** Host descriptor for `fd` after the actions; `table` is the app's descriptor table. */
  function Slot(table: map<int, int>, actions: seq<Action>, fd: int): int {
    if actions == [] then
      if fd in table then table[fd] else -1
    else
      var last := actions[|actions| - 1];
      if Redirects(last) && last.dest == fd && last.src in table then table[last.src]
      else Slot(table, actions[..|actions| - 1], fd)
  }

  /** The last action that targets a stream decides it, with its source looked up in the app's
      table as it was; a stream no action targets keeps its own descriptor. */
  lemma {:induction false} LastActionWins(table: map<int, int>, actions: seq<Action>, k: nat, fd: int)
    requires 0 <= fd < 3 && k <= |actions|
    requires forall j :: k <= j < |actions| && Redirects(actions[j]) ==> actions[j].dest != fd
    ensures k > 0 && actions[k - 1].Dup2? && actions[k - 1].dest == fd && actions[k - 1].src in table
      ==> Slot(table, actions, fd) == table[actions[k - 1].src]
    ensures k == 0 ==> Slot(table, actions, fd) == if fd in table then table[fd] else -1
  {
    if k < |actions| {
      var shorter := actions[..|actions| - 1];
      assert forall j :: 0 <= j < |shorter| ==> shorter[j] == actions[j];
      LastActionWins(table, shorter, k, fd);
    }
  }

  /** The fold over the action list. An unknown source of a standard stream is an error; actions
      on other streams are skipped without a look at their source. */
  method Fold(table: map<int, int>, actions: seq<Action>) returns (ok: bool, slots: array<int>)
    ensures fresh(slots) && slots.Length == 3
    ensures ok <==> forall a :: a in actions && Redirects(a) ==> a.src in table
    ensures ok ==> forall fd :: 0 <= fd < 3 ==> slots[fd] == Slot(table, actions, fd)
  {
    slots := new int[3];
    for fd := 0 to 3
      invariant forall f :: 0 <= f < fd ==> slots[f] == Slot(table, [], f)
    {
      slots[fd] := -1;
      if fd in table { slots[fd] := table[fd]; }
    }
    assert actions[..0] == [];
    for k := 0 to |actions|
      invariant fresh(slots) && slots.Length == 3
      invariant forall a :: a in actions[..k] && Redirects(a) ==> a.src in table
      invariant forall fd :: 0 <= fd < 3 ==> slots[fd] == Slot(table, actions[..k], fd)
    {
      assert actions[..k + 1] == actions[..k] + [actions[k]] && actions[..k + 1][..k] == actions[..k];
      match actions[k]
      case Dup2(src, dest) =>
        if 0 <= dest < 3 {
          if src !in table {
            assert actions[k] in actions;
            return false, slots;
          }
          slots[dest] := table[src];
        }
      case OtherAction(_) =>
    }
    assert actions[..|actions|] == actions;
    ok := true;
  }

  /** The descriptor table of the child after the first `n` of the three host dup2 calls. */
  function Sequential(fds: map<int, nat>, slots: seq<int>, n: nat): (r: map<int, nat>)
    requires n <= 3 && |slots| == 3 && SourcesOpen(fds, slots)
    ensures forall fd :: fd in fds ==> fd in r
  {
    if n == 0 then fds
    else
      var before := Sequential(fds, slots, n - 1);
      if slots[n - 1] == -1 then before else before[n - 1 := before[slots[n - 1]]]
  }

  predicate SourcesOpen(fds: map<int, nat>, slots: seq<int>) {
    forall s :: s in slots && s != -1 ==> s in fds
  }

  /** All three redirections at once. */
  function Simultaneous(fds: map<int, nat>, slots: seq<int>): map<int, nat>
    requires |slots| == 3 && SourcesOpen(fds, slots)
  {
    var f0 := if slots[0] == -1 then fds else fds[0 := fds[slots[0]]];
    var f1 := if slots[1] == -1 then f0 else f0[1 := fds[slots[1]]];
    if slots[2] == -1 then f1 else f1[2 := fds[slots[2]]]
  }

  /** No stream is read from a lower standard descriptor that was redirected elsewhere before. */
  predicate NoClobber(slots: seq<int>)
    requires |slots| == 3
  {
    forall fd :: 0 <= fd < 3 && 0 <= slots[fd] < fd ==> slots[slots[fd]] == -1 || slots[slots[fd]] == slots[fd]
  }

  lemma SequentialUnfolds(fds: map<int, nat>, slots: seq<int>)
    requires |slots| == 3 && SourcesOpen(fds, slots)
    ensures forall i :: 0 <= i < 3 && slots[i] != -1 ==> slots[i] in fds
    ensures Sequential(fds, slots, 0) == fds
    ensures var f1 := if slots[0] == -1 then fds else fds[0 := fds[slots[0]]];
      && Sequential(fds, slots, 1) == f1
      && var f2 := if slots[1] == -1 then f1 else f1[1 := f1[slots[1]]];
         && Sequential(fds, slots, 2) == f2
         && Sequential(fds, slots, 3) == if slots[2] == -1 then f2 else f2[2 := f2[slots[2]]]
  {
    assert forall i :: 0 <= i < 3 ==> slots[i] in slots;
    assert Sequential(fds, slots, 1) == if slots[0] == -1 then fds else fds[0 := fds[slots[0]]];
    var f1 := Sequential(fds, slots, 1);
    assert Sequential(fds, slots, 2) == if slots[1] == -1 then f1 else f1[1 := f1[slots[1]]];
  }

  lemma NoClobberSuffices(fds: map<int, nat>, slots: seq<int>)
    requires |slots| == 3 && SourcesOpen(fds, slots) && NoClobber(slots)
    ensures Sequential(fds, slots, 3) == Simultaneous(fds, slots)
  {
    SequentialUnfolds(fds, slots);
    assert NoClobber(slots);
  }

  /** With every descriptor a different file, a clobbered source shows. */
  lemma NoClobberNeeded(fds: map<int, nat>, slots: seq<int>)
    requires |slots| == 3 && SourcesOpen(fds, slots)
    requires forall i, j :: i in fds && j in fds && i != j ==> fds[i] != fds[j]
    requires 0 in fds && 1 in fds && 2 in fds
    requires Sequential(fds, slots, 3) == Simultaneous(fds, slots)
    ensures NoClobber(slots)
  {
    SequentialUnfolds(fds, slots);
    var r := Simultaneous(fds, slots);
    forall fd | 0 <= fd < 3 && 0 <= slots[fd] < fd
      ensures slots[slots[fd]] == -1 || slots[slots[fd]] == slots[fd]
    {
      assert Sequential(fds, slots, 3)[fd] == r[fd] == fds[slots[fd]];
      if fd == 1 {
        assert slots[1] == 0 && Sequential(fds, slots, 3)[1] == Sequential(fds, slots, 1)[0];
      } else {
        assert fd == 2 && Sequential(fds, slots, 3)[2] == Sequential(fds, slots, 2)[slots[2]];
        if slots[2] == 1 {
          assert r[1] == (if slots[1] == -1 then fds[1] else fds[slots[1]]);
        }
      }
    }
  }

  /** The host's three dup2 calls in order realise the simultaneous redirection for every
      descriptor table exactly when no source is clobbered. */
  lemma DupsInOrderAreSimultaneousIff(slots: seq<int>)
    requires |slots| == 3
    ensures NoClobber(slots) <==>
      forall fds :: SourcesOpen(fds, slots) ==> Sequential(fds, slots, 3) == Simultaneous(fds, slots)
  {
    if NoClobber(slots) {
      forall fds | SourcesOpen(fds, slots) ensures Sequential(fds, slots, 3) == Simultaneous(fds, slots) {
        NoClobberSuffices(fds, slots);
      }
    } else if forall fds :: SourcesOpen(fds, slots) ==> Sequential(fds, slots, 3) == Simultaneous(fds, slots) {
      var keys := {0, 1, 2} + set s | s in slots;
      var fds := DistinctFiles(keys);
      NoClobberNeeded(fds, slots);
      assert false;
    }
  }

  /** A table that opens a different file under each of `keys`. */
  function DistinctFiles(keys: set<int>): (fds: map<int, nat>)
    ensures fds.Keys == keys
    ensures forall i, j :: i in fds && j in fds && i != j ==> fds[i] != fds[j]
  {
    map k: int | k in keys :: if k >= 0 then 2 * k else -2 * k - 1
  }

  /** Sources above the standard streams never clobber. */
  lemma HighSourcesNeverClobber(slots: seq<int>)
    requires |slots| == 3 && forall fd :: 0 <= fd < 3 ==> slots[fd] == -1 || slots[fd] >= 3
    ensures NoClobber(slots)
  {
  }
}
