/** Where the values in the thread manager come from: no exception without a raise, no
    cancellation without cleanup or an end, and handles in the order of the spawns. */
module ThreadHistory {
  import opened Prelude
  import opened ThreadHandles
  import opened ThreadProtocol
  import opened ThreadInvariant

  // ---------------------------------------------------------------- exceptions

  /** The exceptions raised by app code in a run, as the runtime shows them. */
  function Raised(run: seq<Label>): set<string>
    decreases |run|
  {
    if run == [] then {} else (if run[0].Raise? then {PREFIX + run[0].text} else {}) + Raised(run[1..])
  }

  lemma {:induction false} RaisedByAStep(run: seq<Label>, e: string) returns (k: nat)
    requires e in Raised(run)
    ensures k < |run| && run[k].Raise? && e == PREFIX + run[k].text
    decreases |run|
  {
    if run[0].Raise? && e == PREFIX + run[0].text {
      k := 0;
    } else {
      var j := RaisedByAStep(run[1..], e);
      k := j + 1;
    }
  }

  /** Every exception carried is one of `texts`. */
  ghost predicate ExceptionsAmong(threads: seq<Thread>, texts: set<string>) {
    forall i :: 0 <= i < |threads| && threads[i].exception.Some? ==> threads[i].exception.value in texts
  }

  /** A thread that ends without an exception leaves every other thread as it was; one with an
      exception hands it, unchanged, to the other registered threads and to nobody else. */
  lemma UnwindSpreadsOwnExceptionOnly(s: State, i: nat, j: nat)
    requires Inv(s) && Enabled(s, Unwind(i)) && Is(s, j)
    ensures var own, t, t' := s.threads[i].exception, s.threads[j], Apply(s, Unwind(i)).threads[j];
      && t'.exception == (if own.Some? && j != i && Registered(s, j) then own else t.exception)
      && t' == if j == i then t.(pc := Unwound, cancelled := true) else t.(exception := t'.exception)
  {
    var own := s.threads[i].exception;
    if own.Some? {
      assert PREFIX + own.value[|PREFIX|..] == own.value;
    }
    if j in s.threadMap.Values {
      var h :| h in s.threadMap && s.threadMap[h] == j;
      assert Registered(s, j);
    } else {
      assert !Registered(s, j);
    }
  }

  lemma UnwindingStaysAmong(s: State, i: nat, texts: set<string>)
    requires Is(s, i) && ExceptionsAmong(s.threads, texts)
    requires forall e :: e in texts ==> PREFIX <= e
    ensures ExceptionsAmong(Unwinding(s, i), texts)
  {
    var own := s.threads[i].exception;
    if own.Some? {
      assert PREFIX + ExceptionText(own.value) == own.value;
    }
  }

  lemma StepStaysAmong(s: State, l: Label, texts: set<string>)
    requires Enabled(s, l) && ExceptionsAmong(s.threads, texts)
    requires forall e :: e in texts ==> PREFIX <= e
    ensures ExceptionsAmong(Apply(s, l).threads, texts + if l.Raise? then {PREFIX + l.text} else {})
  {
    if l.Unwind? {
      UnwindingStaysAmong(s, l.thread, texts);
    }
  }

  lemma {:induction false} RunStaysAmong(s: State, run: seq<Label>, texts: set<string>)
    requires IsRun(s, run) && ExceptionsAmong(s.threads, texts)
    requires forall e :: e in texts ==> PREFIX <= e
    ensures ExceptionsAmong(After(s, run).threads, texts + Raised(run))
    decreases |run|
  {
    if run != [] {
      var more := if run[0].Raise? then {PREFIX + run[0].text} else {};
      StepStaysAmong(s, run[0], texts);
      RunStaysAmong(Apply(s, run[0]), run[1..], texts + more);
      assert texts + more + Raised(run[1..]) == texts + Raised(run);
    }
  }

  /** Over every run, accidents included, a thread carries only what some thread's app code has
      raised. */
  lemma {:induction false} NoExceptionFromNowhere(run: seq<Label>, i: nat) returns (k: nat)
    requires IsRun(Initial, run) && Is(After(Initial, run), i) && After(Initial, run).threads[i].exception.Some?
    ensures k < |run| && run[k].Raise?
    ensures After(Initial, run).threads[i].exception == Some(PREFIX + run[k].text)
  {
    RunStaysAmong(Initial, run, {});
    assert {} + Raised(run) == Raised(run);
    k := RaisedByAStep(run, After(Initial, run).threads[i].exception.value);
  }

  // ---------------------------------------------------------------- cancellation

  /** An app thread told to stop while in app code is in the joiner's round. */
  ghost predicate CancelsOk(s: State) {
    forall i :: 0 < i < |s.threads| && s.threads[i].cancelled && InAppCode(s.threads[i].pc)
      ==> HasEntry(s.joiner) && i in s.joiner.round
  }

  /** The round goes on, or the step leaves cancellation alone. */
  lemma RoundKeepsCancels(s: State, s': State)
    requires CancelsOk(s) && |s'.threads| >= |s.threads|
    requires HasEntry(s.joiner) ==> HasEntry(s'.joiner) && s'.joiner.round == s.joiner.round
    requires forall i :: 0 < i < |s.threads| && s'.threads[i].cancelled && InAppCode(s'.threads[i].pc) ==>
      (s.threads[i].cancelled && InAppCode(s.threads[i].pc)) || (HasEntry(s.joiner) && i in s.joiner.round)
    requires forall i :: |s.threads| <= i < |s'.threads| ==> !s'.threads[i].cancelled
    ensures CancelsOk(s')
  {
  }

  lemma EraseKeepsCancels(s: State)
    requires Inv(s) && CancelsOk(s) && Enabled(s, Erase)
    ensures CancelsOk(Apply(s, Erase))
  {
    var r, k := s.joiner.round, s.joiner.next;
    if k + 1 == |r| {
      forall i | 0 < i < |s.threads| && i in r ensures s.threads[i].pc == Done {
        var j :| 0 <= j < |r| && r[j] == i;
        assert ThreadOk(s, r[j]);
      }
    }
  }

  lemma UnwindKeepsCancels(s: State, i: nat)
    requires CancelsOk(s) && Enabled(s, Unwind(i))
    ensures CancelsOk(Apply(s, Unwind(i)))
  {
    UnwindingShape(s, i);
    RoundKeepsCancels(s, Apply(s, Unwind(i)));
  }

  lemma StepKeepsCancels(s: State, l: Label)
    requires Inv(s) && CancelsOk(s) && Enabled(s, l) && Orderly(s, l)
    ensures CancelsOk(Apply(s, l))
  {
    match l
    case Erase => EraseKeepsCancels(s);
    case Unwind(i) => UnwindKeepsCancels(s, i);
    case Resume => ResumeKeepsCancels(s);
    case CreateHost(spawner) => SpawnKeepsCancels(s, l, spawner);
    case AssignHost(spawner) => SpawnKeepsCancels(s, l, spawner);
    case Publish(spawner, h) => PublishKeepsCancels(s, spawner, h);
    case _ =>
      if l.Cancel? || l.JoinLock? || l.JoinReturn? {
        JoinerKeepsCancels(s, l);
      } else {
        OthersKeepCancels(s, l);
      }
  }

  lemma PublishKeepsCancels(s: State, spawner: nat, h: nat)
    requires CancelsOk(s) && Enabled(s, Publish(spawner, h))
    ensures CancelsOk(Apply(s, Publish(spawner, h)))
  {
    RoundKeepsCancels(s, Apply(s, Publish(spawner, h)));
  }

  lemma JoinerKeepsCancels(s: State, l: Label)
    requires CancelsOk(s) && Enabled(s, l) && (l.Cancel? || l.JoinLock? || l.JoinReturn?)
    ensures CancelsOk(Apply(s, l))
  {
    assert Entry(s) in s.joiner.round;
    RoundKeepsCancels(s, Apply(s, l));
  }

  lemma OthersKeepCancels(s: State, l: Label)
    requires CancelsOk(s) && Enabled(s, l) && Orderly(s, l)
    requires l.Raise? || l.FreeStack? || l.ExitSection? || l.BeginCleanup? || l.Snapshot? || l.RunDtors? || l.TearDown?
    ensures CancelsOk(Apply(s, l))
  {
    RoundKeepsCancels(s, Apply(s, l));
  }

  lemma ResumeKeepsCancels(s: State)
    requires Inv(s) && CancelsOk(s) && Enabled(s, Resume)
    ensures CancelsOk(AfterWait(s))
  {
    assert ThreadOk(s, Entry(s));
    RoundKeepsCancels(s, AfterWait(s));
  }

  lemma SpawnKeepsCancels(s: State, l: Label, spawner: nat)
    requires Inv(s) && CancelsOk(s) && Enabled(s, l) && (l == CreateHost(spawner) || l == AssignHost(spawner))
    ensures CancelsOk(Apply(s, l))
  {
    assert SpawnOk(s, spawner);
    RoundKeepsCancels(s, Apply(s, l));
  }

  lemma {:induction false} RunKeepsCancels(s: State, run: seq<Label>)
    requires Inv(s) && CancelsOk(s) && OrderlyRun(s, run)
    ensures IsRun(s, run) && CancelsOk(After(s, run))
    decreases |run|
  {
    OrderlyRunIsRun(s, run);
    if run != [] {
      StepKeepsCancels(s, run[0]);
      OrderlyStepKeepsInv(s, run[0]);
      RunKeepsCancels(Apply(s, run[0]), run[1..]);
    }
  }

  /** Only cleanup stops a thread that is still in app code, and only threads of its round. */
  lemma {:induction false} OnlyCleanupStopsThreads(run: seq<Label>, i: nat)
    requires OrderlyRun(Initial, run) && IsRun(Initial, run) && 0 < i < |After(Initial, run).threads|
    requires After(Initial, run).threads[i].cancelled && InAppCode(After(Initial, run).threads[i].pc)
    ensures var s := After(Initial, run); HasEntry(s.joiner) && i in s.joiner.round
  {
    InitialInv();
    RunKeepsCancels(Initial, run);
  }

  // ---------------------------------------------------------------- handles

  /** As long as the counter has not come round, handles number the threads. */
  ghost predicate Numbered(s: State) {
    |s.threads| <= U32 ==>
      && (|s.threads| < U32 ==> s.cursor == |s.threads|)
      && (forall i :: 0 <= i < |s.threads| ==> s.threads[i].handle == i)
      && (forall h :: h in s.threadMap ==> h < |s.threads|)
  }

  lemma FreeCursorIsTaken(keys: set<nat>, cursor: nat, h: nat)
    requires cursor < U32 && cursor !in keys && IsFirstFree(keys, cursor, h)
    ensures h == cursor
  {
    assert CyclicDistance(cursor, cursor) == 0;
  }

  lemma PublishKeepsNumbers(s: State, spawner: nat, h: nat)
    requires Numbered(s) && Enabled(s, Publish(spawner, h))
    ensures Numbered(Apply(s, Publish(spawner, h)))
  {
    if |s.threads| < U32 {
      FreeCursorIsTaken(s.threadMap.Keys, s.cursor, h);
    }
  }

  lemma StepKeepsNumbers(s: State, l: Label)
    requires Numbered(s) && Enabled(s, l)
    ensures Numbered(Apply(s, l))
  {
    if l.Publish? {
      PublishKeepsNumbers(s, l.spawner, l.handle);
    } else if l.Unwind? {
      UnwindKeepsNumbers(s, l.thread);
    }
  }

  lemma UnwindKeepsNumbers(s: State, i: nat)
    requires Numbered(s) && Is(s, i)
    ensures Numbered(s.(threads := Unwinding(s, i)))
  {
    UnwindingShape(s, i);
  }

  lemma {:induction false} RunKeepsNumbers(s: State, run: seq<Label>)
    requires Numbered(s) && IsRun(s, run)
    ensures Numbered(After(s, run))
    decreases |run|
  {
    if run != [] {
      StepKeepsNumbers(s, run[0]);
      RunKeepsNumbers(Apply(s, run[0]), run[1..]);
    }
  }

  /** The first 2^32 - 1 app threads of an instance have the handles 1, 2, 3 and so on in the order
      of their spawns: no handle is used twice before the counter has come round. */
  lemma {:induction false} HandlesCountSpawns(run: seq<Label>, i: nat)
    requires IsRun(Initial, run) && Is(After(Initial, run), i) && |After(Initial, run).threads| <= U32
    ensures After(Initial, run).threads[i].handle == i
  {
    RunKeepsNumbers(Initial, run);
  }
}
