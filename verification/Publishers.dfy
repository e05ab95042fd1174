/** How many workers publish on a symbol's channel. */
module Publishers {
  import opened FanOut
  import opened Symbols
  import W = SymbolWorker

  // ---------- Registered publishers ----------

  /** Every worker that will go on publishing is the registered worker of its symbol. */
  ghost predicate PublishersRegistered(r: Registry) {
    forall w | 0 <= w < |r.tasks| && W.Active(r.tasks[w]) ::
      r.tasks[w].symbol in r.workers && r.workers[r.tasks[w].symbol] == w
  }

  /** The step is a failure while a worker closes its connection for a cancellation. */
  predicate SwallowsCancellation(st: State, l: Label) {
    l.RunWorker? && l.worker < |st.reg.tasks| && W.Swallows(st.reg.tasks[l.worker], l.result)
  }

  ghost predicate NoSwallow(ls: seq<Label>)
    requires IsRun(ls)
  {
    ls == [] || (NoSwallow(ls[..|ls| - 1]) && !SwallowsCancellation(After(ls[..|ls| - 1]), ls[|ls| - 1]))
  }

  ghost predicate PublishersRegisteredThroughout(ls: seq<Label>)
    requires IsRun(ls)
  {
    && PublishersRegistered(After(ls).reg)
    && (ls == [] || PublishersRegisteredThroughout(ls[..|ls| - 1]))
  }

  /** Every cancelled worker is on its way out. */
  ghost predicate CancelledInactive(r: Registry) {
    forall w | 0 <= w < |r.tasks| && r.tasks[w].cancelled :: !W.Active(r.tasks[w])
  }

  lemma InactiveMeansRegistered(st: State)
    requires Inv(st)
    ensures CancelledInactive(st.reg) <==> PublishersRegistered(st.reg)
  {
    var r := st.reg;
    if CancelledInactive(r) {
      forall w | 0 <= w < |r.tasks| && W.Active(r.tasks[w])
        ensures r.tasks[w].symbol in r.workers && r.workers[r.tasks[w].symbol] == w
      {
        assert WorkerOk(r, w);
      }
    }
  }

  lemma StepKeepsInactive(st: State, l: Label)
    requires Inv(st) && Enabled(st, l) && CancelledInactive(st.reg)
    ensures CancelledInactive(Step(st, l).reg) <==> !SwallowsCancellation(st, l)
  {
    var r, r' := st.reg, Step(st, l).reg;
    if l.RunWorker? {
      assert WorkerOk(r, l.worker);
      W.ResumeClassified(r.tasks[l.worker], l.result);
      if SwallowsCancellation(st, l) {
        assert r'.tasks[l.worker].cancelled && W.Active(r'.tasks[l.worker]);
      }
    }
  }

  /**
    Only registered workers go on publishing, throughout a run, exactly when no
    worker fails to close its connection while it is being cancelled.
  */
  lemma {:induction false} PublishersRegisteredIff(ls: seq<Label>)
    requires IsRun(ls)
    ensures PublishersRegisteredThroughout(ls) <==> NoSwallow(ls)
  {
    RunKeepsInv(ls);
    InactiveMeansRegistered(After(ls));
    if ls == [] {
    } else {
      var before := ls[..|ls| - 1];
      PublishersRegisteredIff(before);
      RunKeepsInv(before);
      InactiveMeansRegistered(After(before));
      if PublishersRegisteredThroughout(before) {
        assert PublishersRegistered(After(before).reg);
        StepKeepsInactive(After(before), ls[|ls| - 1]);
      }
    }
  }

  // ---------- One publisher per symbol ----------

  /** No two active workers are for the same symbol. */
  ghost predicate AtMostOnePublisher(r: Registry) {
    forall w, x | 0 <= w < x < |r.tasks| && W.Active(r.tasks[w])
        && W.Active(r.tasks[x]) :: r.tasks[w].symbol != r.tasks[x].symbol
  }

  /** An active worker other than `w` is for the symbol. */
  ghost predicate Published(r: Registry, s: string, w: int) {
    exists x :: 0 <= x < |r.tasks| && x != w && W.Active(r.tasks[x]) && r.tasks[x].symbol == s
  }

  /**
    The step makes a second publisher: a cancelled worker goes on while another one
    is active for its symbol, or a task acquires a symbol without a registered
    worker while an old one is active.
  */
  ghost predicate BringsSecond(st: State, l: Label) {
    || (SwallowsCancellation(st, l) && Published(st.reg, st.reg.tasks[l.worker].symbol, l.worker))
    || (exists s :: Acquires(st, l, s) && s !in st.reg.workers && Published(st.reg, s, -1))
  }

  /** No worker has become active, and none changed its symbol. */
  predicate NoneActivated(r: Registry, r': Registry) {
    && |r'.tasks| == |r.tasks|
    && forall w | 0 <= w < |r.tasks| ::
         r'.tasks[w].symbol == r.tasks[w].symbol && (W.Active(r'.tasks[w]) ==> W.Active(r.tasks[w]))
  }

  lemma NoneActivatedKeepsOne(r: Registry, r': Registry)
    requires AtMostOnePublisher(r) && NoneActivated(r, r')
    ensures AtMostOnePublisher(r')
  {
  }

  lemma WorkerStepKeepsOne(st: State, w: nat, o: W.Outcome)
    requires Inv(st) && AtMostOnePublisher(st.reg) && w < |st.reg.tasks| && !st.reg.tasks[w].point.Ended?
    ensures AtMostOnePublisher(Step(st, RunWorker(w, o)).reg) <==> !BringsSecond(st, RunWorker(w, o))
  {
    var l := RunWorker(w, o);
    var r, r' := st.reg, Step(st, l).reg;
    assert WorkerOk(r, w);
    W.ResumeClassified(r.tasks[w], o);
    if !SwallowsCancellation(st, l) {
      NoneActivatedKeepsOne(r, r');
    } else if Published(r, r.tasks[w].symbol, w) {
      var x :| 0 <= x < |r.tasks| && x != w && W.Active(r.tasks[x]) && r.tasks[x].symbol == r.tasks[w].symbol;
      assert W.Active(r'.tasks[w]) && W.Active(r'.tasks[x]) && r'.tasks[w].symbol == r'.tasks[x].symbol;
      assert w < x || x < w;
    } else {
      forall a, b | 0 <= a < b < |r'.tasks| && W.Active(r'.tasks[a]) && W.Active(r'.tasks[b])
        ensures r'.tasks[a].symbol != r'.tasks[b].symbol
      {
        assert a == w || r'.tasks[a] == r.tasks[a];
        assert b == w || r'.tasks[b] == r.tasks[b];
      }
    }
  }

  /** Acquiring a symbol without a registered worker starts one, which is active from its first moment. */
  lemma EnsureKeepsOne(r: Registry, s: string)
    requires AtMostOnePublisher(r) && Upper(s) == s && !Running(r, s)
    ensures AtMostOnePublisher(Ensure(r, s)) <==> !Published(r, s, -1)
  {
    var r', n := Ensure(r, s), |r.tasks|;
    assert r'.tasks == r.tasks + [W.New(s)] && W.Active(r'.tasks[n]);
    if Published(r, s, -1) {
      var x :| 0 <= x < n && W.Active(r.tasks[x]) && r.tasks[x].symbol == s;
      assert r'.tasks[x] == r.tasks[x];
    } else {
      forall a, b | 0 <= a < b < |r'.tasks| && W.Active(r'.tasks[a]) && W.Active(r'.tasks[b])
        ensures r'.tasks[a].symbol != r'.tasks[b].symbol
      {
        assert r'.tasks[a] == r.tasks[a];
        assert b < n ==> r'.tasks[b] == r.tasks[b];
      }
    }
  }

  /** A registered worker runs, and a symbol without one is started afresh. */
  lemma RegisteredRuns(st: State, s: string)
    requires Inv(st)
    ensures Running(st.reg, s) <==> s in st.reg.workers
  {
    if s in st.reg.workers {
      assert WorkerOk(st.reg, st.reg.workers[s]);
    }
  }

  lemma TaskStepKeepsOne(st: State, t: nat, o: Outcome)
    requires Inv(st) && AtMostOnePublisher(st.reg) && Runnable(st, t)
    ensures AtMostOnePublisher(Step(st, RunTask(t, o)).reg) <==> !BringsSecond(st, RunTask(t, o))
  {
    var l, k := RunTask(t, o), st.tasks[t];
    var r' := Step(st, l).reg;
    assert TaskOk(st.reg, k);
    RegisteredRuns(st, k.symbol);
    if Acquires(st, l, k.symbol) && k.symbol !in st.reg.workers {
      EnsureKeepsOne(st.reg, k.symbol);
    } else {
      assert NoneActivated(st.reg, r');
      NoneActivatedKeepsOne(st.reg, r');
    }
  }

  /** A step keeps at most one publisher per symbol exactly when it is not one of the two that bring a second. */
  lemma StepKeepsOne(st: State, l: Label)
    requires Inv(st) && Enabled(st, l) && AtMostOnePublisher(st.reg)
    ensures AtMostOnePublisher(Step(st, l).reg) <==> !BringsSecond(st, l)
  {
    match l
    case SpawnTask(_, _, _) =>
    case CancelTask(_) => NoneActivatedKeepsOne(st.reg, Step(st, l).reg);
    case RunTask(t, o) => TaskStepKeepsOne(st, t, o);
    case RunWorker(w, o) => WorkerStepKeepsOne(st, w, o);
  }

  ghost predicate OnePublisherThroughout(ls: seq<Label>)
    requires IsRun(ls)
  {
    && AtMostOnePublisher(After(ls).reg)
    && (ls == [] || OnePublisherThroughout(ls[..|ls| - 1]))
  }

  ghost predicate NeverBringsSecond(ls: seq<Label>)
    requires IsRun(ls)
  {
    ls == [] || (NeverBringsSecond(ls[..|ls| - 1]) && !BringsSecond(After(ls[..|ls| - 1]), ls[|ls| - 1]))
  }

  /**
    At most one worker per symbol publishes, throughout a run, exactly when no
    cancelled worker goes on beside another one and no task acquires a symbol while
    a worker that has lost its registration is active.
  */
  lemma {:induction false} OnePublisherIff(ls: seq<Label>)
    requires IsRun(ls)
    ensures OnePublisherThroughout(ls) <==> NeverBringsSecond(ls)
  {
    if ls == [] {
    } else {
      var before := ls[..|ls| - 1];
      OnePublisherIff(before);
      RunKeepsInv(before);
      if AtMostOnePublisher(After(before).reg) {
        StepKeepsOne(After(before), ls[|ls| - 1]);
      }
    }
  }

  /** In particular when no worker fails to close its connection while it is being cancelled. */
  lemma {:induction false} NoSwallowMeansOne(ls: seq<Label>)
    requires IsRun(ls) && NoSwallow(ls)
    ensures OnePublisherThroughout(ls)
  {
    PublishersRegisteredIff(ls);
    if ls == [] {
    } else {
      NoSwallowMeansOne(ls[..|ls| - 1]);
    }
  }

  // ---------- Two workers publishing on one channel ----------

  /** Worker `w` is about to publish. */
  predicate IsPublishing(r: Registry, w: nat) {
    w < |r.tasks| && r.tasks[w].point.Publishing? && !r.tasks[w].pending
  }

  /** `r'` differs from `r` only in how far worker `w` has come. */
  predicate OnlyMoves(r: Registry, r': Registry, w: nat) {
    && |r'.tasks| == |r.tasks|
    && forall x | 0 <= x < |r.tasks| :: if x == w then r'.tasks[x].symbol == r.tasks[x].symbol else r'.tasks[x] == r.tasks[x]
  }

  lemma Work(ls: seq<Label>, w: nat, o: W.Outcome) returns (ls': seq<Label>)
    requires IsRun(ls) && w < |After(ls).reg.tasks| && !After(ls).reg.tasks[w].point.Ended?
    ensures IsRun(ls') && OnlyMoves(After(ls).reg, After(ls').reg, w)
    ensures After(ls').reg.tasks[w] == W.Resume(After(ls).reg.tasks[w], o)
  {
    ls' := ExtendRun(ls, RunWorker(w, o));
  }

  /** A worker at the head of its loop can come to publish. */
  lemma Publish(ls: seq<Label>, w: nat) returns (ls': seq<Label>)
    requires IsRun(ls) && w < |After(ls).reg.tasks|
    requires var k := After(ls).reg.tasks[w]; !k.stop && !k.pending && (k.point.Fresh? || k.point.BackingOff?)
    ensures IsRun(ls') && OnlyMoves(After(ls).reg, After(ls').reg, w) && IsPublishing(After(ls').reg, w)
  {
    ls' := Work(ls, w, W.Done);
    ls' := Work(ls', w, W.Done);
    ls' := Work(ls', w, W.Done);
    ls' := Work(ls', w, W.Done);
    ls' := Work(ls', w, W.Message(1));
  }

  const LISTENER := W.Worker(DEFAULT_SYMBOL, W.SendingTicker, false, false, false)
  const VIEWER := Task(0, MarketPrice, DEFAULT_SYMBOL, Listening, false, false)

  /** A task has acquired the default symbol and its worker is connected. */
  lemma OneViewer() returns (ls: seq<Label>)
    ensures IsRun(ls)
    ensures After(ls) == State(Registry(map[DEFAULT_SYMBOL := 0], map[DEFAULT_SYMBOL := 1], [LISTENER]), [VIEWER])
  {
    DefaultIsUpper();
    assert IsRun([]) && After([]) == INITIAL;
    ls := ExtendRun([], SpawnTask(0, MarketPrice, DEFAULT_SYMBOL));
    ls := ExtendRun(ls, RunTask(0, Completed));
    ls := ExtendRun(ls, RunTask(0, Completed));
    ls := ExtendRun(ls, RunWorker(0, W.Done));
    ls := ExtendRun(ls, RunWorker(0, W.Done));
  }

  lemma ViewerCloses() returns (ls: seq<Label>)
    ensures IsRun(ls)
    ensures After(ls) == State(Registry(map[DEFAULT_SYMBOL := 0], map[DEFAULT_SYMBOL := 1], [LISTENER]), [VIEWER.(point := Closing)])
  {
    ls := OneViewer();
    ls := ExtendRun(ls, RunTask(0, Exhausted));
    ls := ExtendRun(ls, RunTask(0, Completed));
  }

  /** The task has released the symbol and waits for its worker, which is closing its connection. */
  lemma ViewerLeaves() returns (ls: seq<Label>)
    ensures IsRun(ls)
    ensures After(ls) == State(Registry(map[], map[], [LISTENER.(point := W.Leaving(W.Cancelling), cancelled := true)]),
                               [VIEWER.(point := Stopping(0))])
  {
    DefaultIsUpper();
    ls := ViewerCloses();
    ls := ExtendRun(ls, RunTask(0, Completed));
    ls := ExtendRun(ls, RunWorker(0, W.Done));
  }

  /** A run after which two workers are about to publish on the channel of the same symbol. */
  lemma TwoPublish() returns (ls: seq<Label>)
    ensures IsRun(ls) && IsPublishing(After(ls).reg, 0) && IsPublishing(After(ls).reg, 1)
    ensures After(ls).reg.tasks[0].symbol == After(ls).reg.tasks[1].symbol
    ensures !OnePublisherThroughout(ls)
  {
    DefaultIsUpper();
    ls := ViewerLeaves();
    ls := ExtendRun(ls, SpawnTask(1, MarketPrice, DEFAULT_SYMBOL));
    ls := ExtendRun(ls, RunTask(1, Completed));
    ls := ExtendRun(ls, RunWorker(0, W.Failed));
    ls := Publish(ls, 0);
    ls := Publish(ls, 1);
    assert W.Active(After(ls).reg.tasks[0]) && W.Active(After(ls).reg.tasks[1]);
  }
}
