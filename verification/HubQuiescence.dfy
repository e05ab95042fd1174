/**
  Whether the tasks of all sessions can still come to an end. Only a session cancels
  tasks, and it forgets a task when it cancels it, so a task that waits for a worker
  which has swallowed its cancellation may wait for ever.
*/
module HubQuiescence {
  import opened FanOut
  import opened H = Hub
  import opened Quiescence
  import opened Sessions
  import opened Symbols
  import W = SymbolWorker

  // ---------- Tasks that wait for a worker ----------

  /** No two tasks wait for the same worker. */
  ghost predicate WaitersDistinct(st: State) {
    forall t, u | 0 <= t < u < |st.tasks| && st.tasks[t].point.Stopping? && st.tasks[u].point.Stopping? ::
      st.tasks[t].point.worker != st.tasks[u].point.worker
  }

  /** A task that begins to wait does so for a worker that was registered, and so never cancelled before. */
  lemma WaitsForRegistered(st: State, t: nat, o: Outcome)
    requires FanOut.Inv(st) && Runnable(st, t) && Resume(st, t, o).tasks[t].point.Stopping?
    ensures var w := Resume(st, t, o).tasks[t].point.worker; w < |st.reg.tasks| && !st.reg.tasks[w].cancelled
  {
    assert TaskOk(st.reg, st.tasks[t]);
  }

  lemma RunTaskKeepsDistinct(st: State, t: nat, o: Outcome)
    requires FanOut.Inv(st) && WaitersDistinct(st) && Runnable(st, t)
    ensures WaitersDistinct(Resume(st, t, o))
  {
    RunTaskMovesReference(st, t, o);
    var k := Resume(st, t, o).tasks[t];
    if k.point.Stopping? {
      WaitsForRegistered(st, t, o);
      forall u | 0 <= u < |st.tasks| && u != t && st.tasks[u].point.Stopping?
        ensures st.tasks[u].point.worker != k.point.worker
      {
        assert TaskOk(st.reg, st.tasks[u]);
      }
    }
  }

  lemma StepKeepsDistinct(st: State, l: Label)
    requires FanOut.Inv(st) && WaitersDistinct(st) && FanOut.Enabled(st, l)
    ensures WaitersDistinct(FanOut.Step(st, l))
  {
    match l
    case SpawnTask(_, _, _) =>
    case CancelTask(_) =>
    case RunTask(t, o) => RunTaskKeepsDistinct(st, t, o);
    case RunWorker(_, _) =>
  }

  lemma {:induction false} RunKeepsDistinct(ls: seq<Label>)
    requires FanOut.IsRun(ls)
    ensures WaitersDistinct(FanOut.After(ls))
  {
    if ls == [] {
    } else {
      RunKeepsDistinct(ls[..|ls| - 1]);
      FanOut.RunKeepsInv(ls[..|ls| - 1]);
      StepKeepsDistinct(FanOut.After(ls[..|ls| - 1]), ls[|ls| - 1]);
    }
  }

  lemma HubKeepsDistinct(es: seq<Event>)
    requires H.IsRun(es)
    ensures WaitersDistinct(H.After(es).st)
  {
    var ls := HubRunIsFanOutRun(es);
    RunKeepsDistinct(ls);
  }

  // ---------- Tasks that wait for ever ----------

  /** Nobody can cancel the task again: it was cancelled, or its session is closed. */
  predicate Abandoned(h: Hub, t: nat)
    requires t < |h.st.tasks|
  {
    var k := h.st.tasks[t];
    k.cancelled || (k.owner < |h.sessions| && !h.sessions[k.owner].open)
  }

  predicate Stuck(h: Hub, t: nat) {
    WaitsForActive(h.st, t) && Abandoned(h, t)
  }

  /** What every reachable state satisfies. */
  ghost predicate Sound(h: Hub) {
    H.Inv(h) && WaitersDistinct(h.st)
  }

  lemma ReachableIsSound(es: seq<Event>)
    requires H.IsRun(es)
    ensures Sound(H.After(es))
  {
    H.RunKeepsInv(es);
    HubKeepsDistinct(es);
  }

  /** A session that cancels a task of its own cancels neither a stuck task nor the worker it waits for. */
  lemma CancelActiveLeavesStuck(h: Hub, i: nat, name: string, t: nat)
    requires Sound(h) && Stuck(h, t) && i < |h.sessions| && h.sessions[i].open
    ensures var (se, st) := CancelActive(h.sessions[i], h.st, name);
            var h' := Hub(h.sessions[i := se], st);
            Sound(h') && Stuck(h', t) && h'.sessions[i].open
  {
    var (se, st) := CancelActive(h.sessions[i], h.st, name);
    CancelActiveKeeps(h, i, name);
    if name in h.sessions[i].active {
      var u := h.sessions[i].active[name];
      assert Owned(h.sessions[i], h.st, i, name);
      assert u != t;
      StepKeepsDistinct(h.st, CancelTask(u));
      assert u < t || t < u;
    }
  }

  lemma RestartLeavesStuck(h: Hub, i: nat, c: Category, symbol: string, t: nat)
    requires Sound(h) && Stuck(h, t) && i < |h.sessions| && h.sessions[i].open
    ensures var (se, st) := Restart(h.sessions[i], h.st, i, c, symbol);
            var h' := Hub(h.sessions[i := se], st);
            Sound(h') && Stuck(h', t) && h'.sessions[i].open
  {
    CancelActiveLeavesStuck(h, i, Key(c), t);
    RestartKeeps(h, i, c, symbol);
    var (se1, st1) := CancelActive(h.sessions[i], h.st, Key(c));
    StepKeepsDistinct(st1, SpawnTask(i, c, symbol));
  }

  lemma RestartIfActiveLeavesStuck(h: Hub, i: nat, c: Category, symbol: string, t: nat)
    requires Sound(h) && Stuck(h, t) && i < |h.sessions| && h.sessions[i].open
    ensures var (se, st) := RestartIfActive(h.sessions[i], h.st, i, c, symbol);
            var h' := Hub(h.sessions[i := se], st);
            Sound(h') && Stuck(h', t) && h'.sessions[i].open
  {
    if Key(c) in h.sessions[i].active {
      RestartLeavesStuck(h, i, c, symbol, t);
    } else {
      assert h.sessions[i := h.sessions[i]] == h.sessions;
    }
  }

  lemma RelabelLeavesStuck(h: Hub, i: nat, se: Session, t: nat)
    requires Sound(h) && Stuck(h, t) && i < |h.sessions| && se.active == h.sessions[i].active && (se.open ==> h.sessions[i].open)
    ensures Sound(Hub(h.sessions[i := se], h.st)) && Stuck(Hub(h.sessions[i := se], h.st), t)
  {
    RelabelKeeps(h, i, se);
  }

  lemma ChangeLeavesStuck(h: Hub, i: nat, m: Message, t: nat)
    requires Sound(h) && Stuck(h, t) && i < |h.sessions| && h.sessions[i].open && Changes(m) && !Fatal(m)
    ensures Stuck(H.Step(h, Deliver(i, m)), t)
  {
    hide Stuck, Sound, Restart, CancelActive;
    var symbol := SymbolOf(h.sessions[i], m);
    var h0 := Hub(h.sessions[i := h.sessions[i].(current := symbol)], h.st);
    RelabelLeavesStuck(h, i, h0.sessions[i], t);
    RestartIfActiveLeavesStuck(h0, i, MarketPrice, symbol, t);
    var (se1, st1) := RestartIfActive(h0.sessions[i], h.st, i, MarketPrice, symbol);
    var h1 := Hub(h0.sessions[i := se1], st1);
    RestartIfActiveLeavesStuck(h1, i, OrderBook, symbol, t);
    var (se2, st2) := RestartIfActive(se1, st1, i, OrderBook, symbol);
    assert h1.sessions[i := se2] == h.sessions[i := se2];
  }

  lemma DeliverLeavesStuck(h: Hub, i: nat, m: Message, t: nat)
    requires Sound(h) && Stuck(h, t) && i < |h.sessions|
    ensures Stuck(H.Step(h, Deliver(i, m)), t)
  {
    var se := h.sessions[i];
    if !se.open || m.BadJson? {
      assert h.sessions[i := se] == h.sessions;
    } else if Fatal(m) {
      RelabelLeavesStuck(h, i, se.(open := false), t);
    } else if Changes(m) {
      ChangeLeavesStuck(h, i, m, t);
    } else if SubscribesMarket(m) || SubscribesBook(m) {
      var symbol := SymbolOf(se, m);
      var c := if SubscribesMarket(m) then MarketPrice else OrderBook;
      var h0 := Hub(h.sessions[i := se.(current := symbol)], h.st);
      RelabelLeavesStuck(h, i, se.(current := symbol), t);
      RestartLeavesStuck(h0, i, c, symbol, t);
      assert h0.sessions[i := Receive(se, h.st, i, m).0] == h.sessions[i := Receive(se, h.st, i, m).0];
    } else if SubscribesTop(m) {
      RestartLeavesStuck(h, i, Top10, "", t);
    } else if m.category.Named? && Unsubscribes(m, m.category.name) {
      CancelActiveLeavesStuck(h, i, m.category.name, t);
    } else {
      assert h.sessions[i := se] == h.sessions;
    }
  }

  lemma RunLeavesStuck(h: Hub, l: Label, t: nat)
    requires Sound(h) && Stuck(h, t) && FanOut.Enabled(h.st, l) && (l.RunTask? || l.RunWorker?)
    ensures Stuck(h.(st := FanOut.Step(h.st, l)), t)
  {
    var w := h.st.tasks[t].point.worker;
    assert TaskOk(h.st.reg, h.st.tasks[t]) && WorkerOk(h.st.reg, w);
    if l.RunTask? {
      assert TaskOk(h.st.reg, h.st.tasks[l.task]);
    } else {
      assert WorkerOk(h.st.reg, l.worker);
      W.ResumeClassified(h.st.reg.tasks[l.worker], l.result);
    }
  }

  lemma StepLeavesStuck(h: Hub, e: Event, t: nat)
    requires Sound(h) && Stuck(h, t) && H.Enabled(h, e)
    ensures Stuck(H.Step(h, e), t)
  {
    match e
    case Connect =>
    case Deliver(i, m) => DeliverLeavesStuck(h, i, m, t);
    case Disconnect(i) => RelabelLeavesStuck(h, i, h.sessions[i].(open := false), t);
    case RunTask(u, o) => RunLeavesStuck(h, FanOut.RunTask(u, o), t);
    case RunWorker(w, o) => RunLeavesStuck(h, FanOut.RunWorker(w, o), t);
  }

  /** A stuck task waits in every future. */
  lemma {:induction false} StuckForEver(es: seq<Event>, more: seq<Event>, t: nat)
    requires H.IsRun(es) && H.IsRun(es + more) && Stuck(H.After(es), t)
    ensures Stuck(H.After(es + more), t)
  {
    if more == [] {
      assert es + more == es;
    } else {
      var front := es + more[..|more| - 1];
      assert (es + more)[..|es + more| - 1] == front;
      StuckForEver(es, more[..|more| - 1], t);
      ReachableIsSound(front);
      StepLeavesStuck(H.After(front), more[|more| - 1], t);
    }
  }

  // ---------- Coming to an end ----------

  /** Every task that waits for an active worker is uncancelled and its session is open. */
  ghost predicate Drainable(h: Hub) {
    forall t | 0 <= t < |h.st.tasks| && WaitsForActive(h.st, t) ::
      !h.st.tasks[t].cancelled && h.st.tasks[t].owner < |h.sessions| && h.sessions[h.st.tasks[t].owner].open
  }

  /** A driving step makes no further task wait for an active worker. */
  lemma DrivingWakesNone(st: State, l: Label, u: nat)
    requires FanOut.Inv(st) && FanOut.Enabled(st, l) && Drives(st, l) && WaitsForActive(FanOut.Step(st, l), u)
    ensures u < |st.tasks| && WaitsForActive(st, u) && FanOut.Step(st, l).tasks[u] == st.tasks[u]
  {
    if u < |st.tasks| {
      assert TaskOk(st.reg, st.tasks[u]);
    }
    match l
    case CancelTask(_) =>
    case RunTask(t, o) => assert TaskOk(st.reg, st.tasks[t]);
    case RunWorker(w, o) =>
      assert WorkerOk(st.reg, w);
      W.ResumeClassified(st.reg.tasks[w], o);
  }

  const UNSUBSCRIBE := Object("unsubscribe", NoSymbol, Named(MARKET))

  /** The owner of a live market-price task can cancel it by unsubscribing. */
  lemma OwnerCancels(h: Hub, t: nat)
    requires H.Inv(h) && t < |h.st.tasks| && Live(h.st.tasks[t]) && h.st.tasks[t].category.MarketPrice?
    requires h.st.tasks[t].owner < |h.sessions| && h.sessions[h.st.tasks[t].owner].open
    ensures var h' := H.Step(h, Deliver(h.st.tasks[t].owner, UNSUBSCRIBE));
            && h'.st == Cancel(h.st, t) && |h'.sessions| == |h.sessions|
            && forall i | 0 <= i < |h.sessions| :: h'.sessions[i].open == h.sessions[i].open
  {
    assert Placed(h.sessions, h.st, t);
    assert |"unsubscribe"| == 11 && |"subscribe_market_price"| == 22 && |"subscribe_order_book"| == 20;
    assert |"subscribe_top_10"| == 16 && |MARKET| == 12;
  }

  /** The event that makes a driving step of the fan-out. */
  lemma DriveHub(h: Hub, l: Label) returns (e: Event)
    requires H.Inv(h) && Drainable(h) && FanOut.Enabled(h.st, l) && Drives(h.st, l)
    ensures H.Enabled(h, e) && H.Step(h, e).st == FanOut.Step(h.st, l) && Drainable(H.Step(h, e))
  {
    match l {
      case CancelTask(t) =>
        assert TaskOk(h.st.reg, h.st.tasks[t]);
        OwnerCancels(h, t);
        e := Deliver(h.st.tasks[t].owner, UNSUBSCRIBE);
      case RunTask(t, o) => e := Event.RunTask(t, o);
      case RunWorker(w, o) => e := Event.RunWorker(w, o);
    }
    var h' := H.Step(h, e);
    forall u | 0 <= u < |h'.st.tasks| && WaitsForActive(h'.st, u)
      ensures !h'.st.tasks[u].cancelled && h'.st.tasks[u].owner < |h'.sessions|
              && h'.sessions[h'.st.tasks[u].owner].open
    {
      DrivingWakesNone(h.st, l, u);
    }
  }

  /** The continuation is a run after which all tasks have finished. */
  ghost predicate Drains(es: seq<Event>, more: seq<Event>) {
    H.IsRun(es + more) && AllFinished(H.After(es + more).st)
  }

  lemma RegroupEvents(es: seq<Event>, e: Event, rest: seq<Event>)
    ensures (es + [e]) + rest == es + ([e] + rest)
  {
  }

  lemma {:induction false} HubCanDrain(es: seq<Event>) returns (more: seq<Event>)
    requires H.IsRun(es) && Drainable(H.After(es))
    ensures Drains(es, more) && KeepsJust(H.After(es + more).st, H.After(es).st)
    decreases Rank(H.After(es).st)
  {
    var h := H.After(es);
    H.RunKeepsInv(es);
    if AllFinished(h.st) {
      more := [];
      assert es + more == es;
      FinishedKeepsJust(h.st);
    } else {
      var l := Towards(h.st);
      var e := DriveHub(h, l);
      var es' := ExtendHubRun(es, e);
      var rest := HubCanDrain(es');
      more := [e] + rest;
      RegroupEvents(es, e, rest);
      KeepsJustOfEarlier(H.After(es' + rest).st, H.After(es').st, h.st);
    }
  }

  /** No future in which all tasks finish leaves fewer references than are lost already. */
  lemma HubLeastResidue(es: seq<Event>, more: seq<Event>, s: string)
    requires H.IsRun(es) && Drains(es, more)
    ensures Subscribers(H.After(es + more).st.reg, s) >= Lost(H.After(es).st, s)
  {
    var ls := HubRunIsFanOutRun(es);
    var ls' := HubContinues(es, more, ls);
    assert ls + ls'[|ls|..] == ls';
    LeastResidue(ls, ls'[|ls|..], s);
  }

  /**
    A run of the sessions can be continued until all tasks have finished exactly when
    every task that waits for a worker which has swallowed its cancellation is itself
    uncancelled and belongs to an open session. It can then be done so that each
    symbol keeps just the references already lost.
  */
  lemma CanDrainIff(es: seq<Event>)
    requires H.IsRun(es)
    ensures Drainable(H.After(es)) <==> exists more :: Drains(es, more)
    ensures Drainable(H.After(es)) ==>
              exists more :: Drains(es, more) && KeepsJust(H.After(es + more).st, H.After(es).st)
  {
    var h := H.After(es);
    if Drainable(h) {
      var more := HubCanDrain(es);
    } else {
      ReachableIsSound(es);
      var t :| 0 <= t < |h.st.tasks| && WaitsForActive(h.st, t)
               && !(!h.st.tasks[t].cancelled && h.st.tasks[t].owner < |h.sessions| && h.sessions[h.st.tasks[t].owner].open);
      assert Placed(h.sessions, h.st, t);
      forall more ensures !Drains(es, more) {
        if H.IsRun(es + more) {
          StuckForEver(es, more, t);
        }
      }
    }
  }

  // ---------- A handler that waits for ever ----------

  const SUBSCRIBE := Object("subscribe_market_price", NoSymbol, NoCategory)
  const VIEWER := Task(0, MarketPrice, DEFAULT_SYMBOL, Listening, false, false)
  const LISTENER := W.Worker(DEFAULT_SYMBOL, W.SendingTicker, false, false, false)

  const STREAMING := NEW_SESSION.(active := map[MARKET := 0])

  lemma SubscribeSpawns()
    ensures Receive(NEW_SESSION, INITIAL, 0, SUBSCRIBE) == (STREAMING, INITIAL.(tasks := [VIEWER.(point := Created)]))
  {
    DefaultIsUpper();
    var none: map<string, nat> := map[];
    assert none - {MARKET} == none && none[MARKET := 0] == map[MARKET := 0];
    assert CancelActive(NEW_SESSION, INITIAL, MARKET) == (NEW_SESSION, INITIAL);
    var created := Task(0, MarketPrice, Upper(DEFAULT_SYMBOL), Created, false, false);
    assert created == VIEWER.(point := Created) && INITIAL.tasks + [created] == [created];
    assert Restart(NEW_SESSION, INITIAL, 0, MarketPrice, DEFAULT_SYMBOL)
        == (STREAMING, INITIAL.(tasks := [VIEWER.(point := Created)]));
    assert !Fatal(SUBSCRIBE) && SymbolOf(NEW_SESSION, SUBSCRIBE) == DEFAULT_SYMBOL;
    assert NEW_SESSION.(current := DEFAULT_SYMBOL) == NEW_SESSION;
  }

  lemma Subscribed() returns (es: seq<Event>)
    ensures H.IsRun(es) && H.After(es) == Hub([STREAMING], INITIAL.(tasks := [VIEWER.(point := Created)]))
  {
    SubscribeSpawns();
    assert H.IsRun([]) && H.After([]) == EMPTY;
    es := ExtendHubRun([], Connect);
    assert H.After(es) == Hub([NEW_SESSION], INITIAL);
    es := ExtendHubRun(es, Deliver(0, SUBSCRIBE));
  }

  lemma Listens() returns (es: seq<Event>)
    ensures H.IsRun(es)
    ensures H.After(es) == Hub([STREAMING], State(Registry(map[DEFAULT_SYMBOL := 0], map[DEFAULT_SYMBOL := 1], [W.New(DEFAULT_SYMBOL)]), [VIEWER]))
  {
    DefaultIsUpper();
    es := Subscribed();
    es := ExtendHubRun(es, Event.RunTask(0, Completed));
    es := ExtendHubRun(es, Event.RunTask(0, Completed));
  }

  /** A session streams the default symbol, and its worker is connected. */
  lemma OneViewer() returns (es: seq<Event>)
    ensures H.IsRun(es)
    ensures H.After(es) == Hub([STREAMING], State(Registry(map[DEFAULT_SYMBOL := 0], map[DEFAULT_SYMBOL := 1], [LISTENER]), [VIEWER]))
  {
    es := Listens();
    es := ExtendHubRun(es, Event.RunWorker(0, W.Done));
    es := ExtendHubRun(es, Event.RunWorker(0, W.Done));
  }

  lemma Unsubscribed() returns (es: seq<Event>)
    ensures H.IsRun(es)
    ensures H.After(es).st == State(Registry(map[DEFAULT_SYMBOL := 0], map[DEFAULT_SYMBOL := 1], [LISTENER]),
                                    [VIEWER.(cancelled := true, pending := true)])
  {
    es := OneViewer();
    H.RunKeepsInv(es);
    OwnerCancels(H.After(es), 0);
    es := ExtendHubRun(es, Deliver(0, UNSUBSCRIBE));
  }

  /** The session has unsubscribed, and the task is about to release the symbol. */
  lemma ViewerLeaves() returns (es: seq<Event>)
    ensures H.IsRun(es)
    ensures H.After(es).st == State(Registry(map[DEFAULT_SYMBOL := 0], map[DEFAULT_SYMBOL := 1], [LISTENER]),
                                    [VIEWER.(point := Closing, cancelled := true)])
  {
    es := Unsubscribed();
    es := ExtendHubRun(es, Event.RunTask(0, Completed));
    es := ExtendHubRun(es, Event.RunTask(0, Completed));
  }

  /**
    A client that subscribes and unsubscribes once, whose worker fails to close its
    connection: the handler then waits for ever.
  */
  lemma HandlerWaitsForEver() returns (es: seq<Event>)
    ensures H.IsRun(es) && Stuck(H.After(es), 0)
    ensures !exists more :: Drains(es, more)
  {
    DefaultIsUpper();
    es := ViewerLeaves();
    es := ExtendHubRun(es, Event.RunTask(0, Completed));
    es := ExtendHubRun(es, Event.RunWorker(0, W.Done));
    es := ExtendHubRun(es, Event.RunWorker(0, W.Failed));
    assert WaitsForActive(H.After(es).st, 0);
    CanDrainIff(es);
  }
}
