/**
  Any number of websocket sessions over the shared fan-out: who owns which task,
  and what the stored counts mean in terms of sessions.
*/
module Hub {
  import opened Counting
  import opened FanOut
  import opened Sessions
  import W = SymbolWorker

  datatype Hub = Hub(sessions: seq<Session>, st: State)

  datatype Event =
    | Connect
    | Deliver(session: nat, message: Message)
    | Disconnect(session: nat)
    | RunTask(task: nat, outcome: Outcome)
    | RunWorker(worker: nat, result: W.Outcome)

  const EMPTY := Hub([], INITIAL)

  predicate Enabled(h: Hub, e: Event) {
    match e
    case Connect => true
    case Deliver(i, _) => i < |h.sessions|
    case Disconnect(i) => i < |h.sessions|
    case RunTask(t, o) => FanOut.Enabled(h.st, FanOut.RunTask(t, o))
    case RunWorker(w, o) => FanOut.Enabled(h.st, FanOut.RunWorker(w, o))
  }

  /** A disconnect ends the message loop; it cancels no task. */
  function Step(h: Hub, e: Event): Hub
    requires Enabled(h, e)
  {
    match e
    case Connect => h.(sessions := h.sessions + [NEW_SESSION])
    case Deliver(i, m) =>
      var (se, st) := Receive(h.sessions[i], h.st, i, m);
      Hub(h.sessions[i := se], st)
    case Disconnect(i) => h.(sessions := h.sessions[i := h.sessions[i].(open := false)])
    case RunTask(t, o) => h.(st := FanOut.Step(h.st, FanOut.RunTask(t, o)))
    case RunWorker(w, o) => h.(st := FanOut.Step(h.st, FanOut.RunWorker(w, o)))
  }

  ghost predicate IsRun(es: seq<Event>)
    decreases |es|, 0
  {
    es == [] || (IsRun(es[..|es| - 1]) && Enabled(After(es[..|es| - 1]), es[|es| - 1]))
  }

  ghost function After(es: seq<Event>): Hub
    requires IsRun(es)
    decreases |es|, 1
  {
    if es == [] then EMPTY else Step(After(es[..|es| - 1]), es[|es| - 1])
  }

  // ---------- Invariant ----------

  /** A registered task belongs to the session and category it is registered under, and nobody cancelled it. */
  predicate Owned(se: Session, st: State, i: nat, c: string)
    requires c in se.active
  {
    && se.active[c] < |st.tasks|
    && var k := st.tasks[se.active[c]];
    k.owner == i && Key(k.category) == c && !k.cancelled
  }

  ghost predicate SessionOk(se: Session, st: State, i: nat) {
    forall c | c in se.active :: Owned(se, st, i, c)
  }

  /** A task that was not cancelled and has not finished. */
  predicate Live(k: Task) {
    !k.cancelled && !k.point.Finished?
  }

  /** A live task is the one its owner has registered under its category. */
  predicate Placed(ss: seq<Session>, st: State, t: nat)
    requires t < |st.tasks|
  {
    var k := st.tasks[t];
    Live(k) ==> k.owner < |ss| && Key(k.category) in ss[k.owner].active && ss[k.owner].active[Key(k.category)] == t
  }

  ghost predicate Inv(h: Hub) {
    && FanOut.Inv(h.st)
    && (forall i | 0 <= i < |h.sessions| :: SessionOk(h.sessions[i], h.st, i))
    && (forall t | 0 <= t < |h.st.tasks| :: Placed(h.sessions, h.st, t))
  }

  lemma CancelActiveKeeps(h: Hub, i: nat, name: string)
    requires Inv(h) && i < |h.sessions|
    ensures var (se, st) := CancelActive(h.sessions[i], h.st, name);
            && Inv(Hub(h.sessions[i := se], st))
            && name !in se.active
            && |st.tasks| == |h.st.tasks|
  {
    var before := h.sessions[i];
    var (se, st) := CancelActive(before, h.st, name);
    if name in before.active {
      var t := before.active[name];
      assert Owned(before, h.st, i, name);
      CancelKeeps(h.st, t);
      var h' := Hub(h.sessions[i := se], st);
      forall j | 0 <= j < |h'.sessions| ensures SessionOk(h'.sessions[j], st, j) {
        forall c | c in h'.sessions[j].active ensures Owned(h'.sessions[j], st, j, c) {
          assert Owned(h.sessions[j], h.st, j, c);
          assert h'.sessions[j].active[c] != t;
        }
      }
      forall u | 0 <= u < |st.tasks| ensures Placed(h'.sessions, st, u) {
        assert Placed(h.sessions, h.st, u);
      }
    } else {
      assert se == before;
      assert h.sessions[i := se] == h.sessions;
    }
  }

  lemma RegisterKeeps(h: Hub, i: nat, c: Category, symbol: string)
    requires Inv(h) && i < |h.sessions| && Key(c) !in h.sessions[i].active
    ensures Inv(Hub(h.sessions[i := h.sessions[i].(active := h.sessions[i].active[Key(c) := |h.st.tasks|])],
                    Spawn(h.st, i, c, symbol)))
  {
    var se := h.sessions[i].(active := h.sessions[i].active[Key(c) := |h.st.tasks|]);
    var st := Spawn(h.st, i, c, symbol);
    SpawnKeeps(h.st, i, c, symbol);
    var h' := Hub(h.sessions[i := se], st);
    forall j | 0 <= j < |h'.sessions| ensures SessionOk(h'.sessions[j], st, j) {
      forall k | k in h'.sessions[j].active ensures Owned(h'.sessions[j], st, j, k) {
        if j != i || k != Key(c) {
          assert Owned(h.sessions[j], h.st, j, k);
        }
      }
    }
    forall u | 0 <= u < |st.tasks| ensures Placed(h'.sessions, st, u) {
      if u < |h.st.tasks| {
        assert Placed(h.sessions, h.st, u);
      }
    }
  }

  lemma RestartKeeps(h: Hub, i: nat, c: Category, symbol: string)
    requires Inv(h) && i < |h.sessions|
    ensures var (se, st) := Restart(h.sessions[i], h.st, i, c, symbol);
            Inv(Hub(h.sessions[i := se], st))
  {
    CancelActiveKeeps(h, i, Key(c));
    var (se1, st1) := CancelActive(h.sessions[i], h.st, Key(c));
    var h1 := Hub(h.sessions[i := se1], st1);
    RegisterKeeps(h1, i, c, symbol);
    var (se, st) := Restart(h.sessions[i], h.st, i, c, symbol);
    assert h1.sessions[i := se] == h.sessions[i := se];
  }

  /** The current symbol and the open flag play no part in the invariant. */
  lemma RelabelKeeps(h: Hub, i: nat, se: Session)
    requires Inv(h) && i < |h.sessions| && se.active == h.sessions[i].active
    ensures Inv(Hub(h.sessions[i := se], h.st))
  {
    var h' := Hub(h.sessions[i := se], h.st);
    forall j | 0 <= j < |h'.sessions| ensures SessionOk(h'.sessions[j], h.st, j) {
      forall c | c in h'.sessions[j].active ensures Owned(h'.sessions[j], h.st, j, c) {
        assert Owned(h.sessions[j], h.st, j, c);
      }
    }
    forall u | 0 <= u < |h.st.tasks| ensures Placed(h'.sessions, h.st, u) {
      assert Placed(h.sessions, h.st, u);
    }
  }

  lemma RestartIfActiveKeeps(h: Hub, i: nat, c: Category, symbol: string)
    requires Inv(h) && i < |h.sessions|
    ensures var (se, st) := RestartIfActive(h.sessions[i], h.st, i, c, symbol);
            Inv(Hub(h.sessions[i := se], st))
  {
    if Key(c) in h.sessions[i].active {
      RestartKeeps(h, i, c, symbol);
    } else {
      assert h.sessions[i := h.sessions[i]] == h.sessions;
    }
  }

  lemma ChangeKeeps(h: Hub, i: nat, m: Message)
    requires Inv(h) && i < |h.sessions| && h.sessions[i].open && Changes(m) && !Fatal(m)
    ensures Inv(Step(h, Deliver(i, m)))
  {
    var symbol := SymbolOf(h.sessions[i], m);
    var h0 := Hub(h.sessions[i := h.sessions[i].(current := symbol)], h.st);
    RelabelKeeps(h, i, h0.sessions[i]);
    RestartIfActiveKeeps(h0, i, MarketPrice, symbol);
    var (se1, st1) := RestartIfActive(h0.sessions[i], h.st, i, MarketPrice, symbol);
    var h1 := Hub(h0.sessions[i := se1], st1);
    RestartIfActiveKeeps(h1, i, OrderBook, symbol);
    var (se2, st2) := RestartIfActive(se1, st1, i, OrderBook, symbol);
    assert h1.sessions[i := se2] == h.sessions[i := se2];
  }

  lemma DeliverKeeps(h: Hub, i: nat, m: Message)
    requires Inv(h) && i < |h.sessions|
    ensures Inv(Step(h, Deliver(i, m)))
  {
    var se := h.sessions[i];
    if !se.open || m.BadJson? {
      assert h.sessions[i := se] == h.sessions;
    } else if Fatal(m) {
      RelabelKeeps(h, i, se.(open := false));
    } else {
      var symbol := SymbolOf(se, m);
      var h0 := Hub(h.sessions[i := se.(current := symbol)], h.st);
      RelabelKeeps(h, i, se.(current := symbol));
      if SubscribesMarket(m) {
        RestartKeeps(h0, i, MarketPrice, symbol);
        assert h0.sessions[i := Receive(se, h.st, i, m).0] == h.sessions[i := Receive(se, h.st, i, m).0];
      } else if SubscribesBook(m) {
        RestartKeeps(h0, i, OrderBook, symbol);
        assert h0.sessions[i := Receive(se, h.st, i, m).0] == h.sessions[i := Receive(se, h.st, i, m).0];
      } else if SubscribesTop(m) {
        RestartKeeps(h, i, Top10, "");
      } else if Changes(m) {
        ChangeKeeps(h, i, m);
      } else if m.category.Named? && Unsubscribes(m, m.category.name) {
        CancelActiveKeeps(h, i, m.category.name);
      } else {
        assert h.sessions[i := se] == h.sessions;
      }
    }
  }

  /** Running a task or a worker cancels no task, and revives none. */
  lemma RunSparesAll(st: State, l: Label)
    requires FanOut.Enabled(st, l) && (l.RunTask? || l.RunWorker?)
    ensures |FanOut.Step(st, l).tasks| == |st.tasks|
    ensures forall u | 0 <= u < |st.tasks| ::
              var k, k' := st.tasks[u], FanOut.Step(st, l).tasks[u];
              && k'.owner == k.owner && k'.category == k.category && k'.cancelled == k.cancelled
              && (k.point.Finished? ==> k'.point.Finished?)
  {
  }

  lemma RunKeeps(h: Hub, l: Label)
    requires Inv(h) && FanOut.Enabled(h.st, l) && (l.RunTask? || l.RunWorker?)
    ensures Inv(h.(st := FanOut.Step(h.st, l)))
  {
    StepKeeps(h.st, l);
    RunSparesAll(h.st, l);
    hide FanOut.Step, FanOut.Inv;
    var st := FanOut.Step(h.st, l);
    forall j | 0 <= j < |h.sessions| ensures SessionOk(h.sessions[j], st, j) {
      forall c | c in h.sessions[j].active ensures Owned(h.sessions[j], st, j, c) {
        assert Owned(h.sessions[j], h.st, j, c);
      }
    }
    forall u | 0 <= u < |st.tasks| ensures Placed(h.sessions, st, u) {
      assert Placed(h.sessions, h.st, u);
    }
  }

  lemma ConnectKeeps(h: Hub)
    requires Inv(h)
    ensures Inv(Step(h, Connect))
  {
    var h' := Step(h, Connect);
    forall j | 0 <= j < |h'.sessions| ensures SessionOk(h'.sessions[j], h.st, j) {
      if j < |h.sessions| {
        assert SessionOk(h.sessions[j], h.st, j);
      }
    }
    forall u | 0 <= u < |h.st.tasks| ensures Placed(h'.sessions, h.st, u) {
      assert Placed(h.sessions, h.st, u);
    }
  }

  lemma {:induction false} RunKeepsInv(es: seq<Event>)
    requires IsRun(es)
    ensures Inv(After(es))
  {
    if es == [] {
    } else {
      var h, e := After(es[..|es| - 1]), es[|es| - 1];
      RunKeepsInv(es[..|es| - 1]);
      match e {
        case Connect => ConnectKeeps(h);
        case Deliver(i, m) => DeliverKeeps(h, i, m);
        case Disconnect(i) => RelabelKeeps(h, i, h.sessions[i].(open := false));
        case RunTask(t, o) => RunKeeps(h, FanOut.RunTask(t, o));
        case RunWorker(w, o) => RunKeeps(h, FanOut.RunWorker(w, o));
      }
    }
  }

  // ---------- Main results ----------

  /**
    In every reachable state a live task is registered by its owner under its
    category and by no other session, so a session has at most one live task per
    category.
  */
  lemma LiveTasksAreOwned(es: seq<Event>, t: nat)
    requires IsRun(es) && t < |After(es).st.tasks| && Live(After(es).st.tasks[t])
    ensures var h := After(es); var k := h.st.tasks[t];
            && k.owner < |h.sessions|
            && (forall i | 0 <= i < |h.sessions| ::
                  (exists c :: c in h.sessions[i].active && h.sessions[i].active[c] == t) <==> i == k.owner)
            && (forall u | 0 <= u < |h.st.tasks| && Live(h.st.tasks[u]) && h.st.tasks[u].owner == k.owner
                  && h.st.tasks[u].category == k.category :: u == t)
  {
    RunKeepsInv(es);
    var h := After(es);
    var k := h.st.tasks[t];
    assert Placed(h.sessions, h.st, t);
    forall i | 0 <= i < |h.sessions|
      ensures (exists c :: c in h.sessions[i].active && h.sessions[i].active[c] == t) <==> i == k.owner
    {
      if c :| c in h.sessions[i].active && h.sessions[i].active[c] == t {
        assert Owned(h.sessions[i], h.st, i, c);
      } else {
        assert i != k.owner;
      }
    }
    forall u | 0 <= u < |h.st.tasks| && Live(h.st.tasks[u]) && h.st.tasks[u].owner == k.owner
        && h.st.tasks[u].category == k.category
      ensures u == t
    {
      assert Placed(h.sessions, h.st, u);
    }
  }

  /** A task that streams `s` and has not been cancelled. */
  predicate Watches(k: Task, s: string) {
    Live(k) && Holds(k) && k.symbol == s
  }

  function StreamerOf(s: string): Task -> bool {
    (k: Task) => Watches(k, s)
  }

  /** A cancelled or failed task that still has its reference on `s`. */
  function LeaverOf(s: string): Task -> bool {
    (k: Task) => Holds(k) && !Live(k) && k.symbol == s
  }

  /** The sessions whose registered market-price task streams `s`. */
  ghost function Viewers(h: Hub, s: string): set<nat> {
    set i: nat | i < |h.sessions| && MARKET in h.sessions[i].active && h.sessions[i].active[MARKET] < |h.st.tasks|
                 && Watches(h.st.tasks[h.sessions[i].active[MARKET]], s)
  }

  lemma ViewersAreStreamers(h: Hub, s: string)
    requires Inv(h)
    ensures |Viewers(h, s)| == Count(h.st.tasks, StreamerOf(s))
  {
    CountIsCardinality(h.st.tasks, StreamerOf(s));
    var a, b := Viewers(h, s), Positions(h.st.tasks, StreamerOf(s));
    var f := (i: nat) => if i < |h.sessions| && MARKET in h.sessions[i].active then h.sessions[i].active[MARKET] else 0;
    assert |MARKET| == 12 && |BOOK| == 10 && |TOP| == 6;
    forall x, y | x in a && y in a && f(x) == f(y) ensures x == y {
      assert Owned(h.sessions[x], h.st, x, MARKET);
      assert Owned(h.sessions[y], h.st, y, MARKET);
    }
    forall t | t in b ensures exists i :: i in a && f(i) == t {
      assert Placed(h.sessions, h.st, t);
      var i := h.st.tasks[t].owner;
      assert i in a && f(i) == t;
    }
    InjectiveImage(a, b, f);
  }

  /**
    In every reachable state the count stored for a symbol is the number of
    sessions that stream it plus the number of tasks that ended or are ending
    without having given their reference back.
  */
  lemma CountIsViewersAndLeavers(es: seq<Event>, s: string)
    requires IsRun(es)
    ensures var h := After(es);
            Subscribers(h.st.reg, s) == |Viewers(h, s)| + Count(h.st.tasks, LeaverOf(s))
  {
    RunKeepsInv(es);
    var h := After(es);
    ViewersAreStreamers(h, s);
    CountSplit(h.st.tasks, HolderOf(s), StreamerOf(s), LeaverOf(s));
  }

  /** A symbol somebody streams has its one worker registered and running. */
  lemma ViewedSymbolHasWorker(es: seq<Event>, s: string)
    requires IsRun(es) && Viewers(After(es), s) != {}
    ensures var r := After(es).st.reg;
            s in r.workers && r.workers[s] < |r.tasks| && W.Active(r.tasks[r.workers[s]])
  {
    RunKeepsInv(es);
    var h := After(es);
    var i :| i in Viewers(h, s);
    HolderIsCounted(h.st, h.sessions[i].active[MARKET]);
    assert WorkerOk(h.st.reg, h.st.reg.workers[s]);
  }

  // ---------- After a disconnect ----------

  /** Tasks stay where they are, and those of other owners are not cancelled. */
  ghost predicate SparesOthers(st: State, st': State, i: nat) {
    && |st.tasks| <= |st'.tasks|
    && forall t | 0 <= t < |st.tasks| ::
         && st'.tasks[t].owner == st.tasks[t].owner
         && (st.tasks[t].owner != i ==> st'.tasks[t].cancelled == st.tasks[t].cancelled)
  }

  lemma RestartSpares(h: Hub, i: nat, c: Category, symbol: string)
    requires Inv(h) && i < |h.sessions|
    ensures SparesOthers(h.st, Restart(h.sessions[i], h.st, i, c, symbol).1, i)
  {
    if Key(c) in h.sessions[i].active {
      assert Owned(h.sessions[i], h.st, i, Key(c));
    }
  }

  lemma SparesTransitive(a: State, b: State, c: State, i: nat)
    requires SparesOthers(a, b, i) && SparesOthers(b, c, i)
    ensures SparesOthers(a, c, i)
  {
  }

  lemma RestartIfActiveSpares(h: Hub, i: nat, c: Category, symbol: string)
    requires Inv(h) && i < |h.sessions|
    ensures SparesOthers(h.st, RestartIfActive(h.sessions[i], h.st, i, c, symbol).1, i)
  {
    if Key(c) in h.sessions[i].active {
      RestartSpares(h, i, c, symbol);
    }
  }

  lemma ChangeSpares(h: Hub, i: nat, symbol: string)
    requires Inv(h) && i < |h.sessions|
    ensures var (se1, st1) := RestartIfActive(h.sessions[i], h.st, i, MarketPrice, symbol);
            SparesOthers(h.st, RestartIfActive(se1, st1, i, OrderBook, symbol).1, i)
  {
    hide Inv, SparesOthers, RestartIfActive;
    var (se1, st1) := RestartIfActive(h.sessions[i], h.st, i, MarketPrice, symbol);
    var h1 := Hub(h.sessions[i := se1], st1);
    RestartIfActiveKeeps(h, i, MarketPrice, symbol);
    RestartIfActiveSpares(h, i, MarketPrice, symbol);
    RestartIfActiveSpares(h1, i, OrderBook, symbol);
    SparesTransitive(h.st, st1, RestartIfActive(se1, st1, i, OrderBook, symbol).1, i);
  }

  lemma ReceiveSpares(h: Hub, i: nat, m: Message)
    requires Inv(h) && i < |h.sessions|
    ensures SparesOthers(h.st, Receive(h.sessions[i], h.st, i, m).1, i)
  {
    var se := h.sessions[i];
    if se.open && m.Object? && !Fatal(m) {
      var symbol := SymbolOf(se, m);
      var h0 := Hub(h.sessions[i := se.(current := symbol)], h.st);
      RelabelKeeps(h, i, se.(current := symbol));
      if SubscribesMarket(m) {
        RestartSpares(h0, i, MarketPrice, symbol);
      } else if SubscribesBook(m) {
        RestartSpares(h0, i, OrderBook, symbol);
      } else if SubscribesTop(m) {
        RestartSpares(h, i, Top10, "");
      } else if Changes(m) {
        ChangeSpares(h0, i, symbol);
      } else if m.category.Named? && Unsubscribes(m, m.category.name) && m.category.name in se.active {
        assert Owned(se, h.st, i, m.category.name);
      }
    }
  }

  /** A closed session whose task `t` nobody cancelled. */
  ghost predicate ClosedOwner(h: Hub, i: nat, t: nat) {
    && i < |h.sessions| && !h.sessions[i].open
    && t < |h.st.tasks| && h.st.tasks[t].owner == i && !h.st.tasks[t].cancelled
  }

  lemma StepKeepsClosedOwner(h: Hub, e: Event, i: nat, t: nat)
    requires Inv(h) && Enabled(h, e) && ClosedOwner(h, i, t)
    ensures ClosedOwner(Step(h, e), i, t)
  {
    match e
    case Connect =>
    case Deliver(j, m) =>
      if j != i {
        ReceiveSpares(h, j, m);
      }
    case Disconnect(_) =>
    case RunTask(u, o) => RunSparesAll(h.st, FanOut.RunTask(u, o));
    case RunWorker(_, _) =>
  }

  /**
    Once a session is disconnected nothing cancels its tasks, in any future: those
    that were live then go on until they fail or finish by themselves.
  */
  lemma {:induction false} DisconnectedIsNeverCancelled(es: seq<Event>, more: seq<Event>, i: nat, t: nat)
    requires IsRun(es) && IsRun(es + more)
    requires ClosedOwner(After(es), i, t)
    ensures ClosedOwner(After(es + more), i, t)
  {
    if more == [] {
      assert es + more == es;
    } else {
      var front := es + more[..|more| - 1];
      assert (es + more)[..|es + more| - 1] == front;
      DisconnectedIsNeverCancelled(es, more[..|more| - 1], i, t);
      RunKeepsInv(front);
      StepKeepsClosedOwner(After(front), more[|more| - 1], i, t);
    }
  }

  // ---------- Every hub run is a run of the fan-out ----------

  lemma ExtendByRestart(ls: seq<Label>, se: Session, owner: nat, c: Category, symbol: string) returns (ls': seq<Label>)
    requires FanOut.IsRun(ls)
    ensures ls <= ls' && FanOut.IsRun(ls') && FanOut.After(ls') == Restart(se, FanOut.After(ls), owner, c, symbol).1
  {
    ls' := ExtendByCancel(ls, se, Key(c));
    ls' := ExtendRun(ls', SpawnTask(owner, c, symbol));
  }

  lemma ExtendByCancel(ls: seq<Label>, se: Session, name: string) returns (ls': seq<Label>)
    requires FanOut.IsRun(ls)
    ensures ls <= ls' && FanOut.IsRun(ls') && FanOut.After(ls') == CancelActive(se, FanOut.After(ls), name).1
  {
    ls' := ls;
    if name in se.active && se.active[name] < |FanOut.After(ls).tasks| {
      ls' := ExtendRun(ls, CancelTask(se.active[name]));
    }
  }

  lemma ExtendByMessage(ls: seq<Label>, se: Session, owner: nat, m: Message) returns (ls': seq<Label>)
    requires FanOut.IsRun(ls)
    ensures ls <= ls' && FanOut.IsRun(ls') && FanOut.After(ls') == Receive(se, FanOut.After(ls), owner, m).1
  {
    ls' := ls;
    if se.open && m.Object? && !Fatal(m) {
      var symbol := SymbolOf(se, m);
      var se0 := se.(current := symbol);
      if SubscribesMarket(m) {
        ls' := ExtendByRestart(ls, se0, owner, MarketPrice, symbol);
      } else if SubscribesBook(m) {
        ls' := ExtendByRestart(ls, se0, owner, OrderBook, symbol);
      } else if SubscribesTop(m) {
        ls' := ExtendByRestart(ls, se, owner, Top10, "");
      } else if Changes(m) {
        var (se1, st1) := RestartIfActive(se0, FanOut.After(ls), owner, MarketPrice, symbol);
        if MARKET in se.active {
          ls' := ExtendByRestart(ls, se0, owner, MarketPrice, symbol);
        }
        if BOOK in se1.active {
          ls' := ExtendByRestart(ls', se1, owner, OrderBook, symbol);
        }
      } else if m.category.Named? && Unsubscribes(m, m.category.name) {
        ls' := ExtendByCancel(ls, se, m.category.name);
      }
    }
  }

  /** Each event is a sequence of steps of the fan-out. */
  lemma ExtendByEvent(ls: seq<Label>, h: Hub, e: Event) returns (ls': seq<Label>)
    requires FanOut.IsRun(ls) && FanOut.After(ls) == h.st && Enabled(h, e)
    ensures ls <= ls' && FanOut.IsRun(ls') && FanOut.After(ls') == Step(h, e).st
  {
    ls' := ls;
    match e {
      case Connect =>
      case Deliver(i, m) => ls' := ExtendByMessage(ls, h.sessions[i], i, m);
      case Disconnect(_) =>
      case RunTask(t, o) => ls' := ExtendRun(ls, FanOut.RunTask(t, o));
      case RunWorker(w, o) => ls' := ExtendRun(ls, FanOut.RunWorker(w, o));
    }
  }

  /**
    Whatever the sessions do, the shared state is one the fan-out reaches by its own
    steps, so its results hold of it.
  */
  lemma {:induction false} HubRunIsFanOutRun(es: seq<Event>) returns (ls: seq<Label>)
    requires IsRun(es)
    ensures FanOut.IsRun(ls) && FanOut.After(ls) == After(es).st
  {
    if es == [] {
      ls := [];
    } else {
      ls := HubRunIsFanOutRun(es[..|es| - 1]);
      ls := ExtendByEvent(ls, After(es[..|es| - 1]), es[|es| - 1]);
    }
  }

  /** A continued run is a continued run of the fan-out. */
  lemma {:induction false} HubContinues(es: seq<Event>, more: seq<Event>, ls: seq<Label>) returns (ls': seq<Label>)
    requires IsRun(es) && IsRun(es + more) && FanOut.IsRun(ls) && FanOut.After(ls) == After(es).st
    ensures ls <= ls' && FanOut.IsRun(ls') && FanOut.After(ls') == After(es + more).st
  {
    if more == [] {
      assert es + more == es;
      ls' := ls;
    } else {
      var front := es + more[..|more| - 1];
      assert (es + more)[..|es + more| - 1] == front;
      ls' := HubContinues(es, more[..|more| - 1], ls);
      ls' := ExtendByEvent(ls', After(front), more[|more| - 1]);
    }
  }

  lemma ExtendHubRun(es: seq<Event>, e: Event) returns (es': seq<Event>)
    requires IsRun(es) && Enabled(After(es), e)
    ensures es' == es + [e] && IsRun(es') && After(es') == Step(After(es), e)
  {
    es' := es + [e];
    assert es'[..|es|] == es;
  }
}
