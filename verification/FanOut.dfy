/**
  The live market-data fan-out: client tasks share one listener task per symbol
  through two global dictionaries, a worker per symbol and a subscriber count per
  symbol. Everything runs on one event loop, so a step of the model is what runs
  between two suspension points.
*/
module FanOut {
  import opened Symbols
  import opened Counting
  import opened Wrappers
  import W = SymbolWorker

  // ---------- Worker management ----------

  /** The two global dictionaries, and every worker task ever created (a task's id is its position). */
  datatype Registry = Registry(workers: map<string, nat>, subscribers: map<string, int>, tasks: seq<W.Worker>)

  function Subscribers(r: Registry, s: string): int {
    if s in r.subscribers then r.subscribers[s] else 0
  }

  /** The dictionary holds a task for the symbol, and the task is not done. */
  predicate Running(r: Registry, s: string) {
    s in r.workers && r.workers[s] < |r.tasks| && !r.tasks[r.workers[s]].point.Ended?
  }

  function Ensure(r: Registry, symbol: string): Registry {
    var s := Upper(symbol);
    var counted := r.(subscribers := r.subscribers[s := Subscribers(r, s) + 1]);
    if Running(counted, s) then counted
    else counted.(workers := r.workers[s := |r.tasks|], tasks := r.tasks + [W.New(s)])
  }

  function CancelWorker(r: Registry, w: nat): Registry
    requires w < |r.tasks|
  {
    r.(tasks := r.tasks[w := W.Cancel(r.tasks[w])])
  }

  /** The new registry, and the worker whose end the caller has to await. */
  function Stop(r: Registry, symbol: string): (Registry, Option<nat>) {
    var s := Upper(symbol);
    var popped := r.(workers := r.workers - {s});
    if Running(r, s) then (CancelWorker(popped, r.workers[s]), Some(r.workers[s])) else (popped, None)
  }

  function Remove(r: Registry, symbol: string): (Registry, Option<nat>) {
    var s := Upper(symbol);
    if s !in r.subscribers then (r, None)
    else if r.subscribers[s] - 1 <= 0 then Stop(r.(subscribers := r.subscribers - {s}), s)
    else (r.(subscribers := r.subscribers[s := r.subscribers[s] - 1]), None)
  }

  // ---------- Client tasks ----------

  datatype Category = MarketPrice | OrderBook | Top10

  /**
    How a task finished: before its first step, without giving its reference
    back, after giving it back, or (tasks that hold no reference) in any other way.
  */
  datatype Exit = NeverRan | Stranded | Released | Left

  datatype TaskPoint =
    | Created
    | Subscribing             // awaiting the Redis subscription
    | Listening               // awaiting the next Redis message
    | Sending                 // awaiting the websocket send
    | Unsubscribing           // awaiting the Redis unsubscription
    | Closing                 // awaiting the close of the Redis subscription
    | Stopping(worker: nat)   // awaiting the end of the worker it cancelled
    | Busy                    // order book and top 10 tasks, which hold no reference
    | Finished(exit: Exit)

  datatype Task = Task(owner: nat, category: Category, symbol: string, point: TaskPoint, cancelled: bool, pending: bool)

  datatype State = State(reg: Registry, tasks: seq<Task>)

  /** How the awaited operation ended, when no cancellation is delivered. */
  datatype Outcome = Completed | Received(data: bool) | Exhausted | Raised

  function Spawn(st: State, owner: nat, category: Category, symbol: string): State {
    st.(tasks := st.tasks + [Task(owner, category, Upper(symbol), Created, false, false)])
  }

  /**
    `task.cancel()`. A task that awaits a worker passes the request on to the
    worker as long as the worker is not done.
  */
  function Cancel(st: State, t: nat): State
    requires t < |st.tasks|
  {
    var k := st.tasks[t];
    if k.point.Finished? then st
    else if k.point.Stopping? && k.point.worker < |st.reg.tasks| && !st.reg.tasks[k.point.worker].point.Ended? then
      State(CancelWorker(st.reg, k.point.worker), st.tasks[t := k.(cancelled := true)])
    else st.(tasks := st.tasks[t := k.(cancelled := true, pending := true)])
  }

  /** A task can be resumed unless it has finished or awaits a worker that has not ended. */
  predicate Runnable(st: State, t: nat) {
    && t < |st.tasks|
    && !st.tasks[t].point.Finished?
    && (st.tasks[t].point.Stopping? ==>
          st.tasks[t].point.worker < |st.reg.tasks| && st.reg.tasks[st.tasks[t].point.worker].point.Ended?)
  }

  /** The await the task stands at ends with a cancellation or an error. */
  predicate Broken(k: Task, o: Outcome) {
    k.pending || o.Raised?
  }

  /** The point a market-price task reaches from a point at which it touches no dictionary. */
  function Advance(k: Task, o: Outcome): TaskPoint {
    match k.point
    case Subscribing => if Broken(k, o) then Finished(Stranded) else Listening
    case Listening =>
      if Broken(k, o) || o.Exhausted? then Unsubscribing
      else if o == Received(true) then Sending else Listening
    case Sending => if Broken(k, o) then Unsubscribing else Listening
    case Unsubscribing => if Broken(k, o) then Finished(Stranded) else Closing
    case Closing => Finished(Stranded)
    case Stopping(_) => Finished(Released)
    case p => p
  }

  function ResumeMarketPrice(st: State, t: nat, o: Outcome): State
    requires Runnable(st, t)
  {
    var k := st.tasks[t];
    var rest := k.(pending := false);
    if k.point.Created? then
      if k.pending then st.(tasks := st.tasks[t := rest.(point := Finished(NeverRan))])
      else State(Ensure(st.reg, k.symbol), st.tasks[t := rest.(point := Subscribing)])
    else if k.point.Closing? && !Broken(k, o) then
      var (reg, awaited) := Remove(st.reg, k.symbol);
      State(reg, st.tasks[t := rest.(point := if awaited.Some? then Stopping(awaited.value) else Finished(Released))])
    else st.(tasks := st.tasks[t := rest.(point := Advance(k, o))])
  }

  function ResumeOther(k: Task, o: Outcome): Task {
    var next :=
      if k.pending then Finished(if k.point.Created? then NeverRan else Left)
      else if o.Raised? && !k.point.Created? then Finished(Left) else Busy;
    k.(point := next, pending := false)
  }

  function Resume(st: State, t: nat, o: Outcome): State
    requires Runnable(st, t)
  {
    if st.tasks[t].category.MarketPrice? then ResumeMarketPrice(st, t, o)
    else st.(tasks := st.tasks[t := ResumeOther(st.tasks[t], o)])
  }

  // ---------- Runs ----------

  datatype Label =
    | SpawnTask(owner: nat, category: Category, symbol: string)
    | CancelTask(task: nat)
    | RunTask(task: nat, outcome: Outcome)
    | RunWorker(worker: nat, result: W.Outcome)

  predicate Enabled(st: State, l: Label) {
    match l
    case SpawnTask(_, _, _) => true
    case CancelTask(t) => t < |st.tasks|
    case RunTask(t, _) => Runnable(st, t)
    case RunWorker(w, _) => w < |st.reg.tasks| && !st.reg.tasks[w].point.Ended?
  }

  function Step(st: State, l: Label): State
    requires Enabled(st, l)
  {
    match l
    case SpawnTask(owner, category, symbol) => Spawn(st, owner, category, symbol)
    case CancelTask(t) => Cancel(st, t)
    case RunTask(t, o) => Resume(st, t, o)
    case RunWorker(w, o) => st.(reg := st.reg.(tasks := st.reg.tasks[w := W.Resume(st.reg.tasks[w], o)]))
  }

  const INITIAL := State(Registry(map[], map[], []), [])

  /** The labels can be taken one after the other, from the empty registry. */
  ghost predicate IsRun(ls: seq<Label>)
    decreases |ls|, 0
  {
    ls == [] || (IsRun(ls[..|ls| - 1]) && Enabled(After(ls[..|ls| - 1]), ls[|ls| - 1]))
  }

  ghost function After(ls: seq<Label>): State
    requires IsRun(ls)
    decreases |ls|, 1
  {
    if ls == [] then INITIAL else Step(After(ls[..|ls| - 1]), ls[|ls| - 1])
  }

  lemma ExtendRun(ls: seq<Label>, l: Label) returns (ls': seq<Label>)
    requires IsRun(ls) && Enabled(After(ls), l)
    ensures ls' == ls + [l] && IsRun(ls') && After(ls') == Step(After(ls), l)
  {
    ls' := ls + [l];
    assert ls'[..|ls|] == ls;
  }

  // What a step does to the references on a symbol, told from the state before it.

  /** A market-price task for `s` takes its first step and acquires. */
  predicate Acquires(st: State, l: Label, s: string) {
    && l.RunTask? && l.task < |st.tasks|
    && var k := st.tasks[l.task];
    k.category.MarketPrice? && k.symbol == s && k.point.Created? && !k.pending
  }

  /** A market-price task for `s` closes its subscription and releases. */
  predicate Releases(st: State, l: Label, s: string) {
    && l.RunTask? && l.task < |st.tasks|
    && var k := st.tasks[l.task];
    k.category.MarketPrice? && k.symbol == s && k.point.Closing? && !Broken(k, l.outcome)
  }

  /** A market-price task for `s` is cancelled or fails at an await that its clean-up does not cover. */
  predicate Strands(st: State, l: Label, s: string) {
    && l.RunTask? && l.task < |st.tasks|
    && var k := st.tasks[l.task];
    && k.category.MarketPrice? && k.symbol == s
    && (k.point.Subscribing? || k.point.Unsubscribing? || k.point.Closing?) && Broken(k, l.outcome)
  }

  ghost function Acquired(ls: seq<Label>, s: string): nat
    requires IsRun(ls)
  {
    if ls == [] then 0
    else Acquired(ls[..|ls| - 1], s) + if Acquires(After(ls[..|ls| - 1]), ls[|ls| - 1], s) then 1 else 0
  }

  ghost function Given(ls: seq<Label>, s: string): nat
    requires IsRun(ls)
  {
    if ls == [] then 0
    else Given(ls[..|ls| - 1], s) + if Releases(After(ls[..|ls| - 1]), ls[|ls| - 1], s) then 1 else 0
  }

  ghost function StrandedIn(ls: seq<Label>, s: string): nat
    requires IsRun(ls)
  {
    if ls == [] then 0
    else StrandedIn(ls[..|ls| - 1], s) + if Strands(After(ls[..|ls| - 1]), ls[|ls| - 1], s) then 1 else 0
  }

  // ---------- Invariant ----------

  /** The task acquired a reference on its symbol and has not given it back. */
  predicate Holds(k: Task) {
    k.category.MarketPrice? &&
    (k.point.Subscribing? || k.point.Listening? || k.point.Sending? || k.point.Unsubscribing? || k.point.Closing?
     || k.point == Finished(Stranded))
  }

  predicate IsStranded(k: Task) {
    k.category.MarketPrice? && k.point == Finished(Stranded)
  }

  function HolderOf(s: string): Task -> bool {
    (k: Task) => Holds(k) && k.symbol == s
  }

  function StrandedOf(s: string): Task -> bool {
    (k: Task) => IsStranded(k) && k.symbol == s
  }

  /** The stored counts are the numbers of holders. */
  ghost predicate Counted(st: State) {
    forall s: string :: Subscribers(st.reg, s) == Count(st.tasks, HolderOf(s))
  }

  ghost predicate CountsPositive(r: Registry) {
    forall s | s in r.subscribers :: r.subscribers[s] >= 1
  }

  /** The registered worker of each symbol runs and was never asked to stop. */
  ghost predicate Registered(r: Registry) {
    && r.workers.Keys == r.subscribers.Keys
    && forall s | s in r.workers ::
         && r.workers[s] < |r.tasks|
         && r.tasks[r.workers[s]].symbol == s
         && !r.tasks[r.workers[s]].cancelled
  }

  /** A worker task that nobody cancelled is the registered one of its symbol. */
  predicate WorkerOk(r: Registry, w: nat)
    requires w < |r.tasks|
  {
    var k := r.tasks[w];
    && !k.stop
    && (k.pending || k.point == W.Ended || k.point == W.Leaving(W.Cancelling) ==> k.cancelled)
    && (!k.cancelled ==> k.symbol in r.workers && r.workers[k.symbol] == w)
  }

  ghost predicate WorkersOk(r: Registry) {
    forall w | 0 <= w < |r.tasks| :: WorkerOk(r, w)
  }

  predicate TaskOk(r: Registry, k: Task) {
    && Upper(k.symbol) == k.symbol
    && (k.pending ==> k.cancelled)
    && (k.category.MarketPrice? ==> !k.point.Busy? && k.point != Finished(Left))
    && (!k.category.MarketPrice? ==> k.point.Created? || k.point.Busy? || k.point == Finished(NeverRan) || k.point == Finished(Left))
    && (k.point.Stopping? ==>
          k.point.worker < |r.tasks| && r.tasks[k.point.worker].cancelled && r.tasks[k.point.worker].symbol == k.symbol)
  }

  ghost predicate TasksOk(st: State) {
    forall t | 0 <= t < |st.tasks| :: TaskOk(st.reg, st.tasks[t])
  }

  ghost predicate Inv(st: State) {
    Counted(st) && CountsPositive(st.reg) && Registered(st.reg) && WorkersOk(st.reg) && TasksOk(st)
  }

  /** Later registries keep every task, its symbol and its having been cancelled. */
  predicate Grows(r: Registry, r': Registry) {
    && |r.tasks| <= |r'.tasks|
    && forall w | 0 <= w < |r.tasks| :: r'.tasks[w].symbol == r.tasks[w].symbol && (r.tasks[w].cancelled ==> r'.tasks[w].cancelled)
  }

  lemma TasksOkGrows(st: State, r': Registry)
    requires TasksOk(st) && Grows(st.reg, r')
    ensures TasksOk(st.(reg := r'))
  {
    forall t | 0 <= t < |st.tasks| ensures TaskOk(r', st.tasks[t]) {
      assert TaskOk(st.reg, st.tasks[t]);
    }
  }

  /** Replacing a task moves the counts by what it holds before and after. */
  lemma HoldersAfterUpdate(tasks: seq<Task>, t: nat, k: Task)
    requires t < |tasks| && k.symbol == tasks[t].symbol
    ensures forall s :: Count(tasks[t := k], HolderOf(s)) == Count(tasks, HolderOf(s))
              + if s != k.symbol || Holds(k) == Holds(tasks[t]) then 0 else if Holds(k) then 1 else -1
  {
    forall s ensures Count(tasks[t := k], HolderOf(s)) == Count(tasks, HolderOf(s))
                       + if s != k.symbol || Holds(k) == Holds(tasks[t]) then 0 else if Holds(k) then 1 else -1 {
      CountUpdate(tasks, t, k, HolderOf(s));
    }
  }

  /** Updating one worker in a way that keeps what the registry relies on. */
  lemma WorkersAfterUpdate(r: Registry, w: nat, k: W.Worker)
    requires Registered(r) && WorkersOk(r)
    requires w < |r.tasks| && k.symbol == r.tasks[w].symbol && !k.stop
    requires k.cancelled == r.tasks[w].cancelled
    requires k.pending || k.point == W.Ended || k.point == W.Leaving(W.Cancelling) ==> k.cancelled
    ensures var r' := r.(tasks := r.tasks[w := k]); Registered(r') && WorkersOk(r') && Grows(r, r')
  {
    var r' := r.(tasks := r.tasks[w := k]);
    forall v | 0 <= v < |r'.tasks| ensures WorkerOk(r', v) {
      assert WorkerOk(r, v);
    }
  }

  lemma EnsureKeeps(r: Registry, s: string)
    requires CountsPositive(r) && Registered(r) && WorkersOk(r) && Upper(s) == s
    ensures var r' := Ensure(r, s);
            && CountsPositive(r') && Registered(r') && WorkersOk(r') && Grows(r, r')
            && forall x :: Subscribers(r', x) == Subscribers(r, x) + if x == s then 1 else 0
  {
    var r' := Ensure(r, s);
    if s in r.workers {
      assert WorkerOk(r, r.workers[s]);
      assert Running(r, s);
      forall v | 0 <= v < |r'.tasks| ensures WorkerOk(r', v) {
        assert WorkerOk(r, v);
      }
    } else {
      forall v | 0 <= v < |r'.tasks| ensures WorkerOk(r', v) {
        if v < |r.tasks| {
          assert WorkerOk(r, v);
        }
      }
    }
  }

  lemma RemoveKeeps(r: Registry, s: string)
    requires CountsPositive(r) && Registered(r) && WorkersOk(r) && Upper(s) == s && s in r.subscribers
    ensures var (r', awaited) := Remove(r, s);
            && CountsPositive(r') && Registered(r') && WorkersOk(r') && Grows(r, r')
            && (forall x :: Subscribers(r', x) == Subscribers(r, x) - if x == s then 1 else 0)
            && (awaited.Some? ==> awaited.value < |r'.tasks| && r'.tasks[awaited.value].cancelled && r'.tasks[awaited.value].symbol == s)
            && (awaited.Some? <==> Subscribers(r', s) == 0)
  {
    var (r', awaited) := Remove(r, s);
    var w := r.workers[s];
    assert WorkerOk(r, w);
    if r.subscribers[s] == 1 {
      assert r'.tasks == r.tasks[w := W.Cancel(r.tasks[w])];
    } else {
      assert r'.tasks == r.tasks;
    }
    forall v | 0 <= v < |r'.tasks| ensures WorkerOk(r', v) {
      assert WorkerOk(r, v);
    }
  }

  lemma SpawnKeeps(st: State, owner: nat, category: Category, symbol: string)
    requires Inv(st)
    ensures Inv(Spawn(st, owner, category, symbol))
  {
    var st' := Spawn(st, owner, category, symbol);
    UpperIdempotent(symbol);
    forall s ensures Subscribers(st'.reg, s) == Count(st'.tasks, HolderOf(s)) {
      CountAppend(st.tasks, st'.tasks[|st.tasks|], HolderOf(s));
    }
    forall t | 0 <= t < |st'.tasks| ensures TaskOk(st'.reg, st'.tasks[t]) {
      if t < |st.tasks| {
        assert TaskOk(st.reg, st.tasks[t]);
      }
    }
  }

  /** Replacing one task, on a registry that keeps its own invariants, keeps the whole. */
  lemma TaskUpdateKeeps(st: State, r': Registry, t: nat, k: Task)
    requires Inv(st) && CountsPositive(r') && Registered(r') && WorkersOk(r') && Grows(st.reg, r')
    requires t < |st.tasks| && k.symbol == st.tasks[t].symbol && TaskOk(r', k)
    requires forall s :: Subscribers(r', s) == Subscribers(st.reg, s)
               + if s != k.symbol || Holds(k) == Holds(st.tasks[t]) then 0 else if Holds(k) then 1 else -1
    ensures Inv(State(r', st.tasks[t := k]))
  {
    HoldersAfterUpdate(st.tasks, t, k);
    TasksOkGrows(st, r');
    var st' := State(r', st.tasks[t := k]);
    forall i | 0 <= i < |st'.tasks| ensures TaskOk(r', st'.tasks[i]) {
      assert TaskOk(st.(reg := r').reg, st.(reg := r').tasks[i]);
    }
  }

  lemma CancelKeeps(st: State, t: nat)
    requires Inv(st) && t < |st.tasks|
    ensures Inv(Cancel(st, t))
  {
    var k := st.tasks[t];
    assert TaskOk(st.reg, k);
    if k.point.Finished? {
    } else if k.point.Stopping? && !st.reg.tasks[k.point.worker].point.Ended? {
      var w := k.point.worker;
      assert WorkerOk(st.reg, w);
      WorkersAfterUpdate(st.reg, w, W.Cancel(st.reg.tasks[w]));
      TaskUpdateKeeps(st, CancelWorker(st.reg, w), t, k.(cancelled := true));
    } else {
      TaskUpdateKeeps(st, st.reg, t, k.(cancelled := true, pending := true));
    }
  }

  /** A holder's symbol has a stored count, so its release finds the key and leaves no negative count. */
  lemma HolderIsCounted(st: State, t: nat)
    requires Counted(st) && t < |st.tasks| && Holds(st.tasks[t])
    ensures st.tasks[t].symbol in st.reg.subscribers && st.reg.subscribers[st.tasks[t].symbol] >= 1
  {
    var s := st.tasks[t].symbol;
    CountPositive(st.tasks, HolderOf(s));
    assert HolderOf(s)(st.tasks[t]);
    assert Subscribers(st.reg, s) >= 1;
  }

  /** A resumption that touches no dictionary keeps the task's reference, or the lack of one. */
  lemma AdvanceKeepsReference(r: Registry, k: Task, o: Outcome)
    requires k.category.MarketPrice? && !k.point.Created? && !k.point.Finished? && TaskOk(r, k)
    requires k.point.Closing? ==> Broken(k, o)
    ensures var k' := k.(point := Advance(k, o), pending := false);
            && TaskOk(r, k') && Holds(k') == Holds(k)
            && (IsStranded(k') <==> (k.point.Subscribing? || k.point.Unsubscribing? || k.point.Closing?) && Broken(k, o))
  {
  }

  lemma ResumeKeeps(st: State, t: nat, o: Outcome)
    requires Inv(st) && Runnable(st, t)
    ensures Inv(Resume(st, t, o))
  {
    var k := st.tasks[t];
    assert TaskOk(st.reg, k);
    if !k.category.MarketPrice? {
      TaskUpdateKeeps(st, st.reg, t, ResumeOther(k, o));
    } else if k.point.Created? && k.pending {
      TaskUpdateKeeps(st, st.reg, t, k.(pending := false, point := Finished(NeverRan)));
    } else if k.point.Created? {
      AcquireKeeps(st, t);
    } else if k.point.Closing? && !Broken(k, o) {
      ReleaseKeeps(st, t);
    } else {
      AdvanceKeepsReference(st.reg, k, o);
      TaskUpdateKeeps(st, st.reg, t, k.(pending := false, point := Advance(k, o)));
    }
  }

  lemma AcquireKeeps(st: State, t: nat)
    requires Inv(st) && t < |st.tasks| && st.tasks[t].category.MarketPrice? && st.tasks[t].point.Created?
    ensures Inv(State(Ensure(st.reg, st.tasks[t].symbol), st.tasks[t := st.tasks[t].(pending := false, point := Subscribing)]))
  {
    var k := st.tasks[t];
    assert TaskOk(st.reg, k);
    EnsureKeeps(st.reg, k.symbol);
    TaskUpdateKeeps(st, Ensure(st.reg, k.symbol), t, k.(pending := false, point := Subscribing));
  }

  lemma ReleaseKeeps(st: State, t: nat)
    requires Inv(st) && t < |st.tasks| && st.tasks[t].category.MarketPrice? && st.tasks[t].point.Closing?
    ensures var (reg, awaited) := Remove(st.reg, st.tasks[t].symbol);
            var point := if awaited.Some? then Stopping(awaited.value) else Finished(Released);
            Inv(State(reg, st.tasks[t := st.tasks[t].(pending := false, point := point)]))
  {
    var k := st.tasks[t];
    assert TaskOk(st.reg, k);
    HolderIsCounted(st, t);
    RemoveKeeps(st.reg, k.symbol);
    var (reg, awaited) := Remove(st.reg, k.symbol);
    TaskUpdateKeeps(st, reg, t, k.(pending := false, point := if awaited.Some? then Stopping(awaited.value) else Finished(Released)));
  }

  lemma RunWorkerKeeps(st: State, w: nat, o: W.Outcome)
    requires Inv(st) && w < |st.reg.tasks| && !st.reg.tasks[w].point.Ended?
    ensures Inv(Step(st, RunWorker(w, o)))
  {
    var k := st.reg.tasks[w];
    assert WorkerOk(st.reg, w);
    W.ResumeClassified(k, o);
    WorkersAfterUpdate(st.reg, w, W.Resume(k, o));
    TasksOkGrows(st, Step(st, RunWorker(w, o)).reg);
  }

  lemma StepKeeps(st: State, l: Label)
    requires Inv(st) && Enabled(st, l)
    ensures Inv(Step(st, l))
  {
    match l
    case SpawnTask(owner, category, symbol) => SpawnKeeps(st, owner, category, symbol);
    case CancelTask(t) => CancelKeeps(st, t);
    case RunTask(t, o) => ResumeKeeps(st, t, o);
    case RunWorker(w, o) => RunWorkerKeeps(st, w, o);
  }

  // ---------- Main results ----------

  lemma {:induction false} RunKeepsInv(ls: seq<Label>)
    requires IsRun(ls)
    ensures Inv(After(ls))
  {
    if ls == [] {
    } else {
      RunKeepsInv(ls[..|ls| - 1]);
      StepKeeps(After(ls[..|ls| - 1]), ls[|ls| - 1]);
    }
  }

  /** What resuming a task does to the reference it holds. */
  lemma RunTaskMovesReference(st: State, t: nat, o: Outcome)
    requires Inv(st) && Runnable(st, t)
    ensures var k, k', l := st.tasks[t], Resume(st, t, o).tasks[t], RunTask(t, o);
            && Resume(st, t, o).tasks == st.tasks[t := k'] && k'.symbol == k.symbol
            && (Acquires(st, l, k.symbol) ==> !Holds(k) && Holds(k') && !IsStranded(k'))
            && (Releases(st, l, k.symbol) ==> Holds(k) && !Holds(k') && !IsStranded(k'))
            && (!Acquires(st, l, k.symbol) && !Releases(st, l, k.symbol) ==> Holds(k) == Holds(k'))
            && !IsStranded(k) && (IsStranded(k') <==> Strands(st, l, k.symbol))
  {
    var k := st.tasks[t];
    assert TaskOk(st.reg, k);
    if k.category.MarketPrice? && !k.point.Created? && (k.point.Closing? ==> Broken(k, o)) {
      AdvanceKeepsReference(st.reg, k, o);
    }
  }

  /** What one step does to the numbers of holders and of stranded tasks. */
  lemma StepMovesCounts(st: State, l: Label, s: string)
    requires Inv(st) && Enabled(st, l)
    ensures Count(Step(st, l).tasks, HolderOf(s)) == Count(st.tasks, HolderOf(s))
              + (if Acquires(st, l, s) then 1 else 0) - (if Releases(st, l, s) then 1 else 0)
    ensures Count(Step(st, l).tasks, StrandedOf(s))
            == Count(st.tasks, StrandedOf(s)) + (if Strands(st, l, s) then 1 else 0)
  {
    var st' := Step(st, l);
    match l
    case SpawnTask(_, _, _) =>
      CountAppend(st.tasks, st'.tasks[|st.tasks|], HolderOf(s));
      CountAppend(st.tasks, st'.tasks[|st.tasks|], StrandedOf(s));
    case CancelTask(t) =>
      if st'.tasks != st.tasks {
        CountUpdate(st.tasks, t, st'.tasks[t], HolderOf(s));
        CountUpdate(st.tasks, t, st'.tasks[t], StrandedOf(s));
      }
    case RunTask(t, o) =>
      RunTaskMovesReference(st, t, o);
      CountUpdate(st.tasks, t, st'.tasks[t], HolderOf(s));
      CountUpdate(st.tasks, t, st'.tasks[t], StrandedOf(s));
    case RunWorker(_, _) =>
  }

  /**
    Over every run and for every symbol, the stored count is the number of
    acquisitions so far minus the number of releases, and every stored count is at
    least one.
  */
  lemma {:induction false} CountIsHistory(ls: seq<Label>, s: string)
    requires IsRun(ls)
    ensures Subscribers(After(ls).reg, s) == Acquired(ls, s) - Given(ls, s)
    ensures s in After(ls).reg.subscribers ==> After(ls).reg.subscribers[s] >= 1
    ensures Count(After(ls).tasks, StrandedOf(s)) == StrandedIn(ls, s)
  {
    RunKeepsInv(ls);
    if ls == [] {
    } else {
      var before := ls[..|ls| - 1];
      CountIsHistory(before, s);
      RunKeepsInv(before);
      StepMovesCounts(After(before), ls[|ls| - 1], s);
    }
  }

  /** Whatever step a run takes next, a release finds its key and decrements a positive count. */
  lemma ReleaseIsSafe(ls: seq<Label>, l: Label, s: string)
    requires IsRun(ls) && Enabled(After(ls), l) && Releases(After(ls), l, s)
    ensures s in After(ls).reg.subscribers && After(ls).reg.subscribers[s] >= 1
    ensures Subscribers(Step(After(ls), l).reg, s) == Subscribers(After(ls).reg, s) - 1
    ensures s in Step(After(ls), l).reg.subscribers <==> Subscribers(After(ls).reg, s) > 1
  {
    RunKeepsInv(ls);
    HolderIsCounted(After(ls), l.task);
    assert TaskOk(After(ls).reg, After(ls).tasks[l.task]);
    RemoveKeeps(After(ls).reg, s);
    StepKeeps(After(ls), l);
  }

  /**
    In every reachable state the two dictionaries have the same keys, the
    registered worker of a key is neither cancelled nor done, and no other worker
    of that symbol is uncancelled.
  */
  lemma OneWorkerPerSymbol(ls: seq<Label>)
    requires IsRun(ls)
    ensures var r := After(ls).reg;
            && r.workers.Keys == r.subscribers.Keys
            && (forall s | s in r.workers ::
                  r.workers[s] < |r.tasks| && W.Active(r.tasks[r.workers[s]]) && r.tasks[r.workers[s]].symbol == s)
            && (forall w | 0 <= w < |r.tasks| && !r.tasks[w].cancelled ::
                  r.tasks[w].symbol in r.workers && r.workers[r.tasks[w].symbol] == w)
  {
    RunKeepsInv(ls);
    var r := After(ls).reg;
    forall s | s in r.workers
      ensures r.workers[s] < |r.tasks| && W.Active(r.tasks[r.workers[s]]) && r.tasks[r.workers[s]].symbol == s
    {
      assert WorkerOk(r, r.workers[s]);
    }
    forall w | 0 <= w < |r.tasks| && !r.tasks[w].cancelled
      ensures r.tasks[w].symbol in r.workers && r.workers[r.tasks[w].symbol] == w
    {
      assert WorkerOk(r, w);
    }
  }

  ghost predicate AllFinished(st: State) {
    forall t | 0 <= t < |st.tasks| :: st.tasks[t].point.Finished?
  }

  /**
    Once all tasks have finished, the count left for a symbol is exactly the number
    of its tasks that were cancelled or failed at the awaits of subscribe,
    unsubscribe or close.
  */
  lemma ResidueIsStranded(ls: seq<Label>, s: string)
    requires IsRun(ls) && AllFinished(After(ls))
    ensures Subscribers(After(ls).reg, s) == StrandedIn(ls, s)
  {
    var st := After(ls);
    RunKeepsInv(ls);
    CountIsHistory(ls, s);
    CountSame(st.tasks, HolderOf(s), StrandedOf(s));
  }

  /** A run whose one task fails to subscribe: it finishes, but its reference and its worker stay. */
  lemma StrandedForEver() returns (ls: seq<Label>)
    ensures IsRun(ls) && AllFinished(After(ls)) && StrandedIn(ls, DEFAULT_SYMBOL) == 1
    ensures var r := After(ls).reg;
            && Subscribers(r, DEFAULT_SYMBOL) == 1 && DEFAULT_SYMBOL in r.workers
                && r.workers[DEFAULT_SYMBOL] < |r.tasks|
            && W.Active(r.tasks[r.workers[DEFAULT_SYMBOL]])
  {
    DefaultIsUpper();
    assert IsRun([]) && After([]) == INITIAL;
    ls := ExtendRun([], SpawnTask(0, MarketPrice, DEFAULT_SYMBOL));
    ls := ExtendRun(ls, RunTask(0, Completed));
    ls := ExtendRun(ls, RunTask(0, Raised));
    ResidueIsStranded(ls, DEFAULT_SYMBOL);
  }

  /** With no such task, both dictionaries are empty and every worker was cancelled. */
  lemma QuiescentIsEmpty(ls: seq<Label>)
    requires IsRun(ls) && AllFinished(After(ls))
    requires forall s :: StrandedIn(ls, s) == 0
    ensures After(ls).reg.subscribers == map[] && After(ls).reg.workers == map[]
    ensures forall w | 0 <= w < |After(ls).reg.tasks| :: After(ls).reg.tasks[w].cancelled
  {
    var r := After(ls).reg;
    RunKeepsInv(ls);
    forall s ensures s !in r.subscribers {
      ResidueIsStranded(ls, s);
      assert Subscribers(r, s) == 0;
    }
    assert r.subscribers.Keys == {} && r.workers.Keys == {};
    forall w | 0 <= w < |r.tasks| ensures r.tasks[w].cancelled {
      assert WorkerOk(r, w);
    }
  }

  /** Cancelling a task before its first step changes neither dictionary, nor any worker, nor any other task. */
  lemma CancelBeforeFirstStep(st: State, t: nat, o: Outcome)
    requires t < |st.tasks| && st.tasks[t].point.Created?
    ensures Runnable(Cancel(st, t), t)
    ensures var st' := Resume(Cancel(st, t), t, o);
            st'.reg == st.reg && |st'.tasks| == |st.tasks| && st'.tasks[t].point == Finished(NeverRan)
            && forall i | 0 <= i < |st.tasks| && i != t :: st'.tasks[i] == st.tasks[i]
  {
  }
}
