/**
  One websocket session: the symbol it looks at, and its table of cancellable
  tasks keyed by category.
*/
module Sessions {
  import opened Symbols
  import opened FanOut
  import opened EventLoops
  import opened Wrappers

  // ---------- Messages ----------

  datatype SymbolField = NoSymbol | Text(value: string) | NotText

  /** The category of an unsubscribe message: absent or falsy, a string, another hashable value, or an unhashable one. */
  datatype CategoryField = NoCategory | Named(name: string) | OtherKey | Unhashable

  datatype Message =
    | BadJson
    | NotAnObject
    | Object(kind: string, symbol: SymbolField, category: CategoryField)

  const MARKET := "market_price"
  const BOOK := "order_book"
  const TOP := "top_10"

  function Key(c: Category): string {
    match c
    case MarketPrice => MARKET
    case OrderBook => BOOK
    case Top10 => TOP
  }

  /** Handling the message raises, which ends the session's message loop. */
  predicate Fatal(m: Message) {
    || m.NotAnObject?
    || (m.Object? && (m.symbol.NotText? || (m.kind == "unsubscribe" && m.category.Unhashable?)))
  }

  predicate SubscribesMarket(m: Message) {
    m.Object? && m.kind == "subscribe_market_price"
  }

  predicate SubscribesBook(m: Message) {
    m.Object? && m.kind == "subscribe_order_book"
  }

  predicate SubscribesTop(m: Message) {
    m.Object? && m.kind == "subscribe_top_10"
  }

  predicate Changes(m: Message) {
    m.Object? && m.kind == "change_symbol"
  }

  predicate Unsubscribes(m: Message, name: string) {
    m.Object? && m.kind == "unsubscribe" && m.category == Named(name) && name != ""
  }

  // ---------- The message loop ----------

  datatype Session = Session(current: string, active: map<string, nat>, open: bool)

  const NEW_SESSION := Session(DEFAULT_SYMBOL, map[], true)

  /** `cancel_task`: forget the task of a category, and cancel it unless it is done. */
  function CancelActive(se: Session, st: State, name: string): (Session, State) {
    var popped := se.(active := se.active - {name});
    if name in se.active && se.active[name] < |st.tasks| then (popped, Cancel(st, se.active[name])) else (popped, st)
  }

  /** Cancel the task of a category and register a new one. */
  function Restart(se: Session, st: State, owner: nat, c: Category, symbol: string): (Session, State) {
    var (se', st') := CancelActive(se, st, Key(c));
    (se'.(active := se'.active[Key(c) := |st'.tasks|]), Spawn(st', owner, c, symbol))
  }

  function RestartIfActive(se: Session, st: State, owner: nat, c: Category, symbol: string): (Session, State) {
    if Key(c) in se.active then Restart(se, st, owner, c, symbol) else (se, st)
  }

  function SymbolOf(se: Session, m: Message): string
    requires m.Object? && !m.symbol.NotText?
  {
    Upper(if m.symbol.Text? then m.symbol.value else se.current)
  }

  function Receive(se: Session, st: State, owner: nat, m: Message): (Session, State) {
    if !se.open || m.BadJson? then (se, st)
    else if Fatal(m) then (se.(open := false), st)
    else
      var symbol := SymbolOf(se, m);
      if m.kind == "subscribe_market_price" then Restart(se.(current := symbol), st, owner, MarketPrice, symbol)
      else if m.kind == "subscribe_order_book" then Restart(se.(current := symbol), st, owner, OrderBook, symbol)
      else if m.kind == "subscribe_top_10" then Restart(se, st, owner, Top10, "")
      else if m.kind == "unsubscribe" then
        if m.category.Named? && m.category.name != "" then CancelActive(se, st, m.category.name) else (se, st)
      else if m.kind == "change_symbol" then
        var (se', st') := RestartIfActive(se.(current := symbol), st, owner, MarketPrice, symbol);
        RestartIfActive(se', st', owner, OrderBook, symbol)
      else (se, st)
  }

  function ReceiveAll(se: Session, st: State, owner: nat, ms: seq<Message>): (Session, State) {
    if ms == [] then (se, st)
    else
      var (se', st') := ReceiveAll(se, st, owner, ms[..|ms| - 1]);
      Receive(se', st', owner, ms[|ms| - 1])
  }

  // ---------- What the session shows ----------

  /** The registered tasks exist and are of the category they are registered under. */
  ghost predicate Table(se: Session, st: State) {
    forall c | c in se.active :: se.active[c] < |st.tasks| && c == Key(st.tasks[se.active[c]].category)
  }

  /** The symbol each registered category streams. */
  ghost function Streams(se: Session, st: State): map<string, string>
    requires Table(se, st)
  {
    map c | c in se.active :: st.tasks[se.active[c]].symbol
  }

  /** Cancelling and spawning never change the symbol or category of an existing task. */
  lemma CancelKeepsSymbols(st: State, t: nat)
    requires t < |st.tasks|
    ensures |Cancel(st, t).tasks| == |st.tasks|
    ensures forall i | 0 <= i < |st.tasks| ::
              Cancel(st, t).tasks[i].symbol == st.tasks[i].symbol
                  && Cancel(st, t).tasks[i].category == st.tasks[i].category
  {
  }

  lemma CancelActiveShows(se: Session, st: State, name: string)
    requires Table(se, st)
    ensures var (se', st') := CancelActive(se, st, name);
            Table(se', st') && Streams(se', st') == Streams(se, st) - {name} && se'.current == se.current
                && se'.open == se.open
  {
    var (se', st') := CancelActive(se, st, name);
    if name in se.active {
      CancelKeepsSymbols(st, se.active[name]);
    }
    assert Streams(se', st') == Streams(se, st) - {name};
  }

  lemma RestartShows(se: Session, st: State, owner: nat, c: Category, symbol: string)
    requires Table(se, st)
    ensures var (se', st') := Restart(se, st, owner, c, symbol);
            && Table(se', st') && Streams(se', st') == Streams(se, st)[Key(c) := Upper(symbol)]
            && se'.current == se.current && se'.open == se.open
  {
    CancelActiveShows(se, st, Key(c));
    var (se1, st1) := CancelActive(se, st, Key(c));
    SpawnShows(se1, st1, owner, c, symbol);
    Overwrite(Streams(se, st), Key(c), Upper(symbol));
  }

  lemma Overwrite(v: map<string, string>, k: string, x: string)
    ensures (v - {k})[k := x] == v[k := x]
  {
  }

  lemma SpawnShows(se: Session, st: State, owner: nat, c: Category, symbol: string)
    requires Table(se, st)
    ensures var se', st' := se.(active := se.active[Key(c) := |st.tasks|]), Spawn(st, owner, c, symbol);
            Table(se', st') && Streams(se', st') == Streams(se, st)[Key(c) := Upper(symbol)]
  {
  }

  /** What a client sees of a session: the current symbol and the streamed symbols. */
  datatype Shown = Shown(current: string, streams: map<string, string>, open: bool)

  ghost function Show(se: Session, st: State): Shown
    requires Table(se, st)
  {
    Shown(se.current, Streams(se, st), se.open)
  }

  /** The pure reading of one message. */
  function Read(v: Shown, m: Message): Shown {
    if !v.open || m.BadJson? then v
    else if Fatal(m) then v.(open := false)
    else
      var symbol := Upper(if m.symbol.Text? then m.symbol.value else v.current);
      if SubscribesMarket(m) then v.(current := symbol, streams := v.streams[MARKET := symbol])
      else if SubscribesBook(m) then v.(current := symbol, streams := v.streams[BOOK := symbol])
      else if SubscribesTop(m) then v.(streams := v.streams[TOP := ""])
      else if Changes(m) then
        v.(current := symbol, streams := map c | c in v.streams :: if c == TOP then v.streams[c] else symbol)
      else if m.category.Named? && Unsubscribes(m, m.category.name) then v.(streams := v.streams - {m.category.name})
      else v
  }

  lemma ReceiveShows(se: Session, st: State, owner: nat, m: Message)
    requires Table(se, st)
    ensures var (se', st') := Receive(se, st, owner, m);
            Table(se', st') && Show(se', st') == Read(Show(se, st), m)
  {
    if se.open && m.Object? && !Fatal(m) {
      if SubscribesMarket(m) || SubscribesBook(m) || SubscribesTop(m) {
        SubscribeShows(se, st, owner, m);
      } else if Changes(m) {
        ChangeShows(se, st, owner, m);
      } else if m.category.Named? && Unsubscribes(m, m.category.name) {
        CancelActiveShows(se, st, m.category.name);
      }
    }
  }

  lemma SubscribeShows(se: Session, st: State, owner: nat, m: Message)
    requires Table(se, st) && se.open && !Fatal(m) && (SubscribesMarket(m) || SubscribesBook(m) || SubscribesTop(m))
    ensures var (se', st') := Receive(se, st, owner, m);
            Table(se', st') && Show(se', st') == Read(Show(se, st), m)
  {
    var symbol := SymbolOf(se, m);
    UpperIdempotent(if m.symbol.Text? then m.symbol.value else se.current);
    assert Streams(se.(current := symbol), st) == Streams(se, st);
    if SubscribesMarket(m) {
      RestartShows(se.(current := symbol), st, owner, MarketPrice, symbol);
    } else if SubscribesBook(m) {
      RestartShows(se.(current := symbol), st, owner, OrderBook, symbol);
    } else {
      RestartShows(se, st, owner, Top10, "");
    }
  }

  lemma RestartIfActiveShows(se: Session, st: State, owner: nat, c: Category, symbol: string)
    requires Table(se, st)
    ensures var (se', st') := RestartIfActive(se, st, owner, c, symbol);
            && Table(se', st') && se'.current == se.current && se'.open == se.open
            && Streams(se', st') == if Key(c) in Streams(se, st) then Streams(se, st)[Key(c) := Upper(symbol)] else Streams(se, st)
  {
    if Key(c) in se.active {
      RestartShows(se, st, owner, c, symbol);
    }
  }

  lemma ChangeShows(se: Session, st: State, owner: nat, m: Message)
    requires Table(se, st) && se.open && Changes(m) && !Fatal(m)
    ensures var (se', st') := Receive(se, st, owner, m);
            Table(se', st') && Show(se', st') == Read(Show(se, st), m)
  {
    var symbol := SymbolOf(se, m);
    UpperIdempotent(if m.symbol.Text? then m.symbol.value else se.current);
    var se0 := se.(current := symbol);
    var v := Streams(se, st);
    assert Streams(se0, st) == v;
    RestartIfActiveShows(se0, st, owner, MarketPrice, symbol);
    var (se1, st1) := RestartIfActive(se0, st, owner, MarketPrice, symbol);
    RestartIfActiveShows(se1, st1, owner, OrderBook, symbol);
    TableKeys(se, st);
    ChangeAllStreams(v, symbol);
  }

  lemma TableKeys(se: Session, st: State)
    requires Table(se, st)
    ensures forall c | c in Streams(se, st) :: c == TOP || c == MARKET || c == BOOK
  {
  }

  lemma ChangeAllStreams(v: map<string, string>, symbol: string)
    requires forall c | c in v :: c == TOP || c == MARKET || c == BOOK
    ensures var v1 := if MARKET in v then v[MARKET := symbol] else v;
            var v2 := if BOOK in v1 then v1[BOOK := symbol] else v1;
            v2 == map c | c in v :: if c == TOP then v[c] else symbol
  {
    assert MARKET != TOP && BOOK != TOP && MARKET != BOOK by {
      assert |MARKET| == 12 && |BOOK| == 10 && |TOP| == 6;
    }
  }

  // ---------- The whole message sequence ----------

  /** The last position whose message satisfies `p`, or -1. */
  function Last(ms: seq<Message>, p: Message -> bool): (i: int)
    ensures -1 <= i < |ms|
    ensures i >= 0 ==> p(ms[i])
    ensures forall j | i < j < |ms| :: !p(ms[j])
  {
    if ms == [] then -1
    else if p(ms[|ms| - 1]) then |ms| - 1
    else Last(ms[..|ms| - 1], p)
  }

  /** The message names a symbol that the session makes its current one. */
  predicate Sets(m: Message) {
    (SubscribesMarket(m) || SubscribesBook(m) || Changes(m)) && m.symbol.Text?
  }

  /** The current symbol is the one named last by a subscription or a change. */
  function Current(ms: seq<Message>): string {
    var i := Last(ms, Sets);
    if i >= 0 && ms[i].Object? && ms[i].symbol.Text? then Upper(ms[i].symbol.value) else DEFAULT_SYMBOL
  }

  function UnsubscribesFrom(name: string): Message -> bool {
    m => Unsubscribes(m, name)
  }

  function SubscribesOrChanges(subscribes: Message -> bool): Message -> bool {
    m => subscribes(m) || Changes(m)
  }

  /** A category is streamed when its last subscription was not followed by its unsubscription. */
  predicate Streamed(ms: seq<Message>, subscribes: Message -> bool, name: string) {
    Last(ms, subscribes) > Last(ms, UnsubscribesFrom(name))
  }

  /** A symbol stream follows what was current at its last subscription or at the last change, whichever is later. */
  function Followed(ms: seq<Message>, subscribes: Message -> bool): string {
    CurrentAfter(ms, Last(ms, SubscribesOrChanges(subscribes)))
  }

  /** The current symbol after the message at position `i`. */
  function CurrentAfter(ms: seq<Message>, i: int): string
    requires -1 <= i < |ms|
  {
    Current(ms[..i + 1])
  }

  ghost predicate Harmless(ms: seq<Message>) {
    forall i | 0 <= i < |ms| :: !Fatal(ms[i])
  }

  ghost predicate ShowsHistory(v: Shown, ms: seq<Message>) {
    && v.open
    && v.current == Current(ms)
    && (forall c | c in v.streams :: c == MARKET || c == BOOK || c == TOP)
    && (MARKET in v.streams <==> Streamed(ms, SubscribesMarket, MARKET))
    && (BOOK in v.streams <==> Streamed(ms, SubscribesBook, BOOK))
    && (TOP in v.streams <==> Streamed(ms, SubscribesTop, TOP))
    && (MARKET in v.streams ==> v.streams[MARKET] == Followed(ms, SubscribesMarket))
    && (BOOK in v.streams ==> v.streams[BOOK] == Followed(ms, SubscribesBook))
  }

  /** One more message moves the last position to the end or leaves it. */
  lemma LastOfMore(ms: seq<Message>, m: Message, p: Message -> bool)
    ensures Last(ms + [m], p) == if p(m) then |ms| else Last(ms, p)
  {
    assert (ms + [m])[..|ms|] == ms;
  }

  lemma CurrentOfMore(ms: seq<Message>, m: Message)
    ensures Current(ms + [m]) == if Sets(m) then Upper(m.symbol.value) else Current(ms)
    ensures Upper(Current(ms)) == Current(ms)
  {
    LastOfMore(ms, m, Sets);
    DefaultIsUpper();
    var i := Last(ms, Sets);
    if i >= 0 {
      UpperIdempotent(ms[i].symbol.value);
    }
  }

  lemma StreamedOfMore(ms: seq<Message>, m: Message, subscribes: Message -> bool, name: string)
    requires !(subscribes(m) && Unsubscribes(m, name))
    ensures Streamed(ms + [m], subscribes, name)
       <==> if subscribes(m) then true else if Unsubscribes(m, name) then false else Streamed(ms, subscribes, name)
  {
    LastOfMore(ms, m, subscribes);
    LastOfMore(ms, m, UnsubscribesFrom(name));
  }

  lemma FollowedOfMore(ms: seq<Message>, m: Message, subscribes: Message -> bool)
    ensures Followed(ms + [m], subscribes)
         == if subscribes(m) || Changes(m) then Current(ms + [m]) else Followed(ms, subscribes)
  {
    var p := SubscribesOrChanges(subscribes);
    LastOfMore(ms, m, p);
    if p(m) {
      assert (ms + [m])[..|ms| + 1] == ms + [m];
    } else {
      assert (ms + [m])[..Last(ms, p) + 1] == ms[..Last(ms, p) + 1];
    }
  }

  /** What reading a message does to the entry of one category. */
  ghost predicate ReadsEntry(v: Shown, m: Message, key: string, subscribed: bool) {
    var v' := Read(v, m);
    && (key in v'.streams <==> subscribed || (key in v.streams && !Unsubscribes(m, key)))
    && (key in v'.streams && key != TOP ==> v'.streams[key] == if subscribed || Changes(m) then v'.current else v.streams[key])
  }

  lemma ReadEntries(v: Shown, m: Message)
    requires v.open && !Fatal(m)
    ensures ReadsEntry(v, m, MARKET, SubscribesMarket(m))
    ensures ReadsEntry(v, m, BOOK, SubscribesBook(m))
    ensures ReadsEntry(v, m, TOP, SubscribesTop(m))
  {
    assert |MARKET| == 12 && |BOOK| == 10 && |TOP| == 6;
  }

  lemma ReadCurrent(v: Shown, ms: seq<Message>, m: Message)
    requires v.open && !Fatal(m) && v.current == Current(ms)
    ensures Read(v, m).open && Read(v, m).current == Current(ms + [m])
    ensures SubscribesMarket(m) || SubscribesBook(m) || Changes(m) ==> Current(ms + [m]) == Read(v, m).current
  {
    CurrentOfMore(ms, m);
  }

  lemma ReadExtends(v: Shown, ms: seq<Message>, m: Message)
    requires ShowsHistory(v, ms) && !Fatal(m)
    ensures ShowsHistory(Read(v, m), ms + [m])
  {
    ReadEntries(v, m);
    ReadCurrent(v, ms, m);
    StreamedOfMore(ms, m, SubscribesMarket, MARKET);
    StreamedOfMore(ms, m, SubscribesBook, BOOK);
    StreamedOfMore(ms, m, SubscribesTop, TOP);
    FollowedOfMore(ms, m, SubscribesMarket);
    FollowedOfMore(ms, m, SubscribesBook);
  }

  /**
    After any messages of which none ended the session, the current symbol and the
    streamed symbols are told by the last messages of each kind.
  */
  lemma {:induction false} SessionTellsHistory(st: State, owner: nat, ms: seq<Message>)
    requires Harmless(ms)
    ensures var (se, st') := ReceiveAll(NEW_SESSION, st, owner, ms);
            Table(se, st') && ShowsHistory(Show(se, st'), ms)
  {
    if ms == [] {
    } else {
      var front, m := ms[..|ms| - 1], ms[|ms| - 1];
      SessionTellsHistory(st, owner, front);
      var (se, st') := ReceiveAll(NEW_SESSION, st, owner, front);
      ReceiveShows(se, st', owner, m);
      ReadExtends(Show(se, st'), front, m);
      assert front + [m] == ms;
    }
  }

  /** Right after a change of symbol every symbol stream carries the current symbol. */
  lemma SameAfterChange(st: State, owner: nat, ms: seq<Message>)
    requires Harmless(ms) && ms != [] && Changes(ms[|ms| - 1])
    ensures var (se, st') := ReceiveAll(NEW_SESSION, st, owner, ms);
            Table(se, st') && forall c | c in Streams(se, st') && c != TOP :: Streams(se, st')[c] == se.current
  {
    SessionTellsHistory(st, owner, ms);
    FollowedNow(ms, SubscribesMarket);
    FollowedNow(ms, SubscribesBook);
  }

  lemma FollowedNow(ms: seq<Message>, subscribes: Message -> bool)
    requires ms != [] && Changes(ms[|ms| - 1])
    ensures Followed(ms, subscribes) == Current(ms)
  {
    LastAt(ms, SubscribesOrChanges(subscribes), |ms| - 1);
    assert ms[..|ms|] == ms;
  }

  predicate SubscribesSymbol(m: Message) {
    SubscribesMarket(m) || SubscribesBook(m)
  }

  /** The two symbol streams differ only if a subscription came after the last change of symbol. */
  lemma DifferOnlyAfterSubscription(st: State, owner: nat, ms: seq<Message>)
    requires Harmless(ms)
    ensures var (se, st') := ReceiveAll(NEW_SESSION, st, owner, ms);
            && Table(se, st')
            && var v := Streams(se, st');
            MARKET in v && BOOK in v && v[MARKET] != v[BOOK] ==> Last(ms, SubscribesSymbol) > Last(ms, Changes)
  {
    SessionTellsHistory(st, owner, ms);
    if Last(ms, SubscribesSymbol) <= Last(ms, Changes) {
      FollowedTogether(ms);
    }
  }

  lemma FollowedTogether(ms: seq<Message>)
    requires Last(ms, SubscribesSymbol) <= Last(ms, Changes)
    ensures Followed(ms, SubscribesMarket) == Followed(ms, SubscribesBook)
  {
    forall i | Last(ms, Changes) < i < |ms| ensures !SubscribesMarket(ms[i]) && !SubscribesBook(ms[i]) {
      assert !SubscribesSymbol(ms[i]);
    }
    FollowedFromChange(ms, SubscribesMarket);
    FollowedFromChange(ms, SubscribesBook);
    assert Last(ms, SubscribesOrChanges(SubscribesMarket)) == Last(ms, SubscribesOrChanges(SubscribesBook));
  }

  lemma FollowedFromChange(ms: seq<Message>, subscribes: Message -> bool)
    requires forall i | Last(ms, Changes) < i < |ms| :: !subscribes(ms[i])
    ensures Last(ms, SubscribesOrChanges(subscribes)) == Last(ms, Changes)
  {
    var p, j := SubscribesOrChanges(subscribes), Last(ms, Changes);
    forall i | j < i < |ms| ensures !p(ms[i]) {
      assert !subscribes(ms[i]) && !Changes(ms[i]);
    }
    assert j >= 0 ==> p(ms[j]);
    LastAt(ms, p, j);
  }

  lemma LastAt(ms: seq<Message>, p: Message -> bool, j: int)
    requires -1 <= j < |ms| && (j >= 0 ==> p(ms[j])) && forall i | j < i < |ms| :: !p(ms[i])
    ensures Last(ms, p) == j
  {
  }

  /** A message whose handling raises closes the session; nothing after it has any effect. */
  lemma {:induction false} StopsAtFatal(se: Session, st: State, owner: nat, front: seq<Message>, m: Message,
                                        rest: seq<Message>)
    requires Fatal(m)
    ensures var (se', st') := ReceiveAll(se, st, owner, front);
            ReceiveAll(se, st, owner, front + [m] + rest) == (se'.(open := false), st')
  {
    var all := front + [m] + rest;
    if rest == [] {
      assert all[..|all| - 1] == front;
    } else {
      assert all[..|all| - 1] == front + [m] + rest[..|rest| - 1];
      StopsAtFatal(se, st, owner, front, m, rest[..|rest| - 1]);
    }
  }

  /** Bad JSON is answered; an object is fatal only with a symbol that is no text, or when it unsubscribes an unhashable category. */
  predicate Survives(m: Message) {
    match m
    case BadJson => true
    case NotAnObject => false
    case Object(kind, symbol, category) => !symbol.NotText? && (kind == "unsubscribe" ==> !category.Unhashable?)
  }

  /** A session is open after exactly those sequences of messages that it survives one by one. */
  lemma {:induction false} OpenIff(st: State, owner: nat, ms: seq<Message>)
    ensures ReceiveAll(NEW_SESSION, st, owner, ms).0.open <==> forall m :: m in ms ==> Survives(m)
  {
    if ms == [] {
    } else {
      var front, m := ms[..|ms| - 1], ms[|ms| - 1];
      OpenIff(st, owner, front);
      assert ms == front + [m];
      var (se, st') := ReceiveAll(NEW_SESSION, st, owner, front);
      ReceiveStaysOpen(se, st', owner, m);
    }
  }

  lemma ReceiveStaysOpen(se: Session, st: State, owner: nat, m: Message)
    ensures Receive(se, st, owner, m).0.open <==> se.open && Survives(m)
  {
  }

  // ---------- In place ----------

  class MarketSession {
    const loop: EventLoop
    const owner: nat
    var currentSymbol: string
    var activeTasks: map<string, nat>
    var open: bool

    ghost function View(): Session
      reads this
    {
      Session(currentSymbol, activeTasks, open)
    }

    constructor (loop: EventLoop, owner: nat)
      ensures this.loop == loop && this.owner == owner && View() == NEW_SESSION
    {
      this.loop, this.owner := loop, owner;
      currentSymbol, activeTasks, open := DEFAULT_SYMBOL, map[], true;
    }

    method CancelTask(name: string)
      modifies this`activeTasks, loop`tasks, loop`workerTasks
      ensures (View(), loop.View()) == CancelActive(old(View()), old(loop.View()), name)
    {
      if name in activeTasks {
        var t := activeTasks[name];
        activeTasks := activeTasks - {name};
        if t < |loop.tasks| {
          loop.CancelTask(t);
        }
      } else {
        assert activeTasks - {name} == activeTasks;
      }
    }

    method RestartTask(c: Category, symbol: string)
      modifies this`activeTasks, loop`tasks, loop`workerTasks
      ensures (View(), loop.View()) == Restart(old(View()), old(loop.View()), owner, c, symbol)
    {
      CancelTask(Key(c));
      var t := loop.CreateTask(owner, c, symbol);
      activeTasks := activeTasks[Key(c) := t];
    }

    method HandleMessage(m: Message)
      modifies this, loop`tasks, loop`workerTasks
      ensures (View(), loop.View()) == Receive(old(View()), old(loop.View()), owner, m)
    {
      if !open || m.BadJson? {
        return;
      }
      if m.NotAnObject? || m.symbol.NotText? {
        open := false;
        return;
      }
      var symbol := Upper(if m.symbol.Text? then m.symbol.value else currentSymbol);
      if m.kind == "subscribe_market_price" {
        currentSymbol := symbol;
        RestartTask(MarketPrice, symbol);
      } else if m.kind == "subscribe_order_book" {
        currentSymbol := symbol;
        RestartTask(OrderBook, symbol);
      } else if m.kind == "subscribe_top_10" {
        RestartTask(Top10, "");
      } else if m.kind == "unsubscribe" {
        if m.category.Unhashable? {
          open := false;
        } else if m.category.Named? && m.category.name != "" {
          CancelTask(m.category.name);
        }
      } else if m.kind == "change_symbol" {
        currentSymbol := symbol;
        if MARKET in activeTasks {
          RestartTask(MarketPrice, symbol);
        }
        if BOOK in activeTasks {
          RestartTask(OrderBook, symbol);
        }
      }
    }

    method Run(ms: seq<Message>)
      modifies this, loop`tasks, loop`workerTasks
      ensures (View(), loop.View()) == ReceiveAll(old(View()), old(loop.View()), owner, ms)
    {
      var i := 0;
      while i < |ms|
        invariant 0 <= i <= |ms|
        invariant (View(), loop.View()) == ReceiveAll(old(View()), old(loop.View()), owner, ms[..i])
      {
        HandleMessage(ms[i]);
        assert ms[..i + 1][..i] == ms[..i];
        i := i + 1;
      }
      assert ms[..i] == ms;
    }
  }
}
