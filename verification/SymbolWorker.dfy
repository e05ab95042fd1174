/**
  The Coinbase listener task of one symbol: a reconnect loop around one
  websocket connection. A worker is suspended at one of the points below, and
  `Resume` runs it from there to its next suspension.
*/
module SymbolWorker {

  /** What makes the worker leave its connection. */
  datatype Leave = Normally | Failing | Cancelling

  datatype Point =
    | Fresh                       // scheduled, not yet started
    | Connecting
    | SendingTicker               // subscribing to the ticker channel
    | SendingCandles              // subscribing to the candles channel
    | Reading
    | Publishing(left: nat)       // events of the current message still to publish
    | Leaving(why: Leave)         // closing the connection
    | BackingOff
    | Ended

  /** How the awaited operation ended, when no cancellation is delivered. */
  datatype Outcome = Done | Message(events: nat) | StreamEnd | Failed

  /**
    `cancelled` records that the task was ever asked to cancel; `pending` that a
    request has not been delivered yet.
  */
  datatype Worker = Worker(symbol: string, point: Point, stop: bool, cancelled: bool, pending: bool)

  function New(symbol: string): Worker {
    Worker(symbol, Fresh, false, false, false)
  }

  function Cancel(w: Worker): Worker {
    if w.point.Ended? then w else w.(cancelled := true, pending := true)
  }

  function LoopHead(w: Worker): Point {
    if w.stop then Ended else Connecting
  }

  /** Where a delivered cancellation takes the worker. */
  function Unwind(p: Point): Point {
    match p
    case SendingTicker | SendingCandles | Reading | Publishing(_) => Leaving(Cancelling)
    case _ => Ended
  }

  /** Where the awaited operation's outcome takes the worker. */
  function Advance(w: Worker, o: Outcome): Point {
    match w.point
    case Fresh => LoopHead(w)
    case Connecting => if o.Failed? then BackingOff else SendingTicker
    case SendingTicker => if o.Failed? then Leaving(Failing) else SendingCandles
    case SendingCandles => if o.Failed? then Leaving(Failing) else Reading
    case Reading => (
      match o
      case Failed => Leaving(Failing)
      case StreamEnd => Leaving(Normally)
      case Message(n) => if w.stop then Leaving(Normally) else if n > 0 then Publishing(n) else Reading
      case Done => Reading)
    case Publishing(n) => if o.Failed? then Leaving(Failing) else if n > 1 then Publishing(n - 1) else Reading
    case Leaving(why) => (
      if o.Failed? then BackingOff
      else match why
           case Normally => LoopHead(w)
           case Failing => BackingOff
           case Cancelling => Ended)
    case BackingOff => LoopHead(w)
    case Ended => Ended
  }

  function Resume(w: Worker, o: Outcome): Worker {
    if w.pending then w.(point := Unwind(w.point), pending := false)
    else w.(point := Advance(w, o))
  }

  function ResumeAll(w: Worker, os: seq<Outcome>): Worker {
    if os == [] then w else Resume(ResumeAll(w, os[..|os| - 1]), os[|os| - 1])
  }

  /**
    The worker will go on running its loop, and so may publish: it has not ended
    and no cancellation is on its way out.
  */
  predicate Active(w: Worker) {
    !w.pending && w.point != Ended && w.point != Leaving(Cancelling)
  }

  /**
    A failure while the connection is closed for a cancellation: the handler of
    the reconnect loop catches it and the worker goes on.
  */
  predicate Swallows(w: Worker, o: Outcome) {
    !w.pending && w.point == Leaving(Cancelling) && o.Failed?
  }

  /**
    A worker that nobody cancels never ends, whatever its connections,
    publications and messages do.
  */
  lemma {:induction false} NeverEndsAlone(symbol: string, os: seq<Outcome>)
    ensures Active(ResumeAll(New(symbol), os))
    ensures !ResumeAll(New(symbol), os).stop
  {
    if os == [] {
    } else {
      NeverEndsAlone(symbol, os[..|os| - 1]);
    }
  }

  /**
    A step makes a worker inactive, ends it or makes it active again in exactly
    these cases.
  */
  lemma ResumeClassified(w: Worker, o: Outcome)
    requires !w.stop && w.point != Ended
    ensures Active(w) ==> Active(Resume(w, o))
    ensures !Active(w) ==> (Active(Resume(w, o)) <==> Swallows(w, o))
    ensures Resume(w, o).point == Ended ==> !Active(w)
  {
  }

  // ---------- What an uncancelled worker does ----------

  datatype Channel = Ticker | Candles

  /** The worker after its awaits came out as `os`. */
  function At(symbol: string, os: seq<Outcome>): Worker {
    ResumeAll(New(symbol), os)
  }

  /** The channels subscribed to on the current connection. */
  function Subscribed(symbol: string, os: seq<Outcome>): set<Channel> {
    if os == [] then {}
    else
      var front, o := os[..|os| - 1], os[|os| - 1];
      if At(symbol, front).point.Connecting? then {}
      else if At(symbol, front).point.SendingTicker? && !o.Failed? then Subscribed(symbol, front) + {Ticker}
      else if At(symbol, front).point.SendingCandles? && !o.Failed? then Subscribed(symbol, front) + {Candles}
      else Subscribed(symbol, front)
  }

  /** Whenever the worker waits for messages or publishes, it has subscribed to both channels of its connection. */
  lemma {:induction false} ReadsBothChannels(symbol: string, os: seq<Outcome>)
    ensures var p := At(symbol, os).point;
            && (p.Reading? || p.Publishing? ==> Subscribed(symbol, os) == {Ticker, Candles})
            && (p.SendingTicker? ==> Subscribed(symbol, os) == {})
            && (p.SendingCandles? ==> Subscribed(symbol, os) == {Ticker})
  {
    if os == [] {
    } else {
      ReadsBothChannels(symbol, os[..|os| - 1]);
      NeverEndsAlone(symbol, os[..|os| - 1]);
    }
  }

  /** The events of all messages read so far. */
  function Announced(symbol: string, os: seq<Outcome>): nat {
    if os == [] then 0
    else
      var front, o := os[..|os| - 1], os[|os| - 1];
      Announced(symbol, front) + if At(symbol, front).point.Reading? && o.Message? then o.events else 0
  }

  /** The publications that went through. */
  function Published(symbol: string, os: seq<Outcome>): nat {
    if os == [] then 0
    else
      var front, o := os[..|os| - 1], os[|os| - 1];
      Published(symbol, front) + if At(symbol, front).point.Publishing? && !o.Failed? then 1 else 0
  }

  /** The events given up because a publication failed. */
  function Dropped(symbol: string, os: seq<Outcome>): nat {
    if os == [] then 0
    else
      var front, o := os[..|os| - 1], os[|os| - 1];
      Dropped(symbol, front) + if At(symbol, front).point.Publishing? && o.Failed? then At(symbol, front).point.left else 0
  }

  /** Every event read has been published, was given up at a failure, or is still to come. */
  lemma {:induction false} EventsAreConserved(symbol: string, os: seq<Outcome>)
    ensures var p := At(symbol, os).point;
            && (p.Publishing? ==> p.left > 0)
            && Announced(symbol, os)
                 == Published(symbol, os) + Dropped(symbol, os) + (if p.Publishing? then p.left else 0)
  {
    if os == [] {
    } else {
      EventsAreConserved(symbol, os[..|os| - 1]);
      NeverEndsAlone(symbol, os[..|os| - 1]);
    }
  }

  /** The worker has a connection that is not being closed. */
  predicate Connected(w: Worker) {
    w.point.SendingTicker? || w.point.SendingCandles? || w.point.Reading? || w.point.Publishing?
  }

  /**
    Whatever fails, the worker closes its connection, backs off and connects again;
    when the stream ends it connects again without backing off. It never leaves a
    connection without closing it.
  */
  lemma Reconnects(w: Worker, o: Outcome)
    requires !w.stop && !w.pending
    ensures Connected(w) && !Connected(Resume(w, o)) ==> Resume(w, o).point.Leaving?
    ensures Connected(w) ==> Resume(Resume(w, Failed), Done).point.BackingOff?
    ensures w.point.Connecting? ==> Resume(w, Failed).point.BackingOff?
    ensures w.point.BackingOff? ==> Resume(w, Done).point.Connecting?
    ensures w.point.Reading? ==> Resume(Resume(w, StreamEnd), Done).point.Connecting?
  {
  }

  /** A worker that was told to stop publishes no further message and connects no more. */
  lemma StopEnds(w: Worker, o: Outcome)
    requires w.stop && !w.pending && !w.point.Ended?
    ensures w.point.Reading? ==> !Resume(w, o).point.Publishing?
    ensures w.point.Reading? && o.Message? ==> Resume(Resume(w, o), Done).point.Ended?
    ensures w.point.Fresh? || w.point.BackingOff? ==> Resume(w, o).point.Ended?
    ensures !Resume(w, o).point.Connecting? || w.point.Connecting?
  {
  }

  /** How many undisturbed steps the worker is from reading. */
  function ToReading(w: Worker): nat {
    match w.point
    case Fresh => 4
    case BackingOff => 4
    case Connecting => 3
    case SendingTicker => 2
    case SendingCandles => 1
    case Publishing(n) => if n > 1 then n else 1
    case Leaving(why) => if why.Normally? then 4 else 5
    case _ => 0
  }

  /** An active worker that nothing disturbs comes to read. */
  lemma {:induction false} ComesToRead(w: Worker) returns (w': Worker, n: nat)
    requires !w.stop && Active(w)
    ensures w' == Undisturbed(w, n) && w'.point.Reading?
    decreases ToReading(w)
  {
    if w.point.Reading? {
      w', n := w, 0;
    } else {
      var rest;
      w', rest := ComesToRead(Resume(w, Done));
      n := rest + 1;
    }
  }

  function Undisturbed(w: Worker, n: nat): Worker
    decreases n
  {
    if n == 0 then w else Undisturbed(Resume(w, Done), n - 1)
  }

  /** A cancelled worker ends at once, or closes its connection first if it has one, and ends when that succeeds. */
  lemma CancelEnds(w: Worker, o: Outcome)
    requires !w.point.Ended?
    ensures if Connected(w) then Resume(Cancel(w), o).point == Leaving(Cancelling) else Resume(Cancel(w), o).point.Ended?
    ensures Resume(Resume(Cancel(w), o), Done).point.Ended?
  {
  }
}
