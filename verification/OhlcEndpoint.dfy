/** The endpoint that serves older candles: two exchanges behind one chain of pages. */
module OhlcEndpoint {
  import opened BackwardPaging
  import opened Candles
  import opened Wrappers

  datatype Config = Config(days: nat, minutes: nat)
  datatype Answer = InvalidTimeframe | Ohlc(candles: seq<Candle>, nextBefore: Option<int>)

  const TIMEFRAME_CONFIG: map<string, Config> :=
    map["1m" := Config(1, 1), "15m" := Config(3, 15), "1h" := Config(7, 60), "1d" := Config(30, 1440)]

  function Limit(c: Config): nat
    requires c.minutes > 0
  {
    var total := c.days * 24 * 60 / c.minutes;
    if total < 300 then total else 300
  }

  /** An exchange that raises or does not list the symbol answers with nothing. */
  function Ask(h: Option<seq<Candle>>, since: int, limit: nat): seq<Candle> {
    if h.Some? then Fetch(h.value, since, limit) else []
  }

  /** The time asked for: an absent or zero one means now, a later one is cut down to now. */
  function Until(before: Option<int>, now: int): int {
    if before.None? || before.value == 0 then now else if before.value < now then before.value else now
  }

  function GetOhlc(primary: Option<seq<Candle>>, fallback: Option<seq<Candle>>, timeframe: string,
                   before: Option<int>, now: int): Answer
  {
    if timeframe !in TIMEFRAME_CONFIG then InvalidTimeframe
    else
      var c := TIMEFRAME_CONFIG[timeframe];
      var limit := if c.minutes > 0 then Limit(c) else 0;
      var since := Until(before, now) - limit * c.minutes * 60 * 1000;
      var candles := Ask(primary, since, limit);
      if candles != [] then Ohlc(candles, Some(candles[0].time))
      else
        var others := Ask(fallback, since, limit);
        if others != [] then Ohlc(others, Some(others[0].time)) else Ohlc([], None)
  }

  // ---------- One question ----------

  /** What can be fetched from an exchange. */
  function Seen(h: Option<seq<Candle>>): seq<Candle> {
    if h.Some? then h.value else []
  }

  /** The history that answers a question: the primary one if its page has a candle. */
  function Serving(p: seq<Candle>, f: seq<Candle>, limit: nat, step: nat, until: int): seq<Candle> {
    if PageAt(p, until, limit, step) != [] then p else f
  }

  function Either(p: seq<Candle>, f: seq<Candle>, limit: nat, step: nat): Source {
    until => PageAt(Serving(p, f, limit, step, until), until, limit, step)
  }

  /** The answer made of a page: its candles and the time of the oldest. */
  function Serve(page: Source, until: int): Answer {
    if page(until) == [] then Ohlc([], None) else Ohlc(page(until), Some(NextBefore(page, until)))
  }

  /** A timeframe's page length and candle length, in milliseconds. */
  function PageLimit(timeframe: string): nat
    requires timeframe in TIMEFRAME_CONFIG
  {
    var c := TIMEFRAME_CONFIG[timeframe];
    if c.minutes > 0 then Limit(c) else 0
  }

  function StepOf(timeframe: string): nat
    requires timeframe in TIMEFRAME_CONFIG
  {
    TIMEFRAME_CONFIG[timeframe].minutes * 60_000
  }

  /** The four timeframes: how many candles a page has, and how long each is. */
  lemma ConfigLimits(timeframe: string)
    requires timeframe in TIMEFRAME_CONFIG
    ensures TIMEFRAME_CONFIG[timeframe].minutes > 0
    ensures timeframe == "1m" ==> PageLimit(timeframe) == 300 && StepOf(timeframe) == 60_000
    ensures timeframe == "15m" ==> PageLimit(timeframe) == 288 && StepOf(timeframe) == 900_000
    ensures timeframe == "1h" ==> PageLimit(timeframe) == 168 && StepOf(timeframe) == 3_600_000
    ensures timeframe == "1d" ==> PageLimit(timeframe) == 30 && StepOf(timeframe) == 86_400_000
    ensures timeframe in ["1m", "15m", "1h", "1d"]
  {
    assert timeframe == "1m" || timeframe == "15m" || timeframe == "1h" || timeframe == "1d";
    assert ["1m", "15m", "1h", "1d"][0] == "1m" && ["1m", "15m", "1h", "1d"][1] == "15m";
    assert ["1m", "15m", "1h", "1d"][2] == "1h" && ["1m", "15m", "1h", "1d"][3] == "1d";
  }

  /** Both exchanges of a timeframe, as one source of pages. */
  function Pages(primary: Option<seq<Candle>>, fallback: Option<seq<Candle>>, timeframe: string): Source
    requires timeframe in TIMEFRAME_CONFIG
  {
    Either(Seen(primary), Seen(fallback), PageLimit(timeframe), StepOf(timeframe))
  }

  lemma MinutesPositive(timeframe: string)
    requires timeframe in TIMEFRAME_CONFIG
    ensures TIMEFRAME_CONFIG[timeframe].minutes > 0
  {
    ConfigLimits(timeframe);
  }

  lemma AskIsPage(h: Option<seq<Candle>>, until: int, limit: nat, step: nat)
    ensures Ask(h, until - Times(limit, step), limit) == PageAt(Seen(h), until, limit, step)
  {
  }

  lemma SameSpan(limit: nat, minutes: nat)
    ensures limit * minutes * 60 * 1000 == Times(limit, minutes * 60_000)
  {
    TimesIsProduct(limit, minutes * 60_000);
    assert limit * minutes * 60 * 1000 == limit * (minutes * 60_000);
  }

  /**
    Each answer is the page of one of the two histories: of the primary one if that
    page has a candle, else of the fallback. An exchange that fails or does not list
    the symbol has no candles.
  */
  lemma EndpointServesPages(primary: Option<seq<Candle>>, fallback: Option<seq<Candle>>, timeframe: string,
                            before: Option<int>, now: int)
    requires timeframe in TIMEFRAME_CONFIG
    ensures GetOhlc(primary, fallback, timeframe, before, now)
            == Serve(Pages(primary, fallback, timeframe), Until(before, now))
  {
    hide Ask, PageAt, Until;
    var c, until := TIMEFRAME_CONFIG[timeframe], Until(before, now);
    MinutesPositive(timeframe);
    SameSpan(Limit(c), c.minutes);
    AskIsPage(primary, until, Limit(c), StepOf(timeframe));
    AskIsPage(fallback, until, Limit(c), StepOf(timeframe));
  }

  /**
    The time asked for. Without one, with zero, or with one that is not before now,
    both exchanges are asked for the candles up to now, else up to that time.
  */
  lemma TimeAsked(primary: Option<seq<Candle>>, fallback: Option<seq<Candle>>, timeframe: string,
                  before: Option<int>, now: int, asked: int)
    requires timeframe in TIMEFRAME_CONFIG
    requires asked == if before == None || before == Some(0) || now <= before.value then now else before.value
    ensures var limit, since := PageLimit(timeframe), asked - PageLimit(timeframe) * StepOf(timeframe);
            var p, f := Fetch(Seen(primary), since, limit), Fetch(Seen(fallback), since, limit);
            GetOhlc(primary, fallback, timeframe, before, now)
              == if p != [] then Ohlc(p, Some(p[0].time)) else if f != [] then Ohlc(f, Some(f[0].time)) else Ohlc([], None)
  {
    TimesIsProduct(PageLimit(timeframe), StepOf(timeframe));
    EndpointServesPages(primary, fallback, timeframe, before, now);
  }

  /** Asking without a time is asking with now, and asking for the future likewise. */
  lemma FutureIsNow(primary: Option<seq<Candle>>, fallback: Option<seq<Candle>>, timeframe: string, before: int, now: int)
    requires now <= before && now != 0
    ensures GetOhlc(primary, fallback, timeframe, None, now) == GetOhlc(primary, fallback, timeframe, Some(now), now)
    ensures GetOhlc(primary, fallback, timeframe, Some(before), now) == GetOhlc(primary, fallback, timeframe, Some(now), now)
  {
  }

  /** A first request on a gap-free history that reaches now is answered with the newest candles. */
  lemma FirstPageIsNewest(p: seq<Candle>, fallback: Option<seq<Candle>>, timeframe: string, now: int)
    requires timeframe in TIMEFRAME_CONFIG && Gapless(p, StepOf(timeframe)) && Reached(p, now, StepOf(timeframe))
    requires Below(p, now) >= PageLimit(timeframe)
    ensures var q, n := Below(p, now), PageLimit(timeframe);
            n > 0 && GetOhlc(Some(p), fallback, timeframe, None, now) == Ohlc(p[q - n..q], Some(p[q - n].time))
  {
    hide GetOhlc, Fetch, Below, Gapless, Reached, PageLimit, StepOf;
    var limit, step := PageLimit(timeframe), StepOf(timeframe);
    ConfigLimits(timeframe);
    TimesIsProduct(limit, step);
    BackQuery(p, now, limit, step, now - limit * step);
    TimeAsked(Some(p), fallback, timeframe, None, now, now);
  }

  // ---------- Two histories behind one chain ----------

  /**
    A question goes back in time, and what is new in its page is what the history
    that answers holds in between.
  */
  ghost predicate Fair(page: Source, primary: int -> bool, p: seq<Candle>, f: seq<Candle>, u: int) {
    NextBefore(page, u) < u && Older(page(u), u) == Between(if primary(u) then p else f, NextBefore(page, u), u)
  }

  ghost predicate FairUpTo(page: Source, primary: int -> bool, p: seq<Candle>, f: seq<Candle>, until: int, k: nat) {
    forall i: nat | i < k :: Fair(page, primary, p, f, Before(page, until, i))
  }

  /** Once the primary exchange answers, it answers every earlier question. */
  ghost predicate Sticks(primary: int -> bool) {
    forall u, u' | u' <= u && primary(u) :: primary(u')
  }

  /** The first `j` of k questions are answered by the fallback, and all others by the primary exchange. */
  ghost predicate SwitchesAt(page: Source, primary: int -> bool, until: int, k: nat, j: nat) {
    j <= k && forall i: nat | i < k :: primary(Before(page, until, i)) <==> j <= i
  }

  /** The candles of the primary history from `lo` to `mid`, followed by those of the fallback up to `hi`. */
  function BothBetween(p: seq<Candle>, f: seq<Candle>, lo: int, mid: int, hi: int): seq<Candle> {
    Between(p, lo, mid) + Between(f, mid, hi)
  }

  lemma EmptyBetween(h: seq<Candle>, t: int)
    requires Ascending(h)
    ensures Between(h, t, t) == []
  {
    BetweenIsSlice(h, t, t);
  }

  lemma BothOfNothing(p: seq<Candle>, f: seq<Candle>, t: int)
    requires Ascending(p) && Ascending(f)
    ensures BothBetween(p, f, t, t, t) == []
  {
    EmptyBetween(p, t);
    EmptyBetween(f, t);
  }

  /** Another page of the fallback, while the primary exchange has not answered. */
  lemma MoreOfFallback(p: seq<Candle>, f: seq<Candle>, lo: int, mid: int, hi: int)
    requires Ascending(p) && Ascending(f) && lo <= mid <= hi
    ensures Between(f, lo, mid) + BothBetween(p, f, mid, mid, hi) == BothBetween(p, f, lo, lo, hi)
  {
    EmptyBetween(p, mid);
    EmptyBetween(p, lo);
    BetweenSplits(f, lo, mid, hi);
  }

  lemma MoreOfPrimary(p: seq<Candle>, f: seq<Candle>, lo: int, mid: int, mid': int, hi: int)
    requires Ascending(p) && lo <= mid <= mid'
    ensures Between(p, lo, mid) + BothBetween(p, f, mid, mid', hi) == BothBetween(p, f, lo, mid', hi)
  {
    BetweenSplits(p, lo, mid, mid');
  }

  /** While the primary exchange does not answer, it has never answered. */
  lemma OnlyFallback(page: Source, primary: int -> bool, p: seq<Candle>, f: seq<Candle>, until: int, k: nat, j: nat)
    requires Sticks(primary) && FairUpTo(page, primary, p, f, until, k) && SwitchesAt(page, primary, until, k, j)
    requires !primary(Before(page, until, k))
    ensures j == k
  {
    if k > 0 {
      var u := Before(page, until, k - 1);
      assert Fair(page, primary, p, f, u);
      assert Before(page, until, k) == NextBefore(page, u);
    }
  }

  lemma SwitchOn(page: Source, primary: int -> bool, until: int, k: nat, j: nat, j': nat)
    requires SwitchesAt(page, primary, until, k, j)
    requires if primary(Before(page, until, k)) then j' == j else j == k && j' == k + 1
    ensures SwitchesAt(page, primary, until, k + 1, j')
  {
  }

  lemma {:induction false} TwoHistories(page: Source, primary: int -> bool, p: seq<Candle>, f: seq<Candle>,
                                        until: int, k: nat)
    returns (j: nat)
    requires Ascending(p) && Ascending(f) && Sticks(primary) && FairUpTo(page, primary, p, f, until, k)
    ensures SwitchesAt(page, primary, until, k, j) && Before(page, until, k) <= Before(page, until, j) <= until
    ensures JoinedOlder(page, until, k) == BothBetween(p, f, Before(page, until, k), Before(page, until, j), until)
  {
    hide Between, Older, BothBetween;
    if k == 0 {
      j := 0;
      BothOfNothing(p, f, until);
    } else {
      j := TwoHistories(page, primary, p, f, until, k - 1);
      var u := Before(page, until, k - 1);
      var next := NextBefore(page, u);
      assert Fair(page, primary, p, f, u);
      if primary(u) {
        MoreOfPrimary(p, f, next, u, Before(page, until, j), until);
        SwitchOn(page, primary, until, k - 1, j, j);
      } else {
        OnlyFallback(page, primary, p, f, until, k - 1, j);
        MoreOfFallback(p, f, next, u, until);
        SwitchOn(page, primary, until, k - 1, j, k);
        j := k;
      }
    }
  }

  // ---------- Following next_before ----------

  ghost predicate Histories(p: seq<Candle>, f: seq<Candle>, limit: nat, step: nat) {
    limit > 0 && step > 0 && Ascending(p) && OnGrid(p, step) && Ascending(f) && OnGrid(f, step)
  }

  /** The primary exchange has a candle for the question. */
  function Answering(p: seq<Candle>, limit: nat, step: nat): int -> bool {
    u => PageAt(p, u, limit, step) != []
  }

  /** The window of the history that answers holds a candle. */
  ghost predicate Finds(p: seq<Candle>, f: seq<Candle>, limit: nat, step: nat, u: int) {
    Window(Serving(p, f, limit, step, u), u, limit, step) != []
  }

  /** The first k questions all find a candle in their window. */
  ghost predicate Inhabited(p: seq<Candle>, f: seq<Candle>, limit: nat, step: nat, until: int, k: nat) {
    forall i: nat | i < k :: Finds(p, f, limit, step, Before(Either(p, f, limit, step), until, i))
  }

  lemma PrimaryAnswersEarlier(p: seq<Candle>, limit: nat, step: nat, u: int, u': int)
    requires Ascending(p) && limit > 0 && u' <= u && PageAt(p, u, limit, step) != []
    ensures PageAt(p, u', limit, step) != []
  {
    var since, since' := u - Times(limit, step), u' - Times(limit, step);
    FetchIsSlice(p, since, limit);
    FetchIsSlice(p, since', limit);
    BetweenIsSlice(p, since', since);
  }

  lemma PrimaryStays(p: seq<Candle>, limit: nat, step: nat)
    requires Ascending(p) && limit > 0
    ensures Sticks(Answering(p, limit, step))
  {
    var primary := Answering(p, limit, step);
    forall u, u' | u' <= u && primary(u) ensures primary(u') {
      PrimaryAnswersEarlier(p, limit, step, u, u');
    }
  }

  lemma OneQuestion(p: seq<Candle>, f: seq<Candle>, limit: nat, step: nat, u: int)
    requires Histories(p, f, limit, step) && Finds(p, f, limit, step, u)
    ensures Either(p, f, limit, step)(u) != []
    ensures Fair(Either(p, f, limit, step), Answering(p, limit, step), p, f, u)
  {
    PageOlderIsBetween(Serving(p, f, limit, step, u), u, limit, step);
  }

  /**
    A chain of pages over both exchanges switches at most once, from the fallback to
    the primary one, and loses no candle: without what each page repeats, the pages
    are the unpaged queries of the fallback above the switch and of the primary
    history below it.
  */
  lemma EndpointChain(p: seq<Candle>, f: seq<Candle>, limit: nat, step: nat, until: int, k: nat) returns (j: nat)
    requires Histories(p, f, limit, step) && Inhabited(p, f, limit, step, until, k)
    ensures SwitchesAt(Either(p, f, limit, step), Answering(p, limit, step), until, k, j)
    ensures var page := Either(p, f, limit, step);
            JoinedOlder(page, until, k) == BothBetween(p, f, Before(page, until, k), Before(page, until, j), until)
  {
    var page, primary := Either(p, f, limit, step), Answering(p, limit, step);
    PrimaryStays(p, limit, step);
    forall i: nat | i < k ensures Fair(page, primary, p, f, Before(page, until, i)) {
      OneQuestion(p, f, limit, step, Before(page, until, i));
    }
    j := TwoHistories(page, primary, p, f, until, k);
  }

  /** What the client asks with: its own time at first, then the `next_before` of the answer before. */
  function Question(before: Option<int>, answers: seq<Answer>, i: nat): Option<int>
    requires i <= |answers|
  {
    if i == 0 then before else if answers[i - 1].Ohlc? then answers[i - 1].nextBefore else None
  }

  /** The answers to a client that follows `next_before`, while the clock goes on. */
  ghost predicate Follows(primary: Option<seq<Candle>>, fallback: Option<seq<Candle>>, timeframe: string,
                          before: Option<int>, answers: seq<Answer>, clock: seq<int>)
  {
    && |clock| == |answers|
    && (forall i | 0 <= i < |clock| :: clock[0] <= clock[i])
    && forall i | 0 <= i < |answers| ::
         answers[i] == GetOhlc(primary, fallback, timeframe, Question(before, answers, i), clock[i])
  }

  /** None of the times asked for is zero, which would be taken for no time at all. */
  ghost predicate NeverZero(page: Source, until: int, k: nat) {
    forall i: nat | i <= k :: Before(page, until, i) != 0
  }

  lemma NextQuestion(page: Source, u: int, before: Option<int>, answers: seq<Answer>, i: nat, now: int)
    requires 0 < i <= |answers| && answers[i - 1] == Serve(page, u) && page(u) != []
    requires 0 != NextBefore(page, u) <= now
    ensures Until(Question(before, answers, i), now) == NextBefore(page, u)
  {
  }

  lemma FirstQuestion(page: Source, before: Option<int>, answers: seq<Answer>, now: int)
    ensures Question(before, answers, 0) == before && Before(page, Until(before, now), 0) == Until(before, now) <= now
  {
  }

  /** The first k questions are answered with candles, each from earlier on than the one before. */
  ghost predicate GoesBack(page: Source, until: int, k: nat) {
    forall i: nat | i < k :: page(Before(page, until, i)) != []
        && NextBefore(page, Before(page, until, i)) < Before(page, until, i)
  }

  lemma {:induction false} ServesChain(page: Source, before: Option<int>, answers: seq<Answer>, clock: seq<int>,
                                       until: int, i: nat)
    requires i < |answers| == |clock| && until == Until(before, clock[0])
             && forall k | 0 <= k < |clock| :: clock[0] <= clock[k]
    requires forall k | 0 <= k < |answers| :: answers[k] == Serve(page, Until(Question(before, answers, k), clock[k]))
    requires GoesBack(page, until, i) && NeverZero(page, until, i)
    ensures answers[i] == Serve(page, Before(page, until, i)) && Before(page, until, i) <= clock[0]
  {
    hide Serve, Until;
    if i == 0 {
      FirstQuestion(page, before, answers, clock[0]);
    } else {
      ServesChain(page, before, answers, clock, until, i - 1);
      var u := Before(page, until, i - 1);
      assert Before(page, until, i) == NextBefore(page, u) && page(u) != [];
      NextQuestion(page, u, before, answers, i, clock[i]);
    }
  }

  /**
    The i-th answer to such a client is the i-th page of the chain, as long as every
    question finds a candle in its window.
  */
  lemma AnswersAreChain(primary: Option<seq<Candle>>, fallback: Option<seq<Candle>>, timeframe: string,
                        before: Option<int>, answers: seq<Answer>, clock: seq<int>, i: nat, until: int)
    requires timeframe in TIMEFRAME_CONFIG && Follows(primary, fallback, timeframe, before, answers, clock)
             && i < |answers|
    requires Histories(Seen(primary), Seen(fallback), PageLimit(timeframe), StepOf(timeframe))
             && until == Until(before, clock[0])
    requires Inhabited(Seen(primary), Seen(fallback), PageLimit(timeframe), StepOf(timeframe), until, i)
    requires NeverZero(Pages(primary, fallback, timeframe), until, i)
    ensures answers[i] == Serve(Pages(primary, fallback, timeframe), Before(Pages(primary, fallback, timeframe), until, i))
  {
    var page := Pages(primary, fallback, timeframe);
    forall k | 0 <= k < |answers| ensures answers[k] == Serve(page, Until(Question(before, answers, k), clock[k])) {
      EndpointServesPages(primary, fallback, timeframe, Question(before, answers, k), clock[k]);
    }
    forall k: nat | k < i ensures page(Before(page, until, k)) != []
        && NextBefore(page, Before(page, until, k)) < Before(page, until, k) {
      OneQuestion(Seen(primary), Seen(fallback), PageLimit(timeframe), StepOf(timeframe), Before(page, until, k));
    }
    ServesChain(page, before, answers, clock, until, i);
  }
}
