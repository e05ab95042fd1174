/** Forward paging: the whole history since a date, fetched page after page. */
module ForwardPaging {
  import opened Candles

  const TIMEFRAME_RULES: map<string, int> := map["1m" := 30, "15m" := 90, "1h" := 180, "1d" := 365, "1w" := 1095]
  const PERIOD_MAP: map<string, int> := map["1m" := 30, "3m" := 90, "6m" := 180, "1y" := 365]
  const PAGE: nat := 300
  const DAY_MS := 86_400_000

  datatype Answer = InvalidTimeframe | InvalidPeriod | History(days: int, candles: seq<Candle>)

  function Days(timeframe: string, period: string): int
    requires timeframe in TIMEFRAME_RULES && period in PERIOD_MAP
  {
    if PERIOD_MAP[period] < TIMEFRAME_RULES[timeframe] then PERIOD_MAP[period] else TIMEFRAME_RULES[timeframe]
  }

  /** The clock as read after page `k`. */
  function Now(clock: nat -> int, k: nat): int {
    clock(k)
  }

  /** Page `k` was full, left candles behind, and ended before the clock as read after it. */
  ghost predicate FullBefore(f: seq<Candle>, clock: nat -> int, k: nat) {
    PAGE * (k + 1) < |f| && f[PAGE * (k + 1) - 1].time < Now(clock, k)
  }

  /**
    `rounds` non-empty pages were fetched, none but perhaps the last reached the
    clock, and either nothing was left or the last one did reach it.
  */
  ghost predicate PagedUntil(h: seq<Candle>, since: int, clock: nat -> int, all: seq<Candle>, rounds: nat) {
    var f := From(h, since);
    && all == Take(f, PAGE * rounds)
    && (rounds == 0 <==> f == [])
    && (forall k: nat | k + 1 < rounds :: FullBefore(f, clock, k))
    && (rounds > 0 ==> all != [] && (From(h, all[|all| - 1].time + 1) == [] || all[|all| - 1].time >= Now(clock, rounds - 1)))
  }

  ghost predicate Paged(h: seq<Candle>, since: int, clock: nat -> int, all: seq<Candle>) {
    exists rounds: nat :: PagedUntil(h, since, clock, all, rounds)
  }

  /** Fetching after the first candles `all` of `f` yields the next ones. */
  lemma NextPage(h: seq<Candle>, since: int, f: seq<Candle>, all: seq<Candle>, page: seq<Candle>)
    requires Ascending(h) && f == From(h, since) && |all| < |f| && all == f[..|all|] && page == Take(f[|all|..], PAGE)
    ensures page != [] && |all| + |page| == (if |all| + PAGE <= |f| then |all| + PAGE else |f|)
    ensures all + page == f[..|all| + |page|]
    ensures From(h, page[|page| - 1].time + 1) == f[|all| + |page|..]
  {
    assert page[|page| - 1] == f[|all| + |page| - 1];
    PrefixIsBetween(h, since, |all| + |page|);
  }

  /** `all` holds the first `rounds` pages, and `sinceCopy` asks for the rest. */
  ghost predicate Progress(h: seq<Candle>, since: int, clock: nat -> int, all: seq<Candle>, rounds: nat,
                           sinceCopy: int) {
    var f := From(h, since);
    && |all| == (if PAGE * rounds <= |f| then PAGE * rounds else |f|)
    && all == f[..|all|]
    && From(h, sinceCopy) == f[|all|..]
    && (rounds == 0 <==> all == [])
    && (forall k: nat | k + 1 < rounds :: FullBefore(f, clock, k))
  }

  lemma AddPage(h: seq<Candle>, since: int, clock: nat -> int, all: seq<Candle>, rounds: nat, sinceCopy: int,
                page: seq<Candle>)
    requires Ascending(h) && Progress(h, since, clock, all, rounds, sinceCopy)
    requires page == Fetch(h, sinceCopy, PAGE) && page != [] && BeforeClock(all, clock, rounds)
    ensures (all + page)[|all + page| - 1] == page[|page| - 1]
    ensures Progress(h, since, clock, all + page, rounds + 1, page[|page| - 1].time + 1)
    ensures |From(h, page[|page| - 1].time + 1)| < |From(h, sinceCopy)|
  {
    var f := From(h, since);
    NextPage(h, since, f, all, page);
    assert |all + page| == if PAGE * (rounds + 1) <= |f| then PAGE * (rounds + 1) else |f|;
    forall k: nat | k + 1 < rounds + 1 ensures FullBefore(f, clock, k) {
      if k + 1 == rounds {
        assert |all| == PAGE * rounds < |f|;
      }
    }
  }

  lemma Finish(h: seq<Candle>, since: int, clock: nat -> int, all: seq<Candle>, rounds: nat, sinceCopy: int)
    requires Ascending(h) && Progress(h, since, clock, all, rounds, sinceCopy)
    requires Fetch(h, sinceCopy, PAGE) == [] || (rounds > 0 && all[|all| - 1].time >= Now(clock, rounds - 1))
    ensures PagedUntil(h, since, clock, all, rounds)
  {
    var f := From(h, since);
    TakenIsPrefix(f, all, PAGE * rounds);
    if rounds > 0 {
      PrefixIsBetween(h, since, |all|);
    }
    if Fetch(h, sinceCopy, PAGE) == [] {
      TakenNothing(f[|all|..], PAGE);
    }
  }

  lemma TakenNothing(f: seq<Candle>, n: nat)
    requires Take(f, n) == [] && n > 0
    ensures f == []
  {
  }

  /** The last candle fetched so far is older than the clock. */
  ghost predicate BeforeClock(all: seq<Candle>, clock: nat -> int, rounds: nat) {
    rounds > 0 ==> all != [] && all[|all| - 1].time < Now(clock, rounds - 1)
  }

  method FetchAll(h: seq<Candle>, since: int, clock: nat -> int) returns (all: seq<Candle>, rounds: nat)
    requires Ascending(h)
    ensures PagedUntil(h, since, clock, all, rounds)
  {
    all, rounds := [], 0;
    var sinceCopy := since;
    while true
      invariant Progress(h, since, clock, all, rounds, sinceCopy)
      invariant BeforeClock(all, clock, rounds)
      decreases |From(h, sinceCopy)|
    {
      var page := Fetch(h, sinceCopy, PAGE);
      if page == [] {
        break;
      }
      AddPage(h, since, clock, all, rounds, sinceCopy, page);
      all := all + page;
      rounds := rounds + 1;
      sinceCopy := page[|page| - 1].time + 1;
      if page[|page| - 1].time >= Now(clock, rounds - 1) {
        break;
      }
    }
    Finish(h, since, clock, all, rounds, sinceCopy);
  }

  /**
    The result is the unpaged query from `since` to its own last candle, strictly
    ascending; nothing is missing unless the last candle had reached the clock.
  */
  lemma PagingRefinesQuery(h: seq<Candle>, since: int, clock: nat -> int, all: seq<Candle>, rounds: nat)
    requires Ascending(h) && PagedUntil(h, since, clock, all, rounds)
    ensures Ascending(all)
    ensures all == [] <==> From(h, since) == []
    ensures all != [] ==> all == Between(h, since, all[|all| - 1].time + 1)
    ensures all != From(h, since) ==> all != [] && all[|all| - 1].time >= Now(clock, rounds - 1)
  {
    hide From, Between, Take;
    PagedIsPrefix(h, since, clock, all, rounds);
    PrefixIsAscending(h, since, |all|);
    if all != [] {
      PrefixIsBetween(h, since, |all|);
    }
  }

  lemma PagedIsPrefix(h: seq<Candle>, since: int, clock: nat -> int, all: seq<Candle>, rounds: nat)
    requires Ascending(h) && PagedUntil(h, since, clock, all, rounds)
    ensures var f := From(h, since);
            && |all| <= |f| && all == f[..|all|]
            && (all != f ==> all != [] && all[|all| - 1].time >= Now(clock, rounds - 1))
  {
    var f := From(h, since);
    TakenIsPrefix(f, all, PAGE * rounds);
    if all != [] {
      PrefixIsBetween(h, since, |all|);
      if From(h, all[|all| - 1].time + 1) == [] {
        assert |f[|all|..]| == 0;
      }
    }
  }

  lemma TakenIsPrefix(f: seq<Candle>, all: seq<Candle>, n: nat)
    ensures all == Take(f, n) <==> |all| == (if n <= |f| then n else |f|) && all == f[..|all|]
    ensures all == Take(f, n) && |all| == |f| ==> all == f
  {
  }

  lemma PrefixIsAscending(h: seq<Candle>, since: int, n: nat)
    requires Ascending(h) && n <= |From(h, since)|
    ensures Ascending(From(h, since)[..n])
  {
    FromIsAscending(h, since);
  }

  /** Two fetches that see the same history and clock stop after the same page. */
  lemma PagingIsDetermined(h: seq<Candle>, since: int, clock: nat -> int,
                           all: seq<Candle>, rounds: nat, all': seq<Candle>, rounds': nat)
    requires Ascending(h) && PagedUntil(h, since, clock, all, rounds) && PagedUntil(h, since, clock, all', rounds')
    ensures rounds == rounds' && all == all'
  {
    if rounds < rounds' {
      StopsThere(h, since, clock, all, rounds, all', rounds');
    } else if rounds' < rounds {
      StopsThere(h, since, clock, all', rounds', all, rounds);
    }
  }

  lemma StopsThere(h: seq<Candle>, since: int, clock: nat -> int,
                   all: seq<Candle>, rounds: nat, all': seq<Candle>, rounds': nat)
    requires Ascending(h) && PagedUntil(h, since, clock, all, rounds) && PagedUntil(h, since, clock, all', rounds')
    ensures rounds >= rounds'
  {
    var f := From(h, since);
    if rounds < rounds' && rounds > 0 {
      assert FullBefore(f, clock, rounds - 1);
      PrefixIsBetween(h, since, |all|);
      assert false;
    }
  }

  method GetHistoricalData(timeframe: string, period: string, now: int, h: seq<Candle>, clock: nat -> int)
    returns (r: Answer)
    requires Ascending(h)
    ensures r.InvalidTimeframe? <==> timeframe !in TIMEFRAME_RULES
    ensures r.InvalidPeriod? <==> timeframe in TIMEFRAME_RULES && period !in PERIOD_MAP
    ensures r.History? ==>
              && timeframe in TIMEFRAME_RULES && period in PERIOD_MAP
              && r.days <= PERIOD_MAP[period] && r.days <= TIMEFRAME_RULES[timeframe]
              && (r.days == PERIOD_MAP[period] || r.days == TIMEFRAME_RULES[timeframe])
              && Paged(h, now - r.days * 86_400_000, clock, r.candles)
  {
    if timeframe !in TIMEFRAME_RULES {
      return InvalidTimeframe;
    }
    if period !in PERIOD_MAP {
      return InvalidPeriod;
    }
    var days := Days(timeframe, period);
    var all, rounds := FetchAll(h, now - days * DAY_MS, clock);
    r := History(days, all);
  }
}
