/** Backward paging: one window of candles before a time, and the chain of such pages. */
module BackwardPaging {
  import opened Candles

  // ---------- One page ----------

  /** `n` times `x`, by addition. */
  function Times(n: nat, x: nat): nat {
    if n == 0 then 0 else Times(n - 1, x) + x
  }

  lemma {:induction false} TimesIsProduct(n: nat, x: nat)
    ensures Times(n, x) == n * x
  {
    if n == 0 {
    } else {
      TimesIsProduct(n - 1, x);
      assert n * x == (n - 1) * x + x;
    }
  }

  /** Every candle starts on a multiple of the candle length. */
  ghost predicate OnGrid(h: seq<Candle>, step: nat)
    requires step > 0
  {
    forall i | 0 <= i < |h| :: h[i].time % step == 0
  }

  /** The page asked for before `until`: the first `limit` candles from `limit` steps earlier on. */
  function PageAt(h: seq<Candle>, until: int, limit: nat, step: nat): seq<Candle> {
    Fetch(h, until - Times(limit, step), limit)
  }

  /** The candles of the page's window. */
  function Window(h: seq<Candle>, until: int, limit: nat, step: nat): seq<Candle> {
    Between(h, until - Times(limit, step), until)
  }

  lemma MulMono(x: int, y: int, step: nat)
    ensures x <= y ==> x * step <= y * step
  {
    if x <= y {
      assert (y - x) * step >= 0;
    }
  }

  lemma MultiplesApart(a: int, b: int, step: nat)
    requires step > 0 && a % step == 0 && b % step == 0 && a < b
    ensures a + step <= b
  {
    var qa, qb := a / step, b / step;
    assert a == qa * step && b == qb * step;
    MulMono(qb, qa, step);
    MulMono(qa + 1, qb, step);
    assert (qa + 1) * step == qa * step + step;
  }

  lemma {:induction false} Spaced(h: seq<Candle>, step: nat, i: nat, n: nat)
    requires step > 0 && Ascending(h) && OnGrid(h, step) && i + n < |h|
    ensures h[i + n].time >= h[i].time + Times(n, step)
  {
    if n == 0 {
    } else {
      Spaced(h, step, i, n - 1);
      MultiplesApart(h[i + n - 1].time, h[i + n].time, step);
    }
  }

  /** On the grid a window of `limit` steps holds at most `limit` candles. */
  lemma WindowFits(h: seq<Candle>, until: int, limit: nat, step: nat)
    requires step > 0 && Ascending(h) && OnGrid(h, step)
    ensures var a, e := Below(h, until - Times(limit, step)), Below(h, until);
            a <= e <= a + limit
  {
    var since := until - Times(limit, step);
    BetweenIsSlice(h, since, until);
    var a, e := Below(h, since), Below(h, until);
    if e > a + limit {
      BelowSplits(h, since);
      BelowSplits(h, until);
      Spaced(h, step, a, limit);
      assert false;
    }
  }

  /** The page starts with its window: no candle of the window is left out. */
  lemma PageStartsWithWindow(h: seq<Candle>, until: int, limit: nat, step: nat)
    requires step > 0 && Ascending(h) && OnGrid(h, step)
    ensures var a, e := Below(h, until - Times(limit, step)), Below(h, until);
            && a <= e <= a + limit
            && Window(h, until, limit, step) == h[a..e]
            && PageAt(h, until, limit, step) == h[a..if a + limit <= |h| then a + limit else |h|]
            && From(h, until) == h[e..]
  {
    var since := until - Times(limit, step);
    WindowFits(h, until, limit, step);
    BetweenIsSlice(h, since, until);
    FetchIsSlice(h, since, limit);
    FromIsSlice(h, until);
  }

  /**
    On any history on the grid, with or without gaps, a page is exactly the
    unpaged query of its window if and only if the window has no gap or the history
    holds nothing at or after `until`. Otherwise it runs over into later candles.
  */
  lemma PageExactIff(h: seq<Candle>, until: int, limit: nat, step: nat)
    requires step > 0 && Ascending(h) && OnGrid(h, step)
    ensures PageAt(h, until, limit, step) == Window(h, until, limit, step)
       <==> |Window(h, until, limit, step)| == limit || From(h, until) == []
    ensures PageAt(h, until, limit, step) != Window(h, until, limit, step)
       ==> var page := PageAt(h, until, limit, step); page != [] && page[|page| - 1].time >= until
  {
    hide Below, PageAt, Window, From;
    var a, e := Below(h, until - Times(limit, step)), Below(h, until);
    var b := if a + limit <= |h| then a + limit else |h|;
    PageStartsWithWindow(h, until, limit, step);
    SlicesDiffer(h, a, e, b);
    if e < b {
      BelowSplits(h, until);
    }
  }

  lemma SlicesDiffer(h: seq<Candle>, a: nat, e: nat, b: nat)
    requires a <= e <= b <= |h|
    ensures h[a..b] == h[a..e] <==> e == b
    ensures e < b ==> h[a..b] != [] && h[a..b][|h[a..b]| - 1] == h[b - 1]
    ensures h[e..] == [] <==> e == |h|
  {
    assert |h[a..b]| == b - a && |h[a..e]| == e - a && |h[e..]| == |h| - e;
  }

  // ---------- The chain of pages ----------

  /** What is answered to a client that asks for candles before a time. */
  type Source = int -> seq<Candle>

  function Pager(h: seq<Candle>, limit: nat, step: nat): Source {
    until => PageAt(h, until, limit, step)
  }

  /** `next_before`: the time of the page's oldest candle. */
  function NextBefore(page: Source, until: int): int {
    if page(until) == [] then until else page(until)[0].time
  }

  /** The time asked for after following `next_before` k times. */
  function Before(page: Source, until: int, k: nat): int {
    if k == 0 then until else NextBefore(page, Before(page, until, k - 1))
  }

  /** The first k pages, the oldest first. */
  function Joined(page: Source, until: int, k: nat): seq<Candle> {
    if k == 0 then [] else page(Before(page, until, k - 1)) + Joined(page, until, k - 1)
  }

  /** The candles of a page that are older than the time it was asked for. */
  function Older(page: seq<Candle>, until: int): seq<Candle> {
    if page == [] || page[|page| - 1].time < until then page else Older(page[..|page| - 1], until)
  }

  /** The first k pages, each without what lies at or after the time it was asked for. */
  function JoinedOlder(page: Source, until: int, k: nat): seq<Candle> {
    if k == 0 then []
    else
      var u := Before(page, until, k - 1);
      Older(page(u), u) + JoinedOlder(page, until, k - 1)
  }

  /** None of the first k windows is empty. */
  ghost predicate WindowsInhabited(h: seq<Candle>, until: int, limit: nat, step: nat, k: nat) {
    forall i: nat | i < k :: Window(h, Before(Pager(h, limit, step), until, i), limit, step) != []
  }

  lemma {:induction false} OlderIs(page: seq<Candle>, until: int, n: nat)
    requires n <= |page|
    requires n > 0 ==> page[n - 1].time < until
    requires forall i | n <= i < |page| :: page[i].time >= until
    ensures Older(page, until) == page[..n]
  {
    if n < |page| {
      OlderIs(page[..|page| - 1], until, n);
      assert page[..|page| - 1][..n] == page[..n];
    } else {
      assert page[..n] == page;
    }
  }

  lemma OlderOfSlice(h: seq<Candle>, until: int, a: nat, b: nat)
    requires Ascending(h) && a <= Below(h, until) <= b <= |h|
    ensures Older(h[a..b], until) == h[a..Below(h, until)]
  {
    hide Below, Older;
    var e := Below(h, until);
    BelowSplits(h, until);
    OlderIs(h[a..b], until, e - a);
    assert h[a..b][..e - a] == h[a..e];
  }

  lemma BetweenFromCandle(h: seq<Candle>, i: nat, until: int)
    requires Ascending(h) && i < Below(h, until)
    ensures h[i].time < until && Between(h, h[i].time, until) == h[i..Below(h, until)]
  {
    BelowSplits(h, until);
    BelowIs(h, h[i].time, i);
    BetweenIsSlice(h, h[i].time, until);
  }

  /** With a candle in the window, the next time asked for is the window's oldest candle. */
  lemma NextIsOldest(h: seq<Candle>, until: int, limit: nat, step: nat)
    requires step > 0 && Ascending(h) && OnGrid(h, step) && Window(h, until, limit, step) != []
    ensures var a, page := Below(h, until - Times(limit, step)), PageAt(h, until, limit, step);
            a < Below(h, until) && page != [] && page[0] == h[a] && until - Times(limit, step) <= h[a].time
  {
    PageStartsWithWindow(h, until, limit, step);
    BelowSplits(h, until - Times(limit, step));
  }

  lemma PageOlderIsBetween(h: seq<Candle>, until: int, limit: nat, step: nat)
    requires step > 0 && Ascending(h) && OnGrid(h, step) && Window(h, until, limit, step) != []
    ensures var page := PageAt(h, until, limit, step);
            && page != [] && until - Times(limit, step) <= page[0].time < until
            && Older(page, until) == Between(h, page[0].time, until)
  {
    var a := Below(h, until - Times(limit, step));
    NextIsOldest(h, until, limit, step);
    PageStartsWithWindow(h, until, limit, step);
    OlderOfSlice(h, until, a, if a + limit <= |h| then a + limit else |h|);
    BetweenFromCandle(h, a, until);
  }

  /**
    A chain of pages moves back in time exactly as long as it finds a candle in its
    window.
  */
  lemma ProgressIff(h: seq<Candle>, until: int, limit: nat, step: nat)
    requires step > 0 && Ascending(h) && OnGrid(h, step)
    ensures NextBefore(Pager(h, limit, step), until) < until <==> Window(h, until, limit, step) != []
  {
    if Window(h, until, limit, step) != [] {
      PageOlderIsBetween(h, until, limit, step);
    } else {
      PageStartsWithWindow(h, until, limit, step);
      BelowSplits(h, until);
    }
  }

  /**
    On any history on the grid, gaps included, a chain of pages loses no candle:
    without what each page repeats, the pages are the unpaged query.
  */
  lemma {:induction false} ChainLosesNothing(h: seq<Candle>, until: int, limit: nat, step: nat, k: nat)
    requires step > 0 && Ascending(h) && OnGrid(h, step) && WindowsInhabited(h, until, limit, step, k)
    ensures var page := Pager(h, limit, step);
            && Before(page, until, k) <= until - k
            && JoinedOlder(page, until, k) == Between(h, Before(page, until, k), until)
  {
    hide Between, Older, Below, PageAt, Window;
    if k == 0 {
      BetweenIsSlice(h, until, until);
    } else {
      ChainLosesNothing(h, until, limit, step, k - 1);
      var page := Pager(h, limit, step);
      var u := Before(page, until, k - 1);
      assert Window(h, u, limit, step) != [];
      PageOlderIsBetween(h, u, limit, step);
      BetweenSplits(h, NextBefore(page, u), u, until);
    }
  }

  // ---------- Gap-free histories ----------

  /** When the candle at position `i`, or the one that would come there, starts. */
  ghost function Slot(start: int, step: nat, i: nat): int {
    if i == 0 then start else Slot(start, step, i - 1) + step
  }

  ghost predicate Gapless(h: seq<Candle>, step: nat) {
    forall i {:trigger h[i]} | 0 <= i < |h| :: h[i].time == Slot(h[0].time, step, i)
  }

  lemma {:induction false} SlotForward(start: int, step: nat, i: nat, n: nat)
    ensures Slot(start, step, i + n) == Slot(start, step, i) + Times(n, step)
  {
    if n == 0 {
    } else {
      SlotForward(start, step, i, n - 1);
    }
  }

  lemma {:induction false} SlotAscends(start: int, step: nat, i: nat, j: nat)
    requires step > 0 && i <= j
    ensures Slot(start, step, i) + (j - i) <= Slot(start, step, j)
  {
    if i < j {
      SlotAscends(start, step, i, j - 1);
    }
  }

  lemma GaplessAscends(h: seq<Candle>, step: nat)
    requires step > 0 && Gapless(h, step)
    ensures Ascending(h)
  {
    forall i, j | 0 <= i < j < |h| ensures h[i].time < h[j].time {
      SlotAscends(h[0].time, step, i, j);
    }
  }

  /** `until` is not beyond the candle that would come next. */
  ghost predicate Reached(h: seq<Candle>, until: int, step: nat) {
    h != [] ==> until <= Slot(h[0].time, step, |h|)
  }

  /** In a gap-free history `q` candles lie before `until` exactly when `until` lies in the q-th step. */
  lemma GaplessBelow(h: seq<Candle>, until: int, q: nat, step: nat)
    requires step > 0 && Gapless(h, step) && h != [] && q <= |h|
    requires q > 0 ==> Slot(h[0].time, step, q - 1) < until
    requires q < |h| ==> until <= Slot(h[0].time, step, q)
    ensures Below(h, until) == q
  {
    GaplessAscends(h, step);
    BelowIs(h, until, q);
  }

  lemma SlotsAround(h: seq<Candle>, until: int, step: nat)
    requires step > 0 && Gapless(h, step) && h != [] && Reached(h, until, step)
    ensures var q := Below(h, until);
            (q > 0 ==> Slot(h[0].time, step, q - 1) < until) && until <= Slot(h[0].time, step, q)
  {
    GaplessAscends(h, step);
    BelowSplits(h, until);
  }

  /** Going back `n` steps goes back `n` candles. */
  lemma BackSteps(h: seq<Candle>, until: int, n: nat, step: nat)
    requires step > 0 && Gapless(h, step) && Reached(h, until, step) && n <= Below(h, until)
    ensures Below(h, until - Times(n, step)) == Below(h, until) - n
  {
    var q := Below(h, until);
    if h != [] {
      SlotsAround(h, until, step);
      SlotForward(h[0].time, step, q - n, n);
      if q > n {
        SlotForward(h[0].time, step, q - n - 1, n);
      }
      GaplessBelow(h, until - Times(n, step), q - n, step);
    }
  }

  /** A query of `n` candles from `n` steps back is the `n` candles before `until`. */
  lemma BackQuery(h: seq<Candle>, until: int, n: nat, step: nat, since: int)
    requires step > 0 && Gapless(h, step) && Reached(h, until, step) && n <= Below(h, until)
    requires since == until - Times(n, step)
    ensures Fetch(h, since, n) == h[Below(h, until) - n..Below(h, until)]
  {
    GaplessAscends(h, step);
    BackSteps(h, until, n, step);
    FetchExact(h, since, n, Below(h, until));
  }

  lemma BackPage(h: seq<Candle>, until: int, q: nat, limit: nat, step: nat)
    requires step > 0 && Gapless(h, step) && Reached(h, until, step) && Below(h, until) == q && limit <= q
    ensures PageAt(h, until, limit, step) == h[q - limit..q]
  {
    BackQuery(h, until, limit, step, until - Times(limit, step));
  }

  lemma GaplessCandle(h: seq<Candle>, i: nat, step: nat)
    requires step > 0 && Gapless(h, step) && i < |h|
    ensures Below(h, h[i].time) == i && Reached(h, h[i].time, step)
  {
    SlotAscends(h[0].time, step, i, |h|);
    GaplessBelow(h, h[i].time, i, step);
  }

  /** The page asked for at the candle at position `i` is the `limit` candles before it. */
  lemma PageBeforeCandle(h: seq<Candle>, i: nat, limit: nat, step: nat)
    requires step > 0 && Gapless(h, step) && limit <= i < |h|
    ensures PageAt(h, h[i].time, limit, step) == h[i - limit..i]
  {
    GaplessCandle(h, i, step);
    BackPage(h, h[i].time, i, limit, step);
  }

  /** What a chain asks for once it has the candles from position `p` to position `q`. */
  function Asked(h: seq<Candle>, until: int, p: nat, q: nat): int
    requires p <= q <= |h|
  {
    if p == q then until else h[p].time
  }

  /** Each such question is answered with the `limit` candles before position `p`. */
  ghost predicate ServesBlocks(h: seq<Candle>, page: Source, until: int, limit: nat, q: nat)
    requires q <= |h|
  {
    forall p | limit <= p <= q :: page(Asked(h, until, p, q)) == h[p - limit..p]
  }

  lemma GaplessServesBlocks(h: seq<Candle>, until: int, limit: nat, step: nat)
    requires step > 0 && Gapless(h, step) && Reached(h, until, step)
    ensures ServesBlocks(h, Pager(h, limit, step), until, limit, Below(h, until))
  {
    var q := Below(h, until);
    forall p | limit <= p <= q ensures Pager(h, limit, step)(Asked(h, until, p, q)) == h[p - limit..p] {
      if p == q {
        BackPage(h, until, q, limit, step);
      } else {
        PageBeforeCandle(h, p, limit, step);
      }
    }
  }

  lemma {:induction false} BlocksChain(h: seq<Candle>, page: Source, until: int, limit: nat, k: nat, o: nat, q: nat)
    requires q <= |h| && ServesBlocks(h, page, until, limit, q) && o + Times(k, limit) == q
    ensures Before(page, until, k) == Asked(h, until, o, q)
    ensures Joined(page, until, k) == h[o..q]
  {
    if k == 0 {
    } else {
      var p := o + limit;
      BlocksChain(h, page, until, limit, k - 1, p, q);
      assert page(Asked(h, until, p, q)) == h[o..p];
      assert h[o..p] + h[p..q] == h[o..q];
    }
  }

  /**
    On a gap-free history, as long as the windows stay inside it, following
    `next_before` k times gives adjacent disjoint pages whose concatenation, oldest
    first, is exactly the direct query of n = k * limit candles.
  */
  lemma ChainIsDirectQuery(h: seq<Candle>, until: int, limit: nat, step: nat, k: nat, n: nat, since: int)
    requires step > 0 && limit > 0 && Gapless(h, step) && Reached(h, until, step)
    requires n == k * limit && n <= Below(h, until) && since == until - n * step
    ensures Joined(Pager(h, limit, step), until, k) == Fetch(h, since, n)
    ensures |Joined(Pager(h, limit, step), until, k)| == n
  {
    hide Below, Fetch, Joined, Before, Gapless, Reached;
    TimesIsProduct(k, limit);
    TimesIsProduct(n, step);
    GaplessServesBlocks(h, until, limit, step);
    BlocksChain(h, Pager(h, limit, step), until, limit, k, Below(h, until) - n, Below(h, until));
    BackQuery(h, until, n, step, since);
  }

  /** From the start of a candle on, `next_before` falls by exactly `limit` steps a page. */
  lemma AlignedFallsByWindow(h: seq<Candle>, m: nat, limit: nat, step: nat)
    requires step > 0 && Gapless(h, step) && h != [] && 0 < limit <= m <= |h|
    ensures var until := Slot(h[0].time, step, m);
            NextBefore(Pager(h, limit, step), until) == until - limit * step
  {
    var start := h[0].time;
    AlignedPage(h, m, limit, step);
    NextOfSlice(h, Pager(h, limit, step), Slot(start, step, m), m - limit, m);
    assert h[m - limit].time == Slot(start, step, m - limit);
    SlotBack(start, step, m, limit);
  }

  lemma SlotBack(start: int, step: nat, m: nat, n: nat)
    requires n <= m
    ensures Slot(start, step, m - n) == Slot(start, step, m) - n * step
  {
    SlotForward(start, step, m - n, n);
    TimesIsProduct(n, step);
  }

  lemma AlignedPage(h: seq<Candle>, m: nat, limit: nat, step: nat)
    requires step > 0 && Gapless(h, step) && h != [] && limit <= m <= |h|
    ensures PageAt(h, Slot(h[0].time, step, m), limit, step) == h[m - limit..m]
  {
    var until := Slot(h[0].time, step, m);
    SlotAscends(h[0].time, step, m, |h|);
    if m > 0 {
      SlotAscends(h[0].time, step, m - 1, m);
    }
    GaplessBelow(h, until, m, step);
    BackPage(h, until, m, limit, step);
  }

  lemma NextOfSlice(h: seq<Candle>, page: Source, until: int, a: nat, b: nat)
    requires a < b <= |h| && page(until) == h[a..b]
    ensures NextBefore(page, until) == h[a].time
  {
  }

  /**
    A chain that has reached the oldest candle stays there: it is served the oldest
    page again and again and never learns that the history has ended.
  */
  lemma {:induction false} OldestPageRepeats(h: seq<Candle>, until: int, limit: nat, step: nat, k: nat)
    requires Ascending(h) && h != [] && limit > 0 && until <= h[0].time && k > 0
    ensures Before(Pager(h, limit, step), until, k) == h[0].time
    ensures Pager(h, limit, step)(Before(Pager(h, limit, step), until, k)) == Take(h, limit)
  {
    OldestPage(h, until, limit, step);
    OldestPage(h, h[0].time, limit, step);
    FirstOfTake(h, limit);
    if k <= 1 {
    } else {
      OldestPageRepeats(h, until, limit, step, k - 1);
    }
  }

  lemma OldestPage(h: seq<Candle>, until: int, limit: nat, step: nat)
    requires Ascending(h) && h != [] && limit > 0 && until <= h[0].time
    ensures PageAt(h, until, limit, step) == Take(h, limit)
  {
    FromAll(h, until - Times(limit, step));
  }

  lemma FirstOfTake(h: seq<Candle>, n: nat)
    requires h != [] && n > 0
    ensures Take(h, n) != [] && Take(h, n)[0] == h[0]
  {
  }

  // ---------- Repeated candles ----------

  /** The page asked for at a candle repeats that candle exactly when its window has a gap. */
  lemma RepeatsIffGap(h: seq<Candle>, i: nat, limit: nat, step: nat)
    requires step > 0 && Ascending(h) && OnGrid(h, step) && i < |h|
    ensures h[i] in PageAt(h, h[i].time, limit, step) <==> |Window(h, h[i].time, limit, step)| < limit
  {
    hide Below, PageAt, Window;
    var u := h[i].time;
    var a := Below(h, u - Times(limit, step));
    BelowIs(h, u, i);
    PageStartsWithWindow(h, u, limit, step);
    InSlice(h, a, if a + limit <= |h| then a + limit else |h|, i);
  }

  lemma InSlice(h: seq<Candle>, a: nat, b: nat, i: nat)
    requires Ascending(h) && a <= b <= |h| && i < |h|
    ensures h[i] in h[a..b] <==> a <= i < b
  {
    if a <= i < b {
      assert h[a..b][i - a] == h[i];
    }
  }

  /** A history with a gap, and a page of it that repeats the candle it was asked to stop at. */
  lemma GapRepeatsCandle() returns (h: seq<Candle>, i: nat, limit: nat, step: nat)
    ensures step > 0 && Ascending(h) && OnGrid(h, step) && i < |h|
    ensures Window(h, h[i].time, limit, step) != [] && h[i] in PageAt(h, h[i].time, limit, step)
  {
    var a, b := Candle(0, 1.0, 1.0, 1.0, 1.0, 1.0), Candle(120, 1.0, 1.0, 1.0, 1.0, 1.0);
    h, i, limit, step := [a, b], 1, 2, 60;
    BelowIs(h, 0, 0);
    BelowIs(h, 120, 1);
    PageStartsWithWindow(h, 120, limit, step);
    assert Window(h, 120, limit, step) == [a];
    RepeatsIffGap(h, i, limit, step);
  }
}
