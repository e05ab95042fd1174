/** Candle histories, and what the exchange answers to a query for candles. */
module Candles {

  /** One candle; times are in milliseconds. */
  datatype Candle = Candle(time: int, open: real, high: real, low: real, close: real, volume: real)

  ghost predicate Ascending(h: seq<Candle>) {
    forall i, j | 0 <= i < j < |h| :: h[i].time < h[j].time
  }

  /** The candles with `lo <= time < hi`: the unpaged query. */
  function Between(h: seq<Candle>, lo: int, hi: int): seq<Candle> {
    if h == [] then []
    else
      var c := h[|h| - 1];
      Between(h[..|h| - 1], lo, hi) + if lo <= c.time < hi then [c] else []
  }

  /** The candles with `time >= since`. */
  function From(h: seq<Candle>, since: int): seq<Candle> {
    if h == [] then []
    else
      var c := h[|h| - 1];
      From(h[..|h| - 1], since) + if since <= c.time then [c] else []
  }

  function Take(h: seq<Candle>, n: nat): seq<Candle> {
    if n <= |h| then h[..n] else h
  }

  /** The exchange's answer: the first `limit` candles at or after `since`. */
  function Fetch(h: seq<Candle>, since: int, limit: nat): seq<Candle> {
    Take(From(h, since), limit)
  }

  /** How many candles are older than `t`. */
  function Below(h: seq<Candle>, t: int): (n: nat)
    ensures n <= |h|
  {
    if h == [] then 0
    else if h[|h| - 1].time < t then |h|
    else Below(h[..|h| - 1], t)
  }

  lemma {:induction false} BelowSplits(h: seq<Candle>, t: int)
    requires Ascending(h)
    ensures forall i | 0 <= i < Below(h, t) :: h[i].time < t
    ensures forall i | Below(h, t) <= i < |h| :: h[i].time >= t
  {
    if h == [] {
    } else {
      BelowSplits(h[..|h| - 1], t);
    }
  }

  lemma BelowIs(h: seq<Candle>, t: int, n: nat)
    requires Ascending(h) && n <= |h|
    requires n > 0 ==> h[n - 1].time < t
    requires n < |h| ==> h[n].time >= t
    ensures Below(h, t) == n
  {
    BelowSplits(h, t);
  }

  lemma LastOfSlice(h: seq<Candle>, a: nat)
    requires a < |h|
    ensures h[a..] == h[..|h| - 1][a..] + [h[|h| - 1]]
    ensures h[a..|h|] == h[..|h| - 1][a..|h| - 1] + [h[|h| - 1]]
  {
  }

  lemma SliceOfFront(h: seq<Candle>, a: nat, b: nat)
    requires a <= b < |h|
    ensures h[..|h| - 1][a..b] == h[a..b]
  {
  }

  lemma {:induction false} FromIsSlice(h: seq<Candle>, lo: int)
    requires Ascending(h)
    ensures From(h, lo) == h[Below(h, lo)..]
  {
    if h == [] {
    } else {
      var n := |h| - 1;
      FromIsSlice(h[..n], lo);
      if h[n].time < lo {
        BelowIs(h[..n], lo, n);
      } else {
        LastOfSlice(h, Below(h[..n], lo));
      }
    }
  }

  lemma {:induction false} BetweenIsSlice(h: seq<Candle>, lo: int, hi: int)
    requires Ascending(h) && lo <= hi
    ensures Below(h, lo) <= Below(h, hi)
    ensures Between(h, lo, hi) == h[Below(h, lo)..Below(h, hi)]
  {
    if h == [] {
    } else {
      var n := |h| - 1;
      var front := h[..n];
      BetweenIsSlice(front, lo, hi);
      if h[n].time < lo {
        BelowIs(front, lo, n);
      } else if h[n].time < hi {
        BelowIs(front, hi, n);
        LastOfSlice(h, Below(front, lo));
      } else {
        SliceOfFront(h, Below(front, lo), Below(front, hi));
      }
    }
  }

  /** In an ascending history both queries are slices. */
  lemma QueriesAreSlices(h: seq<Candle>, lo: int, hi: int)
    requires Ascending(h) && lo <= hi
    ensures Below(h, lo) <= Below(h, hi)
    ensures Between(h, lo, hi) == h[Below(h, lo)..Below(h, hi)]
    ensures From(h, lo) == h[Below(h, lo)..]
  {
    FromIsSlice(h, lo);
    BetweenIsSlice(h, lo, hi);
  }

  lemma BetweenSplits(h: seq<Candle>, lo: int, mid: int, hi: int)
    requires Ascending(h) && lo <= mid <= hi
    ensures Between(h, lo, hi) == Between(h, lo, mid) + Between(h, mid, hi)
  {
    BetweenIsSlice(h, lo, mid);
    BetweenIsSlice(h, mid, hi);
    BetweenIsSlice(h, lo, hi);
    SlicesJoin(h, Below(h, lo), Below(h, mid), Below(h, hi));
  }

  lemma SlicesJoin(h: seq<Candle>, a: nat, b: nat, c: nat)
    requires a <= b <= c <= |h|
    ensures h[a..b] + h[b..c] == h[a..c]
  {
  }

  /** A query from before the oldest candle on is answered with the whole history. */
  lemma {:induction false} FromAll(h: seq<Candle>, since: int)
    requires forall i | 0 <= i < |h| :: since <= h[i].time
    ensures From(h, since) == h
  {
    if h == [] {
    } else {
      FromAll(h[..|h| - 1], since);
    }
  }

  /** The members of the answers are as old as asked, and ascending. */
  lemma FromIsAscending(h: seq<Candle>, since: int)
    requires Ascending(h)
    ensures Ascending(From(h, since))
    ensures forall i | 0 <= i < |From(h, since)| :: From(h, since)[i].time >= since
  {
    QueriesAreSlices(h, since, since);
    BelowSplits(h, since);
  }

  lemma QueriesUpTo(h: seq<Candle>, since: int, n: nat, t: int)
    requires Ascending(h) && Below(h, since) < n <= |h| && t == h[n - 1].time
    ensures since <= t
    ensures Between(h, since, t + 1) == h[Below(h, since)..n]
    ensures From(h, t + 1) == h[n..]
  {
    BelowSplits(h, since);
    BelowIs(h, t + 1, n);
    FromIsSlice(h, t + 1);
    BetweenIsSlice(h, since, t + 1);
  }

  lemma FetchIsSlice(h: seq<Candle>, since: int, n: nat)
    requires Ascending(h)
    ensures var a := Below(h, since);
            Fetch(h, since, n) == h[a..if a + n <= |h| then a + n else |h|]
  {
    var a := Below(h, since);
    FromIsSlice(h, since);
    SliceOfSuffix(h, a, if a + n <= |h| then n else |h| - a);
  }

  lemma FetchExact(h: seq<Candle>, since: int, n: nat, q: nat)
    requires Ascending(h) && n <= q <= |h| && Below(h, since) == q - n
    ensures Fetch(h, since, n) == h[q - n..q]
  {
    FetchIsSlice(h, since, n);
  }

  /** A prefix of the candles from `since` on that ends with candle `L` is the unpaged query up to `L`. */
  lemma PrefixIsBetween(h: seq<Candle>, since: int, n: nat)
    requires Ascending(h) && 0 < n <= |From(h, since)|
    ensures var f := From(h, since);
            && since <= f[n - 1].time
            && f[..n] == Between(h, since, f[n - 1].time + 1)
            && From(h, f[n - 1].time + 1) == f[n..]
  {
    var f := From(h, since);
    FromIsSlice(h, since);
    PrefixOfSlice(h, since, f, n, f[n - 1].time);
  }

  lemma PrefixOfSlice(h: seq<Candle>, since: int, f: seq<Candle>, n: nat, t: int)
    requires Ascending(h) && f == h[Below(h, since)..] && 0 < n <= |f| && t == f[n - 1].time
    ensures since <= t
    ensures f[..n] == Between(h, since, t + 1)
    ensures From(h, t + 1) == f[n..]
  {
    var a := Below(h, since);
    OfSuffix(h, f, a, n);
    QueriesUpTo(h, since, a + n, t);
  }

  lemma OfSuffix(h: seq<Candle>, f: seq<Candle>, a: nat, n: nat)
    requires a <= |h| && f == h[a..] && 0 < n <= |f|
    ensures f[n - 1] == h[a + n - 1] && f[..n] == h[a..a + n] && f[n..] == h[a + n..]
  {
  }

  lemma SliceOfSuffix(h: seq<Candle>, a: nat, n: nat)
    requires a + n <= |h|
    ensures h[a..][..n] == h[a..a + n]
  {
  }
}
