/** Portfolio valuation: the dashboard, and the snapshot worker's own recomputation. Amounts are exact. */
module Portfolio {
  import opened Balances
  import opened Wrappers

  type Prices = string -> Option<real>

  const STABLE_COINS := {"USDC", "USDT"}

  // ---------- Rounding ----------

  /** `round(x, 2)` in cents: the nearest cent, ties to the even one. */
  function Cents(x: real): int {
    var y := x * 100.0;
    var f := y.Floor;
    var d := y - f as real;
    if d < 0.5 || (d == 0.5 && f % 2 == 0) then f else f + 1
  }

  lemma CentsNearest(x: real)
    ensures -0.5 <= Cents(x) as real - x * 100.0 <= 0.5
    ensures Cents(x) as real - x * 100.0 == 0.5 || Cents(x) as real - x * 100.0 == -0.5 ==> Cents(x) % 2 == 0
  {
  }

  // ---------- Values ----------

  /** An asset is left out when its amount is zero. */
  predicate Counts(amount: real) {
    amount != 0.0
  }

  function Ticker(price: Prices, asset: string): Option<real> {
    price(asset)
  }

  function Dollars(amount: real, price: real): real {
    amount * price
  }

  /** The dollar value of an asset; none when its ticker could not be fetched. */
  function Value(asset: string, amount: real, price: Prices): Option<real> {
    if asset in STABLE_COINS then Some(amount)
    else if Ticker(price, asset).Some? then Some(Dollars(amount, Ticker(price, asset).value)) else None
  }

  /** What the dashboard adds for an asset. */
  function Share(total: map<string, real>, price: Prices, a: string): real {
    if a in total && Counts(total[a]) && Value(a, total[a], price).Some? then Value(a, total[a], price).value else 0.0
  }

  predicate Listed(total: map<string, real>, price: Prices, a: string) {
    a in total && Counts(total[a]) && Value(a, total[a], price).Some?
  }

  function Worth(total: map<string, real>, price: Prices, order: seq<string>): real {
    if order == [] then 0.0
    else Worth(total, price, order[..|order| - 1]) + Share(total, price, order[|order| - 1])
  }

  function Breakdown(total: map<string, real>, price: Prices): map<string, int> {
    map a | a in total.Keys && Listed(total, price, a) :: Cents(Share(total, price, a))
  }

  function AmountsListed(total: map<string, real>, price: Prices): map<string, real> {
    map a | a in total.Keys && Listed(total, price, a) :: total[a]
  }

  /** The order in which the balance's table is iterated: each key once. */
  ghost predicate Iterates(order: seq<string>, total: map<string, real>) {
    && (forall i, j | 0 <= i < j < |order| :: order[i] != order[j])
    && (forall a :: a in order <==> a in total)
  }

  lemma RestFront(order: seq<string>, i: nat)
    requires i < |order| - 1
    ensures var rest, front := order[..i] + order[i + 1..], order[..|order| - 1];
            rest != [] && rest[..|rest| - 1] == front[..i] + front[i + 1..] && rest[|rest| - 1] == order[|order| - 1]
  {
  }

  lemma {:induction false} WorthRemove(total: map<string, real>, price: Prices, order: seq<string>, i: nat)
    requires i < |order|
    ensures Worth(total, price, order)
            == Worth(total, price, order[..i] + order[i + 1..]) + Share(total, price, order[i])
  {
    var n := |order| - 1;
    var rest := order[..i] + order[i + 1..];
    if i == n {
      assert rest == order[..n];
    } else {
      RestFront(order, i);
      WorthRemove(total, price, order[..n], i);
    }
  }

  /** The position of an element that a permutation of `order` must contain. */
  lemma FindLast(order: seq<string>, order': seq<string>) returns (i: nat)
    requires order != [] && multiset(order) == multiset(order')
    ensures i < |order'| && order'[i] == order[|order| - 1]
    ensures multiset(order'[..i] + order'[i + 1..]) == multiset(order[..|order| - 1])
  {
    var n := |order| - 1;
    Without(order, n);
    assert order[..n] + order[n + 1..] == order[..n];
    assert order[n] in multiset(order');
    i :| 0 <= i < |order'| && order'[i] == order[n];
    Without(order', i);
  }

  lemma Without(order: seq<string>, i: nat)
    requires i < |order|
    ensures multiset(order[..i] + order[i + 1..]) == multiset(order) - multiset{order[i]}
  {
    assert order == order[..i] + [order[i]] + order[i + 1..];
    assert multiset(order) == multiset(order[..i] + order[i + 1..]) + multiset{order[i]};
  }

  /** The total does not depend on the order of iteration. */
  lemma {:induction false} WorthAnyOrder(total: map<string, real>, price: Prices, order: seq<string>,
                                         order': seq<string>)
    requires multiset(order) == multiset(order')
    ensures Worth(total, price, order) == Worth(total, price, order')
  {
    if order == [] {
      assert |multiset(order')| == 0;
    } else {
      var i := FindLast(order, order');
      WorthRemove(total, price, order', i);
      WorthAnyOrder(total, price, order[..|order| - 1], order'[..i] + order'[i + 1..]);
    }
  }

  lemma {:induction false} IterationsArePermutations(order: seq<string>, order': seq<string>, total: map<string, real>)
    requires Iterates(order, total) && Iterates(order', total)
    ensures multiset(order) == multiset(order')
  {
    forall a ensures multiset(order)[a] == multiset(order')[a] {
      OccursOnce(order, a);
      OccursOnce(order', a);
    }
  }

  lemma {:induction false} OccursOnce(order: seq<string>, a: string)
    requires forall i, j | 0 <= i < j < |order| :: order[i] != order[j]
    ensures multiset(order)[a] == if a in order then 1 else 0
  {
    if order == [] {
    } else {
      var n := |order| - 1;
      OccursOnce(order[..n], a);
      assert order == order[..n] + [order[n]];
    }
  }

  // ---------- The dashboard ----------

  datatype Trade = Trade(buy: bool, cost: Option<real>) | Malformed

  /** The sum of what the buys cost, up to the first trade that cannot be read. */
  function CostBasis(trades: seq<Trade>): real {
    if trades == [] || trades[0].Malformed? then 0.0
    else (if trades[0].buy && trades[0].cost.Some? then trades[0].cost.value else 0.0) + CostBasis(trades[1..])
  }

  datatype Dashboard = Dashboard(total: int, breakdown: map<string, int>, unrealized: int, day: int, costBasis: int, amounts: map<string, real>)

  /** The 24h figure, from the latest snapshot; a snapshot of zero counts as none. */
  function Day(worth: real, snapshot: Option<real>): real {
    if snapshot.Some? && snapshot.value != 0.0 then worth - snapshot.value else 0.0
  }

  function DashboardOf(total: map<string, real>, price: Prices, order: seq<string>, trades: Option<seq<Trade>>,
                       snapshot: Option<real>): Dashboard {
    var worth := Worth(total, price, order);
    var cost := if trades.Some? then CostBasis(trades.value) else 0.0;
    Dashboard(Cents(worth), Breakdown(total, price), Cents(worth - cost), Cents(Day(worth, snapshot)), Cents(cost), AmountsListed(total, price))
  }

  /** The breakdown as the loop fills it in. */
  function BreakdownIn(total: map<string, real>, price: Prices, order: seq<string>): map<string, int> {
    if order == [] then map[]
    else
      var front, a := BreakdownIn(total, price, order[..|order| - 1]), order[|order| - 1];
      if Listed(total, price, a) then front[a := Cents(Share(total, price, a))] else front
  }

  function AmountsIn(total: map<string, real>, price: Prices, order: seq<string>): map<string, real> {
    if order == [] then map[]
    else
      var front, a := AmountsIn(total, price, order[..|order| - 1]), order[|order| - 1];
      if Listed(total, price, a) then front[a := total[a]] else front
  }

  lemma {:induction false} FilledIn(total: map<string, real>, price: Prices, order: seq<string>)
    ensures BreakdownIn(total, price, order)
         == map a | a in total.Keys && a in order && Listed(total, price, a) :: Cents(Share(total, price, a))
    ensures AmountsIn(total, price, order) == map a | a in total.Keys && a in order
            && Listed(total, price, a) :: total[a]
  {
    if order == [] {
    } else {
      var n := |order| - 1;
      assert order == order[..n] + [order[n]];
      FilledIn(total, price, order[..n]);
    }
  }

  lemma FilledAll(total: map<string, real>, price: Prices, order: seq<string>)
    requires Iterates(order, total)
    ensures BreakdownIn(total, price, order) == Breakdown(total, price)
    ensures AmountsIn(total, price, order) == AmountsListed(total, price)
  {
    FilledIn(total, price, order);
  }

  /** What the loop adds for the next asset. */
  lemma FillNext(total: map<string, real>, price: Prices, order: seq<string>, i: nat)
    requires i < |order|
    ensures var before, after, a := order[..i], order[..i + 1], order[i];
            && Worth(total, price, after) == Worth(total, price, before) + Share(total, price, a)
            && BreakdownIn(total, price, after)
                 == (if Listed(total, price, a) then BreakdownIn(total, price, before)[a := Cents(Share(total, price, a))]
                     else BreakdownIn(total, price, before))
            && AmountsIn(total, price, after)
                 == if Listed(total, price, a) then AmountsIn(total, price, before)[a := total[a]] else AmountsIn(total, price, before)
  {
    assert order[..i + 1][..i] == order[..i] && order[..i + 1][i] == order[i];
  }

  /** The loop over the assets: what they are worth, entry by entry. */
  method ValueAssets(total: map<string, real>, order: seq<string>, price: Prices)
    returns (portfolioValue: real, breakdown: map<string, int>, amounts: map<string, real>)
    requires forall a | a in order :: a in total
    ensures portfolioValue == Worth(total, price, order)
    ensures breakdown == BreakdownIn(total, price, order) && amounts == AmountsIn(total, price, order)
  {
    portfolioValue, breakdown, amounts := 0.0, map[], map[];
    for i := 0 to |order|
      invariant portfolioValue == Worth(total, price, order[..i])
      invariant breakdown == BreakdownIn(total, price, order[..i])
      invariant amounts == AmountsIn(total, price, order[..i])
    {
      var a := order[i];
      assert a in order;
      FillNext(total, price, order, i);
      var amount := total[a];
      if amount == 0.0 {
        continue;
      }
      var value := Value(a, amount, price);
      if value.None? {
        continue;
      }
      var usd := value.value;
      portfolioValue := portfolioValue + usd;
      breakdown := breakdown[a := Cents(usd)];
      amounts := amounts[a := amount];
    }
    assert order[..|order|] == order;
  }

  method CalculateDashboard(total: map<string, real>, order: seq<string>, price: Prices, trades: Option<seq<Trade>>,
                            snapshot: Option<real>)
    returns (d: Dashboard)
    requires Iterates(order, total)
    ensures d == DashboardOf(total, price, order, trades, snapshot)
  {
    var portfolioValue, breakdown, amounts := ValueAssets(total, order, price);
    FilledAll(total, price, order);
    var costBasis := 0.0;
    if trades.Some? {
      costBasis := AddCosts(trades.value);
    }
    d := Dashboard(Cents(portfolioValue), breakdown, Cents(portfolioValue - costBasis), Cents(Day(portfolioValue, snapshot)),
                   Cents(costBasis), amounts);
  }

  method AddCosts(trades: seq<Trade>) returns (cost: real)
    ensures cost == CostBasis(trades)
  {
    cost := 0.0;
    var i := 0;
    while i < |trades| && !trades[i].Malformed?
      invariant 0 <= i <= |trades|
      invariant cost + CostBasis(trades[i..]) == CostBasis(trades)
    {
      if trades[i].buy && trades[i].cost.Some? {
        cost := cost + trades[i].cost.value;
      }
      assert trades[i..][1..] == trades[i + 1..];
      i := i + 1;
    }
  }

  /** The whole dashboard is the same in whatever order the balance is iterated. */
  lemma DashboardAnyOrder(total: map<string, real>, price: Prices, order: seq<string>, order': seq<string>,
                          trades: Option<seq<Trade>>, snapshot: Option<real>)
    requires Iterates(order, total) && Iterates(order', total)
    ensures DashboardOf(total, price, order, trades, snapshot) == DashboardOf(total, price, order', trades, snapshot)
  {
    IterationsArePermutations(order, order', total);
    WorthAnyOrder(total, price, order, order');
  }

  /** The sum of the rounded entries of the assets in `order`, and how many there are. */
  function EntrySum(b: map<string, int>, order: seq<string>): int {
    if order == [] then 0
    else EntrySum(b, order[..|order| - 1]) + if order[|order| - 1] in b then b[order[|order| - 1]] else 0
  }

  function Entries(b: map<string, int>, order: seq<string>): nat {
    if order == [] then 0
    else Entries(b, order[..|order| - 1]) + if order[|order| - 1] in b then 1 else 0
  }

  lemma {:induction false} EntrySumNearWorth(total: map<string, real>, price: Prices, order: seq<string>)
    requires forall a | a in order :: a in total
    ensures var b := Breakdown(total, price); var n := Entries(b, order) as real;
            -n <= 2.0 * (EntrySum(b, order) as real - 100.0 * Worth(total, price, order)) <= n
  {
    if order == [] {
    } else {
      var a := order[|order| - 1];
      EntrySumNearWorth(total, price, order[..|order| - 1]);
      CentsNearest(Share(total, price, a));
    }
  }

  /**
    The n rounded entries of the breakdown add up to the rounded total within
    (n + 1) / 2 cents.
  */
  lemma BreakdownNearTotal(total: map<string, real>, price: Prices, order: seq<string>, trades: Option<seq<Trade>>,
                           snapshot: Option<real>)
    requires Iterates(order, total)
    ensures var d := DashboardOf(total, price, order, trades, snapshot);
            var n := Entries(d.breakdown, order);
            n == |d.breakdown| && -(n + 1) <= 2 * (EntrySum(d.breakdown, order) - d.total) <= n + 1
  {
    EntrySumNearWorth(total, price, order);
    CentsNearest(Worth(total, price, order));
    EntriesAreAll(Breakdown(total, price), order);
  }

  lemma {:induction false} EntriesAreAll(b: map<string, int>, order: seq<string>)
    requires forall i, j | 0 <= i < j < |order| :: order[i] != order[j]
    requires forall a | a in b :: a in order
    ensures Entries(b, order) == |b|
  {
    if order == [] {
      assert b == map[];
    } else {
      var n := |order| - 1;
      assert order == order[..n] + [order[n]];
      EntriesAreAll(b - {order[n]}, order[..n]);
      EntriesWithout(b, order[..n], order[n]);
      SizeWithout(b, order[n]);
    }
  }

  lemma SizeWithout(b: map<string, int>, a: string)
    ensures |b - {a}| == |b| - if a in b then 1 else 0
  {
    var b' := b - {a};
    if a in b {
      assert b.Keys == b'.Keys + {a};
      assert |b.Keys| == |b'.Keys| + 1;
    } else {
      assert b' == b;
    }
  }

  lemma {:induction false} EntriesWithout(b: map<string, int>, order: seq<string>, a: string)
    requires a !in order
    ensures Entries(b - {a}, order) == Entries(b, order)
  {
    if order == [] {
    } else {
      EntriesWithout(b, order[..|order| - 1], a);
    }
  }

  /** The rounded profit or loss is the rounded total less the rounded cost, within one cent. */
  lemma ProfitNearDifference(total: map<string, real>, price: Prices, order: seq<string>, trades: Option<seq<Trade>>,
                             snapshot: Option<real>)
    ensures var d := DashboardOf(total, price, order, trades, snapshot);
            -1 <= d.unrealized - (d.total - d.costBasis) <= 1
  {
    var worth := Worth(total, price, order);
    var cost := if trades.Some? then CostBasis(trades.value) else 0.0;
    CentsNearest(worth);
    CentsNearest(cost);
    CentsNearest(worth - cost);
    assert (worth - cost) * 100.0 == worth * 100.0 - cost * 100.0;
  }

  // ---------- What the figures are ----------

  function Total(order: seq<string>, value: string -> real): real {
    if order == [] then 0.0 else Total(order[..|order| - 1], value) + value(order[|order| - 1])
  }

  /** An asset has a dollar value: it is not zero, and a stable coin or priced. */
  predicate Valued(total: map<string, real>, price: Prices, a: string) {
    a in total && total[a] != 0.0 && (a == "USDC" || a == "USDT" || price(a).Some?)
  }

  /** Its amount if it is a stable coin, else its amount times its price. */
  function Product(total: map<string, real>, price: Prices): string -> real {
    a => if !Valued(total, price, a) then 0.0
         else if a == "USDC" || a == "USDT" then total[a] else total[a] * price(a).value
  }

  lemma ShareIsProduct(total: map<string, real>, price: Prices, a: string)
    ensures Share(total, price, a) == Product(total, price)(a)
    ensures Listed(total, price, a) <==> Valued(total, price, a)
  {
    if Valued(total, price, a) && a != "USDC" && a != "USDT" {
      var x, y := total[a], price(a).value;
      assert Dollars(x, y) == x * y;
      assert Value(a, x, price) == Some(Dollars(x, y));
    }
  }

  /** The portfolio is worth the sum of amount times price, stable coins counting one each. */
  lemma {:induction false} WorthIsSumOfProducts(total: map<string, real>, price: Prices, order: seq<string>)
    ensures Worth(total, price, order) == Total(order, Product(total, price))
  {
    if order == [] {
    } else {
      WorthIsSumOfProducts(total, price, order[..|order| - 1]);
      ShareIsProduct(total, price, order[|order| - 1]);
    }
  }

  /** `cents` is `x` to the nearest cent. */
  ghost predicate NearCents(cents: int, x: real) {
    -0.5 <= cents as real - 100.0 * x <= 0.5
  }

  /**
    The dashboard lists exactly the assets that have a value, with their amounts and
    with amount times price to the cent; the total is the sum of these products.
  */
  lemma DashboardShows(total: map<string, real>, price: Prices, order: seq<string>, trades: Option<seq<Trade>>,
                       snapshot: Option<real>)
    ensures var d := DashboardOf(total, price, order, trades, snapshot);
            && (forall a :: a in d.breakdown <==> Valued(total, price, a))
            && (forall a | a in d.breakdown :: NearCents(d.breakdown[a], Product(total, price)(a)))
            && d.amounts == (map a | a in total.Keys && Valued(total, price, a) :: total[a])
            && NearCents(d.total, Total(order, Product(total, price)))
  {
    WorthIsSumOfProducts(total, price, order);
    CentsNearest(Worth(total, price, order));
    forall a ensures Share(total, price, a) == Product(total, price)(a) && (Listed(total, price, a) <==> Valued(total, price, a))
                     && NearCents(Cents(Share(total, price, a)), Share(total, price, a)) {
      ShareIsProduct(total, price, a);
      CentsNearest(Share(total, price, a));
    }
  }

  /** The profit, the cost and the 24h figure: without a snapshot, or with one of zero, that figure is zero. */
  lemma DashboardProfits(total: map<string, real>, price: Prices, order: seq<string>, trades: Option<seq<Trade>>,
                         snapshot: Option<real>)
    ensures var d, worth := DashboardOf(total, price, order, trades, snapshot), Total(order, Product(total, price));
            var cost := if trades.Some? then CostBasis(trades.value) else 0.0;
            && NearCents(d.costBasis, cost) && NearCents(d.unrealized, worth - cost)
            && (snapshot == None || snapshot == Some(0.0) ==> d.day == 0)
            && (snapshot.Some? && snapshot.value != 0.0 ==> NearCents(d.day, worth - snapshot.value))
  {
    var cost := if trades.Some? then CostBasis(trades.value) else 0.0;
    var worth := Worth(total, price, order);
    WorthIsSumOfProducts(total, price, order);
    CentsNearest(cost);
    CentsNearest(worth - cost);
    CentsNearest(Day(worth, snapshot));
    assert Cents(0.0) == 0;
  }

  /** The cost basis adds up over trades that can be read; of each it takes the cost of a buy, and it ends at one that cannot. */
  lemma {:induction false} CostBasisAdds(a: seq<Trade>, b: seq<Trade>)
    requires forall t | t in a :: t.Trade?
    ensures CostBasis(a + b) == CostBasis(a) + CostBasis(b)
  {
    if a == [] {
      assert a + b == b;
    } else {
      assert a[0] in a && (a + b)[0] == a[0] && (a + b)[1..] == a[1..] + b;
      CostBasisAdds(a[1..], b);
    }
  }

  lemma CostOfOne(buy: bool, cost: Option<real>, rest: seq<Trade>)
    ensures CostBasis([Trade(buy, cost)]) == if buy && cost.Some? then cost.value else 0.0
    ensures CostBasis([Malformed] + rest) == 0.0
  {
    assert [Trade(buy, cost)][1..] == [];
  }

  // ---------- Snapshots ----------

  /** The snapshot loop's step for one asset: it gives up when the ticker cannot be fetched. */
  function AddWorth(worth: Option<real>, total: map<string, real>, price: Prices, a: string): Option<real> {
    if worth.None? || a !in total then None
    else if !Counts(total[a]) then worth
    else if Value(a, total[a], price).None? then None
    else Some(worth.value + Value(a, total[a], price).value)
  }

  /** The snapshot loop's own valuation. */
  function SnapshotWorth(total: map<string, real>, price: Prices, order: seq<string>): Option<real> {
    if order == [] then Some(0.0)
    else AddWorth(SnapshotWorth(total, price, order[..|order| - 1]), total, price, order[|order| - 1])
  }

  method TakeSnapshot(total: map<string, real>, order: seq<string>, price: Prices) returns (v: Option<real>)
    requires forall a | a in order :: a in total
    ensures v == SnapshotWorth(total, price, order)
  {
    var worth := 0.0;
    for i := 0 to |order|
      invariant SnapshotWorth(total, price, order[..i]) == Some(worth)
    {
      var a := order[i];
      assert a in order;
      SnapshotNext(total, price, order, i);
      var amount := total[a];
      if amount != 0.0 {
        var usd := amount;
        if a !in STABLE_COINS {
          var ticker := Ticker(price, a);
          if ticker.None? {
            GivesUp(total, price, order, i + 1);
            return None;
          }
          usd := Dollars(amount, ticker.value);
        }
        worth := worth + usd;
      }
    }
    assert order[..|order|] == order;
    v := Some(worth);
  }

  lemma SnapshotNext(total: map<string, real>, price: Prices, order: seq<string>, i: nat)
    requires i < |order|
    ensures SnapshotWorth(total, price, order[..i + 1])
            == AddWorth(SnapshotWorth(total, price, order[..i]), total, price, order[i])
  {
    assert order[..i + 1][..i] == order[..i];
  }

  lemma {:induction false} GivesUp(total: map<string, real>, price: Prices, order: seq<string>, i: nat)
    requires i <= |order| && SnapshotWorth(total, price, order[..i]).None?
    ensures SnapshotWorth(total, price, order).None?
  {
    if i == |order| {
      assert order[..i] == order;
    } else {
      assert order[..|order| - 1][..i] == order[..i];
      GivesUp(total, price, order[..|order| - 1], i);
    }
  }

  /** Every asset that counts and is no stable coin has a ticker. */
  ghost predicate AllPriced(total: map<string, real>, price: Prices, order: seq<string>) {
    forall a | a in order :: a in total && (Counts(total[a]) ==> Value(a, total[a], price).Some?)
  }

  /**
    A snapshot is recorded exactly when every counting asset has a ticker, and then
    its value is the dashboard's unrounded portfolio value.
  */
  lemma {:induction false} SnapshotIsDashboardWorth(total: map<string, real>, price: Prices, order: seq<string>)
    requires forall a | a in order :: a in total
    ensures SnapshotWorth(total, price, order).Some? <==> AllPriced(total, price, order)
    ensures SnapshotWorth(total, price, order).Some? ==> SnapshotWorth(total, price, order).value == Worth(total, price, order)
  {
    if order == [] {
    } else {
      SnapshotIsDashboardWorth(total, price, order[..|order| - 1]);
      assert order == order[..|order| - 1] + [order[|order| - 1]];
    }
  }

  /** A recorded snapshot is the sum of amount times price, stable coins counting one each. */
  lemma SnapshotIsSumOfProducts(total: map<string, real>, price: Prices, order: seq<string>)
    requires forall a | a in order :: a in total
    ensures SnapshotWorth(total, price, order).Some? <==> forall a | a in order && total[a] != 0.0 :: Valued(total, price, a)
    ensures SnapshotWorth(total, price, order).Some? ==>
              SnapshotWorth(total, price, order).value == Total(order, Product(total, price))
  {
    SnapshotIsDashboardWorth(total, price, order);
    WorthIsSumOfProducts(total, price, order);
    forall a ensures a in total && total[a] != 0.0 ==> (Value(a, total[a], price).Some? <==> Valued(total, price, a)) {
    }
  }

  /** With the prices and the balance of the snapshot, in whatever order, the 24h figure is zero. */
  lemma UnchangedDayIsZero(total: map<string, real>, price: Prices, order: seq<string>, order': seq<string>,
                           trades: Option<seq<Trade>>)
    requires Iterates(order, total) && Iterates(order', total)
    requires SnapshotWorth(total, price, order).Some?
    ensures DashboardOf(total, price, order', trades, SnapshotWorth(total, price, order)).day == 0
  {
    SnapshotIsDashboardWorth(total, price, order);
    DashboardAnyOrder(total, price, order, order', trades, None);
    IterationsArePermutations(order, order', total);
    WorthAnyOrder(total, price, order, order');
    assert Cents(0.0) == 0;
  }

  // ---------- One pass of the snapshot worker ----------

  /** What the calls made for one user come to. */
  datatype Keys = KeysRaise | NoKeys | KeysFound
  datatype Holdings = Holdings(total: map<string, real>, order: seq<string>)

  /** `cut`: the worker is cancelled while it works for the user. */
  datatype User = User(id: int, keys: Keys, connected: bool, balance: Option<Holdings>, price: Prices, cut: bool, closeRaises: bool)

  /** The users, unless their query raises, and whether the commit goes through. */
  datatype Pass = Pass(users: Option<seq<User>>, commits: bool)

  datatype Row = Row(user: int, worth: real)

  /** An exchange was opened for the user, and has to be closed. */
  predicate Opens(u: User) {
    u.keys.KeysFound? && u.connected
  }

  /** The worker is cancelled, or closing the user's exchange raises, which no handler of the pass catches. */
  predicate Aborts(u: User) {
    u.cut || (Opens(u) && u.closeRaises)
  }

  ghost predicate NoneAborts(users: seq<User>) {
    forall u | u in users :: !Aborts(u)
  }

  /** The snapshot that the user's own steps yield. */
  function Own(u: User): Option<Row> {
    if Opens(u) && u.balance.Some? && SnapshotWorth(u.balance.value.total, u.price, u.balance.value.order).Some?
    then Some(Row(u.id, SnapshotWorth(u.balance.value.total, u.price, u.balance.value.order).value)) else None
  }

  function OwnRows(u: User): seq<Row> {
    if Own(u).Some? then [Own(u).value] else []
  }

  function OwnAll(users: seq<User>): seq<Row> {
    if users == [] then [] else OwnAll(users[..|users| - 1]) + OwnRows(users[|users| - 1])
  }

  /** Nothing stops the pass before its end. */
  ghost predicate Completes(p: Pass) {
    p.users.Some? && NoneAborts(p.users.value) && p.commits
  }

  /** All rows are committed together at the end of the pass, or none is. */
  ghost function Committed(p: Pass): seq<Row> {
    if Completes(p) then OwnAll(p.users.value) else []
  }

  /** The user's balance is iterated key by key. */
  ghost predicate Iterable(u: User) {
    u.balance.Some? ==> Iterates(u.balance.value.order, u.balance.value.total)
  }

  /** One user's own steps. */
  method SnapshotUser(u: User) returns (rows: seq<Row>)
    requires Iterable(u)
    ensures rows == OwnRows(u)
  {
    rows := [];
    if u.keys.KeysFound? && u.connected && u.balance.Some? {
      var v := TakeSnapshot(u.balance.value.total, u.balance.value.order, u.price);
      if v.Some? {
        rows := [Row(u.id, v.value)];
      }
    }
  }

  /** The rows that the loop over the users adds, unless it is left on the way. */
  method SnapshotUsers(users: seq<User>) returns (added: seq<Row>, complete: bool)
    requires forall u | u in users :: Iterable(u)
    ensures complete <==> NoneAborts(users)
    ensures complete ==> added == OwnAll(users)
  {
    added := [];
    for i := 0 to |users|
      invariant added == OwnAll(users[..i])
      invariant forall j | 0 <= j < i :: !Aborts(users[j])
    {
      assert users[i] in users;
      OwnAllNext(users, i);
      var rows := SnapshotUser(users[i]);
      added := added + rows;
      if Aborts(users[i]) {
        return added, false;
      }
    }
    assert users[..|users|] == users;
    complete := true;
  }

  lemma OwnAllNext(users: seq<User>, i: nat)
    requires i < |users|
    ensures OwnAll(users[..i + 1]) == OwnAll(users[..i]) + OwnRows(users[i])
  {
    assert users[..i + 1][..i] == users[..i];
  }

  /** The rows one pass commits, and whether the worker lives on. */
  method SnapshotPass(p: Pass) returns (rows: seq<Row>, alive: bool)
    requires p.users.Some? ==>
      forall u | u in p.users.value :: Iterable(u)
    ensures alive <==> Completes(p)
    ensures rows == Committed(p)
  {
    rows, alive := [], false;
    if p.users.Some? {
      var added, complete := SnapshotUsers(p.users.value);
      if complete && p.commits {
        rows, alive := added, true;
      }
    }
  }

  /** The users whose own steps succeed, in order. */
  lemma {:induction false} OwnAllIsExactly(users: seq<User>, r: Row)
    ensures r in OwnAll(users) <==> exists u :: u in users && Own(u) == Some(r)
  {
    if users == [] {
    } else {
      var front, u := users[..|users| - 1], users[|users| - 1];
      OwnAllIsExactly(front, r);
      assert users == front + [u];
    }
  }

  lemma {:induction false} OwnAllSplits(a: seq<User>, b: seq<User>)
    ensures OwnAll(a + b) == OwnAll(a) + OwnAll(b)
  {
    if b == [] {
      assert a + b == a;
    } else {
      assert (a + b)[..|a + b| - 1] == a + b[..|b| - 1];
      OwnAllSplits(a, b[..|b| - 1]);
    }
  }

  /**
    A pass commits the snapshots of exactly those users whose own steps succeed,
    whatever happens to the others, if and only if it completes or nobody has a
    snapshot to lose. It completes when the query and the commit go through, nobody
    cancels it, and every opened exchange closes.
  */
  lemma IsolatedIff(users: seq<User>, commits: bool)
    ensures Committed(Pass(Some(users), commits)) == OwnAll(users)
       <==> (commits && NoneAborts(users)) || forall u | u in users :: Own(u).None?
  {
    if OwnAll(users) == [] {
      forall u | u in users ensures Own(u).None? {
        if Own(u).Some? {
          OwnAllIsExactly(users, Own(u).value);
        }
      }
    } else {
      OwnAllIsExactly(users, OwnAll(users)[0]);
    }
  }

  /**
    In a pass that completes, what happens to one user's own steps decides that
    user's row and nothing else; in one that stops with this user, everybody's rows
    are lost.
  */
  lemma OneUserDecides(before: seq<User>, u: User, after: seq<User>)
    requires NoneAborts(before) && NoneAborts(after)
    ensures Committed(Pass(Some(before + [u] + after), true))
         == if Aborts(u) then [] else OwnAll(before) + OwnRows(u) + OwnAll(after)
  {
    var users := before + [u] + after;
    assert [u][..0] == [] && OwnAll([u]) == [] + OwnRows(u);
    OwnAllSplits(before, [u]);
    OwnAllSplits(before + [u], after);
    AbortsWithin(before, u, after);
  }

  lemma AbortsWithin(before: seq<User>, u: User, after: seq<User>)
    ensures NoneAborts(before + [u] + after) <==> NoneAborts(before) && !Aborts(u) && NoneAborts(after)
  {
    var users := before + [u] + after;
    assert forall x :: x in users <==> x in before || x == u || x in after;
  }

  /**
    A pass completes exactly when the query of the users and the commit go through, the
    worker is not cancelled for any user, and each exchange that was opened closes.
  */
  lemma CompletesIff(p: Pass)
    ensures Completes(p) <==>
              && p.users.Some? && p.commits
              && forall u | u in p.users.value :: !u.cut && !(u.keys.KeysFound? && u.connected && u.closeRaises)
  {
  }

  /**
    A user has a row exactly when keys are found, an exchange opens and knows a balance,
    and every asset that is not zero has a value; the row is worth the sum of amount
    times price.
  */
  lemma OwnIs(u: User)
    requires Iterable(u)
    ensures Own(u).Some? <==>
              && u.keys.KeysFound? && u.connected && u.balance.Some?
              && forall a | a in u.balance.value.order && u.balance.value.total[a] != 0.0 :: Valued(u.balance.value.total, u.price, a)
    ensures Own(u).Some? ==> Own(u).value == Row(u.id, Total(u.balance.value.order, Product(u.balance.value.total, u.price)))
  {
    if u.balance.Some? {
      SnapshotIsSumOfProducts(u.balance.value.total, u.price, u.balance.value.order);
    }
  }

  /** A pass in which one user's exchange fails to close, and another user's snapshot is lost. */
  lemma OneCloseLosesAll()
    ensures exists users, r :: r in OwnAll(users) && Committed(Pass(Some(users), true)) == [] && r.worth == 5.0
  {
    var price: Prices := _ => None;
    var wealthy := User(1, KeysFound, true, Some(Holdings(map["USDC" := 5.0], ["USDC"])), price, false, false);
    var failing := User(2, KeysFound, true, None, price, false, true);
    assert ["USDC"][..0] == [];
    assert Own(wealthy) == Some(Row(1, 5.0));
    var users := [wealthy, failing];
    OwnAllIsExactly(users, Row(1, 5.0));
    assert failing in users && Aborts(failing);
  }
}
