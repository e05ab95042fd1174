/** Sizing of limit orders: the price on a tick, the amount in whole lots. */
module LimitOrder {
  import opened Wrappers

  datatype Side = Buy | Sell

  /** The market's price tick, amount lot and minimum amount. */
  datatype Market = Market(tick: real, lot: real, min: Option<real>)

  datatype Refusal = PriceRequired | QuantityRequired | PriceVanishes | AmountVanishes | NoMinimum | TooSmall
  datatype Result = Placed(amount: real, price: real) | Refused(why: Refusal)

  ghost predicate Sane(m: Market) {
    m.tick > 0.0 && m.lot > 0.0 && (m.min.Some? ==> m.min.value >= 0.0)
  }

  /** How many ticks the rounded price has: the nearest number, ties upwards. */
  function Ticks(x: real, tick: real): int
    requires tick > 0.0
  {
    (x / tick + 0.5).Floor
  }

  /** How many whole lots fit, truncating towards zero. */
  function Lots(x: real, lot: real): int
    requires lot > 0.0
  {
    if x >= 0.0 then (x / lot).Floor else -(-x / lot).Floor
  }

  /** Both precision helpers refuse a result of zero. */
  function Size(m: Market, side: Side, quantity: Option<real>, limit: Option<real>): Result
    requires m.tick > 0.0 && m.lot > 0.0
  {
    if limit.None? then Refused(PriceRequired)
    else if quantity.None? then Refused(QuantityRequired)
    else
      var ticks := Ticks(limit.value, m.tick);
      if ticks == 0 then Refused(PriceVanishes)
      else
        var price := Product(ticks, m.tick);
        var lots := Lots(if side.Buy? then Quotient(quantity.value, price) else quantity.value, m.lot);
        if lots == 0 then Refused(AmountVanishes)
        else if m.min.None? then Refused(NoMinimum)
        else if Product(lots, m.lot) < m.min.value then Refused(TooSmall)
        else Placed(Product(lots, m.lot), price)
  }

  function Product(n: int, unit: real): real {
    n as real * unit
  }

  /** Division; the divisor is a non-zero number of ticks. */
  function Quotient(x: real, y: real): real {
    if y == 0.0 then 0.0 else x / y
  }

  // ---------- Arithmetic ----------

  lemma MulKeepsOrder(x: real, y: real, z: real)
    requires z > 0.0
    ensures x <= y <==> x * z <= y * z
    ensures x < y <==> x * z < y * z
  {
    if x < y {
      assert (y - x) * z > 0.0;
    } else if y < x {
      assert (x - y) * z > 0.0;
    }
  }

  /** `n` whole units are what fits into `x`. */
  ghost predicate Fits(x: real, unit: real, n: int) {
    Product(n, unit) <= x < Product(n + 1, unit)
  }

  lemma BelowProduct(r: real, n: int, unit: real)
    requires unit > 0.0
    ensures r < n as real ==> r * unit < Product(n, unit)
    ensures n as real <= r ==> Product(n, unit) <= r * unit
  {
    MulKeepsOrder(r, n as real, unit);
    MulKeepsOrder(n as real, r, unit);
  }

  lemma NextProduct(n: int, unit: real)
    ensures Product(n + 1, unit) == Product(n, unit) + unit
  {
    Distribute(n as real, 1.0, unit);
  }

  lemma FloorBrackets(r: real, n: int, unit: real)
    requires unit > 0.0 && n == r.Floor
    ensures Product(n, unit) <= r * unit < Product(n + 1, unit)
  {
    BelowProduct(r, n, unit);
    BelowProduct(r, n + 1, unit);
  }

  lemma FitsQuotient(r: real, n: int, unit: real, x: real)
    requires unit > 0.0 && n == r.Floor && r * unit == x
    ensures Fits(x, unit, n)
  {
    FloorBrackets(r, n, unit);
  }

  lemma FloorFits(x: real, unit: real)
    requires unit > 0.0
    ensures Fits(x, unit, (x / unit).Floor)
  {
    FitsQuotient(x / unit, (x / unit).Floor, unit, x);
  }

  lemma ProductMono(n: int, n': int, unit: real)
    requires unit > 0.0 && n <= n'
    ensures Product(n, unit) <= Product(n', unit)
  {
    MulKeepsOrder(n as real, n' as real, unit);
  }

  lemma FitsIsGreatest(x: real, unit: real, n: int, k: int)
    requires unit > 0.0 && Fits(x, unit, n)
    ensures Product(k, unit) <= x <==> k <= n
  {
    if k <= n {
      ProductMono(k, n, unit);
    } else {
      ProductMono(n + 1, k, unit);
    }
  }

  lemma ProductPositive(n: int, unit: real)
    requires unit > 0.0
    ensures Product(n, unit) > 0.0 <==> n > 0
    ensures Product(n, unit) < 0.0 <==> n < 0
  {
    MulKeepsOrder(0.0, n as real, unit);
    MulKeepsOrder(n as real, 0.0, unit);
  }

  /** What is spent on `k` lots at a positive price, against the whole quantity. */
  lemma SpendBound(quantity: real, price: real, lot: real, k: int)
    requires price > 0.0
    ensures Product(k, lot) <= Quotient(quantity, price) <==> Product(k, lot) * price <= quantity
  {
    assert Quotient(quantity, price) * price == quantity;
    MulKeepsOrder(Product(k, lot), Quotient(quantity, price), price);
  }

  /** The budget in base units: what the order's lots are cut from. */
  function Base(side: Side, quantity: real, price: real): real {
    if side.Buy? then Quotient(quantity, price) else quantity
  }

  /** An order of `k` lots can be paid for, or delivered, out of the quantity. */
  predicate Affordable(side: Side, quantity: real, price: real, lot: real, k: int) {
    if side.Buy? then Product(k, lot) * price <= quantity else Product(k, lot) <= quantity
  }

  lemma AffordableIsBase(side: Side, quantity: real, price: real, lot: real, k: int)
    requires price > 0.0
    ensures Affordable(side, quantity, price, lot, k) <==> Product(k, lot) <= Base(side, quantity, price)
  {
    if side.Buy? {
      SpendBound(quantity, price, lot, k);
    }
  }

  lemma NearestBrackets(r: real, n: int, tick: real, limit: real)
    requires tick > 0.0 && n == (r + 0.5).Floor && r * tick == limit
    ensures -tick <= 2.0 * (Product(n, tick) - limit) <= tick
  {
    FloorBrackets(r + 0.5, n, tick);
    NextProduct(n, tick);
    Distribute(r, 0.5, tick);
  }

  /** The rounded price lies within half a tick of the limit. */
  lemma PriceIsNearLimit(limit: real, tick: real)
    requires tick > 0.0
    ensures -tick <= 2.0 * (Product(Ticks(limit, tick), tick) - limit) <= tick
  {
    NearestBrackets(limit / tick, Ticks(limit, tick), tick, limit);
  }

  lemma Distribute(x: real, y: real, z: real)
    ensures (x + y) * z == x * z + y * z
  {
  }

  // ---------- Main results ----------

  /** A number of lots that may be placed: positive, affordable and at least the minimum. */
  ghost predicate Permitted(m: Market, side: Side, quantity: real, price: real, k: int)
    requires m.min.Some?
  {
    k > 0 && Product(k, m.lot) >= m.min.value && Affordable(side, quantity, price, m.lot, k)
  }

  /** The lots of an order, when the price does not vanish. */
  lemma LotsOfBase(x: real, lot: real)
    requires lot > 0.0
    ensures x >= 0.0 ==> Fits(x, lot, Lots(x, lot)) && Lots(x, lot) >= 0
    ensures x < 0.0 ==> Lots(x, lot) <= 0
  {
    if x >= 0.0 {
      FloorFits(x, lot);
      ProductPositive(Lots(x, lot) + 1, lot);
    } else {
      FloorFits(-x, lot);
      ProductPositive((-x / lot).Floor + 1, lot);
    }
  }

  /** With a non-negative base a positive number of lots fits exactly when the lots of the order reach it. */
  lemma PermittedIff(m: Market, side: Side, quantity: real, price: real, k: int)
    requires Sane(m) && m.min.Some? && price > 0.0
    ensures var n := Lots(Base(side, quantity, price), m.lot);
            Permitted(m, side, quantity, price, k) <==> 0 < k <= n && Product(k, m.lot) >= m.min.value
  {
    var x := Base(side, quantity, price);
    AffordableIsBase(side, quantity, price, m.lot, k);
    LotsOfBase(x, m.lot);
    if x >= 0.0 {
      FitsIsGreatest(x, m.lot, Lots(x, m.lot), k);
    } else if k > 0 {
      ProductPositive(k, m.lot);
    }
  }

  /** The sizing in terms of the lots of the base. */
  lemma SizeIs(m: Market, side: Side, quantity: real, limit: real)
    requires Sane(m) && Ticks(limit, m.tick) > 0
    ensures var price, r := Product(Ticks(limit, m.tick), m.tick), Size(m, side, Some(quantity), Some(limit));
            var n := Lots(Base(side, quantity, price), m.lot);
            && price > 0.0
            && (r.Placed? <==> n > 0 && m.min.Some? && Product(n, m.lot) >= m.min.value)
            && (r.Placed? ==> r == Placed(Product(n, m.lot), price))
  {
    var price := Product(Ticks(limit, m.tick), m.tick);
    ProductPositive(Ticks(limit, m.tick), m.tick);
    ProductPositive(Lots(Base(side, quantity, price), m.lot), m.lot);
  }

  /** The greatest permitted number of lots. */
  ghost predicate Greatest(m: Market, side: Side, quantity: real, price: real, n: int)
    requires m.min.Some?
  {
    Permitted(m, side, quantity, price, n) && forall k | Permitted(m, side, quantity, price, k) :: k <= n
  }

  /**
    An order reaches the exchange exactly when some permitted number of lots exists,
    and it is then placed for the greatest one, at the rounded price.
  */
  lemma PlacedIffPermitted(m: Market, side: Side, quantity: real, limit: real)
    requires Sane(m) && m.min.Some? && Ticks(limit, m.tick) > 0
    ensures var price := Product(Ticks(limit, m.tick), m.tick);
            var r := Size(m, side, Some(quantity), Some(limit));
            && (r.Placed? <==> exists k :: Permitted(m, side, quantity, price, k))
            && (r.Placed? ==> exists n :: r == Placed(Product(n, m.lot), price) && Greatest(m, side, quantity, price, n))
  {
    var price := Product(Ticks(limit, m.tick), m.tick);
    var n := Lots(Base(side, quantity, price), m.lot);
    SizeIs(m, side, quantity, limit);
    PermittedIff(m, side, quantity, price, n);
    forall k ensures Permitted(m, side, quantity, price, k) <==> 0 < k <= n && Product(k, m.lot) >= m.min.value {
      PermittedIff(m, side, quantity, price, k);
    }
    if k :| Permitted(m, side, quantity, price, k) {
      ProductMono(k, n, m.lot);
      assert Greatest(m, side, quantity, price, n);
    }
  }

  /** A placed buy spends at most the quantity, and one lot more would exceed it; a placed sell likewise in base units. */
  lemma PlacedBounds(m: Market, side: Side, quantity: real, limit: real)
    requires Sane(m) && Ticks(limit, m.tick) > 0
    ensures var r := Size(m, side, Some(quantity), Some(limit));
            r.Placed? ==>
              && m.min.Some? && r.amount >= m.min.value && r.amount > 0.0
              && (side.Buy? ==> r.amount * r.price <= quantity < (r.amount + m.lot) * r.price)
              && (side.Sell? ==> r.amount <= quantity < r.amount + m.lot)
  {
    var r := Size(m, side, Some(quantity), Some(limit));
    if r.Placed? {
      var x, n := Base(side, quantity, r.price), Lots(Base(side, quantity, r.price), m.lot);
      ProductPositive(Ticks(limit, m.tick), m.tick);
      ProductPositive(n, m.lot);
      LotsOfBase(x, m.lot);
      NextProduct(n, m.lot);
      AffordableIsBase(side, quantity, r.price, m.lot, n);
      AffordableIsBase(side, quantity, r.price, m.lot, n + 1);
    }
  }

  /** More quantity never makes an order fail, nor smaller. */
  lemma SizingIsMonotone(m: Market, side: Side, quantity: real, quantity': real, limit: real)
    requires Sane(m) && Ticks(limit, m.tick) > 0 && quantity <= quantity'
    ensures var r, r' := Size(m, side, Some(quantity), Some(limit)), Size(m, side, Some(quantity'), Some(limit));
            r.Placed? ==> r'.Placed? && r.amount <= r'.amount && r.price == r'.price
  {
    SizeIs(m, side, quantity, limit);
    SizeIs(m, side, quantity', limit);
    var price := Product(Ticks(limit, m.tick), m.tick);
    var n, n' := Lots(Base(side, quantity, price), m.lot), Lots(Base(side, quantity', price), m.lot);
    if Size(m, side, Some(quantity), Some(limit)).Placed? {
      LotsAreMonotone(m, side, quantity, quantity', price, n);
      ProductMono(n, n', m.lot);
    }
  }

  lemma LotsAreMonotone(m: Market, side: Side, quantity: real, quantity': real, price: real, n: int)
    requires Sane(m) && m.min.Some? && price > 0.0 && quantity <= quantity'
    requires n == Lots(Base(side, quantity, price), m.lot) && n > 0 && Product(n, m.lot) >= m.min.value
    ensures n <= Lots(Base(side, quantity', price), m.lot)
  {
    PermittedIff(m, side, quantity, price, n);
    assert Permitted(m, side, quantity', price, n);
    PermittedIff(m, side, quantity', price, n);
  }

  // ---------- Refusals ----------

  /** Truncation is towards zero on either side. */
  lemma LotsAreOdd(x: real, lot: real)
    requires lot > 0.0
    ensures Lots(-x, lot) == -Lots(x, lot)
  {
    if x == 0.0 {
      ZeroLots(lot);
    }
  }

  lemma ZeroLots(lot: real)
    requires lot > 0.0
    ensures Lots(0.0, lot) == 0 && -0.0 == 0.0
  {
  }

  /** An amount vanishes exactly when it is less than one lot either way. */
  lemma VanishesIff(x: real, lot: real)
    requires lot > 0.0
    ensures Lots(x, lot) == 0 <==> -lot < x < lot
  {
    if x >= 0.0 {
      LessThanOneLot(x, lot);
    } else {
      LotsAreOdd(-x, lot);
      LessThanOneLot(-x, lot);
    }
  }

  lemma LessThanOneLot(x: real, lot: real)
    requires lot > 0.0 && x >= 0.0
    ensures Lots(x, lot) == 0 <==> x < lot
  {
    LotsOfBase(x, lot);
    FitsIsGreatest(x, lot, Lots(x, lot), 1);
  }

  /** Why an order is refused: the first of these reasons that applies. */
  lemma RefusedFor(m: Market, side: Side, quantity: Option<real>, limit: Option<real>)
    requires Sane(m)
    ensures var r := Size(m, side, quantity, limit);
            && (limit.None? ==> r == Refused(PriceRequired))
            && (limit.Some? && quantity.None? ==> r == Refused(QuantityRequired))
            && (limit.Some? && quantity.Some? ==>
                  var ticks := Ticks(limit.value, m.tick);
                  var base := Base(side, quantity.value, Product(ticks, m.tick));
                  && (ticks == 0 ==> r == Refused(PriceVanishes))
                  && (ticks != 0 && -m.lot < base < m.lot ==> r == Refused(AmountVanishes))
                  && (ticks != 0 && !(-m.lot < base < m.lot) && m.min.None? ==> r == Refused(NoMinimum))
                  && (ticks != 0 && !(-m.lot < base < m.lot) && m.min.Some? ==> r.Placed? || r == Refused(TooSmall)))
  {
    if limit.Some? && quantity.Some? {
      VanishesIff(Base(side, quantity.value, Product(Ticks(limit.value, m.tick), m.tick)), m.lot);
    }
  }
}
