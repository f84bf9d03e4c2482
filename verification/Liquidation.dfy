/** Liquidation: when a bar reaches it, what rules it out, and what it leaves in cash. */
module Liquidation {
  import opened Basics
  import opened PerpVenue

  /** The mark a bar takes against a position: its low against a long, its high against a short. */
  function Adverse(p: Position, bar: Bar): real { if p.side == Buy then bar.low else bar.high }

  /** With one position: equity at the mark no longer covers maintenance there. */
  predicate Insolvent(c: Config, s: State, symbol: int, mark: real)
    requires symbol in s.positions
  {
    s.purse.cash + Unrealised(s.positions[symbol], mark) <= c.params.maintenance * s.positions[symbol].size * mark
  }

  predicate HitLiquidation(c: Config, s: State, symbol: int, bar: Bar)
    requires 0.0 <= c.params.maintenance < 1.0
  {
    LiquidationPrice(c, s, symbol).Some? && Reaches(s.positions[symbol], LiquidationPrice(c, s, symbol).value, bar)
  }

  // ---------------------------------------------------------------- the solved price

  lemma Quotient(top: real, bottom: real, price: real)
    requires bottom > 0.0 && price == top / bottom
    ensures price * bottom == top
    ensures price > 0.0 <==> top > 0.0
  {
    if price > 0.0 { Positive(price, bottom); }
    if price <= 0.0 { NotPositive(price, bottom); }
  }

  lemma NotPositive(x: real, y: real)
    requires x <= 0.0 && y > 0.0
    ensures x * y <= 0.0
  {
  }

  lemma Order(x: real, y: real, k: real)
    requires k > 0.0
    ensures x <= y <==> x * k <= y * k
  {
    if x <= y { assert (y - x) * k >= 0.0; }
    if x > y { Positive(x - y, k); }
  }

  /** A long is insolvent at and below the solved mark. */
  lemma LongSolved(cash: real, size: real, entry: real, rate: real, price: real, mark: real)
    requires size > 0.0 && 0.0 <= rate < 1.0 && price * (size * (1.0 - rate)) == size * entry - cash
    ensures cash + size * (mark - entry) <= rate * size * mark <==> mark <= price
    ensures cash + size * (price - entry) == rate * size * price
  {
    var k := size * (1.0 - rate);
    Positive(size, 1.0 - rate);
    Order(mark, price, k);
    assert mark * k == size * mark - rate * size * mark;
    assert price * k == size * price - rate * size * price;
    assert size * (mark - entry) == size * mark - size * entry;
    assert size * (price - entry) == size * price - size * entry;
  }

  /** A short at and above it. */
  lemma ShortSolved(cash: real, size: real, entry: real, rate: real, price: real, mark: real)
    requires size > 0.0 && 0.0 <= rate < 1.0 && price * (size * (1.0 + rate)) == cash + size * entry
    ensures cash - size * (mark - entry) <= rate * size * mark <==> mark >= price
    ensures cash - size * (price - entry) == rate * size * price
  {
    var k := size * (1.0 + rate);
    Positive(size, 1.0 + rate);
    Order(price, mark, k);
    assert mark * k == size * mark + rate * size * mark;
    assert price * k == size * price + rate * size * price;
    assert size * (mark - entry) == size * mark - size * entry;
    assert size * (price - entry) == size * price - size * entry;
  }

  lemma SolvedLong(cash: real, size: real, entry: real, rate: real)
    requires size > 0.0 && 0.0 <= rate < 1.0
    ensures SolveLong(cash, size, entry, rate) * (size * (1.0 - rate)) == size * entry - cash
  {
    Positive(size, 1.0 - rate);
    Quotient(size * entry - cash, size * (1.0 - rate), SolveLong(cash, size, entry, rate));
  }

  lemma SolvedShort(cash: real, size: real, entry: real, rate: real)
    requires size > 0.0 && 0.0 <= rate
    ensures SolveShort(cash, size, entry, rate) * (size * (1.0 + rate)) == cash + size * entry
    ensures SolveShort(cash, size, entry, rate) > 0.0 <==> cash + size * entry > 0.0
  {
    Positive(size, 1.0 + rate);
    Quotient(cash + size * entry, size * (1.0 + rate), SolveShort(cash, size, entry, rate));
  }

  lemma Signs(side: Side, size: real, entry: real, mark: real)
    ensures Gain(Buy, size, entry, mark) == size * (mark - entry)
    ensures Gain(Sell, size, entry, mark) == -(size * (mark - entry))
  {
  }

  /** The mark solved for, positive or not, and the margin it stands on. */
  lemma Solved(c: Config, s: State, symbol: int) returns (price: real)
    requires 0.0 <= c.params.maintenance < 1.0 && Holds(s, symbol)
    ensures LiquidationPrice(c, s, symbol) == if price > 0.0 then Some(price) else None
    ensures var p := s.positions[symbol];
            && (forall mark :: Insolvent(c, s, symbol, mark) <==>
                               if p.side == Buy then mark <= price else mark >= price)
            && s.purse.cash + Unrealised(p, price) == c.params.maintenance * p.size * price
            && (p.side == Sell ==> (price > 0.0 <==> s.purse.cash + p.size * p.entry > 0.0))
  {
    hide Gain, SolveLong, SolveShort;
    var p, rate := s.positions[symbol], c.params.maintenance;
    if p.side == Buy {
      price := SolveLong(s.purse.cash, p.size, p.entry, rate);
      SolvedLong(s.purse.cash, p.size, p.entry, rate);
      forall mark ensures Insolvent(c, s, symbol, mark) <==> mark <= price {
        Signs(p.side, p.size, p.entry, mark);
        LongSolved(s.purse.cash, p.size, p.entry, rate, price, mark);
      }
      Signs(p.side, p.size, p.entry, price);
      LongSolved(s.purse.cash, p.size, p.entry, rate, price, price);
    } else {
      price := SolveShort(s.purse.cash, p.size, p.entry, rate);
      SolvedShort(s.purse.cash, p.size, p.entry, rate);
      forall mark ensures Insolvent(c, s, symbol, mark) <==> mark >= price {
        Signs(p.side, p.size, p.entry, mark);
        ShortSolved(s.purse.cash, p.size, p.entry, rate, price, mark);
      }
      Signs(p.side, p.size, p.entry, price);
      ShortSolved(s.purse.cash, p.size, p.entry, rate, price, price);
    }
  }

  /**
   * A bar of positive prices reaches the liquidation price exactly when equity at its adverse extreme no longer covers
   * maintenance, if and only if the position is a long or a short whose cash and entry value together are positive: a
   * short below that has no liquidation price and is never liquidated, however insolvent.
   */
  lemma LiquidationExact(c: Config, s: State, symbol: int, bar: Bar)
    requires 0.0 <= c.params.maintenance < 1.0 && Holds(s, symbol) && bar.low > 0.0 && bar.high > 0.0
    ensures var p := s.positions[symbol];
            (HitLiquidation(c, s, symbol, bar) <==> Insolvent(c, s, symbol, Adverse(p, bar)))
            <==> p.side == Buy || s.purse.cash + p.size * p.entry > 0.0
  {
    hide LiquidationPrice, Insolvent;
    var price := Solved(c, s, symbol);
    var p := s.positions[symbol];
    assert Insolvent(c, s, symbol, Adverse(p, bar)) <==>
           if p.side == Buy then Adverse(p, bar) <= price else Adverse(p, bar) >= price;
  }

  // ---------------------------------------------------------------- the stop

  /** A stop nearer than the liquidation price, or a liquidation price that does not exist. */
  predicate Protected(c: Config, s: State, symbol: int)
    requires 0.0 <= c.params.maintenance < 1.0
  {
    var liq := LiquidationPrice(c, s, symbol);
    liq.None? || (s.positions[symbol].stop > 0.0
                  && if s.positions[symbol].side == Buy then s.positions[symbol].stop > liq.value
                  else s.positions[symbol].stop < liq.value)
  }

  /** A position is safe from liquidation in every bar there could be exactly when its stop is on the safe side. */
  lemma StopRulesOut(c: Config, s: State, symbol: int)
    requires 0.0 <= c.params.maintenance < 1.0 && Holds(s, symbol)
    ensures Protected(c, s, symbol) <==> forall bar :: !Decide(c, s, symbol, bar).AtLiquidation?
  {
    hide LiquidationPrice;
    if !Protected(c, s, symbol) {
      var liq := LiquidationPrice(c, s, symbol).value;
      var bar := Bar(0, liq, liq, liq, liq, 0.0);
      assert Decide(c, s, symbol, bar).AtLiquidation?;
    }
  }

  // ---------------------------------------------------------------- what is left

  lemma Left(cash: real, gain: real, rate: real, taker: real, size: real, price: real)
    requires cash + gain == rate * size * price
    ensures cash + gain - (size * price * taker + rate * size * price) == -taker * size * price
    ensures cash + gain - size * price * taker == (rate - taker) * size * price
  {
  }

  /** A liquidation closes the position and leaves exactly this in cash, other positions' margin apart. */
  lemma LiquidationLeaves(c: Config, s: State, symbol: int, bar: Bar)
    requires 0.0 <= c.params.maintenance < 1.0 && Decide(c, s, symbol, bar).AtLiquidation?
    ensures var price, size := Decide(c, s, symbol, bar).price, s.positions[symbol].size;
            var after := ExitPosition(c, s, symbol, bar);
            && symbol !in after.positions && LiquidationPrice(c, s, symbol) == Some(price)
            && after.purse.cash == (if c.params.forfeit then -c.params.takerFee * size * price
                                    else (c.params.maintenance - c.params.takerFee) * size * price)
  {
    hide LiquidationPrice, Insolvent, Gain;
    var solved := Solved(c, s, symbol);
    var p, price := s.positions[symbol], Decide(c, s, symbol, bar).price;
    Left(s.purse.cash, Gain(p.side, p.size, p.entry, price), c.params.maintenance, c.params.takerFee, p.size, price);
  }
}
