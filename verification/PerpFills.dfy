/**
 What the simulator's fills and exits come to, in prices, quantities and fees: who pays the spread, at which price a bar
 takes a position out, when a resting order fills, how much one bar can give, and what margin an order needs.
 */
module PerpFills {
  import opened Basics
  import opened Sums
  import opened PerpVenue

  // ---------------------------------------------------------------- prices

  function HalfWay(c: Config): real { if c.params.spreadBps.Some? then c.params.spreadBps.value / 20000.0 else 0.0 }

  /** A taker pays half the spread and the slippage: above the mark to buy, as far below it to sell. */
  lemma TakerPays(c: Config, mark: real)
    ensures var edge := mark * (c.params.slippage + HalfWay(c));
            TakerPrice(c.params, Buy, mark) == mark + edge && TakerPrice(c.params, Sell, mark) == mark - edge
  {
  }

  /** The position is off, what it gained less the fee is in the cash, and the fill is on file. */
  ghost predicate Off(s: State, after: State, x: int, exit: real, gain: real, fee: real, forfeit: real,
                      purpose: Purpose)
    requires x in s.positions
  {
    var p := s.positions[x];
    && after.positions == s.positions - {x} && after.orders == s.orders
    && after.fillLog == s.fillLog + [Fill(None, x, if p.side == Buy then Sell else Buy, p.size, exit, fee, purpose,
                                          s.index)]
    && after.feesPaid == s.feesPaid + fee && after.forfeited == s.forfeited + forfeit
    && after.purse == s.purse.(cash := s.purse.cash + (gain - fee))
  }

  /**
   * An exit is at the price named, for a stop less what a taker pays, for a target less half the spread; its fee is the
   * taker's, and a liquidation forfeits the maintenance margin where that is configured.
   */
  lemma ExitIs(c: Config, s: State, x: int, p: Position, price: real, purpose: Purpose, exit: real, gain: real,
               fee: real, forfeit: real)
    requires Holds(s, x) && s.positions[x] == p
    requires exit == price * (if p.side == Buy then 1.0 - Against(c, purpose) else 1.0 + Against(c, purpose))
    requires gain == if p.side == Buy then p.size * (exit - p.entry) else p.size * (p.entry - exit)
    requires forfeit == if purpose == Liquidated && c.params.forfeit then c.params.maintenance * p.size * exit else 0.0
    requires fee == p.size * exit * c.params.takerFee + forfeit
    ensures Off(s, CloseAt(c, s, x, price, purpose), x, exit, gain, fee, forfeit, purpose)
  {
    hide ExitPrice, ExitFee, Forfeit, Gain, Against;
    ExitPriceIs(c, p, price, purpose);
    ExitFeeIs(c, p, exit, purpose, fee, forfeit);
    GainIs(p, exit, gain);
    var after := CloseAt(c, s, x, price, purpose);
    assert after.fillLog[..|s.fillLog|] == s.fillLog;
  }

  lemma GainIs(p: Position, exit: real, gain: real)
    requires gain == if p.side == Buy then p.size * (exit - p.entry) else p.size * (p.entry - exit)
    ensures Gain(p.side, p.size, p.entry, exit) == gain
  {
    MovedIs(p, exit);
  }

  lemma ExitFeeIs(c: Config, p: Position, exit: real, purpose: Purpose, fee: real, forfeit: real)
    requires forfeit == if purpose == Liquidated && c.params.forfeit then c.params.maintenance * p.size * exit else 0.0
    requires fee == p.size * exit * c.params.takerFee + forfeit
    ensures Forfeit(c, p, exit, purpose) == forfeit && ExitFee(c, p, exit, purpose) == fee
  {
  }

  lemma ExitPriceIs(c: Config, p: Position, price: real, purpose: Purpose)
    ensures ExitPrice(c, p, price, purpose)
         == price * (if p.side == Buy then 1.0 - Against(c, purpose) else 1.0 + Against(c, purpose))
  {
    assert price * (1.0 - 0.0) == price && price * (1.0 + 0.0) == price;
  }

  function Against(c: Config, purpose: Purpose): real
  {
    if purpose == Stop then c.params.slippage + HalfWay(c) else if purpose == TakeProfit then HalfWay(c) else 0.0
  }

  lemma Swap(size: real, a: real, b: real)
    ensures 1.0 * size * (b - a) == size * (b - a) && -1.0 * size * (b - a) == size * (a - b)
  {
  }

  // ---------------------------------------------------------------- what a bar does to a position

  /** The bar trades at the level, coming from the side the position loses on. */
  predicate Touched(p: Position, level: real, bar: Bar)
  {
    (p.side == Buy && bar.low <= level) || (p.side == Sell && level <= bar.high)
  }

  /** The bar trades at the target, or, where a touch is not a fill, past it. */
  predicate Paid(c: Config, p: Position, target: real, bar: Bar)
  {
    if p.side == Buy then target < bar.high || (c.params.touchFills && target == bar.high)
    else bar.low < target || (c.params.touchFills && target == bar.low)
  }

  /** The stop is there, is traded at, and is met before the liquidation price. */
  ghost predicate Stops(c: Config, s: State, x: int, bar: Bar)
    requires 0.0 <= c.params.maintenance < 1.0 && Holds(s, x)
  {
    var p, liquidation := s.positions[x], LiquidationPrice(c, s, x);
    && 0.0 < p.stop && Touched(p, p.stop, bar)
    && (liquidation.Some? && Touched(p, liquidation.value, bar) ==>
          if p.side == Buy then liquidation.value < p.stop else p.stop < liquidation.value)
  }

  ghost predicate Liquidates(c: Config, s: State, x: int, bar: Bar)
    requires 0.0 <= c.params.maintenance < 1.0 && Holds(s, x)
  {
    && LiquidationPrice(c, s, x).Some? && Touched(s.positions[x], LiquidationPrice(c, s, x).value, bar)
    && !Stops(c, s, x, bar)
  }

  /**
   * A bar takes a position out at its stop when that is traded at and comes first, at the open where the bar opens past
   * it; at the liquidation price when that comes first; at the target when neither is met; and otherwise leaves it.
   */
  lemma BarTakesOut(c: Config, s: State, x: int, bar: Bar)
    requires 0.0 <= c.params.maintenance < 1.0 && Holds(s, x)
    ensures var p, noted, after := s.positions[x], NoteUnprotected(s, x, bar), ExitPosition(c, s, x, bar);
            if Stops(c, s, x, bar) then
              var past := if p.side == Buy then bar.open < p.stop else p.stop < bar.open;
              after == CloseAt(c, noted, x, if past then bar.open else p.stop, Stop)
            else if Liquidates(c, s, x, bar) then
              var at := LiquidationPrice(c, s, x).value;
              after == CloseAt(c, noted.(liquidations := noted.liquidations
                               + [Liquidation(x, s.index, at, p.size, p.side, p.entry)]), x, at, Liquidated)
            else if 0.0 < p.takeProfit && Paid(c, p, p.takeProfit, bar) then
              after == CloseAt(c, noted, x, p.takeProfit, TakeProfit)
            else after == noted
    ensures NoteUnprotected(s, x, bar)
         == if s.positions[x].stop > 0.0 && s.positions[x].verified then s
            else s.(unprotected := s.unprotected + [Unprotected(x, s.index, bar.start, s.positions[x].stop <= 0.0)])
  {
    hide CloseAt, LiquidationPrice;
  }

  // ---------------------------------------------------------------- resting orders

  /** A resting order fills in a bar exactly when the bar trades at its price, or past it if a touch is not a fill. */
  lemma RestsUntilReached(c: Config, s: State, x: int, bar: Bar, k: nat)
    requires k < |s.orders|
    ensures var o := s.orders[k];
            var reached := if o.side == Buy then bar.low < o.price || (c.params.touchFills && bar.low == o.price)
                           else o.price < bar.high || (c.params.touchFills && o.price == bar.high);
            RestOne(c, s, x, bar, k)
            == if o.symbol == x && o.limit && o.status in {New, PartiallyFilled} && reached
                  && (o.reduceOnly ==> x in s.positions)
            then Execute(c, s, k, o.price, false, true) else s
  {
    hide Execute;
  }

  lemma {:induction false} OrphansIn(orders: seq<Order>, x: int)
    ensures |Orphans(orders, x)| == |orders|
    ensures forall k :: 0 <= k < |orders| ==>
                          var o := orders[k];
                          Orphans(orders, x)[k]
                          == if o.symbol == x && o.reduceOnly && o.status in {New, PartiallyFilled}
                          then o.(status := Cancelled) else o
    decreases |orders|
  {
    if orders != [] { OrphansIn(orders[..|orders| - 1], x); }
  }

  ghost predicate Waits(o: Order, x: int) { o.symbol == x && o.status in {New, PartiallyFilled} }

  /** Reduce-only orders still resting go with the position; nothing else does, and nothing while there is one. */
  lemma OrphansGo(s: State, x: int)
    ensures var after := CancelOrphans(s, x);
            && after == s.(orders := after.orders) && |after.orders| == |s.orders|
            && forall k :: 0 <= k < |s.orders| ==>
                             var o := s.orders[k];
                             after.orders[k]
                             == if x !in s.positions && Waits(o, x) && o.reduceOnly then o.(status := Cancelled) else o
  {
    OrphansIn(s.orders, x);
  }

  /** What an execution does: nothing to any other order, and, if the bar's volume is no limit, it ends this one. */
  ghost predicate Tried(c: Config, orders: seq<Order>, after: seq<Order>, k: nat)
    requires k < |orders|
  {
    && |after| == |orders| && (forall j :: 0 <= j < |orders| && j != k ==> after[j] == orders[j])
    && after[k].symbol == orders[k].symbol && after[k].reduceOnly == orders[k].reduceOnly
    && (c.params.maxParticipation.None? ==> after[k].status in {Filled, Cancelled, Rejected})
  }

  lemma TradeKeepsOrders(c: Config, s: State, x: int, side: Side, link: int, qty: Qty, price: real, fee: real,
                         resolving: bool)
    requires qty > 0.0
    ensures var traded := Trade(c, s, x, side, link, qty, price, fee, resolving);
            traded.Some? ==> traded.value.orders == s.orders
  {
    hide Affordable, ChargeSettlement, Gain, Boundary, Enlarged, Opened;
  }

  lemma FillTries(c: Config, s: State, k: nat, qty: Qty, price: real, fee: real, market: bool, resolving: bool)
    requires k < |s.orders| && qty > 0.0
    requires c.params.maxParticipation.None? ==> s.orders[k].cum + qty >= s.orders[k].qty
    ensures Tried(c, s.orders, FillOrder(c, s, k, qty, price, fee, market, resolving).orders, k)
  {
    hide Trade, VolumeTaken;
    var o := s.orders[k];
    TradeKeepsOrders(c, s, o.symbol, o.side, o.link, qty, price, fee, resolving);
  }

  lemma QtyTries(c: Config, s: State, k: nat, left: Qty, price: real, taker: bool, resolving: bool)
    requires k < |s.orders| && left > 0.0 && s.orders[k].cum + left >= s.orders[k].qty
    ensures Tried(c, s.orders, ExecuteQty(c, s, k, left, price, taker, resolving).orders, k)
  {
    hide FillOrder, Room, FillPrice, FeeOn;
    var o := s.orders[k];
    var qty := Available(c, s, o.symbol, left);
    if qty > 0.0 {
      var at := FillPrice(c, o.side, price, taker);
      FillTries(c, s, k, qty, at, FeeOn(c, qty, at, taker), Immediate(o, resolving), resolving);
    }
  }

  lemma ExecuteTries(c: Config, s: State, k: nat, price: real, taker: bool, resolving: bool)
    requires k < |s.orders|
    ensures Tried(c, s.orders, Execute(c, s, k, price, taker, resolving).orders, k)
  {
    hide ExecuteQty;
    var o := s.orders[k];
    if o.qty > 0.0 && o.qty - o.cum > 0.0 {
      QtyTries(c, s, k, o.qty - o.cum, price, taker, resolving);
      if o.reduceOnly && Holds(s, o.symbol) {
        var size := s.positions[o.symbol].size;
        QtyTries(c, SetOrder(s, k, o.(qty := o.cum + size)), k, size, price, taker, resolving);
      }
    }
  }

  /** The bar trades at the order's price, or past it where a touch is not a fill. */
  ghost predicate Trades(c: Config, o: Order, bar: Bar)
  {
    if o.side == Buy then bar.low < o.price || (c.params.touchFills && bar.low == o.price)
    else o.price < bar.high || (c.params.touchFills && o.price == bar.high)
  }

  /** What a bar's prices do to an order, whether they leave a position in the symbol or not. */
  ghost predicate Barred(c: Config, o: Order, after: Order, x: int, bar: Bar, held: bool)
  {
    && (!Waits(o, x) ==> after == o)
    && (Waits(o, x) && !(o.limit && Trades(c, o, bar)) ==>
          after == if o.reduceOnly && !held then o.(status := Cancelled) else o)
    && (Waits(o, x) && o.limit && Trades(c, o, bar) && !o.reduceOnly && c.params.maxParticipation.None? ==>
          !Waits(after, x))
    && (o.reduceOnly && !held ==> !Waits(after, x))
  }

  lemma {:induction false} RestAllTries(c: Config, s: State, x: int, bar: Bar, n: nat)
    requires n <= |s.orders|
    ensures var after := RestAll(c, s, x, bar, n).orders;
            && |after| == |s.orders|
            && forall k :: 0 <= k < |after| ==>
                             var o := s.orders[k];
                             && after[k].symbol == o.symbol && after[k].reduceOnly == o.reduceOnly
                             && (!(k < n && Waits(o, x) && o.limit && Trades(c, o, bar)) ==> after[k] == o)
                             && (k < n && c.params.maxParticipation.None? && !o.reduceOnly ==>
                                   Waits(o, x) && o.limit && Trades(c, o, bar) ==> !Waits(after[k], x))
    decreases n
  {
    hide Execute;
    if n > 0 {
      RestAllTries(c, s, x, bar, n - 1);
      var before := RestAll(c, s, x, bar, n - 1);
      RestsUntilReached(c, before, x, bar, n - 1);
      ExecuteTries(c, before, n - 1, before.orders[n - 1].price, false, true);
    }
  }

  lemma ExitKeepsOrders(c: Config, s: State, x: int, bar: Bar)
    requires 0.0 <= c.params.maintenance < 1.0
    ensures ExitPosition(c, s, x, bar).orders == s.orders
  {
    hide LiquidationPrice, GapThrough, LimitReached, ExitPrice, ExitFee, Gain, Forfeit;
  }

  /**
   * A bar and the orders: what waits in its symbol and is traded at waits no longer, unless the bar's volume runs out
   * or it may only reduce; what is not traded at stays as it was; and without a position nothing that may only reduce
   * waits.
   */
  lemma BarSettlesOrders(c: Config, s: State, x: int)
    requires 0.0 <= c.params.maintenance < 1.0
    ensures var after, bar := ResolvePrices(c, s, x), BarAt(c, x, s.index);
            && |after.orders| == |s.orders|
            && forall k :: 0 <= k < |s.orders| ==>
                             Barred(c, s.orders[k], after.orders[k], x, bar, x in after.positions)
  {
    hide ExitPosition, RestAll, CancelOrphans, Trades;
    var bar := BarAt(c, x, s.index);
    ExitKeepsOrders(c, s, x, bar);
    RestAllTries(c, ExitPosition(c, s, x, bar), x, bar, |s.orders|);
    OrphansGo(RestAll(c, ExitPosition(c, s, x, bar), x, bar, |s.orders|), x);
  }

  /** Reading a position back verifies the stop it has, and changes nothing else. */
  lemma ReadBackVerifies(s: State, x: int)
    ensures var after := ReadBack(s, x);
            && after == s.(positions := after.positions) && after.positions.Keys == s.positions.Keys
            && forall y :: y in s.positions ==>
                             var p := s.positions[y];
                             after.positions[y]
                             == if y == x && 0.0 < p.size && 0.0 < p.stop then p.(verified := true) else p
  {
  }

  /** A cancel takes the open orders under its link, and nothing else. */
  lemma {:induction false} CancelTakes(orders: seq<Order>, link: int)
    ensures |CancelFrom(orders, link)| == |orders|
    ensures forall k :: 0 <= k < |orders| ==>
                          var o := orders[k];
                          CancelFrom(orders, link)[k]
                          == if o.link == link && o.status !in {Filled, Cancelled, Rejected}
                          then o.(status := Cancelled) else o
    decreases |orders|
  {
    if orders != [] { CancelTakes(orders[..|orders| - 1], link); }
  }

  // ---------------------------------------------------------------- how much, and at what cost

  /** The part of a bar's volume that may be taken. */
  function Share(c: Config, x: int, index: int): real
    requires c.params.maxParticipation.Some?
  {
    c.params.maxParticipation.value * BarAt(c, x, index).volume
  }

  /** What is left of the bar's volume for a symbol, where participation is capped. */
  function Left(c: Config, s: State, x: int): Option<real>
  {
    if c.params.maxParticipation.None? then None
    else
      var used := if x in s.volumeUsed && s.volumeUsed[x].0 == s.index then s.volumeUsed[x].1 else 0.0;
      var left := Share(c, x, s.index) - used;
      Some(if left < 0.0 then 0.0 else left)
  }

  /** What an order can still ask for: what it has not had, and, reduce-only, no more than there is to reduce. */
  ghost predicate Asks(s: State, k: nat, qty: real)
    requires k < |s.orders|
  {
    var o := s.orders[k];
    && 0.0 < o.qty && 0.0 < o.qty - o.cum
    && (o.reduceOnly ==> o.symbol in s.positions && 0.0 < s.positions[o.symbol].size
                         && s.positions[o.symbol].side != o.side)
    && qty == (if o.reduceOnly && s.positions[o.symbol].size < o.qty - o.cum then s.positions[o.symbol].size
               else o.qty - o.cum)
  }

  /** An order with nothing to ask for is refused: cancelled if it had filled in part, otherwise rejected. */
  lemma NothingAsked(c: Config, s: State, k: nat, price: real, taker: bool, resolving: bool)
    requires k < |s.orders| && forall qty :: !Asks(s, k, qty)
    ensures var o := s.orders[k];
            Execute(c, s, k, price, taker, resolving)
            == SetOrder(s, k, o.(status := if o.cum > 0.0 then Cancelled else Rejected))
  {
    hide ExecuteQty;
    var o := s.orders[k];
    if o.qty > 0.0 && o.qty - o.cum > 0.0 {
      assert !Asks(s, k, o.qty - o.cum);
      if Holds(s, o.symbol) { assert !Asks(s, k, s.positions[o.symbol].size); }
    }
  }

  /** The order as it stands when it is filled: a reduce-only one that asks for more than there is, is cut to that. */
  function Ready(s: State, k: nat, asked: real): State
    requires k < |s.orders|
  {
    var o := s.orders[k];
    SetOrder(s, k, o.(qty := if asked < o.qty - o.cum then o.cum + asked else o.qty))
  }

  /**
   * An order that asks is filled for the least of what it asks and what the bar has left, at the taker's or its own
   * price and fee; with nothing left a market order at a close is cancelled and any other waits.
   */
  lemma FillsWhatItCan(c: Config, s: State, k: nat, price: real, taker: bool, resolving: bool, asked: real, qty: Qty,
                       at: real, fee: real)
    requires k < |s.orders| && Asks(s, k, asked)
    requires var left := Left(c, s, s.orders[k].symbol);
             qty == if left.Some? && left.value < asked then left.value else asked
    requires var edge := price * (c.params.slippage + HalfWay(c));
             at == if !taker then price else if s.orders[k].side == Buy then price + edge else price - edge
    requires fee == qty * at * (if taker then c.params.takerFee else c.params.makerFee)
    ensures var now, ready := !s.orders[k].limit && !resolving, Ready(s, k, asked);
            Execute(c, s, k, price, taker, resolving)
            == if qty > 0.0 then FillOrder(c, ready, k, qty, at, fee, now, resolving)
            else if now then SetOrder(ready, k, ready.orders[k].(status := Cancelled)) else ready
  {
    hide FillOrder, TakerPrice, ExecuteQty, Execute;
    AsksReady(c, s, k, price, taker, resolving, asked);
    QtyFills(c, Ready(s, k, asked), k, price, taker, resolving, asked, qty, at, fee);
  }

  lemma AsksReady(c: Config, s: State, k: nat, price: real, taker: bool, resolving: bool, asked: real)
    requires k < |s.orders| && Asks(s, k, asked)
    ensures Execute(c, s, k, price, taker, resolving)
         == ExecuteQty(c, Ready(s, k, asked), k, asked, price, taker, resolving)
    ensures var o, r := s.orders[k], Ready(s, k, asked).orders[k];
            o.limit == r.limit && o.side == r.side && o.symbol == r.symbol
    ensures Left(c, Ready(s, k, asked), s.orders[k].symbol) == Left(c, s, s.orders[k].symbol)
  {
    hide ExecuteQty;
    var o := s.orders[k];
    assert o.(qty := o.qty) == o && s.orders[k := o] == s.orders;
    LeftIs(c, s, o.symbol);
    LeftIs(c, Ready(s, k, asked), o.symbol);
    if c.params.maxParticipation.Some? { assert Room(c, Ready(s, k, asked), o.symbol) == Room(c, s, o.symbol); }
  }

  lemma QtyFills(c: Config, s: State, k: nat, price: real, taker: bool, resolving: bool, asked: real, qty: Qty,
                 at: real, fee: real)
    requires k < |s.orders| && asked > 0.0
    requires var left := Left(c, s, s.orders[k].symbol);
             qty == if left.Some? && left.value < asked then left.value else asked
    requires var edge := price * (c.params.slippage + HalfWay(c));
             at == if !taker then price else if s.orders[k].side == Buy then price + edge else price - edge
    requires fee == qty * at * (if taker then c.params.takerFee else c.params.makerFee)
    ensures var now := !s.orders[k].limit && !resolving;
            ExecuteQty(c, s, k, asked, price, taker, resolving)
            == if qty > 0.0 then FillOrder(c, s, k, qty, at, fee, now, resolving)
            else if now then SetOrder(s, k, s.orders[k].(status := Cancelled)) else s
  {
    hide FillOrder, TakerPrice, Left;
    TakerPays(c, price);
    LeftIs(c, s, s.orders[k].symbol);
    assert Available(c, s, s.orders[k].symbol, asked) == qty && FillPrice(c, s.orders[k].side, price, taker) == at;
    assert FeeOn(c, qty, at, taker) == fee;
  }

  /** A fill joins the order's own account: its quantity adds up, at the average price; what is left waits or is cut. */
  lemma FillJoins(o: Order, qty: Qty, price: real, fee: real, market: bool)
    requires qty > 0.0 && o.cum >= 0.0
    ensures var after := WithFill(o, qty, price, fee, market);
            && after.cum == o.cum + qty && after.avgPrice * after.cum == o.avgPrice * o.cum + price * qty
            && after.feePaid == o.feePaid + fee
            && after
               == o.(cum := after.cum, avgPrice := after.avgPrice, feePaid := after.feePaid, status := after.status)
            && (after.status == Filled <==> o.qty <= after.cum)
            && (after.cum < o.qty ==> after.status == if market then Cancelled else PartiallyFilled)
  {
  }

  /** And the account's: the fee is paid, the bar has that much less to give, and the fill is on file. */
  lemma FillCounts(c: Config, s: State, k: nat, qty: Qty, price: real, fee: real, market: bool)
    requires k < |s.orders| && qty > 0.0
    ensures var after, x := Record(c, s, k, qty, price, fee, market), s.orders[k].symbol;
            && after.purse == s.purse.(cash := s.purse.cash - fee) && after.feesPaid == s.feesPaid + fee
            && after.positions == s.positions && after.index == s.index
            && after.fillLog == s.fillLog + [Fill(Some(s.orders[k].link), x, s.orders[k].side, qty, price, fee,
                                                  s.orders[k].purpose, s.index)]
            && after.orders == s.orders[k := WithFill(s.orders[k], qty, price, fee, market)]
            && (c.params.maxParticipation.Some? && qty <= Left(c, s, x).value ==>
                  Left(c, after, x) == Some(Left(c, s, x).value - qty))
            && forall y :: y != x ==> Left(c, after, y) == Left(c, s, y)
  {
    hide WithFill, Share;
    var after, x := Record(c, s, k, qty, price, fee, market), s.orders[k].symbol;
    assert after.index == s.index;
    if c.params.maxParticipation.Some? {
      assert after.volumeUsed == s.volumeUsed[x := (s.index, VolumeTaken(s, x) + qty)];
    }
  }

  lemma LeftIs(c: Config, s: State, x: int)
    ensures Left(c, s, x) == if c.params.maxParticipation.Some? then Some(Room(c, s, x)) else None
  {
    if c.params.maxParticipation.Some? {
      var share, used := Share(c, x, s.index), VolumeTaken(s, x);
      assert share == c.params.maxParticipation.value * BarAt(c, x, s.index).volume;
      assert Room(c, s, x) == Max(0.0, share - used);
    }
  }

  /** The equity and margin an order is judged by, at the closes of the moment. */
  function Owned(c: Config, s: State): real
  {
    s.purse.cash + Total(map x | x in s.positions :: Moved(s.positions[x], BarAt(c, x, s.index).close))
  }

  function Moved(p: Position, close: real): real
  {
    if p.side == Buy then p.size * (close - p.entry) else p.size * (p.entry - close)
  }

  function Bound(s: State): real { Total(map x | x in s.positions :: Margin(s.positions[x])) }

  function Margin(p: Position): real
  {
    p.size * p.entry / if p.leverage > 0.000000001 then p.leverage else 0.000000001
  }

  lemma AffordableIff(c: Config, s: State, cost: real)
    ensures Affordable(c, s, cost) <==> cost <= Owned(c, s) - Bound(s)
  {
    hide Gain, Moved, Margin, Total;
    var worth := map x | x in s.positions :: Unrealised(s.positions[x], Mark(c, s, x));
    var moved := map x | x in s.positions :: Moved(s.positions[x], BarAt(c, x, s.index).close);
    forall x | x in worth ensures worth[x] == moved[x] { MovedIs(s.positions[x], Mark(c, s, x)); }
    assert worth == moved;
    var margin := map x | x in s.positions ::
      s.positions[x].size * s.positions[x].entry / Levered(s.positions[x].leverage);
    var bound := map x | x in s.positions :: Margin(s.positions[x]);
    forall x | x in margin ensures margin[x] == bound[x] { MarginIs(s.positions[x]); }
    assert margin == bound;
  }

  lemma MovedIs(p: Position, mark: real)
    ensures Gain(p.side, p.size, p.entry, mark) == Moved(p, mark)
  {
    Swap(p.size, p.entry, mark);
  }

  lemma MarginIs(p: Position)
    ensures p.size * p.entry / Levered(p.leverage) == Margin(p)
  {
  }

  /**
   * A trade that opens or adds is refused exactly when its margin and fee do not fit the free equity; one against the
   * position never is.
   */
  lemma RefusedIff(c: Config, s: State, x: int, side: Side, link: int, qty: Qty, price: real, fee: real,
                   resolving: bool, cost: real)
    requires cost == qty * price / (if s.leverage > 0.000000001 then s.leverage else 0.000000001) + fee
    ensures Trade(c, s, x, side, link, qty, price, fee, resolving).None? <==>
            (x in s.positions && s.positions[x].size > 0.0 ==> s.positions[x].side == side)
            && Owned(c, s) - Bound(s) < cost
  {
    hide Affordable, ReduceBy, Boundary, Owned, Bound, Enlarged;
    AffordableIff(c, s, cost);
    assert cost == qty * price / Levered(s.leverage) + fee;
  }

  /** A position just opened: at the bar of the moment, with neither stop nor target. */
  predicate IsNew(s: State, p: Position, side: Side, size: real, price: real)
  {
    && p.side == side && p.size == size && p.entry == price && p.stop == 0.0 && p.takeProfit == 0.0 && !p.verified
    && p.leverage == s.leverage && p.openedAt == s.index && p.lateAdds == map[]
  }

  /**
   * What a trade leaves: a new position; one larger, at the average entry; one smaller, at its own; nothing; or, of
   * more than there was, the rest as a new position on the other side. No other position is touched.
   */
  lemma TradeLeaves(c: Config, s: State, x: int, side: Side, link: int, qty: Qty, price: real, fee: real,
                    resolving: bool)
    requires qty > 0.0 && Trade(c, s, x, side, link, qty, price, fee, resolving).Some?
    ensures var after := Trade(c, s, x, side, link, qty, price, fee, resolving).value.positions;
            && after - {x} == s.positions - {x}
            && if !(x in s.positions && s.positions[x].size > 0.0) then
                 x in after && IsNew(s, after[x], side, qty, price)
               else
                 var p := s.positions[x];
                 if p.side == side then
                   && x in after && after[x].size == p.size + qty
                   && after[x].entry * after[x].size == p.entry * p.size + price * qty
                   && after[x] == p.(size := after[x].size, entry := after[x].entry, lateAdds := after[x].lateAdds)
                 else if qty < p.size then x in after && after[x] == p.(size := p.size - qty)
                 else if qty == p.size then x !in after
                 else x in after && IsNew(s, after[x], side, qty - p.size, price)
  {
    hide Affordable, ChargeLeaving, Boundary, Gain, Enlarged;
    if Holds(s, x) {
      var p := s.positions[x];
      EnlargedKeeps(p, qty, price, if resolving then None else Boundary(c, x, s.index));
      LeavingPositions(c, s, x, p, Min(qty, p.size), link, resolving);
    }
  }

  lemma EnlargedKeeps(p: Position, qty: Qty, price: real, boundary: Option<int>)
    requires p.size > 0.0 && qty > 0.0
    ensures var q := Enlarged(p, qty, price, boundary);
            q.size == p.size + qty && q.entry * q.size == p.entry * p.size + price * qty
            && q == p.(size := q.size, entry := q.entry, lateAdds := q.lateAdds)
  {
  }

  lemma LeavingPositions(c: Config, s: State, x: int, p: Position, closing: real, link: int, resolving: bool)
    ensures var after := ChargeLeaving(c, s, x, p, closing, link, resolving); after == s.(purse := after.purse)
  {
    hide ChargeSettlement, Boundary;
  }

  // ---------------------------------------------------------------- bars

  /**
   * A bar reaches as long as the first two are apart, and, where the one before did not reach it, back to that one's
   * end; a step goes to the next bar of the first symbol until there is none.
   */
  lemma BarReaches(c: Config, x: int, i: int)
    requires 0 <= i < |Series(c, x)|
    ensures var series := if x in c.data.bars then c.data.bars[x] else [];
            var span := if |series| < 2 then 8 * 3600 * 1000
                        else if series[1].start - series[0].start > 1 then series[1].start - series[0].start else 1;
            && End(c, x, i) == series[i].start + span
            && Begin(c, x, i) == if i > 0 && series[i - 1].start + span < series[i].start
                                 then series[i - 1].start + span else series[i].start
  {
  }

  lemma StepsOn(c: Config, s: State)
    requires 0.0 <= c.params.maintenance < 1.0
    ensures var more := c.data.symbols != [] && s.index + 1 < |Series(c, c.data.symbols[0])|;
            Step(c, s) == if more then ResolveAll(c, s.(index := s.index + 1), c.data.symbols) else s
  {
    hide ResolveAll;
  }
}
