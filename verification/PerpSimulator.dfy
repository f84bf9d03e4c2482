/**
 The simulator itself (`LinearSimulatedExchange`): a ledger changed in place, bar by bar, every method of which does
 what the functions of `PerpVenue` say, and whose whole changing state can be saved and resumed.
 */
module PerpSimulator {
  import opened Basics
  import opened PerpVenue
  import V = PerpVenue
  import FundingClock
  import opened PerpAccounting
  import opened PerpState

  /**
   * A market order at a bar's close is settled there and then: filled, cut or refused, and no other order is touched.
   */
  predicate SettledAtOnce(before: seq<Order>, after: seq<Order>, k: nat)
  {
    && k < |before| == |after| && (forall j :: 0 <= j < |before| && j != k ==> after[j] == before[j])
    && after[k].link == before[k].link && after[k].status in {Filled, Cancelled, Rejected}
  }

  lemma FillSettles(c: Config, s: State, k: nat, qty: Qty, price: real, fee: real)
    requires k < |s.orders| && qty > 0.0
    ensures SettledAtOnce(s.orders, FillOrder(c, s, k, qty, price, fee, true, false).orders, k)
    ensures FillOrder(c, s, k, qty, price, fee, true, false).orderSeq == s.orderSeq
  {
    hide Affordable, V.ChargeSettlement, Gain, Boundary, Enlarged, Opened;
  }

  lemma MarketSettles(c: Config, s: State, k: nat, price: real)
    requires k < |s.orders| && !s.orders[k].limit
    ensures SettledAtOnce(s.orders, V.Execute(c, s, k, price, true, false).orders, k)
    ensures V.Execute(c, s, k, price, true, false).orderSeq == s.orderSeq
  {
    hide FillOrder, Available, FillPrice, FeeOn;
    var o := s.orders[k];
    if o.qty > 0.0 && o.qty - o.cum > 0.0 {
      QtySettles(c, s, k, o.qty - o.cum, price);
      if o.reduceOnly && Holds(s, o.symbol) {
        var size := s.positions[o.symbol].size;
        QtySettles(c, SetOrder(s, k, o.(qty := o.cum + size)), k, size, price);
      }
    }
  }

  lemma QtySettles(c: Config, s: State, k: nat, remaining: Qty, price: real)
    requires k < |s.orders| && !s.orders[k].limit
    ensures SettledAtOnce(s.orders, V.ExecuteQty(c, s, k, remaining, price, true, false).orders, k)
    ensures V.ExecuteQty(c, s, k, remaining, price, true, false).orderSeq == s.orderSeq
  {
    hide FillOrder, Available, FillPrice, FeeOn;
    var o := s.orders[k];
    var qty := Available(c, s, o.symbol, remaining);
    if qty > 0.0 {
      var fillPrice := FillPrice(c, o.side, price, true);
      FillSettles(c, s, k, qty, fillPrice, FeeOn(c, qty, fillPrice, true));
    }
  }

  /**
   * A stop is protection only once it has been read back: a bar that finds the position with a stop written and not
   * read notes it unprotected, one that finds it read back does not.
   */
  lemma StopMustBeRead(c: Config, s: State, symbol: int, stop: real, target: Option<real>, bar: Bar)
    requires Holds(s, symbol) && s.failStops == 0 && stop > 0.0
    ensures var written := SetStop(s, symbol, Some(stop), target);
            && NoteUnprotected(written, symbol, bar).unprotected == s.unprotected
                                                                    + [Unprotected(symbol, s.index, bar.start, false)]
            && NoteUnprotected(ReadBack(written, symbol), symbol, bar).unprotected == s.unprotected
  {
  }

  class LinearSimulatedExchange {
    const c: Config
    var index: int
    var leverage: real
    var cash: real
    var fundingPaid: real
    var fundingLog: seq<Charge>
    var funded: set<Key>
    var unprinted: nat
    var positions: map<int, Position>
    var orders: seq<Order>
    var orderSeq: nat
    var feesPaid: real
    var fillLog: seq<Fill>
    var exits: seq<(Fill, int)>
    var liquidations: seq<Liquidation>
    var unprotected: seq<Unprotected>
    var failStops: nat
    var forfeited: real
    var volumeUsed: map<int, (int, real)>

    ghost predicate Valid() { 0.0 <= c.params.maintenance < 1.0 }

    function Wallet(): Purse reads this { Purse(cash, fundingPaid, fundingLog, funded, unprinted) }

    function Contents(): State
      reads this
    {
      State(index, leverage, Wallet(), positions, orders, orderSeq, feesPaid, fillLog, exits, liquidations, unprotected,
            failStops, forfeited, volumeUsed)
    }

    constructor (c: Config, leverage: real)
      requires 0.0 <= c.params.maintenance < 1.0
      ensures Valid() && this.c == c && Contents() == Initial(c, leverage)
    {
      this.c, index, this.leverage := c, 0, leverage;
      cash, fundingPaid, fundingLog, funded, unprinted := c.params.startingCash, 0.0, [], {}, 0;
      positions, orders, orderSeq, feesPaid := map[], [], 0, 0.0;
      fillLog, exits, liquidations, unprotected := [], [], [], [];
      failStops, forfeited, volumeUsed := 0, 0.0, map[];
    }

    // ---------------------------------------------------------------- funding

    method ChargeSettlement(symbol: int, settle: int, snap: Snapshot, size: real, mark: real, tag: Option<int>)
      modifies this`cash, this`fundingPaid, this`fundingLog, this`funded, this`unprinted
      ensures Wallet() == V.ChargeSettlement(c, old(Wallet()), symbol, settle, snap, size, mark, tag)
    {
      hide SettledRate, Unprinted, Dir;
      var key := Key(symbol, settle, snap.openedAt, tag);
      if key in funded || size <= 0.0 { return; }
      funded := funded + {key};
      unprinted := unprinted + Unprinted(c, symbol, settle);
      var paid := Dir(snap.side) * SettledRate(c, symbol, settle) * size * mark;
      cash := cash - paid;
      fundingPaid := fundingPaid + paid;
      fundingLog := fundingLog + [Charge(symbol, settle, paid, snap.openedMs, size, tag)];
    }

    method FundAtOpen(symbol: int, bar: Bar, snap: Snapshot, size: real, late: map<int, real>)
      modifies this`cash, this`fundingPaid, this`fundingLog, this`funded, this`unprinted
      ensures Wallet() == V.FundAtOpen(c, old(Wallet()), symbol, bar, index, snap, size, late,
                                       SettlementsIn(c, symbol, index))
    {
      hide V.ChargeSettlement, SettlementsIn;
      var settles := SettlementsIn(c, symbol, index);
      for i := 0 to |settles|
        invariant Wallet() == V.FundAtOpen(c, old(Wallet()), symbol, bar, index, snap, size, late, settles[..i])
      {
        var settle := settles[i];
        assert settles[..i + 1][..i] == settles[..i];
        if settle <= bar.start {
          if settle == bar.start {
            if snap.openedAt != index - 1 {
              ChargeSettlement(symbol, settle, snap, size - LateAt(late, settle), bar.open, None);
            }
          } else {
            ChargeSettlement(symbol, settle, snap, size, bar.open, None);
          }
        }
      }
      assert settles[..|settles|] == settles;
    }

    method FundInside(symbol: int, bar: Bar, snap: Snapshot, sizeStart: real, sizeEnd: real, stillHeld: bool)
      modifies this`cash, this`fundingPaid, this`fundingLog, this`funded, this`unprinted
      ensures Wallet() == V.FundInside(c, old(Wallet()), symbol, bar, snap, sizeStart, sizeEnd, stillHeld,
                                       SettlementsIn(c, symbol, index))
    {
      hide V.ChargeSettlement, SettlementsIn, SettledRate;
      var settles := SettlementsIn(c, symbol, index);
      for i := 0 to |settles|
        invariant Wallet() == V.FundInside(c, old(Wallet()), symbol, bar, snap, sizeStart, sizeEnd, stillHeld,
                                           settles[..i])
      {
        var settle := settles[i];
        assert settles[..i + 1][..i] == settles[..i];
        if settle > bar.start {
          var rate := SettledRate(c, symbol, settle);
          if Dir(snap.side) * rate > 0.0 {
            ChargeSettlement(symbol, settle, snap, sizeStart, Max(bar.open, bar.close), None);
          } else if stillHeld {
            ChargeSettlement(symbol, settle, snap, sizeEnd, Min(bar.open, bar.close), None);
          }
        }
      }
      assert settles[..|settles|] == settles;
    }

    // ---------------------------------------------------------------- fills

    method RefuseOrder(k: nat)
      requires k < |orders|
      modifies this`orders
      ensures Contents() == Refuse(old(Contents()), k) && |orders| == |old(orders)|
    {
      orders := orders[k := orders[k].(status := if orders[k].cum > 0.0 then Cancelled else Rejected)];
    }

    method ChargeOnLeaving(symbol: int, p: Position, closing: real, link: int, resolving: bool)
      modifies this`cash, this`fundingPaid, this`fundingLog, this`funded, this`unprinted
      ensures Contents() == ChargeLeaving(c, old(Contents()), symbol, p, closing, link, resolving)
    {
      hide V.ChargeSettlement;
      var boundary := if resolving then None else Boundary(c, symbol, index);
      if boundary.Some? && p.openedAt != index {
        var bar := BarAt(c, symbol, index);
        ChargeSettlement(symbol, boundary.value, SnapshotOf(c, symbol, p, bar), closing, bar.close, Some(link));
      }
    }

    method Shrink(symbol: int, p: Position, side: Side, qty: Qty, price: real)
      requires symbol in positions
      modifies this`positions
      ensures Contents() == Lessened(old(Contents()), symbol, p, side, qty, price)
    {
      ghost var before := positions;
      if qty < p.size {
        positions := positions[symbol := p.(size := p.size - qty)];
      } else {
        positions := positions - {symbol};
        if qty > p.size {
          positions := positions[symbol :=
          Position(side, qty - p.size, price, 0.0, 0.0, leverage, index, map[], false)];
          assert before[symbol := positions[symbol]] == positions;
        }
      }
    }

    /** Reduce, close or flip the position an opposite order meets. */
    method Reduce(symbol: int, side: Side, link: int, qty: Qty, price: real, resolving: bool)
      requires Holds(Contents(), symbol)
      modifies this`cash, this`fundingPaid, this`fundingLog, this`funded, this`unprinted, this`positions
      ensures Contents() == ReduceBy(c, old(Contents()), symbol, side, link, qty, price, resolving)
    {
      hide ChargeLeaving, Gain, Lessened;
      var p := positions[symbol];
      var closing := Min(qty, p.size);
      ChargeOnLeaving(symbol, p, closing, link, resolving);
      cash := cash + Gain(p.side, closing, p.entry, price);
      Shrink(symbol, p, side, qty, price);
    }

    method TradePosition(symbol: int, side: Side, link: int, qty: Qty, price: real, fee: real,
                         resolving: bool) returns (ok: bool)
      requires qty > 0.0
      modifies this`cash, this`fundingPaid, this`fundingLog, this`funded, this`unprinted, this`positions
      ensures ok ==> Trade(c, old(Contents()), symbol, side, link, qty, price, fee, resolving) == Some(Contents())
      ensures !ok ==> Trade(c, old(Contents()), symbol, side, link, qty, price, fee, resolving).None?
                      && Contents() == old(Contents())
    {
      hide ReduceBy, Affordable;
      if !Holds(Contents(), symbol) {
        if !Affordable(c, Contents(), qty * price / Levered(leverage) + fee) { return false; }
        positions := positions[symbol := Position(side, qty, price, 0.0, 0.0, leverage, index, map[], false)];
      } else if positions[symbol].side == side {
        if !Affordable(c, Contents(), qty * price / Levered(leverage) + fee) { return false; }
        var boundary := if resolving then None else Boundary(c, symbol, index);
        positions := positions[symbol := Enlarged(positions[symbol], qty, price, boundary)];
      } else {
        Reduce(symbol, side, link, qty, price, resolving);
      }
      ok := true;
    }

    method BookOrder(k: nat, qty: Qty, price: real, fee: real, market: bool)
      requires k < |orders| && qty > 0.0
      modifies this`orders, this`fillLog
      ensures orders == old(orders)[k := WithFill(old(orders)[k], qty, price, fee, market)]
      ensures var o := old(orders)[k];
              fillLog == old(fillLog) + [Fill(Some(o.link), o.symbol, o.side, qty, price, fee, o.purpose, index)]
    {
      hide WithFill;
      var o := orders[k];
      orders := orders[k := WithFill(o, qty, price, fee, market)];
      fillLog := fillLog + [Fill(Some(o.link), o.symbol, o.side, qty, price, fee, o.purpose, index)];
    }

    method Book(k: nat, qty: Qty, price: real, fee: real, market: bool)
      requires k < |orders| && qty > 0.0
      modifies this`cash, this`feesPaid, this`volumeUsed, this`orders, this`fillLog
      ensures Contents() == Record(c, old(Contents()), k, qty, price, fee, market) && |orders| == |old(orders)|
    {
      hide WithFill, VolumeTaken;
      ghost var before := Contents();
      PayFee(fee);
      UseVolume(orders[k].symbol, qty);
      BookOrder(k, qty, price, fee, market);
      assert VolumeTaken(before.(purse := Wallet(), feesPaid := feesPaid), before.orders[k].symbol)
          == VolumeTaken(before, before.orders[k].symbol) by {
        SameVolume(before, before.(purse := Wallet(), feesPaid := feesPaid), before.orders[k].symbol);
      }
    }

    lemma SameVolume(s: State, t: State, symbol: int)
      requires t.volumeUsed == s.volumeUsed && t.index == s.index
      ensures VolumeTaken(t, symbol) == VolumeTaken(s, symbol)
    {
    }

    method PayFee(fee: real)
      modifies this`cash, this`feesPaid
      ensures Contents() == Cash(old(Contents()), -fee).(feesPaid := old(feesPaid) + fee)
    {
      cash := cash + -fee;
      feesPaid := feesPaid + fee;
    }

    method UseVolume(symbol: int, qty: Qty)
      modifies this`volumeUsed
      ensures Contents() == old(Contents()).(volumeUsed :=
                            if c.params.maxParticipation.Some?
                            then old(volumeUsed)[symbol := (index, VolumeTaken(old(Contents()), symbol) + qty)]
                            else old(volumeUsed))
    {
      hide VolumeTaken;
      if c.params.maxParticipation.Some? {
        volumeUsed := volumeUsed[symbol := (index, VolumeTaken(Contents(), symbol) + qty)];
      }
    }

    method FillNow(k: nat, qty: Qty, price: real, fee: real, market: bool, resolving: bool)
      requires k < |orders| && qty > 0.0
      modifies this
      ensures Contents() == FillOrder(c, old(Contents()), k, qty, price, fee, market, resolving)
      ensures |orders| == |old(orders)|
    {
      hide Trade, Record;
      var o := orders[k];
      var ok := TradePosition(o.symbol, o.side, o.link, qty, price, fee, resolving);
      if !ok {
        RefuseOrder(k);
      } else {
        Book(k, qty, price, fee, market);
      }
    }

    method ExecuteUpTo(k: nat, remaining: Qty, price: real, taker: bool, resolving: bool)
      requires k < |orders|
      modifies this
      ensures Contents() == ExecuteQty(c, old(Contents()), k, remaining, price, taker, resolving)
              && |orders| == |old(orders)|
    {
      hide FillOrder, Available, FillPrice, FeeOn;
      var o := orders[k];
      var qty := Available(c, Contents(), o.symbol, remaining);
      if qty <= 0.0 {
        if Immediate(o, resolving) { orders := orders[k := o.(status := Cancelled)]; }
      } else {
        var fillPrice := FillPrice(c, o.side, price, taker);
        FillNow(k, qty, fillPrice, FeeOn(c, qty, fillPrice, taker), Immediate(o, resolving), resolving);
      }
    }

    /** `_execute`. */
    method Execute(k: nat, price: real, taker: bool, resolving: bool)
      requires k < |orders|
      modifies this
      ensures Contents() == V.Execute(c, old(Contents()), k, price, taker, resolving) && |orders| == |old(orders)|
    {
      hide ExecuteQty;
      var o := orders[k];
      var remaining := o.qty - o.cum;
      if o.qty <= 0.0 || remaining <= 0.0 {
        RefuseOrder(k);
      } else if o.reduceOnly && (!Holds(Contents(), o.symbol) || positions[o.symbol].side == o.side) {
        RefuseOrder(k);
      } else if o.reduceOnly && remaining > positions[o.symbol].size {
        var size := positions[o.symbol].size;
        orders := orders[k := o.(qty := o.cum + size)];
        ExecuteUpTo(k, size, price, taker, resolving);
      } else {
        ExecuteUpTo(k, remaining, price, taker, resolving);
      }
    }

    // ---------------------------------------------------------------- exits

    method NoteExit(fill: Fill)
      modifies this`fillLog, this`exits
      ensures Contents() == LogExit(c, old(Contents()), fill)
    {
      hide BarAt;
      fillLog := fillLog + [fill];
      exits := exits + [(fill, BarAt(c, fill.symbol, index).start)];
    }

    method TakeOffBook(symbol: int, gain: real, fee: real, forfeit: real)
      modifies this`cash, this`feesPaid, this`forfeited, this`positions
      ensures Contents() == TakeOff(old(Contents()), symbol, gain, fee, forfeit)
    {
      forfeited := forfeited + forfeit;
      cash := cash + (gain - fee);
      feesPaid := feesPaid + fee;
      positions := positions - {symbol};
    }

    /** `_close_at`. */
    method CloseAt(symbol: int, price: real, purpose: Purpose)
      modifies this`cash, this`feesPaid, this`forfeited, this`positions, this`fillLog, this`exits
      ensures Contents() == V.CloseAt(c, old(Contents()), symbol, price, purpose)
    {
      hide ExitPrice, Forfeit, ExitFee, Gain, TakeOff, LogExit;
      if !Holds(Contents(), symbol) { return; }
      var p := positions[symbol];
      var exit := ExitPrice(c, p, price, purpose);
      var fee := ExitFee(c, p, exit, purpose);
      TakeOffBook(symbol, Gain(p.side, p.size, p.entry, exit), fee, Forfeit(c, p, exit, purpose));
      NoteExit(Fill(None, symbol, Opposite(p.side), p.size, exit, fee, purpose, index));
    }

    method Liquidate(symbol: int, price: real)
      modifies this
      ensures Contents() == V.Liquidate(c, old(Contents()), symbol, price) && |orders| == |old(orders)|
    {
      hide V.CloseAt;
      if symbol !in positions { return; }
      var p := positions[symbol];
      liquidations := liquidations + [Liquidation(symbol, index, price, p.size, p.side, p.entry)];
      CloseAt(symbol, price, Liquidated);
    }

    /** The first half of `_resolve_prices`: the nearer of stop and liquidation, otherwise the target. */
    method ExitByPrices(symbol: int, bar: Bar)
      requires Valid()
      modifies this
      ensures Contents() == ExitPosition(c, old(Contents()), symbol, bar) && |orders| == |old(orders)|
    {
      hide V.CloseAt, V.Liquidate, LiquidationPrice, TakerPrice, GapThrough;
      if !Holds(Contents(), symbol) { return; }
      var p := positions[symbol];
      var liq := LiquidationPrice(c, Contents(), symbol);
      if p.stop <= 0.0 || !p.verified {
        unprotected := unprotected + [Unprotected(symbol, index, bar.start, p.stop <= 0.0)];
      }
      var hitStop := p.stop > 0.0 && Reaches(p, p.stop, bar);
      var hitLiq := liq.Some? && Reaches(p, liq.value, bar);
      if hitStop && hitLiq {
        var stopFirst := if p.side == Buy then p.stop > liq.value else p.stop < liq.value;
        if stopFirst { CloseAt(symbol, GapThrough(p, p.stop, bar), Stop); } else { Liquidate(symbol, liq.value); }
      } else if hitStop {
        CloseAt(symbol, GapThrough(p, p.stop, bar), Stop);
      } else if hitLiq {
        Liquidate(symbol, liq.value);
      } else if p.takeProfit > 0.0 && LimitReached(c, Opposite(p.side), p.takeProfit, bar) {
        CloseAt(symbol, p.takeProfit, TakeProfit);
      }
    }

    // ---------------------------------------------------------------- the bar

    method FillResting(symbol: int, bar: Bar)
      modifies this
      ensures Contents() == RestAll(c, old(Contents()), symbol, bar, |old(orders)|) && |orders| == |old(orders)|
    {
      hide V.Execute, LimitReached;
      for k := 0 to |orders|
        invariant Contents() == RestAll(c, old(Contents()), symbol, bar, k) && |orders| == |old(orders)|
      {
        var o := orders[k];
        if Resting(o, symbol) && o.limit && LimitReached(c, o.side, o.price, bar)
           && (symbol in positions || !o.reduceOnly) {
          Execute(k, o.price, false, true);
        }
      }
    }

    method CancelReduceOnly(symbol: int)
      modifies this`orders
      ensures Contents() == CancelOrphans(old(Contents()), symbol)
    {
      if symbol in positions { return; }
      ghost var before := orders;
      for k := 0 to |orders|
        invariant |orders| == |before| && orders[..k] == Orphans(before[..k], symbol)
        invariant forall j :: k <= j < |orders| ==> orders[j] == before[j]
      {
        assert before[..k + 1][..k] == before[..k];
        var o := orders[k];
        ghost var done := orders[..k];
        if Resting(o, symbol) && o.reduceOnly { orders := orders[k := o.(status := Cancelled)]; }
        assert orders[..k + 1] == done + [orders[k]];
      }
      assert before[..|before|] == before && orders[..|before|] == orders;
    }

    method ResolvePrices(symbol: int)
      requires Valid()
      modifies this
      ensures Contents() == V.ResolvePrices(c, old(Contents()), symbol)
    {
      hide ExitPosition, RestAll, CancelOrphans;
      var bar := BarAt(c, symbol, index);
      ghost var n := |orders|;
      ExitByPrices(symbol, bar);
      FillResting(symbol, bar);
      CancelReduceOnly(symbol);
    }

    /** Funding at the open, then prices, then funding inside the bar. */
    method ResolveBar(symbol: int)
      requires Valid()
      modifies this
      ensures Contents() == V.ResolveBar(c, old(Contents()), symbol)
    {
      hide V.ResolvePrices, V.FundAtOpen, V.FundInside, SettlementsIn, SnapshotOf;
      if !Holds(Contents(), symbol) {
        ResolvePrices(symbol);
      } else {
        ghost var before := index;
        var bar, p := BarAt(c, symbol, index), positions[symbol];
        var snap := SnapshotOf(c, symbol, p, bar);
        FundAtOpen(symbol, bar, snap, p.size, p.lateAdds);
        ghost var charged := Contents();
        ResolvePrices(symbol);
        PricesKeepIndex(charged, symbol);
        var held := StillHeld(Contents(), symbol, snap);
        FundInside(symbol, bar, snap, p.size, if held then positions[symbol].size else 0.0, held);
      }
    }

    lemma PricesKeepIndex(s: State, symbol: int)
      requires Valid()
      ensures V.ResolvePrices(c, s, symbol).index == s.index
    {
      FundingClock.ResolvePricesOnly(c, s, symbol);
    }

    /** `step`: False when the data is exhausted. */
    method Step() returns (advanced: bool)
      requires Valid()
      modifies this
      ensures Contents() == V.Step(c, old(Contents())) && advanced == !Exhausted(c, old(Contents()))
    {
      hide V.ResolveBar;
      if Exhausted(c, Contents()) { return false; }
      index := index + 1;
      ghost var next := Contents();
      var symbols := c.data.symbols;
      for i := 0 to |symbols|
        invariant Contents() == ResolveAll(c, next, symbols[..i])
      {
        assert symbols[..i + 1][..i] == symbols[..i];
        ResolveBar(symbols[i]);
      }
      assert symbols[..|symbols|] == symbols;
      advanced := true;
    }

    // ---------------------------------------------------------------- requests

    /**
     * A link id already on file, or a symbol without bars, changes nothing. Otherwise exactly one order joins, under
     * that link, the others stay as they are, and it rests (a limit) or waits (a conditional) or is settled at once.
     */
    method Create(t: Ticket)
      modifies this
      ensures Contents() == V.Create(c, old(Contents()), t)
      ensures (exists k :: 0 <= k < |old(orders)| && old(orders)[k].link == t.link) || t.symbol !in c.data.bars ==>
                unchanged(this)
      ensures (forall k :: 0 <= k < |old(orders)| ==> old(orders)[k].link != t.link) && t.symbol in c.data.bars ==>
                && |orders| == |old(orders)| + 1 && orderSeq == old(orderSeq) + 1
                && orders[|old(orders)|].link == t.link
                && (forall k :: 0 <= k < |old(orders)| ==> orders[k] == old(orders)[k])
                && (if t.conditional || t.limit then
                      orders[|old(orders)|].status in {New, Untriggered} && positions == old(positions)
                      && Wallet() == old(Wallet())
                    else orders[|old(orders)|].status in {Filled, Cancelled, Rejected})
    {
      hide V.Execute;
      if OnFile(Contents(), t.link) || t.symbol !in c.data.bars { return; }
      orderSeq := orderSeq + 1;
      var o := Order(t.link, t.symbol, t.side, t.limit, t.qty, t.price, if t.conditional then Untriggered else New,
                     0.0, 0.0,
                     PurposeOf(t), t.reduceOnly, 0.0);
      orders := orders + [o];
      if !t.conditional && !t.limit {
        MarketSettles(c, Contents(), |orders| - 1, Mark(c, Contents(), t.symbol));
        Execute(|orders| - 1, Mark(c, Contents(), t.symbol), true, false);
      }
    }

    method CancelOrder(link: int)
      modifies this`orders
      ensures Contents() == old(Contents()).(orders := CancelFrom(old(orders), link))
    {
      ghost var before := orders;
      for k := 0 to |orders|
        invariant |orders| == |before| && orders[..k] == CancelFrom(before[..k], link)
        invariant forall j :: k <= j < |orders| ==> orders[j] == before[j]
      {
        assert before[..k + 1][..k] == before[..k];
        var o := orders[k];
        ghost var done := orders[..k];
        if o.link == link && Open(o) { orders := orders[k := o.(status := Cancelled)]; }
        assert orders[..k + 1] == done + [orders[k]];
      }
      assert before[..|before|] == before && orders[..|before|] == orders;
    }

    /**
     * A stop that is written is unverified until it is read back; while writes are made to fail only their count moves.
     */
    method SetTradingStop(symbol: int, stop: Option<real>, target: Option<real>)
      modifies this`positions, this`failStops
      ensures Contents() == SetStop(old(Contents()), symbol, stop, target)
      ensures !Holds(old(Contents()), symbol) ==> unchanged(this)
      ensures Holds(old(Contents()), symbol) && old(failStops) > 0 ==>
                failStops == old(failStops) - 1 && positions == old(positions)
      ensures Holds(old(Contents()), symbol) && old(failStops) == 0 ==>
                var before := old(positions)[symbol];
                && failStops == 0 && positions.Keys == old(positions).Keys
                && (forall other :: other in old(positions) && other != symbol ==>
                                      positions[other] == old(positions)[other])
                && positions[symbol].stop == (if stop.Some? then stop.value else before.stop)
                && positions[symbol].verified == (stop.None? && before.verified)
                && positions[symbol].takeProfit == (if target.Some? then target.value else before.takeProfit)
                && positions[symbol].size == before.size && positions[symbol].entry == before.entry
    {
      if !Holds(Contents(), symbol) { return; }
      if failStops > 0 { failStops := failStops - 1; return; }
      var p := positions[symbol];
      if stop.Some? { p := p.(stop := stop.value, verified := false); }
      if target.Some? { p := p.(takeProfit := target.value); }
      positions := positions[symbol := p];
    }

    method ReadPosition(symbol: int)
      modifies this`positions
      ensures Contents() == ReadBack(old(Contents()), symbol)
    {
      if !Holds(Contents(), symbol) || positions[symbol].stop <= 0.0 { return; }
      positions := positions[symbol := positions[symbol].(verified := true)];
    }

    method Perform(a: Action)
      requires Valid()
      modifies this
      ensures Contents() == Act(c, old(Contents()), a)
    {
      hide V.Step, V.Create, SetStop, ReadBack, CancelFrom;
      match a {
        case Advance => var _ := Step();
        case Place(t) => Create(t);
        case Cancel(link) => CancelOrder(link);
        case Protect(symbol, stop, target) => SetTradingStop(symbol, stop, target);
        case Read(symbol) => ReadPosition(symbol);
        case SetLeverage(l) => leverage := l;
        case FailStops(n) => failStops := n;
        case Drain => fillLog := [];
      }
    }

    /**
     * Any sequence of actions, and what the account is worth afterwards: at any marks it has moved by what every fill
     * of the run gained, less the fees and the funding paid, and the funding paid is what the funding log adds up to.
     */
    method PerformAll(actions: seq<Action>)
      requires Valid()
      modifies this
      ensures Contents() == Run(c, old(Contents()), actions)
      ensures forall marks: int -> real ::
                Worth(Contents(), marks)
                == Worth(old(Contents()), marks) - (feesPaid - old(feesPaid)) - (fundingPaid - old(fundingPaid))
                + Gains(Fills(c, old(Contents()), actions), marks)
      ensures fundingPaid - Charged(fundingLog) == old(fundingPaid) - Charged(old(fundingLog))
    {
      hide Act, Worth, Gains, Fills, Charged, Gain;
      forall marks: int -> real
        ensures var after := Run(c, Contents(), actions);
                && Worth(after, marks)
                   == Worth(Contents(), marks) - (after.feesPaid - feesPaid) - (after.purse.fundingPaid - fundingPaid)
                      + Gains(Fills(c, Contents(), actions), marks)
                && after.purse.fundingPaid - Charged(after.purse.log) == fundingPaid - Charged(fundingLog) {
        EquityIdentity(c, Contents(), actions, marks);
      }
      EquityIdentity(c, Contents(), actions, (x: int) => 0.0);
      ghost var start := Contents();
      for i := 0 to |actions|
        invariant Run(c, start, actions) == Run(c, Contents(), actions[i..])
      {
        assert actions[i..][1..] == actions[i + 1..];
        Perform(actions[i]);
      }
    }

    // ---------------------------------------------------------------- restart

    /**
     * `to_state`: everything that changes as the run proceeds, with the data it was priced on identified by its digest.
     */
    method ToState(digest: Data -> int) returns (r: Saved)
      ensures r.schema == SCHEMA && r.fingerprint == digest(c.data) && r.params == c.params
      ensures Restored(r) == Contents()
    {
      hide PositionsOf, VolumesOf;
      var rows := SavePositions(positions);
      var keys := SaveKeys(funded);
      var used := SaveVolumes(volumeUsed);
      r := Saved(SCHEMA, digest(c.data), c.params, index, leverage, cash, orderSeq, orders, rows, feesPaid, fundingPaid,
                 fillLog, fundingLog, liquidations, keys, unprotected, exits, failStops, forfeited, unprinted, used);
      assert (set k | k in keys) == funded;
    }

    /** The body of `from_state`, once the record is known to be resumable. */
    constructor Resume(c: Config, r: Saved)
      requires 0.0 <= c.params.maintenance < 1.0
      ensures Valid() && this.c == c && Contents() == Restored(r)
    {
      hide PositionsOf, VolumesOf;
      var rows := LoadPositions(r.positions);
      var used := LoadVolumes(r.volumeUsed);
      this.c, index, leverage := c, r.index, r.leverage;
      cash, fundingPaid, fundingLog, funded, unprinted := r.cash, r.fundingPaid, r.fundingLog,
                                                          (set k | k in r.funded), r.unprinted;
      positions, orders, orderSeq, feesPaid := rows, r.orders, r.orderSeq, r.feesPaid;
      fillLog, exits, liquidations, unprotected := r.fillLog, r.exits, r.liquidations, r.unprotected;
      failStops, forfeited, volumeUsed := r.failStops, r.forfeited, used;
    }

    /** `from_state`: a record of another schema, or written on other data, is refused. */
    static method FromState(data: Data, r: Saved, digest: Data -> int) returns (ex: Option<LinearSimulatedExchange>)
      requires 0.0 <= r.params.maintenance < 1.0
      ensures ex.Some? <==> r.schema == SCHEMA && digest(data) == r.fingerprint
      ensures ex.Some? ==> fresh(ex.value) && ex.value.Valid() && ex.value.c == Config(data, r.params)
                           && ex.value.Contents() == Restored(r)
    {
      if r.schema != SCHEMA || digest(data) != r.fingerprint { return None; }
      var resumed := new LinearSimulatedExchange.Resume(Config(data, r.params), r);
      ex := Some(resumed);
    }

    /**
     * A run stopped anywhere, saved, and resumed on the same data in a new simulator ends exactly where the unbroken
     * run would have.
     */
    method RunInTwo(first: seq<Action>, rest: seq<Action>, digest: Data -> int) returns (ex: LinearSimulatedExchange)
      requires Valid()
      modifies this
      ensures fresh(ex) && ex.Valid() && ex.c == c
      ensures ex.Contents() == Run(c, old(Contents()), first + rest)
    {
      hide Run, Restored;
      RunSplits(c, Contents(), first, rest);
      PerformAll(first);
      var saved := ToState(digest);
      var resumed := FromState(c.data, saved, digest);
      ex := resumed.value;
      ex.PerformAll(rest);
    }
  }
}
