/** The simulator's money: what it is worth at any marks is explained by its fills, its fees and its funding. */
module PerpAccounting {
  import opened Basics
  import opened Sums
  import opened PerpVenue

  // ---------------------------------------------------------------- what is conserved

  function Worths(positions: map<int, Position>, marks: int -> real): map<int, real>
  {
    map x | x in positions :: Unrealised(positions[x], marks(x))
  }

  /** Cash plus unrealised PnL at the given marks. */
  function Worth(s: State, marks: int -> real): real { s.purse.cash + Total(Worths(s.positions, marks)) }

  /** A long gains what the price has risen on its quantity, a short what it has fallen. */
  lemma GainIsMove(side: Side, qty: real, price: real, later: real)
    ensures Gain(side, qty, price, later) == if side == Buy then qty * (later - price) else qty * (price - later)
  {
    Signed(Dir(side), qty, later - price);
  }

  /** What fills have gained at the given marks: signed quantity times the move since each. */
  function Gains(fills: seq<Fill>, marks: int -> real): real
    decreases |fills|
  {
    if fills == [] then 0.0
    else
      var f := fills[|fills| - 1];
      Gains(fills[..|fills| - 1], marks) + Gain(f.side, f.qty, f.price, marks(f.symbol))
  }

  function Charged(log: seq<Charge>): real
    decreases |log|
  {
    if log == [] then 0.0 else Charged(log[..|log| - 1]) + log[|log| - 1].paid
  }

  /** The quantity no fill, exit or settlement changes. */
  function Net(s: State, marks: int -> real): real
  {
    Worth(s, marks) + s.feesPaid + s.purse.fundingPaid - Gains(s.fillLog, marks)
  }

  ghost predicate Conserves(s: State, after: State, marks: int -> real)
  {
    && Net(after, marks) == Net(s, marks) && s.fillLog <= after.fillLog
    && after.purse.fundingPaid - Charged(after.purse.log) == s.purse.fundingPaid - Charged(s.purse.log)
  }

  // ---------------------------------------------------------------- positions

  lemma Put(positions: map<int, Position>, x: int, p: Position, marks: int -> real)
    ensures Total(Worths(positions[x := p], marks))
         == Total(Worths(positions, marks)) + Unrealised(p, marks(x))
            - (if x in positions then Unrealised(positions[x], marks(x)) else 0.0)
  {
    PutIn(Worths(positions, marks), x, Unrealised(p, marks(x)));
    assert Worths(positions[x := p], marks) == Worths(positions, marks)[x := Unrealised(p, marks(x))];
  }

  lemma Remove(positions: map<int, Position>, x: int, marks: int -> real)
    requires x in positions
    ensures Total(Worths(positions - {x}, marks))
         == Total(Worths(positions, marks)) - Unrealised(positions[x], marks(x))
  {
    TakeOut(Worths(positions, marks), x);
    assert Worths(positions - {x}, marks) == Worths(positions, marks) - {x};
  }

  lemma Averaged(side: Side, size: real, entry: real, qty: real, price: real, mark: real, average: real)
    requires size + qty > 0.0 && average == (size * entry + qty * price) / (size + qty)
    ensures Gain(side, size + qty, average, mark) == Gain(side, size, entry, mark) + Gain(side, qty, price, mark)
  {
    var total := size + qty;
    assert average * total == size * entry + qty * price;
    assert total * (mark - average) == size * (mark - entry) + qty * (mark - price);
    Signed(Dir(side), total, mark - average);
    Signed(Dir(side), size, mark - entry);
    Signed(Dir(side), qty, mark - price);
  }

  lemma Signed(d: real, x: real, y: real)
    ensures d * x * y == d * (x * y)
  {
  }

  /** Taking `closing` off a position at a price realises what that part had gained. */
  lemma Reduced(side: Side, size: real, entry: real, closing: real, price: real, mark: real)
    ensures Gain(side, size - closing, entry, mark) + Gain(side, closing, entry, price)
         == Gain(side, size, entry, mark) + Gain(Opposite(side), closing, price, mark)
  {
    assert (size - closing) * (mark - entry) + closing * (price - entry)
        == size * (mark - entry) - closing * (mark - price);
    Signed(Dir(side), size - closing, mark - entry);
    Signed(Dir(side), closing, price - entry);
    Signed(Dir(side), size, mark - entry);
    Signed(Dir(Opposite(side)), closing, mark - price);
  }

  lemma Added(side: Side, part: real, rest: real, price: real, mark: real)
    ensures Gain(side, part + rest, price, mark) == Gain(side, part, price, mark) + Gain(side, rest, price, mark)
  {
  }

  lemma Empty(p: Position, mark: real)
    requires p.size <= 0.0
    ensures Unrealised(p, mark) == 0.0
  {
  }

  lemma NoGain(side: Side, price: real, mark: real)
    ensures Gain(side, 0.0, price, mark) == 0.0
  {
  }

  // ---------------------------------------------------------------- fills

  /** A settlement moves cash and the funding paid by the same amount, and logs it. */
  lemma ChargeConserves(c: Config, w: Purse, symbol: int, settle: int, snap: Snapshot, size: real, mark: real,
                        tag: Option<int>)
    ensures var after := ChargeSettlement(c, w, symbol, settle, snap, size, mark, tag);
            after.cash + after.fundingPaid == w.cash + w.fundingPaid
            && after.fundingPaid - Charged(after.log) == w.fundingPaid - Charged(w.log)
  {
    var after := ChargeSettlement(c, w, symbol, settle, snap, size, mark, tag);
    if after != w { assert after.log[..|after.log| - 1] == w.log; }
  }

  lemma PurseConserves(s: State, w: Purse, marks: int -> real)
    requires w.cash + w.fundingPaid == s.purse.cash + s.purse.fundingPaid
    requires w.fundingPaid - Charged(w.log) == s.purse.fundingPaid - Charged(s.purse.log)
    ensures Conserves(s, s.(purse := w), marks)
  {
  }

  lemma LeavingConserves(c: Config, s: State, symbol: int, p: Position, closing: real, link: int, resolving: bool,
                         marks: int -> real)
    ensures var after := ChargeLeaving(c, s, symbol, p, closing, link, resolving);
            Conserves(s, after, marks) && after == s.(purse := after.purse)
  {
    var boundary := Boundary(c, symbol, s.index);
    if !resolving && boundary.Some? && p.openedAt != s.index {
      var bar := BarAt(c, symbol, s.index);
      ChargeConserves(c, s.purse, symbol, boundary.value, SnapshotOf(c, symbol, p, bar), closing, bar.close,
                      Some(link));
      PurseConserves(s, ChargeLeaving(c, s, symbol, p, closing, link, resolving).purse, marks);
    }
  }

  lemma PutWorth(s: State, symbol: int, p: Position, marks: int -> real)
    ensures Worth(s.(positions := s.positions[symbol := p]), marks)
         == Worth(s, marks) + Unrealised(p, marks(symbol))
            - (if symbol in s.positions then Unrealised(s.positions[symbol], marks(symbol)) else 0.0)
  {
    Put(s.positions, symbol, p, marks);
  }

  lemma RemoveWorth(s: State, symbol: int, marks: int -> real)
    requires symbol in s.positions
    ensures Worth(s.(positions := s.positions - {symbol}), marks)
         == Worth(s, marks) - Unrealised(s.positions[symbol], marks(symbol))
  {
    Remove(s.positions, symbol, marks);
  }

  lemma OpenedGain(s: State, side: Side, qty: Qty, price: real, mark: real)
    ensures Unrealised(Opened(s, side, qty, price), mark) == Gain(side, qty, price, mark)
  {
  }

  lemma EnlargedGain(p: Position, qty: Qty, price: real, boundary: Option<int>, mark: real)
    requires p.size > 0.0
    ensures Unrealised(Enlarged(p, qty, price, boundary), mark) == Unrealised(p, mark) + Gain(p.side, qty, price, mark)
  {
    Averaged(p.side, p.size, p.entry, qty, price, mark, (p.size * p.entry + qty * price) / (p.size + qty));
  }

  lemma ReducedGain(p: Position, qty: Qty, price: real, mark: real)
    requires qty < p.size
    ensures Unrealised(p.(size := p.size - qty), mark) + Gain(p.side, qty, p.entry, price)
         == Unrealised(p, mark) + Gain(Opposite(p.side), qty, price, mark)
  {
    Reduced(p.side, p.size, p.entry, qty, price, mark);
  }

  lemma ClosedGain(p: Position, price: real, mark: real)
    ensures Gain(p.side, p.size, p.entry, price) == Unrealised(p, mark) + Gain(Opposite(p.side), p.size, price, mark)
  {
    Reduced(p.side, p.size, p.entry, p.size, price, mark);
    NoGain(p.side, p.entry, mark);
  }

  lemma FlippedGain(s: State, p: Position, side: Side, qty: Qty, price: real, mark: real)
    requires qty > p.size && p.side == Opposite(side)
    ensures Unrealised(Opened(s, side, qty - p.size, price), mark) + Gain(p.side, p.size, p.entry, price)
         == Unrealised(p, mark) + Gain(side, qty, price, mark)
  {
    ClosedGain(p, price, mark);
    Added(side, p.size, qty - p.size, price, mark);
    OpenedGain(s, side, qty - p.size, price, mark);
  }

  lemma LessWorth(s: State, symbol: int, p: Position, side: Side, qty: Qty, price: real, marks: int -> real)
    requires Holds(s, symbol) && s.positions[symbol] == p && p.side == Opposite(side) && qty > 0.0
    ensures Worth(Lessened(s, symbol, p, side, qty, price), marks) + Gain(p.side, Min(qty, p.size), p.entry, price)
         == Worth(s, marks) + Gain(side, qty, price, marks(symbol))
  {
    if qty < p.size {
      ReducedGain(p, qty, price, marks(symbol));
      PutWorth(s, symbol, p.(size := p.size - qty), marks);
    } else if qty > p.size {
      FlippedGain(s, p, side, qty, price, marks(symbol));
      PutWorth(s, symbol, Opened(s, side, qty - p.size, price), marks);
    } else {
      ClosedGain(p, price, marks(symbol));
      RemoveWorth(s, symbol, marks);
    }
  }

  lemma EnlargedWorth(s: State, symbol: int, qty: Qty, price: real, boundary: Option<int>, marks: int -> real)
    requires Holds(s, symbol) && qty > 0.0
    ensures var p := s.positions[symbol];
            Worth(s.(positions := s.positions[symbol := Enlarged(p, qty, price, boundary)]), marks)
            == Worth(s, marks) + Gain(p.side, qty, price, marks(symbol))
  {
    EnlargedGain(s.positions[symbol], qty, price, boundary, marks(symbol));
    PutWorth(s, symbol, Enlarged(s.positions[symbol], qty, price, boundary), marks);
  }

  lemma OpenedWorth(s: State, symbol: int, side: Side, qty: Qty, price: real, marks: int -> real)
    requires !Holds(s, symbol)
    ensures Worth(s.(positions := s.positions[symbol := Opened(s, side, qty, price)]), marks)
         == Worth(s, marks) + Gain(side, qty, price, marks(symbol))
  {
    OpenedGain(s, side, qty, price, marks(symbol));
    PutWorth(s, symbol, Opened(s, side, qty, price), marks);
    if symbol in s.positions { Empty(s.positions[symbol], marks(symbol)); }
  }

  /** What a trade, its fee apart, does to what the account is worth. */
  ghost predicate Traded(s: State, after: State, gain: real, marks: int -> real)
  {
    && Worth(after, marks) + after.purse.fundingPaid == Worth(s, marks) + s.purse.fundingPaid + gain
    && after.purse.fundingPaid - Charged(after.purse.log) == s.purse.fundingPaid - Charged(s.purse.log)
    && after.feesPaid == s.feesPaid && after.fillLog == s.fillLog && after.orders == s.orders
  }

  lemma CashWorth(s: State, delta: real, marks: int -> real)
    ensures Worth(Cash(s, delta), marks) == Worth(s, marks) + delta
  {
  }

  lemma ReducingTraded(c: Config, s: State, symbol: int, side: Side, link: int, qty: Qty, price: real,
                       resolving: bool, marks: int -> real)
    requires qty > 0.0 && Holds(s, symbol) && s.positions[symbol].side != side
    ensures Traded(s, ReduceBy(c, s, symbol, side, link, qty, price, resolving),
                   Gain(side, qty, price, marks(symbol)), marks)
  {
    var p := s.positions[symbol];
    var charged := ChargeLeaving(c, s, symbol, p, Min(qty, p.size), link, resolving);
    LeavingConserves(c, s, symbol, p, Min(qty, p.size), link, resolving, marks);
    var realised := Gain(p.side, Min(qty, p.size), p.entry, price);
    CashWorth(charged, realised, marks);
    LessWorth(Cash(charged, realised), symbol, p, side, qty, price, marks);
  }

  lemma OpeningTraded(c: Config, s: State, symbol: int, side: Side, qty: Qty, price: real, fee: real,
                      marks: int -> real)
    requires qty > 0.0 && !Holds(s, symbol) && OpenNew(c, s, symbol, side, qty, price, fee).Some?
    ensures Traded(s, OpenNew(c, s, symbol, side, qty, price, fee).value, Gain(side, qty, price, marks(symbol)), marks)
  {
    OpenedWorth(s, symbol, side, qty, price, marks);
  }

  lemma AddingTraded(c: Config, s: State, symbol: int, qty: Qty, price: real, fee: real, resolving: bool,
                     marks: int -> real)
    requires qty > 0.0 && Holds(s, symbol) && AddTo(c, s, symbol, qty, price, fee, resolving).Some?
    ensures Traded(s, AddTo(c, s, symbol, qty, price, fee, resolving).value,
                   Gain(s.positions[symbol].side, qty, price, marks(symbol)), marks)
  {
    EnlargedWorth(s, symbol, qty, price, if resolving then None else Boundary(c, symbol, s.index), marks);
  }

  /** A trade changes the worth by what its own fill gains, and by the funding it settles on the way. */
  lemma TradeWorth(c: Config, s: State, symbol: int, side: Side, link: int, qty: Qty, price: real, fee: real,
                   resolving: bool,
                   marks: int -> real)
    requires qty > 0.0 && Trade(c, s, symbol, side, link, qty, price, fee, resolving).Some?
    ensures Traded(s, Trade(c, s, symbol, side, link, qty, price, fee, resolving).value,
                   Gain(side, qty, price, marks(symbol)), marks)
  {
    if !Holds(s, symbol) {
      OpeningTraded(c, s, symbol, side, qty, price, fee, marks);
    } else if s.positions[symbol].side == side {
      AddingTraded(c, s, symbol, qty, price, fee, resolving, marks);
    } else {
      ReducingTraded(c, s, symbol, side, link, qty, price, resolving, marks);
    }
  }

  lemma GainsAppend(fills: seq<Fill>, f: Fill, marks: int -> real)
    ensures Gains(fills + [f], marks) == Gains(fills, marks) + Gain(f.side, f.qty, f.price, marks(f.symbol))
  {
    assert (fills + [f])[..|fills|] == fills;
  }

  lemma RecordConserves(c: Config, s: State, after: State, k: nat, qty: Qty, price: real, fee: real, market: bool,
                        marks: int -> real)
    requires k < |after.orders| && qty > 0.0
    requires Traded(s, after, Gain(after.orders[k].side, qty, price, marks(after.orders[k].symbol)), marks)
    ensures Conserves(s, Record(c, after, k, qty, price, fee, market), marks)
    ensures |Record(c, after, k, qty, price, fee, market).orders| == |s.orders|
  {
    var done := Record(c, after, k, qty, price, fee, market);
    CashWorth(after, -fee, marks);
    GainsAppend(s.fillLog, done.fillLog[|s.fillLog|], marks);
  }

  lemma OrderConserves(s: State, k: nat, o: Order, marks: int -> real)
    requires k < |s.orders|
    ensures Conserves(s, SetOrder(s, k, o), marks)
  {
  }

  lemma Unchanged(s: State, marks: int -> real)
    ensures Conserves(s, s, marks)
  {
  }

  lemma Then(a: State, b: State, c: State, marks: int -> real)
    requires Conserves(a, b, marks) && Conserves(b, c, marks)
    ensures Conserves(a, c, marks)
  {
  }

  lemma TradedOrders(s: State, after: State, gain: real, marks: int -> real)
    requires Traded(s, after, gain, marks)
    ensures after.orders == s.orders
  {
  }

  lemma RefuseConserves(s: State, k: nat, marks: int -> real)
    requires k < |s.orders|
    ensures Conserves(s, Refuse(s, k), marks) && |Refuse(s, k).orders| == |s.orders|
  {
  }

  lemma FillConserves(c: Config, s: State, k: nat, qty: Qty, price: real, fee: real, market: bool, resolving: bool,
                      marks: int -> real)
    requires k < |s.orders| && qty > 0.0
    ensures Conserves(s, FillOrder(c, s, k, qty, price, fee, market, resolving), marks)
    ensures |FillOrder(c, s, k, qty, price, fee, market, resolving).orders| == |s.orders|
  {
    hide Trade, Record, Conserves, Traded, Gain;
    var o := s.orders[k];
    RefuseConserves(s, k, marks);
    var traded := Trade(c, s, o.symbol, o.side, o.link, qty, price, fee, resolving);
    if traded.Some? {
      TradeWorth(c, s, o.symbol, o.side, o.link, qty, price, fee, resolving, marks);
      TradedOrders(s, traded.value, Gain(o.side, qty, price, marks(o.symbol)), marks);
      RecordConserves(c, s, traded.value, k, qty, price, fee, market, marks);
    }
  }

  lemma ExecuteQtyConserves(c: Config, s: State, k: nat, remaining: Qty, price: real, taker: bool, resolving: bool,
                            marks: int -> real)
    requires k < |s.orders|
    ensures Conserves(s, ExecuteQty(c, s, k, remaining, price, taker, resolving), marks)
    ensures |ExecuteQty(c, s, k, remaining, price, taker, resolving).orders| == |s.orders|
  {
    hide FillOrder, Conserves, FillPrice, FeeOn, Available, Immediate;
    var o := s.orders[k];
    var qty := Available(c, s, o.symbol, remaining);
    Unchanged(s, marks);
    OrderConserves(s, k, o.(status := Cancelled), marks);
    if qty > 0.0 {
      var fillPrice := FillPrice(c, o.side, price, taker);
      FillConserves(c, s, k, qty, fillPrice, FeeOn(c, qty, fillPrice, taker), Immediate(o, resolving), resolving,
                    marks);
    }
  }

  lemma ExecuteConserves(c: Config, s: State, k: nat, price: real, taker: bool, resolving: bool, marks: int -> real)
    requires k < |s.orders|
    ensures Conserves(s, Execute(c, s, k, price, taker, resolving), marks)
    ensures |Execute(c, s, k, price, taker, resolving).orders| == |s.orders|
  {
    hide ExecuteQty, Conserves;
    var o := s.orders[k];
    var remaining := o.qty - o.cum;
    RefuseConserves(s, k, marks);
    if o.qty > 0.0 && remaining > 0.0 {
      ExecuteQtyConserves(c, s, k, remaining, price, taker, resolving, marks);
      if o.reduceOnly && Holds(s, o.symbol) {
        var size := s.positions[o.symbol].size;
        var cut := SetOrder(s, k, o.(qty := o.cum + size));
        OrderConserves(s, k, o.(qty := o.cum + size), marks);
        ExecuteQtyConserves(c, cut, k, size, price, taker, resolving, marks);
        Then(s, cut, ExecuteQty(c, cut, k, size, price, taker, resolving), marks);
      }
    }
  }

  /** An exit realises the whole position, its fee and any forfeit booked with the fees. */
  lemma CloseConserves(c: Config, s: State, symbol: int, price: real, purpose: Purpose, marks: int -> real)
    ensures Conserves(s, CloseAt(c, s, symbol, price, purpose), marks)
    ensures CloseAt(c, s, symbol, price, purpose).orders == s.orders
  {
    if Holds(s, symbol) {
      var p, after := s.positions[symbol], CloseAt(c, s, symbol, price, purpose);
      var fill := after.fillLog[|s.fillLog|];
      ClosedGain(p, fill.price, marks(symbol));
      RemoveWorth(s, symbol, marks);
      GainsAppend(s.fillLog, fill, marks);
    }
  }

  // ---------------------------------------------------------------- bars

  lemma {:induction false} FundAtOpenConserves(c: Config, w: Purse, symbol: int, bar: Bar, index: int,
                                               snap: Snapshot, size: real,
                                               late: map<int, real>, settles: seq<int>)
    ensures var after := FundAtOpen(c, w, symbol, bar, index, snap, size, late, settles);
            after.cash + after.fundingPaid == w.cash + w.fundingPaid
            && after.fundingPaid - Charged(after.log) == w.fundingPaid - Charged(w.log)
    decreases |settles|
  {
    hide ChargeSettlement;
    if settles != [] {
      var last := |settles| - 1;
      FundAtOpenConserves(c, w, symbol, bar, index, snap, size, late, settles[..last]);
      var mid := FundAtOpen(c, w, symbol, bar, index, snap, size, late, settles[..last]);
      ChargeConserves(c, mid, symbol, settles[last], snap, size - LateAt(late, settles[last]), bar.open, None);
      ChargeConserves(c, mid, symbol, settles[last], snap, size, bar.open, None);
    }
  }

  lemma {:induction false} FundInsideConserves(c: Config, w: Purse, symbol: int, bar: Bar, snap: Snapshot,
                                               sizeStart: real, sizeEnd: real,
                                               stillHeld: bool, settles: seq<int>)
    ensures var after := FundInside(c, w, symbol, bar, snap, sizeStart, sizeEnd, stillHeld, settles);
            after.cash + after.fundingPaid == w.cash + w.fundingPaid
            && after.fundingPaid - Charged(after.log) == w.fundingPaid - Charged(w.log)
    decreases |settles|
  {
    hide ChargeSettlement, SettledRate;
    if settles != [] {
      var last := |settles| - 1;
      FundInsideConserves(c, w, symbol, bar, snap, sizeStart, sizeEnd, stillHeld, settles[..last]);
      var mid := FundInside(c, w, symbol, bar, snap, sizeStart, sizeEnd, stillHeld, settles[..last]);
      ChargeConserves(c, mid, symbol, settles[last], snap, sizeStart, Max(bar.open, bar.close), None);
      ChargeConserves(c, mid, symbol, settles[last], snap, sizeEnd, Min(bar.open, bar.close), None);
    }
  }

  /** Nothing but logs, orders or the index differs. */
  ghost predicate SameMoney(s: State, after: State)
  {
    after.purse == s.purse && after.positions == s.positions && after.feesPaid == s.feesPaid
    && after.fillLog == s.fillLog
  }

  lemma SameMoneyConserves(s: State, after: State, marks: int -> real)
    requires SameMoney(s, after)
    ensures Conserves(s, after, marks)
  {
  }

  lemma ExitConserves(c: Config, s: State, symbol: int, bar: Bar, marks: int -> real)
    requires 0.0 <= c.params.maintenance < 1.0
    ensures Conserves(s, ExitPosition(c, s, symbol, bar), marks)
    ensures ExitPosition(c, s, symbol, bar).orders == s.orders
  {
    hide CloseAt, Decide, Conserves;
    var noted := NoteUnprotected(s, symbol, bar);
    SameMoneyConserves(s, noted, marks);
    match Decide(c, s, symbol, bar) {
      case Stay =>
      case AtStop(price) =>
        CloseConserves(c, noted, symbol, price, Stop, marks);
        Then(s, noted, CloseAt(c, noted, symbol, price, Stop), marks);
      case AtTarget(price) =>
        CloseConserves(c, noted, symbol, price, TakeProfit, marks);
        Then(s, noted, CloseAt(c, noted, symbol, price, TakeProfit), marks);
      case AtLiquidation(price) =>
        if symbol in noted.positions {
          var p := noted.positions[symbol];
          var logged := noted.(liquidations := noted.liquidations
          + [Liquidation(symbol, noted.index, price, p.size, p.side, p.entry)]);
          SameMoneyConserves(s, logged, marks);
          CloseConserves(c, logged, symbol, price, Liquidated, marks);
          Then(s, logged, CloseAt(c, logged, symbol, price, Liquidated), marks);
        }
    }
  }

  lemma {:induction false} RestConserves(c: Config, s: State, symbol: int, bar: Bar, n: nat, marks: int -> real)
    ensures Conserves(s, RestAll(c, s, symbol, bar, n), marks)
  {
    hide Execute, Conserves;
    Unchanged(s, marks);
    if n > 0 {
      RestConserves(c, s, symbol, bar, n - 1, marks);
      var mid := RestAll(c, s, symbol, bar, n - 1);
      if n - 1 < |mid.orders| {
        ExecuteConserves(c, mid, n - 1, mid.orders[n - 1].price, false, true, marks);
        Then(s, mid, Execute(c, mid, n - 1, mid.orders[n - 1].price, false, true), marks);
      }
    }
  }

  lemma ResolvePricesConserves(c: Config, s: State, symbol: int, marks: int -> real)
    requires 0.0 <= c.params.maintenance < 1.0
    ensures Conserves(s, ResolvePrices(c, s, symbol), marks)
  {
    hide ExitPosition, RestAll, Conserves;
    var bar := BarAt(c, symbol, s.index);
    var exited := ExitPosition(c, s, symbol, bar);
    var rested := RestAll(c, exited, symbol, bar, |s.orders|);
    ExitConserves(c, s, symbol, bar, marks);
    RestConserves(c, exited, symbol, bar, |s.orders|, marks);
    SameMoneyConserves(rested, CancelOrphans(rested, symbol), marks);
    Then(s, exited, rested, marks);
    Then(s, rested, CancelOrphans(rested, symbol), marks);
  }

  lemma ResolveBarConserves(c: Config, s: State, symbol: int, marks: int -> real)
    requires 0.0 <= c.params.maintenance < 1.0
    ensures Conserves(s, ResolveBar(c, s, symbol), marks)
  {
    hide ResolvePrices, FundAtOpen, FundInside, Conserves, SettlementsIn, SnapshotOf;
    if !Holds(s, symbol) {
      ResolvePricesConserves(c, s, symbol, marks);
    } else {
      var bar, settles, p := BarAt(c, symbol, s.index), SettlementsIn(c, symbol, s.index), s.positions[symbol];
      var snap := SnapshotOf(c, symbol, p, bar);
      FundAtOpenConserves(c, s.purse, symbol, bar, s.index, snap, p.size, p.lateAdds, settles);
      var charged := s.(purse := FundAtOpen(c, s.purse, symbol, bar, s.index, snap, p.size, p.lateAdds, settles));
      PurseConserves(s, charged.purse, marks);
      ResolvePricesConserves(c, charged, symbol, marks);
      var after := ResolvePrices(c, charged, symbol);
      Then(s, charged, after, marks);
      var held := StillHeld(after, symbol, snap);
      var sizeEnd := if held then after.positions[symbol].size else 0.0;
      FundInsideConserves(c, after.purse, symbol, bar, snap, p.size, sizeEnd, held, settles);
      PurseConserves(after, FundInside(c, after.purse, symbol, bar, snap, p.size, sizeEnd, held, settles), marks);
      Then(s, after, ResolveBar(c, s, symbol), marks);
    }
  }

  lemma {:induction false} ResolveAllConserves(c: Config, s: State, symbols: seq<int>, marks: int -> real)
    requires 0.0 <= c.params.maintenance < 1.0
    ensures Conserves(s, ResolveAll(c, s, symbols), marks)
    decreases |symbols|
  {
    hide ResolveBar, Conserves;
    Unchanged(s, marks);
    if symbols != [] {
      var last := |symbols| - 1;
      var mid := ResolveAll(c, s, symbols[..last]);
      ResolveAllConserves(c, s, symbols[..last], marks);
      ResolveBarConserves(c, mid, symbols[last], marks);
      Then(s, mid, ResolveBar(c, mid, symbols[last]), marks);
    }
  }

  // ---------------------------------------------------------------- runs

  /** Every action but the draining of the fill log conserves. */
  lemma ActConserves(c: Config, s: State, a: Action, marks: int -> real)
    requires 0.0 <= c.params.maintenance < 1.0 && a != Drain
    ensures Conserves(s, Act(c, s, a), marks)
  {
    hide ResolveAll, Execute, Conserves;
    Unchanged(s, marks);
    match a {
      case Advance =>
        var next := s.(index := s.index + 1);
        SameMoneyConserves(s, next, marks);
        ResolveAllConserves(c, next, c.data.symbols, marks);
        Then(s, next, ResolveAll(c, next, c.data.symbols), marks);
      case Place(t) => CreateConserves(c, s, t, marks);
      case Protect(symbol, stop, target) => PositionNoted(s, SetStop(s, symbol, stop, target), symbol, marks);
      case Read(symbol) => PositionNoted(s, ReadBack(s, symbol), symbol, marks);
      case Cancel(link) => SameMoneyConserves(s, s.(orders := CancelFrom(s.orders, link)), marks);
      case SetLeverage(leverage) => SameMoneyConserves(s, s.(leverage := leverage), marks);
      case FailStops(n) => SameMoneyConserves(s, s.(failStops := n), marks);
      case Drain =>
    }
  }

  lemma CreateConserves(c: Config, s: State, t: Ticket, marks: int -> real)
    ensures Conserves(s, Create(c, s, t), marks)
  {
    hide Execute, Conserves;
    Unchanged(s, marks);
    if !OnFile(s, t.link) && t.symbol in c.data.bars {
      var o := Order(t.link, t.symbol, t.side, t.limit, t.qty, t.price, if t.conditional then Untriggered else New,
                     0.0, 0.0,
                     PurposeOf(t), t.reduceOnly, 0.0);
      var placed := s.(orderSeq := s.orderSeq + 1, orders := s.orders + [o]);
      SameMoneyConserves(s, placed, marks);
      ExecuteConserves(c, placed, |s.orders|, Mark(c, s, t.symbol), true, false, marks);
      Then(s, placed, Execute(c, placed, |s.orders|, Mark(c, s, t.symbol), true, false), marks);
    }
  }

  /** A position's stop, target or verification says nothing about its worth. */
  lemma PositionNoted(s: State, after: State, symbol: int, marks: int -> real)
    requires after.purse == s.purse && after.feesPaid == s.feesPaid && after.fillLog == s.fillLog
    requires after.positions == s.positions ||
             (symbol in s.positions && symbol in after.positions
              && after.positions == s.positions[symbol := after.positions[symbol]]
              && after.positions[symbol].side == s.positions[symbol].side
              && after.positions[symbol].size == s.positions[symbol].size
              && after.positions[symbol].entry == s.positions[symbol].entry)
    ensures Conserves(s, after, marks)
  {
    if after.positions != s.positions { Put(s.positions, symbol, after.positions[symbol], marks); }
  }

  /** Every fill a run makes, kept whatever is drained on the way. */
  function Fills(c: Config, s: State, actions: seq<Action>): seq<Fill>
    requires 0.0 <= c.params.maintenance < 1.0
    decreases |actions|
  {
    if actions == [] then []
    else
      var after := Act(c, s, actions[0]);
      (if |s.fillLog| <= |after.fillLog| then after.fillLog[|s.fillLog|..] else []) + Fills(c, after, actions[1..])
  }

  lemma {:induction false} GainsConcat(a: seq<Fill>, b: seq<Fill>, marks: int -> real)
    ensures Gains(a + b, marks) == Gains(a, marks) + Gains(b, marks)
    decreases |b|
  {
    hide Gain;
    if b == [] {
      assert a + b == a;
    } else {
      assert (a + b)[..|a + b| - 1] == a + b[..|b| - 1];
      GainsConcat(a, b[..|b| - 1], marks);
    }
  }

  /**
   * The equity identity, over every run of any actions and at any marks: what the account is worth moves by what the
   * run's fills have gained, less the fees and the funding it paid; and the funding paid is the sum of the funding log.
   */
  lemma {:induction false} EquityIdentity(c: Config, s: State, actions: seq<Action>, marks: int -> real)
    requires 0.0 <= c.params.maintenance < 1.0
    ensures var after := Run(c, s, actions);
            && Worth(after, marks)
               == Worth(s, marks) - (after.feesPaid - s.feesPaid) - (after.purse.fundingPaid - s.purse.fundingPaid)
                  + Gains(Fills(c, s, actions), marks)
            && after.purse.fundingPaid - Charged(after.purse.log) == s.purse.fundingPaid - Charged(s.purse.log)
    decreases |actions|
  {
    hide Act, Worth, Charged, Gain;
    if actions != [] {
      var mid := Act(c, s, actions[0]);
      EquityIdentity(c, mid, actions[1..], marks);
      OneAction(c, s, actions[0], marks);
      GainsConcat(if |s.fillLog| <= |mid.fillLog| then mid.fillLog[|s.fillLog|..] else [],
                  Fills(c, mid, actions[1..]), marks);
    }
  }

  lemma OneAction(c: Config, s: State, a: Action, marks: int -> real)
    requires 0.0 <= c.params.maintenance < 1.0
    ensures var after := Act(c, s, a);
            && Worth(after, marks)
               == Worth(s, marks) - (after.feesPaid - s.feesPaid) - (after.purse.fundingPaid - s.purse.fundingPaid)
                  + Gains(if |s.fillLog|
                             <= |after.fillLog| then after.fillLog[|s.fillLog|..] else [], marks)
            && after.purse.fundingPaid - Charged(after.purse.log) == s.purse.fundingPaid - Charged(s.purse.log)
  {
    hide Gain, Step, Create, SetStop, ReadBack, Worth;
    var after := Act(c, s, a);
    if a == Drain {
      WorthKept(s, after, marks);
      if s.fillLog == [] { assert after.fillLog[|s.fillLog|..] == []; }
    } else {
      ActConserves(c, s, a, marks);
      var made := after.fillLog[|s.fillLog|..];
      assert after.fillLog == s.fillLog + made;
      GainsConcat(s.fillLog, made, marks);
    }
  }

  lemma WorthKept(s: State, after: State, marks: int -> real)
    requires after.purse == s.purse && after.positions == s.positions
    ensures Worth(after, marks) == Worth(s, marks)
  {
  }

  /**
   * From the start: equity at any marks is the starting cash, less fees and funding, plus what all fills have gained.
   */
  lemma EquityFromStart(c: Config, leverage: real, actions: seq<Action>, marks: int -> real)
    requires 0.0 <= c.params.maintenance < 1.0
    ensures var s := Run(c, Initial(c, leverage), actions);
            && Worth(s, marks) == c.params.startingCash - s.feesPaid - s.purse.fundingPaid
                                  + Gains(Fills(c, Initial(c, leverage), actions), marks)
            && s.purse.fundingPaid == Charged(s.purse.log)
  {
    hide Run, Fills;
    EquityIdentity(c, Initial(c, leverage), actions, marks);
    assert Worths(Initial(c, leverage).positions, marks) == map[];
  }

  /** The simulator's own equity is that worth at the current closes. */
  lemma EquityIsWorth(c: Config, s: State)
    ensures Equity(c, s) == Worth(s, (x: int) => Mark(c, s, x))
  {
    hide Gain;
    assert Worths(s.positions, (x: int) => Mark(c, s, x)) == map x | x in s.positions ::
                                                               Unrealised(s.positions[x], Mark(c, s, x));
  }
}
