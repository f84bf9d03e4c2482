/**
 What one step of the perpetual simulator does (`LinearSimulatedExchange`), as functions on its state: the data it is
 priced on, the ledger of cash, positions and orders, the funding clock, and the resolution of a bar.
 */
module PerpVenue {
  import opened Basics
  import opened Sums

  /** Bybit settles funding every eight hours. */
  const FUNDING_INTERVAL_MS := 8 * 3_600_000
  const FUNDING_STAMP_TOLERANCE_MS := 60_000

  type Qty = x: real | x >= 0.0

  // ---------------------------------------------------------------- data

  datatype Bar = Bar(start: int, open: real, high: real, low: real, close: real, volume: real)

  /** The bars of each symbol, and its funding prints in time order. */
  datatype Data = Data(symbols: seq<int>, bars: map<int, seq<Bar>>, funding: map<int, seq<(int, real)>>)

  datatype Params = Params(startingCash: real, takerFee: real, makerFee: real, slippage: real, touchFills: bool,
                           fundingRate: real, maintenance: real, spreadBps: Option<real>,
                           maxParticipation: Option<real>,
                           forfeit: bool)

  datatype Config = Config(data: Data, params: Params)

  function Series(c: Config, symbol: int): seq<Bar> { if symbol in c.data.bars then c.data.bars[symbol] else [] }

  /** The bar at an index; outside the data, a bar of zeros that no step reaches. */
  function BarAt(c: Config, symbol: int, i: int): Bar
  {
    if 0 <= i < |Series(c, symbol)| then Series(c, symbol)[i] else Bar(0, 0.0, 0.0, 0.0, 0.0, 0.0)
  }

  // ---------------------------------------------------------------- state

  datatype Side = Buy | Sell

  function Dir(side: Side): real { if side == Buy then 1.0 else -1.0 }

  function Opposite(side: Side): Side { if side == Buy then Sell else Buy }

  /** What a quantity bought or sold at a price gains by a later one. */
  function Gain(side: Side, qty: real, price: real, later: real): real { Dir(side) * qty * (later - price) }

  datatype Position = Position(side: Side, size: Qty, entry: real, stop: real, takeProfit: real, leverage: real,
                               openedAt: int,
                               lateAdds: map<int, real>, verified: bool)

  datatype Status = New | Untriggered | PartiallyFilled | Filled | Cancelled | Rejected

  datatype Purpose = Entry | Stop | TakeProfit | Liquidated

  datatype Order = Order(link: int, symbol: int, side: Side, limit: bool, qty: real, price: real, status: Status,
                         avgPrice: real, cum: Qty, purpose: Purpose, reduceOnly: bool, feePaid: real)

  /** `link` is None for an exit the position's own stop, target or liquidation made. */
  datatype Fill = Fill(link: Option<int>, symbol: int, side: Side, qty: Qty, price: real, fee: real,
                       purpose: Purpose, bar: int)

  /** What makes a settlement one charge: its symbol and stamp, the position, and the exit it was charged on, if any. */
  datatype Key = Key(symbol: int, settle: int, openedAt: int, tag: Option<int>)

  /** A funding log row; the size and tag are kept beside what the source logs so that they can be spoken of. */
  datatype Charge = Charge(symbol: int, settle: int, paid: real, openedMs: int, size: real, tag: Option<int>)

  datatype Purse = Purse(cash: real, fundingPaid: real, log: seq<Charge>, funded: set<Key>, unprinted: nat)

  datatype Liquidation = Liquidation(symbol: int, bar: int, price: real, size: Qty, side: Side, entry: real)

  datatype Unprotected = Unprotected(symbol: int, bar: int, start: int, noStop: bool)

  datatype State = State(index: int, leverage: real, purse: Purse, positions: map<int, Position>, orders: seq<Order>,
                         orderSeq: nat, feesPaid: real, fillLog: seq<Fill>, exits: seq<(Fill, int)>,
                         liquidations: seq<Liquidation>, unprotected: seq<Unprotected>, failStops: nat, forfeited: real,
                         volumeUsed: map<int, (int, real)>)

  function Initial(c: Config, leverage: real): State
  {
    State(0, leverage, Purse(c.params.startingCash, 0.0, [], {}, 0), map[], [], 0, 0.0, [], [], [], [], 0, 0.0, map[])
  }

  predicate Holds(s: State, symbol: int) { symbol in s.positions && s.positions[symbol].size > 0.0 }

  function Unrealised(p: Position, mark: real): real { Gain(p.side, p.size, p.entry, mark) }

  function Mark(c: Config, s: State, symbol: int): real { BarAt(c, symbol, s.index).close }

  function Equity(c: Config, s: State): real
  {
    s.purse.cash + Total(map x | x in s.positions :: Unrealised(s.positions[x], Mark(c, s, x)))
  }

  function Levered(leverage: real): real { Max(0.000000001, leverage) }

  function InitialMargin(s: State): real
  {
    Total(map x | x in s.positions :: s.positions[x].size * s.positions[x].entry / Levered(s.positions[x].leverage))
  }

  function Cash(s: State, delta: real): State { s.(purse := s.purse.(cash := s.purse.cash + delta)) }

  function SetOrder(s: State, k: nat, o: Order): State
    requires k < |s.orders|
  {
    s.(orders := s.orders[k := o])
  }

  // ---------------------------------------------------------------- funding

  /** The last print stamped at or before a time. */
  function LastPrint(rows: seq<(int, real)>, time: int): Option<(int, real)>
    decreases |rows|
  {
    if rows == [] then None
    else if rows[|rows| - 1].0 <= time then Some(rows[|rows| - 1])
    else LastPrint(rows[..|rows| - 1], time)
  }

  function Prints(c: Config, symbol: int): seq<(int, real)>
  {
    if symbol in c.data.funding then c.data.funding[symbol] else []
  }

  /** The rate settled at a nominal instant: a print up to a minute late is its own. */
  function SettledRate(c: Config, symbol: int, settle: int): real
  {
    var row := LastPrint(Prints(c, symbol), settle + FUNDING_STAMP_TOLERANCE_MS);
    if row.Some? then row.value.1 else c.params.fundingRate
  }

  /** Whether that settlement is counted as one no print was stamped at. */
  function Unprinted(c: Config, symbol: int, settle: int): nat
  {
    var row := LastPrint(Prints(c, symbol), settle + FUNDING_STAMP_TOLERANCE_MS);
    if Prints(c, symbol) == [] then 0
    else if row.None? || row.value.0 < settle - FUNDING_STAMP_TOLERANCE_MS then 1
    else 0
  }

  /** Which position a settlement is charged to. */
  datatype Snapshot = Snapshot(side: Side, openedMs: int, openedAt: int)

  function SnapshotOf(c: Config, symbol: int, p: Position, bar: Bar): Snapshot
  {
    Snapshot(p.side, if 0 <= p.openedAt < |Series(c, symbol)| then Series(c, symbol)[p.openedAt].start else bar.start,
             p.openedAt)
  }

  function ChargeSettlement(c: Config, w: Purse, symbol: int, settle: int, snap: Snapshot, size: real, mark: real,
                            tag: Option<int>): Purse
  {
    var key := Key(symbol, settle, snap.openedAt, tag);
    if key in w.funded || size <= 0.0 then w
    else
      var paid := Dir(snap.side) * SettledRate(c, symbol, settle) * size * mark;
      Purse(w.cash - paid, w.fundingPaid + paid, w.log + [Charge(symbol, settle, paid, snap.openedMs, size, tag)],
            w.funded + {key}, w.unprinted + Unprinted(c, symbol, settle))
  }

  function Span(c: Config, symbol: int): int
  {
    var series := Series(c, symbol);
    if |series| < 2 then FUNDING_INTERVAL_MS
    else if series[1].start - series[0].start > 1 then series[1].start - series[0].start
    else 1
  }

  /** The first stamp a bar owns: the end of the bar before it, if that is earlier than its own start. */
  function Begin(c: Config, symbol: int, i: int): int
  {
    var start := BarAt(c, symbol, i).start;
    if 0 < i < |Series(c, symbol)| && BarAt(c, symbol, i - 1).start + Span(c, symbol) < start
    then BarAt(c, symbol, i - 1).start + Span(c, symbol) else start
  }

  function End(c: Config, symbol: int, i: int): int { BarAt(c, symbol, i).start + Span(c, symbol) }

  /** The multiples of the funding interval from `first` up to but not including `end`. */
  function Multiples(first: int, end: int): seq<int>
    decreases end - first
  {
    if first >= end then [] else [first] + Multiples(first + FUNDING_INTERVAL_MS, end)
  }

  function RoundUp(t: int): int { (t + FUNDING_INTERVAL_MS - 1) / FUNDING_INTERVAL_MS * FUNDING_INTERVAL_MS }

  function SettlementsIn(c: Config, symbol: int, i: int): seq<int>
  {
    Multiples(RoundUp(Begin(c, symbol, i)), End(c, symbol, i))
  }

  /** The settlement stamped exactly at the start of the next bar, if there is one. */
  function Boundary(c: Config, symbol: int, i: int): Option<int>
  {
    if 0 <= i + 1 < |Series(c, symbol)| && Series(c, symbol)[i + 1].start % FUNDING_INTERVAL_MS == 0
    then Some(Series(c, symbol)[i + 1].start) else None
  }

  function LateAt(late: map<int, real>, settle: int): real { if settle in late then late[settle] else 0.0 }

  /** One settlement of the bar's list, as the walk before the bar's prices takes it. */
  function FundOneAtOpen(c: Config, w: Purse, symbol: int, bar: Bar, index: int, snap: Snapshot, size: real,
                         late: map<int, real>, settle: int): Purse
  {
    if settle > bar.start then w
    else if settle == bar.start then
      (if snap.openedAt == index - 1 then w
       else ChargeSettlement(c, w, symbol, settle, snap, size - LateAt(late, settle), bar.open, None))
    else ChargeSettlement(c, w, symbol, settle, snap, size, bar.open, None)
  }

  function FundAtOpen(c: Config, w: Purse, symbol: int, bar: Bar, index: int, snap: Snapshot, size: real,
                      late: map<int, real>, settles: seq<int>): Purse
    decreases |settles|
  {
    if settles == [] then w
    else FundOneAtOpen(c, FundAtOpen(c, w, symbol, bar, index, snap, size, late, settles[..|settles| - 1]),
                       symbol, bar, index, snap, size, late, settles[|settles| - 1])
  }

  /** And as the walk after them does: a payment on the size at the open, a receipt on what is still held. */
  function FundOneInside(c: Config, w: Purse, symbol: int, bar: Bar, snap: Snapshot, sizeStart: real, sizeEnd: real,
                         stillHeld: bool, settle: int): Purse
  {
    if settle <= bar.start then w
    else if Dir(snap.side) * SettledRate(c, symbol, settle) > 0.0 then
      ChargeSettlement(c, w, symbol, settle, snap, sizeStart, Max(bar.open, bar.close), None)
    else if stillHeld then ChargeSettlement(c, w, symbol, settle, snap, sizeEnd, Min(bar.open, bar.close), None)
    else w
  }

  function FundInside(c: Config, w: Purse, symbol: int, bar: Bar, snap: Snapshot, sizeStart: real, sizeEnd: real,
                      stillHeld: bool, settles: seq<int>): Purse
    decreases |settles|
  {
    if settles == [] then w
    else FundOneInside(c, FundInside(c, w, symbol, bar, snap, sizeStart, sizeEnd, stillHeld, settles[..|settles| - 1]),
                       symbol, bar, snap, sizeStart, sizeEnd, stillHeld, settles[|settles| - 1])
  }

  // ---------------------------------------------------------------- fills

  function HalfSpread(params: Params): real { if params.spreadBps.Some? then params.spreadBps.value / 20000.0 else 0.0 }

  function TakerPrice(params: Params, side: Side, price: real): real
  {
    var cost := params.slippage + HalfSpread(params);
    price * (if side == Buy then 1.0 + cost else 1.0 - cost)
  }

  function Refuse(s: State, k: nat): State
    requires k < |s.orders|
  {
    SetOrder(s, k, s.orders[k].(status := if s.orders[k].cum > 0.0 then Cancelled else Rejected))
  }

  function VolumeTaken(s: State, symbol: int): real
  {
    if symbol in s.volumeUsed && s.volumeUsed[symbol].0 == s.index then s.volumeUsed[symbol].1 else 0.0
  }

  /** What one bar can still give. */
  function Room(c: Config, s: State, symbol: int): Qty
    requires c.params.maxParticipation.Some?
  {
    Max(0.0, c.params.maxParticipation.value * BarAt(c, symbol, s.index).volume - VolumeTaken(s, symbol))
  }

  function Affordable(c: Config, s: State, cost: real): bool { Equity(c, s) - InitialMargin(s) >= cost }

  function Opened(s: State, side: Side, size: Qty, price: real): Position
  {
    Position(side, size, price, 0.0, 0.0, s.leverage, s.index, map[], false)
  }

  function Enlarged(p: Position, qty: Qty, price: real, boundary: Option<int>): Position
    requires p.size > 0.0
  {
    p.(size := p.size + qty, entry := (p.size * p.entry + qty * price) / (p.size + qty),
    lateAdds := if boundary.None? then p.lateAdds
    else p.lateAdds[boundary.value := LateAt(p.lateAdds, boundary.value) + qty])
  }

  /** Smaller, closed, or (the rest of the order) turned round with no margin check. */
  function Lessened(s: State, symbol: int, p: Position, side: Side, qty: Qty, price: real): State
    requires symbol in s.positions
  {
    if qty < p.size then s.(positions := s.positions[symbol := p.(size := p.size - qty)])
    else if qty > p.size then s.(positions := s.positions[symbol := Opened(s, side, qty - p.size, price)])
    else s.(positions := s.positions - {symbol})
  }

  /** The settlement just passed by what leaves at a bar's close, charged on it now. */
  function ChargeLeaving(c: Config, s: State, symbol: int, p: Position, closing: real, link: int,
                         resolving: bool): State
  {
    var boundary := Boundary(c, symbol, s.index);
    if resolving || boundary.None? || p.openedAt == s.index then s
    else
      var bar := BarAt(c, symbol, s.index);
      s.(purse := ChargeSettlement(c, s.purse, symbol, boundary.value, SnapshotOf(c, symbol, p, bar), closing,
                                   bar.close, Some(link)))
  }

  function OpenNew(c: Config, s: State, symbol: int, side: Side, qty: Qty, price: real, fee: real): Option<State>
  {
    if !Affordable(c, s, qty * price / Levered(s.leverage) + fee) then None
    else Some(s.(positions := s.positions[symbol := Opened(s, side, qty, price)]))
  }

  function AddTo(c: Config, s: State, symbol: int, qty: Qty, price: real, fee: real, resolving: bool): Option<State>
    requires Holds(s, symbol)
  {
    if !Affordable(c, s, qty * price / Levered(s.leverage) + fee) then None
    else
      var boundary := if resolving then None else Boundary(c, symbol, s.index);
      Some(s.(positions := s.positions[symbol := Enlarged(s.positions[symbol], qty, price, boundary)]))
  }

  function ReduceBy(c: Config, s: State, symbol: int, side: Side, link: int, qty: Qty, price: real,
                    resolving: bool): State
    requires Holds(s, symbol)
  {
    var p := s.positions[symbol];
    var closing := Min(qty, p.size);
    var charged := ChargeLeaving(c, s, symbol, p, closing, link, resolving);
    Lessened(Cash(charged, Gain(p.side, closing, p.entry, price)), symbol, p, side, qty, price)
  }

  /** Open, add to, reduce or flip a position; None when the margin does not fit. The fee is not yet taken. */
  function Trade(c: Config, s: State, symbol: int, side: Side, link: int, qty: Qty, price: real, fee: real,
                 resolving: bool): Option<State>
  {
    if !Holds(s, symbol) then OpenNew(c, s, symbol, side, qty, price, fee)
    else if s.positions[symbol].side == side then AddTo(c, s, symbol, qty, price, fee, resolving)
    else Some(ReduceBy(c, s, symbol, side, link, qty, price, resolving))
  }

  /** The order's own record of a fill; what is left of an immediate order is cancelled. */
  function WithFill(o: Order, qty: Qty, price: real, fee: real, market: bool): Order
    requires qty > 0.0
  {
    var cum := o.cum + qty;
    o.(cum := cum, avgPrice := (o.cum * o.avgPrice + qty * price) / cum, feePaid := o.feePaid + fee,
    status := if cum >= o.qty then Filled else if market then Cancelled else PartiallyFilled)
  }

  /** The fee, the bar's volume, the order's own record and the fill. */
  function Record(c: Config, s: State, k: nat, qty: Qty, price: real, fee: real, market: bool): State
    requires k < |s.orders| && qty > 0.0
  {
    var o := s.orders[k];
    var used := if c.params.maxParticipation.Some?
                then s.volumeUsed[o.symbol := (s.index, VolumeTaken(s, o.symbol) + qty)]
                else s.volumeUsed;
    SetOrder(Cash(s, -fee), k, WithFill(o, qty, price, fee, market))
    .(feesPaid := s.feesPaid + fee, volumeUsed := used,
    fillLog := s.fillLog + [Fill(Some(o.link), o.symbol, o.side, qty, price, fee, o.purpose, s.index)])
  }

  /** The trade and its record, or the refusal of an order whose margin does not fit. */
  function FillOrder(c: Config, s: State, k: nat, qty: Qty, price: real, fee: real, market: bool,
                     resolving: bool): State
    requires k < |s.orders| && qty > 0.0
  {
    var o := s.orders[k];
    match Trade(c, s, o.symbol, o.side, o.link, qty, price, fee, resolving)
    case None => Refuse(s, k)
    case Some(after) => if k < |after.orders| then Record(c, after, k, qty, price, fee, market) else after
  }

  /** `_execute`. */
  function Execute(c: Config, s: State, k: nat, price: real, taker: bool, resolving: bool): State
    requires k < |s.orders|
  {
    var o := s.orders[k];
    var remaining := o.qty - o.cum;
    if o.qty <= 0.0 || remaining <= 0.0 then Refuse(s, k)
    else if o.reduceOnly && (!Holds(s, o.symbol) || s.positions[o.symbol].side == o.side) then Refuse(s, k)
    else if o.reduceOnly && remaining > s.positions[o.symbol].size then
      var size := s.positions[o.symbol].size;
      ExecuteQty(c, SetOrder(s, k, o.(qty := o.cum + size)), k, size, price, taker, resolving)
    else ExecuteQty(c, s, k, remaining, price, taker, resolving)
  }

  function FillPrice(c: Config, side: Side, price: real, taker: bool): real
  {
    if taker then TakerPrice(c.params, side, price) else price
  }

  function FeeOn(c: Config, qty: Qty, price: real, taker: bool): real
  {
    qty * price * (if taker then c.params.takerFee else c.params.makerFee)
  }

  function Available(c: Config, s: State, symbol: int, remaining: Qty): Qty
  {
    if c.params.maxParticipation.Some? then Min(remaining, Room(c, s, symbol)) else remaining
  }

  /** A market order outside a bar's resolution fills now or not at all. */
  predicate Immediate(o: Order, resolving: bool) { !o.limit && !resolving }

  function ExecuteQty(c: Config, s: State, k: nat, remaining: Qty, price: real, taker: bool, resolving: bool): State
    requires k < |s.orders|
  {
    var o := s.orders[k];
    var qty := Available(c, s, o.symbol, remaining);
    if qty <= 0.0 then (if Immediate(o, resolving) then SetOrder(s, k, o.(status := Cancelled)) else s)
    else
      var fillPrice := FillPrice(c, o.side, price, taker);
      FillOrder(c, s, k, qty, fillPrice, FeeOn(c, qty, fillPrice, taker), Immediate(o, resolving), resolving)
  }

  // ---------------------------------------------------------------- exits

  function ExitPrice(c: Config, p: Position, price: real, purpose: Purpose): real
  {
    match purpose
    case Stop => TakerPrice(c.params, Opposite(p.side), price)
    case TakeProfit => price * (if p.side == Buy then 1.0 - HalfSpread(c.params) else 1.0 + HalfSpread(c.params))
    case _ => price
  }

  /** The maintenance margin lost with a liquidated position. */
  function Forfeit(c: Config, p: Position, price: real, purpose: Purpose): real
  {
    if purpose == Liquidated && c.params.forfeit then c.params.maintenance * p.size * price else 0.0
  }

  function ExitFee(c: Config, p: Position, exit: real, purpose: Purpose): real
  {
    p.size * exit * c.params.takerFee + Forfeit(c, p, exit, purpose)
  }

  function LogExit(c: Config, s: State, fill: Fill): State
  {
    s.(fillLog := s.fillLog + [fill], exits := s.exits + [(fill, BarAt(c, fill.symbol, s.index).start)])
  }

  /** The position gone, with what that realises and costs. */
  function TakeOff(s: State, symbol: int, gain: real, fee: real, forfeit: real): State
  {
    Cash(s, gain - fee).(feesPaid := s.feesPaid + fee, forfeited := s.forfeited + forfeit,
    positions := s.positions - {symbol})
  }

  /** `_close_at`. */
  function CloseAt(c: Config, s: State, symbol: int, price: real, purpose: Purpose): State
  {
    if !Holds(s, symbol) then s
    else
      var p := s.positions[symbol];
      var exit := ExitPrice(c, p, price, purpose);
      var fee := ExitFee(c, p, exit, purpose);
      LogExit(c, TakeOff(s, symbol, Gain(p.side, p.size, p.entry, exit), fee, Forfeit(c, p, exit, purpose)),
              Fill(None, symbol, Opposite(p.side), p.size, exit, fee, purpose, s.index))
  }

  function SolveLong(cash: real, size: real, entry: real, rate: real): real
    requires size > 0.0 && rate < 1.0
  {
    Positive(size, 1.0 - rate);
    (size * entry - cash) / (size * (1.0 - rate))
  }

  function SolveShort(cash: real, size: real, entry: real, rate: real): real
    requires size > 0.0 && 0.0 <= rate
  {
    Positive(size, 1.0 + rate);
    (cash + size * entry) / (size * (1.0 + rate))
  }

  /** The mark at which equity no longer covers maintenance, solved for; None when no positive mark does. */
  function LiquidationPrice(c: Config, s: State, symbol: int): Option<real>
    requires 0.0 <= c.params.maintenance < 1.0
  {
    if !Holds(s, symbol) then None
    else
      var p, rate := s.positions[symbol], c.params.maintenance;
      var price := if p.side == Buy then SolveLong(s.purse.cash, p.size, p.entry, rate)
                   else SolveShort(s.purse.cash, p.size, p.entry, rate);
      if price > 0.0 then Some(price) else None
  }

  lemma Positive(x: real, y: real)
    requires x > 0.0 && y > 0.0
    ensures x * y > 0.0
  {
  }

  predicate Reaches(p: Position, level: real, bar: Bar)
  {
    if p.side == Buy then bar.low <= level else bar.high >= level
  }

  function GapThrough(p: Position, stop: real, bar: Bar): real
  {
    if p.side == Buy then Min(stop, bar.open) else Max(stop, bar.open)
  }

  predicate LimitReached(c: Config, side: Side, price: real, bar: Bar)
  {
    if c.params.touchFills then (if side == Sell then bar.high >= price else bar.low <= price)
    else if side == Sell then bar.high > price else bar.low < price
  }

  function Liquidate(c: Config, s: State, symbol: int, price: real): State
  {
    if symbol !in s.positions then s
    else
      var p := s.positions[symbol];
      CloseAt(c, s.(liquidations := s.liquidations + [Liquidation(symbol, s.index, price, p.size, p.side, p.entry)]),
              symbol, price, Liquidated)
  }

  /** What a bar's range does to the position itself, decided before anything is done. */
  datatype Exit = Stay | AtStop(price: real) | AtLiquidation(price: real) | AtTarget(price: real)

  function Decide(c: Config, s: State, symbol: int, bar: Bar): Exit
    requires 0.0 <= c.params.maintenance < 1.0
  {
    if !Holds(s, symbol) then Stay
    else
      var p := s.positions[symbol];
      var liq := LiquidationPrice(c, s, symbol);
      var hitStop := p.stop > 0.0 && Reaches(p, p.stop, bar);
      var hitLiq := liq.Some? && Reaches(p, liq.value, bar);
      if hitStop && hitLiq then
        (if (if p.side == Buy then p.stop > liq.value else p.stop < liq.value) then AtStop(GapThrough(p, p.stop, bar))
         else AtLiquidation(liq.value))
      else if hitStop then AtStop(GapThrough(p, p.stop, bar))
      else if hitLiq then AtLiquidation(liq.value)
      else if p.takeProfit > 0.0 && LimitReached(c, Opposite(p.side), p.takeProfit, bar) then AtTarget(p.takeProfit)
      else Stay
  }

  function NoteUnprotected(s: State, symbol: int, bar: Bar): State
  {
    if !Holds(s, symbol) then s
    else
      var p := s.positions[symbol];
      if p.stop <= 0.0 || !p.verified then
        s.(unprotected := s.unprotected + [Unprotected(symbol, s.index, bar.start, p.stop <= 0.0)])
      else s
  }

  function ExitPosition(c: Config, s: State, symbol: int, bar: Bar): State
    requires 0.0 <= c.params.maintenance < 1.0
  {
    var noted := NoteUnprotected(s, symbol, bar);
    match Decide(c, s, symbol, bar)
    case Stay => noted
    case AtStop(price) => CloseAt(c, noted, symbol, price, Stop)
    case AtLiquidation(price) => Liquidate(c, noted, symbol, price)
    case AtTarget(price) => CloseAt(c, noted, symbol, price, TakeProfit)
  }

  // ---------------------------------------------------------------- resting orders

  predicate Resting(o: Order, symbol: int) { o.symbol == symbol && (o.status == New || o.status == PartiallyFilled) }

  function RestOne(c: Config, s: State, symbol: int, bar: Bar, k: nat): State
  {
    if k >= |s.orders| then s
    else
      var o := s.orders[k];
      if Resting(o, symbol) && o.limit && LimitReached(c, o.side, o.price, bar)
         && (symbol in s.positions || !o.reduceOnly)
      then Execute(c, s, k, o.price, false, true) else s
  }

  /** The first `n` orders, in the order they were placed. */
  function RestAll(c: Config, s: State, symbol: int, bar: Bar, n: nat): State
  {
    if n == 0 then s else RestOne(c, RestAll(c, s, symbol, bar, n - 1), symbol, bar, n - 1)
  }

  /** Reduce-only legs go with the position they were placed against. */
  function Orphans(orders: seq<Order>, symbol: int): seq<Order>
    decreases |orders|
  {
    if orders == [] then []
    else
      var o := orders[|orders| - 1];
      Orphans(orders[..|orders| - 1], symbol)
      + [if Resting(o, symbol) && o.reduceOnly then o.(status := Cancelled) else o]
  }

  function CancelOrphans(s: State, symbol: int): State
  {
    if symbol in s.positions then s else s.(orders := Orphans(s.orders, symbol))
  }

  // ---------------------------------------------------------------- the bar

  function ResolvePrices(c: Config, s: State, symbol: int): State
    requires 0.0 <= c.params.maintenance < 1.0
  {
    var bar := BarAt(c, symbol, s.index);
    CancelOrphans(RestAll(c, ExitPosition(c, s, symbol, bar), symbol, bar, |s.orders|), symbol)
  }

  predicate StillHeld(s: State, symbol: int, snap: Snapshot)
  {
    Holds(s, symbol) && s.positions[symbol].openedAt == snap.openedAt
  }

  /** Funding at the open, then prices, then funding inside the bar. */
  function ResolveBar(c: Config, s: State, symbol: int): State
    requires 0.0 <= c.params.maintenance < 1.0
  {
    if !Holds(s, symbol) then ResolvePrices(c, s, symbol)
    else
      var bar, settles, p := BarAt(c, symbol, s.index), SettlementsIn(c, symbol, s.index), s.positions[symbol];
      var snap := SnapshotOf(c, symbol, p, bar);
      var charged := s.(purse := FundAtOpen(c, s.purse, symbol, bar, s.index, snap, p.size, p.lateAdds, settles));
      var after := ResolvePrices(c, charged, symbol);
      var held := StillHeld(after, symbol, snap);
      after.(purse := FundInside(c, after.purse, symbol, bar, snap, p.size,
                                 if held then after.positions[symbol].size else 0.0,
                                 held, settles))
  }

  function ResolveAll(c: Config, s: State, symbols: seq<int>): State
    requires 0.0 <= c.params.maintenance < 1.0
    decreases |symbols|
  {
    if symbols == [] then s
    else ResolveBar(c, ResolveAll(c, s, symbols[..|symbols| - 1]), symbols[|symbols| - 1])
  }

  predicate Exhausted(c: Config, s: State) { c.data.symbols == [] || s.index >= |Series(c, c.data.symbols[0])| - 1 }

  /** `step`: the next bar, every symbol resolved against it. */
  function Step(c: Config, s: State): State
    requires 0.0 <= c.params.maintenance < 1.0
  {
    if Exhausted(c, s) then s else ResolveAll(c, s.(index := s.index + 1), c.data.symbols)
  }

  // ---------------------------------------------------------------- requests

  /**
   * A new order: a market order executes at once at the close, a limit rests, a conditional one waits for nothing here.
   */
  datatype Ticket = Ticket(link: int, symbol: int, side: Side, limit: bool, conditional: bool, qty: real,
                           price: real, reduceOnly: bool)

  predicate OnFile(s: State, link: int) { exists k :: 0 <= k < |s.orders| && s.orders[k].link == link }

  function PurposeOf(t: Ticket): Purpose { if t.conditional then Stop else if t.limit then TakeProfit else Entry }

  function Create(c: Config, s: State, t: Ticket): State
  {
    if OnFile(s, t.link) || t.symbol !in c.data.bars then s
    else
      var o := Order(t.link, t.symbol, t.side, t.limit, t.qty, t.price, if t.conditional then Untriggered else New,
                     0.0, 0.0,
                     PurposeOf(t), t.reduceOnly, 0.0);
      var placed := s.(orderSeq := s.orderSeq + 1, orders := s.orders + [o]);
      if t.conditional || t.limit then placed else Execute(c, placed, |s.orders|, Mark(c, s, t.symbol), true, false)
  }

  predicate Open(o: Order) { o.status == New || o.status == Untriggered || o.status == PartiallyFilled }

  function CancelFrom(orders: seq<Order>, link: int): seq<Order>
    decreases |orders|
  {
    if orders == [] then []
    else
      var o := orders[|orders| - 1];
      CancelFrom(orders[..|orders| - 1], link) + [if o.link == link && Open(o) then o.(status := Cancelled) else o]
  }

  function SetStop(s: State, symbol: int, stop: Option<real>, target: Option<real>): State
  {
    if !Holds(s, symbol) then s
    else if s.failStops > 0 then s.(failStops := s.failStops - 1)
    else
      var p := s.positions[symbol];
      var stopped := if stop.Some? then p.(stop := stop.value, verified := false) else p;
      s.(positions := s.positions[symbol := if target.Some? then stopped.(takeProfit := target.value) else stopped])
  }

  /** Reading the position back is what verifies its stop. */
  function ReadBack(s: State, symbol: int): State
  {
    if !Holds(s, symbol) || s.positions[symbol].stop <= 0.0 then s
    else s.(positions := s.positions[symbol := s.positions[symbol].(verified := true)])
  }

  /** Anything a caller may do between two looks at the state. */
  datatype Action = Advance | Place(ticket: Ticket) | Cancel(link: int) | Protect(symbol: int, stop: Option<real>,
                                                                                  target: Option<real>)
                  | Read(symbol: int) | SetLeverage(leverage: real) | FailStops(n: nat) | Drain

  function Act(c: Config, s: State, a: Action): State
    requires 0.0 <= c.params.maintenance < 1.0
  {
    match a
    case Advance => Step(c, s)
    case Place(ticket) => Create(c, s, ticket)
    case Cancel(link) => s.(orders := CancelFrom(s.orders, link))
    case Protect(symbol, stop, target) => SetStop(s, symbol, stop, target)
    case Read(symbol) => ReadBack(s, symbol)
    case SetLeverage(leverage) => s.(leverage := leverage)
    case FailStops(n) => s.(failStops := n)
    case Drain => s.(fillLog := [])
  }

  function Run(c: Config, s: State, actions: seq<Action>): State
    requires 0.0 <= c.params.maintenance < 1.0
    decreases |actions|
  {
    if actions == [] then s else Run(c, Act(c, s, actions[0]), actions[1..])
  }
}
