/**
 The dollars of funding: which way each settlement moves the cash, at what rate and at what mark, over any run; and
 what a position pays over a whole hold.
 */
module FundingPaid {
  import opened Basics
  import opened PerpVenue
  import opened FundingClock
  import opened FundingBoundary
  import opened FundingHold
  import A = PerpAccounting

  // ---------------------------------------------------------------- the rate

  /** The last print stamped by a time. */
  ghost predicate IsLast(rows: seq<(int, real)>, i: int, time: int)
  {
    0 <= i < |rows| && rows[i].0 <= time && forall j :: i < j < |rows| ==> rows[j].0 > time
  }

  ghost predicate RateAmong(rows: seq<(int, real)>, otherwise: real, time: int, rate: real)
  {
    || (exists i :: IsLast(rows, i, time) && rows[i].1 == rate)
    || (rate == otherwise && forall i :: 0 <= i < |rows| ==> rows[i].0 > time)
  }

  /**
   * The rate a stamp settles at: that of the last print stamped no later than a minute after it, and the configured
   * rate where there is none.
   */
  ghost predicate RateIs(c: Config, x: int, settle: int, rate: real)
  {
    RateAmong(if x in c.data.funding then c.data.funding[x] else [], c.params.fundingRate, settle + 60 * 1000, rate)
  }

  lemma {:induction false} LastIsLast(rows: seq<(int, real)>, time: int)
    ensures var last := LastPrint(rows, time);
            if last.None? then forall i :: 0 <= i < |rows| ==> rows[i].0 > time
            else exists i :: IsLast(rows, i, time) && rows[i] == last.value
    decreases |rows|
  {
    if rows != [] {
      var last, rest := |rows| - 1, rows[..|rows| - 1];
      LastIsLast(rest, time);
      if rows[last].0 <= time {
        assert IsLast(rows, last, time);
      } else if LastPrint(rest, time).Some? {
        var i :| IsLast(rest, i, time) && rest[i] == LastPrint(rest, time).value;
        assert IsLast(rows, i, time) && rows[i] == rest[i];
      }
    }
  }

  lemma LastRate(rows: seq<(int, real)>, otherwise: real, time: int, rate: real)
    ensures RateAmong(rows, otherwise, time, rate) <==>
            rate == if LastPrint(rows, time).Some? then LastPrint(rows, time).value.1 else otherwise
  {
    LastIsLast(rows, time);
    if LastPrint(rows, time).Some? {
      var k :| IsLast(rows, k, time) && rows[k] == LastPrint(rows, time).value;
      assert rows[k].0 <= time && forall i :: IsLast(rows, i, time) ==> i == k;
    }
  }

  /** There is one such rate, and it is the one settlements are charged at. */
  lemma SettledRateIs(c: Config, x: int, settle: int, rate: real)
    ensures RateIs(c, x, settle, rate) <==> rate == SettledRate(c, x, settle)
  {
    LastRate(Prints(c, x), c.params.fundingRate, settle + 60 * 1000, rate);
  }

  /** Whether the stamp has prints to be settled at, but none stamped from a minute before it to a minute after. */
  ghost predicate Unbacked(c: Config, x: int, settle: int)
  {
    && x in c.data.funding && c.data.funding[x] != []
    && var rows := c.data.funding[x];
    forall i :: IsLast(rows, i, settle + 60 * 1000) ==> rows[i].0 < settle - 60 * 1000
  }

  lemma UnprintedIs(c: Config, x: int, settle: int)
    ensures Unprinted(c, x, settle) == if Unbacked(c, x, settle) then 1 else 0
  {
    LastIsLast(Prints(c, x), settle + 60 * 1000);
  }

  // ---------------------------------------------------------------- one row

  /** What a long pays is what a short receives. */
  function Signed(side: Side, amount: real): real { if side == Buy then amount else -amount }

  /** The row costs a position of that side its rate on its size at the mark. */
  ghost predicate Costs(c: Config, e: Charge, side: Side, mark: real)
  {
    exists rate :: RateIs(c, e.symbol, e.settle, rate) && e.paid == Signed(side, rate) * e.size * mark
  }

  /** The rows since, if no row was taken back. */
  ghost function Since(before: seq<Charge>, after: seq<Charge>): seq<Charge>
  {
    if |before| <= |after| then after[|before|..] else []
  }

  /** How many of the rows were settled without a print. */
  ghost function Missing(c: Config, log: seq<Charge>): nat
    decreases |log|
  {
    if log == [] then 0
    else
      var e := log[|log| - 1];
      Missing(c, log[..|log| - 1]) + if Unbacked(c, e.symbol, e.settle) then 1 else 0
  }

  /** The log only grows, and the count of settlements without a print goes with it. */
  ghost predicate Extends(c: Config, w: Purse, after: Purse)
  {
    w.log <= after.log && after.unprinted - w.unprinted == Missing(c, after.log) - Missing(c, w.log)
  }

  lemma SinceThen(a: seq<Charge>, b: seq<Charge>, c: seq<Charge>)
    requires a <= b <= c
    ensures Since(a, c) == Since(a, b) + Since(b, c)
  {
  }

  lemma ChargeRow(c: Config, w: Purse, x: int, settle: int, snap: Snapshot, size: real, mark: real, tag: Option<int>)
    ensures var after := ChargeSettlement(c, w, x, settle, snap, size, mark, tag);
            && Extends(c, w, after)
            && forall e :: e in Since(w.log, after.log) ==>
                             && e.symbol == x && e.settle == settle && e.openedMs == snap.openedMs && e.tag == tag
                             && e.size == size > 0.0 && Costs(c, e, snap.side, mark)
  {
    hide SettledRate, RateIs, Unprinted, Unbacked;
    var after := ChargeSettlement(c, w, x, settle, snap, size, mark, tag);
    SettledRateIs(c, x, settle, SettledRate(c, x, settle));
    UnprintedIs(c, x, settle);
    if after != w {
      var e := after.log[|w.log|];
      assert after.log[..|w.log|] == w.log && Since(w.log, after.log) == [e];
      assert e.paid == Signed(snap.side, SettledRate(c, x, settle)) * size * mark;
    }
  }

  // ---------------------------------------------------------------- the rows of a bar

  /** Which position a row is charged to. */
  predicate Names(c: Config, e: Charge, x: int, p: Position, bar: Bar)
  {
    && e.symbol == x
    && e.openedMs == if 0 <= p.openedAt < |Series(c, x)| then Series(c, x)[p.openedAt].start else bar.start
  }

  /**
   * A row at the bar's open: on what is held, at the open; at the stamp the bar starts with not on what was added after
   * it, and not at all if the position was opened after it.
   */
  ghost predicate OpenRow(c: Config, x: int, bar: Bar, index: int, p: Position, e: Charge)
  {
    && Names(c, e, x, p, bar) && e.tag.None? && e.settle <= bar.start && Costs(c, e, p.side, bar.open)
    && (e.settle == bar.start ==> p.openedAt != index - 1)
    && e.size == p.size - if e.settle == bar.start && e.settle in p.lateAdds then p.lateAdds[e.settle] else 0.0
  }

  function Higher(bar: Bar): real { if bar.open > bar.close then bar.open else bar.close }

  function Lower(bar: Bar): real { if bar.open > bar.close then bar.close else bar.open }

  /**
   * A row inside the bar: a payment on the size at the open at the higher of open and close, a receipt on what the bar
   * leaves at the lower.
   */
  ghost predicate InsideRow(c: Config, x: int, bar: Bar, p: Position, left: Option<real>, e: Charge)
  {
    && Names(c, e, x, p, bar) && e.tag.None? && bar.start < e.settle
    && exists rate ::
         && RateIs(c, x, e.settle, rate)
         && if Signed(p.side, rate) > 0.0 then e.size == p.size && e.paid == Signed(p.side, rate) * e.size * Higher(bar)
            else left == Some(e.size) && e.paid == Signed(p.side, rate) * e.size * Lower(bar)
  }

  lemma OpenRowOf(c: Config, w: Purse, x: int, bar: Bar, index: int, p: Position, settle: int)
    ensures var after := FundOneAtOpen(c, w, x, bar, index, SnapshotOf(c, x, p, bar), p.size, p.lateAdds, settle);
            && Extends(c, w, after)
            && forall e :: e in Since(w.log, after.log) ==> e.settle == settle && OpenRow(c, x, bar, index, p, e)
  {
    hide ChargeSettlement, Costs, Missing;
    var snap := SnapshotOf(c, x, p, bar);
    ChargeRow(c, w, x, settle, snap, p.size - LateAt(p.lateAdds, settle), bar.open, None);
    ChargeRow(c, w, x, settle, snap, p.size, bar.open, None);
  }

  lemma {:induction false} OpenRows(c: Config, w: Purse, x: int, bar: Bar, index: int, p: Position, settles: seq<int>)
    ensures var after := FundAtOpen(c, w, x, bar, index, SnapshotOf(c, x, p, bar), p.size, p.lateAdds, settles);
            && Extends(c, w, after)
            && forall e :: e in Since(w.log, after.log) ==> e.settle in settles && OpenRow(c, x, bar, index, p, e)
    decreases |settles|
  {
    hide ChargeSettlement, FundOneAtOpen, OpenRow, Missing;
    if settles != [] {
      var last, snap := |settles| - 1, SnapshotOf(c, x, p, bar);
      var mid := FundAtOpen(c, w, x, bar, index, snap, p.size, p.lateAdds, settles[..last]);
      OpenRows(c, w, x, bar, index, p, settles[..last]);
      OpenRowOf(c, mid, x, bar, index, p, settles[last]);
      SinceThen(w.log, mid.log, FundAtOpen(c, w, x, bar, index, snap, p.size, p.lateAdds, settles).log);
      assert settles == settles[..last] + [settles[last]];
    }
  }

  lemma InsideRowOf(c: Config, w: Purse, x: int, bar: Bar, p: Position, left: Option<real>, settle: int)
    requires bar.start < settle
    ensures var after := FundOneInside(c, w, x, bar, SnapshotOf(c, x, p, bar), p.size,
                                       if left.Some? then left.value else 0.0, left.Some?, settle);
            && Extends(c, w, after)
            && forall e :: e in Since(w.log, after.log) ==> e.settle == settle && InsideRow(c, x, bar, p, left, e)
  {
    hide ChargeSettlement, SettledRate, Missing, RateIs;
    var snap := SnapshotOf(c, x, p, bar);
    var rate := SettledRate(c, x, settle);
    ChargeRow(c, w, x, settle, snap, p.size, Max(bar.open, bar.close), None);
    ChargeRow(c, w, x, settle, snap, if left.Some? then left.value else 0.0, Min(bar.open, bar.close), None);
    forall other { SettledRateIs(c, x, settle, other); }
    assert Dir(snap.side) * rate == Signed(p.side, rate);
    var after := FundOneInside(c, w, x, bar, snap, p.size, if left.Some? then left.value else 0.0, left.Some?, settle);
    forall e | e in Since(w.log, after.log) ensures InsideRow(c, x, bar, p, left, e) {
      assert RateIs(c, x, e.settle, rate);
      assert Costs(c, e, p.side, if Signed(p.side, rate) > 0.0 then Higher(bar) else Lower(bar));
    }
  }

  lemma {:induction false} InsideRows(c: Config, w: Purse, x: int, bar: Bar, p: Position, left: Option<real>,
                                      settles: seq<int>)
    ensures var after := FundInside(c, w, x, bar, SnapshotOf(c, x, p, bar), p.size,
                                    if left.Some? then left.value else 0.0, left.Some?, settles);
            && Extends(c, w, after)
            && forall e :: e in Since(w.log, after.log) ==> e.settle in settles && InsideRow(c, x, bar, p, left, e)
    decreases |settles|
  {
    hide ChargeSettlement, SettledRate, InsideRow, Missing, FundOneInside;
    if settles != [] {
      var last, snap, end := |settles| - 1, SnapshotOf(c, x, p, bar), if left.Some? then left.value else 0.0;
      var mid := FundInside(c, w, x, bar, snap, p.size, end, left.Some?, settles[..last]);
      InsideRows(c, w, x, bar, p, left, settles[..last]);
      InsideOf(c, mid, x, bar, p, left, settles[last]);
      var after := FundInside(c, w, x, bar, snap, p.size, end, left.Some?, settles);
      SinceThen(w.log, mid.log, after.log);
      assert settles == settles[..last] + [settles[last]];
    }
  }

  lemma InsideOf(c: Config, w: Purse, x: int, bar: Bar, p: Position, left: Option<real>, settle: int)
    ensures var after := FundOneInside(c, w, x, bar, SnapshotOf(c, x, p, bar), p.size,
                                       if left.Some? then left.value else 0.0, left.Some?, settle);
            && Extends(c, w, after)
            && forall e :: e in Since(w.log, after.log) ==> e.settle == settle && InsideRow(c, x, bar, p, left, e)
  {
    hide ChargeSettlement, InsideRow;
    if bar.start < settle { InsideRowOf(c, w, x, bar, p, left, settle); }
  }

  /** What a bar leaves of a position. */
  function LeftOf(s: State, x: int, p: Position): Option<real>
  {
    if Holds(s, x) && s.positions[x].openedAt == p.openedAt then Some(s.positions[x].size) else None
  }

  /** A row of a bar's resolution: of a position held as the bar began, and stamped where the bar reaches. */
  ghost predicate BarRow(c: Config, s: State, after: State, e: Charge)
  {
    && e.symbol in s.positions
    && var x, p, bar := e.symbol, s.positions[e.symbol], BarAt(c, e.symbol, s.index);
    && e.settle % (8 * 3600 * 1000) == 0 && Begin(c, x, s.index) <= e.settle < End(c, x, s.index)
    && (OpenRow(c, x, bar, s.index, p, e) || InsideRow(c, x, bar, p, LeftOf(after, x, p), e))
  }

  lemma Unmoved(c: Config, s: State, after: State)
    requires after.purse.log == s.purse.log && after.purse.unprinted == s.purse.unprinted
    ensures Extends(c, s.purse, after.purse) && Since(s.purse.log, after.purse.log) == []
  {
  }

  lemma ExtendsThen(c: Config, u: Purse, v: Purse, w: Purse)
    requires Extends(c, u, v) && Extends(c, v, w)
    ensures Extends(c, u, w) && Since(u.log, w.log) == Since(u.log, v.log) + Since(v.log, w.log)
  {
    SinceThen(u.log, v.log, w.log);
  }

  lemma BarRows(c: Config, s: State, x: int)
    requires 0.0 <= c.params.maintenance < 1.0
    ensures var after := ResolveBar(c, s, x);
            && Extends(c, s.purse, after.purse)
            && forall e :: e in Since(s.purse.log, after.purse.log) ==> e.symbol == x && BarRow(c, s, after, e)
  {
    hide ResolvePrices, FundAtOpen, FundInside, SettlementsIn, OpenRow, InsideRow, Missing, SnapshotOf;
    ResolvePricesOnly(c, s, x);
    var after := ResolveBar(c, s, x);
    if !Holds(s, x) {
      Unmoved(c, s, after);
    } else {
      var bar, settles, p := BarAt(c, x, s.index), SettlementsIn(c, x, s.index), s.positions[x];
      var snap := SnapshotOf(c, x, p, bar);
      var charged := s.(purse := FundAtOpen(c, s.purse, x, bar, s.index, snap, p.size, p.lateAdds, settles));
      OpenRows(c, s.purse, x, bar, s.index, p, settles);
      ResolvePricesOnly(c, charged, x);
      var priced := ResolvePrices(c, charged, x);
      Unmoved(c, charged, priced);
      OpenedIn(c, x, p, bar);
      InsideRows(c, priced.purse, x, bar, p, LeftOf(priced, x, p), settles);
      ExtendsThen(c, s.purse, charged.purse, priced.purse);
      ExtendsThen(c, s.purse, priced.purse, after.purse);
      assert LeftOf(after, x, p) == LeftOf(priced, x, p);
      forall e | e in Since(s.purse.log, after.purse.log) ensures e.symbol == x && BarRow(c, s, after, e) {
        BarOwns(c, x, s.index, e.settle);
        RowSymbol(c, x, bar, s.index, p, LeftOf(after, x, p), e);
      }
    }
  }

  lemma OpenedIn(c: Config, x: int, p: Position, bar: Bar)
    ensures SnapshotOf(c, x, p, bar).openedAt == p.openedAt
  {
  }

  lemma RowSymbol(c: Config, x: int, bar: Bar, index: int, p: Position, left: Option<real>, e: Charge)
    requires OpenRow(c, x, bar, index, p, e) || InsideRow(c, x, bar, p, left, e)
    ensures e.symbol == x
  {
  }

  lemma {:induction false} AllRows(c: Config, s: State, symbols: seq<int>)
    requires 0.0 <= c.params.maintenance < 1.0
    requires forall i, j :: 0 <= i < j < |symbols| ==> symbols[i] != symbols[j]
    ensures var after := ResolveAll(c, s, symbols);
            && Extends(c, s.purse, after.purse) && after.index == s.index
            && forall e :: e in Since(s.purse.log, after.purse.log) ==> e.symbol in symbols && BarRow(c, s, after, e)
    decreases |symbols|
  {
    hide ResolveBar, BarRow, Missing, Untouched;
    if symbols == [] {
      Unmoved(c, s, s);
    } else {
      var last := |symbols| - 1;
      var x, mid, after := symbols[last], ResolveAll(c, s, symbols[..last]), ResolveAll(c, s, symbols);
      assert symbols == symbols[..last] + [x];
      AllRows(c, s, symbols[..last]);
      BarRows(c, mid, x);
      BarIndex(c, mid, x);
      ExtendsThen(c, s.purse, mid.purse, after.purse);
      forall e | e in Since(s.purse.log, after.purse.log) ensures e.symbol in symbols && BarRow(c, s, after, e) {
        if e in Since(s.purse.log, mid.purse.log) {
          assert e.symbol != x;
          BarElsewhere(c, mid, x, e.symbol, Snapshot(Buy, 0, 0));
        } else {
          OthersElsewhere(c, s, symbols[..last], x, Snapshot(Buy, 0, 0));
        }
        SameRow(c, s, mid, after, e, x);
      }
    }
  }

  /** A row is the same row seen from any state that differs in other symbols only. */
  lemma SameRow(c: Config, s: State, mid: State, after: State, e: Charge, x: int)
    requires s.index == mid.index == after.index
    requires if e.symbol == x then BarRow(c, mid, after, e) && SamePosition(s, mid, x)
             else BarRow(c, s, mid, e) && SamePosition(mid, after, e.symbol)
    ensures BarRow(c, s, after, e)
  {
    hide OpenRow, InsideRow;
  }

  predicate SamePosition(s: State, t: State, x: int)
  {
    (x in s.positions <==> x in t.positions) && (x in s.positions ==> s.positions[x] == t.positions[x])
  }

  // ---------------------------------------------------------------- the rows of a close

  /** A row on the way out: of the position the order takes from, on what it takes, at the bar's close. */
  ghost predicate ExitRow(c: Config, s: State, after: State, side: Side, link: int, e: Charge)
  {
    && e.symbol in s.positions
    && var x, p := e.symbol, s.positions[e.symbol];
    && Names(c, e, x, p, BarAt(c, x, s.index)) && e.tag == Some(link) && p.side != side && p.openedAt != s.index
    && 0 <= s.index + 1 < |Series(c, x)| && e.settle == Series(c, x)[s.index + 1].start
    && e.settle % (8 * 3600 * 1000) == 0 && Costs(c, e, p.side, BarAt(c, x, s.index).close)
    && e.size == p.size - if x in after.positions && after.positions[x].side == p.side then after.positions[x].size
                 else 0.0
  }

  /** At a close a position is opened, or keeps its side. */
  predicate NewOrSame(s: State, after: State)
  {
    forall x :: x in after.positions ==>
                  var p := after.positions[x];
                  p.openedAt == s.index
                  || (x in s.positions && s.positions[x].openedAt == p.openedAt && s.positions[x].side == p.side)
  }

  ghost predicate Leaves(c: Config, s: State, after: State, x: int, side: Side, link: int)
  {
    && Extends(c, s.purse, after.purse) && after.index == s.index && NewOrSame(s, after)
    && forall e :: e in Since(s.purse.log, after.purse.log) ==> e.symbol == x && ExitRow(c, s, after, side, link, e)
  }

  lemma LeavingRow(c: Config, s: State, x: int, p: Position, closing: real, link: int)
    ensures var after := ChargeLeaving(c, s, x, p, closing, link, false);
            && Extends(c, s.purse, after.purse) && after == s.(purse := after.purse)
            && forall e :: e in Since(s.purse.log, after.purse.log) ==>
                             && Names(c, e, x, p, BarAt(c, x, s.index)) && e.tag == Some(link)
                             && p.openedAt != s.index && e.size == closing
                             && 0 <= s.index + 1 < |Series(c, x)| && e.settle == Series(c, x)[s.index + 1].start
                             && e.settle % (8 * 3600 * 1000) == 0 && Costs(c, e, p.side, BarAt(c, x, s.index).close)
  {
    hide ChargeSettlement, Missing, Costs;
    var bar := BarAt(c, x, s.index);
    if Boundary(c, x, s.index).Some? {
      ChargeRow(c, s.purse, x, Boundary(c, x, s.index).value, SnapshotOf(c, x, p, bar), closing, bar.close, Some(link));
    }
  }

  lemma ReduceRows(c: Config, s: State, x: int, side: Side, link: int, qty: Qty, price: real)
    requires Holds(s, x) && s.positions[x].side != side
    ensures Leaves(c, s, ReduceBy(c, s, x, side, link, qty, price, false), x, side, link)
  {
    hide ChargeLeaving, Missing, Costs, Gain, BarAt, Series;
    var p := s.positions[x];
    LeavingRow(c, s, x, p, Min(qty, p.size), link);
  }

  lemma TradeRows(c: Config, s: State, x: int, side: Side, link: int, qty: Qty, price: real, fee: real)
    requires Trade(c, s, x, side, link, qty, price, fee, false).Some?
    ensures Leaves(c, s, Trade(c, s, x, side, link, qty, price, fee, false).value, x, side, link)
  {
    hide ReduceBy, Affordable, Missing, Boundary;
    if Holds(s, x) && s.positions[x].side != side { ReduceRows(c, s, x, side, link, qty, price); }
  }

  lemma FillRows(c: Config, s: State, k: nat, qty: Qty, price: real, fee: real, market: bool)
    requires k < |s.orders| && qty > 0.0
    ensures Leaves(c, s, FillOrder(c, s, k, qty, price, fee, market, false), s.orders[k].symbol, s.orders[k].side,
                   s.orders[k].link)
  {
    hide Trade, Missing, WithFill, Names, Costs;
    var o := s.orders[k];
    if Trade(c, s, o.symbol, o.side, o.link, qty, price, fee, false).Some? {
      TradeRows(c, s, o.symbol, o.side, o.link, qty, price, fee);
    }
  }

  lemma QtyRows(c: Config, s: State, k: nat, remaining: Qty, price: real)
    requires k < |s.orders|
    ensures Leaves(c, s, ExecuteQty(c, s, k, remaining, price, true, false), s.orders[k].symbol, s.orders[k].side,
                   s.orders[k].link)
  {
    hide FillOrder, Available, FillPrice, FeeOn, Missing, ExitRow;
    var o := s.orders[k];
    var qty := Available(c, s, o.symbol, remaining);
    if qty > 0.0 {
      var fillPrice := FillPrice(c, o.side, price, true);
      FillRows(c, s, k, qty, fillPrice, FeeOn(c, qty, fillPrice, true), Immediate(o, false));
    }
  }

  lemma ExecuteRows(c: Config, s: State, k: nat, price: real)
    requires k < |s.orders|
    ensures Leaves(c, s, Execute(c, s, k, price, true, false), s.orders[k].symbol, s.orders[k].side, s.orders[k].link)
  {
    hide ExecuteQty, Missing, Names, Costs;
    var o := s.orders[k];
    var remaining := o.qty - o.cum;
    if o.qty > 0.0 && remaining > 0.0 {
      QtyRows(c, s, k, remaining, price);
      if o.reduceOnly && Holds(s, o.symbol) {
        var size := s.positions[o.symbol].size;
        QtyRows(c, SetOrder(s, k, o.(qty := o.cum + size)), k, size, price);
      }
    }
  }

  /**
   * What an action adds to the funding log: a bar adds rows of the positions it found, an order at the close a row of
   * what it takes off, and nothing else adds any.
   */
  ghost predicate RowOf(c: Config, s: State, a: Action, e: Charge)
    requires 0.0 <= c.params.maintenance < 1.0
  {
    match a
    case Advance => e.tag.None? && BarRow(c, s.(index := s.index + 1), Act(c, s, a), e)
    case Place(t) => e.symbol == t.symbol && ExitRow(c, s, Act(c, s, a), t.side, t.link, e)
    case _ => false
  }

  predicate Listed(c: Config)
  {
    forall i, j :: 0 <= i < j < |c.data.symbols| ==> c.data.symbols[i] != c.data.symbols[j]
  }

  lemma PlaceRows(c: Config, s: State, t: Ticket)
    ensures Leaves(c, s, Create(c, s, t), t.symbol, t.side, t.link)
  {
    hide Execute, Missing, Names, Costs;
    if !OnFile(s, t.link) && t.symbol in c.data.bars {
      var o := Order(t.link, t.symbol, t.side, t.limit, t.qty, t.price, if t.conditional then Untriggered else New,
                     0.0, 0.0, PurposeOf(t), t.reduceOnly, 0.0);
      ExecuteRows(c, s.(orderSeq := s.orderSeq + 1, orders := s.orders + [o]), |s.orders|, Mark(c, s, t.symbol));
    }
  }

  lemma ActRows(c: Config, s: State, a: Action)
    requires 0.0 <= c.params.maintenance < 1.0 && Listed(c)
    ensures Extends(c, s.purse, Act(c, s, a).purse)
    ensures forall e :: e in Since(s.purse.log, Act(c, s, a).purse.log) ==> RowOf(c, s, a, e)
  {
    hide Create, ResolveAll, Missing, ExitRow, BarRow, CancelFrom;
    match a {
      case Advance => StepRows(c, s);
      case Place(t) => PlaceRows(c, s, t);
      case Cancel(link) => Unmoved(c, s, Act(c, s, a));
      case Protect(x, stop, target) => Unmoved(c, s, Act(c, s, a));
      case Read(x) => Unmoved(c, s, Act(c, s, a));
      case SetLeverage(leverage) => Unmoved(c, s, Act(c, s, a));
      case FailStops(n) => Unmoved(c, s, Act(c, s, a));
      case Drain => Unmoved(c, s, Act(c, s, a));
    }
  }

  lemma StepRows(c: Config, s: State)
    requires 0.0 <= c.params.maintenance < 1.0 && Listed(c)
    ensures Extends(c, s.purse, Step(c, s).purse)
    ensures forall e :: e in Since(s.purse.log, Step(c, s).purse.log) ==>
                          e.tag.None? && BarRow(c, s.(index := s.index + 1), Step(c, s), e)
  {
    hide ResolveAll, Missing, Costs, InsideRow, OpenRow, BarRow;
    if Exhausted(c, s) {
      Unmoved(c, s, s);
    } else {
      AllRows(c, s.(index := s.index + 1), c.data.symbols);
      forall e | BarRow(c, s.(index := s.index + 1), Step(c, s), e) ensures e.tag.None? {
        Untagged(c, s.(index := s.index + 1), Step(c, s), e);
      }
    }
  }

  lemma Untagged(c: Config, s: State, after: State, e: Charge)
    requires BarRow(c, s, after, e)
    ensures e.tag.None?
  {
  }

  // ---------------------------------------------------------------- over any run

  /** The row was added by the run's action `k`. */
  ghost predicate MadeAt(c: Config, s: State, actions: seq<Action>, k: nat, e: Charge)
    requires 0.0 <= c.params.maintenance < 1.0
  {
    k < |actions| && RowOf(c, Run(c, s, actions[..k]), actions[k], e)
  }

  /**
   * Every row a run adds to the funding log charges a position of that moment, on the size, at the rate and at the mark
   * that moment calls for, and moves the money the way its side calls for; the settlements counted as without a print
   * are those of them that had none.
   */
  lemma {:induction false} RunRows(c: Config, s: State, actions: seq<Action>)
    requires 0.0 <= c.params.maintenance < 1.0 && Listed(c)
    ensures var end := Run(c, s, actions);
            && Extends(c, s.purse, end.purse)
            && forall e :: e in Since(s.purse.log, end.purse.log) ==> exists k: nat :: MadeAt(c, s, actions, k, e)
    decreases |actions|
  {
    hide Act, RowOf, Missing;
    if actions == [] {
      Unmoved(c, s, s);
    } else {
      var next, end := Act(c, s, actions[0]), Run(c, s, actions);
      ActRows(c, s, actions[0]);
      RunRows(c, next, actions[1..]);
      ExtendsThen(c, s.purse, next.purse, end.purse);
      forall e | e in Since(s.purse.log, end.purse.log) ensures exists k: nat :: MadeAt(c, s, actions, k, e) {
        if e in Since(s.purse.log, next.purse.log) {
          assert actions[..0] == [] && MadeAt(c, s, actions, 0, e);
        } else {
          var k: nat :| MadeAt(c, next, actions[1..], k, e);
          assert actions[..k + 1][1..] == actions[1..][..k];
          assert MadeAt(c, s, actions, k + 1, e);
        }
      }
    }
  }

  // ---------------------------------------------------------------- what a hold pays

  predicate Matches(e: Charge, y: Stay, t: int, out: bool)
  {
    e.symbol == y.symbol && e.openedMs == y.openedMs && e.settle == t && e.tag.Some? == out
  }

  /** What the position was charged for a stamp, on the way out or otherwise. */
  function Cost(log: seq<Charge>, y: Stay, t: int, out: bool): real
    decreases |log|
  {
    if log == [] then 0.0
    else
      var e := log[|log| - 1];
      Cost(log[..|log| - 1], y, t, out) + if Matches(e, y, t, out) then e.paid else 0.0
  }

  /** And on what size. */
  function Sized(log: seq<Charge>, y: Stay, t: int, out: bool): real
  {
    if out then LeftWith(log, At(y, 0.0, t)) else Sizes(log, y.symbol, y.openedMs, t)
  }

  lemma LastSized(log: seq<Charge>, y: Stay, t: int, out: bool)
    requires log != []
    ensures Sized(log, y, t, out)
         == Sized(log[..|log| - 1], y, t, out)
            + if Matches(log[|log| - 1], y, t, out) then log[|log| - 1].size else 0.0
  {
  }

  lemma LastCost(log: seq<Charge>, y: Stay, t: int, out: bool)
    requires log != []
    ensures Cost(log, y, t, out)
         == Cost(log[..|log| - 1], y, t, out)
            + if Matches(log[|log| - 1], y, t, out) then log[|log| - 1].paid else 0.0
  {
  }

  lemma Spread(price: real, a: real, b: real)
    ensures price * (a + b) == price * a + price * b
  {
  }

  lemma LastSince(before: seq<Charge>, log: seq<Charge>)
    requires before <= log && |before| < |log|
    ensures before <= log[..|log| - 1]
    ensures forall e :: e in Since(before, log) <==> e in Since(before, log[..|log| - 1]) || e == log[|log| - 1]
  {
    assert Since(before, log) == Since(before, log[..|log| - 1]) + [log[|log| - 1]];
  }

  /** Rows all at one price per unit cost that price on their sizes. */
  lemma {:induction false} AtOnePrice(before: seq<Charge>, log: seq<Charge>, y: Stay, t: int, out: bool, price: real)
    requires before <= log
    requires forall e :: e in Since(before, log) && Matches(e, y, t, out) ==> e.paid == price * e.size
    ensures Cost(log, y, t, out) - Cost(before, y, t, out)
         == price * (Sized(log, y, t, out) - Sized(before, y, t, out))
    decreases |log|
  {
    hide Sized, Cost, Matches, Since;
    if |before| == |log| {
      assert before == log;
    } else {
      var rest, e := log[..|log| - 1], log[|log| - 1];
      LastSince(before, log);
      LastSized(log, y, t, out);
      LastCost(log, y, t, out);
      AtOnePrice(before, rest, y, t, out, price);
      Spread(price, Sized(rest, y, t, out) - Sized(before, y, t, out), e.size);
    }
  }

  /** During a close: the position, or one opened at this close. */
  predicate Original(y: Stay, s: State, m: int)
  {
    && s.index == m
    && (y.symbol in s.positions ==>
          var p := s.positions[y.symbol];
          p.openedAt == m || (p.openedAt == y.openedAt && p.side == y.side))
  }

  /** What leaves the position at a close pays at the close's price, by the position's side. */
  ghost predicate PaysLeaving(c: Config, y: Stay, m: int, e: Charge)
  {
    e.tag.Some? && (e.symbol == y.symbol && e.openedMs == y.openedMs ==>
                      e.paid
                      == Signed(y.side, SettledRate(c, y.symbol, e.settle)) * BarAt(c, y.symbol, m).close * e.size)
  }

  lemma ExitPays(c: Config, s: State, after: State, side: Side, link: int, e: Charge, y: Stay, m: int)
    requires ExitRow(c, s, after, side, link, e) && Original(y, s, m) && Apart(c, y.symbol)
    requires 0 <= y.openedAt <= m < |Series(c, y.symbol)| && Series(c, y.symbol)[y.openedAt].start == y.openedMs
    ensures PaysLeaving(c, y, m, e)
  {
    hide Costs;
    if e.symbol == y.symbol && e.openedMs == y.openedMs { CostsAt(c, e, y.side, BarAt(c, e.symbol, m).close); }
  }

  lemma CostsAt(c: Config, e: Charge, side: Side, mark: real)
    requires Costs(c, e, side, mark)
    ensures e.paid == Signed(side, SettledRate(c, e.symbol, e.settle)) * mark * e.size
  {
    hide SettledRate, RateIs;
    var rate :| RateIs(c, e.symbol, e.settle, rate) && e.paid == Signed(side, rate) * e.size * mark;
    SettledRateIs(c, e.symbol, e.settle, rate);
    Swap(Signed(side, rate), e.size, mark);
  }

  lemma {:induction false} ClosePays(c: Config, s: State, actions: seq<Action>, y: Stay, m: int)
    requires 0.0 <= c.params.maintenance < 1.0 && Listed(c) && Apart(c, y.symbol) && Original(y, s, m)
    requires 0 <= y.openedAt <= m < |Series(c, y.symbol)| && Series(c, y.symbol)[y.openedAt].start == y.openedMs
    requires forall i :: 0 <= i < |actions| ==> !actions[i].Advance?
    ensures Extends(c, s.purse, Run(c, s, actions).purse)
    ensures forall e :: e in Since(s.purse.log, Run(c, s, actions).purse.log) ==> PaysLeaving(c, y, m, e)
    decreases |actions|
  {
    hide Act, Missing, PaysLeaving, ExitRow, BarRow, Apart;
    if actions == [] {
      Unmoved(c, s, s);
    } else {
      var next, end := Act(c, s, actions[0]), Run(c, s, actions);
      ActRows(c, s, actions[0]);
      StaysOriginal(c, s, actions[0], y, m);
      ClosePays(c, next, actions[1..], y, m);
      ExtendsThen(c, s.purse, next.purse, end.purse);
      forall e | e in Since(s.purse.log, next.purse.log) ensures PaysLeaving(c, y, m, e) {
        assert RowOf(c, s, actions[0], e);
        ExitPays(c, s, next, actions[0].ticket.side, actions[0].ticket.link, e, y, m);
      }
    }
  }

  lemma StaysOriginal(c: Config, s: State, a: Action, y: Stay, m: int)
    requires 0.0 <= c.params.maintenance < 1.0 && !a.Advance? && Original(y, s, m)
    ensures Original(y, Act(c, s, a), m)
  {
    hide Create, Step, CancelFrom;
    if a.Place? { PlaceRows(c, s, a.ticket); }
  }

  /** The mark a settlement is charged at in bar `n`: at its start and before it the open, inside it the dearer end. */
  function MarkIn(c: Config, y: Stay, n: int, t: int): real
  {
    var bar := BarAt(c, y.symbol, n);
    if t <= bar.start then bar.open
    else if Signed(y.side, SettledRate(c, y.symbol, t)) > 0.0 then Higher(bar)
    else Lower(bar)
  }

  lemma BarPays(c: Config, s: State, after: State, e: Charge, y: Stay)
    requires BarRow(c, s, after, e) && e.symbol == y.symbol && y.symbol in s.positions
    requires s.positions[y.symbol].side == y.side
    ensures e.paid == Signed(y.side, SettledRate(c, y.symbol, e.settle)) * MarkIn(c, y, s.index, e.settle) * e.size
  {
    hide Costs, InsideRow, Begin, End, SettledRate, BarAt;
    var bar, p := BarAt(c, y.symbol, s.index), s.positions[y.symbol];
    if OpenRow(c, y.symbol, bar, s.index, p, e) {
      CostsAt(c, e, y.side, bar.open);
    } else {
      InsidePays(c, y.symbol, bar, p, LeftOf(after, y.symbol, p), e);
    }
  }

  lemma InsidePays(c: Config, x: int, bar: Bar, p: Position, left: Option<real>, e: Charge)
    requires InsideRow(c, x, bar, p, left, e)
    ensures bar.start < e.settle
    ensures var rate := Signed(p.side, SettledRate(c, x, e.settle));
            e.paid == rate * (if rate > 0.0 then Higher(bar) else Lower(bar)) * e.size
  {
    hide SettledRate, RateIs;
    forall rate { SettledRateIs(c, x, e.settle, rate); }
    var rate := Signed(p.side, SettledRate(c, x, e.settle));
    Swap(rate, e.size, if rate > 0.0 then Higher(bar) else Lower(bar));
  }

  /**
   * What is due for a stamp that comes to be owed by the next bar: at the settled rate, by the position's side, on what
   * is held then. At the stamp the bar starts with, what left at the close pays at the close and the rest at the open.
   */
  function DayDollars(c: Config, s: State, actions: seq<Action>, y: Stay, t: int): real
    requires 0.0 <= c.params.maintenance < 1.0
  {
    var after, bar := Run(c, s, actions), BarAt(c, y.symbol, s.index + 1);
    if y.symbol !in s.positions || y.symbol !in after.positions then 0.0
    else
      var p, rate := after.positions[y.symbol], Signed(y.side, SettledRate(c, y.symbol, t));
      if t == bar.start then
        var kept := p.size - if t in p.lateAdds then p.lateAdds[t] else 0.0;
        rate * ((s.positions[y.symbol].size - kept) * BarAt(c, y.symbol, s.index).close + kept * bar.open)
      else rate * p.size * MarkIn(c, y, s.index + 1, t)
  }

  function Paid(log: seq<Charge>, y: Stay, t: int): real { Cost(log, y, t, true) + Cost(log, y, t, false) }

  /** A close's rows, summed at one stamp. */
  lemma LeavingCost(c: Config, before: seq<Charge>, log: seq<Charge>, y: Stay, m: int, t: int)
    requires before <= log && forall e :: e in Since(before, log) ==> PaysLeaving(c, y, m, e)
    ensures Cost(log, y, t, true) - Cost(before, y, t, true)
         == Signed(y.side, SettledRate(c, y.symbol, t)) * BarAt(c, y.symbol, m).close
            * (LeftWith(log, At(y, 0.0, t)) - LeftWith(before, At(y, 0.0, t)))
    ensures Cost(log, y, t, false) == Cost(before, y, t, false)
  {
    hide SettledRate, Cost, LeftWith, BarAt;
    AtOnePrice(before, log, y, t, true, Signed(y.side, SettledRate(c, y.symbol, t)) * BarAt(c, y.symbol, m).close);
    AtOnePrice(before, log, y, t, false, 0.0);
  }

  /** A bar's rows, summed at one stamp. */
  lemma StepCost(c: Config, s: State, y: Stay, t: int)
    requires 0.0 <= c.params.maintenance < 1.0 && Listed(c) && y.symbol in s.positions
    requires s.positions[y.symbol].side == y.side
    ensures var log := Step(c, s).purse.log;
            && Cost(log, y, t, true) == Cost(s.purse.log, y, t, true)
            && Cost(log, y, t, false) - Cost(s.purse.log, y, t, false)
               == Signed(y.side, SettledRate(c, y.symbol, t)) * MarkIn(c, y, s.index + 1, t)
                  * (Sizes(log, y.symbol, y.openedMs, t) - Sizes(s.purse.log, y.symbol, y.openedMs, t))
  {
    hide SettledRate, Cost, Sizes, MarkIn, Step, BarRow, Missing;
    StepRows(c, s);
    var log := Step(c, s).purse.log;
    forall e | e in Since(s.purse.log, log) && Matches(e, y, t, false)
      ensures e.paid == Signed(y.side, SettledRate(c, y.symbol, t)) * MarkIn(c, y, s.index + 1, t) * e.size {
      BarPays(c, s.(index := s.index + 1), Step(c, s), e, y);
    }
    AtOnePrice(s.purse.log, log, y, t, true, 0.0);
    AtOnePrice(s.purse.log, log, y, t, false,
               Signed(y.side, SettledRate(c, y.symbol, t)) * MarkIn(c, y, s.index + 1, t));
  }

  lemma Split(rate: real, held: real, kept: real, close: real, open: real)
    ensures rate * close * (held - kept) + rate * open * kept == rate * ((held - kept) * close + kept * open)
  {
    Spread(rate, (held - kept) * close, kept * open);
  }

  lemma Swap(rate: real, size: real, mark: real)
    ensures rate * mark * size == rate * size * mark
  {
  }

  /** The rows of a close and of the bar after it, in dollars, by the sizes they were charged on. */
  lemma DayCosts(c: Config, s: State, actions: seq<Action>, y: Stay, t: int)
    requires 0.0 <= c.params.maintenance < 1.0 && Apart(c, y.symbol) && y.symbol in c.data.symbols
    requires Standing(c, s, y) && Day(c, s, actions, y) && BarsToCome(c, s, 1) && s.index + 1 < |Series(c, y.symbol)|
    ensures var after, rate := Run(c, s, actions), Signed(y.side, SettledRate(c, y.symbol, t));
            var log, left := Step(c, after).purse.log,
                             LeftWith(after.purse.log, At(y, 0.0, t)) - LeftWith(s.purse.log, At(y, 0.0, t));
            Paid(log, y, t) - Paid(s.purse.log, y, t)
            == rate * BarAt(c, y.symbol, s.index).close * left
            + rate * MarkIn(c, y, s.index + 1, t)
            * (Sizes(log, y.symbol, y.openedMs, t) - Sizes(s.purse.log, y.symbol, y.openedMs, t))
  {
    hide Run, Step, LeftWith, Sizes, Times, TagsOnFile, SettledRate, Missing, PaysLeaving, Cost, Apart, MarkIn, BarAt;
    var after := Run(c, s, actions);
    RunStands(c, s, actions, y.symbol, SnapOf(y));
    ClosePays(c, s, actions, y, s.index);
    LeavingCost(c, s.purse.log, after.purse.log, y, s.index, t);
    StepCost(c, after, y, t);
  }

  lemma DayPays(c: Config, s: State, actions: seq<Action>, y: Stay, t: int)
    requires 0.0 <= c.params.maintenance < 1.0 && Apart(c, y.symbol) && y.symbol in c.data.symbols
    requires Standing(c, s, y) && Day(c, s, actions, y) && BarsToCome(c, s, 1) && s.index + 1 < |Series(c, y.symbol)|
    requires Settled(c, s.purse, y.symbol, SnapOf(y), s.index)
    ensures Paid(Step(c, Run(c, s, actions)).purse.log, y, t) - Paid(s.purse.log, y, t)
         == if NewlyOwed(c, y, s.index, t) then DayDollars(c, s, actions, y, t) else 0.0
  {
    hide Run, Step, Settled, LeftWith, Sizes, TagsOnFile, SettledRate, Paid, Apart, NewlyOwed;
    var after := Run(c, s, actions);
    var bar, held, p := BarAt(c, y.symbol, s.index + 1), s.positions[y.symbol].size, after.positions[y.symbol];
    var rate := Signed(y.side, SettledRate(c, y.symbol, t));
    DayCharges(c, s, actions, y);
    CloseLeaves(c, s, actions, y, t);
    DayCosts(c, s, actions, y, t);
    StampIsNew(c, y, s.index, t);
    RunStands(c, s, actions, y.symbol, SnapOf(y));
    if NewlyOwed(c, y, s.index, t) {
      if t == bar.start {
        Split(rate, held, p.size - LateAt(p.lateAdds, t), BarAt(c, y.symbol, s.index).close, bar.open);
      } else {
        LateIsOld(c, y, s.index, p, t);
        Swap(rate, p.size, MarkIn(c, y, s.index + 1, t));
      }
    }
  }

  /** What is due for a stamp over the whole hold: on the day it comes to be owed, and nothing for any other. */
  function DollarsAt(c: Config, s: State, closes: seq<seq<Action>>, y: Stay, t: int): real
    requires 0.0 <= c.params.maintenance < 1.0
    decreases |closes|
  {
    if closes == [] then 0.0
    else if NewlyOwed(c, y, s.index, t) then DayDollars(c, s, closes[0], y, t)
    else DollarsAt(c, Step(c, Run(c, s, closes[0])), closes[1..], y, t)
  }

  /** A hold: the position stands, its clock is settled, and there are bars enough. */
  ghost predicate Holding(c: Config, s: State, closes: seq<seq<Action>>, y: Stay)
    requires 0.0 <= c.params.maintenance < 1.0
  {
    && Apart(c, y.symbol) && y.symbol in c.data.symbols && Standing(c, s, y) && EachDay(c, s, closes, y)
    && BarsToCome(c, s, |closes|) && s.index + |closes| < |Series(c, y.symbol)|
    && Settled(c, s.purse, y.symbol, SnapOf(y), s.index)
  }

  lemma OneDay(c: Config, s: State, closes: seq<seq<Action>>, y: Stay)
    requires 0.0 <= c.params.maintenance < 1.0 && Holding(c, s, closes, y) && closes != []
    ensures var next := Step(c, Run(c, s, closes[0]));
            && Holding(c, next, closes[1..], y) && next.index == s.index + 1
            && Run(c, s, Days(closes)) == Run(c, next, Days(closes[1..]))
            && forall t :: Paid(next.purse.log, y, t) - Paid(s.purse.log, y, t)
                           == if NewlyOwed(c, y, s.index, t) then DayDollars(c, s, closes[0], y, t) else 0.0
  {
    hide Run, Step, Settled, Standing, Owed, Apart, Paid, DayDollars;
    FewerBars(c, s, |closes|);
    DayCharges(c, s, closes[0], y);
    DayThen(c, s, closes[0], Days(closes[1..]));
    forall t { DayPays(c, s, closes[0], y, t); }
  }

  /** Only what comes to be owed over the hold is due at all. */
  lemma {:induction false} DueIfOwed(c: Config, s: State, closes: seq<seq<Action>>, y: Stay, t: int)
    requires 0.0 <= c.params.maintenance < 1.0 && Holding(c, s, closes, y)
    ensures DollarsAt(c, s, closes, y, t) != 0.0 ==>
              Owed(c, y.symbol, y.openedAt, s.index + |closes|, t) && !Owed(c, y.symbol, y.openedAt, s.index, t)
    decreases |closes|
  {
    hide Run, Step, Settled, Standing, Owed, Apart, Paid, DayDollars;
    if closes != [] {
      OneDay(c, s, closes, y);
      StandsIn(c, s, y);
      DueIfOwed(c, Step(c, Run(c, s, closes[0])), closes[1..], y, t);
      if Owed(c, y.symbol, y.openedAt, s.index, t) { OwedLater(c, s, closes, y, s.index, s.index + 1, t); }
      if Owed(c, y.symbol, y.openedAt, s.index + 1, t) {
        OwedLater(c, s, closes, y, s.index + 1, s.index + |closes|, t);
      }
    }
  }

  lemma OwedLater(c: Config, s: State, closes: seq<seq<Action>>, y: Stay, m: int, n: int, t: int)
    requires 0.0 <= c.params.maintenance < 1.0 && Holding(c, s, closes, y) && s.index <= m <= n <= s.index + |closes|
    requires Owed(c, y.symbol, y.openedAt, m, t)
    ensures Owed(c, y.symbol, y.openedAt, n, t)
  {
    hide EachDay, Settled, Owed;
    OwedMonotone(c, y.symbol, y.openedAt, m, n, t);
  }

  /**
   * Over a hold each settlement that comes to be owed moves the money by the settled rate on the size held at its
   * stamp, a long paying what a short receives, and no other moves it at all.
   */
  lemma {:induction false} HoldPays(c: Config, s: State, closes: seq<seq<Action>>, y: Stay, t: int)
    requires 0.0 <= c.params.maintenance < 1.0 && Holding(c, s, closes, y)
    ensures Paid(Run(c, s, Days(closes)).purse.log, y, t) - Paid(s.purse.log, y, t) == DollarsAt(c, s, closes, y, t)
    decreases |closes|
  {
    hide Run, Step, Holding, Owed, Paid, DayDollars;
    if closes == [] {
      NoDays(c, s);
    } else {
      OneDay(c, s, closes, y);
      var next := Step(c, Run(c, s, closes[0]));
      HoldPays(c, next, closes[1..], y, t);
      DueIfOwed(c, next, closes[1..], y, t);
    }
  }

  // ---------------------------------------------------------------- and in all

  /** What some stamps cost the position together. */
  function Over(log: seq<Charge>, y: Stay, stamps: seq<int>): real
  {
    if stamps == [] then 0.0 else Over(log, y, stamps[..|stamps| - 1]) + Paid(log, y, stamps[|stamps| - 1])
  }

  function Due(c: Config, s: State, closes: seq<seq<Action>>, y: Stay, stamps: seq<int>): real
    requires 0.0 <= c.params.maintenance < 1.0
    decreases |stamps|
  {
    if stamps == [] then 0.0
    else Due(c, s, closes, y, stamps[..|stamps| - 1]) + DollarsAt(c, s, closes, y, stamps[|stamps| - 1])
  }

  /** What was charged to any other position. */
  function Others(log: seq<Charge>, y: Stay): real
    decreases |log|
  {
    if log == [] then 0.0
    else
      var e := log[|log| - 1];
      Others(log[..|log| - 1], y) + if e.symbol == y.symbol && e.openedMs == y.openedMs then 0.0 else e.paid
  }

  predicate Once(stamps: seq<int>) { forall i, j :: 0 <= i < j < |stamps| ==> stamps[i] != stamps[j] }

  lemma {:induction false} OverLast(log: seq<Charge>, y: Stay, stamps: seq<int>)
    requires log != [] && Once(stamps)
    ensures var e := log[|log| - 1];
            Over(log, y, stamps)
            == Over(log[..|log| - 1], y, stamps)
            + if e.symbol == y.symbol && e.openedMs == y.openedMs && e.settle in stamps then e.paid else 0.0
    decreases |stamps|
  {
    if stamps != [] {
      var last := |stamps| - 1;
      assert stamps == stamps[..last] + [stamps[last]];
      OverLast(log, y, stamps[..last]);
    }
  }

  /** Stamps that include all of the position's account for the whole log, the other positions' rows apart. */
  lemma {:induction false} OverAll(log: seq<Charge>, y: Stay, stamps: seq<int>)
    requires Once(stamps) && forall e :: e in log ==> e.settle in stamps
    ensures A.Charged(log) == Over(log, y, stamps) + Others(log, y)
    decreases |log|
  {
    hide Paid, Once;
    if log == [] {
      OverNone(y, stamps);
    } else {
      OverAll(log[..|log| - 1], y, stamps);
      OverLast(log, y, stamps);
    }
  }

  lemma {:induction false} OverNone(y: Stay, stamps: seq<int>)
    ensures Over([], y, stamps) == 0.0
    decreases |stamps|
  {
    if stamps != [] { OverNone(y, stamps[..|stamps| - 1]); }
  }

  /** The stamps and, after them, those of the log that are missing. */
  function WithRows(log: seq<Charge>, stamps: seq<int>): (r: seq<int>)
    requires Once(stamps)
    ensures Once(r) && stamps <= r && forall e :: e in log ==> e.settle in r
    decreases |log|
  {
    if log == [] then stamps
    else
      var rest, t := WithRows(log[..|log| - 1], stamps), log[|log| - 1].settle;
      assert forall e :: e in log ==> e in log[..|log| - 1] || e == log[|log| - 1];
      if t in rest then rest else rest + [t]
  }

  /** Stamps nothing was charged for between two logs may be left out. */
  lemma {:induction false} OverSame(a: seq<Charge>, b: seq<Charge>, y: Stay, stamps: seq<int>, all: seq<int>)
    requires stamps <= all && Once(all) && forall t :: t in all && t !in stamps ==> Paid(a, y, t) == Paid(b, y, t)
    ensures Over(b, y, all) - Over(a, y, all) == Over(b, y, stamps) - Over(a, y, stamps)
    decreases |all|
  {
    hide Paid;
    if |stamps| == |all| {
      assert stamps == all;
    } else {
      var rest := all[..|all| - 1];
      assert all[|all| - 1] in all && forall i :: 0 <= i < |stamps| ==> stamps[i] == all[i];
      assert forall t :: t in rest ==> t in all;
      OverSame(a, b, y, stamps, rest);
    }
  }

  /** The stamp comes to be owed over the next bars. */
  predicate ComesDue(c: Config, s: State, y: Stay, bars: nat, t: int)
  {
    Owed(c, y.symbol, y.openedAt, s.index + bars, t) && !Owed(c, y.symbol, y.openedAt, s.index, t)
  }

  lemma {:induction false} OverDue(c: Config, s: State, closes: seq<seq<Action>>, y: Stay, stamps: seq<int>)
    requires 0.0 <= c.params.maintenance < 1.0 && Holding(c, s, closes, y)
    ensures Over(Run(c, s, Days(closes)).purse.log, y, stamps) - Over(s.purse.log, y, stamps)
         == Due(c, s, closes, y, stamps)
    decreases |stamps|
  {
    hide Run, Holding, Paid, DollarsAt;
    if stamps != [] {
      OverDue(c, s, closes, y, stamps[..|stamps| - 1]);
      HoldPays(c, s, closes, y, stamps[|stamps| - 1]);
    }
  }

  /**
   * The dollars of a hold. Take any list, each once, of all stamps that come to be owed over it: the funding paid moves
   * by what is due for them together, and by what other positions were charged; and at any marks the account is worth
   * that much less, fees and the gains of fills apart.
   */
  lemma HoldPaysInAll(c: Config, s: State, closes: seq<seq<Action>>, y: Stay, stamps: seq<int>, marks: int -> real)
    requires 0.0 <= c.params.maintenance < 1.0 && Holding(c, s, closes, y) && Once(stamps)
    requires forall t :: ComesDue(c, s, y, |closes|, t) ==> t in stamps
    ensures var end, actions := Run(c, s, Days(closes)), Days(closes);
            var paid := Due(c, s, closes, y, stamps) + Others(end.purse.log, y) - Others(s.purse.log, y);
            && end.purse.fundingPaid == s.purse.fundingPaid + paid
            && A.Worth(end, marks)
               == A.Worth(s, marks) - paid - (end.feesPaid - s.feesPaid) + A.Gains(A.Fills(c, s, actions), marks)
  {
    hide Run, Step, Holding, Owed, Paid, DollarsAt, Over, Due, Others, A.Charged, A.Worth, A.Fills, Days, Once, Missing;
    var end, all := Run(c, s, Days(closes)), WithRows(Run(c, s, Days(closes)).purse.log, stamps);
    A.EquityIdentity(c, s, Days(closes), marks);
    Grows(c, s, closes, y);
    assert forall e :: e in s.purse.log ==> e in end.purse.log;
    OverAll(end.purse.log, y, all);
    OverAll(s.purse.log, y, all);
    forall t | t in all && t !in stamps ensures Paid(s.purse.log, y, t) == Paid(end.purse.log, y, t) {
      HoldPays(c, s, closes, y, t);
      DueIfOwed(c, s, closes, y, t);
    }
    OverSame(s.purse.log, end.purse.log, y, stamps, all);
    OverDue(c, s, closes, y, stamps);
  }

  lemma Grows(c: Config, s: State, closes: seq<seq<Action>>, y: Stay)
    requires 0.0 <= c.params.maintenance < 1.0 && Holding(c, s, closes, y)
    ensures s.purse.log <= Run(c, s, Days(closes)).purse.log
  {
    hide Run, Days, Standing, EachDay, Settled, Missing, MadeAt;
    RunRows(c, s, Days(closes));
  }
}
