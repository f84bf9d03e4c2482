/**
 A position over its whole life: the clock between the closes and the boundary at each of them, put together. Every
 settlement owed is charged on the size held at its stamp.
 */
module FundingHold {
  import opened Basics
  import opened PerpVenue
  import opened FundingClock
  import opened FundingBoundary

  // ---------------------------------------------------------------- exits at other stamps

  /** The symbol's position, if there is one, was opened in the bar now closing. */
  predicate Young(s: State, g: Held)
  {
    Holds(s, g.symbol) ==> s.positions[g.symbol].openedAt == s.index
  }

  /** Nothing that leaves at this close can be charged for that stamp, or to that position. */
  predicate NotNow(c: Config, s: State, g: Held) { Boundary(c, g.symbol, s.index) != Some(g.settle) || Young(s, g) }

  ghost predicate LeftStands(c: Config, s: State, after: State, g: Held)
  {
    && after.index == s.index && LeftWith(after.purse.log, g) == LeftWith(s.purse.log, g)
    && (NotNow(c, s, g) ==> NotNow(c, after, g))
  }

  lemma LeavingStands(c: Config, s: State, symbol: int, closing: real, link: int, g: Held)
    requires NotNow(c, s, g) && Holds(s, symbol)
    ensures var after := ChargeLeaving(c, s, symbol, s.positions[symbol], closing, link, false);
            && LeftWith(after.purse.log, g) == LeftWith(s.purse.log, g)
            && after.positions == s.positions && after.index == s.index
  {
    hide SettledRate, Dir, Unprinted;
    var after := ChargeLeaving(c, s, symbol, s.positions[symbol], closing, link, false);
    if after.purse.log != s.purse.log { assert after.purse.log[..|after.purse.log| - 1] == s.purse.log; }
  }

  lemma TradeLeftStands(c: Config, s: State, symbol: int, side: Side, link: int, qty: Qty, price: real, fee: real,
                        g: Held)
    requires NotNow(c, s, g) && Trade(c, s, symbol, side, link, qty, price, fee, false).Some?
    ensures LeftStands(c, s, Trade(c, s, symbol, side, link, qty, price, fee, false).value, g)
  {
    hide Affordable, ChargeLeaving, Gain, Boundary, LeftWith;
    if Holds(s, symbol) {
      var p := s.positions[symbol];
      LeavingStands(c, s, symbol, Min(qty, p.size), link, g);
    }
  }

  lemma FillLeftStands(c: Config, s: State, k: nat, qty: Qty, price: real, fee: real, market: bool, g: Held)
    requires k < |s.orders| && qty > 0.0 && NotNow(c, s, g)
    ensures LeftStands(c, s, FillOrder(c, s, k, qty, price, fee, market, false), g)
  {
    hide Trade, WithFill, LeftWith, Boundary;
    var o := s.orders[k];
    if Trade(c, s, o.symbol, o.side, o.link, qty, price, fee, false).Some? {
      TradeLeftStands(c, s, o.symbol, o.side, o.link, qty, price, fee, g);
    }
  }

  lemma QtyLeftStands(c: Config, s: State, k: nat, remaining: Qty, price: real, g: Held)
    requires k < |s.orders| && NotNow(c, s, g)
    ensures LeftStands(c, s, ExecuteQty(c, s, k, remaining, price, true, false), g)
  {
    hide FillOrder, Available, FillPrice, FeeOn, LeftWith, Boundary;
    var o := s.orders[k];
    var qty := Available(c, s, o.symbol, remaining);
    if qty > 0.0 {
      var fillPrice := FillPrice(c, o.side, price, true);
      FillLeftStands(c, s, k, qty, fillPrice, FeeOn(c, qty, fillPrice, true), Immediate(o, false), g);
    }
  }

  lemma ExecuteLeftStands(c: Config, s: State, k: nat, price: real, g: Held)
    requires k < |s.orders| && NotNow(c, s, g)
    ensures LeftStands(c, s, Execute(c, s, k, price, true, false), g)
  {
    hide ExecuteQty, LeftWith, Boundary;
    var o := s.orders[k];
    var remaining := o.qty - o.cum;
    if o.qty > 0.0 && remaining > 0.0 {
      QtyLeftStands(c, s, k, remaining, price, g);
      if o.reduceOnly && Holds(s, o.symbol) {
        var size := s.positions[o.symbol].size;
        QtyLeftStands(c, SetOrder(s, k, o.(qty := o.cum + size)), k, size, price, g);
      }
    }
  }

  lemma ActLeftStands(c: Config, s: State, a: Action, g: Held)
    requires 0.0 <= c.params.maintenance < 1.0 && !a.Advance? && NotNow(c, s, g)
    ensures LeftStands(c, s, Act(c, s, a), g)
  {
    hide Execute, Step, LeftWith, CancelFrom, Boundary;
    if a.Place? && !OnFile(s, a.ticket.link) && a.ticket.symbol in c.data.bars {
      var t := a.ticket;
      var o := Order(t.link, t.symbol, t.side, t.limit, t.qty, t.price, if t.conditional then Untriggered else New,
                     0.0, 0.0,
                     PurposeOf(t), t.reduceOnly, 0.0);
      ExecuteLeftStands(c, s.(orderSeq := s.orderSeq + 1, orders := s.orders + [o]), |s.orders|, Mark(c, s, t.symbol),
                        g);
    }
  }

  lemma {:induction false} RunLeftStands(c: Config, s: State, actions: seq<Action>, g: Held)
    requires 0.0 <= c.params.maintenance < 1.0 && NotNow(c, s, g) && forall i :: 0 <= i < |actions| ==>
                                                                                   !actions[i].Advance?
    ensures LeftStands(c, s, Run(c, s, actions), g)
    decreases |actions|
  {
    hide Act, LeftWith, NotNow;
    if actions != [] {
      ActLeftStands(c, s, actions[0], g);
      RunLeftStands(c, Act(c, s, actions[0]), actions[1..], g);
    }
  }

  // ---------------------------------------------------------------- one close and the bar after it

  /** The position by its symbol, side and the bar it was opened in; `At` looks at one stamp of it. */
  datatype Stay = Stay(symbol: int, openedAt: int, openedMs: int, side: Side)

  function SnapOf(y: Stay): Snapshot { Snapshot(y.side, y.openedMs, y.openedAt) }

  function At(y: Stay, size: real, t: int): Held { Held(y.symbol, y.openedAt, y.openedMs, y.side, size, t) }

  /** All it was charged on for one stamp, on the way out and otherwise. */
  function Total(log: seq<Charge>, y: Stay, t: int): real { ChargedFor(log, At(y, 0.0, t)) }

  /** It is held, as opened then, and what was added since has stamps gone by. */
  ghost predicate Standing(c: Config, s: State, y: Stay)
  {
    && 0 <= y.openedAt <= s.index < |Series(c, y.symbol)| && Series(c, y.symbol)[y.openedAt].start == y.openedMs
    && TagsOnFile(s) && Holds(s, y.symbol)
    && var p := s.positions[y.symbol];
    p.openedAt == y.openedAt && p.side == y.side && forall t :: t in p.lateAdds ==>
                                                                  t <= Series(c, y.symbol)[s.index].start
  }

  /** Bars follow each other without overlapping. */
  ghost predicate Apart(c: Config, x: int)
  {
    Increasing(c, x) && forall i :: 0 <= i < |Series(c, x)| - 1 ==> End(c, x, i) <= Series(c, x)[i + 1].start
  }

  /**
   * One close and the bar after it, as far as the position goes: anything is done at the close that leaves some of what
   * was held, and the bar leaves its size alone.
   */
  ghost predicate Day(c: Config, s: State, actions: seq<Action>, y: Stay)
    requires 0.0 <= c.params.maintenance < 1.0
  {
    && (forall i :: 0 <= i < |actions| ==> !actions[i].Advance?)
    && var after := Run(c, s, actions);
    && Holds(after, y.symbol) && after.positions[y.symbol].side == y.side
    && HeldSince(c, y.symbol, y.openedAt, s.index, after.positions[y.symbol])
    && HeldAs(Step(c, after), y.symbol, after.positions[y.symbol])
  }

  /**
   * The size at a stamp that comes to be owed by the next bar: before the close for the stamp it starts with, else
   * after it.
   */
  function SizeAt(c: Config, s: State, actions: seq<Action>, y: Stay, t: int): real
    requires 0.0 <= c.params.maintenance < 1.0
  {
    var held := if t == BarAt(c, y.symbol, s.index + 1).start then s else Run(c, s, actions);
    if y.symbol in held.positions then held.positions[y.symbol].size else 0.0
  }

  predicate NewlyOwed(c: Config, y: Stay, m: int, t: int)
  {
    Owed(c, y.symbol, y.openedAt, m + 1, t) && !Owed(c, y.symbol, y.openedAt, m, t)
  }

  /** What leaves at the close: at the stamp the next bar starts with what the close took off, at any other nothing. */
  lemma CloseLeaves(c: Config, s: State, actions: seq<Action>, y: Stay, t: int)
    requires 0.0 <= c.params.maintenance < 1.0 && Apart(c, y.symbol) && Standing(c, s, y) && Day(c, s, actions, y)
    requires s.index + 1 < |Series(c, y.symbol)|
    ensures var after := Run(c, s, actions);
            var left, p := LeftWith(after.purse.log, At(y, 0.0, t)) - LeftWith(s.purse.log, At(y, 0.0, t)),
                           after.positions[y.symbol];
            if NewlyOwed(c, y, s.index, t) && t == Series(c, y.symbol)[s.index + 1].start
            then left + p.size - LateAt(p.lateAdds, t) == s.positions[y.symbol].size
            else left == 0.0
  {
    hide Run, LeftWith, Removed, Added, TagsOnFile, HeldAs, Step;
    var x, m, start := y.symbol, s.index, Series(c, y.symbol)[s.index + 1].start;
    var size, after := s.positions[y.symbol].size, Run(c, s, actions);
    SameLeft(after.purse.log, y, size, t);
    SameLeft(s.purse.log, y, size, t);
    var h := At(y, size, t);
    StampIsNew(c, y, m, t);
    if NewlyOwed(c, y, m, t) && t == start {
      LeavingExact(c, s, actions, h);
      assert after.positions[x].size - LateAt(after.positions[x].lateAdds, t) > 0.0;
    } else {
      RunLeftStands(c, s, actions, h);
    }
  }

  /** The stamp a bar starts with comes to be owed by it, unless the position was opened at the close just before. */
  lemma StampIsNew(c: Config, y: Stay, m: int, t: int)
    requires Apart(c, y.symbol) && 0 <= y.openedAt <= m < |Series(c, y.symbol)| - 1
    ensures Boundary(c, y.symbol, m) == Some(t) ==> (NewlyOwed(c, y, m, t) <==> y.openedAt < m)
    ensures NewlyOwed(c, y, m, t) && t == Series(c, y.symbol)[m + 1].start ==>
              Boundary(c, y.symbol, m) == Some(t) && y.openedAt < m
    ensures Series(c, y.symbol)[m].start < Series(c, y.symbol)[m + 1].start
    ensures NewlyOwed(c, y, m, t) ==> Begin(c, y.symbol, m + 1) <= t && Series(c, y.symbol)[m].start < t
  {
    var x, k := y.symbol, y.openedAt;
    assert Series(c, x)[m].start < Series(c, x)[m + 1].start && End(c, x, m) <= Series(c, x)[m + 1].start;
    if k < m { assert Series(c, x)[k + 1].start < Series(c, x)[m + 1].start; }
    OwedGrows(c, x, k, m + 1, t);
  }

  /** The size in a `Held` says nothing of what was charged. */
  lemma {:induction false} SameLeft(log: seq<Charge>, y: Stay, size: real, t: int)
    ensures LeftWith(log, At(y, size, t)) == LeftWith(log, At(y, 0.0, t))
    decreases |log|
  {
    if log != [] { SameLeft(log[..|log| - 1], y, size, t); }
  }

  /** A close and a bar: each stamp that comes to be owed is charged, by both together, on the size held at it. */
  lemma DayCharges(c: Config, s: State, actions: seq<Action>, y: Stay)
    requires 0.0 <= c.params.maintenance < 1.0 && Apart(c, y.symbol) && y.symbol in c.data.symbols
    requires Standing(c, s, y) && Day(c, s, actions, y) && BarsToCome(c, s, 1) && s.index + 1 < |Series(c, y.symbol)|
    requires Settled(c, s.purse, y.symbol, SnapOf(y), s.index)
    ensures var next := Step(c, Run(c, s, actions));
            && next.index == s.index + 1 && Standing(c, next, y)
            && Settled(c, next.purse, y.symbol, SnapOf(y), next.index)
            && forall t :: Total(next.purse.log, y, t) - Total(s.purse.log, y, t)
                           == if NewlyOwed(c, y, s.index, t) then SizeAt(c, s, actions, y, t) else 0.0
    ensures var after := Run(c, s, actions);
            forall t :: Sizes(Step(c, after).purse.log, y.symbol, y.openedMs, t)
                        == Sizes(s.purse.log, y.symbol, y.openedMs, t)
                           + if NewlyOwed(c, y, s.index, t)
                           then after.positions[y.symbol].size - LateAt(after.positions[y.symbol].lateAdds, t)
                           else 0.0
  {
    hide Run, Step, Settled, LeftWith, Sizes, Times, TagsOnFile, Increasing, HeldSince;
    var after := Run(c, s, actions);
    var next, p, snap := Step(c, after), after.positions[y.symbol], SnapOf(y);
    RunStands(c, s, actions, y.symbol, snap);
    SettledStays(c, s.purse, after.purse, y.symbol, snap, s.index);
    StepTiles(c, after, y.symbol, y.openedAt, p);
    StillStanding(c, s, actions, y);
    forall t ensures Total(next.purse.log, y, t) - Total(s.purse.log, y, t)
                  == if NewlyOwed(c, y, s.index, t) then SizeAt(c, s, actions, y, t) else 0.0
      ensures Sizes(next.purse.log, y.symbol, y.openedMs, t)
           == Sizes(s.purse.log, y.symbol, y.openedMs, t)
              + if NewlyOwed(c, y, s.index, t) then p.size - LateAt(p.lateAdds, t) else 0.0 {
      CloseLeaves(c, s, actions, y, t);
      StepPlain(c, after, At(y, 0.0, t));
      StampIsNew(c, y, s.index, t);
      if NewlyOwed(c, y, s.index, t) && t != Series(c, y.symbol)[s.index + 1].start { LateIsOld(c, y, s.index, p, t); }
      assert Sizes(after.purse.log, y.symbol, y.openedMs, t) == Sizes(s.purse.log, y.symbol, y.openedMs, t);
      assert Sizes(next.purse.log, y.symbol, y.openedMs, t)
          == Sizes(after.purse.log, y.symbol, y.openedMs, t) + if NewlyOwed(c, y, s.index, t)
             then p.size - LateAt(p.lateAdds, t) else 0.0;
    }
  }

  /** A stamp that comes to be owed inside the next bar, or before its start, is not that of an add. */
  lemma LateIsOld(c: Config, y: Stay, m: int, p: Position, t: int)
    requires HeldSince(c, y.symbol, y.openedAt, m, p) && m + 1 < |Series(c, y.symbol)|
    requires Series(c, y.symbol)[m].start < t && t != Series(c, y.symbol)[m + 1].start
    ensures LateAt(p.lateAdds, t) == 0.0
  {
  }

  lemma StepPlain(c: Config, s: State, g: Held)
    requires 0.0 <= c.params.maintenance < 1.0
    ensures LeftWith(Step(c, s).purse.log, g) == LeftWith(s.purse.log, g)
  {
    hide ResolveAll, LeftWith;
    BarsPlain(c, s.(index := s.index + 1), c.data.symbols, g);
  }

  lemma StillStanding(c: Config, s: State, actions: seq<Action>, y: Stay)
    requires 0.0 <= c.params.maintenance < 1.0 && Apart(c, y.symbol) && Standing(c, s, y) && Day(c, s, actions, y)
    requires s.index + 1 < |Series(c, y.symbol)| && Step(c, Run(c, s, actions)).index == s.index + 1
    ensures Standing(c, Step(c, Run(c, s, actions)), y)
  {
    hide Run, Step, TagsOnFile;
    RunTags(c, s, actions);
    StepTags(c, Run(c, s, actions));
    assert Series(c, y.symbol)[s.index].start < Series(c, y.symbol)[s.index + 1].start;
  }

  // ---------------------------------------------------------------- the whole hold

  /** The closes one after the other, each followed by the next bar. */
  function Days(closes: seq<seq<Action>>): seq<Action>
  {
    if closes == [] then [] else closes[0] + [Advance] + Days(closes[1..])
  }

  ghost predicate EachDay(c: Config, s: State, closes: seq<seq<Action>>, y: Stay)
    requires 0.0 <= c.params.maintenance < 1.0
    decreases |closes|
  {
    closes != [] ==> Day(c, s, closes[0], y) && EachDay(c, Step(c, Run(c, s, closes[0])), closes[1..], y)
  }

  /** The size held at a stamp that came to be owed on the way; nothing for any other. */
  function HeldAt(c: Config, s: State, closes: seq<seq<Action>>, y: Stay, t: int): real
    requires 0.0 <= c.params.maintenance < 1.0
    decreases |closes|
  {
    if closes == [] then 0.0
    else if NewlyOwed(c, y, s.index, t) then SizeAt(c, s, closes[0], y, t)
    else HeldAt(c, Step(c, Run(c, s, closes[0])), closes[1..], y, t)
  }

  lemma {:induction false} RunJoins(c: Config, s: State, first: seq<Action>, rest: seq<Action>)
    requires 0.0 <= c.params.maintenance < 1.0
    ensures Run(c, s, first + rest) == Run(c, Run(c, s, first), rest)
    decreases |first|
  {
    hide Act;
    if first == [] {
      assert first + rest == rest;
    } else {
      assert (first + rest)[1..] == first[1..] + rest;
      RunJoins(c, Act(c, s, first[0]), first[1..], rest);
    }
  }

  lemma DayThen(c: Config, s: State, first: seq<Action>, rest: seq<Action>)
    requires 0.0 <= c.params.maintenance < 1.0
    ensures Run(c, s, first + [Advance] + rest) == Run(c, Step(c, Run(c, s, first)), rest)
  {
    hide Step;
    assert first + [Advance] + rest == first + ([Advance] + rest);
    RunJoins(c, s, first, [Advance] + rest);
    assert ([Advance] + rest)[1..] == rest;
  }

  /** Once owed, a stamp is owed for good: it comes to be owed on one day only. */
  lemma {:induction false} OwedOnce(c: Config, s: State, closes: seq<seq<Action>>, y: Stay, t: int)
    requires 0.0 <= c.params.maintenance < 1.0 && Apart(c, y.symbol) && Standing(c, s, y) && EachDay(c, s, closes, y)
    requires y.symbol in c.data.symbols && BarsToCome(c, s, |closes|) && s.index + |closes| < |Series(c, y.symbol)|
    requires Settled(c, s.purse, y.symbol, SnapOf(y), s.index) && Owed(c, y.symbol, y.openedAt, s.index, t)
    ensures HeldAt(c, s, closes, y, t) == 0.0
    decreases |closes|
  {
    hide Run, Step, Settled, Day, Standing, Owed, Total, SizeAt;
    if closes != [] {
      FewerBars(c, s, |closes|);
      DayCharges(c, s, closes[0], y);
      var next := Step(c, Run(c, s, closes[0]));
      StandsIn(c, s, y);
      OwedMonotone(c, y.symbol, y.openedAt, s.index, s.index + 1, t);
      OwedOnce(c, next, closes[1..], y, t);
    }
  }

  lemma FewerBars(c: Config, s: State, n: nat)
    requires BarsToCome(c, s, n) && n > 0
    ensures BarsToCome(c, s, 1) && forall next: State :: next.index == s.index + 1 ==> BarsToCome(c, next, n - 1)
  {
  }

  lemma StandsIn(c: Config, s: State, y: Stay)
    requires Standing(c, s, y)
    ensures 0 <= y.openedAt <= s.index < |Series(c, y.symbol)|
  {
  }

  /**
   * Over any run, with closes that add to the position and take from it in any order as long as some of what was held
   * stays: each settlement that comes to be owed is charged, on the way out and otherwise together, on exactly the size
   * held at its stamp, and none other is charged at all.
   */
  lemma {:induction false} HoldCharges(c: Config, s: State, closes: seq<seq<Action>>, y: Stay, t: int)
    requires 0.0 <= c.params.maintenance < 1.0 && Apart(c, y.symbol) && y.symbol in c.data.symbols
    requires Standing(c, s, y) && EachDay(c, s, closes, y)
    requires BarsToCome(c, s, |closes|) && s.index + |closes| < |Series(c, y.symbol)|
    requires Settled(c, s.purse, y.symbol, SnapOf(y), s.index)
    ensures var end := Run(c, s, Days(closes));
            && end.index == s.index + |closes| && Settled(c, end.purse, y.symbol, SnapOf(y), end.index)
            && Total(end.purse.log, y, t) - Total(s.purse.log, y, t) == HeldAt(c, s, closes, y, t)
    decreases |closes|
  {
    hide Run, Step, Settled, Day, Standing, Owed, Total, SizeAt, Apart;
    if closes == [] {
      NoDays(c, s);
    } else {
      FewerBars(c, s, |closes|);
      DayCharges(c, s, closes[0], y);
      var next := Step(c, Run(c, s, closes[0]));
      DayThen(c, s, closes[0], Days(closes[1..]));
      HoldCharges(c, next, closes[1..], y, t);
      if NewlyOwed(c, y, s.index, t) { OwedOnce(c, next, closes[1..], y, t); }
    }
  }

  lemma NoDays(c: Config, s: State)
    requires 0.0 <= c.params.maintenance < 1.0
    ensures Run(c, s, Days([])) == s
  {
  }

  // ---------------------------------------------------------------- a hold

  function ExampleStay(): Stay { Stay.Stay(7, 0, 0, Buy) }

  /** At the example's close, with a second one bought there and then so much held. */
  predicate Long(s: State, size: Qty)
  {
    && s.index == 1 && s.purse.cash == 10.0 && (forall k :: 0 <= k < |s.orders| ==> !s.orders[k].limit)
    && s.positions == map[7 := Position(Buy, size, 1.0, 0.0, 0.0, 1.0, 0, map[2 * FUNDING_INTERVAL_MS := 1.0], false)]
  }

  lemma Recorded(c: Config, s: State, k: nat, qty: Qty, price: real)
    requires k < |s.orders| && qty > 0.0
    ensures var after := Record(c, s, k, qty, price, 0.0, true);
            && after.index == s.index && after.purse.cash == s.purse.cash && after.positions == s.positions
            && |after.orders| == |s.orders|
            && forall j :: 0 <= j < |s.orders| ==>
                             after.orders[j].link == s.orders[j].link && after.orders[j].limit == s.orders[j].limit
  {
  }

  lemma BuyFills(c: Config, s: State, k: nat)
    requires k < |s.orders| && Affordable(c, s, MarginAndFee(s.leverage, 1.0, 1.0, 0.0))
    requires s.orders[k] == Order(1, 7, Buy, false, 1.0, 0.0, New, 0.0, 0.0, Entry, false, 0.0)
    requires s.index == 1 && s.purse.cash == 10.0 && s.positions == map[7 := ExamplePosition()]
    requires Boundary(c, 7, 1) == Some(2 * FUNDING_INTERVAL_MS)
    requires forall j :: 0 <= j < |s.orders| ==> !s.orders[j].limit
    ensures var after := FillOrder(c, s, k, 1.0, 1.0, 0.0, true, false);
            Long(after, 2.0) && |after.orders| == |s.orders| && after.orders[k].link == 1
  {
    hide Affordable, Boundary, Levered, Record, ReduceBy, OpenNew;
    var after := Trade(c, s, 7, Buy, 1, 1.0, 1.0, 0.0, false).value;
    assert Long(after, 2.0);
    Recorded(c, after, k, 1.0, 1.0);
  }

  lemma SellFills(c: Config, s: State, k: nat)
    requires k < |s.orders| && Long(s, 2.0) && c.params.fundingRate == 0.0 && Prints(c, 7) == []
    requires s.orders[k] == Order(2, 7, Sell, false, 0.5, 0.0, New, 0.0, 0.0, Entry, false, 0.0)
    ensures Long(FillOrder(c, s, k, 0.5, 1.0, 0.0, true, false), 1.5)
  {
    hide Boundary, SnapshotOf, Unprinted, Record, AddTo, OpenNew;
    var after := Trade(c, s, 7, Sell, 2, 0.5, 1.0, 0.0, false).value;
    assert Long(after, 1.5);
    Recorded(c, after, k, 0.5, 1.0);
  }

  /** What a market order meets at the example's close. */
  lemma ExampleClose()
    ensures var c := ExampleConfig();
            && Boundary(c, 7, 1) == Some(2 * FUNDING_INTERVAL_MS) && BarAt(c, 7, 1).close == 1.0
            && (forall side :: TakerPrice(c.params, side, 1.0) == 1.0)
            && FeeOn(c, 1.0, 1.0, true) == 0.0 && FeeOn(c, 0.5, 1.0, true) == 0.0
  {
    var c := ExampleConfig();
    assert Series(c, 7)[1] == FlatBar(1) && Series(c, 7)[2] == FlatBar(2);
  }

  lemma ExampleBuys()
    ensures var mid := Create(ExampleConfig(), ExampleState(), MarketOrder(1, 7, Buy, 1.0));
            Long(mid, 2.0) && |mid.orders| == 1 && mid.orders[0].link == 1
  {
    hide Affordable, Execute, Boundary, TakerPrice, FeeOn, FillOrder, Long, ExamplePosition, BarAt, MarginAndFee;
    var c, s := ExampleConfig(), ExampleState();
    ExampleAtClose(Held(7, 0, 0, Buy, 1.0, 2 * FUNDING_INTERVAL_MS));
    ExampleMargin(c, s);
    ExampleClose();
    var o := Order(1, 7, Buy, false, 1.0, 0.0, New, 0.0, 0.0, Entry, false, 0.0);
    var placed := s.(orderSeq := s.orderSeq + 1, orders := s.orders + [o]);
    SameMargin(c, s, placed, TakerCost(c, s, 7, Buy, 1.0));
    MarketFills(c, placed, 0, 1.0, 1.0);
    BuyFills(c, placed, 0);
  }

  lemma ExampleSells(s: State)
    requires Long(s, 2.0) && !OnFile(s, 2)
    ensures Long(Create(ExampleConfig(), s, MarketOrder(2, 7, Sell, 0.5)), 1.5)
  {
    hide Execute, Boundary, TakerPrice, FeeOn, FillOrder, BarAt;
    var c := ExampleConfig();
    ExampleClose();
    var o := Order(2, 7, Sell, false, 0.5, 0.0, New, 0.0, 0.0, Entry, false, 0.0);
    var placed := s.(orderSeq := s.orderSeq + 1, orders := s.orders + [o]);
    MarketFills(c, placed, |s.orders|, 0.5, 1.0);
    SellFills(c, placed, |s.orders|);
  }

  lemma {:induction false} NothingRests(c: Config, s: State, symbol: int, bar: Bar, n: nat)
    requires forall k :: 0 <= k < |s.orders| ==> !s.orders[k].limit
    ensures RestAll(c, s, symbol, bar, n) == s
  {
    if n > 0 { NothingRests(c, s, symbol, bar, n - 1); }
  }

  /** At a rate of nothing the walk before a bar's prices takes nothing. */
  lemma {:induction false} FundingFree(c: Config, w: Purse, x: int, bar: Bar, n: int, snap: Snapshot, size: real,
                                       late: map<int, real>, settles: seq<int>)
    requires Prints(c, x) == [] && c.params.fundingRate == 0.0
    ensures FundAtOpen(c, w, x, bar, n, snap, size, late, settles).cash == w.cash
    decreases |settles|
  {
    if settles != [] { FundingFree(c, w, x, bar, n, snap, size, late, settles[..|settles| - 1]); }
  }

  lemma ExamplePrices(s: State)
    requires Long(s.(index := 1), 1.5) && s.index == 2
    ensures ResolvePrices(ExampleConfig(), s, 7).positions == s.positions
  {
    var c := ExampleConfig();
    NothingRests(c, NoteUnprotected(s, 7, BarAt(c, 7, 2)), 7, BarAt(c, 7, 2), |s.orders|);
  }

  lemma ExampleBar(s: State)
    requires Long(s, 1.5)
    ensures HeldAs(Step(ExampleConfig(), s), 7, s.positions[7])
  {
    hide FundInside, FundAtOpen, ResolvePrices, SettlementsIn;
    var c, next := ExampleConfig(), s.(index := 2);
    assert c.data.symbols[..0] == [] && Step(c, s) == ResolveBar(c, next, 7);
    var bar, p, settles := BarAt(c, 7, 2), next.positions[7], SettlementsIn(c, 7, 2);
    var snap := SnapshotOf(c, 7, p, bar);
    FundingFree(c, s.purse, 7, bar, 2, snap, p.size, p.lateAdds, settles);
    ExamplePrices(next.(purse := FundAtOpen(c, s.purse, 7, bar, 2, snap, p.size, p.lateAdds, settles)));
  }

  lemma ExampleStands()
    ensures var c, s, y := ExampleConfig(), ExampleState(), ExampleStay();
            && Apart(c, 7) && Standing(c, s, y) && Settled(c, s.purse, 7, SnapOf(y), 1) && BarsToCome(c, s, 1)
            && |Series(c, 7)| == 4 && NewlyOwed(c, y, 1, 2 * FUNDING_INTERVAL_MS)
            && BarAt(c, 7, 2).start == 2 * FUNDING_INTERVAL_MS
  {
    var c := ExampleConfig();
    assert Series(c, 7) == [FlatBar(0), FlatBar(1), FlatBar(2), FlatBar(3)];
    assert Span(c, 7) == FUNDING_INTERVAL_MS;
  }

  lemma ExampleDay(first: Action, second: Action)
    requires first == Place(MarketOrder(1, 7, Buy, 1.0)) && second == Place(MarketOrder(2, 7, Sell, 0.5))
    ensures Day(ExampleConfig(), ExampleState(), [first, second], ExampleStay())
  {
    hide Create, Step;
    var c, s := ExampleConfig(), ExampleState();
    ExampleBuys();
    var mid := Act(c, s, first);
    ExampleSells(mid);
    var after := Act(c, mid, second);
    ExampleBar(after);
    ExampleStands();
    assert Run(c, after, []) == after && [second][1..] == [] && Run(c, mid, [second]) == after;
    assert [first, second][1..] == [second] && Run(c, s, [first, second]) == after;
  }

  /** Such holds there are: one held, one more bought at a close and a half sold. The settlement is charged on one. */
  lemma HoldHappens(first: Action, second: Action)
    requires first == Place(MarketOrder(1, 7, Buy, 1.0)) && second == Place(MarketOrder(2, 7, Sell, 0.5))
    ensures var c, s, y, t := ExampleConfig(), ExampleState(), ExampleStay(), 2 * FUNDING_INTERVAL_MS;
            && 0.0 <= c.params.maintenance < 1.0 && Apart(c, 7) && Standing(c, s, y)
            && EachDay(c, s, [[first, second]], y) && BarsToCome(c, s, 1) && Settled(c, s.purse, 7, SnapOf(y), 1)
            && Total(Run(c, s, Days([[first, second]])).purse.log, y, t) - Total(s.purse.log, y, t) == 1.0
  {
    hide Run, Step, Settled, Day, Standing, Owed, Total, NewlyOwed, Apart, Days, BarAt;
    var c, s, y := ExampleConfig(), ExampleState(), ExampleStay();
    ExampleStands();
    ExampleDay(first, second);
    HoldCharges(c, s, [[first, second]], y, 2 * FUNDING_INTERVAL_MS);
  }
}
