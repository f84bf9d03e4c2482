/**
 The settlement a bar's close and the next bar's open share. Orders filled at a close come just after it: what leaves
 then pays it on the way out, what is added then does not, and the rest pays at the next open.
 */
module FundingBoundary {
  import opened Basics
  import opened Sums
  import opened PerpVenue
  import opened FundingClock

  /** The position as the last settlement found it: its symbol, the bar it was opened in, its side and its size. */
  datatype Held = Held(symbol: int, openedAt: int, openedMs: int, side: Side, size: real, settle: int)

  /** The sizes charged for the settlement on the way out. */
  function LeftWith(log: seq<Charge>, h: Held): real
    decreases |log|
  {
    if log == [] then 0.0
    else
      var e := log[|log| - 1];
      LeftWith(log[..|log| - 1], h)
      + if e.symbol == h.symbol && e.settle == h.settle && e.openedMs == h.openedMs && e.tag.Some? then e.size else 0.0
  }

  predicate Same(s: State, h: Held)
  {
    Holds(s, h.symbol) && s.positions[h.symbol].openedAt == h.openedAt && s.positions[h.symbol].side == h.side
  }

  /** The size the next bar's open charges for the settlement: what is held then, less what was added after it. */
  function ChargedAtOpen(s: State, h: Held): real
  {
    if Same(s, h) then Max(0.0, s.positions[h.symbol].size - LateAt(s.positions[h.symbol].lateAdds, h.settle)) else 0.0
  }

  // ---------------------------------------------------------------- what the fills did, seen in the position alone

  /** What left the position between two states, and what joined it while it stood; no charge is looked at. */
  function TakenOff(s: State, after: State, h: Held): real
  {
    if !Same(s, h) then 0.0
    else if Same(after, h) then Max(0.0, s.positions[h.symbol].size - after.positions[h.symbol].size)
    else s.positions[h.symbol].size
  }

  function PutOn(s: State, after: State, h: Held): real
  {
    if Same(s, h) && Same(after, h) then Max(0.0, after.positions[h.symbol].size - s.positions[h.symbol].size) else 0.0
  }

  /** What the actions took off the position, one at a time: at a close each fills at most one order. */
  function Removed(c: Config, s: State, actions: seq<Action>, h: Held): real
    requires 0.0 <= c.params.maintenance < 1.0
    decreases |actions|
  {
    if actions == [] then 0.0
    else
      var next := Act(c, s, actions[0]);
      TakenOff(s, next, h) + Removed(c, next, actions[1..], h)
  }

  /** What they added to it while it was there. */
  function Added(c: Config, s: State, actions: seq<Action>, h: Held): real
    requires 0.0 <= c.params.maintenance < 1.0
    decreases |actions|
  {
    if actions == [] then 0.0
    else
      var next := Act(c, s, actions[0]);
      PutOn(s, next, h) + Added(c, next, actions[1..], h)
  }

  // ---------------------------------------------------------------- the account kept through a close

  /** Where the close began, and what it has removed and added since. */
  datatype Tally = Tally(left0: real, removed: real, added: real)

  function Then(y: Tally, s: State, after: State, h: Held): Tally
  {
    Tally(y.left0, y.removed + TakenOff(s, after, h), y.added + PutOn(s, after, h))
  }

  /**
   * At any moment after the close: what was charged on the way out is what was removed; what is held is what was held
   * plus what was added less what was removed; and once the position is gone, all of that has been removed, and
   * anything opened since is too young to be charged.
   */
  ghost predicate Accounted(c: Config, s: State, h: Held, y: Tally)
  {
    && h.openedAt < s.index && Boundary(c, h.symbol, s.index) == Some(h.settle)
    && 0 <= h.openedAt < |Series(c, h.symbol)| && Series(c, h.symbol)[h.openedAt].start == h.openedMs
    && LeftWith(s.purse.log, h) - y.left0 == y.removed && y.removed >= 0.0 && y.added >= 0.0
    && (if Same(s, h) then
          var p := s.positions[h.symbol];
          LateAt(p.lateAdds, h.settle) == y.added && p.size == h.size + y.added - y.removed
        else y.removed == h.size + y.added && (Holds(s, h.symbol) ==> s.positions[h.symbol].openedAt == s.index))
  }

  /** Positions, charges and the bar are as they were. */
  ghost predicate SameBooks(s: State, after: State)
  {
    && after.index == s.index && after.positions == s.positions && after.purse.log == s.purse.log
    && after.purse.funded == s.purse.funded
  }

  lemma BooksKeep(c: Config, s: State, after: State, h: Held, y: Tally)
    requires Accounted(c, s, h, y) && SameBooks(s, after)
    ensures Accounted(c, after, h, y) && Then(y, s, after, h) == y
  {
  }

  // ---------------------------------------------------------------- one fill at the close

  lemma LeavingCharged(c: Config, s: State, h: Held, p: Position, closing: real, link: int)
    requires h.symbol in s.positions && s.positions[h.symbol] == p && p.openedAt == h.openedAt < s.index
             && closing > 0.0
    requires Boundary(c, h.symbol, s.index) == Some(h.settle) && 0 <= h.openedAt < |Series(c, h.symbol)|
    requires Series(c, h.symbol)[h.openedAt].start == h.openedMs
    requires Key(h.symbol, h.settle, h.openedAt, Some(link)) !in s.purse.funded
    ensures var after := ChargeLeaving(c, s, h.symbol, p, closing, link, false);
            && LeftWith(after.purse.log, h) == LeftWith(s.purse.log, h) + closing
            && after.positions == s.positions && after.index == s.index
            && after.purse.funded == s.purse.funded + {Key(h.symbol, h.settle, h.openedAt, Some(link))}
  {
    hide SettledRate, Dir;
    var after := ChargeLeaving(c, s, h.symbol, p, closing, link, false);
    assert after.purse.log[..|after.purse.log| - 1] == s.purse.log;
  }

  lemma ReduceAccounted(c: Config, s: State, h: Held, y: Tally, side: Side, link: int, qty: Qty, price: real)
    requires Accounted(c, s, h, y) && Same(s, h) && side != h.side && qty > 0.0
    requires Key(h.symbol, h.settle, h.openedAt, Some(link)) !in s.purse.funded
    ensures var after := ReduceBy(c, s, h.symbol, side, link, qty, price, false); Accounted(c, after, h,
                                                                                            Then(y, s, after, h))
  {
    hide ChargeLeaving, Gain, Boundary;
    var p := s.positions[h.symbol];
    LeavingCharged(c, s, h, p, Min(qty, p.size), link);
  }

  lemma YoungReduced(c: Config, s: State, h: Held, y: Tally, side: Side, link: int, qty: Qty, price: real)
    requires Accounted(c, s, h, y) && !Same(s, h) && Holds(s, h.symbol)
    ensures var after := ReduceBy(c, s, h.symbol, side, link, qty, price, false); Accounted(c, after, h,
                                                                                            Then(y, s, after, h))
  {
    hide Gain, Boundary;
  }

  lemma AddAccounted(c: Config, s: State, h: Held, y: Tally, qty: Qty, price: real, fee: real)
    requires Accounted(c, s, h, y) && Holds(s, h.symbol) && AddTo(c, s, h.symbol, qty, price, fee, false).Some?
    ensures var after := AddTo(c, s, h.symbol, qty, price, fee, false).value; Accounted(c, after, h,
                                                                                        Then(y, s, after, h))
  {
    hide Affordable, Boundary;
  }

  lemma OpenAccounted(c: Config, s: State, h: Held, y: Tally, side: Side, qty: Qty, price: real, fee: real)
    requires Accounted(c, s, h, y) && !Holds(s, h.symbol) && OpenNew(c, s, h.symbol, side, qty, price, fee).Some?
    ensures var after := OpenNew(c, s, h.symbol, side, qty, price, fee).value; Accounted(c, after, h,
                                                                                         Then(y, s, after, h))
  {
    hide Affordable, Boundary;
  }

  /** Another symbol's trade at the close. */
  lemma LeavingElsewhere(c: Config, s: State, h: Held, symbol: int, p: Position, closing: real, link: int)
    requires symbol != h.symbol
    ensures var after := ChargeLeaving(c, s, symbol, p, closing, link, false);
            LeftWith(after.purse.log, h) == LeftWith(s.purse.log, h) && after.positions == s.positions
            && after.index == s.index
  {
    hide SettledRate, Dir;
    var after := ChargeLeaving(c, s, symbol, p, closing, link, false);
    if after.purse.log != s.purse.log { assert after.purse.log[..|after.purse.log| - 1] == s.purse.log; }
  }

  lemma ReduceElsewhere(c: Config, s: State, h: Held, y: Tally, symbol: int, side: Side, link: int, qty: Qty,
                        price: real)
    requires Accounted(c, s, h, y) && symbol != h.symbol && Holds(s, symbol)
    ensures var after := ReduceBy(c, s, symbol, side, link, qty, price, false); Accounted(c, after, h,
                                                                                          Then(y, s, after, h))
  {
    hide ChargeLeaving, Gain, Boundary;
    var p := s.positions[symbol];
    LeavingElsewhere(c, s, h, symbol, p, Min(qty, p.size), link);
  }

  lemma TradeElsewhere(c: Config, s: State, h: Held, y: Tally, symbol: int, side: Side, link: int, qty: Qty,
                       price: real, fee: real)
    requires Accounted(c, s, h, y) && symbol != h.symbol
             && Trade(c, s, symbol, side, link, qty, price, fee, false).Some?
    ensures var after := Trade(c, s, symbol, side, link, qty, price, fee, false).value; Accounted(c, after, h,
                                                                                                  Then(y, s, after, h))
  {
    hide Affordable, ReduceBy, Boundary;
    if Holds(s, symbol) { ReduceElsewhere(c, s, h, y, symbol, side, link, qty, price); }
  }

  lemma TradeAccounted(c: Config, s: State, h: Held, y: Tally, symbol: int, side: Side, link: int, qty: Qty,
                       price: real, fee: real)
    requires Accounted(c, s, h, y) && qty > 0.0 && Trade(c, s, symbol, side, link, qty, price, fee, false).Some?
    requires Key(h.symbol, h.settle, h.openedAt, Some(link)) !in s.purse.funded
    ensures var after := Trade(c, s, symbol, side, link, qty, price, fee, false).value; Accounted(c, after, h,
                                                                                                  Then(y, s, after, h))
  {
    hide ReduceBy, AddTo, OpenNew, Boundary;
    if symbol != h.symbol {
      TradeElsewhere(c, s, h, y, symbol, side, link, qty, price, fee);
    } else if !Holds(s, symbol) {
      OpenAccounted(c, s, h, y, side, qty, price, fee);
    } else if s.positions[symbol].side == side {
      AddAccounted(c, s, h, y, qty, price, fee);
    } else if Same(s, h) {
      ReduceAccounted(c, s, h, y, side, link, qty, price);
    } else {
      YoungReduced(c, s, h, y, side, link, qty, price);
    }
  }

  // ---------------------------------------------------------------- one order at the close

  /** No exit has been charged to an order that is not on file. */
  ghost predicate TagsOnFile(s: State)
  {
    forall key :: key in s.purse.funded && key.tag.Some? ==> OnFile(s, key.tag.value)
  }

  lemma FillAccounted(c: Config, s: State, h: Held, y: Tally, k: nat, qty: Qty, price: real, fee: real, market: bool)
    requires k < |s.orders| && qty > 0.0 && Accounted(c, s, h, y)
    requires Key(h.symbol, h.settle, h.openedAt, Some(s.orders[k].link)) !in s.purse.funded
    ensures var after := FillOrder(c, s, k, qty, price, fee, market, false); Accounted(c, after, h,
                                                                                       Then(y, s, after, h))
  {
    hide Trade, Accounted;
    var o := s.orders[k];
    BooksKeep(c, s, Refuse(s, k), h, y);
    var traded := Trade(c, s, o.symbol, o.side, o.link, qty, price, fee, false);
    if traded.Some? {
      TradeAccounted(c, s, h, y, o.symbol, o.side, o.link, qty, price, fee);
      if k < |traded.value.orders| {
        BooksKeep(c, traded.value, Record(c, traded.value, k, qty, price, fee, market), h, Then(y, s, traded.value, h));
      }
    }
  }

  lemma QtyAccounted(c: Config, s: State, h: Held, y: Tally, k: nat, remaining: Qty, price: real)
    requires k < |s.orders| && Accounted(c, s, h, y)
    requires Key(h.symbol, h.settle, h.openedAt, Some(s.orders[k].link)) !in s.purse.funded
    ensures var after := ExecuteQty(c, s, k, remaining, price, true, false); Accounted(c, after, h,
                                                                                       Then(y, s, after, h))
  {
    hide FillOrder, Accounted, Available, FillPrice, FeeOn, Immediate;
    var o := s.orders[k];
    var qty := Available(c, s, o.symbol, remaining);
    BooksKeep(c, s, s, h, y);
    BooksKeep(c, s, SetOrder(s, k, o.(status := Cancelled)), h, y);
    if qty > 0.0 {
      var fillPrice := FillPrice(c, o.side, price, true);
      FillAccounted(c, s, h, y, k, qty, fillPrice, FeeOn(c, qty, fillPrice, true), Immediate(o, false));
    }
  }

  lemma ExecuteAccounted(c: Config, s: State, h: Held, y: Tally, k: nat, price: real)
    requires k < |s.orders| && Accounted(c, s, h, y)
    requires Key(h.symbol, h.settle, h.openedAt, Some(s.orders[k].link)) !in s.purse.funded
    ensures var after := Execute(c, s, k, price, true, false); Accounted(c, after, h, Then(y, s, after, h))
  {
    hide ExecuteQty, Accounted;
    var o := s.orders[k];
    var remaining := o.qty - o.cum;
    BooksKeep(c, s, Refuse(s, k), h, y);
    if o.qty > 0.0 && remaining > 0.0 {
      QtyAccounted(c, s, h, y, k, remaining, price);
      if o.reduceOnly && Holds(s, o.symbol) {
        var size := s.positions[o.symbol].size;
        var cut := SetOrder(s, k, o.(qty := o.cum + size));
        BooksKeep(c, s, cut, h, y);
        QtyAccounted(c, cut, h, y, k, size, price);
      }
    }
  }

  lemma CreateAccounted(c: Config, s: State, h: Held, y: Tally, t: Ticket)
    requires Accounted(c, s, h, y) && TagsOnFile(s)
    ensures Accounted(c, Create(c, s, t), h, Then(y, s, Create(c, s, t), h))
  {
    hide Execute, Accounted;
    BooksKeep(c, s, s, h, y);
    if !OnFile(s, t.link) && t.symbol in c.data.bars {
      var o := Order(t.link, t.symbol, t.side, t.limit, t.qty, t.price, if t.conditional then Untriggered else New,
                     0.0, 0.0,
                     PurposeOf(t), t.reduceOnly, 0.0);
      var placed := s.(orderSeq := s.orderSeq + 1, orders := s.orders + [o]);
      BooksKeep(c, s, placed, h, y);
      ExecuteAccounted(c, placed, h, y, |s.orders|, Mark(c, s, t.symbol));
    }
  }

  // ---------------------------------------------------------------- tags stay on file

  /** Orders keep their links; the only tag that may appear is that of the order worked on. */
  ghost predicate TagsGrow(s: State, after: State, link: int)
  {
    && |after.orders| == |s.orders| && (forall k :: 0 <= k < |s.orders| ==> after.orders[k].link == s.orders[k].link)
    && forall key :: key in after.purse.funded && key !in s.purse.funded ==> key.tag == Some(link)
  }

  lemma FillTags(c: Config, s: State, k: nat, qty: Qty, price: real, fee: real, market: bool)
    requires k < |s.orders| && qty > 0.0
    ensures TagsGrow(s, FillOrder(c, s, k, qty, price, fee, market, false), s.orders[k].link)
  {
    hide Gain, Affordable, SettledRate, Dir, Boundary, SnapshotOf, Enlarged, Opened, Unprinted;
  }

  lemma QtyTags(c: Config, s: State, k: nat, remaining: Qty, price: real)
    requires k < |s.orders|
    ensures TagsGrow(s, ExecuteQty(c, s, k, remaining, price, true, false), s.orders[k].link)
  {
    hide FillOrder, Available, FillPrice, FeeOn;
    var o := s.orders[k];
    var qty := Available(c, s, o.symbol, remaining);
    if qty > 0.0 {
      var fillPrice := FillPrice(c, o.side, price, true);
      FillTags(c, s, k, qty, fillPrice, FeeOn(c, qty, fillPrice, true), Immediate(o, false));
    }
  }

  lemma ExecuteTags(c: Config, s: State, k: nat, price: real)
    requires k < |s.orders|
    ensures TagsGrow(s, Execute(c, s, k, price, true, false), s.orders[k].link)
  {
    hide ExecuteQty;
    var o := s.orders[k];
    var remaining := o.qty - o.cum;
    if o.qty > 0.0 && remaining > 0.0 {
      QtyTags(c, s, k, remaining, price);
      if o.reduceOnly && Holds(s, o.symbol) {
        var size := s.positions[o.symbol].size;
        QtyTags(c, SetOrder(s, k, o.(qty := o.cum + size)), k, size, price);
      }
    }
  }

  lemma CreateTags(c: Config, s: State, t: Ticket)
    requires TagsOnFile(s)
    ensures TagsOnFile(Create(c, s, t))
  {
    hide Execute;
    if !OnFile(s, t.link) && t.symbol in c.data.bars {
      var o := Order(t.link, t.symbol, t.side, t.limit, t.qty, t.price, if t.conditional then Untriggered else New,
                     0.0, 0.0,
                     PurposeOf(t), t.reduceOnly, 0.0);
      var placed := s.(orderSeq := s.orderSeq + 1, orders := s.orders + [o]);
      var n := |s.orders|;
      ExecuteTags(c, placed, n, Mark(c, s, t.symbol));
      var after := Create(c, s, t);
      forall key | key in after.purse.funded && key.tag.Some? ensures OnFile(after, key.tag.value) {
        if key in s.purse.funded {
          var k :| 0 <= k < n && s.orders[k].link == key.tag.value;
          assert placed.orders[k] == s.orders[k];
          assert after.orders[k].link == key.tag.value;
        } else {
          assert after.orders[n].link == t.link;
        }
      }
    }
  }

  lemma {:induction false} CancelLinks(orders: seq<Order>, link: int)
    ensures |CancelFrom(orders, link)| == |orders|
    ensures forall k :: 0 <= k < |orders| ==> CancelFrom(orders, link)[k].link == orders[k].link
    decreases |orders|
  {
    if orders != [] { CancelLinks(orders[..|orders| - 1], link); }
  }

  lemma SameTags(s: State, after: State)
    requires TagsOnFile(s) && after.purse.funded == s.purse.funded && |after.orders| == |s.orders|
    requires forall k :: 0 <= k < |s.orders| ==> after.orders[k].link == s.orders[k].link
    ensures TagsOnFile(after)
  {
    forall key | key in after.purse.funded && key.tag.Some? ensures OnFile(after, key.tag.value) {
      var k :| 0 <= k < |s.orders| && s.orders[k].link == key.tag.value;
      assert after.orders[k].link == key.tag.value;
    }
  }

  // ---------------------------------------------------------------- everything done at one close

  lemma NotedAccounted(c: Config, s: State, after: State, h: Held, y: Tally, symbol: int)
    requires Accounted(c, s, h, y) && after.index == s.index && after.purse == s.purse
    requires after.positions == s.positions ||
             (symbol in s.positions && symbol in after.positions
              && after.positions == s.positions[symbol := after.positions[symbol]]
              && after.positions[symbol].side == s.positions[symbol].side
              && after.positions[symbol].size == s.positions[symbol].size
              && after.positions[symbol].openedAt == s.positions[symbol].openedAt
              && after.positions[symbol].lateAdds == s.positions[symbol].lateAdds)
    ensures Accounted(c, after, h, Then(y, s, after, h))
  {
  }

  lemma ActAccounted(c: Config, s: State, a: Action, h: Held, y: Tally)
    requires 0.0 <= c.params.maintenance < 1.0 && !a.Advance? && Accounted(c, s, h, y) && TagsOnFile(s)
    ensures Accounted(c, Act(c, s, a), h, Then(y, s, Act(c, s, a), h))
  {
    hide Create, Accounted, TagsOnFile, Step;
    match a {
      case Advance =>
      case Place(t) => CreateAccounted(c, s, h, y, t);
      case Protect(symbol, stop, target) => NotedAccounted(c, s, SetStop(s, symbol, stop, target), h, y, symbol);
      case Read(symbol) => NotedAccounted(c, s, ReadBack(s, symbol), h, y, symbol);
      case Cancel(link) => BooksKeep(c, s, s.(orders := CancelFrom(s.orders, link)), h, y);
      case SetLeverage(leverage) => BooksKeep(c, s, s.(leverage := leverage), h, y);
      case FailStops(n) => BooksKeep(c, s, s.(failStops := n), h, y);
      case Drain => BooksKeep(c, s, s.(fillLog := []), h, y);
    }
  }

  lemma {:induction false} RunAccounted(c: Config, s: State, actions: seq<Action>, h: Held, y: Tally)
    requires 0.0 <= c.params.maintenance < 1.0 && Accounted(c, s, h, y) && TagsOnFile(s)
    requires forall i :: 0 <= i < |actions| ==> !actions[i].Advance?
    ensures Accounted(c, Run(c, s, actions), h,
                      Tally(y.left0, y.removed + Removed(c, s, actions, h), y.added + Added(c, s, actions, h)))
    decreases |actions|
  {
    hide Act, Accounted, TagsOnFile, TakenOff, PutOn;
    if actions != [] {
      var next := Act(c, s, actions[0]);
      ActAccounted(c, s, actions[0], h, y);
      ActTags(c, s, actions[0]);
      RunAccounted(c, next, actions[1..], h, Then(y, s, next, h));
    }
  }

  /**
   * A bar's close with the position held: opened in an earlier bar, nothing added since the stamp the next bar starts
   * with.
   */
  ghost predicate AtClose(c: Config, s: State, h: Held)
  {
    && TagsOnFile(s) && Same(s, h) && h.openedAt < s.index && Boundary(c, h.symbol, s.index) == Some(h.settle)
    && s.positions[h.symbol].size == h.size && LateAt(s.positions[h.symbol].lateAdds, h.settle) == 0.0
    && 0 <= h.openedAt < |Series(c, h.symbol)| && Series(c, h.symbol)[h.openedAt].start == h.openedMs
  }

  /**
   * What is charged on the way out is what left the position, and what stays for the next open is the rest of what was
   * held: whatever is done at the close, adds, reductions, full closes and flips in any order.
   */
  lemma LeavingExact(c: Config, s: State, actions: seq<Action>, h: Held)
    requires 0.0 <= c.params.maintenance < 1.0 && AtClose(c, s, h)
    requires forall i :: 0 <= i < |actions| ==> !actions[i].Advance?
    ensures var after, removed := Run(c, s, actions), Removed(c, s, actions, h);
            && LeftWith(after.purse.log, h) - LeftWith(s.purse.log, h) == removed >= 0.0
            && ChargedAtOpen(after, h) == Max(0.0, h.size - removed)
            && (Same(after, h) <==> removed < h.size + Added(c, s, actions, h))
            && after.index == s.index
            && (Holds(after, h.symbol) && !Same(after, h) ==> after.positions[h.symbol].openedAt == s.index)
  {
    hide Run, Boundary, Removed, Added;
    RunAccounted(c, s, actions, h, Tally(LeftWith(s.purse.log, h), 0.0, 0.0));
    RunStands(c, s, actions, h.symbol, Snapshot(h.side, h.openedMs, h.openedAt));
  }

  lemma {:induction false} RunStands(c: Config, s: State, actions: seq<Action>, x: int, snap: Snapshot)
    requires 0.0 <= c.params.maintenance < 1.0 && forall i :: 0 <= i < |actions| ==> !actions[i].Advance?
    ensures ClockStands(s, Run(c, s, actions), x, snap)
    decreases |actions|
  {
    hide Act, Times, Sizes, IsFunded;
    if actions != [] {
      var next := Act(c, s, actions[0]);
      ActStands(c, s, actions[0], x, snap);
      RunStands(c, next, actions[1..], x, snap);
      UntouchedThen(s.purse, next.purse, Run(c, s, actions).purse, x, snap);
    }
  }

  // ---------------------------------------------------------------- the next bar

  /** A charge for another stamp, or under no tag, is no charge on the way out. */
  lemma PlainCharge(c: Config, w: Purse, y: int, settle: int, other: Snapshot, size: real, mark: real, h: Held)
    ensures LeftWith(ChargeSettlement(c, w, y, settle, other, size, mark, None).log, h) == LeftWith(w.log, h)
  {
    hide SettledRate, Dir;
    var after := ChargeSettlement(c, w, y, settle, other, size, mark, None);
    if after != w { assert after.log[..|after.log| - 1] == w.log; }
  }

  lemma {:induction false} OpenPlain(c: Config, w: Purse, y: int, bar: Bar, index: int, other: Snapshot, size: real,
                                     late: map<int, real>, settles: seq<int>, h: Held)
    ensures LeftWith(FundAtOpen(c, w, y, bar, index, other, size, late, settles).log, h) == LeftWith(w.log, h)
    decreases |settles|
  {
    hide ChargeSettlement, LeftWith;
    if settles != [] {
      var last := |settles| - 1;
      var mid := FundAtOpen(c, w, y, bar, index, other, size, late, settles[..last]);
      OpenPlain(c, w, y, bar, index, other, size, late, settles[..last], h);
      PlainCharge(c, mid, y, settles[last], other, size - LateAt(late, settles[last]), bar.open, h);
      PlainCharge(c, mid, y, settles[last], other, size, bar.open, h);
    }
  }

  lemma {:induction false} InsidePlain(c: Config, w: Purse, y: int, bar: Bar, other: Snapshot, sizeStart: real,
                                       sizeEnd: real,
                                       held: bool, settles: seq<int>, h: Held)
    ensures LeftWith(FundInside(c, w, y, bar, other, sizeStart, sizeEnd, held, settles).log, h) == LeftWith(w.log, h)
    decreases |settles|
  {
    hide ChargeSettlement, LeftWith, SettledRate;
    if settles != [] {
      var last := |settles| - 1;
      var mid := FundInside(c, w, y, bar, other, sizeStart, sizeEnd, held, settles[..last]);
      InsidePlain(c, w, y, bar, other, sizeStart, sizeEnd, held, settles[..last], h);
      PlainCharge(c, mid, y, settles[last], other, sizeStart, Max(bar.open, bar.close), h);
      PlainCharge(c, mid, y, settles[last], other, sizeEnd, Min(bar.open, bar.close), h);
    }
  }

  lemma BarPlain(c: Config, s: State, y: int, h: Held)
    requires 0.0 <= c.params.maintenance < 1.0
    ensures LeftWith(ResolveBar(c, s, y).purse.log, h) == LeftWith(s.purse.log, h)
  {
    hide ResolvePrices, FundAtOpen, FundInside, SettlementsIn, SnapshotOf, LeftWith;
    ResolvePricesOnly(c, s, y);
    if Holds(s, y) {
      var bar, settles, p := BarAt(c, y, s.index), SettlementsIn(c, y, s.index), s.positions[y];
      var snap := SnapshotOf(c, y, p, bar);
      var charged := s.(purse := FundAtOpen(c, s.purse, y, bar, s.index, snap, p.size, p.lateAdds, settles));
      OpenPlain(c, s.purse, y, bar, s.index, snap, p.size, p.lateAdds, settles, h);
      ResolvePricesOnly(c, charged, y);
      var after := ResolvePrices(c, charged, y);
      var held := StillHeld(after, y, snap);
      InsidePlain(c, after.purse, y, bar, snap, p.size, if held then after.positions[y].size else 0.0, held, settles,
                  h);
    }
  }

  lemma {:induction false} BarsPlain(c: Config, s: State, symbols: seq<int>, h: Held)
    requires 0.0 <= c.params.maintenance < 1.0
    ensures LeftWith(ResolveAll(c, s, symbols).purse.log, h) == LeftWith(s.purse.log, h)
    decreases |symbols|
  {
    hide ResolveBar, LeftWith;
    if symbols != [] {
      var last := |symbols| - 1;
      BarsPlain(c, s, symbols[..last], h);
      BarPlain(c, ResolveAll(c, s, symbols[..last]), symbols[last], h);
    }
  }

  /** One charge, seen at one stamp of one position. */
  lemma ChargeAt(c: Config, w: Purse, x: int, settle: int, snap: Snapshot, size: real, mark: real, t: int)
    ensures var after := ChargeSettlement(c, w, x, settle, snap, size, mark, None);
            && Sizes(after.log, x, snap.openedMs, t)
               == Sizes(w.log, x, snap.openedMs, t)
                  + (if t == settle && !IsFunded(w, x, snap, t) then Max(0.0, size) else 0.0)
            && (IsFunded(after, x, snap, t) <==> IsFunded(w, x, snap, t) || (t == settle && size > 0.0))
  {
    hide SettledRate, Dir;
    var after := ChargeSettlement(c, w, x, settle, snap, size, mark, None);
    if after != w { assert after.log[..|after.log| - 1] == w.log; }
  }

  /**
   * The walk before the bar's prices charges the stamp the bar starts with once, on what is held less what was added
   * late.
   */
  lemma {:induction false} OpenAtStart(c: Config, w: Purse, x: int, bar: Bar, index: int, snap: Snapshot, size: real,
                                       late: map<int, real>, settles: seq<int>)
    requires !IsFunded(w, x, snap, bar.start)
    ensures var after, rest := FundAtOpen(c, w, x, bar, index, snap, size, late, settles),
                               size - LateAt(late, bar.start);
            var charged := bar.start in settles && snap.openedAt != index - 1;
            && Sizes(after.log, x, snap.openedMs, bar.start)
               == Sizes(w.log, x, snap.openedMs, bar.start) + (if charged then Max(0.0, rest) else 0.0)
            && (IsFunded(after, x, snap, bar.start) <==> charged && rest > 0.0)
    decreases |settles|
  {
    hide ChargeSettlement, Sizes, IsFunded;
    if settles != [] {
      var last := |settles| - 1;
      var mid := FundAtOpen(c, w, x, bar, index, snap, size, late, settles[..last]);
      OpenAtStart(c, w, x, bar, index, snap, size, late, settles[..last]);
      assert settles == settles[..last] + [settles[last]];
      ChargeAt(c, mid, x, settles[last], snap, size - LateAt(late, settles[last]), bar.open, bar.start);
      ChargeAt(c, mid, x, settles[last], snap, size, bar.open, bar.start);
    }
  }

  /** A charge for another stamp. */
  lemma ChargeOther(c: Config, w: Purse, x: int, settle: int, snap: Snapshot, size: real, mark: real, ms: int, t: int)
    requires t != settle
    ensures Sizes(ChargeSettlement(c, w, x, settle, snap, size, mark, None).log, x, ms, t) == Sizes(w.log, x, ms, t)
  {
    hide SettledRate, Dir;
    var after := ChargeSettlement(c, w, x, settle, snap, size, mark, None);
    if after != w { assert after.log[..|after.log| - 1] == w.log; }
  }

  /** A position opened at the close just before is not charged the stamp the bar starts with, nor is any older one. */
  lemma {:induction false} OpenSkipsStart(c: Config, w: Purse, x: int, bar: Bar, index: int, snap: Snapshot, size: real,
                                          late: map<int, real>, settles: seq<int>, ms: int)
    requires snap.openedAt == index - 1
    ensures Sizes(FundAtOpen(c, w, x, bar, index, snap, size, late, settles).log, x, ms, bar.start)
         == Sizes(w.log, x, ms, bar.start)
    decreases |settles|
  {
    hide ChargeSettlement, Sizes;
    if settles != [] {
      var last := |settles| - 1;
      OpenSkipsStart(c, w, x, bar, index, snap, size, late, settles[..last], ms);
      if settles[last] < bar.start {
        ChargeOther(c, FundAtOpen(c, w, x, bar, index, snap, size, late, settles[..last]), x, settles[last], snap,
                    size, bar.open, ms, bar.start);
      }
    }
  }

  lemma {:induction false} InsideSkipsStart(c: Config, w: Purse, x: int, bar: Bar, snap: Snapshot, sizeStart: real,
                                            sizeEnd: real,
                                            held: bool, settles: seq<int>, ms: int)
    ensures Sizes(FundInside(c, w, x, bar, snap, sizeStart, sizeEnd, held, settles).log, x, ms, bar.start)
         == Sizes(w.log, x, ms, bar.start)
    decreases |settles|
  {
    hide ChargeSettlement, Sizes, SettledRate;
    if settles != [] {
      var last := |settles| - 1;
      var mid := FundInside(c, w, x, bar, snap, sizeStart, sizeEnd, held, settles[..last]);
      InsideSkipsStart(c, w, x, bar, snap, sizeStart, sizeEnd, held, settles[..last], ms);
      if settles[last] > bar.start {
        ChargeOther(c, mid, x, settles[last], snap, sizeStart, Max(bar.open, bar.close), ms, bar.start);
        ChargeOther(c, mid, x, settles[last], snap, sizeEnd, Min(bar.open, bar.close), ms, bar.start);
      }
    }
  }

  lemma StartIsOwn(c: Config, x: int, i: int)
    requires 0 <= i < |Series(c, x)| && Series(c, x)[i].start % FUNDING_INTERVAL_MS == 0
    ensures Series(c, x)[i].start in SettlementsIn(c, x, i)
  {
    BarOwns(c, x, i, Series(c, x)[i].start);
  }

  /**
   * The state a step begins its bar in: the position, if it still stands, from the close; anything else opened at it.
   */
  ghost predicate AtNextBar(c: Config, s: State, h: Held)
  {
    && 0 <= h.openedAt < s.index - 1 && s.index < |Series(c, h.symbol)|
    && Series(c, h.symbol)[h.openedAt].start == h.openedMs
    && Series(c, h.symbol)[s.index].start == h.settle && h.settle % FUNDING_INTERVAL_MS == 0
    && Key(h.symbol, h.settle, h.openedAt, None) !in s.purse.funded
    && (Holds(s, h.symbol) && !Same(s, h) ==> s.positions[h.symbol].openedAt == s.index - 1)
  }

  /** The bar's own resolution charges the stamp it starts with on exactly that. */
  lemma OpenCharges(c: Config, s: State, h: Held)
    requires 0.0 <= c.params.maintenance < 1.0 && AtNextBar(c, s, h)
    ensures Sizes(ResolveBar(c, s, h.symbol).purse.log, h.symbol, h.openedMs, h.settle)
         == Sizes(s.purse.log, h.symbol, h.openedMs, h.settle) + ChargedAtOpen(s, h)
  {
    hide ResolvePrices, FundAtOpen, FundInside, SettlementsIn, Sizes;
    var x := h.symbol;
    ResolvePricesOnly(c, s, x);
    if Holds(s, x) {
      var bar, settles, p := BarAt(c, x, s.index), SettlementsIn(c, x, s.index), s.positions[x];
      var snap := SnapshotOf(c, x, p, bar);
      var charged := s.(purse := FundAtOpen(c, s.purse, x, bar, s.index, snap, p.size, p.lateAdds, settles));
      StartIsOwn(c, x, s.index);
      if Same(s, h) {
        OpenAtStart(c, s.purse, x, bar, s.index, snap, p.size, p.lateAdds, settles);
      } else {
        OpenSkipsStart(c, s.purse, x, bar, s.index, snap, p.size, p.lateAdds, settles, h.openedMs);
      }
      ResolvePricesOnly(c, charged, x);
      var after := ResolvePrices(c, charged, x);
      var held := StillHeld(after, x, snap);
      InsideSkipsStart(c, after.purse, x, bar, snap, p.size, if held then after.positions[x].size else 0.0, held,
                       settles, h.openedMs);
    }
  }

  lemma {:induction false} AllBarsCharge(c: Config, s: State, symbols: seq<int>, h: Held)
    requires 0.0 <= c.params.maintenance < 1.0 && AtNextBar(c, s, h)
    requires forall i, j :: 0 <= i < j < |symbols| ==> symbols[i] != symbols[j]
    ensures Sizes(ResolveAll(c, s, symbols).purse.log, h.symbol, h.openedMs, h.settle)
         == Sizes(s.purse.log, h.symbol, h.openedMs, h.settle) + if h.symbol in symbols then ChargedAtOpen(s, h)
            else 0.0
    decreases |symbols|
  {
    hide ResolveBar, Sizes, IsFunded, Times;
    if symbols != [] {
      var last, snap := |symbols| - 1, Snapshot(h.side, h.openedMs, h.openedAt);
      var y, mid := symbols[last], ResolveAll(c, s, symbols[..last]);
      assert symbols == symbols[..last] + [y];
      if y != h.symbol {
        AllBarsCharge(c, s, symbols[..last], h);
        BarElsewhere(c, mid, y, h.symbol, snap);
      } else {
        forall i | 0 <= i < last ensures symbols[..last][i] != y { assert symbols[i] != symbols[last]; }
        OthersElsewhere(c, s, symbols[..last], y, snap);
        StillAtNextBar(c, s, mid, h);
        OpenCharges(c, mid, h);
      }
    }
  }

  lemma StillAtNextBar(c: Config, s: State, mid: State, h: Held)
    requires AtNextBar(c, s, h) && Elsewhere(s, mid, h.symbol, Snapshot(h.side, h.openedMs, h.openedAt))
    ensures AtNextBar(c, mid, h) && ChargedAtOpen(mid, h) == ChargedAtOpen(s, h)
    ensures Sizes(mid.purse.log, h.symbol, h.openedMs, h.settle) == Sizes(s.purse.log, h.symbol, h.openedMs, h.settle)
  {
    hide Sizes, Times;
    assert IsFunded(mid.purse, h.symbol, Snapshot(h.side, h.openedMs, h.openedAt), h.settle)
      <==> IsFunded(s.purse, h.symbol, Snapshot(h.side, h.openedMs, h.openedAt), h.settle);
  }

  /** All the sizes the position was charged on for the settlement: on the way out, and otherwise. */
  function ChargedFor(log: seq<Charge>, h: Held): real { LeftWith(log, h) + Sizes(log, h.symbol, h.openedMs, h.settle) }

  /**
   * If the clock has charged exactly what was owed by this bar, and the bars do not overlap, the stamp is still to be
   * charged.
   */
  lemma BoundaryUnfunded(c: Config, s: State, h: Held)
    requires Settled(c, s.purse, h.symbol, Snapshot(h.side, h.openedMs, h.openedAt), s.index)
    requires Boundary(c, h.symbol, s.index) == Some(h.settle) && End(c, h.symbol, s.index) <= h.settle
    ensures Key(h.symbol, h.settle, h.openedAt, None) !in s.purse.funded
  {
    hide Times;
    assert IsFunded(s.purse, h.symbol, Snapshot(h.side, h.openedMs, h.openedAt), h.settle)
      <==> Owed(c, h.symbol, h.openedAt, s.index, h.settle);
  }

  /**
   * A boundary settlement charges what was held. Whatever is done at a bar's close, the sizes the position is charged
   * on for the settlement stamped as the next bar starts, on the way out and by the next step together, are the larger
   * of what was held before the close and what was taken off at it: exactly what was held if and only if no more than
   * that was taken off.
   */
  lemma BoundaryCharges(c: Config, s: State, actions: seq<Action>, h: Held)
    requires 0.0 <= c.params.maintenance < 1.0 && AtClose(c, s, h) && h.symbol in c.data.symbols && BarsToCome(c, s, 1)
    requires Key(h.symbol, h.settle, h.openedAt, None) !in s.purse.funded
    requires forall i :: 0 <= i < |actions| ==> !actions[i].Advance?
    ensures var end, removed := Step(c, Run(c, s, actions)), Removed(c, s, actions, h);
            var charged := ChargedFor(end.purse.log, h) - ChargedFor(s.purse.log, h);
            charged == Max(h.size, removed) && (charged == h.size <==> removed <= h.size)
  {
    hide Run, Removed, Added, LeftWith, Sizes, Times, ResolveAll;
    var after, snap := Run(c, s, actions), Snapshot(h.side, h.openedMs, h.openedAt);
    LeavingExact(c, s, actions, h);
    RunStands(c, s, actions, h.symbol, snap);
    assert IsFunded(after.purse, h.symbol, snap, h.settle) <==> IsFunded(s.purse, h.symbol, snap, h.settle);
    var next := after.(index := after.index + 1);
    AllBarsCharge(c, next, c.data.symbols, h);
    BarsPlain(c, next, c.data.symbols, h);
  }

  // ---------------------------------------------------------------- the runs that over-charge

  /** The margin check looks at cash, positions and the bar. */
  lemma SameMargin(c: Config, s: State, t: State, cost: real)
    requires t.positions == s.positions && t.purse == s.purse && t.index == s.index
    ensures Affordable(c, t, cost) <==> Affordable(c, s, cost)
  {
    assert (map x | x in t.positions :: Unrealised(t.positions[x], Mark(c, t, x)))
        == (map x | x in s.positions :: Unrealised(s.positions[x], Mark(c, s, x)));
    assert (map x | x in t.positions :: t.positions[x].size * t.positions[x].entry / Levered(t.positions[x].leverage))
        == (map x | x in s.positions :: s.positions[x].size * s.positions[x].entry / Levered(s.positions[x].leverage));
  }

  function MarketOrder(link: int, symbol: int, side: Side, qty: real): Ticket
  {
    Ticket(link, symbol, side, false, false, qty, 0.0, false)
  }

  function MarginAndFee(leverage: real, qty: Qty, price: real, fee: real): real
  {
    qty * price / Levered(leverage) + fee
  }

  /** What a market order needs free when it executes at the close. */
  function TakerCost(c: Config, s: State, symbol: int, side: Side, qty: Qty): real
  {
    var price := TakerPrice(c.params, side, Mark(c, s, symbol));
    MarginAndFee(s.leverage, qty, price, FeeOn(c, qty, price, true))
  }

  /** With no cap on participation a market order trades all it asks for. */
  lemma MarketFills(c: Config, s: State, k: nat, qty: Qty, mark: real)
    requires k < |s.orders| && c.params.maxParticipation.None? && qty > 0.0
    requires var o := s.orders[k]; o.qty == qty && o.cum == 0.0 && !o.reduceOnly && !o.limit
    ensures var price := TakerPrice(c.params, s.orders[k].side, mark);
            Execute(c, s, k, mark, true, false)
            == FillOrder(c, s, k, qty, price, FeeOn(c, qty, price, true), true, false)
  {
    hide FillOrder, TakerPrice, FeeOn;
  }

  lemma AddToFills(c: Config, s: State, k: nat, qty: Qty, price: real, fee: real)
    requires k < |s.orders| && qty > 0.0 && Holds(s, s.orders[k].symbol)
    requires var o := s.orders[k]; s.positions[o.symbol].side == o.side
                                   && Affordable(c, s, MarginAndFee(s.leverage, qty, price, fee))
    ensures var o, p := s.orders[k], s.positions[s.orders[k].symbol];
            var after := FillOrder(c, s, k, qty, price, fee, true, false);
            && after.index == s.index && |after.orders| == |s.orders|
            && (forall j :: 0 <= j < |s.orders| ==> after.orders[j].link == s.orders[j].link)
            && o.symbol in after.positions && after.positions[o.symbol].size == p.size + qty
            && after.positions[o.symbol].side == p.side && after.positions[o.symbol].openedAt == p.openedAt
  {
    hide Affordable, Boundary, Levered;
  }

  /**
   * A market order on the held side, when the margin fits, adds its quantity and leaves everything else of the
   * position.
   */
  lemma AddFills(c: Config, s: State, h: Held, link: int, qty: Qty)
    requires Same(s, h) && qty > 0.0 && !OnFile(s, link) && h.symbol in c.data.bars && c.params.maxParticipation.None?
    requires Affordable(c, s, TakerCost(c, s, h.symbol, h.side, qty))
    ensures var after := Create(c, s, MarketOrder(link, h.symbol, h.side, qty));
            && Same(after, h) && after.positions[h.symbol].size == s.positions[h.symbol].size + qty
            && after.index == s.index
            && forall l :: OnFile(after, l) ==> OnFile(s, l) || l == link
  {
    hide Affordable, TakerPrice, FeeOn, MarginAndFee, Boundary, Execute;
    var t := MarketOrder(link, h.symbol, h.side, qty);
    var o := Order(t.link, t.symbol, t.side, t.limit, t.qty, t.price, New, 0.0, 0.0, PurposeOf(t), t.reduceOnly, 0.0);
    var placed := s.(orderSeq := s.orderSeq + 1, orders := s.orders + [o]);
    SameMargin(c, s, placed, TakerCost(c, s, h.symbol, h.side, qty));
    var after := Create(c, s, t);
    var price := TakerPrice(c.params, h.side, Mark(c, s, h.symbol));
    var n, fee := |s.orders|, FeeOn(c, qty, price, true);
    assert placed.orders[n] == o && Holds(placed, h.symbol);
    MarketFills(c, placed, n, qty, Mark(c, s, h.symbol));
    AddToFills(c, placed, n, qty, price, fee);
    forall l | OnFile(after, l) ensures OnFile(s, l) || l == link {
      var k :| 0 <= k < |after.orders| && after.orders[k].link == l;
      if k < |s.orders| { assert s.orders[k].link == l; }
    }
  }

  /** A market order against it for all of it takes it off. */
  lemma LeaveFills(c: Config, s: State, h: Held, link: int, qty: Qty)
    requires Same(s, h) && qty == s.positions[h.symbol].size && !OnFile(s, link) && h.symbol in c.data.bars
             && c.params.maxParticipation.None?
    ensures !Same(Create(c, s, MarketOrder(link, h.symbol, Opposite(h.side), qty)), h)
  {
    hide TakerPrice, FeeOn, ChargeLeaving, Gain;
    LeavingKeepsPositions(c, s, h.symbol, link, qty);
  }

  lemma LeavingKeepsPositions(c: Config, s: State, symbol: int, link: int, qty: Qty)
    ensures forall t: State, p: Position :: ChargeLeaving(c, t, symbol, p, qty, link, false).positions == t.positions
                                            && ChargeLeaving(c, t, symbol, p, qty, link, false).orders == t.orders
  {
    hide ChargeSettlement, Boundary;
  }

  /**
   * Add at the close, then close all of it: the settlement is charged on the sum, though only what was held passed it.
   */
  lemma AddingThenLeavingOverCharges(c: Config, s: State, h: Held, add: int, leave: int, extra: Qty)
    requires 0.0 <= c.params.maintenance < 1.0 && AtClose(c, s, h) && h.symbol in c.data.symbols && BarsToCome(c, s, 1)
    requires Key(h.symbol, h.settle, h.openedAt, None) !in s.purse.funded
    requires extra > 0.0 && add != leave && !OnFile(s, add) && !OnFile(s, leave)
    requires c.params.maxParticipation.None? && Affordable(c, s, TakerCost(c, s, h.symbol, h.side, extra))
    ensures var actions :=
              [Place(MarketOrder(add, h.symbol, h.side, extra)),
               Place(MarketOrder(leave, h.symbol, Opposite(h.side), h.size + extra))];
            var end := Step(c, Run(c, s, actions));
            && Removed(c, s, actions, h) == h.size + extra
            && ChargedFor(end.purse.log, h) - ChargedFor(s.purse.log, h) == h.size + extra > h.size
  {
    hide Create, Step, Affordable, ChargedFor, AtClose, TagsOnFile;
    CloseFacts(c, s, h);
    var a, b := Place(MarketOrder(add, h.symbol, h.side, extra)),
                Place(MarketOrder(leave, h.symbol, Opposite(h.side), h.size + extra));
    AddFills(c, s, h, add, extra);
    var mid := Act(c, s, a);
    LeaveFills(c, mid, h, leave, h.size + extra);
    var end := Act(c, mid, b);
    assert [a, b][1..] == [b] && [b][1..] == [];
    assert Removed(c, end, [], h) == 0.0;
    assert Removed(c, mid, [b], h) == TakenOff(mid, end, h) + Removed(c, end, [], h);
    assert Removed(c, s, [a, b], h) == TakenOff(s, mid, h) + Removed(c, mid, [b], h);
    BoundaryCharges(c, s, [a, b], h);
  }

  function FlatBar(i: int): Bar { Bar(i * FUNDING_INTERVAL_MS, 1.0, 1.0, 1.0, 1.0, 1.0) }

  function ExampleConfig(): Config
  {
    Config(Data([7], map[7 := [FlatBar(0), FlatBar(1), FlatBar(2), FlatBar(3)]], map[]),
           Params(10.0, 0.0, 0.0, 0.0, true, 0.0, 0.005, None, None, false))
  }

  function ExamplePosition(): Position { PerpVenue.Position(Buy, 1.0, 1.0, 0.0, 0.0, 1.0, 0, map[], false) }

  function ExampleState(): State
  {
    Initial(ExampleConfig(), 1.0).(index := 1, positions := map[7 := ExamplePosition()])
  }

  lemma ExampleAtClose(h: Held)
    requires h == Held(7, 0, 0, Buy, 1.0, 2 * FUNDING_INTERVAL_MS)
    ensures var c, s := ExampleConfig(), ExampleState(); AtClose(c, s, h) && BarsToCome(c, s, 1) && Mark(c, s, 7) == 1.0
  {
    var c := ExampleConfig();
    assert Series(c, 7) == [FlatBar(0), FlatBar(1), FlatBar(2), FlatBar(3)];
    assert Series(c, 7)[2].start == 2 * FUNDING_INTERVAL_MS;
  }

  /** Such a run exists: one unit held, one added and two sold at one close are charged as two. */
  lemma OverChargeHappens(h: Held)
    requires h == Held(7, 0, 0, Buy, 1.0, 2 * FUNDING_INTERVAL_MS)
    ensures var c, s := ExampleConfig(), ExampleState();
            var actions := [Place(MarketOrder(1, 7, Buy, 1.0)), Place(MarketOrder(2, 7, Sell, 2.0))];
            && 0.0 <= c.params.maintenance < 1.0 && AtClose(c, s, h)
            && ChargedFor(Step(c, Run(c, s, actions)).purse.log, h) - ChargedFor(s.purse.log, h) == 2.0
  {
    hide Run, Step, ChargedFor, Removed, Affordable, AtClose, BarsToCome, Mark, ExamplePosition;
    var c, s := ExampleConfig(), ExampleState();
    ExampleAtClose(h);
    ExampleMargin(c, s);
    AddingThenLeavingOverCharges(c, s, h, 1, 2, 1.0);
  }

  lemma ExampleMargin(c: Config, s: State)
    requires c == ExampleConfig() && s == ExampleState() && Mark(c, s, 7) == 1.0
    ensures Affordable(c, s, TakerCost(c, s, 7, Buy, 1.0))
  {
    hide Affordable, Mark;
    EnoughMargin(c, s, ExamplePosition());
  }

  lemma EnoughMargin(c: Config, s: State, p: Position)
    requires s.positions == map[7 := p] && p.side == Buy && p.size == p.entry == p.leverage == s.leverage == 1.0
             && s.purse.cash == 10.0
    requires Mark(c, s, 7) == 1.0 && c.params.slippage == c.params.takerFee == 0.0 && c.params.spreadBps.None?
    ensures Affordable(c, s, TakerCost(c, s, 7, Buy, 1.0))
  {
    assert (map x | x in s.positions :: Unrealised(s.positions[x], Mark(c, s, x))) == map[7 := 0.0];
    assert (map x | x in s.positions :: s.positions[x].size * s.positions[x].entry / Levered(s.positions[x].leverage))
        == map[7 := 1.0];
    TotalOne(7, 0.0);
    TotalOne(7, 1.0);
  }

  lemma TotalOne(k: int, v: real)
    ensures Total(map[k := v]) == v
  {
    TakeOut(map[k := v], k);
    assert map[k := v] - {k} == map[];
  }

  lemma CloseFacts(c: Config, s: State, h: Held)
    requires AtClose(c, s, h)
    ensures Same(s, h) && s.positions[h.symbol].size == h.size && h.symbol in c.data.bars
  {
  }

  // ---------------------------------------------------------------- every run keeps the tags on file

  /** Inside a bar: orders keep their links, and no exit is charged. */
  ghost predicate Untagged(s: State, after: State)
  {
    && |after.orders| == |s.orders| && (forall k :: 0 <= k < |s.orders| ==> after.orders[k].link == s.orders[k].link)
    && forall key :: key in after.purse.funded && key !in s.purse.funded ==> key.tag.None?
  }

  lemma UntaggedThen(a: State, b: State, c: State)
    requires Untagged(a, b) && Untagged(b, c)
    ensures Untagged(a, c)
  {
  }

  lemma FillUntagged(c: Config, s: State, k: nat, qty: Qty, price: real, fee: real, market: bool)
    requires k < |s.orders| && qty > 0.0
    ensures Untagged(s, FillOrder(c, s, k, qty, price, fee, market, true))
  {
    hide Gain, Affordable;
  }

  lemma QtyUntagged(c: Config, s: State, k: nat, remaining: Qty, price: real)
    requires k < |s.orders|
    ensures Untagged(s, ExecuteQty(c, s, k, remaining, price, false, true))
  {
    hide FillOrder, Available, FillPrice, FeeOn;
    var o := s.orders[k];
    var qty := Available(c, s, o.symbol, remaining);
    if qty > 0.0 {
      var fillPrice := FillPrice(c, o.side, price, false);
      FillUntagged(c, s, k, qty, fillPrice, FeeOn(c, qty, fillPrice, false), Immediate(o, true));
    }
  }

  lemma ExecuteUntagged(c: Config, s: State, k: nat, price: real)
    requires k < |s.orders|
    ensures Untagged(s, Execute(c, s, k, price, false, true))
  {
    hide ExecuteQty;
    var o := s.orders[k];
    var remaining := o.qty - o.cum;
    if o.qty > 0.0 && remaining > 0.0 {
      QtyUntagged(c, s, k, remaining, price);
      if o.reduceOnly && Holds(s, o.symbol) {
        var size := s.positions[o.symbol].size;
        QtyUntagged(c, SetOrder(s, k, o.(qty := o.cum + size)), k, size, price);
      }
    }
  }

  lemma ExitUntagged(c: Config, s: State, symbol: int, bar: Bar)
    requires 0.0 <= c.params.maintenance < 1.0
    ensures Untagged(s, ExitPosition(c, s, symbol, bar))
  {
    hide Gain, Decide, ExitPrice, Forfeit;
  }

  lemma {:induction false} RestUntagged(c: Config, s: State, symbol: int, bar: Bar, n: nat)
    ensures Untagged(s, RestAll(c, s, symbol, bar, n))
  {
    hide Execute;
    if n > 0 {
      RestUntagged(c, s, symbol, bar, n - 1);
      var mid := RestAll(c, s, symbol, bar, n - 1);
      if n - 1 < |mid.orders| { ExecuteUntagged(c, mid, n - 1, mid.orders[n - 1].price); }
    }
  }

  lemma {:induction false} OrphanLinks(orders: seq<Order>, symbol: int)
    ensures |Orphans(orders, symbol)| == |orders|
    ensures forall k :: 0 <= k < |orders| ==> Orphans(orders, symbol)[k].link == orders[k].link
    decreases |orders|
  {
    if orders != [] { OrphanLinks(orders[..|orders| - 1], symbol); }
  }

  lemma PricesUntagged(c: Config, s: State, symbol: int)
    requires 0.0 <= c.params.maintenance < 1.0
    ensures Untagged(s, ResolvePrices(c, s, symbol))
  {
    hide ExitPosition, RestAll;
    var bar := BarAt(c, symbol, s.index);
    var exited := ExitPosition(c, s, symbol, bar);
    var rested := RestAll(c, exited, symbol, bar, |s.orders|);
    ExitUntagged(c, s, symbol, bar);
    RestUntagged(c, exited, symbol, bar, |s.orders|);
    UntaggedThen(s, exited, rested);
    OrphanLinks(rested.orders, symbol);
    UntaggedThen(s, rested, CancelOrphans(rested, symbol));
  }

  ghost predicate UntaggedPurse(w: Purse, after: Purse)
  {
    forall key :: key in after.funded && key !in w.funded ==> key.tag.None?
  }

  lemma {:induction false} OpenUntagged(c: Config, w: Purse, symbol: int, bar: Bar, index: int, snap: Snapshot,
                                        size: real,
                                        late: map<int, real>, settles: seq<int>)
    ensures UntaggedPurse(w, FundAtOpen(c, w, symbol, bar, index, snap, size, late, settles))
    decreases |settles|
  {
    hide SettledRate, Dir;
    if settles != [] { OpenUntagged(c, w, symbol, bar, index, snap, size, late, settles[..|settles| - 1]); }
  }

  lemma {:induction false} InsideUntagged(c: Config, w: Purse, symbol: int, bar: Bar, snap: Snapshot,
                                          sizeStart: real, sizeEnd: real,
                                          held: bool, settles: seq<int>)
    ensures UntaggedPurse(w, FundInside(c, w, symbol, bar, snap, sizeStart, sizeEnd, held, settles))
    decreases |settles|
  {
    hide SettledRate, Dir;
    if settles != [] { InsideUntagged(c, w, symbol, bar, snap, sizeStart, sizeEnd, held, settles[..|settles| - 1]); }
  }

  lemma BarUntagged(c: Config, s: State, symbol: int)
    requires 0.0 <= c.params.maintenance < 1.0
    ensures Untagged(s, ResolveBar(c, s, symbol))
  {
    hide ResolvePrices, FundAtOpen, FundInside, SettlementsIn, SnapshotOf;
    if !Holds(s, symbol) {
      PricesUntagged(c, s, symbol);
    } else {
      var bar, settles, p := BarAt(c, symbol, s.index), SettlementsIn(c, symbol, s.index), s.positions[symbol];
      var snap := SnapshotOf(c, symbol, p, bar);
      var charged := s.(purse := FundAtOpen(c, s.purse, symbol, bar, s.index, snap, p.size, p.lateAdds, settles));
      OpenUntagged(c, s.purse, symbol, bar, s.index, snap, p.size, p.lateAdds, settles);
      PricesUntagged(c, charged, symbol);
      var after := ResolvePrices(c, charged, symbol);
      UntaggedThen(s, charged, after);
      var held := StillHeld(after, symbol, snap);
      InsideUntagged(c, after.purse, symbol, bar, snap, p.size, if held then after.positions[symbol].size else 0.0,
                     held, settles);
      UntaggedThen(s, after, ResolveBar(c, s, symbol));
    }
  }

  lemma {:induction false} BarsUntagged(c: Config, s: State, symbols: seq<int>)
    requires 0.0 <= c.params.maintenance < 1.0
    ensures Untagged(s, ResolveAll(c, s, symbols))
    decreases |symbols|
  {
    hide ResolveBar;
    if symbols != [] {
      var last := |symbols| - 1;
      BarsUntagged(c, s, symbols[..last]);
      BarUntagged(c, ResolveAll(c, s, symbols[..last]), symbols[last]);
      UntaggedThen(s, ResolveAll(c, s, symbols[..last]), ResolveAll(c, s, symbols));
    }
  }

  lemma StepTags(c: Config, s: State)
    requires 0.0 <= c.params.maintenance < 1.0 && TagsOnFile(s)
    ensures TagsOnFile(Step(c, s))
  {
    hide ResolveAll;
    var after := Step(c, s);
    BarsUntagged(c, s.(index := s.index + 1), c.data.symbols);
    forall key | key in after.purse.funded && key.tag.Some? ensures OnFile(after, key.tag.value) {
      assert key in s.purse.funded;
      var k :| 0 <= k < |s.orders| && s.orders[k].link == key.tag.value;
      assert after.orders[k].link == key.tag.value;
    }
  }

  /** So the boundary law needs no assumption about tags: it holds of every state a run reaches. */
  lemma {:induction false} RunTags(c: Config, s: State, actions: seq<Action>)
    requires 0.0 <= c.params.maintenance < 1.0 && TagsOnFile(s)
    ensures TagsOnFile(Run(c, s, actions))
    decreases |actions|
  {
    hide Act, TagsOnFile;
    if actions != [] {
      ActTags(c, s, actions[0]);
      RunTags(c, Act(c, s, actions[0]), actions[1..]);
    }
  }

  lemma ActTags(c: Config, s: State, a: Action)
    requires 0.0 <= c.params.maintenance < 1.0 && TagsOnFile(s)
    ensures TagsOnFile(Act(c, s, a))
  {
    hide Create, Step, TagsOnFile;
    match a {
      case Advance => StepTags(c, s);
      case Place(t) => CreateTags(c, s, t);
      case Protect(symbol, stop, target) => SameTags(s, SetStop(s, symbol, stop, target));
      case Read(symbol) => SameTags(s, ReadBack(s, symbol));
      case Cancel(link) =>
        CancelLinks(s.orders, link);
        SameTags(s, s.(orders := CancelFrom(s.orders, link)));
      case SetLeverage(leverage) => SameTags(s, s.(leverage := leverage));
      case FailStops(n) => SameTags(s, s.(failStops := n));
      case Drain => SameTags(s, s.(fillLog := []));
    }
  }
}
