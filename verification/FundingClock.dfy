/** When a held position is charged funding: which settlements, how often, and on how much. */
module FundingClock {
  import opened Basics
  import opened PerpVenue

  // ---------------------------------------------------------------- a bar's own settlements

  lemma RoundUpIsLeast(t: int, u: int)
    requires u % FUNDING_INTERVAL_MS == 0
    ensures RoundUp(t) % FUNDING_INTERVAL_MS == 0 && RoundUp(t) < t + FUNDING_INTERVAL_MS
    ensures t <= u <==> RoundUp(t) <= u
  {
    var q := (t + FUNDING_INTERVAL_MS - 1) / FUNDING_INTERVAL_MS;
    assert u == u / FUNDING_INTERVAL_MS * FUNDING_INTERVAL_MS;
  }

  lemma {:induction false} InMultiples(first: int, end: int, t: int)
    requires first % FUNDING_INTERVAL_MS == 0
    ensures t in Multiples(first, end) <==> t % FUNDING_INTERVAL_MS == 0 && first <= t < end
    decreases end - first
  {
    if first < end {
      InMultiples(first + FUNDING_INTERVAL_MS, end, t);
      if t % FUNDING_INTERVAL_MS == 0 { Between(first, t); }
    }
  }

  lemma Between(first: int, t: int)
    requires first % FUNDING_INTERVAL_MS == 0 && t % FUNDING_INTERVAL_MS == 0
    ensures first < t ==> first + FUNDING_INTERVAL_MS <= t
  {
  }

  /** A bar owns the settlements from the end of the bar before it (or its own start, if earlier) up to its own end. */
  lemma BarOwns(c: Config, symbol: int, i: int, t: int)
    ensures t in SettlementsIn(c, symbol, i) <==>
            t % FUNDING_INTERVAL_MS == 0 && Begin(c, symbol, i) <= t < End(c, symbol, i)
  {
    var first := RoundUp(Begin(c, symbol, i));
    RoundUpIsLeast(Begin(c, symbol, i), 0);
    InMultiples(first, End(c, symbol, i), t);
    if t % FUNDING_INTERVAL_MS == 0 { RoundUpIsLeast(Begin(c, symbol, i), t); }
  }

  /** Each bar starts after the one before. */
  ghost predicate Increasing(c: Config, symbol: int)
  {
    forall i, j :: 0 <= i < j < |Series(c, symbol)| ==> Series(c, symbol)[i].start < Series(c, symbol)[j].start
  }

  // ---------------------------------------------------------------- one position's charges

  /** How often a settlement was charged to the position opened in the bar that starts at `openedMs`, exits apart. */
  function Times(log: seq<Charge>, symbol: int, openedMs: int, t: int): nat
    decreases |log|
  {
    if log == [] then 0
    else
      var e := log[|log| - 1];
      Times(log[..|log| - 1], symbol, openedMs, t)
      + if e.symbol == symbol && e.openedMs == openedMs && e.settle == t && e.tag.None? then 1 else 0
  }

  /** The sizes those charges were on, together. */
  function Sizes(log: seq<Charge>, symbol: int, openedMs: int, t: int): real
    decreases |log|
  {
    if log == [] then 0.0
    else
      var e := log[|log| - 1];
      Sizes(log[..|log| - 1], symbol, openedMs, t)
      + if e.symbol == symbol && e.openedMs == openedMs && e.settle == t && e.tag.None? then e.size else 0.0
  }

  predicate IsFunded(w: Purse, symbol: int, snap: Snapshot, t: int) { Key(symbol, t, snap.openedAt, None) in w.funded }

  /** The key set and the log agree: charged once if funded, never otherwise. */
  ghost predicate OnceEach(w: Purse, symbol: int, snap: Snapshot)
  {
    forall t :: Times(w.log, symbol, snap.openedMs, t) == if IsFunded(w, symbol, snap, t) then 1 else 0
  }

  /** One settlement more: charged if it was not, on that size. */
  ghost predicate OneMore(w: Purse, after: Purse, symbol: int, snap: Snapshot, settle: int, size: real)
  {
    && (forall t :: IsFunded(after, symbol, snap, t) <==> IsFunded(w, symbol, snap, t) || t == settle)
    && forall t :: Sizes(after.log, symbol, snap.openedMs, t)
                   == Sizes(w.log, symbol, snap.openedMs, t) + if t == settle && !IsFunded(w, symbol, snap, t)
                      then size else 0.0
  }

  lemma ChargeOnce(c: Config, w: Purse, symbol: int, settle: int, snap: Snapshot, size: real, mark: real)
    requires OnceEach(w, symbol, snap) && size > 0.0
    ensures var after := ChargeSettlement(c, w, symbol, settle, snap, size, mark, None);
            OnceEach(after, symbol, snap) && OneMore(w, after, symbol, snap, settle, size)
  {
    hide SettledRate, Dir;
    var after := ChargeSettlement(c, w, symbol, settle, snap, size, mark, None);
    if after != w {
      assert after.log[..|after.log| - 1] == w.log;
      forall t ensures Times(after.log, symbol, snap.openedMs, t) == if IsFunded(after, symbol, snap, t) then 1 else 0 {
        assert Times(w.log, symbol, snap.openedMs, t) == if IsFunded(w, symbol, snap, t) then 1 else 0;
      }
    }
  }

  predicate AtOpen(bar: Bar, index: int, snap: Snapshot, t: int)
  {
    t < bar.start || (t == bar.start && snap.openedAt != index - 1)
  }

  /** The size the walk before the bar's prices charges a settlement on. */
  function OpenSize(bar: Bar, size: real, late: map<int, real>, t: int): real
  {
    if t == bar.start then size - LateAt(late, t) else size
  }

  /**
   * Each settlement of the list that the walk before the bar's prices takes is now charged, once, on the size due then.
   */
  ghost predicate OpenDone(w: Purse, after: Purse, symbol: int, bar: Bar, index: int, snap: Snapshot, size: real,
                           late: map<int, real>, settles: seq<int>)
  {
    && (forall t :: IsFunded(after, symbol, snap, t) <==>
                    IsFunded(w, symbol, snap, t) || (t in settles && AtOpen(bar, index, snap, t)))
    && forall t :: Sizes(after.log, symbol, snap.openedMs, t)
                   == Sizes(w.log, symbol, snap.openedMs, t)
                      + if t in settles && AtOpen(bar, index, snap, t) && !IsFunded(w, symbol, snap, t)
                      then OpenSize(bar, size, late, t) else 0.0
  }

  lemma OpenDoneThen(w: Purse, mid: Purse, after: Purse, symbol: int, bar: Bar, index: int, snap: Snapshot, size: real,
                     late: map<int, real>, settles: seq<int>, settle: int)
    requires OpenDone(w, mid, symbol, bar, index, snap, size, late, settles)
    requires if AtOpen(bar, index, snap, settle)
             then OneMore(mid, after, symbol, snap, settle, OpenSize(bar, size, late, settle)) else after == mid
    ensures OpenDone(w, after, symbol, bar, index, snap, size, late, settles + [settle])
  {
    hide Sizes, IsFunded, OpenSize, AtOpen;
    forall t ensures t in settles + [settle] <==> t in settles || t == settle {}
    forall t ensures Sizes(after.log, symbol, snap.openedMs, t)
                  == Sizes(w.log, symbol, snap.openedMs, t)
                     + if t in settles + [settle] && AtOpen(bar, index, snap, t) && !IsFunded(w, symbol, snap, t)
                     then OpenSize(bar, size, late, t) else 0.0 {
      assert Sizes(mid.log, symbol, snap.openedMs, t)
          == Sizes(w.log, symbol, snap.openedMs, t)
             + if t in settles && AtOpen(bar, index, snap, t) && !IsFunded(w, symbol, snap, t)
             then OpenSize(bar, size, late, t) else 0.0;
      assert IsFunded(mid, symbol, snap, t) <==>
             IsFunded(w, symbol, snap, t) || (t in settles && AtOpen(bar, index, snap, t));
    }
  }

  lemma {:induction false} OpenOnce(c: Config, w: Purse, symbol: int, bar: Bar, index: int, snap: Snapshot, size: real,
                                    late: map<int, real>, settles: seq<int>)
    requires OnceEach(w, symbol, snap) && size > 0.0
    requires snap.openedAt != index - 1 ==> size - LateAt(late, bar.start) > 0.0
    ensures var after := FundAtOpen(c, w, symbol, bar, index, snap, size, late, settles);
            OnceEach(after, symbol, snap) && OpenDone(w, after, symbol, bar, index, snap, size, late, settles)
    decreases |settles|
  {
    hide ChargeSettlement, OnceEach, IsFunded, OpenDone, OneMore;
    if settles == [] {
      NoneOpenDone(w, symbol, bar, index, snap, size, late);
    } else {
      var last := |settles| - 1;
      OpenOnce(c, w, symbol, bar, index, snap, size, late, settles[..last]);
      var mid := FundAtOpen(c, w, symbol, bar, index, snap, size, late, settles[..last]);
      var settle := settles[last];
      assert settles == settles[..last] + [settle];
      if AtOpen(bar, index, snap, settle) {
        ChargeOnce(c, mid, symbol, settle, snap, OpenSize(bar, size, late, settle), bar.open);
      }
      OpenDoneThen(w, mid, FundAtOpen(c, w, symbol, bar, index, snap, size, late, settles), symbol, bar, index, snap,
                   size, late,
                   settles[..last], settle);
    }
  }

  lemma NoneOpenDone(w: Purse, symbol: int, bar: Bar, index: int, snap: Snapshot, size: real, late: map<int, real>)
    ensures OpenDone(w, w, symbol, bar, index, snap, size, late, [])
  {
  }

  /** And those after the bar's start, on the held size. */
  ghost predicate InsideDone(w: Purse, after: Purse, symbol: int, bar: Bar, snap: Snapshot, size: real,
                             settles: seq<int>)
  {
    && (forall t :: IsFunded(after, symbol, snap, t) <==>
                    IsFunded(w, symbol, snap, t) || (t in settles && t > bar.start))
    && forall t :: Sizes(after.log, symbol, snap.openedMs, t)
                   == Sizes(w.log, symbol, snap.openedMs, t)
                      + if t in settles && t > bar.start && !IsFunded(w, symbol, snap, t) then size else 0.0
  }

  lemma InsideDoneThen(w: Purse, mid: Purse, after: Purse, symbol: int, bar: Bar, snap: Snapshot, size: real,
                       settles: seq<int>, settle: int)
    requires InsideDone(w, mid, symbol, bar, snap, size, settles)
    requires if settle > bar.start then OneMore(mid, after, symbol, snap, settle, size) else after == mid
    ensures InsideDone(w, after, symbol, bar, snap, size, settles + [settle])
  {
    hide Sizes, IsFunded;
    forall t ensures t in settles + [settle] <==> t in settles || t == settle {}
    forall t ensures Sizes(after.log, symbol, snap.openedMs, t)
                  == Sizes(w.log, symbol, snap.openedMs, t)
                     + if t in settles + [settle] && t > bar.start && !IsFunded(w, symbol, snap, t) then size
                     else 0.0 {
      assert Sizes(mid.log, symbol, snap.openedMs, t)
          == Sizes(w.log, symbol, snap.openedMs, t)
             + if t in settles && t > bar.start && !IsFunded(w, symbol, snap, t) then size else 0.0;
      assert IsFunded(mid, symbol, snap, t) <==> IsFunded(w, symbol, snap, t) || (t in settles && t > bar.start);
    }
  }

  lemma {:induction false} InsideOnce(c: Config, w: Purse, symbol: int, bar: Bar, snap: Snapshot, size: real,
                                      settles: seq<int>)
    requires OnceEach(w, symbol, snap) && size > 0.0
    ensures var after := FundInside(c, w, symbol, bar, snap, size, size, true, settles);
            OnceEach(after, symbol, snap) && InsideDone(w, after, symbol, bar, snap, size, settles)
    decreases |settles|
  {
    hide ChargeSettlement, OnceEach, IsFunded, SettledRate, InsideDone, OneMore;
    if settles == [] {
      NoneInsideDone(w, symbol, bar, snap, size);
    } else {
      var last := |settles| - 1;
      InsideOnce(c, w, symbol, bar, snap, size, settles[..last]);
      var mid := FundInside(c, w, symbol, bar, snap, size, size, true, settles[..last]);
      var settle := settles[last];
      assert settles == settles[..last] + [settle];
      if settle > bar.start {
        ChargeOnce(c, mid, symbol, settle, snap, size, Max(bar.open, bar.close));
        ChargeOnce(c, mid, symbol, settle, snap, size, Min(bar.open, bar.close));
      }
      InsideDoneThen(w, mid, FundInside(c, w, symbol, bar, snap, size, size, true, settles), symbol, bar, snap, size,
                     settles[..last], settle);
    }
  }

  lemma NoneInsideDone(w: Purse, symbol: int, bar: Bar, snap: Snapshot, size: real)
    ensures InsideDone(w, w, symbol, bar, snap, size, [])
  {
  }

  /** What a bar charges a position held through the whole of it. */
  function HeldBar(c: Config, w: Purse, symbol: int, i: int, p: Position): Purse
  {
    var bar, settles := BarAt(c, symbol, i), SettlementsIn(c, symbol, i);
    var snap := SnapshotOf(c, symbol, p, bar);
    FundInside(c, FundAtOpen(c, w, symbol, bar, i, snap, p.size, p.lateAdds, settles), symbol, bar, snap, p.size,
               p.size, true, settles)
  }

  // ---------------------------------------------------------------- the clock over a hold

  /** The settlements a hold from bar `k` to bar `m` should pay: all of them but one stamped as bar `k + 1` starts. */
  predicate Owed(c: Config, symbol: int, k: int, m: int, t: int)
  {
    && t % FUNDING_INTERVAL_MS == 0 && k < m
    && Begin(c, symbol, k + 1) <= t < End(c, symbol, m) && t != BarAt(c, symbol, k + 1).start
  }

  /** Whatever else happens, to other symbols or other positions: this position's own keys and charges are untouched. */
  ghost predicate Untouched(w: Purse, after: Purse, symbol: int, snap: Snapshot)
  {
    forall t :: Times(after.log, symbol, snap.openedMs, t) == Times(w.log, symbol, snap.openedMs, t)
                && Sizes(after.log, symbol, snap.openedMs, t) == Sizes(w.log, symbol, snap.openedMs, t)
                && (IsFunded(after, symbol, snap, t) <==> IsFunded(w, symbol, snap, t))
  }

  /** The charges to the position `snap` names are exactly those owed by the end of bar `m`, once each. */
  ghost predicate Settled(c: Config, w: Purse, symbol: int, snap: Snapshot, m: int)
  {
    OnceEach(w, symbol, snap) && forall t :: IsFunded(w, symbol, snap, t) <==> Owed(c, symbol, snap.openedAt, m, t)
  }

  lemma NothingOwedYet(c: Config, symbol: int, k: int)
    ensures forall t :: !Owed(c, symbol, k, k, t)
  {
  }

  /**
   * A position as the clock needs it by the end of bar `m`: opened in bar `k`, and added to only at closes gone by. The
   * last of those, if it was bar `m`'s own close and not the opening bar's, added less than is held now.
   */
  ghost predicate HeldSince(c: Config, x: int, k: int, m: int, p: Position)
  {
    && 0 <= k <= m < |Series(c, x)| && p.openedAt == k && p.size > 0.0
    && forall t :: t in p.lateAdds ==>
                     t <= Series(c, x)[m].start
                     || (m + 1 < |Series(c, x)| && t == Series(c, x)[m + 1].start && (m == k || p.lateAdds[t] < p.size))
  }

  /**
   * From the end of bar `m` to that of bar `n` what came to be owed was charged, on the size held less what was added
   * late.
   */
  ghost predicate ChargedDue(c: Config, w: Purse, after: Purse, symbol: int, snap: Snapshot, p: Position, m: int,
                             n: int)
  {
    forall t :: Sizes(after.log, symbol, snap.openedMs, t)
                == Sizes(w.log, symbol, snap.openedMs, t)
                   + if Owed(c, symbol, snap.openedAt, n, t) && !Owed(c, symbol, snap.openedAt, m, t)
                   then p.size - LateAt(p.lateAdds, t) else 0.0
  }

  /** One more bar: its own settlements join those already charged, and together they reach to its end. */
  lemma BarTiles(c: Config, w: Purse, symbol: int, k: int, m: int, p: Position)
    requires Increasing(c, symbol) && 0 < m < |Series(c, symbol)| && HeldSince(c, symbol, k, m - 1, p)
    requires Settled(c, w, symbol, Snapshot(p.side, Series(c, symbol)[k].start, k), m - 1)
    ensures Settled(c, HeldBar(c, w, symbol, m, p), symbol, Snapshot(p.side, Series(c, symbol)[k].start, k), m)
    ensures ChargedDue(c, w, HeldBar(c, w, symbol, m, p), symbol, Snapshot(p.side, Series(c, symbol)[k].start, k), p,
                       m - 1, m)
  {
    hide FundAtOpen, FundInside, OnceEach, IsFunded, SettlementsIn, Sizes, Owed, OpenDone, InsideDone, Increasing;
    var bar, settles := BarAt(c, symbol, m), SettlementsIn(c, symbol, m);
    var snap := SnapshotOf(c, symbol, p, bar);
    StartsLater(c, symbol, m);
    if k != m - 1 { assert p.size - LateAt(p.lateAdds, bar.start) > 0.0; }
    OpenOnce(c, w, symbol, bar, m, snap, p.size, p.lateAdds, settles);
    var mid := FundAtOpen(c, w, symbol, bar, m, snap, p.size, p.lateAdds, settles);
    InsideOnce(c, mid, symbol, bar, snap, p.size, settles);
    var after := HeldBar(c, w, symbol, m, p);
    forall t ensures IsFunded(after, symbol, snap, t) <==> Owed(c, symbol, k, m, t)
      ensures Sizes(after.log, symbol, snap.openedMs, t)
           == Sizes(w.log, symbol, snap.openedMs, t)
              + if Owed(c, symbol, k, m, t) && !Owed(c, symbol, k, m - 1, t)
              then p.size - LateAt(p.lateAdds, t) else 0.0 {
      BarOwns(c, symbol, m, t);
      OwedGrows(c, symbol, k, m, t);
      BarCharges(w, mid, after, symbol, bar, m, snap, p.size, p.lateAdds, settles, t);
    }
  }

  lemma StartsLater(c: Config, symbol: int, m: int)
    requires Increasing(c, symbol) && 0 < m < |Series(c, symbol)|
    ensures Series(c, symbol)[m - 1].start < Series(c, symbol)[m].start
            && Series(c, symbol)[m - 1].start < Begin(c, symbol, m)
  {
  }

  /** The two walks of a bar together, seen at one stamp. */
  lemma BarCharges(w: Purse, mid: Purse, after: Purse, symbol: int, bar: Bar, index: int, snap: Snapshot, size: real,
                   late: map<int, real>, settles: seq<int>, t: int)
    requires OpenDone(w, mid, symbol, bar, index, snap, size, late, settles)
    requires InsideDone(mid, after, symbol, bar, snap, size, settles)
    ensures var due := t in settles && !(t == bar.start && snap.openedAt == index - 1);
            && (IsFunded(after, symbol, snap, t) <==> IsFunded(w, symbol, snap, t) || due)
            && Sizes(after.log, symbol, snap.openedMs, t)
               == Sizes(w.log, symbol, snap.openedMs, t) + if due && !IsFunded(w, symbol, snap, t)
                  then OpenSize(bar, size, late, t) else 0.0
  {
    hide Sizes, IsFunded;
  }

  lemma OwedGrows(c: Config, symbol: int, k: int, m: int, t: int)
    requires Increasing(c, symbol) && 0 <= k < m < |Series(c, symbol)|
    ensures Owed(c, symbol, k, m, t) <==>
            Owed(c, symbol, k, m - 1, t)
            || (t % FUNDING_INTERVAL_MS == 0 && Begin(c, symbol, m) <= t < End(c, symbol, m)
                && !(t == BarAt(c, symbol, m).start && k == m - 1))
  {
    var series := Series(c, symbol);
    assert series[k].start < series[k + 1].start <= series[m].start;
    if k < m - 1 { assert series[k + 1].start <= series[m - 1].start < series[m].start; }
  }

  // ---------------------------------------------------------------- the clock inside the simulator

  /** Nothing of symbol `x` changes: not its position, not the charges to the position `snap` names. */
  ghost predicate Elsewhere(s: State, after: State, x: int, snap: Snapshot)
  {
    && after.index == s.index && Untouched(s.purse, after.purse, x, snap)
    && (x in after.positions <==> x in s.positions) && (x in s.positions ==> after.positions[x] == s.positions[x])
  }

  lemma ElsewhereThen(a: State, b: State, c: State, x: int, snap: Snapshot)
    requires Elsewhere(a, b, x, snap) && Elsewhere(b, c, x, snap)
    ensures Elsewhere(a, c, x, snap)
  {
    UntouchedThen(a.purse, b.purse, c.purse, x, snap);
  }

  lemma UntouchedThen(a: Purse, b: Purse, c: Purse, x: int, snap: Snapshot)
    requires Untouched(a, b, x, snap) && Untouched(b, c, x, snap)
    ensures Untouched(a, c, x, snap)
  {
    forall t ensures Times(c.log, x, snap.openedMs, t) == Times(a.log, x, snap.openedMs, t)
                     && Sizes(c.log, x, snap.openedMs, t) == Sizes(a.log, x, snap.openedMs, t)
                     && (IsFunded(c, x, snap, t) <==> IsFunded(a, x, snap, t)) {
      assert Times(b.log, x, snap.openedMs, t) == Times(a.log, x, snap.openedMs, t);
      assert Sizes(b.log, x, snap.openedMs, t) == Sizes(a.log, x, snap.openedMs, t);
      assert IsFunded(b, x, snap, t) <==> IsFunded(a, x, snap, t);
    }
  }

  /** A charge to another symbol, or one tagged as an exit's. */
  lemma ChargeElsewhere(c: Config, w: Purse, y: int, settle: int, other: Snapshot, size: real, mark: real,
                        tag: Option<int>,
                        x: int, snap: Snapshot)
    requires y != x || tag.Some?
    ensures Untouched(w, ChargeSettlement(c, w, y, settle, other, size, mark, tag), x, snap)
  {
    hide SettledRate, Dir;
    var after := ChargeSettlement(c, w, y, settle, other, size, mark, tag);
    if after != w { assert after.log[..|after.log| - 1] == w.log; }
  }

  lemma {:induction false} OpenElsewhere(c: Config, w: Purse, y: int, bar: Bar, index: int, other: Snapshot, size: real,
                                         late: map<int, real>, settles: seq<int>, x: int, snap: Snapshot)
    requires y != x
    ensures Untouched(w, FundAtOpen(c, w, y, bar, index, other, size, late, settles), x, snap)
    decreases |settles|
  {
    hide ChargeSettlement, Times, IsFunded;
    if settles != [] {
      var last := |settles| - 1;
      var mid := FundAtOpen(c, w, y, bar, index, other, size, late, settles[..last]);
      OpenElsewhere(c, w, y, bar, index, other, size, late, settles[..last], x, snap);
      ChargeElsewhere(c, mid, y, settles[last], other, size - LateAt(late, settles[last]), bar.open, None, x, snap);
      ChargeElsewhere(c, mid, y, settles[last], other, size, bar.open, None, x, snap);
      UntouchedThen(w, mid, FundAtOpen(c, w, y, bar, index, other, size, late, settles), x, snap);
    }
  }

  lemma {:induction false} InsideElsewhere(c: Config, w: Purse, y: int, bar: Bar, other: Snapshot, sizeStart: real,
                                           sizeEnd: real,
                                           held: bool, settles: seq<int>, x: int, snap: Snapshot)
    requires y != x
    ensures Untouched(w, FundInside(c, w, y, bar, other, sizeStart, sizeEnd, held, settles), x, snap)
    decreases |settles|
  {
    hide ChargeSettlement, Times, IsFunded, SettledRate;
    if settles != [] {
      var last := |settles| - 1;
      var mid := FundInside(c, w, y, bar, other, sizeStart, sizeEnd, held, settles[..last]);
      InsideElsewhere(c, w, y, bar, other, sizeStart, sizeEnd, held, settles[..last], x, snap);
      ChargeElsewhere(c, mid, y, settles[last], other, sizeStart, Max(bar.open, bar.close), None, x, snap);
      ChargeElsewhere(c, mid, y, settles[last], other, sizeEnd, Min(bar.open, bar.close), None, x, snap);
      UntouchedThen(w, mid, FundInside(c, w, y, bar, other, sizeStart, sizeEnd, held, settles), x, snap);
    }
  }

  /** What prices do to a symbol inside a bar: nothing to any charge, and to no other symbol's position. */
  ghost predicate PricesOnly(s: State, after: State, y: int)
  {
    && after.index == s.index && after.purse.log == s.purse.log && after.purse.funded == s.purse.funded
    && after.purse.unprinted == s.purse.unprinted && |after.orders| == |s.orders|
    && forall x :: x != y ==>
                     (x in after.positions <==> x in s.positions)
                     && (x in s.positions ==> after.positions[x] == s.positions[x])
  }

  lemma FillPricesOnly(c: Config, s: State, k: nat, qty: Qty, price: real, fee: real, market: bool)
    requires k < |s.orders| && qty > 0.0
    ensures PricesOnly(s, FillOrder(c, s, k, qty, price, fee, market, true), s.orders[k].symbol)
  {
    hide Gain, Affordable;
  }

  lemma ExecutePricesOnly(c: Config, s: State, k: nat, price: real)
    requires k < |s.orders|
    ensures PricesOnly(s, Execute(c, s, k, price, false, true), s.orders[k].symbol)
  {
    hide FillOrder, Available;
    var o := s.orders[k];
    var remaining := o.qty - o.cum;
    if o.qty > 0.0 && remaining > 0.0 {
      QtyPricesOnly(c, s, k, remaining, price);
      if o.reduceOnly && Holds(s, o.symbol) {
        var size := s.positions[o.symbol].size;
        QtyPricesOnly(c, SetOrder(s, k, o.(qty := o.cum + size)), k, size, price);
      }
    }
  }

  lemma QtyPricesOnly(c: Config, s: State, k: nat, remaining: Qty, price: real)
    requires k < |s.orders|
    ensures PricesOnly(s, ExecuteQty(c, s, k, remaining, price, false, true), s.orders[k].symbol)
  {
    hide FillOrder, Available, FillPrice, FeeOn;
    var o := s.orders[k];
    var qty := Available(c, s, o.symbol, remaining);
    if qty > 0.0 {
      var fillPrice := FillPrice(c, o.side, price, false);
      FillPricesOnly(c, s, k, qty, fillPrice, FeeOn(c, qty, fillPrice, false), Immediate(o, true));
    }
  }

  lemma ExitPricesOnly(c: Config, s: State, symbol: int, bar: Bar)
    requires 0.0 <= c.params.maintenance < 1.0
    ensures PricesOnly(s, ExitPosition(c, s, symbol, bar), symbol)
  {
    hide Gain, Decide, ExitPrice, Forfeit;
  }

  lemma {:induction false} RestPricesOnly(c: Config, s: State, symbol: int, bar: Bar, n: nat)
    ensures PricesOnly(s, RestAll(c, s, symbol, bar, n), symbol)
  {
    hide Execute;
    if n > 0 {
      RestPricesOnly(c, s, symbol, bar, n - 1);
      var mid := RestAll(c, s, symbol, bar, n - 1);
      if n - 1 < |mid.orders| { ExecutePricesOnly(c, mid, n - 1, mid.orders[n - 1].price); }
    }
  }

  lemma {:induction false} OrphansLength(orders: seq<Order>, symbol: int)
    ensures |Orphans(orders, symbol)| == |orders|
    decreases |orders|
  {
    if orders != [] { OrphansLength(orders[..|orders| - 1], symbol); }
  }

  lemma ResolvePricesOnly(c: Config, s: State, symbol: int)
    requires 0.0 <= c.params.maintenance < 1.0
    ensures PricesOnly(s, ResolvePrices(c, s, symbol), symbol)
  {
    hide ExitPosition, RestAll;
    var bar := BarAt(c, symbol, s.index);
    var exited := ExitPosition(c, s, symbol, bar);
    ExitPricesOnly(c, s, symbol, bar);
    RestPricesOnly(c, exited, symbol, bar, |s.orders|);
    OrphansLength(RestAll(c, exited, symbol, bar, |s.orders|).orders, symbol);
  }

  lemma PricesUntouched(s: State, after: State, y: int, x: int, snap: Snapshot)
    requires PricesOnly(s, after, y)
    ensures Untouched(s.purse, after.purse, x, snap)
    ensures x != y ==> Elsewhere(s, after, x, snap)
  {
  }

  /** Another symbol's bar. */
  lemma BarElsewhere(c: Config, s: State, y: int, x: int, snap: Snapshot)
    requires 0.0 <= c.params.maintenance < 1.0 && x != y
    ensures Elsewhere(s, ResolveBar(c, s, y), x, snap)
  {
    hide ResolvePrices, FundAtOpen, FundInside, SettlementsIn, SnapshotOf, PricesOnly, Times, IsFunded;
    if !Holds(s, y) {
      ResolvePricesOnly(c, s, y);
      PricesUntouched(s, ResolvePrices(c, s, y), y, x, snap);
    } else {
      var bar, settles, p := BarAt(c, y, s.index), SettlementsIn(c, y, s.index), s.positions[y];
      var other := SnapshotOf(c, y, p, bar);
      var charged := s.(purse := FundAtOpen(c, s.purse, y, bar, s.index, other, p.size, p.lateAdds, settles));
      OpenElsewhere(c, s.purse, y, bar, s.index, other, p.size, p.lateAdds, settles, x, snap);
      ResolvePricesOnly(c, charged, y);
      var after := ResolvePrices(c, charged, y);
      PricesUntouched(charged, after, y, x, snap);
      ElsewhereThen(s, charged, after, x, snap);
      var held := StillHeld(after, y, other);
      InsideElsewhere(c, after.purse, y, bar, other, p.size, if held then after.positions[y].size else 0.0, held,
                      settles, x, snap);
      ElsewhereThen(s, after, ResolveBar(c, s, y), x, snap);
    }
  }

  /** Charging looks at nothing in the purse but what was charged before. */
  lemma ChargeSame(c: Config, w: Purse, v: Purse, symbol: int, settle: int, snap: Snapshot, size: real, mark: real)
    requires w.log == v.log && w.funded == v.funded
    ensures var a, b := ChargeSettlement(c, w, symbol, settle, snap, size, mark, None),
                        ChargeSettlement(c, v, symbol, settle, snap, size, mark, None);
            a.log == b.log && a.funded == b.funded
  {
    hide SettledRate, Dir;
  }

  lemma {:induction false} InsideSame(c: Config, w: Purse, v: Purse, symbol: int, bar: Bar, snap: Snapshot,
                                      size: real, settles: seq<int>)
    requires w.log == v.log && w.funded == v.funded
    ensures var a, b := FundInside(c, w, symbol, bar, snap, size, size, true, settles),
                        FundInside(c, v, symbol, bar, snap, size, size, true, settles);
            a.log == b.log && a.funded == b.funded
    decreases |settles|
  {
    hide ChargeSettlement, SettledRate;
    if settles != [] {
      var last := |settles| - 1;
      InsideSame(c, w, v, symbol, bar, snap, size, settles[..last]);
      var a := FundInside(c, w, symbol, bar, snap, size, size, true, settles[..last]);
      var b := FundInside(c, v, symbol, bar, snap, size, size, true, settles[..last]);
      ChargeSame(c, a, b, symbol, settles[last], snap, size, Max(bar.open, bar.close));
      ChargeSame(c, a, b, symbol, settles[last], snap, size, Min(bar.open, bar.close));
    }
  }

  /** The position as the clock sees it: stops, targets and their verification are no part of it. */
  predicate Alike(p: Position, q: Position)
  {
    q.side == p.side && q.size == p.size && q.openedAt == p.openedAt && q.lateAdds == p.lateAdds
  }

  predicate HeldAs(s: State, x: int, p: Position) { x in s.positions && Alike(p, s.positions[x]) }

  /** A bar through which the position is held charges it just as `HeldBar` says. */
  lemma BarHeld(c: Config, s: State, x: int, p: Position)
    requires 0.0 <= c.params.maintenance < 1.0 && Holds(s, x) && HeldAs(s, x, p) && HeldAs(ResolveBar(c, s, x), x, p)
    ensures var after, held := ResolveBar(c, s, x).purse, HeldBar(c, s.purse, x, s.index, p);
            after.log == held.log && after.funded == held.funded
  {
    hide ResolvePrices, FundAtOpen, FundInside, SettlementsIn;
    var bar, settles := BarAt(c, x, s.index), SettlementsIn(c, x, s.index);
    var snap := SnapshotOf(c, x, p, bar);
    var charged := s.(purse := FundAtOpen(c, s.purse, x, bar, s.index, snap, p.size, p.lateAdds, settles));
    ResolvePricesOnly(c, charged, x);
    InsideSame(c, ResolvePrices(c, charged, x).purse, charged.purse, x, bar, snap, p.size, settles);
  }

  lemma SettledStays(c: Config, w: Purse, after: Purse, symbol: int, snap: Snapshot, m: int)
    requires Settled(c, w, symbol, snap, m) && Untouched(w, after, symbol, snap)
    ensures Settled(c, after, symbol, snap, m)
  {
    hide Owed, Times, IsFunded;
    forall t ensures Times(after.log, symbol, snap.openedMs, t) == if IsFunded(after, symbol, snap, t) then 1 else 0 {
      assert Times(w.log, symbol, snap.openedMs, t) == if IsFunded(w, symbol, snap, t) then 1 else 0;
    }
    forall t ensures IsFunded(after, symbol, snap, t) <==> Owed(c, symbol, snap.openedAt, m, t) {
      assert IsFunded(w, symbol, snap, t) <==> Owed(c, symbol, snap.openedAt, m, t);
    }
  }

  lemma DueStays(c: Config, u: Purse, v: Purse, w: Purse, x: int, snap: Snapshot, p: Position, m: int, n: int)
    requires (Untouched(u, v, x, snap) && ChargedDue(c, v, w, x, snap, p, m, n))
             || (ChargedDue(c, u, v, x, snap, p, m, n) && Untouched(v, w, x, snap))
    ensures ChargedDue(c, u, w, x, snap, p, m, n)
  {
    hide Owed, Times, IsFunded, Sizes;
    forall t ensures Sizes(w.log, x, snap.openedMs, t)
                  == Sizes(u.log, x, snap.openedMs, t)
                     + if Owed(c, x, snap.openedAt, n, t) && !Owed(c, x, snap.openedAt, m, t)
                     then p.size - LateAt(p.lateAdds, t) else 0.0 {
      assert Untouched(u, v, x, snap) ==> Sizes(v.log, x, snap.openedMs, t) == Sizes(u.log, x, snap.openedMs, t);
      assert Untouched(v, w, x, snap) ==> Sizes(w.log, x, snap.openedMs, t) == Sizes(v.log, x, snap.openedMs, t);
    }
  }

  /**
   * What the charges of a symbol's position have become by the end of the bar: its own bar's are there once its turn
   * has come.
   */
  ghost predicate BarDone(c: Config, w: Purse, after: Purse, x: int, snap: Snapshot, p: Position, m: int, turned: bool)
  {
    if turned then Settled(c, after, x, snap, m) && ChargedDue(c, w, after, x, snap, p, m - 1, m)
    else Untouched(w, after, x, snap)
  }

  lemma BarDoneThen(c: Config, w: Purse, mid: Purse, after: Purse, x: int, snap: Snapshot, p: Position, m: int,
                    turned: bool)
    requires BarDone(c, w, mid, x, snap, p, m, turned) && Untouched(mid, after, x, snap)
    ensures BarDone(c, w, after, x, snap, p, m, turned)
  {
    hide Settled, ChargedDue, Untouched;
    if turned {
      SettledStays(c, mid, after, x, snap, m);
      DueStays(c, w, mid, after, x, snap, p, m - 1, m);
    } else {
      UntouchedThen(w, mid, after, x, snap);
    }
  }

  lemma {:induction false} AllBars(c: Config, s: State, symbols: seq<int>, x: int, k: int, p: Position)
    requires 0.0 <= c.params.maintenance < 1.0 && Increasing(c, x) && 0 < s.index < |Series(c, x)|
             && HeldSince(c, x, k, s.index - 1, p)
    requires forall i, j :: 0 <= i < j < |symbols| ==> symbols[i] != symbols[j]
    requires HeldAs(s, x, p) && HeldAs(ResolveAll(c, s, symbols), x, p)
    requires Settled(c, s.purse, x, Snapshot(p.side, Series(c, x)[k].start, k), s.index - 1)
    ensures BarDone(c, s.purse, ResolveAll(c, s, symbols).purse, x, Snapshot(p.side, Series(c, x)[k].start, k), p,
                    s.index, x in symbols)
    ensures ResolveAll(c, s, symbols).index == s.index
    decreases |symbols|
  {
    hide ResolveBar, Settled, Increasing, Untouched, ChargedDue, BarDone;
    var snap := Snapshot(p.side, Series(c, x)[k].start, k);
    if symbols == [] {
      NothingDone(c, s.purse, x, snap, p, s.index);
    } else {
      var last := |symbols| - 1;
      var y, mid := symbols[last], ResolveAll(c, s, symbols[..last]);
      assert symbols == symbols[..last] + [y];
      if y != x {
        BarElsewhere(c, mid, y, x, snap);
        AllBars(c, s, symbols[..last], x, k, p);
        BarDoneThen(c, s.purse, mid.purse, ResolveBar(c, mid, y).purse, x, snap, p, s.index, x in symbols[..last]);
      } else {
        forall i | 0 <= i < last ensures symbols[..last][i] != x { assert symbols[i] != symbols[last]; }
        OthersElsewhere(c, s, symbols[..last], x, snap);
        SettledStays(c, s.purse, mid.purse, x, snap, s.index - 1);
        OwnBar(c, s.purse, mid, x, k, p);
      }
    }
  }

  lemma NothingDone(c: Config, w: Purse, x: int, snap: Snapshot, p: Position, m: int)
    ensures BarDone(c, w, w, x, snap, p, m, false)
  {
  }

  lemma OwnBar(c: Config, before: Purse, s: State, x: int, k: int, p: Position)
    requires 0.0 <= c.params.maintenance < 1.0 && Increasing(c, x) && 0 < s.index < |Series(c, x)|
             && HeldSince(c, x, k, s.index - 1, p)
    requires HeldAs(s, x, p) && HeldAs(ResolveBar(c, s, x), x, p)
    requires Settled(c, s.purse, x, Snapshot(p.side, Series(c, x)[k].start, k), s.index - 1)
    requires Untouched(before, s.purse, x, Snapshot(p.side, Series(c, x)[k].start, k))
    ensures BarDone(c, before, ResolveBar(c, s, x).purse, x, Snapshot(p.side, Series(c, x)[k].start, k), p, s.index,
                    true)
    ensures ResolveBar(c, s, x).index == s.index
  {
    hide ResolveBar, HeldBar, Settled, ChargedDue, Increasing, Times, Sizes;
    var snap := Snapshot(p.side, Series(c, x)[k].start, k);
    BarHeld(c, s, x, p);
    BarTiles(c, s.purse, x, k, s.index, p);
    BarIndex(c, s, x);
    var held, after := HeldBar(c, s.purse, x, s.index, p), ResolveBar(c, s, x).purse;
    SettledStays(c, held, after, x, snap, s.index);
    DueStays(c, s.purse, held, after, x, snap, p, s.index - 1, s.index);
    DueStays(c, before, s.purse, after, x, snap, p, s.index - 1, s.index);
  }

  lemma BarIndex(c: Config, s: State, x: int)
    requires 0.0 <= c.params.maintenance < 1.0
    ensures ResolveBar(c, s, x).index == s.index
  {
    hide ResolvePrices, FundAtOpen, FundInside, SettlementsIn, SnapshotOf;
    ResolvePricesOnly(c, s, x);
    if Holds(s, x) {
      var bar, settles, p := BarAt(c, x, s.index), SettlementsIn(c, x, s.index), s.positions[x];
      var snap := SnapshotOf(c, x, p, bar);
      ResolvePricesOnly(c, s.(purse := FundAtOpen(c, s.purse, x, bar, s.index, snap, p.size, p.lateAdds, settles)), x);
    }
  }

  lemma {:induction false} OthersElsewhere(c: Config, s: State, symbols: seq<int>, x: int, snap: Snapshot)
    requires 0.0 <= c.params.maintenance < 1.0 && forall i :: 0 <= i < |symbols| ==> symbols[i] != x
    ensures Elsewhere(s, ResolveAll(c, s, symbols), x, snap)
    decreases |symbols|
  {
    hide ResolveBar, Times, IsFunded;
    if symbols != [] {
      var last := |symbols| - 1;
      var mid := ResolveAll(c, s, symbols[..last]);
      OthersElsewhere(c, s, symbols[..last], x, snap);
      BarElsewhere(c, mid, symbols[last], x, snap);
      ElsewhereThen(s, mid, ResolveBar(c, mid, symbols[last]), x, snap);
    }
  }

  // ---------------------------------------------------------------- between two bars

  /** The bar stands, and nothing of the charges to the position `snap` names has changed. */
  ghost predicate ClockStands(s: State, after: State, x: int, snap: Snapshot)
  {
    after.index == s.index && Untouched(s.purse, after.purse, x, snap)
  }

  /** A trade at the close: all it can charge is what leaves, and that charge names the order it left on. */
  lemma TradeStands(c: Config, s: State, symbol: int, side: Side, link: int, qty: Qty, price: real, fee: real,
                    x: int, snap: Snapshot)
    requires Trade(c, s, symbol, side, link, qty, price, fee, false).Some?
    ensures ClockStands(s, Trade(c, s, symbol, side, link, qty, price, fee, false).value, x, snap)
  {
    hide Affordable, ChargeSettlement, Gain, Times, Sizes, IsFunded, Enlarged, Opened;
    if Holds(s, symbol) && s.positions[symbol].side != side {
      var p, boundary, bar := s.positions[symbol], Boundary(c, symbol, s.index), BarAt(c, symbol, s.index);
      if boundary.Some? {
        ChargeElsewhere(c, s.purse, symbol, boundary.value, SnapshotOf(c, symbol, p, bar), Min(qty, p.size),
                        bar.close, Some(link), x, snap);
      }
      ReduceStands(c, s, symbol, side, link, qty, price, x, snap);
    }
  }

  lemma ReduceStands(c: Config, s: State, symbol: int, side: Side, link: int, qty: Qty, price: real, x: int,
                     snap: Snapshot)
    requires Holds(s, symbol)
    requires Untouched(s.purse,
                       ChargeLeaving(c, s, symbol, s.positions[symbol], Min(qty, s.positions[symbol].size), link,
                                     false).purse, x, snap)
    ensures ClockStands(s, ReduceBy(c, s, symbol, side, link, qty, price, false), x, snap)
  {
    hide ChargeSettlement, Gain, Times, Sizes, Opened;
  }

  lemma FillStands(c: Config, s: State, k: nat, qty: Qty, price: real, fee: real, market: bool, x: int, snap: Snapshot)
    requires k < |s.orders| && qty > 0.0
    ensures ClockStands(s, FillOrder(c, s, k, qty, price, fee, market, false), x, snap)
  {
    hide Trade, Times, Sizes, WithFill;
    var o := s.orders[k];
    if Trade(c, s, o.symbol, o.side, o.link, qty, price, fee, false).Some? {
      TradeStands(c, s, o.symbol, o.side, o.link, qty, price, fee, x, snap);
    }
  }

  lemma QtyStands(c: Config, s: State, k: nat, remaining: Qty, price: real, x: int, snap: Snapshot)
    requires k < |s.orders|
    ensures ClockStands(s, ExecuteQty(c, s, k, remaining, price, true, false), x, snap)
  {
    hide FillOrder, Available, FillPrice, FeeOn, Times, Sizes, IsFunded;
    var o := s.orders[k];
    var qty := Available(c, s, o.symbol, remaining);
    if qty > 0.0 {
      var fillPrice := FillPrice(c, o.side, price, true);
      FillStands(c, s, k, qty, fillPrice, FeeOn(c, qty, fillPrice, true), Immediate(o, false), x, snap);
    }
  }

  lemma ExecuteStands(c: Config, s: State, k: nat, price: real, x: int, snap: Snapshot)
    requires k < |s.orders|
    ensures ClockStands(s, Execute(c, s, k, price, true, false), x, snap)
  {
    hide ExecuteQty, Times, Sizes, IsFunded;
    var o := s.orders[k];
    var remaining := o.qty - o.cum;
    if o.qty > 0.0 && remaining > 0.0 {
      QtyStands(c, s, k, remaining, price, x, snap);
      if o.reduceOnly && Holds(s, o.symbol) {
        var size := s.positions[o.symbol].size;
        QtyStands(c, SetOrder(s, k, o.(qty := o.cum + size)), k, size, price, x, snap);
      }
    }
  }

  /** Nothing a caller does between two bars touches the clock: no settlement is charged but to what leaves. */
  lemma ActStands(c: Config, s: State, a: Action, x: int, snap: Snapshot)
    requires 0.0 <= c.params.maintenance < 1.0 && !a.Advance?
    ensures ClockStands(s, Act(c, s, a), x, snap)
  {
    hide Execute, Step, Times, Sizes, IsFunded, CancelFrom;
    if a.Place? && !OnFile(s, a.ticket.link) && a.ticket.symbol in c.data.bars {
      var t := a.ticket;
      var o := Order(t.link, t.symbol, t.side, t.limit, t.qty, t.price, if t.conditional then Untriggered else New,
                     0.0, 0.0,
                     PurposeOf(t), t.reduceOnly, 0.0);
      ExecuteStands(c, s.(orderSeq := s.orderSeq + 1, orders := s.orders + [o]), |s.orders|, Mark(c, s, t.symbol), x,
                    snap);
    }
  }

  // ---------------------------------------------------------------- the clock over a hold

  function Advances(actions: seq<Action>): nat
  {
    if actions == [] then 0 else (if actions[0].Advance? then 1 else 0) + Advances(actions[1..])
  }

  /** After each action, whatever the actions are, the symbol's position is one the clock cannot tell from `p`. */
  predicate HeldThrough(c: Config, s: State, actions: seq<Action>, x: int, p: Position)
    requires 0.0 <= c.params.maintenance < 1.0
    decreases |actions|
  {
    HeldAs(s, x, p) && (actions != [] ==> HeldThrough(c, Act(c, s, actions[0]), actions[1..], x, p))
  }

  /** Every symbol is listed once, and the first of them, whose bars the run counts, still has `n` bars to come. */
  predicate BarsToCome(c: Config, s: State, n: nat)
  {
    && c.data.symbols != [] && s.index + n < |Series(c, c.data.symbols[0])|
    && forall i, j :: 0 <= i < j < |c.data.symbols| ==> c.data.symbols[i] != c.data.symbols[j]
  }

  lemma StepTiles(c: Config, s: State, x: int, k: int, p: Position)
    requires 0.0 <= c.params.maintenance < 1.0 && Increasing(c, x) && x in c.data.symbols && BarsToCome(c, s, 1)
    requires s.index + 1 < |Series(c, x)| && HeldSince(c, x, k, s.index, p) && HeldAs(s, x, p)
             && HeldAs(Step(c, s), x, p)
    requires Settled(c, s.purse, x, Snapshot(p.side, Series(c, x)[k].start, k), s.index)
    ensures var after, snap := Step(c, s), Snapshot(p.side, Series(c, x)[k].start, k);
            && after.index == s.index + 1 && Settled(c, after.purse, x, snap, after.index)
            && ChargedDue(c, s.purse, after.purse, x, snap, p, s.index, after.index)
  {
    hide ResolveAll, Settled, Increasing, ChargedDue, HeldSince;
    SinceBounds(c, x, k, s.index, p);
    AllBars(c, s.(index := s.index + 1), c.data.symbols, x, k, p);
  }

  lemma OwedMonotone(c: Config, x: int, k: int, m: int, n: int, t: int)
    requires Increasing(c, x) && 0 <= k <= m <= n < |Series(c, x)| && Owed(c, x, k, m, t)
    ensures Owed(c, x, k, n, t)
  {
    assert m < n ==> Series(c, x)[m].start < Series(c, x)[n].start;
  }

  lemma DueThen(c: Config, u: Purse, v: Purse, w: Purse, x: int, snap: Snapshot, p: Position, m: int, n: int, o: int)
    requires Increasing(c, x) && 0 <= snap.openedAt <= m <= n <= o < |Series(c, x)|
    requires ChargedDue(c, u, v, x, snap, p, m, n) && ChargedDue(c, v, w, x, snap, p, n, o)
    ensures ChargedDue(c, u, w, x, snap, p, m, o)
  {
    hide Owed, Sizes, Increasing;
    var k := snap.openedAt;
    forall t ensures Sizes(w.log, x, snap.openedMs, t)
                  == Sizes(u.log, x, snap.openedMs, t)
                     + if Owed(c, x, k, o, t) && !Owed(c, x, k, m, t) then p.size - LateAt(p.lateAdds, t) else 0.0 {
      if Owed(c, x, k, m, t) { OwedMonotone(c, x, k, m, n, t); }
      if Owed(c, x, k, n, t) { OwedMonotone(c, x, k, n, o, t); }
      assert Sizes(v.log, x, snap.openedMs, t)
          == Sizes(u.log, x, snap.openedMs, t)
             + if Owed(c, x, k, n, t) && !Owed(c, x, k, m, t) then p.size - LateAt(p.lateAdds, t) else 0.0;
    }
  }

  /** A bar on, what was added at closes gone by is older still. */
  lemma HeldOn(c: Config, x: int, k: int, m: int, p: Position)
    requires Increasing(c, x) && HeldSince(c, x, k, m, p) && m + 1 < |Series(c, x)|
    ensures HeldSince(c, x, k, m + 1, p)
  {
    assert Series(c, x)[m].start < Series(c, x)[m + 1].start;
  }

  /**
   * The funding clock tiles time. Bars may have holes and overlap, as long as each starts after the one before. Take
   * any state in which the position opened in bar `k` has been charged once each, exits apart, exactly the settlements
   * owed by its bar, and any run that leaves the position's side, size and late adds as they are: whatever else the
   * caller does between the bars, on this symbol or others, the same is true at the end. Owed are all stamps from the
   * end of bar `k` to the end of the run's last bar but one exactly as bar `k + 1` starts. And each settlement that
   * came to be owed was charged on the size held, less what was added after its stamp. Runs compose: the conclusion is
   * the hypothesis.
   */
  lemma {:induction false} ClockTiles(c: Config, s: State, actions: seq<Action>, x: int, k: int, p: Position)
    requires 0.0 <= c.params.maintenance < 1.0 && Increasing(c, x) && x in c.data.symbols
    requires BarsToCome(c, s, Advances(actions)) && s.index + Advances(actions) < |Series(c, x)|
    requires HeldSince(c, x, k, s.index, p) && HeldThrough(c, s, actions, x, p)
    requires Settled(c, s.purse, x, Snapshot(p.side, Series(c, x)[k].start, k), s.index)
    ensures var after, snap := Run(c, s, actions), Snapshot(p.side, Series(c, x)[k].start, k);
            && after.index == s.index + Advances(actions)
            && Settled(c, after.purse, x, snap, after.index)
            && ChargedDue(c, s.purse, after.purse, x, snap, p, s.index, after.index)
    decreases |actions|
  {
    hide Act, Settled, Increasing, HeldSince, ChargedDue, HeldAs, BarsToCome;
    SinceBounds(c, x, k, s.index, p);
    var snap := Snapshot(p.side, Series(c, x)[k].start, k);
    if actions == [] {
      NothingDue(c, s.purse, x, snap, p, s.index);
    } else {
      var next := Act(c, s, actions[0]);
      OneAction(c, s, actions[0], x, k, p, Advances(actions[1..]));
      ClockTiles(c, next, actions[1..], x, k, p);
      DueThen(c, s.purse, next.purse, Run(c, s, actions).purse, x, snap, p, s.index, next.index,
              Run(c, s, actions).index);
    }
  }

  lemma OneAction(c: Config, s: State, a: Action, x: int, k: int, p: Position, rest: nat)
    requires 0.0 <= c.params.maintenance < 1.0 && Increasing(c, x) && x in c.data.symbols
    requires var n := rest + if a.Advance? then 1 else 0; BarsToCome(c, s, n) && s.index + n < |Series(c, x)|
    requires HeldSince(c, x, k, s.index, p) && HeldAs(s, x, p) && HeldAs(Act(c, s, a), x, p)
    requires Settled(c, s.purse, x, Snapshot(p.side, Series(c, x)[k].start, k), s.index)
    ensures var next, snap := Act(c, s, a), Snapshot(p.side, Series(c, x)[k].start, k);
            && next.index == s.index + (if a.Advance? then 1 else 0) && BarsToCome(c, next, rest)
            && HeldSince(c, x, k, next.index, p) && Settled(c, next.purse, x, snap, next.index)
            && ChargedDue(c, s.purse, next.purse, x, snap, p, s.index, next.index)
  {
    hide Act, Settled, Increasing, HeldSince, ChargedDue, Untouched, HeldAs;
    SinceBounds(c, x, k, s.index, p);
    var snap, next := Snapshot(p.side, Series(c, x)[k].start, k), Act(c, s, a);
    if a.Advance? {
      Advanced(c, s, a);
      StepTiles(c, s, x, k, p);
      HeldOn(c, x, k, s.index, p);
    } else {
      ActStands(c, s, a, x, snap);
      SettledStays(c, s.purse, next.purse, x, snap, s.index);
      NothingDue(c, s.purse, x, snap, p, s.index);
      DueStays(c, s.purse, s.purse, next.purse, x, snap, p, s.index, s.index);
    }
  }

  lemma Advanced(c: Config, s: State, a: Action)
    requires 0.0 <= c.params.maintenance < 1.0 && a.Advance?
    ensures Act(c, s, a) == Step(c, s)
  {
  }

  lemma SinceBounds(c: Config, x: int, k: int, m: int, p: Position)
    requires HeldSince(c, x, k, m, p)
    ensures 0 <= k <= m < |Series(c, x)| && p.openedAt == k
  {
  }

  lemma NothingDue(c: Config, w: Purse, x: int, snap: Snapshot, p: Position, m: int)
    ensures ChargedDue(c, w, w, x, snap, p, m, m)
  {
  }

  /**
   * So a position not yet charged anything, held from its opening bar on, is charged each settlement owed once and no
   * other.
   */
  lemma ClockFromOpening(c: Config, s: State, actions: seq<Action>, x: int, p: Position)
    requires 0.0 <= c.params.maintenance < 1.0 && Increasing(c, x) && x in c.data.symbols
    requires BarsToCome(c, s, Advances(actions)) && s.index + Advances(actions) < |Series(c, x)|
    requires HeldSince(c, x, s.index, s.index, p) && HeldThrough(c, s, actions, x, p)
    requires forall t :: Times(s.purse.log, x, Series(c, x)[s.index].start, t) == 0
                         && Key(x, t, s.index, None) !in s.purse.funded
    ensures var after, openedMs := Run(c, s, actions), Series(c, x)[s.index].start;
            forall t :: Times(after.purse.log, x, openedMs, t)
                        == if Owed(c, x, s.index, s.index + Advances(actions), t) then 1 else 0
  {
    hide Run, Increasing, Times, Owed, HeldThrough;
    var snap := Snapshot(p.side, Series(c, x)[s.index].start, s.index);
    NothingChargedYet(c, s.purse, x, snap);
    ClockTiles(c, s, actions, x, s.index, p);
    SettledCounts(c, Run(c, s, actions).purse, x, snap, s.index + Advances(actions));
  }

  lemma NothingChargedYet(c: Config, w: Purse, x: int, snap: Snapshot)
    requires forall t :: Times(w.log, x, snap.openedMs, t) == 0 && Key(x, t, snap.openedAt, None) !in w.funded
    ensures Settled(c, w, x, snap, snap.openedAt)
  {
    NothingOwedYet(c, x, snap.openedAt);
  }

  lemma SettledCounts(c: Config, w: Purse, x: int, snap: Snapshot, m: int)
    requires Settled(c, w, x, snap, m)
    ensures forall t :: Times(w.log, x, snap.openedMs, t) == if Owed(c, x, snap.openedAt, m, t) then 1 else 0
  {
    hide Owed, Times, IsFunded;
    forall t ensures Times(w.log, x, snap.openedMs, t) == if Owed(c, x, snap.openedAt, m, t) then 1 else 0 {
      assert IsFunded(w, x, snap, t) <==> Owed(c, x, snap.openedAt, m, t);
    }
  }
}
