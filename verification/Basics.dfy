/** Vocabulary shared by the other modules. */
module Basics {

  datatype Option<+T> = None | Some(value: T)

  function Max(x: real, y: real): real { if x > y then x else y }

  function Min(x: real, y: real): real { if x < y then x else y }

  function Abs(x: real): real { if x < 0.0 then -x else x }
}

/** The price of one leg made of two fills (`_merge`). */
module Fills {

  function PerUnit(value: real, total: real): (price: real)
    requires total > 0.0
    ensures price * total == value
    ensures value > 0.0 ==> price > 0.0
    ensures value >= 0.0 ==> price >= 0.0
  {
    value / total
  }

  /** Weighted by quantity: at this price the two fills together cost what each cost. */
  function MergedPrice(a: real, priceA: real, b: real, priceB: real): (price: real)
    requires a >= 0.0 && b >= 0.0
    ensures price * (a + b) == a * priceA + b * priceB
  {
    if a + b > 0.0 then PerUnit(a * priceA + b * priceB, a + b) else 0.0
  }

  /** And a real price when each fill has one. */
  lemma MergedPositive(a: real, priceA: real, b: real, priceB: real)
    requires a >= 0.0 && b >= 0.0 && priceA >= 0.0 && priceB >= 0.0
    requires (a > 0.0 ==> priceA > 0.0) && (b > 0.0 ==> priceB > 0.0)
    ensures MergedPrice(a, priceA, b, priceB) >= 0.0
    ensures a + b > 0.0 ==> MergedPrice(a, priceA, b, priceB) > 0.0
  {
    assert a * priceA >= 0.0 && b * priceB >= 0.0;
    if a > 0.0 { assert a * priceA > 0.0; }
    if b > 0.0 { assert b * priceB > 0.0; }
  }
}

/** Rounding an order quantity to the venue's step (`snap_to_lot`). */
module Lots {

  /** The whole number of lots in `qty`, truncated toward zero as the source's decimal division does. */
  function WholeLots(qty: real, step: real): int
    requires step > 0.0
  {
    if qty >= 0.0 then (qty / step).Floor else -((-qty / step).Floor)
  }

  function SnapToLot(qty: real, step: real): real
  {
    if step <= 0.0 then qty else WholeLots(qty, step) as real * step
  }

  /** The exact quotient, kept apart from the division so that later steps reason about products only. */
  lemma Quotient(qty: real, step: real) returns (ratio: real)
    requires qty >= 0.0 && step > 0.0
    ensures 0.0 <= ratio && ratio * step == qty
    ensures 0 <= WholeLots(qty, step)
    ensures WholeLots(qty, step) as real <= ratio < WholeLots(qty, step) as real + 1.0
  {
    ratio := qty / step;
  }

  lemma ScaleLess(low: real, high: real, step: real)
    requires step > 0.0
    ensures low <= high ==> low * step <= high * step
    ensures low < high ==> low * step < high * step
  {
    if low <= high { assert (high - low) * step >= 0.0; }
    if low < high { assert (high - low) * step > 0.0; }
  }

  lemma BetweenLots(qty: real, step: real, ratio: real, lots: real)
    requires step > 0.0 && 0.0 <= lots <= ratio < lots + 1.0 && ratio * step == qty
    ensures 0.0 <= lots * step <= qty < lots * step + step
  {
    ScaleLess(0.0, lots, step);
    ScaleLess(lots, ratio, step);
    ScaleLess(ratio, lots + 1.0, step);
    assert (lots + 1.0) * step == lots * step + step;
  }

  /** A snapped quantity is on the lot grid, never above what was asked, and short of it by less than one lot. */
  lemma SnapBounds(qty: real, step: real)
    requires qty >= 0.0
    ensures 0.0 <= SnapToLot(qty, step) <= qty
    ensures step > 0.0 ==> qty < SnapToLot(qty, step) + step
    ensures step > 0.0 ==> SnapToLot(qty, step) == WholeLots(qty, step) as real * step
  {
    if step > 0.0 {
      var ratio := Quotient(qty, step);
      BetweenLots(qty, step, ratio, WholeLots(qty, step) as real);
    }
  }

  /** It is the largest order the venue would accept: no multiple of the lot fits between it and the request. */
  lemma SnapIsGreatest(qty: real, step: real, lots: int)
    requires qty >= 0.0 && step > 0.0
    requires lots as real * step <= qty
    ensures lots as real * step <= SnapToLot(qty, step)
  {
    var ratio := Quotient(qty, step);
    var k := WholeLots(qty, step);
    if lots > k {
      ScaleLess(ratio, lots as real, step);
    } else {
      ScaleLess(lots as real, k as real, step);
    }
  }

  /** Truncation rounds down exactly the amounts that are not negative or already on the grid: -1.5 lots become -1. */
  lemma SnapRoundsDownIff(qty: real, step: real)
    ensures SnapToLot(qty, step) <= qty <==> qty >= 0.0 || SnapToLot(qty, step) == qty
    ensures SnapToLot(-1.5, 1.0) == -1.0 > -1.5
  {
    assert (-(-1.5) / 1.0).Floor == 1;
    if qty >= 0.0 { SnapBounds(qty, step); } else { SnapBounds(-qty, step); }
  }

  /** Snapping an amount already on the grid changes nothing. */
  lemma SnapIdempotent(qty: real, step: real)
    requires qty >= 0.0
    ensures SnapToLot(SnapToLot(qty, step), step) == SnapToLot(qty, step)
  {
    SnapBounds(qty, step);
    if step > 0.0 {
      SnapIsGreatest(SnapToLot(qty, step), step, WholeLots(qty, step));
      SnapBounds(SnapToLot(qty, step), step);
    }
  }
}

/** Ascending order over integer keys, standing for the library's `sorted`. */
module Ordering {

  ghost predicate StrictlyAscending(s: seq<int>)
  {
    forall i, j :: 0 <= i < j < |s| ==> s[i] < s[j]
  }

  predicate IsLeast(least: int, s: set<int>) { least in s && forall x :: x in s ==> least <= x }

  lemma AnyOf<T>(s: set<T>) returns (x: T)
    requires s != {}
    ensures x in s
  {
    x :| x in s;
  }

  lemma {:induction false} HasLeast(s: set<int>)
    requires s != {}
    ensures exists least :: IsLeast(least, s)
  {
    var pick := AnyOf(s);
    var t := s - {pick};
    if t == {} {
      assert forall x :: x in s ==> x == pick || x in t;
      assert IsLeast(pick, s);
    } else {
      HasLeast(t);
      var rest :| IsLeast(rest, t);
      var least := if pick < rest then pick else rest;
      assert forall x :: x in s ==> x == pick || x in t;
      assert IsLeast(least, s);
    }
  }

  function Least(s: set<int>): (least: int)
    requires s != {}
    ensures IsLeast(least, s)
  {
    HasLeast(s);
    var least :| IsLeast(least, s);
    least
  }

  function Ascending(s: set<int>): (r: seq<int>)
    ensures StrictlyAscending(r) && |r| == |s|
    ensures forall x :: x in r <==> x in s
    decreases |s|
  {
    if s == {} then [] else
    var least := Least(s);
    [least] + Ascending(s - {least})
  }
}

/** Sums over finite maps, whatever order they are taken in. */
module Sums {
  import opened Ordering

  function Total(m: map<int, real>): real
    decreases |m|
  {
    if m == map[] then 0.0 else
    var k := Least(m.Keys);
    assert |m - {k}| < |m| by { Smaller(m, k); }
    m[k] + Total(m - {k})
  }

  lemma Smaller(m: map<int, real>, k: int)
    requires k in m
    ensures |m - {k}| == |m| - 1
  {
    assert (m - {k}).Keys == m.Keys - {k};
    assert |m| == |m.Keys| && |m - {k}| == |(m - {k}).Keys|;
  }

  /** Any key may be taken out first. */
  lemma {:induction false} TakeOut(m: map<int, real>, k: int)
    requires k in m
    ensures Total(m) == m[k] + Total(m - {k})
    decreases |m|
  {
    var least := Least(m.Keys);
    Smaller(m, least);
    if k != least {
      TakeOut(m - {least}, k);
      assert least in m - {k} && Least((m - {k}).Keys) == least;
      assert m - {least} - {k} == m - {k} - {least};
    }
  }

  lemma PutIn(m: map<int, real>, k: int, v: real)
    ensures Total(m[k := v]) == Total(m) + v - (if k in m then m[k] else 0.0)
  {
    TakeOut(m[k := v], k);
    assert m[k := v] - {k} == m - {k};
    if k in m { TakeOut(m, k); } else { assert m - {k} == m; }
  }
}
