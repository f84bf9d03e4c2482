/**
 The entry decision (`evaluate_entry`, `hold_clears_round_trip`, `entry_gate`) and its inverse by bisection
 (`breakeven_funding_bps`). Rates are in bps; a print that is missing or not finite is `None`.
 */
module EntryGate {
  import opened Basics

  const FUNDING_PERIODS_PER_DAY := 3.0
  const BISECTIONS := 40

  /** What the gate prices besides the prints. */
  datatype Deal = Deal(perp: real, spot: real, borrowApr: real, roundTrip: real, holdDays: real, demonstratedDays: real,
                       alpha: real, minPrints: int, opportunityApr: real)

  datatype Verdict = Allowed
                   | COST_INPUT_INVALID | INSUFFICIENT_FUNDING_HISTORY | FUNDING_NOT_POSITIVE | BASIS_UNREADABLE
                   | CARRY_BELOW_COST_OF_CAPITAL | ENTRY_BASIS_EXCEEDS_CARRY_BUDGET
                   | ENTRY_BASIS_DISCOUNT_EXCEEDS_CARRY_BUDGET | BREAKEVEN_HOLD_EXCEEDS_DEMONSTRATED_HOLD

  // ---------------------------------------------------------------- smoothing

  function Values(prints: seq<Option<real>>): seq<real>
  {
    if prints == [] then []
    else Values(prints[..|prints| - 1]) + if prints[|prints| - 1].Some? then [prints[|prints| - 1].value] else []
  }

  /** The weight of a print halves, or whatever `alpha` says, with every newer one. */
  function Ewma(values: seq<real>, alpha: real): real
    requires values != []
  {
    if |values| == 1 then values[0]
    else alpha * values[|values| - 1] + (1.0 - alpha) * Ewma(values[..|values| - 1], alpha)
  }

  function Smoothed(prints: seq<Option<real>>, alpha: real, minPrints: int): Option<real>
  {
    var values := Values(prints);
    if |values| < minPrints || values == [] then None else Some(Ewma(values, alpha))
  }

  method EwmaFundingBps(prints: seq<Option<real>>, alpha: real, minPrints: int) returns (r: Option<real>)
    ensures r == Smoothed(prints, alpha, minPrints)
  {
    var values: seq<real> := [];
    for i := 0 to |prints|
      invariant values == Values(prints[..i])
    {
      assert prints[..i + 1][..i] == prints[..i];
      if prints[i].Some? { values := values + [prints[i].value]; }
    }
    assert prints[..|prints|] == prints;
    if |values| < minPrints || values == [] { return None; }
    var smoothed := values[0];
    for i := 1 to |values|
      invariant smoothed == Ewma(values[..i], alpha)
    {
      assert values[..i + 1][..i] == values[..i];
      smoothed := alpha * values[i] + (1.0 - alpha) * smoothed;
    }
    assert values[..|values|] == values;
    r := Some(smoothed);
  }

  // ---------------------------------------------------------------- the two halves of the gate

  function PerDay(apr: real): real { apr / 365.0 * 10000.0 }

  predicate CostsUsable(d: Deal, holdDays: real)
  {
    d.roundTrip > 0.0 && holdDays > 0.0 && d.borrowApr >= 0.0 && d.opportunityApr >= 0.0
  }

  predicate BasisReadable(d: Deal) { d.perp > 0.0 && d.spot > 0.0 }

  function BasisBps(d: Deal): real
    requires BasisReadable(d)
  {
    (d.perp / d.spot - 1.0) * 10000.0
  }

  /** What a day of carry leaves after borrow, the capital's other use and its share of the round trip. */
  function NetEdge(smoothed: real, d: Deal): real
  {
    smoothed * FUNDING_PERIODS_PER_DAY - PerDay(d.borrowApr) - PerDay(d.opportunityApr)
    - d.roundTrip / Max(d.holdDays, 0.000000001)
  }

  function EvaluateEntry(prints: seq<Option<real>>, d: Deal): Verdict
  {
    if !CostsUsable(d, d.holdDays) then COST_INPUT_INVALID
    else
      var smoothed := Smoothed(prints, d.alpha, d.minPrints);
      if smoothed.None? then INSUFFICIENT_FUNDING_HISTORY
      else if smoothed.value <= 0.0 then FUNDING_NOT_POSITIVE
      else if !BasisReadable(d) then BASIS_UNREADABLE
      else
        var netEdge := NetEdge(smoothed.value, d);
        if netEdge <= 0.0 then CARRY_BELOW_COST_OF_CAPITAL
        else if BasisBps(d) > netEdge * d.holdDays then ENTRY_BASIS_EXCEEDS_CARRY_BUDGET
        else if BasisBps(d) < -(netEdge * d.holdDays) then ENTRY_BASIS_DISCOUNT_EXCEEDS_CARRY_BUDGET
        else Allowed
  }

  /** The flat funding that earns the costs back over `n` settlements. */
  function BreakEven(n: int, roundTrip: real, borrowPerDay: real): real
    requires n >= 1
  {
    roundTrip / n as real + borrowPerDay / FUNDING_PERIODS_PER_DAY
  }

  function Ceiling(x: real): int { -((-x).Floor) }

  /** `min_settlements_to_clear`; a free round trip or a negative borrow is not priced (the source raises). */
  function MinSettlements(funding: real, roundTrip: real, borrowPerDay: real): Option<int>
    requires roundTrip > 0.0 && borrowPerDay >= 0.0
  {
    var net := funding - borrowPerDay / FUNDING_PERIODS_PER_DAY;
    if net <= 0.0 then None
    else
      var settlements := Ceiling(roundTrip / net);
      Some(if settlements > 1 then settlements else 1)
  }

  function Budget(holdDays: real): int { (holdDays * FUNDING_PERIODS_PER_DAY).Floor }

  function CapitalPerDay(d: Deal): real { PerDay(d.borrowApr) + PerDay(d.opportunityApr) }

  function HoldClears(prints: seq<Option<real>>, d: Deal): Verdict
  {
    if !CostsUsable(d, d.demonstratedDays) then COST_INPUT_INVALID
    else
      var smoothed := Smoothed(prints, d.alpha, d.minPrints);
      if smoothed.None? then INSUFFICIENT_FUNDING_HISTORY
      else
        var needed := MinSettlements(smoothed.value, d.roundTrip, CapitalPerDay(d));
        if needed.None? || needed.value > Budget(d.demonstratedDays) then BREAKEVEN_HOLD_EXCEEDS_DEMONSTRATED_HOLD
        else Allowed
  }

  function EntryGate(prints: seq<Option<real>>, d: Deal): Verdict
  {
    var verdict := EvaluateEntry(prints, d);
    if verdict != Allowed then verdict else HoldClears(prints, d)
  }

  // ---------------------------------------------------------------- arithmetic of the horizon

  /** For positive `net`: enough settlements exactly when `roundTrip` is within `n` times `net`. */
  lemma Earned(roundTrip: real, net: real, n: int)
    requires roundTrip > 0.0 && n >= 1
    ensures roundTrip / n as real <= net <==> roundTrip <= net * n as real
  {
    Divide(roundTrip, net, n as real);
  }

  lemma Divide(x: real, y: real, z: real)
    requires z > 0.0
    ensures x / z <= y <==> x <= y * z
  {
    var q := x / z;
    assert q * z == x;
    if q <= y { assert (y - q) * z >= 0.0; }
    if q > y { assert (q - y) * z > 0.0; }
  }

  lemma CeilingIsLeast(x: real, n: int)
    ensures x <= Ceiling(x) as real
    ensures x <= n as real <==> Ceiling(x) <= n
  {
  }

  /** The number of settlements answered is the least that breaks even; none is answered exactly when none does. */
  lemma SettlementsAreLeast(funding: real, roundTrip: real, borrowPerDay: real, n: int)
    requires roundTrip > 0.0 && borrowPerDay >= 0.0 && n >= 1
    ensures BreakEven(n, roundTrip, borrowPerDay) <= funding <==>
            MinSettlements(funding, roundTrip, borrowPerDay).Some?
            && MinSettlements(funding, roundTrip, borrowPerDay).value <= n
    ensures MinSettlements(funding, roundTrip, borrowPerDay).Some? ==>
              MinSettlements(funding, roundTrip, borrowPerDay).value >= 1
  {
    var net := funding - borrowPerDay / FUNDING_PERIODS_PER_DAY;
    Earned(roundTrip, net, n);
    if net > 0.0 {
      Divide(roundTrip, n as real, net);
      CeilingIsLeast(roundTrip / net, n);
      assert net * n as real == n as real * net;
    } else {
      NoneEarned(net, n as real);
    }
  }

  lemma NoneEarned(net: real, n: real)
    requires net <= 0.0 && n >= 0.0
    ensures net * n <= 0.0
  {
  }

  // ---------------------------------------------------------------- the gate by its smoothed rate

  /** The gate as a condition on the smoothed rate alone. */
  predicate Clears(smoothed: real, d: Deal)
  {
    && CostsUsable(d, d.holdDays) && CostsUsable(d, d.demonstratedDays) && BasisReadable(d)
    && smoothed > 0.0 && NetEdge(smoothed, d) > 0.0
    && -(NetEdge(smoothed, d) * d.holdDays) <= BasisBps(d) <= NetEdge(smoothed, d) * d.holdDays
    && Budget(d.demonstratedDays) >= 1
    && BreakEven(Budget(d.demonstratedDays), d.roundTrip, CapitalPerDay(d)) <= smoothed
  }

  /** The chain of refusals is that condition: positive net edge, a basis within it, and a budget that breaks even. */
  lemma GateIsClears(prints: seq<Option<real>>, d: Deal)
    ensures EntryGate(prints, d) == Allowed <==>
            Smoothed(prints, d.alpha, d.minPrints).Some? && Clears(Smoothed(prints, d.alpha, d.minPrints).value, d)
  {
    var smoothed := Smoothed(prints, d.alpha, d.minPrints);
    if smoothed.Some? && CostsUsable(d, d.demonstratedDays) {
      if Budget(d.demonstratedDays) >= 1 {
        SettlementsAreLeast(smoothed.value, d.roundTrip, CapitalPerDay(d), Budget(d.demonstratedDays));
      } else {
        SettlementsAreLeast(smoothed.value, d.roundTrip, CapitalPerDay(d), 1);
      }
    }
  }

  // ---------------------------------------------------------------- the gate by its books

  /** What a day costs the capital, in bps: the borrow and its other use. */
  function DayCost(d: Deal): real { (d.borrowApr + d.opportunityApr) * 10000.0 / 365.0 }

  /** A hold counts as at least a billionth of a day. */
  function HoldOf(d: Deal): real { if d.holdDays < 0.000000001 then 0.000000001 else d.holdDays }

  /** What the smoothed rate, three times a day, leaves over the hold after the capital's cost and the round trip. */
  function Surplus(smoothed: real, d: Deal): real { (3.0 * smoothed - DayCost(d)) * HoldOf(d) - d.roundTrip }

  /** The whole settlements of the hold that has been demonstrated. */
  predicate Settles(n: int, d: Deal) { n as real <= 3.0 * d.demonstratedDays < n as real + 1.0 }

  /**
   * The trade pays: prices and costs that can be read; a surplus over the hold; the perp no further from the spot, as a
   * share of it, than that surplus; and enough whole settlements in the demonstrated hold to earn back the round trip
   * and what the capital costs meanwhile.
   */
  ghost predicate Pays(smoothed: real, d: Deal)
  {
    && d.roundTrip > 0.0 && d.holdDays > 0.0 && d.demonstratedDays > 0.0 && d.borrowApr >= 0.0
    && d.opportunityApr >= 0.0 && d.perp > 0.0 && d.spot > 0.0 && smoothed > 0.0
    && Surplus(smoothed, d) > 0.0
    && (if d.perp < d.spot then d.spot - d.perp else d.perp - d.spot) * 10000.0 * HoldOf(d)
       <= Surplus(smoothed, d) * d.holdDays * d.spot
    && exists n :: Settles(n, d) && n >= 1 && d.roundTrip + n as real * DayCost(d) / 3.0 <= n as real * smoothed
  }

  lemma DayCostIs(d: Deal)
    ensures CapitalPerDay(d) == DayCost(d)
  {
  }

  lemma EdgeIs(smoothed: real, d: Deal)
    requires d.holdDays > 0.0
    ensures NetEdge(smoothed, d) * HoldOf(d) == Surplus(smoothed, d)
    ensures NetEdge(smoothed, d) > 0.0 <==> Surplus(smoothed, d) > 0.0
  {
    DayCostIs(d);
    var hold, rest := HoldOf(d), smoothed * 3.0 - DayCost(d);
    var share := d.roundTrip / hold;
    assert share * hold == d.roundTrip && NetEdge(smoothed, d) == rest - share;
    Less(rest, share, hold);
    Sign(rest - share, hold);
  }

  lemma Less(x: real, y: real, k: real)
    ensures (x - y) * k == x * k - y * k
  {
  }

  lemma Sign(x: real, k: real)
    requires k > 0.0
    ensures x * k > 0.0 <==> x > 0.0
  {
  }

  /** The basis against the edge, cleared of the divisions. */
  lemma BasisIs(d: Deal, edge: real, surplus: real, hold: real)
    requires BasisReadable(d) && hold > 0.0 && edge * hold == surplus && d.holdDays > 0.0
    ensures -(edge * d.holdDays) <= BasisBps(d) <= edge * d.holdDays <==>
            (if d.perp < d.spot then d.spot - d.perp else d.perp - d.spot) * 10000.0 * hold
            <= surplus * d.holdDays * d.spot
  {
    var gap := d.perp - d.spot;
    var ratio := d.perp / d.spot;
    assert ratio * d.spot == d.perp;
    Less(ratio, 1.0, d.spot);
    var basis := BasisBps(d);
    Thrice(ratio - 1.0, 10000.0, d.spot);
    assert basis * d.spot == gap * 10000.0;
    Cleared(basis, edge * d.holdDays, d.spot * hold);
    Cleared(-basis, edge * d.holdDays, d.spot * hold);
    Thrice(basis, d.spot, hold);
    Rearranged(edge, d.holdDays, d.spot, hold, surplus);
    assert basis * (d.spot * hold) == gap * 10000.0 * hold;
    assert -basis * (d.spot * hold) == -(gap * 10000.0 * hold);
    assert -(gap * 10000.0 * hold) == -gap * 10000.0 * hold;
  }

  lemma Thrice(x: real, y: real, z: real)
    ensures x * y * z == x * z * y && x * (y * z) == x * y * z
  {
  }

  lemma Rearranged(edge: real, days: real, spot: real, hold: real, surplus: real)
    requires edge * hold == surplus
    ensures edge * days * (spot * hold) == surplus * days * spot
  {
    Thrice(edge, days, spot * hold);
    Thrice(edge, spot, hold);
    assert edge * (spot * hold) == surplus * spot;
    Thrice(surplus, spot, days);
  }

  lemma Cleared(x: real, y: real, k: real)
    requires k > 0.0 || k < 0.0
    ensures k > 0.0 ==> (x <= y <==> x * k <= y * k)
  {
    if k > 0.0 {
      Less(y, x, k);
      Sign(y - x, k);
    }
  }

  lemma HorizonIs(n: int, smoothed: real, d: Deal)
    requires n >= 1
    ensures BreakEven(n, d.roundTrip, CapitalPerDay(d)) <= smoothed <==>
            d.roundTrip + n as real * DayCost(d) / 3.0 <= n as real * smoothed
  {
    DayCostIs(d);
    var k, share, daily := n as real, d.roundTrip / n as real, DayCost(d) / 3.0;
    assert share * k == d.roundTrip;
    Cleared(share + daily, smoothed, k);
    assert (share + daily) * k == share * k + daily * k;
    Thrice(k, DayCost(d), 1.0 / 3.0);
  }

  lemma SettlesIs(n: int, d: Deal)
    ensures Settles(n, d) <==> n == Budget(d.demonstratedDays)
  {
  }

  lemma HorizonPays(smoothed: real, d: Deal)
    ensures Budget(d.demonstratedDays) >= 1
            && BreakEven(Budget(d.demonstratedDays), d.roundTrip, CapitalPerDay(d)) <= smoothed <==>
            exists n :: Settles(n, d) && n >= 1 && d.roundTrip + n as real * DayCost(d) / 3.0 <= n as real * smoothed
  {
    hide BreakEven, Budget, Settles, DayCost, CapitalPerDay;
    var n := Budget(d.demonstratedDays);
    SettlesIs(n, d);
    if n >= 1 { HorizonIs(n, smoothed, d); }
    forall k | Settles(k, d) ensures k == n { SettlesIs(k, d); }
  }

  lemma ClearsIsPays(smoothed: real, d: Deal)
    ensures Clears(smoothed, d) <==> Pays(smoothed, d)
  {
    hide NetEdge, Surplus, BreakEven, Budget, Settles, DayCost, BasisBps;
    if d.holdDays > 0.0 { EdgeIs(smoothed, d); }
    if BasisReadable(d) && d.holdDays > 0.0 { BasisIs(d, NetEdge(smoothed, d), Surplus(smoothed, d), HoldOf(d)); }
    HorizonPays(smoothed, d);
  }

  /** An entry is allowed exactly when there are prints enough and the trade pays at their smoothed rate. */
  lemma GateIsPays(prints: seq<Option<real>>, d: Deal)
    ensures EntryGate(prints, d) == Allowed <==>
            Smoothed(prints, d.alpha, d.minPrints).Some? && Pays(Smoothed(prints, d.alpha, d.minPrints).value, d)
  {
    GateIsClears(prints, d);
    if Smoothed(prints, d.alpha, d.minPrints).Some? {
      ClearsIsPays(Smoothed(prints, d.alpha, d.minPrints).value, d);
    }
  }

  /** Nothing before it stood in the way: the costs can be priced, and there is a positive smoothed rate. */
  predicate Priced(prints: seq<Option<real>>, d: Deal)
  {
    && d.roundTrip > 0.0 && d.holdDays > 0.0 && d.borrowApr >= 0.0 && d.opportunityApr >= 0.0
    && Smoothed(prints, d.alpha, d.minPrints).Some? && Smoothed(prints, d.alpha, d.minPrints).value > 0.0
  }

  /** A refusal names what is wrong, and the first thing that is. */
  lemma RefusalIsTrue(prints: seq<Option<real>>, d: Deal)
    ensures var smoothed := Smoothed(prints, d.alpha, d.minPrints);
            match EntryGate(prints, d)
            case Allowed => Priced(prints, d)
            case COST_INPUT_INVALID =>
              d.roundTrip <= 0.0 || d.holdDays <= 0.0 || d.borrowApr < 0.0 || d.opportunityApr < 0.0
              || d.demonstratedDays <= 0.0
            case INSUFFICIENT_FUNDING_HISTORY => smoothed.None?
            case FUNDING_NOT_POSITIVE => smoothed.Some? && smoothed.value <= 0.0
            case BASIS_UNREADABLE => Priced(prints, d) && (d.perp <= 0.0 || d.spot <= 0.0)
            case CARRY_BELOW_COST_OF_CAPITAL =>
              Priced(prints, d) && d.perp > 0.0 && d.spot > 0.0 && Surplus(smoothed.value, d) <= 0.0
            case ENTRY_BASIS_EXCEEDS_CARRY_BUDGET =>
              Priced(prints, d) && d.spot > 0.0 && Surplus(smoothed.value, d) > 0.0 && d.perp > d.spot
            case ENTRY_BASIS_DISCOUNT_EXCEEDS_CARRY_BUDGET =>
              Priced(prints, d) && d.perp > 0.0 && Surplus(smoothed.value, d) > 0.0 && d.perp < d.spot
            case BREAKEVEN_HOLD_EXCEEDS_DEMONSTRATED_HOLD => Priced(prints, d) && Surplus(smoothed.value, d) > 0.0
  {
    hide NetEdge, Surplus, BasisBps, MinSettlements, Smoothed;
    var smoothed := Smoothed(prints, d.alpha, d.minPrints);
    if smoothed.Some? && d.holdDays > 0.0 {
      EdgeIs(smoothed.value, d);
      if BasisReadable(d) {
        BasisSign(d);
        Sign(NetEdge(smoothed.value, d), d.holdDays);
      }
    }
  }

  lemma BasisSign(d: Deal)
    requires BasisReadable(d)
    ensures BasisBps(d) > 0.0 <==> d.perp > d.spot
    ensures BasisBps(d) < 0.0 <==> d.perp < d.spot
  {
    var ratio := d.perp / d.spot;
    assert ratio * d.spot == d.perp;
    Less(ratio, 1.0, d.spot);
    Sign(ratio - 1.0, d.spot);
    Less(1.0, ratio, d.spot);
    Sign(1.0 - ratio, d.spot);
  }

  /** A new print moves the smoothed rate `alpha` of the way to itself; the first is taken as it is. */
  lemma EwmaMoves(values: seq<real>, alpha: real, x: real)
    ensures Ewma([x], alpha) == x
    ensures values != [] ==> Ewma(values + [x], alpha) - Ewma(values, alpha) == alpha * (x - Ewma(values, alpha))
  {
    assert (values + [x])[..|values|] == values;
  }

  /** What the gate allows, `evaluate_entry` allows; and a refusal by `evaluate_entry` is returned as it is. */
  lemma GateRefines(prints: seq<Option<real>>, d: Deal)
    ensures EntryGate(prints, d) == Allowed ==> EvaluateEntry(prints, d) == Allowed
    ensures EvaluateEntry(prints, d) != Allowed ==> EntryGate(prints, d) == EvaluateEntry(prints, d)
    ensures EvaluateEntry(prints, d) == Allowed ==>
              EntryGate(prints, d) in {Allowed, BREAKEVEN_HOLD_EXCEEDS_DEMONSTRATED_HOLD, COST_INPUT_INVALID}
  {
  }

  lemma Scaled(x: real, y: real, k: real)
    requires x <= y && k >= 0.0
    ensures x * k <= y * k
  {
  }

  lemma ClearsUpward(smoothed: real, higher: real, d: Deal)
    requires Clears(smoothed, d) && smoothed <= higher
    ensures Clears(higher, d)
  {
    StillWithin(BasisBps(d), NetEdge(smoothed, d), NetEdge(higher, d), d.holdDays);
  }

  lemma StillWithin(basis: real, edge: real, higher: real, hold: real)
    requires edge <= higher && hold >= 0.0 && -(edge * hold) <= basis <= edge * hold
    ensures -(higher * hold) <= basis <= higher * hold
  {
    Scaled(edge, higher, hold);
  }

  /** The same prints, none lower. */
  ghost predicate NoLower(prints: seq<Option<real>>, higher: seq<Option<real>>)
  {
    && |prints| == |higher|
    && forall i :: 0 <= i < |prints| ==>
                     prints[i].Some? == higher[i].Some? && (prints[i].Some? ==> prints[i].value <= higher[i].value)
  }

  ghost predicate NoLess(values: seq<real>, higher: seq<real>)
  {
    |values| == |higher| && forall i :: 0 <= i < |values| ==> values[i] <= higher[i]
  }

  lemma {:induction false} ValuesNoLess(prints: seq<Option<real>>, higher: seq<Option<real>>)
    requires NoLower(prints, higher)
    ensures NoLess(Values(prints), Values(higher))
  {
    if prints != [] { ValuesNoLess(prints[..|prints| - 1], higher[..|higher| - 1]); }
  }

  lemma {:induction false} EwmaNoLess(values: seq<real>, higher: seq<real>, alpha: real)
    requires values != [] && NoLess(values, higher) && 0.0 <= alpha <= 1.0
    ensures Ewma(values, alpha) <= Ewma(higher, alpha)
  {
    var last := |values| - 1;
    if last > 0 {
      EwmaNoLess(values[..last], higher[..last], alpha);
      BlendNoLess(alpha, values[last], higher[last], Ewma(values[..last], alpha), Ewma(higher[..last], alpha));
    }
  }

  lemma BlendNoLess(alpha: real, x: real, x': real, y: real, y': real)
    requires 0.0 <= alpha <= 1.0 && x <= x' && y <= y'
    ensures alpha * x + (1.0 - alpha) * y <= alpha * x' + (1.0 - alpha) * y'
  {
    Blended(alpha, 1.0 - alpha, x, x', y, y');
  }

  lemma Blended(alpha: real, beta: real, x: real, x': real, y: real, y': real)
    requires 0.0 <= alpha && 0.0 <= beta && x <= x' && y <= y'
    ensures alpha * x + beta * y <= alpha * x' + beta * y'
  {
    assert alpha * (x' - x) >= 0.0;
    assert beta * (y' - y) >= 0.0;
  }

  /** The smoothed rate of any prints rises with them exactly when the smoothing weight is a proportion. */
  lemma SmoothingRisesIff(alpha: real)
    ensures 0.0 <= alpha <= 1.0 <==>
            forall values, higher :: values != [] && NoLess(values, higher) ==>
                                       Ewma(values, alpha) <= Ewma(higher, alpha)
  {
    if 0.0 <= alpha <= 1.0 {
      forall values, higher | values != [] && NoLess(values, higher)
        ensures Ewma(values, alpha) <= Ewma(higher, alpha) {
        EwmaNoLess(values, higher, alpha);
      }
    } else {
      var flat, first, last := [0.0, 0.0], [1.0, 0.0], [0.0, 1.0];
      assert flat[..1] == [0.0] && first[..1] == [1.0] && last[..1] == [0.0];
      assert Ewma(flat, alpha) == 0.0 && Ewma(first, alpha) == 1.0 - alpha && Ewma(last, alpha) == alpha;
      assert NoLess(flat, first) && NoLess(flat, last);
    }
  }

  /** An entry allowed stays allowed when every print rises. */
  lemma GateIsMonotone(prints: seq<Option<real>>, higher: seq<Option<real>>, d: Deal)
    requires NoLower(prints, higher) && 0.0 <= d.alpha <= 1.0
    requires EntryGate(prints, d) == Allowed
    ensures EntryGate(higher, d) == Allowed
  {
    GateIsClears(prints, d);
    GateIsClears(higher, d);
    ValuesNoLess(prints, higher);
    EwmaNoLess(Values(prints), Values(higher), d.alpha);
    ClearsUpward(Ewma(Values(prints), d.alpha), Ewma(Values(higher), d.alpha), d);
  }

  // ---------------------------------------------------------------- the inverse

  function Steady(rate: real, n: nat): seq<Option<real>> { if n == 0 then [] else Steady(rate, n - 1) + [Some(rate)] }

  function Prints(d: Deal): nat { if d.minPrints > 3 then d.minPrints else 3 }

  predicate Passes(rate: real, d: Deal) { EntryGate(Steady(rate, Prints(d)), d) == Allowed }

  lemma Blend(rate: real, alpha: real)
    ensures alpha * rate + (1.0 - alpha) * rate == rate
  {
  }

  lemma {:induction false} SteadyValues(rate: real, n: nat)
    ensures |Values(Steady(rate, n))| == n && forall i :: 0 <= i < n ==> Values(Steady(rate, n))[i] == rate
  {
    if n > 0 {
      SteadyValues(rate, n - 1);
      assert Steady(rate, n)[..|Steady(rate, n)| - 1] == Steady(rate, n - 1);
    }
  }

  lemma {:induction false} SteadyEwma(values: seq<real>, rate: real, alpha: real)
    requires values != [] && forall i :: 0 <= i < |values| ==> values[i] == rate
    ensures Ewma(values, alpha) == rate
  {
    if |values| > 1 {
      SteadyEwma(values[..|values| - 1], rate, alpha);
      Blend(rate, alpha);
    }
  }

  /** A steady rate is judged at exactly that rate, whatever the smoothing. */
  lemma PassesIsClears(rate: real, d: Deal)
    ensures Passes(rate, d) <==> Clears(rate, d)
  {
    GateIsClears(Steady(rate, Prints(d)), d);
    SteadyValues(rate, Prints(d));
    SteadyEwma(Values(Steady(rate, Prints(d))), rate, d.alpha);
  }

  lemma PassesUpward(rate: real, higher: real, d: Deal)
    requires Passes(rate, d) && rate <= higher
    ensures Passes(higher, d)
  {
    PassesIsClears(rate, d);
    PassesIsClears(higher, d);
    ClearsUpward(rate, higher, d);
  }

  function Pow2(n: nat): (r: real)
    ensures r > 0.0
  {
    if n == 0 then 1.0 else 2.0 * Pow2(n - 1)
  }

  lemma Halve(width: real, power: real)
    ensures width / 2.0 * (2.0 * power) == width * power
  {
  }

  lemma WidthAfter(width: real, power: real, ceiling: real)
    requires power > 0.0 && width * power == ceiling
    ensures width == ceiling / power
  {
  }

  /** A width that `n` doublings bring back to the ceiling. */
  predicate Halved(width: real, n: nat, ceiling: real) { width * Pow2(n) == ceiling }

  lemma HalveOnce(width: real, n: nat, ceiling: real)
    requires Halved(width, n, ceiling)
    ensures Halved(width / 2.0, n + 1, ceiling)
  {
    Halve(width, Pow2(n));
  }

  lemma NotHalvedYet(ceiling: real)
    ensures Halved(ceiling, 0, ceiling)
  {
  }

  lemma HalvedWidth(width: real, n: nat, ceiling: real)
    requires Halved(width, n, ceiling)
    ensures width == ceiling / Pow2(n)
  {
    WidthAfter(width, Pow2(n), ceiling);
  }

  /** Once it passes, it passes for every higher rate; and never at zero or below. */
  ghost predicate Threshold(passes: real -> bool)
  {
    && (forall rate, higher :: passes(rate) && rate <= higher ==> passes(higher))
    && (forall rate :: passes(rate) ==> rate > 0.0)
  }

  /** The forty halvings. */
  method Bisect(passes: real -> bool, ceiling: real) returns (r: Option<real>)
    requires Threshold(passes)
    ensures r.None? <==> !passes(ceiling)
    ensures r.Some? ==> passes(r.value) && r.value <= ceiling && !passes(r.value - ceiling / Pow2(BISECTIONS))
  {
    hide Halved, Pow2;
    var lo, hi := 0.0, ceiling;
    if !passes(hi) { return None; }
    NotHalvedYet(ceiling);
    for i := 0 to BISECTIONS
      invariant !passes(lo) && passes(hi) && hi <= ceiling && lo <= hi
      invariant Halved(hi - lo, i, ceiling)
    {
      var mid := (lo + hi) / 2.0;
      HalveOnce(hi - lo, i, ceiling);
      assert mid - lo == (hi - lo) / 2.0 && hi - mid == (hi - lo) / 2.0;
      if passes(mid) { hi := mid; } else { lo := mid; }
    }
    HalvedWidth(hi - lo, BISECTIONS, ceiling);
    r := Some(hi);
  }

  /**
   * `breakeven_funding_bps`: the answer passes, and no rate lower by the ceiling over 2^40 or more does, so the true
   * threshold lies that close below it; no answer means no rate up to the ceiling passes. (The source also asks
   * whether a rate of zero passes, which the gate never lets it.)
   */
  method BreakevenFundingBps(d: Deal, ceiling: real) returns (r: Option<real>)
    ensures r.None? ==> forall rate :: rate <= ceiling ==> !Passes(rate, d)
    ensures r.Some? ==> Passes(r.value, d) && r.value <= ceiling
    ensures r.Some? ==> forall rate :: rate <= r.value - ceiling / Pow2(BISECTIONS) ==> !Passes(rate, d)
  {
    var passes := (rate: real) => Passes(rate, d);
    forall rate, higher | passes(rate) && rate <= higher ensures passes(higher) { PassesUpward(rate, higher, d); }
    forall rate | passes(rate) ensures rate > 0.0 { PassesIsClears(rate, d); }
    r := Bisect(passes, ceiling);
    var low := if r.None? then ceiling else r.value - ceiling / Pow2(BISECTIONS);
    forall rate | rate <= low ensures !Passes(rate, d) {
      assert passes(rate) == Passes(rate, d);
      assert !passes(low);
    }
  }
}
