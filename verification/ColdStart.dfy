/**
 What a restart may do (`plan_cold_start`), as the pure comparison of the last persisted ledger
 with the venue's holdings, and the rule a ledger must obey for that comparison to be safe.
 */
module ColdStart {
  import opened Basics

  datatype BookState = FLAT | OPENING | HEDGED | DRIFTED | UNWINDING | HALTED
  datatype Mode = ACQUIRE | OVERLAY

  /** One side of the pair; quantities are what the venue filled. `feeBase` is the coin withheld from a spot buy. */
  datatype Leg = Leg(symbol: string, filled: real, avgPrice: real, feeBase: real, feeKnown: bool)

  datatype Position = Position(spot: Leg, perp: Leg)

  datatype Ledger = Ledger(state: BookState, mode: Mode, position: Option<Position>)

  datatype Decision = Clean | Resume(closeResume: bool) | Halt

  /** The spot coin really held: fills less the base-coin fee, never below nothing. */
  function Held(p: Position): real { Max(0.0, p.spot.filled - p.spot.feeBase) }

  /** Quantities and prices a leg may state: never negative, and no quantity without a price. */
  predicate SaneNumbers(leg: Leg)
  {
    leg.filled >= 0.0 && leg.avgPrice >= 0.0 && leg.feeBase >= 0.0
    && (leg.filled > 0.0 ==> leg.avgPrice > 0.0)
  }

  /** `_ledger_position_problem` finds nothing. */
  predicate Trusted(p: Position)
  {
    p.spot.symbol != "" && p.perp.symbol != "" && SaneNumbers(p.spot) && SaneNumbers(p.perp)
  }

  predicate SymbolAgrees(expected: Option<string>, leg: Leg)
  {
    expected.None? || expected.value == leg.symbol
  }

  function PlanColdStart(ledger: Option<Ledger>, venuePerp: real, venueSpot: real, openOrders: nat,
                         expectedSpot: Option<string>, expectedPerp: Option<string>, closeInProgress: bool): Decision
  {
    var state := if ledger.Some? then ledger.value.state else FLAT;
    var position := if ledger.Some? then ledger.value.position else None;
    var perp := Abs(venuePerp);
    if openOrders > 0 then Halt
    else if state == HALTED then Halt
    else if state == UNWINDING && closeInProgress && position.Some? && Trusted(position.value)
            && ledger.value.mode == OVERLAY
            && SymbolAgrees(expectedSpot, position.value.spot) && SymbolAgrees(expectedPerp, position.value.perp)
    then Resume(true)
    else if state == OPENING || state == UNWINDING then Halt
      else if position.None? then (if perp > 0.0 then Halt else Clean)
      else if !Trusted(position.value) then Halt
      else if expectedSpot.Some? && expectedPerp.Some? && expectedSpot.value != expectedPerp.value then Halt
      else if !SymbolAgrees(expectedSpot, position.value.spot) || !SymbolAgrees(expectedPerp, position.value.perp)
      then Halt
      else
        var p := position.value;
        if perp != p.perp.filled then Halt
        else if ledger.value.mode == OVERLAY then
          (if venueSpot < p.spot.filled then Halt else Resume(false))
        else if venueSpot > p.spot.filled || venueSpot < p.spot.filled - p.spot.feeBase then Halt
        else Resume(false)
  }

  // ---------------------------------------------------------------- when it says what

  /** A pair a restart may believe: two named legs, no negative number, and a price for every quantity. */
  ghost predicate Believable(p: Position)
  {
    && p.spot.symbol != "" && p.perp.symbol != ""
    && p.spot.filled >= 0.0 && p.spot.avgPrice >= 0.0 && p.spot.feeBase >= 0.0
    && p.perp.filled >= 0.0 && p.perp.avgPrice >= 0.0 && p.perp.feeBase >= 0.0
    && (p.spot.filled == 0.0 || p.spot.avgPrice != 0.0) && (p.perp.filled == 0.0 || p.perp.avgPrice != 0.0)
  }

  /** Its legs are in the markets this process is configured for, where it is configured for any. */
  ghost predicate Named(p: Position, spot: Option<string>, perp: Option<string>)
  {
    (spot.None? || spot == Some(p.spot.symbol)) && (perp.None? || perp == Some(p.perp.symbol))
  }

  /** The venue holds that pair: all of the short, and the coin less at most the stated fee or, in overlay, enough. */
  ghost predicate Matches(mode: Mode, p: Position, perp: real, wallet: real)
  {
    && (perp == p.perp.filled || perp == -p.perp.filled)
    && (mode == ACQUIRE ==> p.spot.filled - p.spot.feeBase <= wallet <= p.spot.filled)
    && (mode == OVERLAY ==> p.spot.filled <= wallet)
  }

  /**
   * A restart takes the recorded pair up exactly when nothing is open at the venue, no transaction was, and ledger,
   * configuration and venue agree on it; mid-close exactly for an overlay's open close; and comes up clean exactly when
   * there is no pair on either side. Anything else halts.
   */
  lemma PlanIff(disk: Option<Ledger>, perp: real, wallet: real, orders: nat, spot: Option<string>,
                name: Option<string>, closing: bool)
    ensures var plan := PlanColdStart(disk, perp, wallet, orders, spot, name, closing);
            && (plan == Resume(false) <==>
                && orders == 0 && disk.Some? && disk.value.state in {FLAT, HEDGED, DRIFTED} && disk.value.position.Some?
                && Believable(disk.value.position.value) && Named(disk.value.position.value, spot, name)
                && (spot.Some? && name.Some? ==> spot == name)
                && Matches(disk.value.mode, disk.value.position.value, perp, wallet))
            && (plan == Resume(true) <==>
                && orders == 0 && closing && disk.Some? && disk.value.state == UNWINDING && disk.value.mode == OVERLAY
                && disk.value.position.Some? && Believable(disk.value.position.value)
                && Named(disk.value.position.value, spot, name))
            && (plan == Clean <==>
                && orders == 0 && perp == 0.0
                && (disk.None? || (disk.value.position.None? && disk.value.state in {FLAT, HEDGED, DRIFTED})))
  {
  }

  // ---------------------------------------------------------------- what a ledger must say

  /** Ledgers a restart would read as "nothing is held", whatever the venue's spot side says. */
  predicate ReadsClean(disk: Option<Ledger>)
  {
    disk.None? || (disk.value.position.None? && disk.value.state !in {OPENING, UNWINDING, HALTED})
  }

  /** Ledgers whose pair a restart can take up again, compared with the venue or, mid-close, as it stands. */
  predicate RecordsPair(disk: Option<Ledger>)
  {
    disk.Some? && disk.value.position.Some? && disk.value.state !in {OPENING, HALTED}
  }

  /** The recorded short does not outrun what is behind it (one perp lot in an overlay, nothing in an acquired pair). */
  predicate Covered(mode: Mode, p: Position, perpStep: real)
  {
    match mode
    case ACQUIRE => p.perp.filled <= Held(p)
    case OVERLAY => p.spot.feeBase == 0.0 && p.spot.filled <= p.perp.filled <= p.spot.filled + perpStep
  }

  /** What every persisted ledger must satisfy. `residue` is the spot coin the current cycle left in the wallet. */
  predicate DiskSafe(disk: Option<Ledger>, mode: Mode, residue: real, spotStep: real, perpStep: real, exactFills: bool)
  {
    && (disk.Some? ==> disk.value.mode == mode)
    && (ReadsClean(disk) && mode == ACQUIRE ==> residue <= spotStep)
    && (RecordsPair(disk) && (exactFills || mode == OVERLAY) ==> Covered(mode, disk.value.position.value, perpStep))
  }

  /**
   * The restart theorem for one crash point. Whatever order count, symbols and close flag the restart sees:
   * CLEAN means the short is gone and no more than one spot lot of this cycle is unsold. RESUME compares nothing only
   * where an overlay's staged close was on disk and its log is still open; otherwise it means the short is exactly the
   * recorded one, the long side matches it up to the stated base fee (ACQUIRE) or covers the recorded slice (OVERLAY),
   * and the short at the venue does not outrun the coin at the venue: in an overlay by more than one perp lot, in an
   * acquired pair at all when fills never exceed their orders.
   */
  ghost predicate RestartSafe(disk: Option<Ledger>, mode: Mode, perp: real, wallet: real, base: real,
                              spotStep: real, perpStep: real, exactFills: bool)
  {
    forall orders: nat, s: Option<string>, p: Option<string>, closing: bool ::
      match PlanColdStart(disk, perp, wallet, orders, s, p, closing)
      case Halt => true
      case Clean => perp == 0.0 && (mode == ACQUIRE ==> wallet - base <= spotStep)
      case Resume(closeResume) =>
        disk.Some? && disk.value.position.Some? &&
        var pair := disk.value.position.value;
        if closeResume then closing && mode == OVERLAY && disk.value.state == UNWINDING && Trusted(pair)
        else
          && disk.value.state != UNWINDING && perp == pair.perp.filled
          && (mode == ACQUIRE ==> pair.spot.filled - pair.spot.feeBase <= wallet <= pair.spot.filled)
          && (mode == OVERLAY ==> pair.spot.filled <= wallet && perp <= wallet + perpStep)
          && (exactFills && mode == ACQUIRE ==> perp <= wallet)
  }

  /** A ledger that obeys the rule restarts safely against any venue holdings. */
  lemma SafeLedgerRestartsSafely(disk: Option<Ledger>, mode: Mode, perp: real, wallet: real, base: real,
                                 spotStep: real, perpStep: real, exactFills: bool)
    requires perp >= 0.0 && wallet >= 0.0
    requires DiskSafe(disk, mode, wallet - base, spotStep, perpStep, exactFills)
    ensures RestartSafe(disk, mode, perp, wallet, base, spotStep, perpStep, exactFills)
  {
  }

  /**
   * The rule is needed: a cycle that left more than one lot behind a ledger reading clean restarts as CLEAN over it.
   */
  lemma UnsafeLedgerRestartsClean(disk: Option<Ledger>, residue: real, spotStep: real)
    requires ReadsClean(disk) && residue > spotStep >= 0.0
    ensures !RestartSafe(disk, ACQUIRE, 0.0, residue, 0.0, spotStep, 0.0, true)
  {
    assert PlanColdStart(disk, 0.0, residue, 0, None, None, false) == Clean;
  }
}
