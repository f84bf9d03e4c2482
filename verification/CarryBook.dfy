/**
 The two-leg book (`CarryEngine`) against a venue that decides what fills and a ledger whose writes may fail.

 A process can die between any two of its effects. Its effects are the methods of `World`: each appends the world it
 leaves behind to `trace`, and `World.Valid()` says that EVERY world in the trace restarts safely. So whatever prefix
 of whatever run a crash leaves behind, it is one of those worlds.
 */
module CarryBook {
  import opened Basics
  import opened Fills
  import opened Lots
  import opened ColdStart

  datatype Product = Spot | Linear
  datatype Side = Buy | Sell

  /** What came back from `place_market`: a fill, a definite nothing, or an order of unknown fate. */
  datatype Outcome = Filled(leg: Leg) | NotSent | Unknown

  /**
   * What one step of the durable close answers (`CloseExecutor.step`): the venue reads flat, it stopped, or it goes on.
   */
  datatype CloseAnswer = ReadsFlat(explained: bool, unbooked: bool) | Stopped(venueShort: Option<real>) | GoesOn

  datatype Snapshot = Snapshot(disk: Option<Ledger>, perp: real, wallet: real, base: real)

  /** The venue account and the durable ledger: everything that survives the process. */
  class World {
    const mode: Mode
    const spotStep: real
    const perpStep: real
    /** Fills never exceed their orders. */
    const exactFills: bool
    /** Nothing but the book moves the perp, reads do not lag, and an order of unknown fate does not land later. */
    const quiet: bool
    /** Every order that can fill fills in full with its fee stated, and every read and ledger write succeeds. */
    const obliging: bool

    var perpShort: real
    var wallet: real
    var disk: Option<Ledger>
    /** What the wallet held beyond this cycle's pair when the cycle began (or was resumed). */
    ghost var base: real
    /** A spot order of unknown fate may still land. */
    var inFlight: bool
    ghost var trace: seq<Snapshot>

    ghost function Residue(): real reads this { wallet - base }

    ghost function Now(): Snapshot reads this { Snapshot(disk, perpShort, wallet, base) }

    ghost predicate Restartable(s: Snapshot)
    {
      RestartSafe(s.disk, mode, s.perp, s.wallet, s.base, spotStep, perpStep, exactFills)
    }

    ghost predicate Safe() reads this
    {
      && spotStep >= 0.0 && perpStep >= 0.0 && perpShort >= 0.0 && wallet >= 0.0
      && DiskSafe(disk, mode, Residue(), spotStep, perpStep, exactFills)
      && (inFlight ==> mode == ACQUIRE && !ReadsClean(disk))
    }

    ghost predicate Valid() reads this
    {
      && Safe()
      && (forall i :: 0 <= i < |trace| ==> Restartable(trace[i]))
      && Restartable(Now())
    }

    /** An account with no position and nothing written yet. */
    constructor (mode: Mode, spotStep: real, perpStep: real, wallet: real, exactFills: bool, quiet: bool,
                 obliging: bool)
      requires spotStep >= 0.0 && perpStep >= 0.0 && wallet >= 0.0
      ensures Valid() && disk.None? && perpShort == 0.0 && !inFlight && this.wallet == wallet && base == wallet
      ensures this.mode == mode && this.spotStep == spotStep && this.perpStep == perpStep
      ensures this.exactFills == exactFills && this.quiet == quiet && this.obliging == obliging
    {
      this.mode, this.spotStep, this.perpStep := mode, spotStep, perpStep;
      this.exactFills, this.quiet, this.obliging := exactFills, quiet, obliging;
      perpShort, this.wallet, disk, base, inFlight, trace := 0.0, wallet, None, wallet, false, [];
      new;
      SafeLedgerRestartsSafely(disk, mode, perpShort, wallet, base, spotStep, perpStep, exactFills);
    }

    /** Append the world as it is now; it is one more place a crash can leave. */
    ghost method Witness()
      requires Safe() && (forall i :: 0 <= i < |trace| ==> Restartable(trace[i]))
      modifies this`trace
      ensures Valid() && trace == old(trace) + [Now()]
    {
      SafeLedgerRestartsSafely(disk, mode, perpShort, wallet, base, spotStep, perpStep, exactFills);
      trace := trace + [Now()];
    }

    /** A new cycle begins: what the wallet holds now is not this cycle's. */
    ghost method BeginCycle(coin: real)
      requires Valid() && (mode == ACQUIRE ==> wallet - coin <= spotStep || !ReadsClean(disk))
      modifies this`base, this`trace
      ensures Valid() && base == coin && old(trace) <= trace
    {
      base := coin;
      Witness();
    }

    predicate CanFill(product: Product, side: Side, qty: real, perp0: real, coin0: real)
    {
      match product
      case Linear => side == Sell || qty <= perp0
      case Spot => side == Buy || qty <= coin0
    }

    /** What the venue may answer to one market order, and what the account then holds. */
    predicate Answers(product: Product, side: Side, qty: real, perp0: real, coin0: real,
                      r: Outcome, perp1: real, coin1: real)
    {
      && perp1 >= 0.0 && coin1 >= 0.0
      && (r.Filled? ==> SaneNumbers(r.leg) && r.leg.feeBase <= r.leg.filled)
      && (r.Filled? && (exactFills || (product == Linear && side == Buy)) ==> r.leg.filled <= qty)
      && (obliging && CanFill(product, side, qty, perp0, coin0) ==> r.Filled? && r.leg.filled == qty && r.leg.feeKnown)
      && (match product
          case Linear =>
            && (mode == ACQUIRE ==> coin1 == coin0)
            && (quiet ==>
                  match r
                  case NotSent => perp1 == perp0
                  case Filled(leg) => if side == Sell then perp1 == perp0 + leg.filled else perp1 == perp0 - leg.filled
                  case Unknown => if side == Buy then perp1 <= perp0 else exactFills ==> perp1 <= perp0 + qty)
          case Spot =>
            && (quiet ==> perp1 == perp0)
            && (match r
                case NotSent => coin1 == coin0
                case Filled(leg) =>
                  if side == Sell then coin1 == coin0 - leg.filled
                  else if leg.feeKnown then coin1 == coin0 + leg.filled - leg.feeBase
                  else coin0 <= coin1 <= coin0 + leg.filled
                case Unknown => if side == Buy then coin1 >= coin0 else exactFills ==> coin1 >= coin0 - qty))
    }

    /** An answer read case by case; the book files the leg under its own symbol's name. */
    lemma AnswerSays(product: Product, side: Side, qty: real, perp0: real, coin0: real,
                     r: Outcome, perp1: real, coin1: real, name: string)
      requires Answers(product, side, qty, perp0, coin0, r, perp1, coin1)
      ensures r.Filled? ==> Answers(product, side, qty, perp0, coin0, Filled(r.leg.(symbol := name)), perp1, coin1)
      ensures obliging && CanFill(product, side, qty, perp0, coin0) ==>
                r.Filled? && r.leg.filled == qty && r.leg.feeKnown
      ensures mode == ACQUIRE && (r.NotSent? || product == Linear) ==> coin1 == coin0
      ensures quiet && (r.NotSent? || product == Spot) ==> perp1 == perp0
      ensures quiet && r.Unknown? && product == Linear ==>
                if side == Buy then perp1 <= perp0 else exactFills ==> perp1 <= perp0 + qty
      ensures r.Unknown? && product == Spot ==> if side == Buy then coin1 >= coin0 else exactFills ==>
                  coin1 >= coin0 - qty
    {
    }

    /**
     * One market order. A spot order is only legal while the ledger does not read as clean: that is the rule the
     * engine's first write exists for, and every call site must establish it.
     */
    method PlaceMarket(product: Product, side: Side, qty: real) returns (r: Outcome)
      requires Valid() && qty > 0.0 && !inFlight
      requires product == Spot ==> mode == ACQUIRE && !ReadsClean(disk)
      modifies this`perpShort, this`wallet, this`inFlight, this`trace
      ensures Valid() && old(trace) <= trace
      ensures Answers(product, side, qty, old(perpShort), old(wallet), r, perpShort, wallet)
      ensures inFlight == (product == Spot && r.Unknown? && !quiet)
    {
      var perp1: real, coin1: real, answer: Outcome := *, *, *;
      if !Answers(product, side, qty, perpShort, wallet, answer, perp1, coin1) {
        perp1, coin1, answer := perpShort, wallet, NotSent;
        if obliging && CanFill(product, side, qty, perpShort, wallet) {
          var signed := if side == Sell then qty else -qty;
          answer := Filled(Leg("", qty, 1.0, 0.0, true));
          if product == Linear { perp1 := perpShort + signed; } else { coin1 := wallet - signed; }
        }
      }
      r, perpShort, wallet := answer, perp1, coin1;
      inFlight := product == Spot && r.Unknown? && !quiet;
      Witness();
    }

    /**
     * One step of the durable close: at most one reduce-only buy, and it answers flat only on a venue read of no short.
     */
    method StepClose() returns (r: CloseAnswer)
      requires Valid() && mode == OVERLAY && !inFlight
      modifies this`perpShort, this`wallet, this`trace
      ensures Valid() && old(trace) <= trace
      ensures quiet ==> perpShort <= old(perpShort) && (r.ReadsFlat? ==> perpShort == 0.0)
      ensures r.Stopped? && r.venueShort.Some? ==> r.venueShort.value >= 0.0
      ensures obliging ==> !r.Stopped? && (r.ReadsFlat? ==> r.explained && !r.unbooked)
    {
      var answer: CloseAnswer, bought: real, drift: real, moved: real := *, *, *, *;
      if !quiet { perpShort := Abs(drift); } else if 0.0 <= bought <= perpShort { perpShort := perpShort - bought; }
      wallet := Abs(moved);
      r := match answer
        case ReadsFlat(explained, unbooked) =>
          if quiet && perpShort != 0.0 then GoesOn
          else ReadsFlat(explained || obliging, unbooked && !obliging)
        case Stopped(short) => if obliging then GoesOn
        else Stopped(if short.Some? then Some(Abs(short.value)) else None)
        case GoesOn => GoesOn;
      Witness();
    }

    /** The order of unknown fate lands, or turns out never to have existed. */
    method SettleUnknown()
      requires Valid() && inFlight
      modifies this`wallet, this`inFlight, this`trace
      ensures Valid() && old(trace) <= trace && !inFlight
    {
      var landed: real := *;
      wallet, inFlight := Abs(landed), false;
      Witness();
    }

    /** One ledger write. `ok` false means it raised; the row may or may not have reached the disk. */
    method Persist(l: Ledger) returns (ok: bool)
      requires Valid()
      requires DiskSafe(Some(l), mode, Residue(), spotStep, perpStep, exactFills)
      requires inFlight ==> !ReadsClean(Some(l))
      modifies this`disk, this`wallet, this`perpShort, this`trace
      ensures Valid() && old(trace) <= trace
      ensures ok ==> disk == Some(l)
      ensures obliging ==> ok
      ensures !ok ==> disk == Some(l) || disk == old(disk)
      ensures !inFlight && mode == ACQUIRE ==> wallet == old(wallet)
      ensures quiet ==> perpShort == old(perpShort)
    {
      ok := *;
      if obliging { ok := true; }
      var torn: bool := *;
      var drift: real := *;
      if ok || torn { disk := Some(l); }
      if !quiet { perpShort := Abs(drift); }
      if inFlight || mode == OVERLAY { wallet := Abs(drift); }
      Witness();
    }

    /** The venue's perp position, when it can be read. */
    method ReadShort() returns (r: Option<real>)
      requires Valid()
      ensures r.Some? ==> r.value >= 0.0
      ensures quiet && r.Some? ==> r.value == perpShort
      ensures obliging ==> r.Some?
    {
      var readable: bool := *;
      var lagging: real := *;
      if !readable && !obliging { return None; }
      r := Some(if quiet then perpShort else Abs(lagging));
    }

    /** The free spot coin, when it can be read. In an overlay it is the client's and may have moved. */
    method ReadInventory() returns (r: Option<real>)
      requires Valid()
      modifies this`wallet, this`trace
      ensures Valid() && old(trace) <= trace
      ensures r.Some? ==> r.value == wallet
      ensures mode == ACQUIRE ==> wallet == old(wallet) && (r.Some? ==> r.value >= 0.0)
      ensures obliging ==> r.Some?
    {
      var readable: bool := *;
      var moved: real := *;
      if mode == OVERLAY { wallet := Abs(moved); }
      Witness();
      r := if readable || obliging then Some(wallet) else None;
    }

    /** The venue's quantity step for one product, when its rules can be read. */
    method ReadStep(product: Product) returns (r: Option<real>)
      ensures r.Some? ==> r.value == (if product == Spot then spotStep else perpStep)
      ensures obliging ==> r.Some?
    {
      var readable: bool := *;
      r := if readable || obliging then Some(if product == Spot then spotStep else perpStep) else None;
    }
  }

  /** What the venue showed of a short that may have been closed elsewhere: two reads and its closing records. */
  datatype Proof = Proof(first: Option<real>, second: Option<real>, closed: real)

  /** What a gate that reads the venue says of the held short. */
  datatype Gate = Ample | Thin | Unreadable

  datatype Report =
    | Refused | Opened | Halted | Unwound | Unwinding | Rebalanced | Hold
    | ColdStarted(decision: Decision)

  /** |delta| as a fraction of the book's own notional (`delta_fraction`). */
  function DeltaFraction(p: Position, mark: real): real
  {
    var book := Held(p) * p.spot.avgPrice + p.perp.filled * p.perp.avgPrice;
    if book <= 0.0 then 0.0 else Abs((Held(p) - p.perp.filled) * mark) / book
  }

  /** What the delta is worth, as a share of what both legs cost. */
  lemma DeltaFractionIs(p: Position, mark: real)
    requires SaneNumbers(p.spot) && SaneNumbers(p.perp) && mark > 0.0
    ensures var book, delta := Held(p) * p.spot.avgPrice + p.perp.filled * p.perp.avgPrice, Held(p) - p.perp.filled;
            && (book > 0.0 ==> DeltaFraction(p, mark) * book == (if delta < 0.0 then -delta else delta) * mark)
            && (DeltaFraction(p, mark) == 0.0 <==> delta == 0.0 || book <= 0.0)
  {
    var book, delta := Held(p) * p.spot.avgPrice + p.perp.filled * p.perp.avgPrice, Held(p) - p.perp.filled;
    if book > 0.0 {
      var moved := Abs(delta * mark);
      Magnitude(delta, mark);
      assert moved / book * book == moved;
    }
  }

  lemma Magnitude(delta: real, mark: real)
    requires mark > 0.0
    ensures Abs(delta * mark) == (if delta < 0.0 then -delta else delta) * mark
    ensures Abs(delta * mark) == 0.0 <==> delta == 0.0
  {
    if delta < 0.0 { assert -delta * mark > 0.0; }
    if delta > 0.0 { assert delta * mark > 0.0; }
  }

  const NoLeg: Leg := Leg("", 0.0, 0.0, 0.0, true)

  /** The fraction of the pair the buy-back closed, as `_unwind_impl` sizes the spot sale with it. */
  function ClosedFraction(remaining: Option<real>, bookPerp: real, wantedPerp: real, filled: real): real
  {
    if remaining.Some? then (if bookPerp > 0.0 then 1.0 - Min(1.0, remaining.value / bookPerp) else 1.0)
    else if wantedPerp > 0.0 then Min(1.0, filled / wantedPerp) else 1.0
  }

  lemma ScaledDown(x: real, fraction: real)
    requires x >= 0.0 && 0.0 <= fraction <= 1.0
    ensures 0.0 <= x * fraction <= x
  {
    assert (1.0 - fraction) * x >= 0.0;
  }

  lemma ScaledLess(x: real, y: real, fraction: real)
    requires x <= y && 0.0 <= fraction
    ensures x * fraction <= y * fraction
  {
    assert (y - x) * fraction >= 0.0;
  }

  lemma FractionBounds(remaining: Option<real>, bookPerp: real, wantedPerp: real, filled: real)
    requires bookPerp >= 0.0 && wantedPerp >= 0.0 && filled >= 0.0
    requires remaining.Some? ==> remaining.value >= 0.0
    ensures 0.0 <= ClosedFraction(remaining, bookPerp, wantedPerp, filled) <= 1.0
  {
  }

  /** When the venue's read is honest both ways of computing the fraction give filled / held. */
  lemma FractionIsExact(remaining: Option<real>, bookPerp: real, filled: real)
    requires 0.0 < filled <= bookPerp
    requires remaining.Some? ==> remaining.value == bookPerp - filled
    ensures ClosedFraction(remaining, bookPerp, bookPerp, filled) * bookPerp == filled
  {
    if remaining.Some? {
      var share := (bookPerp - filled) / bookPerp;
      assert share * bookPerp == bookPerp - filled;
      assert share <= 1.0;
    }
  }

  lemma WholeFraction(bookPerp: real, wantedPerp: real, filled: real)
    ensures ClosedFraction(Some(0.0), bookPerp, wantedPerp, filled) == 1.0
  {
  }

  /** At least the fraction of the coin is kept that the short still open is of the short before. */
  ghost predicate Proportional(bookPerp: real, held: real, perpNow: real, kept: real)
  {
    perpNow * held <= bookPerp * kept && (bookPerp <= held ==> perpNow <= kept)
  }

  lemma ProportionKept(bookPerp: real, held: real, filled: real, fraction: real, perpNow: real, kept: real)
    requires 0.0 < filled <= bookPerp && held >= 0.0 && perpNow == bookPerp - filled
    requires fraction * bookPerp == filled && kept >= held - held * fraction
    ensures Proportional(bookPerp, held, perpNow, kept)
  {
    assert (kept - (held - held * fraction)) * bookPerp >= 0.0;
    assert held * fraction * bookPerp == held * filled;
    if bookPerp <= held {
      assert kept * bookPerp >= held * perpNow;
      assert (held - bookPerp) * perpNow >= 0.0;
      assert (kept - perpNow) * bookPerp >= 0.0;
    }
  }

  lemma NothingShort(bookPerp: real, held: real, kept: real)
    requires bookPerp >= 0.0 && kept >= 0.0
    ensures Proportional(bookPerp, held, 0.0, kept)
  {}

  lemma NothingSold(bookPerp: real, held: real, perpNow: real)
    requires perpNow <= bookPerp && held >= 0.0
    ensures Proportional(bookPerp, held, perpNow, held)
  {
    ScaledLess(perpNow, bookPerp, held);
  }

  /** `_merge`: one leg, two fills, at the quantity-weighted price. */
  function MergeLegs(a: Leg, b: Leg): (r: Leg)
    requires SaneNumbers(a) && SaneNumbers(b)
    ensures SaneNumbers(r) && r.filled == a.filled + b.filled
    ensures r.avgPrice * r.filled == a.filled * a.avgPrice + b.filled * b.avgPrice
  {
    MergedPositive(a.filled, a.avgPrice, b.filled, b.avgPrice);
    Leg(a.symbol, a.filled + b.filled, MergedPrice(a.filled, a.avgPrice, b.filled, b.avgPrice),
        a.feeBase + b.feeBase, a.feeKnown && b.feeKnown)
  }

  class CarryEngine {
    const world: World
    const deltaBand: real
    const expectedSpot: string
    const expectedPerp: string
    /** A durable close executor is attached; an overlay then unwinds through it, a step per tick. */
    const staged: bool
    var state: BookState
    var position: Option<Position>

    /** What holds of a running process between two calls. */
    ghost predicate Valid() reads this, world
    {
      && world.Valid()
      && state in {FLAT, HEDGED, UNWINDING, HALTED}
      && (state == UNWINDING ==> MidClose())
      && (state == FLAT ==>
            && position.None? && !world.inFlight
            && (world.mode == ACQUIRE ==> world.Residue() <= world.spotStep)
            && (world.quiet ==> world.perpShort == 0.0))
      && (state == HEDGED ==> Tracked() && OnDisk())
    }

    /** The pair in memory is the pair at the venue. */
    ghost predicate Tracked() reads this, world
    {
      && position.Some? && !world.inFlight && !ReadsClean(world.disk)
      && SaneNumbers(position.value.perp) && position.value.spot.filled >= 0.0
      && (world.mode == ACQUIRE ==> Held(position.value) == world.Residue())
      && (world.quiet ==> position.value.perp.filled == world.perpShort)
      && (world.exactFills || world.mode == OVERLAY ==> Covered(world.mode, position.value, world.perpStep))
      && InOurMarkets() && (world.mode == ACQUIRE ==> SaneNumbers(position.value.spot))
    }

    ghost predicate InOurMarkets() reads this
    {
      && position.Some?
      && position.value.spot.symbol == expectedSpot && position.value.perp.symbol == expectedPerp
    }

    /** The ledger on disk records the pair, and a restart would compare it with the venue. */
    ghost predicate OnDisk() reads this, world
    {
      && world.disk.Some? && world.disk.value.position == position && world.disk.value.mode == world.mode
      && world.disk.value.state in {FLAT, HEDGED, DRIFTED}
    }

    predicate Staged() reads this, world { staged && world.mode == OVERLAY }

    /** Between two steps of a staged close: the pair as it was when the close began. */
    ghost predicate MidClose() reads this, world
    {
      && Staged() && !world.inFlight && InOurMarkets()
      && Covered(OVERLAY, position.value, world.perpStep)
    }

    /** Every effect so far left a world that restarts safely, and the cycle is the same one. */
    twostate predicate Ran() reads this, world
    {
      && world.Valid() && old(world.trace) <= world.trace && world.base == old(world.base)
    }

    /** The book moved no coin and no perp. */
    twostate predicate HoldingsKept() reads this, world
    {
      && (world.mode == ACQUIRE && !old(world.inFlight) ==> world.wallet == old(world.wallet))
      && (world.quiet ==> world.perpShort == old(world.perpShort))
    }

    constructor (world: World, deltaBand: real, expectedSpot: string, expectedPerp: string, staged: bool)
      ensures this.world == world && this.deltaBand == deltaBand && this.staged == staged
      ensures this.expectedSpot == expectedSpot && this.expectedPerp == expectedPerp
      ensures state == FLAT && position.None?
    {
      this.world, this.deltaBand, this.staged := world, deltaBand, staged;
      this.expectedSpot, this.expectedPerp := expectedSpot, expectedPerp;
      state, position := FLAT, None;
    }

    /**
     * The legs are one market, nothing moved the short meanwhile, and the wallet holds the pair's coin: in an acquired
     * pair and nothing else, in an overlay at least the slice, with its price, that the short was written against.
     */
    ghost predicate Recoverable() reads this, world
    {
      && position.Some? && expectedSpot == expectedPerp != "" && world.quiet
      && (world.mode == ACQUIRE ==> world.base == 0.0)
      && (world.mode == OVERLAY ==> Believable(position.value) && position.value.spot.filled <= world.wallet)
    }

    function ToState(): Ledger reads this, world { Ledger(state, world.mode, position) }

    ghost predicate Written() reads this, world { world.disk == Some(ToState()) }

    /** `_halt`: stop, and write the stop down if the ledger will take it. */
    method Halt() returns (d: Report)
      requires world.Valid()
      modifies this`state, world`disk, world`wallet, world`perpShort, world`trace
      ensures Ran() && HoldingsKept() && state == HALTED && d == Halted
      ensures ReadsClean(world.disk) ==> ReadsClean(old(world.disk))
    {
      state := HALTED;
      var _ := world.Persist(ToState());
      d := Halted;
    }

    /** `_record`: a ledger that cannot be written stops the book. */
    method Record() returns (ok: bool)
      requires world.Valid() && !world.inFlight
      requires DiskSafe(Some(ToState()), world.mode, world.Residue(), world.spotStep, world.perpStep, world.exactFills)
      modifies this`state, world`disk, world`wallet, world`perpShort, world`trace
      ensures Ran() && HoldingsKept()
      ensures ok ==> state == old(state) && world.disk == Some(old(ToState()))
      ensures world.obliging ==> ok
      ensures !ok ==> state == HALTED && (world.disk == Some(old(ToState())) || world.disk == old(world.disk))
    {
      ok := world.Persist(ToState());
      if !ok { state := HALTED; }
    }

    /** `_fire`/`_take`: cross the spread. None means nothing can be built on the order; an unknown fate halts. */
    method Take(product: Product, side: Side, qty: real) returns (leg: Option<Leg>)
      requires world.Valid() && !world.inFlight && state != HALTED
      requires product == Spot ==> world.mode == ACQUIRE && !ReadsClean(world.disk)
      modifies this`state, world`disk, world`wallet, world`perpShort, world`inFlight, world`trace
      ensures Ran() && (ReadsClean(world.disk) ==> ReadsClean(old(world.disk)))
      ensures leg.Some? ==> state == old(state) && world.disk == old(world.disk) && !world.inFlight && qty > 0.0
                            && leg.value.symbol == (if product == Spot then expectedSpot else expectedPerp)
      ensures leg.Some? ==> world.Answers(product, side, qty, old(world.perpShort), old(world.wallet),
                                          Filled(leg.value), world.perpShort, world.wallet)
      ensures leg.None? && state != HALTED ==>
                state == old(state) && world.disk == old(world.disk) && !world.inFlight && HoldingsKept()
      ensures leg.None? && state == HALTED && product == Linear ==>
                && !world.inFlight
                && (world.mode == ACQUIRE ==> world.wallet == old(world.wallet))
                && (world.quiet && side == Buy ==> world.perpShort <= old(world.perpShort))
                && (world.quiet && side == Sell && world.exactFills ==> world.perpShort <= old(world.perpShort) + qty)
      ensures leg.None? && state == HALTED && product == Spot && world.quiet ==>
                && !world.inFlight
                && world.perpShort == old(world.perpShort)
                && (side == Buy ==> world.wallet >= old(world.wallet))
                && (side == Sell && world.exactFills ==> world.wallet >= old(world.wallet) - qty)
      ensures world.obliging && qty > 0.0
              && world.CanFill(product, side, qty, old(world.perpShort), old(world.wallet)) ==>
                leg.Some? && leg.value.filled == qty && leg.value.feeKnown
      ensures qty <= 0.0 ==> leg.None? && state == old(state)
    {
      hide RestartSafe, DiskSafe, World.Answers, World.CanFill;
      if qty <= 0.0 { return None; }
      ghost var perp0, coin0 := world.perpShort, world.wallet;
      var name := if product == Spot then expectedSpot else expectedPerp;
      var answer := world.PlaceMarket(product, side, qty);
      world.AnswerSays(product, side, qty, perp0, coin0, answer, world.perpShort, world.wallet, name);
      match answer
      case NotSent => leg := None;
      case Filled(got) =>
        leg := Some(got.(symbol := name));
      case Unknown =>
        var _ := Halt();
        leg := None;
    }

    /** `_refused`: a leg did not land. A halt survives; anything else takes the open-transaction marker down. */
    method Refuse() returns (d: Report)
      requires world.Valid() && position.None? && state in {OPENING, HALTED}
      requires state == OPENING ==>
                 && !world.inFlight && (world.mode == ACQUIRE ==> world.Residue() <= world.spotStep)
                 && (world.quiet ==> world.perpShort == 0.0)
      modifies this`state, world`disk, world`wallet, world`perpShort, world`trace
      ensures Valid() && Ran() && HoldingsKept() && state in {FLAT, HALTED}
    {
      if state == HALTED { return Halted; }
      state := FLAT;
      var _ := world.Persist(ToState());
      d := Refused;
    }

    /** `_spot_sellable`: floored to the spot lot, or sent as it is when the rules cannot be read. */
    method SpotSellable(qty: real) returns (r: real)
      requires qty >= 0.0 && world.spotStep >= 0.0
      ensures 0.0 <= r <= qty <= r + world.spotStep
      ensures world.obliging ==> r == SnapToLot(qty, world.spotStep)
    {
      SnapBounds(qty, world.spotStep);
      var step := world.ReadStep(Spot);
      r := if step.Some? then SnapToLot(qty, step.value) else qty;
    }

    /** Up to three looks at a figure that may lag, the last the first that fails or is down to the floor. */
    ghost predicate Reread(looks: seq<Option<real>>, floor: real, r: Option<real>)
    {
      && 1 <= |looks| <= 3 && (forall i :: 0 <= i < |looks| - 1 ==> looks[i].Some? && looks[i].value > floor)
      && match looks[|looks| - 1]
         case None => r == None
         case Some(last) => r == Some(Max(floor, last)) && (last > floor ==> |looks| == 3)
    }

    /** `_short_left_after_close`: what the venue still shows, never less than the fills imply. */
    method ShortLeftAfterClose(fillLeft: real) returns (r: Option<real>, ghost looks: seq<Option<real>>)
      requires world.Valid()
      ensures Reread(looks, Max(0.0, fillLeft), r)
      ensures r.Some? ==> r.value >= Max(0.0, fillLeft)
      ensures r.Some? && world.quiet ==> r.value == Max(Max(0.0, fillLeft), world.perpShort)
      ensures world.obliging ==> r.Some?
    {
      var floor := Max(0.0, fillLeft);
      var shown := world.ReadShort();
      looks := [shown];
      if shown.None? { return None, looks; }
      if shown.value > floor {
        for i := 0 to 2
          invariant |looks| == i + 1 && looks[i] == shown
          invariant shown.Some? && shown.value >= 0.0
          invariant world.quiet ==> shown.value == world.perpShort
          invariant forall k :: 0 <= k < |looks| ==> looks[k].Some? && looks[k].value > floor
        {
          shown := world.ReadShort();
          looks := looks + [shown];
          if shown.None? { return None, looks; }
          if shown.value <= floor { break; }
        }
      }
      r := Some(Max(floor, shown.value));
    }

    /** `_confirmed_short_left`: the same, retried while the venue cannot be read. */
    method ConfirmedShortLeft(fillLeft: real) returns (r: Option<real>, ghost tries: nat)
      requires world.Valid()
      ensures 1 <= tries <= 4 && (r.None? ==> tries == 4)
      ensures r.Some? ==> r.value >= Max(0.0, fillLeft)
      ensures r.Some? && world.quiet ==> r.value == Max(Max(0.0, fillLeft), world.perpShort)
      ensures world.obliging ==> r.Some?
    {
      ghost var looks;
      r, looks := ShortLeftAfterClose(Max(0.0, fillLeft));
      tries := 1;
      for i := 0 to 3
        invariant tries == i + 1
        invariant world.obliging ==> r.Some?
        invariant r.Some? ==> r.value >= Max(0.0, fillLeft)
        invariant r.Some? && world.quiet ==> r.value == Max(Max(0.0, fillLeft), world.perpShort)
      {
        if r.Some? { break; }
        r, looks := ShortLeftAfterClose(Max(0.0, fillLeft));
        tries := tries + 1;
      }
    }

    /** `_partial_close`: rewrite the pair to what is still held, and stop. */
    method PartialClose(perpLeft: real, spotLeft: real) returns (d: Report)
      requires world.Valid() && position.Some?
      modifies this`state, this`position, world`disk, world`wallet, world`perpShort, world`trace
      ensures Valid() && Ran() && HoldingsKept() && state == HALTED && d == Halted
      ensures position == Some(Position(old(position.value.spot).(filled := Max(0.0, spotLeft), feeBase := 0.0),
                                        old(position.value.perp).(filled := Max(0.0, perpLeft))))
    {
      var pair := position.value;
      position := Some(Position(pair.spot.(filled := Max(0.0, spotLeft), feeBase := 0.0),
                                pair.perp.(filled := Max(0.0, perpLeft))));
      d := Halt();
    }

    /** Two reads in a row without a short, and closing records that cover all of the book's. */
    ghost predicate Proves(proof: Proof, bookPerp: real)
    {
      proof.first == Some(0.0) && proof.second == Some(0.0) && 0.0 < bookPerp <= proof.closed
    }

    /** `_perp_confirmed_closed`: the venue's own records prove something else closed the short. */
    method PerpConfirmedClosed(bookPerp: real) returns (confirmed: bool, ghost proof: Proof)
      requires world.Valid()
      ensures confirmed <==> Proves(proof, bookPerp)
      ensures world.obliging && 0.0 < bookPerp ==>
                proof.first.Some? && (proof.first == Some(0.0) ==> proof.second.Some?)
      ensures confirmed && world.quiet ==> world.perpShort <= 0.0
    {
      proof := Proof(None, None, 0.0);
      if bookPerp <= 0.0 { return false, proof; }
      var first := world.ReadShort();
      proof := Proof(first, None, 0.0);
      if first.None? || first.value > 0.0 { return false, proof; }
      var second := world.ReadShort();
      proof := Proof(first, second, 0.0);
      if second.None? || second.value > 0.0 { return false, proof; }
      var closedPnl: real := *;
      proof := Proof(first, second, closedPnl);
      confirmed := closedPnl >= bookPerp;
    }

    /** `_spot_after_perp_closed`: the spot is a naked long; sell it, and stop either way. */
    method SpotAfterPerpClosed(wantedSpot: real) returns (d: Report)
      requires world.Valid() && !world.inFlight && position.Some? && state == UNWINDING
      requires world.mode == ACQUIRE && !ReadsClean(world.disk) && wantedSpot >= 0.0
      requires wantedSpot == Max(0.0, world.Residue())
      modifies this`state, this`position, world`disk, world`wallet, world`perpShort, world`inFlight, world`trace
      ensures Valid() && Ran() && state == HALTED
      ensures world.quiet ==> world.perpShort == old(world.perpShort)
      ensures world.quiet && world.exactFills ==> world.Residue() >= Min(0.0, old(world.Residue()))
      ensures position.Some? && position.value.perp.filled == 0.0
              && (Held(position.value) == wantedSpot || Held(position.value) == Max(0.0, world.Residue()))
      ensures world.obliging && world.base >= 0.0 && old(world.Residue()) >= 0.0 ==>
                Held(position.value) == world.Residue() == wantedSpot - SnapToLot(wantedSpot, world.spotStep)
      ensures d == Unwound || d == Halted
    {
      hide RestartSafe, DiskSafe;
      SnapBounds(wantedSpot, world.spotStep);
      var held := world.ReadInventory();
      var sellable := if held.Some? then Min(wantedSpot, held.value) else wantedSpot;
      var sell := SpotSellable(sellable);
      var sold := Take(Spot, Sell, sell);
      var left := Max(0.0, wantedSpot - (if sold.Some? then sold.value.filled else 0.0));
      var pair := position.value;
      position := Some(Position(pair.spot.(filled := left, feeBase := 0.0), pair.perp.(filled := 0.0)));
      d := Halt();
    }

    /** How much spot to sell: lot-floored, and never more than `fraction` of what is held. */
    method SizeSale(held: real, wanted: real, fraction: real) returns (sell: real)
      requires 0.0 <= wanted <= held && 0.0 <= fraction <= 1.0 && world.spotStep >= 0.0
      ensures 0.0 <= sell <= wanted && sell <= held * fraction
      ensures world.obliging && fraction == 1.0 ==> sell == SnapToLot(wanted, world.spotStep)
    {
      ScaledDown(wanted, fraction);
      ScaledLess(wanted, held, fraction);
      if fraction >= 1.0 {
        sell := SpotSellable(wanted);
      } else {
        sell := SpotSellable(wanted * fraction);
      }
    }

    /** The spot half of the unwind: what is sold is at most `fraction` of what was held. */
    method SellInProportion(held: real, fraction: real, perpLeft: real) returns (d: Report)
      requires world.Valid() && !world.inFlight && position.Some? && state == UNWINDING
      requires world.mode == ACQUIRE && !ReadsClean(world.disk)
      requires held == world.Residue() >= 0.0 && 0.0 <= fraction <= 1.0
      requires world.quiet && perpLeft <= 0.0 ==> world.perpShort == 0.0
      modifies this`state, this`position, world`disk, world`wallet, world`perpShort, world`inFlight, world`trace
      ensures Valid() && Ran() && state in {FLAT, HALTED}
      ensures world.quiet ==> world.perpShort == old(world.perpShort)
      ensures world.quiet && world.exactFills ==> world.Residue() >= held - held * fraction
      ensures fraction == 1.0 && perpLeft <= 0.0 ==> SoldOut(d, held)
      ensures position.Some? ==> position.value.perp.filled == Max(0.0, perpLeft)
      ensures d == Unwound || d == Halted
    {
      SnapIdempotent(held, world.spotStep);
      var wanted := SpotSellable(held);
      var sell := SizeSale(held, wanted, fraction);
      d := SellAndSettle(wanted, sell, perpLeft);
    }

    /** On an obliging venue the whole pair is gone: nothing is left of the coin but what no lot could sell. */
    twostate predicate SoldOut(d: Report, held: real) reads this, world
    {
      world.obliging && old(world.base) >= 0.0 ==>
        state == FLAT && d == Unwound && world.Residue() == held - SnapToLot(held, world.spotStep)
    }

    /** What is written down of an acquired pair: the short that is left, and the coin short of what was sold of it. */
    ghost predicate PairLeft(perpLeft: real, wanted: real, before: real) reads this, world
    {
      position.Some? ==>
        && state == HALTED && position.value.perp.filled == Max(0.0, perpLeft)
        && (Held(position.value) == Max(0.0, wanted)
            || Held(position.value) == Max(0.0, wanted - (before - world.Residue())))
    }

    method SellAndSettle(wanted: real, sell: real, perpLeft: real) returns (d: Report)
      requires world.Valid() && !world.inFlight && position.Some? && state == UNWINDING
      requires world.mode == ACQUIRE && !ReadsClean(world.disk)
      requires 0.0 <= sell <= wanted && world.Residue() <= wanted + world.spotStep
      requires world.quiet && perpLeft <= 0.0 ==> world.perpShort == 0.0
      modifies this`state, this`position, world`disk, world`wallet, world`perpShort, world`inFlight, world`trace
      ensures Valid() && Ran() && state in {FLAT, HALTED}
      ensures world.quiet ==> world.perpShort == old(world.perpShort)
      ensures world.quiet && world.exactFills ==> world.Residue() >= old(world.Residue()) - sell
      ensures world.obliging && sell == wanted && perpLeft <= 0.0 && sell <= old(world.wallet) ==>
                state == FLAT && d == Unwound && world.Residue() == old(world.Residue()) - sell
      ensures PairLeft(perpLeft, wanted, old(world.Residue()))
      ensures d == Unwound || d == Halted
    {
      var soldQty := 0.0;
      if sell > 0.0 {
        var sold := Take(Spot, Sell, sell);
        if sold.None? {
          d := PartialClose(perpLeft, wanted);
          return;
        }
        soldQty := sold.value.filled;
      }
      var spotLeft := wanted - soldQty;
      if perpLeft > 0.0 || spotLeft > 0.0 {
        d := PartialClose(perpLeft, spotLeft);
        return;
      }
      position, state := None, FLAT;
      var ok := Record();
      d := if ok then Unwound else Halted;
    }

    /** What is written down of an overlay after a buy-back: by what the venue shows, or, unread, by the fills alone. */
    ghost predicate OverlayLeft(pair: Position, fillLeft: real, left: Option<real>) reads this
    {
      match left
      case None =>
        state == HALTED
        && position == Some(if fillLeft > 0.0 then pair.(perp := pair.perp.(filled := fillLeft)) else pair)
      case Some(short) =>
        if short <= 0.0 then position.None?
        else
          state == HALTED
          && position == Some(Position(pair.spot.(filled := Max(0.0, Min(short, pair.spot.filled)), feeBase := 0.0),
                                       pair.perp.(filled := short)))
    }

    /** The overlay half: the client's coin is never sold, and FLAT needs the venue's own word. */
    method UnwindOverlay(pair: Position, perp: Option<Leg>, fillLeft: real, shown: Option<real>)
      returns (d: Report, ghost left: Option<real>)
      requires world.Valid() && !world.inFlight && position == Some(pair) && state in {UNWINDING, HALTED}
      requires world.mode == OVERLAY && (state == HALTED ==> perp.None?)
      requires shown.Some? ==> shown.value >= Max(0.0, fillLeft)
      requires shown.Some? && world.quiet ==> shown.value == Max(Max(0.0, fillLeft), world.perpShort)
      modifies this`state, this`position, world`disk, world`wallet, world`perpShort, world`trace
      ensures Valid() && Ran() && state in {FLAT, HALTED}
      ensures world.quiet ==> world.perpShort == old(world.perpShort)
      ensures world.obliging && world.quiet && perp.Some? && perp.value.filled > 0.0 && fillLeft <= 0.0
              && world.perpShort <= 0.0 ==>
                state == FLAT && d == Unwound
      ensures perp.None? || perp.value.filled <= 0.0 ==> position == Some(pair)
      ensures perp.Some? && perp.value.filled > 0.0 ==> OverlayLeft(pair, fillLeft, left)
      ensures left.Some? ==> left.value >= fillLeft && (shown.Some? ==> left == shown)
      ensures left.Some? && world.quiet ==> left.value == Max(Max(0.0, fillLeft), world.perpShort)
      ensures d == Unwound || d == Halted
    {
      left := shown;
      if perp.None? || perp.value.filled <= 0.0 { d := Halt(); return; }
      var remaining := shown;
      if remaining.None? {
        ghost var tries;
        remaining, tries := ConfirmedShortLeft(fillLeft);
        left := remaining;
        if remaining.None? {
          if fillLeft > 0.0 { position := Some(pair.(perp := pair.perp.(filled := fillLeft))); }
          d := Halt();
          return;
        }
      }
      if remaining.value > 0.0 {
        d := PartialClose(remaining.value, Min(remaining.value, pair.spot.filled));
        return;
      }
      position, state := None, FLAT;
      var ok := Record();
      d := if ok then Unwound else Halted;
    }

    /** The acquired half once the perp has bought some back: the spot follows in proportion. */
    method FollowWithSpot(pair: Position, filled: real, wantedPerp: real, shown: Option<real>) returns (d: Report)
      requires world.Valid() && !world.inFlight && position == Some(pair) && state == UNWINDING
      requires world.mode == ACQUIRE && !ReadsClean(world.disk)
      requires Held(pair) == world.Residue() && pair.perp.filled >= 0.0 && 0.0 < filled <= wantedPerp
      requires shown.Some? ==> shown.value >= 0.0
      requires world.quiet ==> wantedPerp == pair.perp.filled && world.perpShort == pair.perp.filled - filled
      requires world.quiet && shown.Some? ==> shown.value == world.perpShort
      modifies this`state, this`position, world`disk, world`wallet, world`perpShort, world`inFlight, world`trace
      ensures Valid() && Ran() && state in {FLAT, HALTED}
      ensures world.quiet && world.exactFills ==>
                Proportional(pair.perp.filled, Held(pair), world.perpShort, world.Residue())
      ensures shown == Some(0.0) ==> SoldOut(d, Held(pair))
      ensures position.Some? ==>
                position.value.perp.filled == Max(0.0, if shown.Some? then shown.value else wantedPerp - filled)
      ensures d == Unwound || d == Halted
    {
      hide ClosedFraction, Proportional, RestartSafe, DiskSafe;
      WholeFraction(pair.perp.filled, wantedPerp, filled);
      var fraction := ClosedFraction(shown, pair.perp.filled, wantedPerp, filled);
      FractionBounds(shown, pair.perp.filled, wantedPerp, filled);
      var perpLeft := if shown.Some? then shown.value else wantedPerp - filled;
      d := SellInProportion(Held(pair), fraction, perpLeft);
      if world.quiet && world.exactFills {
        FractionIsExact(shown, pair.perp.filled, filled);
        ProportionKept(pair.perp.filled, Held(pair), filled, fraction, world.perpShort, world.Residue());
      }
    }

    /** The acquired half: the spot follows the perp that actually closed, or stays where it is. */
    method UnwindAcquire(pair: Position, perp: Option<Leg>, wantedPerp: real, shown: Option<real>) returns (d: Report)
      requires world.Valid() && !world.inFlight && position == Some(pair) && state in {UNWINDING, HALTED}
      requires world.mode == ACQUIRE && !ReadsClean(world.disk)
      requires Held(pair) == world.Residue() && pair.perp.filled >= 0.0 && wantedPerp >= 0.0
      requires perp.Some? ==> state == UNWINDING && 0.0 <= perp.value.filled <= wantedPerp
      requires shown.Some? ==> shown.value >= 0.0
      requires world.quiet ==> wantedPerp == pair.perp.filled
      requires world.quiet && perp.None? ==> world.perpShort <= pair.perp.filled
      requires world.quiet && perp.Some? ==> world.perpShort == pair.perp.filled - perp.value.filled
      requires world.quiet && perp.Some? && shown.Some? ==> shown.value == world.perpShort
      modifies this`state, this`position, world`disk, world`wallet, world`perpShort, world`inFlight, world`trace
      ensures Valid() && Ran() && state in {FLAT, HALTED}
      ensures world.quiet && world.exactFills ==>
                Proportional(pair.perp.filled, Held(pair), world.perpShort, world.Residue())
      ensures perp.Some? && perp.value.filled > 0.0 && shown == Some(0.0) ==> SoldOut(d, Held(pair))
      ensures d == Unwound || d == Halted
    {
      if perp.None? && state == UNWINDING {
        var elsewhere, _ := PerpConfirmedClosed(pair.perp.filled);
        if elsewhere {
          d := SpotAfterPerpClosed(Held(pair));
          if world.quiet && world.exactFills { NothingShort(pair.perp.filled, Held(pair), world.Residue()); }
          return;
        }
      }
      if perp.None? || perp.value.filled <= 0.0 {
        d := Halt();
        if world.quiet { NothingSold(pair.perp.filled, Held(pair), world.perpShort); }
        return;
      }
      d := FollowWithSpot(pair, perp.value.filled, wantedPerp, shown);
    }

    /** What a step's answer makes of the pair. */
    ghost predicate ClosedAs(pair: Position, answer: CloseAnswer) reads this
    {
      match answer
      case ReadsFlat(explained, unbooked) =>
        if explained && !unbooked then position.None? && state in {FLAT, HALTED}
        else
          state == HALTED
          && position == Some(if explained then pair.(perp := pair.perp.(filled := 0.0)) else pair)
      case Stopped(short) =>
        state == HALTED
        && position == Some(if short.Some? && short.value > 0.0
                            then Position(pair.spot.(filled := Min(short.value, pair.spot.filled), feeBase := 0.0),
                                          pair.perp.(filled := short.value))
                            else pair)
      case GoesOn => position == Some(pair) && state in {UNWINDING, HALTED}
    }

    /**
     * `_staged_close`: one step of the durable close. The book is FLAT only when the venue reads flat and the close's
     * own booked fills explain it; it stays UNWINDING, on disk, or halts with what is left written down.
     */
    method StagedClose() returns (d: Report, ghost answer: CloseAnswer)
      requires world.Valid() && state == UNWINDING && MidClose()
      modifies this`state, this`position, world`disk, world`wallet, world`perpShort, world`trace
      ensures Valid() && Ran() && state in {FLAT, UNWINDING, HALTED}
      ensures world.quiet ==> world.perpShort <= old(world.perpShort)
      ensures state == FLAT ==> d == Unwound && world.disk == Some(ToState())
      ensures state == UNWINDING ==> d == Unwinding && position == old(position) && world.disk == Some(ToState())
      ensures state == HALTED ==> d == Halted
      ensures world.obliging ==> state != HALTED
      ensures ClosedAs(old(position.value), answer)
    {
      var pair := position.value;
      var said := world.StepClose();
      answer := said;
      match said
      case ReadsFlat(explained, unbooked) =>
        if !explained { d := Halt(); return; }
        if unbooked {
          position := Some(pair.(perp := pair.perp.(filled := 0.0)));
          d := Halt();
          return;
        }
        position, state := None, FLAT;
        var ok := Record();
        d := if ok then Unwound else Halted;
      case Stopped(short) =>
        if short.Some? && short.value > 0.0 {
          position := Some(Position(pair.spot.(filled := Min(short.value, pair.spot.filled), feeBase := 0.0),
                                    pair.perp.(filled := short.value)));
        }
        d := Halt();
      case GoesOn =>
        var ok := Record();
        d := if ok then Unwinding else Halted;
    }

    /**
     * `_unwind_impl`: a staged overlay takes a step of its durable close. Otherwise the perp first, then spot in
     * proportion to the perp that closed, and it ends FLAT or HALTED. With exact fills and a quiet account the coin
     * kept is at least the fraction of the coin held that the short still open is of the short before, so a covered
     * pair stays covered.
     */
    method UnwindImpl() returns (d: Report)
      requires world.Valid() && state in {HEDGED, OPENING} && Tracked()
      modifies this`state, this`position, world`disk, world`wallet, world`perpShort, world`inFlight, world`trace
      ensures Valid() && Ran() && state in (if Staged() then {FLAT, UNWINDING, HALTED} else {FLAT, HALTED})
      ensures world.mode == ACQUIRE && world.quiet && world.exactFills ==>
                Proportional(old(position.value.perp.filled), old(Held(position.value)), world.perpShort,
                             world.Residue())
      ensures Staged() && world.obliging ==> state != HALTED
      ensures !Staged() && world.obliging && world.quiet && old(world.base) >= 0.0
              && old(position.value.perp.filled) > 0.0 ==>
                && state == FLAT && d == Unwound && world.perpShort == 0.0
                && (world.mode == ACQUIRE ==> SoldOut(d, old(Held(position.value))))
      ensures d in {Unwound, Unwinding, Halted} && (d == Unwinding <==> state == UNWINDING)
    {
      hide RestartSafe;
      var pair := position.value;
      state := UNWINDING;
      ghost var looks, answer, left;
      if staged && world.mode == OVERLAY {
        d, answer := StagedClose();
        return;
      }
      var seen := world.ReadShort();
      var wantedPerp := if seen.Some? && seen.value > 0.0 then seen.value else pair.perp.filled;
      var perp := Take(Linear, Buy, wantedPerp);
      var fillLeft := if perp.Some? then wantedPerp - perp.value.filled else wantedPerp;
      var remaining: Option<real> := None;
      if perp.Some? && perp.value.filled > 0.0 { remaining, looks := ShortLeftAfterClose(Max(0.0, fillLeft)); }
      if world.mode == OVERLAY {
        d, left := UnwindOverlay(pair, perp, fillLeft, remaining);
      } else {
        d := UnwindAcquire(pair, perp, wantedPerp, remaining);
      }
    }

    /** `_emergency_unwind_spot`: the hedge never landed; sell the naked long, unless the hedge's fate is unknown. */
    method EmergencyUnwindSpot(spot: Leg) returns (d: Report)
      requires world.Valid() && world.mode == ACQUIRE && state in {OPENING, HALTED} && position.None?
      requires !world.inFlight && !ReadsClean(world.disk)
      requires state == OPENING ==>
                 Max(0.0, spot.filled - spot.feeBase) == world.Residue() && (world.quiet ==> world.perpShort == 0.0)
      modifies this`state, this`position, world`disk, world`wallet, world`perpShort, world`inFlight, world`trace
      ensures Valid() && Ran() && state in {FLAT, HALTED}
      ensures world.quiet ==> world.perpShort == old(world.perpShort)
      ensures old(state) == HALTED ==> HoldingsKept()
      ensures position.Some? ==>
                && state == HALTED && position.value.perp == NoLeg.(symbol := expectedPerp)
                && (position.value.spot == spot
                    || (old(state) == OPENING && position.value.spot.filled > 0.0
                        && Held(position.value) <= world.Residue() <= Held(position.value) + world.spotStep))
      ensures world.quiet && world.exactFills && old(state) == OPENING ==> world.Residue() >= 0.0
      ensures old(state) == OPENING && SnapToLot(old(world.Residue()), world.spotStep) > 0.0 ==>
                SoldOut(d, old(world.Residue()))
    {
      hide RestartSafe, DiskSafe, SnapToLot, WholeLots;
      if state == HALTED {
        d := RecordNaked(spot);
        return;
      }
      state := UNWINDING;
      var wanted := SpotSellable(Max(0.0, spot.filled - spot.feeBase));
      var closed := Take(Spot, Sell, wanted);
      if closed.None? || closed.value.filled <= 0.0 {
        d := RecordNaked(spot);
        return;
      }
      var left := wanted - closed.value.filled;
      if left > 0.0 {
        d := RecordNaked(spot.(filled := left, feeBase := 0.0));
        return;
      }
      d := RecordSold();
    }

    /** The coin that is still naked, written down beside a hedge of nothing; the book stops. */
    method RecordNaked(spot: Leg) returns (d: Report)
      requires world.Valid()
      modifies this`state, this`position, world`disk, world`wallet, world`perpShort, world`trace
      ensures Valid() && Ran() && HoldingsKept() && state == HALTED && d == Halted
      ensures position == Some(Position(spot, NoLeg.(symbol := expectedPerp)))
    {
      position := Some(Position(spot, NoLeg.(symbol := expectedPerp)));
      d := Halt();
    }

    /** Nothing sellable is left: flat, if the ledger takes it. */
    method RecordSold() returns (d: Report)
      requires world.Valid() && !world.inFlight && (world.mode == ACQUIRE ==> world.Residue() <= world.spotStep)
      requires world.quiet ==> world.perpShort == 0.0
      modifies this`state, this`position, world`disk, world`wallet, world`perpShort, world`trace
      ensures Valid() && Ran() && HoldingsKept()
      ensures position.None? && if d == Unwound then state == FLAT else d == Halted && state == HALTED
      ensures world.obliging ==> d == Unwound
    {
      position, state := None, FLAT;
      var ok := Record();
      d := if ok then Unwound else Halted;
    }

    /**
     * The ACQUIRE entry (`_open` from the sized quantity on). The intent is written BEFORE the spot buy. However it
     * ends, on a quiet account with exact fills the short is no larger than the coin this cycle holds.
     */
    method OpenAcquire(qty: real, mark: real, minQty: real, minNotional: real)
      returns (d: Report, ghost bought: Option<Leg>)
      requires Valid() && state == FLAT && world.mode == ACQUIRE && qty > 0.0
      modifies this, world
      ensures Valid() && old(world.trace) <= world.trace
      ensures world.quiet && world.exactFills ==> world.perpShort <= world.Residue()
      ensures bought.None? ==> state != HEDGED && !world.obliging
      ensures bought.Some? ==> HedgedOrExcused(bought.value, mark, minQty, minNotional)
      ensures bought.Some? ==> bought.value.filled > 0.0 && (world.obliging ==> bought.value.filled == qty)
    {
      hide RestartSafe, Covered, SnapToLot, DeltaFraction;
      bought := None;
      world.BeginCycle(world.wallet);
      state := OPENING;
      var ok := Record();
      if !ok { d := Halted; return; }
      var spot := Take(Spot, Buy, qty);
      if spot.None? || spot.value.filled <= 0.0 {
        d := Refuse();
        return;
      }
      if !spot.value.feeKnown {
        position := Some(Position(spot.value, NoLeg.(symbol := expectedPerp)));
        d := Halt();
        return;
      }
      bought := spot;
      d := HedgeBoughtSpot(spot.value, mark, minQty, minNotional);
    }

    /** The hedge a bought leg needs: its net coin, on the perp lot. */
    function HedgeFor(spot: Leg): real { SnapToLot(Max(0.0, spot.filled - spot.feeBase), world.perpStep) }

    /**
     * The book ends hedged at exactly that size; on an obliging venue it can only fail to when the size is below the
     * venue's minima, or a hedge of that size would sit outside the delta band.
     */
    ghost predicate HedgedOrExcused(spot: Leg, mark: real, minQty: real, minNotional: real)
      reads this
    {
      var hedge := HedgeFor(spot);
      && (state == HEDGED ==>
            position.Some? && position.value.spot == spot
            && (world.obliging || world.exactFills ==> position.value.perp.filled <= hedge)
            && (world.obliging ==> position.value.perp.filled == hedge))
      && (world.obliging && state != HEDGED ==>
            hedge < minQty || hedge <= 0.0 || hedge * mark < minNotional || OutsideBand(spot, hedge, mark))
    }

    ghost predicate OutsideBand(spot: Leg, hedge: real, mark: real)
    {
      exists perp: Leg :: perp.filled == hedge && DeltaFraction(Position(spot, perp), mark) > deltaBand
    }

    /** The second leg: short what is left after the base fee, on the lot, or undo the first. */
    method HedgeBoughtSpot(spot: Leg, mark: real, minQty: real, minNotional: real) returns (d: Report)
      requires world.Valid() && world.mode == ACQUIRE && state == OPENING && position.None?
      requires !world.inFlight && !ReadsClean(world.disk)
      requires spot.filled - spot.feeBase == world.Residue() >= 0.0 && SaneNumbers(spot) && spot.symbol == expectedSpot
      requires world.quiet ==> world.perpShort == 0.0
      modifies this`state, this`position, world`disk, world`wallet, world`perpShort, world`inFlight, world`trace
      ensures Valid() && Ran()
      ensures world.quiet && world.exactFills ==> world.perpShort <= world.Residue()
      ensures HedgedOrExcused(spot, mark, minQty, minNotional)
    {
      hide SnapToLot, WholeLots, RestartSafe;
      var net := Max(0.0, spot.filled - spot.feeBase);
      SnapBounds(net, world.perpStep);
      var hedge := SnapToLot(net, world.perpStep);
      if hedge < minQty || hedge <= 0.0 || hedge * mark < minNotional {
        d := EmergencyUnwindSpot(spot);
        return;
      }
      var perp := Take(Linear, Sell, hedge);
      if perp.None? || perp.value.filled <= 0.0 {
        d := EmergencyUnwindSpot(spot);
        return;
      }
      d := PairUp(spot, perp.value, mark);
    }

    /** Both legs landed: a pair outside the delta band is undone, any other is the book's. */
    method PairUp(spot: Leg, perp: Leg, mark: real) returns (d: Report)
      requires world.Valid() && world.mode == ACQUIRE && state == OPENING && !world.inFlight && !ReadsClean(world.disk)
      requires spot.filled - spot.feeBase == world.Residue() >= 0.0 && SaneNumbers(spot) && SaneNumbers(perp)
               && perp.filled > 0.0 && spot.symbol == expectedSpot && perp.symbol == expectedPerp
      requires world.quiet ==> world.perpShort == perp.filled
      requires world.exactFills ==> perp.filled <= world.Residue()
      modifies this`state, this`position, world`disk, world`wallet, world`perpShort, world`inFlight, world`trace
      ensures Valid() && Ran()
      ensures world.quiet && world.exactFills ==> world.perpShort <= world.Residue()
      ensures state == HEDGED ==> position == Some(Position(spot, perp))
      ensures world.obliging && state != HEDGED ==> DeltaFraction(Position(spot, perp), mark) > deltaBand
    {
      hide RestartSafe, DeltaFraction, DiskSafe;
      var pair := Position(spot, perp);
      position := Some(pair);
      if DeltaFraction(pair, mark) > deltaBand {
        d := UnwindImpl();
        return;
      }
      d := RecordPair();
    }

    method RecordPair() returns (d: Report)
      requires world.Valid() && Tracked()
      modifies this`state, world`disk, world`wallet, world`perpShort, world`trace
      ensures Valid() && Ran() && HoldingsKept()
      ensures if d == Opened then state == HEDGED else d == Halted && state == HALTED
      ensures world.obliging ==> d == Opened
    {
      state := HEDGED;
      var ok := Record();
      d := if ok then Opened else Halted;
    }

    /**
     * An entry order that may rest first (`_fire(patient=True)`): the resting part, then the remainder crossed. It
     * can return the resting part with the book already HALTED by the crossing part.
     */
    method FirePatient(qty: real) returns (leg: Option<Leg>)
      requires world.Valid() && !world.inFlight && state == OPENING && world.mode == OVERLAY && qty > 0.0
      modifies this`state, world`disk, world`wallet, world`perpShort, world`inFlight, world`trace
      ensures Ran() && !world.inFlight && state in {OPENING, HALTED}
      ensures leg.Some? ==> SaneNumbers(leg.value) && leg.value.symbol == expectedPerp
                            && (world.exactFills || state == HALTED ==> leg.value.filled <= qty)
      ensures state == OPENING && world.quiet ==>
                world.perpShort == old(world.perpShort) + (if leg.Some? then leg.value.filled else 0.0)
      ensures world.obliging ==> state == OPENING && leg.Some? && leg.value.filled == qty
    {
      var maker := Take(Linear, Sell, qty);
      if maker.None? || maker.value.filled > qty { return maker; }
      var remainder := SnapToLot(qty - maker.value.filled, world.perpStep);
      SnapBounds(qty - maker.value.filled, world.perpStep);
      var taker := Take(Linear, Sell, remainder);
      leg := if taker.None? then maker else Some(MergeLegs(maker.value, taker.value));
    }

    /** The OVERLAY entry: one short, sized inside the inventory just read, and any excess bought straight back. */
    method OpenOverlay(cap: real, mark: real, spotMark: real, minQty: real, minNotional: real)
      returns (d: Report, ghost seen: real)
      requires Valid() && state == FLAT && world.mode == OVERLAY && mark > 0.0 && cap > 0.0 && spotMark > 0.0
      modifies this, world
      ensures Valid() && old(world.trace) <= world.trace
      ensures var qty := SnapToLot(Min(cap / mark, seen), world.perpStep);
              && (state == HEDGED ==>
                    && position.value.perp.filled <= seen
                    && position.value.spot == Leg(expectedSpot, position.value.perp.filled, spotMark, 0.0, true))
              && (world.obliging && seen > 0.0 && qty > 0.0 && qty >= minQty && qty * mark >= minNotional ==>
                    state == HEDGED && d == Opened && position.value.perp.filled == qty)
    {
      hide RestartSafe, WholeLots;
      seen := 0.0;
      var inventory := world.ReadInventory();
      if inventory.Some? { seen := inventory.value; }
      if inventory.None? || inventory.value <= 0.0 { d := Refused; return; }
      var wanted := Min(cap / mark, inventory.value);
      SnapBounds(wanted, world.perpStep);
      var qty := SnapToLot(wanted, world.perpStep);
      if qty < minQty || qty <= 0.0 || qty * mark < minNotional { d := Refused; return; }
      d := ShortInventory(qty, inventory.value, spotMark);
    }

    /** What is left of an oversold short once its excess, on the lot, is bought straight back. */
    method BuyBackExcess(short: Leg, inventory: real) returns (left: Leg)
      requires world.Valid() && !world.inFlight && state in {OPENING, HALTED} && world.mode == OVERLAY
      requires SaneNumbers(short) && short.filled > 0.0 && inventory > 0.0 && short.symbol == expectedPerp
      requires state == HALTED ==> short.filled <= inventory
      requires state == OPENING && world.quiet ==> world.perpShort == short.filled
      modifies this`state, world`disk, world`wallet, world`perpShort, world`inFlight, world`trace
      ensures Ran() && !world.inFlight && SaneNumbers(left) && state in {OPENING, HALTED}
      ensures old(state) == HALTED ==> state == HALTED
      ensures left == short.(filled := left.filled) && left.filled <= short.filled
      ensures state == OPENING && world.quiet ==> world.perpShort == left.filled
      ensures short.filled <= inventory ==> left == short && state == old(state)
      ensures world.obliging && world.quiet && short.filled > inventory ==>
                left.filled == short.filled - SnapToLot(short.filled - inventory, world.perpStep)
    {
      left := short;
      if short.filled > inventory {
        SnapBounds(short.filled - inventory, world.perpStep);
        var excess := SnapToLot(short.filled - inventory, world.perpStep);
        var closed := Take(Linear, Buy, excess);
        if closed.Some? { left := short.(filled := short.filled - closed.value.filled); }
      }
    }

    /** `_open_overlay`: short the perp against coin the client already holds. */
    method ShortInventory(qty: real, inventory: real, spotMark: real) returns (d: Report)
      requires Valid() && state == FLAT && world.mode == OVERLAY && 0.0 < qty <= inventory && spotMark > 0.0
      modifies this, world
      ensures Valid() && Ran()
      ensures state == HEDGED ==> position.value.perp.filled <= inventory && d == Opened
      ensures state == HEDGED ==>
                position.value.spot == Leg(expectedSpot, position.value.perp.filled, spotMark, 0.0, true)
      ensures world.obliging ==> state == HEDGED && position.value.perp.filled == qty
    {
      hide SnapToLot, WholeLots, RestartSafe, DiskSafe, Held;
      state := OPENING;
      var perp := FirePatient(qty);
      if perp.None? || perp.value.filled <= 0.0 {
        d := Refuse();
        return;
      }
      var short := BuyBackExcess(perp.value, inventory);
      d := RecordSlice(short, inventory, spotMark);
    }

    /** The short and the slice of the client's coin it covers; one that is still oversold is written down and halts. */
    method RecordSlice(short: Leg, inventory: real, spotMark: real) returns (d: Report)
      requires world.Valid() && !world.inFlight && state in {OPENING, HALTED} && world.mode == OVERLAY
      requires SaneNumbers(short) && spotMark > 0.0 && short.symbol == expectedPerp
      requires state == OPENING && world.quiet && short.filled <= inventory ==> world.perpShort == short.filled
      modifies this`state, this`position, world`disk, world`wallet, world`perpShort, world`trace
      ensures Valid() && Ran()
      ensures state == HEDGED ==> position.value.perp.filled == short.filled <= inventory && d == Opened
      ensures world.obliging && old(state) == OPENING && short.filled <= inventory ==> state == HEDGED
      ensures state != HEDGED ==> state == HALTED && d == Halted
      ensures position == Some(Position(Leg(expectedSpot, Min(short.filled, inventory), spotMark, 0.0, true), short))
    {
      var coin := Leg(expectedSpot, inventory, spotMark, 0.0, true);
      if short.filled > inventory {
        position := Some(Position(coin, short));
        d := Halt();
        return;
      }
      position := Some(Position(coin.(filled := short.filled), short));
      if state == HALTED {
        d := Halt();
        return;
      }
      state := HEDGED;
      var ok := Record();
      d := if ok then Opened else Halted;
    }

    /** Coin and short are less than a perp lot apart. */
    predicate BelowALot(p: Position) reads this
    {
      SnapToLot(if Held(p) > p.perp.filled then Held(p) - p.perp.filled else p.perp.filled - Held(p),
                world.perpStep) <= 0.0
    }

    /** `_rebalance`: bring delta back by trading the perp only. None means no lot could correct it. */
    method Rebalance() returns (d: Option<Report>)
      requires Valid() && state == HEDGED
      modifies this`state, this`position, world`disk, world`wallet, world`perpShort, world`inFlight, world`trace
      ensures Valid() && Ran()
      ensures d.None? ==> state == HEDGED && position == old(position) && BelowALot(position.value)
      ensures d.Some? && state == HEDGED ==> position.value.perp.filled != old(position.value.perp.filled)
      ensures state == HEDGED && (world.exactFills || world.mode == OVERLAY) ==>
                && position.value.perp.filled <= Max(old(position.value.perp.filled), Held(position.value))
                && position.value.spot == old(position.value.spot)
      ensures world.obliging && world.quiet ==>
                var pair := old(position.value);
                var delta := Held(pair) - pair.perp.filled;
                var lots := SnapToLot(Abs(delta), world.perpStep);
                if lots <= 0.0 then d.None?
                else state == HEDGED && d == Some(Rebalanced) && position.value.spot == pair.spot
                     && position.value.perp.filled == pair.perp.filled + (if delta > 0.0 then lots else -lots)
      ensures d != Some(Hold)
    {
      hide SnapToLot, WholeLots, RestartSafe, DiskSafe;
      var pair := position.value;
      var delta := Held(pair) - pair.perp.filled;
      var side := if delta > 0.0 then Sell else Buy;
      var step := world.ReadStep(Linear);
      if step.None? {
        var r := Halt();
        return Some(r);
      }
      SnapBounds(Abs(delta), step.value);
      var qty := SnapToLot(Abs(delta), step.value);
      if qty <= 0.0 { return None; }
      var fill := Take(Linear, side, qty);
      if fill.None? || fill.value.filled <= 0.0 {
        var r := Halt();
        return Some(r);
      }
      var r := RecordPerp(if side == Sell then MergeLegs(pair.perp, fill.value)
                          else pair.perp.(filled := pair.perp.filled - fill.value.filled));
      d := Some(r);
    }

    /** The pair as a correction of its perp left it, written down. */
    method RecordPerp(perp: Leg) returns (d: Report)
      requires world.Valid() && !world.inFlight && !ReadsClean(world.disk) && position.Some? && SaneNumbers(perp)
      requires position.value.spot.filled >= 0.0 && (world.mode == ACQUIRE ==> Held(position.value) == world.Residue())
      requires perp.symbol == expectedPerp && position.value.spot.symbol == expectedSpot
      requires world.mode == ACQUIRE ==> SaneNumbers(position.value.spot)
      requires world.quiet ==> perp.filled == world.perpShort
      requires world.exactFills || world.mode == OVERLAY ==>
                 Covered(world.mode, position.value.(perp := perp), world.perpStep)
      modifies this`state, this`position, world`disk, world`wallet, world`perpShort, world`trace
      ensures Valid() && Ran() && position == Some(old(position.value).(perp := perp))
      ensures if state == HEDGED then d == Rebalanced else state == HALTED && d == Halted
      ensures world.obliging ==> state == HEDGED
    {
      position, state := Some(position.value.(perp := perp)), HEDGED;
      var ok := Record();
      d := if ok then Rebalanced else Halted;
    }

    /**
     * `_check_inventory_cover`: is the coin this short was written against still there? None means the tick goes on.
     * A tick it leaves HEDGED has a short no larger than the inventory it read plus one perp lot.
     */
    method CheckInventoryCover() returns (d: Option<Report>, ghost seen: real)
      requires Valid() && state == HEDGED
      modifies this`state, this`position, world`disk, world`wallet, world`perpShort, world`inFlight, world`trace
      ensures Valid() && Ran() && state in {FLAT, HEDGED, HALTED}
      ensures d.None? ==> state == HEDGED && position == old(position)
      ensures state == HEDGED && world.mode == OVERLAY ==> position.value.perp.filled <= seen + world.perpStep
      ensures world.mode != OVERLAY ==> d.None?
      ensures world.obliging && world.quiet ==> state != HALTED
      ensures world.obliging && seen >= old(position.value.perp.filled) ==> d.None?
      ensures d.None? && world.mode == OVERLAY && seen < position.value.perp.filled ==>
                var excess := position.value.perp.filled - seen;
                SnapToLot(excess, world.perpStep) <= 0.0
                && (excess <= position.value.perp.filled * deltaBand || world.perpStep <= 0.0)
      ensures world.obliging && world.mode == OVERLAY && seen < old(position.value.perp.filled) ==>
                var excess := old(position.value.perp.filled) - seen;
                SnapToLot(excess, world.perpStep) <= 0.0 && excess <= old(position.value.perp.filled) * deltaBand ==>
                  d.None?
      ensures d != Some(Hold)
    {
      hide RestartSafe, DiskSafe, SettledAs;
      seen := 0.0;
      if world.mode != OVERLAY { return None, seen; }
      var inventory := world.ReadInventory();
      if inventory.None? || inventory.value < 0.0 {
        var r := Halt();
        return Some(r), seen;
      }
      seen := inventory.value;
      var hedged := position.value.perp.filled;
      if inventory.value >= hedged { return None, seen; }
      var excess := hedged - inventory.value;
      var step := world.ReadStep(Linear);
      if step.None? {
        var r := Halt();
        return Some(r), seen;
      }
      SnapBounds(excess, step.value);
      var buy := SnapToLot(excess, step.value);
      if buy <= 0.0 && excess > hedged * deltaBand { buy := Min(step.value, hedged); }
      if buy <= 0.0 { return None, seen; }
      var r := BuyBackCover(inventory.value, buy);
      d := Some(r);
    }

    /** What is naked is bought back. */
    method BuyBackCover(inventory: real, buy: real) returns (d: Report)
      requires Valid() && state == HEDGED && world.mode == OVERLAY
      requires inventory >= 0.0 && 0.0 < buy <= position.value.perp.filled
      modifies this`state, this`position, world`disk, world`wallet, world`perpShort, world`inFlight, world`trace
      ensures Valid() && Ran() && state in {FLAT, HEDGED, HALTED}
      ensures state == HEDGED ==> position.value.perp.filled <= inventory + world.perpStep
      ensures state == HEDGED && world.quiet ==> position.value.perp.filled < old(position.value.perp.filled)
      ensures world.obliging && world.quiet && old(position.value.perp.filled) - buy <= inventory + world.perpStep ==>
                state != HALTED
      ensures d != Hold
    {
      hide RestartSafe, DiskSafe, SettledAs, SnapToLot;
      var hedged := position.value.perp.filled;
      var closed := Take(Linear, Buy, buy);
      if closed.None? || closed.value.filled <= 0.0 {
        d := Halt();
        return;
      }
      ghost var shown;
      d, shown := SettleCover(inventory, hedged - closed.value.filled);
    }

    /** What the buy-back is taken to have left, by what the venue shows of it or, unread, by the fills alone. */
    ghost predicate SettledAs(pair: Position, shown: Option<real>, left: real, inventory: real) reads this, world
    {
      match shown
      case None =>
        state == HALTED
        && position == Some(if left > 0.0 then pair.(perp := pair.perp.(filled := left)) else pair)
      case Some(short) =>
        if short <= 0.0 then position.None? && state in {FLAT, HALTED}
        else
          && position.Some? && position.value.perp == pair.perp.(filled := short)
          && position.value.spot == pair.spot.(filled := Min(short, inventory), feeBase := 0.0)
          && (state == HEDGED ==> short <= inventory + Max(0.0, world.perpStep))
          && (world.obliging && state == HALTED ==> short > inventory + Max(0.0, world.perpStep))
    }

    /** What the buy-back left: flat, smaller and covered, or still naked and halted. */
    method SettleCover(inventory: real, left: real) returns (d: Report, ghost shown: Option<real>)
      requires InOurMarkets()
      requires world.Valid() && world.mode == OVERLAY && !world.inFlight && !ReadsClean(world.disk)
      requires state == HEDGED && position.Some? && inventory >= 0.0 && left >= 0.0
      requires SaneNumbers(position.value.perp) && position.value.perp.filled > 0.0
      requires Covered(OVERLAY, position.value, world.perpStep)
      requires world.quiet ==> left == world.perpShort
      modifies this`state, this`position, world`disk, world`wallet, world`perpShort, world`trace
      ensures Valid() && Ran() && state in {FLAT, HEDGED, HALTED}
      ensures state == HEDGED ==> position.value.perp.filled <= inventory + world.perpStep
      ensures SettledAs(old(position.value), shown, left, inventory)
      ensures shown.Some? ==> shown.value >= left && (world.quiet ==> shown.value == left)
      ensures world.obliging ==> shown.Some?
      ensures world.obliging && world.quiet && left <= inventory + world.perpStep ==> state != HALTED
      ensures d != Hold
    {
      var pair := position.value;
      var confirmed, _ := ConfirmedShortLeft(Max(0.0, left));
      shown := confirmed;
      if confirmed.None? {
        if left > 0.0 { position := Some(pair.(perp := pair.perp.(filled := left))); }
        d := Halt();
        return;
      }
      var remaining := if confirmed.value > 0.0 then Max(left, confirmed.value) else left;
      if remaining <= 0.0 {
        position, state := None, FLAT;
      } else if remaining > inventory + Max(0.0, world.perpStep) {
        d := PartialClose(remaining, inventory);
        return;
      } else {
        position := Some(Position(pair.spot.(filled := Min(remaining, inventory), feeBase := 0.0),
                                  pair.perp.(filled := remaining)));
      }
      var ok := Record();
      d := if !ok then Halted else if state == FLAT then Unwound else Rebalanced;
    }

    /** Of a pair that is proven closed elsewhere the short is written off; any other is left as it is. */
    twostate predicate ClosedElsewhere(new proof: Option<Proof>) reads this, world
      requires old(position).Some?
    {
      if world.mode == ACQUIRE && proof.Some? && Proves(proof.value, old(position.value.perp.filled))
      then position.Some? && position.value.perp.filled == 0.0
      else position == old(position) && HoldingsKept()
    }

    /** The pair an external close left as a naked long, if the venue's own records prove it; None when they do not. */
    method SoldIfClosedElsewhere() returns (d: Option<Report>, ghost proof: Proof)
      requires Valid() && state == HEDGED
      modifies this`state, this`position, world`disk, world`wallet, world`perpShort, world`inFlight, world`trace
      ensures Valid() && Ran()
      ensures d.None? ==> Untouched()
      ensures d.Some? ==> state == HALTED && position.Some? && position.value.perp.filled == 0.0
      ensures d.Some? <==> world.mode == ACQUIRE && Proves(proof, old(position.value.perp.filled))
      ensures world.quiet ==> d.None?
      ensures d.Some? ==> d.value in {Unwound, Unwinding, Halted}
    {
      hide RestartSafe, DiskSafe;
      proof := Proof(None, None, 0.0);
      if world.mode != ACQUIRE { return None, proof; }
      var elsewhere;
      elsewhere, proof := PerpConfirmedClosed(position.value.perp.filled);
      if !elsewhere { return None, proof; }
      state := UNWINDING;
      var r := SpotAfterPerpClosed(Held(position.value));
      d := Some(r);
    }

    /** Nothing of the book or the world has changed. */
    twostate predicate Untouched() reads this, world
    {
      && state == old(state) && position == old(position) && world.disk == old(world.disk)
      && world.wallet == old(world.wallet)
      && world.perpShort == old(world.perpShort) && world.inFlight == old(world.inFlight)
      && world.trace == old(world.trace)
    }

    /**
     * The first of a tick's exits: what the venue says of the margin and, if that is ample, of the distance to
     * liquidation. Only two ample answers let the tick go on; a thin one unwinds, one that cannot be read stops.
     */
    method CheckMargin()
      returns (d: Option<Report>, ghost margin: Gate, ghost distance: Gate, ghost proof: Option<Proof>)
      requires Valid() && state == HEDGED
      modifies this`state, this`position, world`disk, world`wallet, world`perpShort, world`inFlight, world`trace
      ensures Valid() && Ran()
      ensures d.None? ==> Untouched()
      ensures d.Some? ==> state != HEDGED
      ensures d.None? <==> margin == Ample && distance == Ample
      ensures margin == Unreadable || distance == Unreadable ==> state == HALTED
      ensures proof.Some? <==> margin == Unreadable
      ensures margin == Unreadable || distance == Unreadable ==>
                ClosedElsewhere(proof)
      ensures !Staged() && Orderly() && old(position.value.perp.filled) > 0.0
              && (margin == Thin || (margin == Ample && distance == Thin)) ==>
                d == Some(Unwound) && state == FLAT && world.perpShort == 0.0
      ensures world.obliging ==> margin != Unreadable && distance != Unreadable
      ensures Orderly() && old(position.value.perp.filled) > 0.0 ==> state != HALTED
      ensures d.Some? ==> d.value in {Unwound, Unwinding, Halted}
    {
      hide RestartSafe, DiskSafe, Covered;
      margin, distance, proof := Ample, Ample, None;
      var shown := ReadGate();
      margin := shown;
      if shown == Unreadable {
        ghost var asked;
        d, asked := SoldIfClosedElsewhere();
        proof := Some(asked);
        if d.None? {
          var r := Halt();
          d := Some(r);
        }
        return;
      }
      var room := Ample;
      if shown == Ample { room := ReadGate(); }
      distance := room;
      if shown == Thin || room == Thin {
        var r := UnwindImpl();
        d := Some(r);
      } else if room == Unreadable {
        var r := Halt();
        d := Some(r);
      } else {
        d := None;
      }
    }

    /** An obliging, quiet account whose wallet held nothing but its own when the cycle began. */
    twostate predicate Orderly() reads world { world.obliging && world.quiet && old(world.base) >= 0.0 }

    method ReadGate() returns (g: Gate)
      ensures world.obliging ==> g != Unreadable
    {
      g := *;
      if world.obliging && g == Unreadable { g := Ample; }
    }

    /**
     * `_check_venue_position`: does the venue hold the short the book recorded? Never corrected by rewriting the
     * ledger.
     */
    method CheckVenuePosition() returns (d: Option<Report>, ghost shown: Option<real>, ghost proof: Option<Proof>)
      requires Valid() && state == HEDGED
      modifies this`state, this`position, world`disk, world`wallet, world`perpShort, world`inFlight, world`trace
      ensures Valid() && Ran()
      ensures d.None? ==> Untouched()
      ensures d.Some? ==> state == HALTED
      ensures d.None? <==> shown == Some(old(position.value.perp.filled))
      ensures proof.Some? <==> d.Some? && shown == Some(0.0)
      ensures d.Some? ==> ClosedElsewhere(proof)
      ensures world.quiet && shown.Some? ==> shown.value == old(world.perpShort)
      ensures world.obliging ==> shown.Some?
      ensures world.obliging && world.quiet ==> d.None?
      ensures d.Some? ==> d.value in {Unwound, Unwinding, Halted}
    {
      hide RestartSafe, DiskSafe, Covered;
      var venue := world.ReadShort();
      shown, proof := venue, None;
      if venue == Some(position.value.perp.filled) { return None, shown, proof; }
      d := None;
      if venue.Some? && venue.value <= 0.0 {
        ghost var asked;
        d, asked := SoldIfClosedElsewhere();
        proof := Some(asked);
      }
      if venue.None? || venue.value > 0.0 || d.None? {
        var r := Halt();
        d := Some(r);
      }
    }

    /**
     * A tick of a held pair (`on_candle`): margin, the venue's short, the cover, drift, the write of a print just
     * booked, then the inversion exit. In an overlay that ends HEDGED the short is at most the inventory this tick read
     * plus one perp lot.
     */
    method HeldTick(mark: real, booked: bool, inverted: bool) returns (d: Report, ghost seen: real)
      requires Valid() && state == HEDGED
      modifies this`state, this`position, world`disk, world`wallet, world`perpShort, world`inFlight, world`trace
      ensures Valid() && Ran()
      ensures state == HEDGED && world.mode == OVERLAY ==> position.value.perp.filled <= seen + world.perpStep
      ensures state == HEDGED && world.mode == ACQUIRE && world.exactFills && world.quiet ==>
                world.perpShort <= world.Residue()
      ensures d == Hold ==> !inverted && state == HEDGED && position == old(position)
                            && (booked ==> world.disk == Some(ToState()))
                            && (DeltaFraction(position.value, mark) <= deltaBand || BelowALot(position.value))
      ensures d == Rebalanced && world.mode == ACQUIRE ==> DeltaFraction(old(position.value), mark) > deltaBand
      ensures Orderly() && old(position.value.perp.filled) > 0.0 ==> state != HALTED
    {
      hide RestartSafe, DeltaFraction, DiskSafe;
      seen := 0.0;
      var margin, _, _, _ := CheckMargin();
      if margin.Some? { return margin.value, seen; }
      var mismatch, _, _ := CheckVenuePosition();
      if mismatch.Some? { return mismatch.value, seen; }
      var cover;
      cover, seen := CheckInventoryCover();
      if cover.Some? { return cover.value, seen; }
      if DeltaFraction(position.value, mark) > deltaBand {
        var rebalanced := Rebalance();
        if rebalanced.Some? { return rebalanced.value, seen; }
      }
      d := BookAndExit(booked, inverted);
    }

    /** The end of a tick: a print booked is written down, and an inverted market is left. */
    method BookAndExit(booked: bool, inverted: bool) returns (d: Report)
      requires Valid() && state == HEDGED
      modifies this`state, this`position, world`disk, world`wallet, world`perpShort, world`inFlight, world`trace
      ensures Valid() && Ran()
      ensures state == HEDGED ==> d == Hold && !inverted && position == old(position)
      ensures d in {Hold, Unwound, Unwinding, Halted}
      ensures d == Hold ==> state == HEDGED && (booked ==> world.disk == Some(ToState()))
      ensures Orderly() && old(position.value.perp.filled) > 0.0 ==> state != HALTED
    {
      hide RestartSafe, Covered;
      if booked {
        var ok := Record();
        if !ok { return Halted; }
      }
      if inverted {
        d := UnwindImpl();
        return;
      }
      d := Hold;
    }

    /**
     * A tick without a usable market view: a staged close goes on, and a held pair is still checked against the venue.
     */
    method TickWithoutView() returns (d: Option<Report>)
      requires Valid() && state in {HEDGED, UNWINDING}
      modifies this`state, this`position, world`disk, world`wallet, world`perpShort, world`inFlight, world`trace
      ensures Valid() && Ran()
      ensures d.None? ==> old(state) == HEDGED && Untouched()
    {
      hide RestartSafe, DiskSafe, Covered;
      if state == UNWINDING {
        var r, _ := StagedClose();
        return Some(r);
      }
      var mismatch, _, _ := CheckVenuePosition();
      if mismatch.Some? { return mismatch; }
      var margin, _, _, _ := CheckMargin();
      d := margin;
    }

    /**
     * `cold_start` of a new process on the ledger and the venue as they are: CLEAN starts flat, RESUME takes the
     * recorded pair (mid-close where its durable log is still open), HALT stops. It needs nothing of the previous
     * process but the world it left. While a spot order of unknown fate is still out it never comes up CLEAN.
     */
    method Restart(openOrders: nat, closing: bool) returns (d: Report)
      requires world.Valid() && position.None? && (closing ==> staged)
      modifies this`state, this`position, world`base, world`disk, world`wallet, world`perpShort, world`trace
      ensures world.Valid() && old(world.trace) <= world.trace && world.inFlight == old(world.inFlight)
      ensures d == ColdStarted(PlanColdStart(old(world.disk), old(world.perpShort), old(world.wallet), openOrders,
                                             Some(expectedSpot), Some(expectedPerp), closing))
      ensures !(world.inFlight && d.decision.Resume?) ==> Valid()
      ensures world.inFlight ==> !d.decision.Clean?
      ensures match d.decision
              case Clean => state == FLAT && position.None?
              case Resume(mid) =>
                && position == old(world.disk.value.position)
                && (state == (if mid then UNWINDING else HEDGED) || (state == HALTED && !world.obliging))
              case Halt => state == HALTED && world.disk == old(world.disk)
    {
      hide RestartSafe, Held;
      var decision := PlanColdStart(world.disk, world.perpShort, world.wallet, openOrders,
                                    Some(expectedSpot), Some(expectedPerp), closing);
      d := ColdStarted(decision);
      match decision {
        case Clean =>
          position, state := None, FLAT;
          RestoreAllowance();
        case Resume(mid) => TakeUp(world.disk.value.position.value, mid);
        case Halt => state := HALTED;
      }
    }

    /** `_restore_allowance`: a ledger that cannot say what the day has spent is rewritten so that it can. */
    method RestoreAllowance()
      requires world.Valid()
               && DiskSafe(Some(ToState()), world.mode, world.Residue(), world.spotStep, world.perpStep,
                           world.exactFills)
      requires world.inFlight ==> !ReadsClean(Some(ToState()))
      modifies world`disk, world`wallet, world`perpShort, world`trace
      ensures Ran() && HoldingsKept() && (world.disk == old(world.disk) || world.disk == Some(ToState()))
    {
      var unreadable: bool := *;
      if unreadable { var _ := world.Persist(ToState()); }
    }

    /** `restore` and the prints missed while down: the recorded pair is the book's again, and may be written anew. */
    method TakeUp(pair: Position, mid: bool)
      requires world.Valid() && RecordsPair(world.disk) && world.disk.value.position == Some(pair)
      requires SaneNumbers(pair.perp) && SaneNumbers(pair.spot) && world.disk.value.mode == world.mode
      requires pair.spot.symbol == expectedSpot && pair.perp.symbol == expectedPerp
      requires !mid ==> world.disk.value.state in {FLAT, HEDGED, DRIFTED}
      requires if mid then Staged() else world.quiet ==> pair.perp.filled == world.perpShort
      modifies this`state, this`position, world`base, world`disk, world`wallet, world`perpShort, world`trace
      ensures world.Valid() && old(world.trace) <= world.trace && world.inFlight == old(world.inFlight)
      ensures world.inFlight || Valid()
      ensures position == Some(pair)
              && (state == (if mid then UNWINDING else HEDGED) || (state == HALTED && !world.obliging))
    {
      hide RestartSafe, Held;
      position, state := Some(pair), HEDGED;
      world.BeginCycle(world.wallet - Held(pair));
      RestoreAllowance();
      if mid { state := UNWINDING; }
      var caughtUp: bool := *;
      if caughtUp {
        var ok := world.Persist(ToState());
        if !ok { state := HALTED; }
      }
    }
  }

  /**
   * A process stops and another starts on what it left, with no order open. A held pair comes up as it was, on a quiet
   * account whose venue still holds it. Where the last write was the book's own, a flat book comes up clean, a staged
   * close goes on, and a halt stays.
   */
  method StopAndStart(engine: CarryEngine, closing: bool) returns (next: CarryEngine, d: Report)
    requires engine.Valid() && !engine.world.inFlight
    requires closing ==> engine.staged
    modifies engine.world
    ensures next.world == engine.world && next.world.Valid() && old(engine.world.trace) <= next.world.trace
    ensures old(engine.state == HEDGED && engine.Recoverable()) ==>
              d == ColdStarted(Resume(false)) && next.position == old(engine.position)
              && (next.world.obliging ==> next.state == HEDGED)
    ensures old(engine.state == FLAT && engine.Written() && engine.world.perpShort == 0.0) ==>
              d == ColdStarted(Clean) && next.state == FLAT && next.position.None?
    ensures old(engine.state == UNWINDING && engine.Written() && closing && Believable(engine.position.value)) ==>
              d == ColdStarted(Resume(true)) && next.position == old(engine.position)
              && (next.world.obliging ==> next.state == UNWINDING)
    ensures old(engine.state == HALTED && engine.Written()) ==>
              d == ColdStarted(Decision.Halt) && next.state == HALTED
  {
    var world := engine.world;
    PlanIff(world.disk, world.perpShort, world.wallet, 0, Some(engine.expectedSpot), Some(engine.expectedPerp),
            closing);
    next := new CarryEngine(world, engine.deltaBand, engine.expectedSpot, engine.expectedPerp, engine.staged);
    d := next.Restart(0, closing);
  }

  /**
   * Any life of the account: whatever the process does next, and however often it is restarted, every world any of
   * its effects left behind restarts safely.
   */
  method Live(world: World, deltaBand: real, spotSymbol: string, perpSymbol: string, calls: nat)
    requires world.Valid()
    modifies world
    ensures world.Valid() && old(world.trace) <= world.trace
  {
    var engine := new CarryEngine(world, deltaBand, spotSymbol, perpSymbol, false);
    engine.state := HALTED;
    for call := 0 to calls
      invariant engine.Valid() && fresh(engine) && engine.world == world && old(world.trace) <= world.trace
    {
      var mark: real, spotMark: real, wanted: real, minQty: real, minNotional: real := *, *, *, *, *;
      var booked: bool, inverted: bool, blind: bool := *, *, *;
      var lands: bool, restart: bool, orders: nat, staged: bool, closing: bool := *, *, *, *, *;
      if world.inFlight && lands {
        world.SettleUnknown();
      } else if restart && !world.inFlight {
        engine := new CarryEngine(world, deltaBand, spotSymbol, perpSymbol, staged);
        var _ := engine.Restart(orders, closing && staged);
      } else if engine.state == FLAT && wanted > 0.0 && mark > 0.0 && spotMark > 0.0 {
        if world.mode == ACQUIRE {
          var _, _ := engine.OpenAcquire(wanted, mark, minQty, minNotional);
        } else {
          var _, _ := engine.OpenOverlay(wanted, mark, spotMark, minQty, minNotional);
        }
      } else if engine.state in {HEDGED, UNWINDING} && blind {
        var _ := engine.TickWithoutView();
      } else if engine.state == HEDGED {
        var _, _ := engine.HeldTick(mark, booked, inverted);
      } else if engine.state == UNWINDING {
        var _, _ := engine.StagedClose();
      } else if engine.state == HALTED {
        var _ := engine.Halt();
      }
    }
  }
}
