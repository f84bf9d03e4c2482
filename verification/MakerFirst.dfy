/**
 Maker-first execution (`_rest_then_take`, `_rest`, `_take`): join the queue, wait, cancel, cross what is left. The
 venue decides when a resting order fills and whether a cancel takes; the claim is that one leg is never two.
 */
module MakerFirst {
  import opened Basics
  import opened Fills
  import opened Lots

  /** One order at the venue. `value` is the money its fills cost, `fee` what they were charged; a live one may fill. */
  datatype Order = Order(requested: real, filled: real, value: real, fee: real, live: bool)

  /** What a read of one order says. */
  datatype Report = Report(id: nat, filled: real, avgPrice: real, fee: Option<real>, resting: bool)

  /** The answer to a post-only order: it raised, no order stands, or an order with its state. */
  datatype Placed = Raised | Rejected | Accepted(report: Report)

  datatype Crossed = Unknown | NotSent | Done(report: Report)

  datatype Leg = Leg(requested: real, filled: real, avgPrice: real, fee: Option<real>, makerQty: real, takerQty: real)

  /** The money a quantity costs at a price. */
  function Cost(qty: real, price: real): real { qty * price }

  function Filled(orders: seq<Order>): real
  {
    if orders == [] then 0.0 else orders[0].filled + Filled(orders[1..])
  }

  function Value(orders: seq<Order>): real
  {
    if orders == [] then 0.0 else orders[0].value + Value(orders[1..])
  }

  function Fees(orders: seq<Order>): real
  {
    if orders == [] then 0.0 else orders[0].fee + Fees(orders[1..])
  }

  predicate NoneLive(orders: seq<Order>) { forall i :: 0 <= i < |orders| ==> !orders[i].live }

  lemma {:induction false} TotalsAppend(orders: seq<Order>, o: Order)
    ensures Filled(orders + [o]) == Filled(orders) + o.filled
    ensures Value(orders + [o]) == Value(orders) + o.value
    ensures Fees(orders + [o]) == Fees(orders) + o.fee
  {
    if orders == [] {
      assert orders + [o] == [o];
    } else {
      assert (orders + [o])[1..] == orders[1..] + [o];
      TotalsAppend(orders[1..], o);
    }
  }

  /** An order row that can exist: never more filled than asked, and a full order is not live. */
  predicate Possible(o: Order)
  {
    && 0.0 <= o.filled <= o.requested && o.value >= 0.0
    && (o.filled == 0.0 <==> o.value == 0.0) && (o.filled == 0.0 ==> o.fee == 0.0)
    && (o.live ==> o.filled < o.requested)
  }

  predicate AllPossible(orders: seq<Order>) { forall i :: 0 <= i < |orders| ==> Possible(orders[i]) }

  /** Time passes at the venue: a live order may fill further or end, a terminal one never changes. */
  predicate Later(before: Order, after: Order)
  {
    && Possible(after) && after.requested == before.requested && before.filled <= after.filled
    && (after.filled == before.filled ==> after.value == before.value && after.fee == before.fee)
    && (!before.live ==> after == before)
  }

  predicate AllLater(before: seq<Order>, after: seq<Order>)
  {
    |before| <= |after| && AllPossible(after) && forall i :: 0 <= i < |before| ==> Later(before[i], after[i])
  }

  /** A read that tells the truth about order `o`: its fill to the moment, and final only if it is. */
  predicate Truthful(r: Report, o: Order)
  {
    && r.filled == o.filled && r.avgPrice >= 0.0 && Cost(r.filled, r.avgPrice) == o.value && (o.live ==> r.resting)
    && (r.filled > 0.0 ==> r.avgPrice > 0.0) && (r.fee.Some? ==> r.fee.value == o.fee)
  }

  // ---------------------------------------------------------------- what the venue itself answers

  /**
   * The answer to a create request: taken; refused because the link id is already on file (a retry whose first attempt
   * landed); refused outright; or no answer, and the request may be served later.
   */
  datatype Reply = Taken | Duplicate | Refused | NoAnswer

  /** A look at one order by its link id: it failed, no row is shown, or what the row says. */
  datatype Look = Failed | NoRow | Row(report: Report)

  /** The order just sent, if a row for it exists. */
  predicate Sent(before: seq<Order>, after: seq<Order>, qty: real)
  {
    && AllLater(before, after) && |after| <= |before| + 1
    && (|after| > |before| ==> after[|before|].requested == qty)
  }

  /** What a reply says about the order, from an honest venue. */
  predicate Replied(reply: Reply, before: seq<Order>, after: seq<Order>, pending: Option<real>)
  {
    match reply
    case Taken => |after| > |before| && pending.None?
    case Duplicate => |after| > |before| && pending.None?
    case Refused => |after| == |before| && pending.None?
    case NoAnswer => |after| > |before| ==> pending.None?
  }

  /** What a look at order `id` says, from an honest venue. */
  predicate Looked(look: Look, id: nat, orders: seq<Order>)
  {
    look.Row? ==> id < |orders| && look.report.id == id && Truthful(look.report, orders[id])
  }

  /** `_rejected`: terminal with nothing filled. */
  predicate RejectedRow(r: Report) { r.filled <= 0.0 && !r.resting }

  /**
   * `_place_post_only_core`'s verdict. Any refusal with a code, a duplicate's included, and no row is "no order
   * stands".
   */
  function PostVerdict(reply: Reply, look: Look): Placed
  {
    match look
    case Failed => Raised
    case NoRow => if reply == Refused || reply == Duplicate then Rejected else Raised
    case Row(report) => if RejectedRow(report) then Rejected else Accepted(report)
  }

  /** `_fill_is_sane`. */
  predicate FillIsSane(r: Report, qty: real)
  {
    r.filled >= 0.0 && r.avgPrice >= 0.0 && (r.filled > 0.0 ==> r.avgPrice > 0.0) && r.filled <= qty
  }

  /** `_place_market_core`'s verdict; a create response carries no fill here, so the order is always read back. */
  function CrossVerdict(reply: Reply, look: Look, qty: real): Crossed
  {
    if reply == Refused then NotSent
    else
      match look
      case Failed => Unknown
      case NoRow => Unknown
      case Row(report) =>
        if RejectedRow(report) then NotSent
        else if report.resting || !FillIsSane(report, qty) then Unknown
        else Done(report)
  }

  /** What each placement concludes from the reply and the look. */
  lemma VerdictsIff(reply: Reply, look: Look, qty: real)
    ensures var post, cross := PostVerdict(reply, look), CrossVerdict(reply, look, qty);
            && (post.Raised? <==> look.Failed? || (look.NoRow? && reply in {Taken, NoAnswer}))
            && (post.Rejected? <==> (look.NoRow? && reply in {Refused, Duplicate})
                                    || (look.Row? && !look.report.resting && look.report.filled <= 0.0))
            && (post.Accepted? ==> look == Row(post.report))
            && (cross.NotSent? <==> reply == Refused
                                    || (look.Row? && !look.report.resting && look.report.filled <= 0.0))
            && (cross.Done? <==> reply != Refused && look.Row? && !look.report.resting
                                 && 0.0 < look.report.filled <= qty && 0.0 < look.report.avgPrice)
            && (cross.Done? ==> look == Row(cross.report))
  {
  }

  predicate Nothing(before: seq<Order>, after: seq<Order>)
  {
    |after| > |before| ==> !after[|before|].live && after[|before|].filled == 0.0
  }

  /** What the maker-first logic needs of a post-only placement: a rejection means nothing filled and nothing rests. */
  predicate PostMeans(before: seq<Order>, after: seq<Order>, r: Placed)
  {
    match r
    case Raised => true
    case Rejected => Nothing(before, after)
    case Accepted(report) => |after| == |before| + 1 && report.id == |before| && Truthful(report, after[report.id])
  }

  predicate CrossMeans(before: seq<Order>, after: seq<Order>, r: Crossed)
  {
    match r
    case Unknown => true
    case NotSent => Nothing(before, after)
    case Done(report) =>
      |after| == |before| + 1 && report.id == |before| && Truthful(report, after[report.id]) && !report.resting
  }

  /** An order sent and then looked at, on an honest venue. */
  predicate SentThenLooked(qty: real, before: seq<Order>, sent: seq<Order>, after: seq<Order>, reply: Reply, look: Look)
  {
    && Sent(before, sent, qty) && Sent(before, after, qty) && AllLater(sent, after)
    && (reply == Refused ==> |after| == |before|) && (reply == Duplicate ==> |sent| > |before|)
    && Looked(look, |before|, after)
  }

  /**
   * What a post-only placement concludes is true of every honest venue exactly when the reply is not a duplicate whose
   * row is not shown: there the order exists, may rest, and is reported as rejected.
   */
  lemma PostVerdictIff(qty: real, reply: Reply, look: Look)
    requires qty > 0.0
    ensures (forall before, sent, after :: SentThenLooked(qty, before, sent, after, reply, look) ==>
                                             PostMeans(before, after, PostVerdict(reply, look)))
       <==> !(reply == Duplicate && look == NoRow)
  {
    if reply == Duplicate && look == NoRow {
      var resting := [Order(qty, 0.0, 0.0, 0.0, true)];
      assert SentThenLooked(qty, [], resting, resting, reply, look);
      assert !PostMeans([], resting, PostVerdict(reply, look));
    }
  }

  /** A market order's conclusion needs no such condition: a duplicate that cannot be read back is of unknown fate. */
  lemma CrossVerdictSound(qty: real, before: seq<Order>, sent: seq<Order>, after: seq<Order>, reply: Reply, look: Look)
    requires SentThenLooked(qty, before, sent, after, reply, look)
    ensures CrossMeans(before, after, CrossVerdict(reply, look, qty))
  {
  }

  lemma LaterThen(a: seq<Order>, b: seq<Order>, c: seq<Order>)
    requires AllLater(a, b) && AllLater(b, c)
    ensures AllLater(a, c)
  {
    forall i | 0 <= i < |a| ensures Later(a[i], c[i]) { assert Later(a[i], b[i]) && Later(b[i], c[i]); }
  }

  /** The venue: its replies and reads tell the truth, and a documented terminal status is final. */
  class Venue {
    /** An order whose second sending is refused as a duplicate is shown when it is looked up. */
    const showsDuplicates: bool
    /** A market order is taken and fills in full, and can be read back. */
    const deep: bool
    /** A post-only order is taken, every look at one is answered, and a cancel takes. */
    const prompt: bool
    var orders: seq<Order>
    /** A request that got no answer and may still be served. */
    var pending: Option<real>
    /** The order whose last sending was refused because its link id is already on file. */
    var refusedAgain: Option<nat>

    ghost predicate Valid() reads this { AllPossible(orders) }

    method Create(qty: real, market: bool) returns (reply: Reply)
      requires Valid() && pending.None? && qty > 0.0
      modifies this
      ensures Valid() && Sent(old(orders), orders, qty)
      ensures pending.None? || pending == Some(qty)
      ensures pending.Some? ==> reply == NoAnswer && |orders| == |old(orders)|
      ensures Replied(reply, old(orders), orders, pending)
      ensures refusedAgain == if reply == Duplicate then Some(|old(orders)|) else None
      ensures deep && market ==> reply == Taken && |orders| == |old(orders)| + 1
                                 && orders[|old(orders)|].filled == qty && !orders[|old(orders)|].live
      ensures prompt && !market ==> reply == Taken && |orders| == |old(orders)| + 1
    {
      var answer: Reply, after: seq<Order>, unserved: bool := *, *, *;
      reply, pending := NoAnswer, None;
      refusedAgain := None;
      var id := |orders|;
      if deep && market {
        orders, reply := orders + [Order(qty, qty, qty, 0.0, false)], Taken;
      } else if Sent(orders, after, qty) && Replied(answer, orders, after, None) {
        if answer == NoAnswer && |after| == |orders| && unserved { pending := Some(qty); }
        orders, reply := after, answer;
        if reply == Duplicate { refusedAgain := Some(id); }
      }
      if prompt && !market && reply != Taken {
        reply, pending, refusedAgain := Taken, None, None;
        if |orders| == id { orders := orders + [Order(qty, 0.0, 0.0, 0.0, true)]; }
      }
    }

    /** `_order_state`. Time passes, and a request still unserved may be served now. */
    method Look(id: nat) returns (look: Look)
      requires Valid()
      modifies this
      ensures Valid() && AllLater(old(orders), orders)
      ensures old(pending).None? ==> |orders| == |old(orders)| && pending.None?
      ensures old(pending).Some? ==> Sent(old(orders), orders, old(pending).value)
                                     && (|orders| > |old(orders)| ==> pending.None?)
                                     && (pending.None? || pending == old(pending))
      ensures Looked(look, id, orders)
      ensures showsDuplicates && old(refusedAgain) == Some(id) ==> look != NoRow
      ensures refusedAgain == old(refusedAgain)
      ensures (deep || prompt) && id < |orders| ==> look.Row? && (!orders[id].live ==> !look.report.resting)
    {
      var after: seq<Order>, answer: Look := *, *;
      if if pending.None? then AllLater(orders, after) && |after| == |orders| else Sent(orders, after, pending.value) {
        if |after| > |orders| { pending := None; }
        orders := after;
      }
      look := if Looked(answer, id, orders) then answer else Failed;
      if showsDuplicates && refusedAgain == Some(id) && look == NoRow { look := Failed; }
      if (deep || prompt) && id < |orders| && !(look.Row? && (!orders[id].live ==> !look.report.resting)) {
        var price := if orders[id].filled > 0.0 then PerUnit(orders[id].value, orders[id].filled) else 0.0;
        look := Row(Report(id, orders[id].filled, price, None, orders[id].live));
      }
    }

    /** `_place_post_only_core`: one request, and whatever the reply, one look at what became of it. */
    method PlacePostOnly(qty: real) returns (r: Placed)
      requires Valid() && pending.None? && qty > 0.0
      modifies this
      ensures Valid() && Sent(old(orders), orders, qty)
      ensures !r.Raised? ==> pending.None?
      ensures showsDuplicates ==> PostMeans(old(orders), orders, r)
      ensures r.Accepted? ==> PostMeans(old(orders), orders, r)
      ensures prompt ==> !r.Raised? && |orders| == |old(orders)| + 1
    {
      ghost var before := orders;
      var id := |orders|;
      var reply := Create(qty, false);
      ghost var sent := orders;
      var look := Look(id);
      LaterThen(before, sent, orders);
      r := PostVerdict(reply, look);
      assert SentThenLooked(qty, before, sent, orders, reply, look);
      PostVerdictIff(qty, reply, look);
    }

    /** `_place_market_core`: the same, read back a few times until the order is final. */
    method PlaceMarket(qty: real) returns (r: Crossed)
      requires Valid() && pending.None? && qty > 0.0
      modifies this
      ensures Valid() && Sent(old(orders), orders, qty)
      ensures CrossMeans(old(orders), orders, r) && (!r.Unknown? ==> pending.None?)
      ensures deep ==> r.Done? && r.report.filled == qty && r.report.avgPrice > 0.0
    {
      ghost var before := orders;
      var id := |orders|;
      var reply := Create(qty, true);
      if reply == Refused { return NotSent; }
      ghost var sent := orders;
      var look := Look(id);
      LaterThen(before, sent, orders);
      var polls := 0;
      while reply == Taken && polls < 4 && (look.NoRow? || (look.Row? && look.report.resting))
        invariant Valid() && AllLater(sent, orders) && Sent(before, orders, qty) && (reply == Taken ==> pending.None?)
        invariant |orders| > |before| ==> pending.None?
        invariant Looked(look, id, orders)
        invariant deep ==> look.Row? && !look.report.resting
      {
        ghost var mid := orders;
        look := Look(id);
        LaterThen(sent, mid, orders);
        LaterThen(before, mid, orders);
        polls := polls + 1;
      }
      r := CrossVerdict(reply, look, qty);
      CrossVerdictSound(qty, before, sent, orders, reply, look);
    }

    /** `cancel_order`: the answer is the order read back, whatever became of the cancel itself; None for a raise. */
    method CancelOrder(id: nat) returns (r: Option<Report>)
      requires Valid() && pending.None? && id < |orders|
      modifies this
      ensures Valid() && AllLater(old(orders), orders) && |orders| == |old(orders)| && pending.None?
      ensures r.Some? ==> Truthful(r.value, orders[id])
      ensures prompt ==> r.Some? && !r.value.resting
    {
      ghost var before := orders;
      Wait();
      if prompt { orders := orders[id := orders[id].(live := false)]; }
      ghost var mid := orders;
      var look := Look(id);
      LaterThen(before, mid, orders);
      r := if look.Row? then Some(look.report) else None;
    }

    /** Time passes: the resting wait, or a cancel on its way. */
    method Wait()
      requires Valid() && pending.None?
      modifies this
      ensures Valid() && AllLater(old(orders), orders) && |orders| == |old(orders)| && pending.None?
    {
      var after: seq<Order> := *;
      if AllLater(orders, after) && |after| == |orders| { orders := after; }
    }
  }

  /** A fill the book can account (`_accountable`); only market legs may exceed their order. */
  predicate Accountable(filled: real, price: real, qty: real, allowOver: bool)
  {
    filled >= 0.0 && price >= 0.0 && (filled == 0.0 || price > 0.0) && (allowOver || filled <= qty)
  }

  /** `_merge`: one leg, two fills. The price is weighted by quantity, and an unknown half makes the fee unknown. */
  function Merge(maker: Leg, taker: Leg, requested: real): (r: Leg)
    requires maker.filled >= 0.0 && taker.filled >= 0.0
    ensures r.filled == maker.filled + taker.filled && r.makerQty == maker.filled && r.takerQty == taker.filled
    ensures Cost(r.filled, r.avgPrice) == Cost(maker.filled, maker.avgPrice) + Cost(taker.filled, taker.avgPrice)
    ensures r.fee.Some? <==> maker.fee.Some? && taker.fee.Some?
    ensures r.fee.Some? ==> r.fee.value == maker.fee.value + taker.fee.value
  {
    var fee := if maker.fee.None? || taker.fee.None? then None else Some(maker.fee.value + taker.fee.value);
    Leg(requested, maker.filled + taker.filled,
        MergedPrice(maker.filled, maker.avgPrice, taker.filled, taker.avgPrice), fee,
        maker.filled, taker.filled)
  }

  /** `_as_whole_leg`: what landed is the leg, at the size that landed. */
  function AsWholeLeg(maker: Option<Leg>): Option<Leg>
  {
    if maker.None? || maker.value.filled <= 0.0 then None else Some(maker.value.(requested := maker.value.filled))
  }

  /** The leg accounts for exactly what these orders filled, at their quantity-weighted price, and none is live. */
  ghost predicate Settles(leg: Option<Leg>, sent: seq<Order>)
  {
    && NoneLive(sent)
    && (leg.None? ==> Filled(sent) == 0.0)
    && (leg.Some? ==> leg.value.filled == Filled(sent) && Cost(leg.value.filled, leg.value.avgPrice) == Value(sent))
    && (leg.Some? && leg.value.fee.Some? ==> leg.value.fee.value == Fees(sent))
  }

  /** What both orders filled is what the first filled plus what the second filled: the first was already terminal. */
  lemma TwoOrders(before: seq<Order>, rested: seq<Order>, after: seq<Order>)
    requires AllLater(before, rested) && AllLater(rested, after)
    requires |rested| <= |before| + 1 && |after| <= |rested| + 1
    requires NoneLive(rested[|before|..]) && NoneLive(after[|rested|..])
    ensures NoneLive(after[|before|..])
    ensures Filled(after[|before|..]) == Filled(rested[|before|..]) + Filled(after[|rested|..])
    ensures Value(after[|before|..]) == Value(rested[|before|..]) + Value(after[|rested|..])
    ensures Fees(after[|before|..]) == Fees(rested[|before|..]) + Fees(after[|rested|..])
  {
    var first, second := rested[|before|..], after[|rested|..];
    assert after[|before|..] == first + second;
    if second != [] {
      assert second == [] + [second[0]];
      TotalsAppend([], second[0]);
      TotalsAppend(first, second[0]);
    } else {
      assert first + second == first;
    }
  }

  lemma WholeLegSettles(maker: Option<Leg>, sent: seq<Order>)
    requires Settles(maker, sent) && (maker.Some? ==> maker.value.filled >= 0.0)
    ensures Settles(AsWholeLeg(maker), sent)
  {
    hide Filled, Value, Fees;
  }

  /** However the two halves come back, what is booked of them settles both. */
  lemma BothSettle(maker: Option<Leg>, taker: Option<Leg>, qty: real, first: seq<Order>, second: seq<Order>,
                   both: seq<Order>)
    requires Settles(maker, first) && Settles(taker, second) && NoneLive(both)
    requires Filled(both) == Filled(first) + Filled(second) && Value(both) == Value(first) + Value(second)
    requires Fees(both) == Fees(first) + Fees(second)
    requires AllPossible(first) && AllPossible(second)
    requires (maker.Some? ==> maker.value.filled >= 0.0) && (taker.Some? ==> taker.value.filled >= 0.0)
    ensures maker.None? || maker.value.filled <= 0.0 ==> Settles(taker, both)
    ensures taker.None? ==> Settles(AsWholeLeg(maker), both)
    ensures maker.Some? && taker.Some? ==> Settles(Some(Merge(maker.value, taker.value, qty)), both)
  {
    NothingFilledCostsNothing(first);
    NothingFilledCostsNothing(second);
    hide Filled, Value, Fees, Cost, MergedPrice, NoneLive;
  }

  lemma {:induction false} NothingFilledCostsNothing(orders: seq<Order>)
    requires AllPossible(orders)
    ensures Filled(orders) >= 0.0 && (Filled(orders) == 0.0 ==> Value(orders) == 0.0 && Fees(orders) == 0.0)
  {
    if orders != [] {
      assert Possible(orders[0]);
      NothingFilledCostsNothing(orders[1..]);
    }
  }

  lemma BothOrders(maker: Option<Leg>, taker: Option<Leg>, qty: real, before: seq<Order>, rested: seq<Order>,
                   after: seq<Order>)
    requires AllPossible(rested) && AllLater(before, rested) && AllLater(rested, after)
    requires |rested| <= |before| + 1 && |after| <= |rested| + 1
    requires Settles(maker, rested[|before|..]) && Settles(taker, after[|rested|..])
    requires (maker.Some? ==> maker.value.filled >= 0.0) && (taker.Some? ==> taker.value.filled >= 0.0)
    ensures var both := after[|before|..];
            && (maker.None? || maker.value.filled <= 0.0 ==> Settles(taker, both))
            && (taker.None? ==> Settles(AsWholeLeg(maker), both))
            && (maker.Some? && taker.Some? ==> Settles(Some(Merge(maker.value, taker.value, qty)), both))
  {
    TwoOrders(before, rested, after);
    BothSettle(maker, taker, qty, rested[|before|..], after[|rested|..], after[|before|..]);
  }

  /** Why a maker order still resting after its cancel must halt: crossing beside it can fill twice what was asked. */
  lemma CrossingBesideALiveOrderDoubles(qty: real, price: real) returns (resting: seq<Order>, after: seq<Order>)
    requires qty > 0.0 && price > 0.0
    ensures AllPossible(resting) && Filled(resting) == 0.0 && |resting| == 1 && resting[0].requested == qty
    ensures Sent(resting, after, qty) && CrossMeans(resting, after, Done(Report(1, qty, price, None, false)))
    ensures Filled(after) == qty + qty
  {
    resting := [Order(qty, 0.0, 0.0, 0.0, true)];
    assert qty * price > 0.0;
    var full := Order(qty, qty, qty * price, 0.0, false);
    after := [full] + [full];
    TotalsAppend([], resting[0]);
    TotalsAppend([], full);
    TotalsAppend([full], full);
  }

  class Executor {
    const venue: Venue
    var halted: bool

    constructor (venue: Venue)
      ensures this.venue == venue && !halted
    {
      this.venue, halted := venue, false;
    }

    /** `_rest`: one post-only order, given a bounded wait and then pulled. None means cross. */
    method Rest(qty: real, bookReadable: bool) returns (leg: Option<Leg>)
      requires venue.Valid() && venue.pending.None? && !halted && qty > 0.0
      modifies this, venue
      ensures venue.Valid() && AllLater(old(venue.orders), venue.orders)
      ensures |venue.orders| <= |old(venue.orders)| + 1
      ensures !halted ==> venue.pending.None?
      ensures venue.showsDuplicates && !halted ==>
                Settles(leg, venue.orders[|old(venue.orders)|..])
      ensures leg.Some? ==> 0.0 <= leg.value.filled <= qty
      ensures !bookReadable ==> !halted && leg.None? && venue.orders == old(venue.orders)
      ensures venue.prompt && bookReadable ==>
                !halted && |venue.orders| == |old(venue.orders)| + 1
                && venue.orders[|old(venue.orders)|].requested == qty
    {
      if !bookReadable { return None; }
      ghost var before := venue.orders;
      var placed := venue.PlacePostOnly(qty);
      ghost var mine := venue.orders[|before|..];
      if placed.Raised? { halted := true; return None; }
      if placed.Rejected? {
        assert venue.showsDuplicates ==> Settles(None, mine);
        return None;
      }
      var first := placed.report;
      if !Accountable(first.filled, first.avgPrice, qty, false) { halted := true; return None; }
      var rested := Leg(qty, first.filled, first.avgPrice, first.fee, first.filled, 0.0);
      if first.filled >= qty || !first.resting {
        assert mine == [venue.orders[|before|]];
        return Some(rested);
      }
      venue.Wait();
      var final := venue.CancelOrder(first.id);
      if final.None? || final.value.resting { halted := true; return None; }
      if !Accountable(final.value.filled, final.value.avgPrice, qty, false) { halted := true; return None; }
      assert venue.orders[|before|..] == [venue.orders[|before|]];
      if final.value.filled > rested.filled {
        rested := rested.(filled := final.value.filled, makerQty := final.value.filled, fee := final.value.fee,
        avgPrice := if final.value.avgPrice != 0.0 then final.value.avgPrice else rested.avgPrice);
      }
      leg := Some(rested);
    }

    /** `_take`: cross the spread. None with the book still running means nothing filled. */
    method Take(qty: real) returns (leg: Option<Leg>)
      requires venue.Valid() && venue.pending.None? && !halted && qty > 0.0
      modifies this, venue
      ensures venue.Valid() && AllLater(old(venue.orders), venue.orders)
      ensures |venue.orders| <= |old(venue.orders)| + 1
      ensures !halted ==> venue.pending.None?
      ensures !halted ==>
                Settles(leg, venue.orders[|old(venue.orders)|..])
      ensures leg.Some? ==> 0.0 <= leg.value.filled <= qty
      ensures venue.deep ==> !halted && leg.Some? && leg.value.filled == qty
    {
      ghost var before := venue.orders;
      var answer := venue.PlaceMarket(qty);
      match answer {
        case Unknown => halted := true; leg := None;
        case NotSent => leg := None;
        case Done(report) =>
          if !Accountable(report.filled, report.avgPrice, qty, true) { halted := true; return None; }
          assert venue.orders[|before|..] == [] + [venue.orders[|before|]];
          TotalsAppend([], venue.orders[|before|]);
          leg := Some(Leg(qty, report.filled, report.avgPrice, report.fee, 0.0, report.filled));
      }
    }

    /**
     * `_rest_then_take`. Where a refused duplicate is shown when looked up, unless the book halted, the leg it books is
     * exactly what every order it sent filled, at the weighted price, with all their fees if it states one, and nothing
     * it sent can still fill. It is never more than was asked for; at most two orders are sent; and where market orders
     * fill, less than one lot of the request is left out.
     */
    method RestThenTake(qty: real, qtyStep: real, bookReadable: bool) returns (leg: Option<Leg>)
      requires venue.Valid() && venue.pending.None? && !halted && qty > 0.0
      modifies this, venue
      ensures venue.Valid() && AllLater(old(venue.orders), venue.orders)
      ensures |venue.orders| <= |old(venue.orders)| + 2
      ensures !halted ==> venue.pending.None?
      ensures venue.showsDuplicates && !halted ==>
                Settles(leg, venue.orders[|old(venue.orders)|..])
      ensures leg.Some? ==> 0.0 <= leg.value.filled <= qty
      ensures venue.deep && !halted ==>
                var filled := if leg.Some? then leg.value.filled else 0.0;
                if qtyStep > 0.0 then filled > qty - qtyStep else filled == qty
      ensures venue.deep && (venue.prompt || !bookReadable) ==> !halted
      ensures !bookReadable && !halted ==> |venue.orders| <= |old(venue.orders)| + 1
    {
      hide SnapToLot, WholeLots, Settles, Filled, Value, Fees, Merge, NoneLive, AllLater;
      ghost var before := venue.orders;
      var maker := Rest(qty, bookReadable);
      if halted { return None; }
      ghost var rested := venue.orders;
      var makerQty := if maker.None? then 0.0 else maker.value.filled;
      var remainder := qty - makerQty;
      if remainder >= 0.0 { SnapBounds(remainder, qtyStep); }
      if qtyStep > 0.0 { remainder := SnapToLot(remainder, qtyStep); }
      if venue.showsDuplicates { WholeLegSettles(maker, rested[|before|..]); }
      if remainder <= 0.0 { return AsWholeLeg(maker); }
      var taker := Take(remainder);
      LaterThen(before, rested, venue.orders);
      if halted { return AsWholeLeg(maker); }
      if venue.showsDuplicates { BothOrders(maker, taker, qty, before, rested, venue.orders); }
      if maker.None? || maker.value.filled <= 0.0 { return taker; }
      if taker.None? { return AsWholeLeg(maker); }
      leg := Some(Merge(maker.value, taker.value, qty));
    }
  }
}
