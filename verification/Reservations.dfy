/**
 Capital reservations (`CapitalReservations`) and the carry book's use of them (`CarryCapitalAuthority.sync`): rows, an
 append-only event log, and the order log that says which dollars may still be in use.
 */
module Reservations {
  import opened Basics
  import opened Ordering
  import opened Sums

  /** Ids are numbers; this one stands for an empty string. */
  const BLANK := 0

  datatype State = RESERVED | COMMITTED | RELEASED | EXPIRED

  predicate Live(s: State) { s == RESERVED || s == COMMITTED }

  datatype Row = Row(strategy: int, scope: int, purpose: int, amount: real, state: State, link: int, expires: real)

  datatype Kind = RESERVE | COMMIT | RELEASE | EXPIRE | REFUSE | EXPIRY_DEFERRED | RELEASE_REFUSED

  datatype Event = Event(id: int, kind: Kind, before: Option<State>, after: Option<State>, amount: real)

  /** An order on file, under its link id: the cycle it belongs to, and whether it is a carry leg and has ended. */
  datatype Order = Order(cycle: int, symbol: int, carry: bool, terminal: bool)

  datatype Db = Db(rows: map<int, Row>, events: seq<Event>, orders: map<int, Order>)

  /** A reading of the available balance: `sourced` stands for a usable value, source and stamp. */
  datatype Reading = Reading(confirmed: bool, sourced: bool, value: real, asOf: real)

  datatype Request = Request(strategy: int, id: int, amount: real, scope: int, purpose: int, reading: Reading,
                             ttl: real)

  datatype Limits = Limits(buffer: real, maxAge: real)

  datatype Code =
    | OK_RESERVED | OK_IDEMPOTENT | OK_COMMITTED | OK_RELEASED | AMOUNT_INVALID | TTL_INVALID
    | FIELD_INVALID | AVAILABLE_UNCONFIRMED | AVAILABLE_STALE | AVAILABLE_INVALID
    | INSUFFICIENT_FREE_CAPITAL | INTENT_ID_CONFLICT | INTENT_ID_SPENT | NO_SUCH_RESERVATION
    | ILLEGAL_STATE | ORDER_LINK_CONFLICT | ORDER_UNRESOLVED

  // ---------------------------------------------------------------- transactions

  /** The dollars a scope holds, or every scope does. */
  function LiveAmounts(rows: map<int, Row>, scope: Option<int>): map<int, real>
  {
    map id | id in rows && Live(rows[id].state) && (scope.None? || scope.value == rows[id].scope) :: rows[id].amount
  }

  function LiveTotal(rows: map<int, Row>, scope: Option<int>): real { Total(LiveAmounts(rows, scope)) }

  /** Some order tied to a reservation read with this link, by link id, intent id or cycle, has no terminal status. */
  predicate Unresolved(orders: map<int, Order>, id: int, link: int)
  {
    || (link != BLANK && link in orders && !orders[link].terminal)
    || (id in orders && !orders[id].terminal)
    || exists l :: l in orders && orders[l].cycle == id && !orders[l].terminal
  }

  predicate OrderUnresolved(db: Db, id: int)
    requires id in db.rows
  {
    Unresolved(db.orders, id, db.rows[id].link)
  }

  function Log(db: Db, id: int, kind: Kind, before: Option<State>, after: Option<State>, amount: real): Db
  {
    db.(events := db.events + [Event(id, kind, before, after, amount)])
  }

  /** An update of one row, read as `row`, and the event that records it. */
  function Write(db: Db, id: int, row: Row, kind: Kind, after: State, link: int): Db
  {
    Log(db, id, kind, Some(row.state), Some(after),
        row.amount).(rows := db.rows[id := row.(state := after, link := link)])
  }

  function Move(db: Db, id: int, kind: Kind, after: State, link: int): Db
    requires id in db.rows
  {
    Write(db, id, db.rows[id], kind, after, link)
  }

  function Stays(db: Db, id: int, kind: Kind): Db
    requires id in db.rows
  {
    Log(db, id, kind, Some(db.rows[id].state), Some(db.rows[id].state), db.rows[id].amount)
  }

  predicate Due(db: Db, id: int, scope: Option<int>, now: real)
  {
    && id in db.rows && db.rows[id].state == RESERVED && db.rows[id].expires <= now
    && (scope.None? || scope.value == db.rows[id].scope)
  }

  /** One row's turn in an expiry: `blind` holds the intents whose orders could not be read. */
  function ExpireOne(db: Db, id: int, scope: Option<int>, now: real, blind: set<int>): Db
  {
    if !Due(db, id, scope, now) then db
    else if id in blind || OrderUnresolved(db, id) then Stays(db, id, EXPIRY_DEFERRED)
    else Move(db, id, EXPIRE, EXPIRED, db.rows[id].link)
  }

  function ExpireEach(db: Db, ids: seq<int>, scope: Option<int>, now: real, blind: set<int>): Db
    decreases |ids|
  {
    if ids == [] then db
    else
      var last := |ids| - 1;
      ExpireOne(ExpireEach(db, ids[..last], scope, now, blind), ids[last], scope, now, blind)
  }

  function ExpireTx(db: Db, scope: Option<int>, now: real, blind: set<int>): Db
  {
    ExpireEach(db, Ascending(db.rows.Keys), scope, now, blind)
  }

  function ReadingRefused(reading: Reading, now: real, maxAge: real): Option<Code>
  {
    if !reading.confirmed then Some(AVAILABLE_UNCONFIRMED)
    else if !reading.sourced || reading.value < 0.0 then Some(AVAILABLE_INVALID)
    else if now - reading.asOf > maxAge || now - reading.asOf < -maxAge then Some(AVAILABLE_STALE)
    else None
  }

  function BadRequest(q: Request): Option<Code>
  {
    if q.strategy == BLANK || q.id == BLANK || q.scope == BLANK || q.purpose == BLANK then Some(FIELD_INVALID)
    else if q.amount <= 0.0 then Some(AMOUNT_INVALID)
    else if q.ttl <= 0.0 then Some(TTL_INVALID)
    else None
  }

  /** What a reservation finds under the lock: an answer already, or the scope's held dollars after expiry. */
  datatype Prepared = Answer(db: Db, code: Code) | Ready(db: Db, held: real)

  function Prepare(db: Db, q: Request, limits: Limits, now: real, blind: set<int>): Prepared
  {
    if BadRequest(q).Some? then Answer(db, BadRequest(q).value)
    else if q.id in db.rows then
      var row := db.rows[q.id];
      Answer(db,
             if row.strategy != q.strategy || row.scope != q.scope || row.purpose != q.purpose || row.amount != q.amount
             then INTENT_ID_CONFLICT
             else if Live(row.state) then OK_IDEMPOTENT
               else INTENT_ID_SPENT)
    else
      var bad := ReadingRefused(q.reading, now, limits.maxAge);
      if bad.Some? then Answer(Log(db, q.id, REFUSE, None, None, q.amount), bad.value)
      else
        var after := ExpireTx(db, Some(q.scope), now, blind);
        Ready(after, LiveTotal(after.rows, Some(q.scope)))
  }

  /** The decision itself, made on the held dollars read earlier in the same transaction. */
  function Decide(db: Db, held: real, q: Request, limits: Limits, now: real): (Db, Code)
  {
    if q.reading.value - held - limits.buffer < q.amount then
      (Log(db, q.id, REFUSE, None, None, q.amount), INSUFFICIENT_FREE_CAPITAL)
    else
      (Log(db, q.id, RESERVE, None, Some(RESERVED), q.amount)
       .(rows := db.rows[q.id := Row(q.strategy, q.scope, q.purpose, q.amount, RESERVED, BLANK, now + q.ttl)]),
       OK_RESERVED)
  }

  function ReserveTx(db: Db, q: Request, limits: Limits, now: real, blind: set<int>): (Db, Code)
  {
    match Prepare(db, q, limits, now, blind)
    case Answer(after, code) => (after, code)
    case Ready(after, held) => Decide(after, held, q, limits, now)
  }

  /** The commit's decision on `row`, the reservation as it was last read. */
  function CommitOn(db: Db, id: int, row: Row, link: int): (Db, Code)
  {
    match row.state
    case COMMITTED => (db, if row.link == link then OK_IDEMPOTENT else ORDER_LINK_CONFLICT)
    case RESERVED => (Write(db, id, row, COMMIT, COMMITTED, link), OK_COMMITTED)
    case _ => (db, ILLEGAL_STATE)
  }

  function CommitTx(db: Db, id: int, link: int): (Db, Code)
  {
    if link == BLANK then (db, FIELD_INVALID)
    else if id !in db.rows then (db, NO_SUCH_RESERVATION)
    else CommitOn(db, id, db.rows[id], link)
  }

  function ReleaseOn(db: Db, id: int, row: Row, blind: set<int>): (Db, Code)
  {
    match row.state
    case RELEASED => (db, OK_IDEMPOTENT)
    case EXPIRED => (db, ILLEGAL_STATE)
    case _ =>
      if id in blind || Unresolved(db.orders, id, row.link) then
        (Log(db, id, RELEASE_REFUSED, Some(row.state), Some(row.state), row.amount), ORDER_UNRESOLVED)
      else (Write(db, id, row, RELEASE, RELEASED, row.link), OK_RELEASED)
  }

  function ReleaseTx(db: Db, id: int, blind: set<int>): (Db, Code)
  {
    if id !in db.rows then (db, NO_SUCH_RESERVATION) else ReleaseOn(db, id, db.rows[id], blind)
  }

  // ---------------------------------------------------------------- runs

  /** Anything any writer may do: a whole transaction, or a write to the order log. */
  datatype Op =
    | Reserve(q: Request, now: real, blind: set<int>)
    | Commit(id: int, link: int)
    | Release(id: int, blind: set<int>)
    | Expire(scope: Option<int>, now: real, blind: set<int>)
    | WriteOrder(link: int, order: Order)

  /** What the writer is told; the last two kinds say nothing. */
  function Told(db: Db, op: Op, limits: Limits): Option<Code>
  {
    match op
    case Reserve(q, now, blind) => Some(ReserveTx(db, q, limits, now, blind).1)
    case Commit(id, link) => Some(CommitTx(db, id, link).1)
    case Release(id, blind) => Some(ReleaseTx(db, id, blind).1)
    case Expire(_, _, _) => None
    case WriteOrder(_, _) => None
  }

  function Exec(db: Db, op: Op, limits: Limits): Db
  {
    match op
    case Reserve(q, now, blind) => ReserveTx(db, q, limits, now, blind).0
    case Commit(id, link) => CommitTx(db, id, link).0
    case Release(id, blind) => ReleaseTx(db, id, blind).0
    case Expire(scope, now, blind) => ExpireTx(db, scope, now, blind)
    case WriteOrder(link, order) => db.(orders := db.orders[link := order])
  }

  function Run(db: Db, ops: seq<Op>, limits: Limits): Db
    decreases |ops|
  {
    if ops == [] then db else Run(Exec(db, ops[0], limits), ops[1..], limits)
  }

  // ---------------------------------------------------------------- what every transaction keeps

  /** Folding an intent's events gives its state (None: never reserved); a broken chain gives no answer. */
  function Replay(events: seq<Event>, id: int): Option<Option<State>>
    decreases |events|
  {
    if events == [] then Some(None)
    else
      var e := events[|events| - 1];
      var earlier := Replay(events[..|events| - 1], id);
      if e.id != id then earlier
      else if earlier == Some(e.before) then Some(e.after)
      else None
  }

  function Enters(e: Event): real { if e.before.None? && e.after == Some(RESERVED) then e.amount else 0.0 }

  function Leaves(e: Event): real
  {
    if e.before.Some? && Live(e.before.value) && e.after.Some? && !Live(e.after.value) then e.amount else 0.0
  }

  /** Dollars reserved, less dollars released or expired. */
  function Flow(events: seq<Event>): real
    decreases |events|
  {
    if events == [] then 0.0
    else Flow(events[..|events| - 1]) + Enters(events[|events| - 1]) - Leaves(events[|events| - 1])
  }

  /** The log and the table tell one story. */
  ghost predicate Agrees(db: Db)
  {
    && (forall id :: Replay(db.events, id) == Some(if id in db.rows then Some(db.rows[id].state) else None))
    && Flow(db.events) == LiveTotal(db.rows, None)
  }

  predicate Legal(before: State, after: State)
  {
    before == after || before == RESERVED || (before == COMMITTED && after == RELEASED)
  }

  ghost predicate RowEvolves(before: Row, after: Row)
  {
    && after.(state := before.state, link := before.link) == before && Legal(before.state, after.state)
    && (before.state != RESERVED || after.state == EXPIRED || after.state == RESERVED ==> after.link == before.link)
  }

  /** No row is lost or re-used: its terms stand, and it only moves forward, RELEASED and EXPIRED not at all. */
  ghost predicate Evolves(before: Db, after: Db)
  {
    && (forall id :: id in before.rows ==> id in after.rows && RowEvolves(before.rows[id], after.rows[id]))
    && before.events <= after.events
  }

  lemma EvolvesTransitive(a: Db, b: Db, c: Db)
    requires Evolves(a, b) && Evolves(b, c)
    ensures Evolves(a, c)
  {
    forall id | id in a.rows ensures id in c.rows && RowEvolves(a.rows[id], c.rows[id]) {
      assert id in b.rows && RowEvolves(a.rows[id], b.rows[id]);
    }
  }

  lemma LogOnly(db: Db, id: int, kind: Kind, state: Option<State>, amount: real)
    requires Agrees(db) && state == (if id in db.rows then Some(db.rows[id].state) else None)
    ensures var after := Log(db, id, kind, state, state, amount); Agrees(after) && Evolves(db, after)
  {
    var after := Log(db, id, kind, state, state, amount);
    assert after.events[..|after.events| - 1] == db.events;
  }

  /**
   * A legal move keeps log and table in step, and takes the dollars out of the total exactly when the row stops being
   * live.
   */
  lemma MoveKeeps(db: Db, id: int, kind: Kind, state: State, link: int)
    requires Agrees(db) && id in db.rows && Live(db.rows[id].state) && Legal(db.rows[id].state, state)
    requires db.rows[id].state != RESERVED || state == EXPIRED || state == RESERVED ==> link == db.rows[id].link
    ensures var after := Move(db, id, kind, state, link); Agrees(after) && Evolves(db, after)
  {
    var after := Move(db, id, kind, state, link);
    assert after.events[..|after.events| - 1] == db.events;
    var m, m' := LiveAmounts(db.rows, None), LiveAmounts(after.rows, None);
    TakeOut(m, id);
    if Live(state) { assert m' == m; } else { assert m' == m - {id}; }
  }

  /** A new row and its event enter log, table and total together. */
  lemma InsertKeeps(db: Db, id: int, row: Row)
    requires Agrees(db) && id !in db.rows && row.state == RESERVED
    ensures var after := Log(db, id, RESERVE, None, Some(RESERVED), row.amount).(rows := db.rows[id := row]);
            Agrees(after) && Evolves(db, after)
  {
    hide LiveAmounts;
    var after := Log(db, id, RESERVE, None, Some(RESERVED), row.amount).(rows := db.rows[id := row]);
    assert after.events[..|after.events| - 1] == db.events;
    InsertTotal(db.rows, id, row, None);
    forall x ensures Replay(after.events, x) == Some(if x in after.rows then Some(after.rows[x].state) else None) {
      assert Replay(db.events, x) == Some(if x in db.rows then Some(db.rows[x].state) else None);
    }
  }

  lemma InsertTotal(rows: map<int, Row>, id: int, row: Row, scope: Option<int>)
    requires id !in rows && Live(row.state) && (scope.None? || scope.value == row.scope)
    ensures LiveTotal(rows[id := row], scope) == LiveTotal(rows, scope) + row.amount
  {
    var m := LiveAmounts(rows, scope);
    PutIn(m, id, row.amount);
    assert LiveAmounts(rows[id := row], scope) == m[id := row.amount];
  }

  lemma DecideKeeps(db: Db, held: real, q: Request, limits: Limits, now: real)
    requires Agrees(db) && q.id !in db.rows
    ensures Agrees(Decide(db, held, q, limits, now).0) && Evolves(db, Decide(db, held, q, limits, now).0)
  {
    hide Agrees, Evolves;
    LogOnly(db, q.id, REFUSE, None, q.amount);
    InsertKeeps(db, q.id, Row(q.strategy, q.scope, q.purpose, q.amount, RESERVED, BLANK, now + q.ttl));
  }

  /** An order may still be using the dollars: the row's own, the intent's, or any of its cycle. */
  predicate Backs(db: Db, id: int, row: Row, l: int)
  {
    l in db.orders && !db.orders[l].terminal && ((l == row.link && l != BLANK) || l == id || db.orders[l].cycle == id)
  }

  /**
   * The rows an expiry takes: reserved, past their time, in its scope, with orders that can be read and none of them
   * unfinished.
   */
  predicate Expires(db: Db, id: int, scope: Option<int>, now: real, blind: set<int>)
  {
    && id in db.rows && db.rows[id].state == RESERVED && db.rows[id].expires <= now && id !in blind
    && (scope == None || scope == Some(db.rows[id].scope))
    && forall l :: l in db.orders ==> !Backs(db, id, db.rows[id], l)
  }

  lemma UnresolvedIff(db: Db, id: int)
    requires id in db.rows
    ensures OrderUnresolved(db, id) <==> exists l :: l in db.orders && Backs(db, id, db.rows[id], l)
  {
    var link := db.rows[id].link;
    if link != BLANK && link in db.orders && !db.orders[link].terminal { assert Backs(db, id, db.rows[id], link); }
    if id in db.orders && !db.orders[id].terminal { assert Backs(db, id, db.rows[id], id); }
    if l :| l in db.orders && db.orders[l].cycle == id && !db.orders[l].terminal {
      assert Backs(db, id, db.rows[id], l);
    }
  }

  /** The judgement of a row on a list made earlier: in use if its orders cannot be read, or one is unfinished. */
  lemma InUseIff(db: Db, id: int, row: Row, blind: set<int>)
    ensures InUse(db, id, row, blind) <==> id in blind || exists l :: l in db.orders && Backs(db, id, row, l)
  {
    var link := row.link;
    if link != BLANK && link in db.orders && !db.orders[link].terminal { assert Backs(db, id, row, link); }
    if id in db.orders && !db.orders[id].terminal { assert Backs(db, id, row, id); }
    if l :| l in db.orders && db.orders[l].cycle == id && !db.orders[l].terminal { assert Backs(db, id, row, l); }
  }

  lemma ExpiresIff(db: Db, id: int, scope: Option<int>, now: real, blind: set<int>)
    ensures Expires(db, id, scope, now, blind) <==>
            Due(db, id, scope, now) && id !in blind && !OrderUnresolved(db, id)
  {
    if id in db.rows { UnresolvedIff(db, id); }
  }

  lemma {:induction false} ExpiryKeeps(db: Db, ids: seq<int>, scope: Option<int>, now: real, blind: set<int>)
    requires Agrees(db)
    ensures var after := ExpireEach(db, ids, scope, now, blind);
            && Agrees(after) && Evolves(db, after) && after.orders == db.orders && after.rows.Keys == db.rows.Keys
    decreases |ids|
  {
    if ids != [] {
      var last := |ids| - 1;
      var mid := ExpireEach(db, ids[..last], scope, now, blind);
      ExpiryKeeps(db, ids[..last], scope, now, blind);
      var id := ids[last];
      var after := ExpireOne(mid, id, scope, now, blind);
      if Due(mid, id, scope, now) {
        if id in blind || OrderUnresolved(mid, id) {
          LogOnly(mid, id, EXPIRY_DEFERRED, Some(mid.rows[id].state), mid.rows[id].amount);
        } else {
          MoveKeeps(mid, id, EXPIRE, EXPIRED, mid.rows[id].link);
        }
      }
      EvolvesTransitive(db, mid, after);
    }
  }

  /** Going through the rows one by one expires exactly the rows that should go, judged on the table as it was. */
  lemma {:induction false} ExpiresExactly(db: Db, ids: seq<int>, scope: Option<int>, now: real, blind: set<int>,
                                          id: int)
    requires id in db.rows
    ensures var after := ExpireEach(db, ids, scope, now, blind);
            && after.orders == db.orders && id in after.rows
            && after.rows[id] == if id in ids && Expires(db, id, scope, now, blind) then db.rows[id].(state := EXPIRED)
                                 else db.rows[id]
    decreases |ids|
  {
    hide Expires, Unresolved;
    ExpiresIff(db, id, scope, now, blind);
    if ids != [] {
      var last := |ids| - 1;
      ExpiresExactly(db, ids[..last], scope, now, blind, id);
      assert ids == ids[..last] + [ids[last]];
      if id != ids[last] && ids[last] in db.rows { ExpiresExactly(db, ids[..last], scope, now, blind, ids[last]); }
    }
  }

  lemma ReserveKeeps(db: Db, q: Request, limits: Limits, now: real, blind: set<int>)
    requires Agrees(db)
    ensures var after := ReserveTx(db, q, limits, now, blind).0; Agrees(after) && Evolves(db, after)
  {
    if BadRequest(q).None? && q.id !in db.rows {
      if ReadingRefused(q.reading, now, limits.maxAge).Some? {
        LogOnly(db, q.id, REFUSE, None, q.amount);
      } else {
        var mid := ExpireTx(db, Some(q.scope), now, blind);
        ExpiryKeeps(db, Ascending(db.rows.Keys), Some(q.scope), now, blind);
        var held := LiveTotal(mid.rows, Some(q.scope));
        DecideKeeps(mid, held, q, limits, now);
        EvolvesTransitive(db, mid, Decide(mid, held, q, limits, now).0);
      }
    }
  }

  lemma ReleaseKeeps(db: Db, id: int, blind: set<int>)
    requires Agrees(db)
    ensures Agrees(ReleaseTx(db, id, blind).0) && Evolves(db, ReleaseTx(db, id, blind).0)
  {
    if id in db.rows && Live(db.rows[id].state) {
      if id in blind || OrderUnresolved(db, id) {
        LogOnly(db, id, RELEASE_REFUSED, Some(db.rows[id].state), db.rows[id].amount);
      } else {
        MoveKeeps(db, id, RELEASE, RELEASED, db.rows[id].link);
      }
    }
  }

  lemma CommitKeeps(db: Db, id: int, link: int)
    requires Agrees(db)
    ensures Agrees(CommitTx(db, id, link).0) && Evolves(db, CommitTx(db, id, link).0)
  {
    if link != BLANK && id in db.rows && db.rows[id].state == RESERVED { MoveKeeps(db, id, COMMIT, COMMITTED, link); }
  }

  lemma ExecKeeps(db: Db, op: Op, limits: Limits)
    requires Agrees(db)
    ensures Agrees(Exec(db, op, limits)) && Evolves(db, Exec(db, op, limits))
  {
    match op {
      case Reserve(q, now, blind) => ReserveKeeps(db, q, limits, now, blind);
      case Commit(id, link) => CommitKeeps(db, id, link);
      case Release(id, blind) => ReleaseKeeps(db, id, blind);
      case Expire(scope, now, blind) => ExpiryKeeps(db, Ascending(db.rows.Keys), scope, now, blind);
      case WriteOrder(_, _) =>
    }
  }

  /**
   * Over every run: RELEASED and EXPIRED are final and no id is ever re-used; each intent's events replay to its row;
   * and the live total is what was reserved less what was released or expired.
   */
  lemma {:induction false} RunKeeps(db: Db, ops: seq<Op>, limits: Limits)
    requires Agrees(db)
    ensures Agrees(Run(db, ops, limits)) && Evolves(db, Run(db, ops, limits))
    decreases |ops|
  {
    if ops != [] {
      var mid := Exec(db, ops[0], limits);
      ExecKeeps(db, ops[0], limits);
      RunKeeps(mid, ops[1..], limits);
      EvolvesTransitive(db, mid, Run(mid, ops[1..], limits));
    }
  }

  // ---------------------------------------------------------------- no dollar held twice

  /**
   * Success is for a new id on a fresh confirmed reading, and leaves the scope's held dollars within that reading less
   * the buffer. Nothing but its own claim was added: the rest is what expiry left.
   */
  lemma ReservedWithinReading(db: Db, q: Request, limits: Limits, now: real, blind: set<int>)
    requires ReserveTx(db, q, limits, now, blind).1 == OK_RESERVED
    ensures var after := ReserveTx(db, q, limits, now, blind).0;
            && q.id !in db.rows && q.amount > 0.0
            && q.reading.confirmed && -limits.maxAge <= now - q.reading.asOf <= limits.maxAge
            && LiveTotal(after.rows, Some(q.scope)) <= q.reading.value - limits.buffer
            && LiveTotal(after.rows, Some(q.scope))
               == LiveTotal(ExpireTx(db, Some(q.scope), now, blind).rows, Some(q.scope)) + q.amount
  {
    hide LiveTotal, ExpireTx, Decide;
    var mid := ExpireTx(db, Some(q.scope), now, blind);
    var held := LiveTotal(mid.rows, Some(q.scope));
    ExpiryTxAddsNoRow(db, Some(q.scope), now, blind);
    InsertAdds(mid, held, q, limits, now);
  }

  /** What a scope holds: all its rows not yet given back. */
  ghost function HeldIn(rows: map<int, Row>, scope: int): real
  {
    Total(map id | id in rows && rows[id].scope == scope && rows[id].state in {RESERVED, COMMITTED} :: rows[id].amount)
  }

  lemma HeldIs(rows: map<int, Row>, scope: int)
    ensures HeldIn(rows, scope) == LiveTotal(rows, Some(scope))
  {
    var held := map id | id in rows && rows[id].scope == scope && rows[id].state in {RESERVED, COMMITTED} ::
      rows[id].amount;
    var live := LiveAmounts(rows, Some(scope));
    forall id ensures id in held <==> id in live {}
    assert held == live;
  }

  /** A request that can be asked. */
  ghost predicate WellAsked(q: Request)
  {
    q.strategy != BLANK && q.id != BLANK && q.scope != BLANK && q.purpose != BLANK && 0.0 < q.amount && 0.0 < q.ttl
  }

  /** A reading that can be used: confirmed, sourced, not negative, and no further from now than the limit. */
  ghost predicate Current(reading: Reading, now: real, maxAge: real)
  {
    && reading.confirmed && reading.sourced && 0.0 <= reading.value
    && reading.asOf <= now + maxAge && now <= reading.asOf + maxAge
  }

  /**
   * A reservation succeeds exactly for a well-formed request under a new id, on a current reading that has room for it
   * beside the buffer and what the scope holds once its overdue rows are gone; otherwise it says what is wrong.
   */
  lemma ReservesIff(db: Db, q: Request, limits: Limits, now: real, blind: set<int>)
    ensures var (after, code) := ReserveTx(db, q, limits, now, blind);
            var held := HeldIn(ExpireTx(db, Some(q.scope), now, blind).rows, q.scope);
            && (code == OK_RESERVED <==>
                WellAsked(q) && q.id !in db.rows && Current(q.reading, now, limits.maxAge)
                && q.amount <= q.reading.value - limits.buffer - held)
            && match code
               case OK_RESERVED => true
               case OK_IDEMPOTENT => q.id in db.rows && db.rows[q.id].state in {RESERVED, COMMITTED}
               case INTENT_ID_SPENT => q.id in db.rows && db.rows[q.id].state in {RELEASED, EXPIRED}
               case INTENT_ID_CONFLICT => q.id in db.rows
               case FIELD_INVALID => !WellAsked(q)
               case AMOUNT_INVALID => q.amount <= 0.0
               case TTL_INVALID => q.ttl <= 0.0
               case AVAILABLE_UNCONFIRMED => !q.reading.confirmed
               case AVAILABLE_INVALID => !q.reading.sourced || q.reading.value < 0.0
               case AVAILABLE_STALE => now - q.reading.asOf > limits.maxAge || q.reading.asOf - now > limits.maxAge
               case INSUFFICIENT_FREE_CAPITAL =>
                 WellAsked(q) && q.id !in db.rows && Current(q.reading, now, limits.maxAge)
                 && q.reading.value - limits.buffer - held < q.amount
               case _ => false
  {
    hide ExpireTx, LiveTotal, HeldIn;
    HeldIs(ExpireTx(db, Some(q.scope), now, blind).rows, q.scope);
  }

  /** A commit succeeds exactly for a reserved row and binds it to the link; committed to it already, it says so. */
  lemma CommitsIff(db: Db, id: int, link: int)
    ensures var (after, code) := CommitTx(db, id, link);
            && (code == OK_COMMITTED <==> link != BLANK && id in db.rows && db.rows[id].state == RESERVED)
            && (code == OK_IDEMPOTENT <==>
                link != BLANK && id in db.rows && db.rows[id].state == COMMITTED && db.rows[id].link == link)
            && (code == OK_COMMITTED ==> after.rows == db.rows[id := db.rows[id].(state := COMMITTED, link := link)])
            && (code != OK_COMMITTED ==> after == db)
  {
  }

  /** A release succeeds exactly for a live row whose orders can be read and are all finished. */
  lemma ReleasesIff(db: Db, id: int, blind: set<int>)
    ensures var (after, code) := ReleaseTx(db, id, blind);
            && (code == OK_RELEASED <==>
                && id in db.rows && db.rows[id].state in {RESERVED, COMMITTED} && id !in blind
                && forall l :: l in db.orders ==> !Backs(db, id, db.rows[id], l))
            && (code == OK_IDEMPOTENT <==> id in db.rows && db.rows[id].state == RELEASED)
            && (code == OK_RELEASED ==> after.rows == db.rows[id := db.rows[id].(state := RELEASED)])
            && (code != OK_RELEASED ==> after.rows == db.rows)
  {
    hide Unresolved;
    if id in db.rows { UnresolvedIff(db, id); }
  }

  lemma InsertAdds(db: Db, held: real, q: Request, limits: Limits, now: real)
    requires q.id !in db.rows && Decide(db, held, q, limits, now).1 == OK_RESERVED
    ensures LiveTotal(Decide(db, held, q, limits, now).0.rows, Some(q.scope)) == LiveTotal(db.rows, Some(q.scope))
                                                                                 + q.amount
    ensures held + q.amount <= q.reading.value - limits.buffer
  {
    hide LiveTotal;
    InsertTotal(db.rows, q.id, Row(q.strategy, q.scope, q.purpose, q.amount, RESERVED, BLANK, now + q.ttl),
                Some(q.scope));
  }

  lemma ExpiryTxAddsNoRow(db: Db, scope: Option<int>, now: real, blind: set<int>)
    ensures ExpireTx(db, scope, now, blind).rows.Keys == db.rows.Keys
  {
    ExpiryAddsNoRow(db, Ascending(db.rows.Keys), scope, now, blind);
  }

  lemma {:induction false} ExpiryAddsNoRow(db: Db, ids: seq<int>, scope: Option<int>, now: real, blind: set<int>)
    ensures ExpireEach(db, ids, scope, now, blind).rows.Keys == db.rows.Keys
    decreases |ids|
  {
    if ids != [] { ExpiryAddsNoRow(db, ids[..|ids| - 1], scope, now, blind); }
  }

  /** Asking again with an id that was ever used claims nothing and writes nothing, whatever else has changed. */
  lemma ReplayClaimsNothing(db: Db, q: Request, limits: Limits, now: real, blind: set<int>)
    requires q.id in db.rows && BadRequest(q).None?
    ensures var (after, code) := ReserveTx(db, q, limits, now, blind);
            && after == db
            && (code == OK_IDEMPOTENT <==>
                var row := db.rows[q.id];
                Live(row.state) && row.strategy == q.strategy && row.scope == q.scope && row.purpose == q.purpose
                && row.amount == q.amount)
  {
  }

  // ---------------------------------------------------------------- dollars behind an unresolved order

  /** No transaction moves a live row out of the live states while an order tied to it has no terminal status. */
  lemma HeldWhileUnresolved(db: Db, op: Op, limits: Limits, id: int)
    requires id in db.rows && Live(db.rows[id].state) && OrderUnresolved(db, id)
    ensures var after := Exec(db, op, limits); id in after.rows && Live(after.rows[id].state)
  {
    hide Ascending, LiveTotal;
    match op {
      case Reserve(q, now, blind) => ExpiresExactly(db, Ascending(db.rows.Keys), Some(q.scope), now, blind, id);
      case Expire(scope, now, blind) => ExpiresExactly(db, Ascending(db.rows.Keys), scope, now, blind, id);
      case _ =>
    }
  }

  /** At every point of the run some order tied to the reservation is unresolved. */
  predicate UnresolvedThroughout(db: Db, ops: seq<Op>, limits: Limits, id: int)
    decreases |ops|
  {
    && id in db.rows && OrderUnresolved(db, id)
    && (ops != [] ==> UnresolvedThroughout(Exec(db, ops[0], limits), ops[1..], limits, id))
  }

  lemma {:induction false} HeldThroughout(db: Db, ops: seq<Op>, limits: Limits, id: int)
    requires UnresolvedThroughout(db, ops, limits, id) && Live(db.rows[id].state)
    ensures var after := Run(db, ops, limits); id in after.rows && Live(after.rows[id].state)
    decreases |ops|
  {
    if ops != [] {
      HeldWhileUnresolved(db, ops[0], limits, id);
      HeldThroughout(Exec(db, ops[0], limits), ops[1..], limits, id);
    }
  }

  // ---------------------------------------------------------------- no row expires before its time

  /** The clock an operation expires by, if it has one, reads before the row's time. */
  predicate Early(op: Op, row: Row)
  {
    (op.Reserve? ==> op.now < row.expires) && (op.Expire? ==> op.now < row.expires)
  }

  /** The row stands under its terms, and has not expired. */
  predicate StandsAs(rows: map<int, Row>, id: int, row: Row)
  {
    id in rows && rows[id].state != EXPIRED && rows[id].(state := row.state, link := row.link) == row
  }

  lemma StandsOneMore(db: Db, op: Op, limits: Limits, id: int, row: Row)
    requires StandsAs(db.rows, id, row) && Early(op, row)
    ensures StandsAs(Exec(db, op, limits).rows, id, row)
  {
    hide Ascending, LiveTotal, Unresolved, ReadingRefused;
    match op {
      case Reserve(q, now, blind) => ExpiresExactly(db, Ascending(db.rows.Keys), Some(q.scope), now, blind, id);
      case Expire(scope, now, blind) => ExpiresExactly(db, Ascending(db.rows.Keys), scope, now, blind, id);
      case _ =>
    }
  }

  /** No run whose clocks read before a row's time expires it. */
  lemma {:induction false} StandsUntilDue(db: Db, ops: seq<Op>, limits: Limits, id: int, row: Row)
    requires StandsAs(db.rows, id, row) && forall k :: 0 <= k < |ops| ==> Early(ops[k], row)
    ensures StandsAs(Run(db, ops, limits).rows, id, row)
    decreases |ops|
  {
    hide Exec;
    if ops != [] {
      StandsOneMore(db, ops[0], limits, id, row);
      StandsUntilDue(Exec(db, ops[0], limits), ops[1..], limits, id, row);
    }
  }

  /** So a reservation granted is there for its whole time, on the terms it was asked for, whatever runs meanwhile. */
  lemma GrantStands(db: Db, q: Request, limits: Limits, now: real, blind: set<int>, ops: seq<Op>)
    requires ReserveTx(db, q, limits, now, blind).1 == OK_RESERVED
    requires forall k :: 0 <= k < |ops| ==> (ops[k].Reserve? ==> ops[k].now < now + q.ttl)
                                            && (ops[k].Expire? ==> ops[k].now < now + q.ttl)
    ensures var granted, end := ReserveTx(db, q, limits, now, blind).0, Run(ReserveTx(db, q, limits, now, blind).0, ops,
                                                                            limits);
            var row := Row(q.strategy, q.scope, q.purpose, q.amount, RESERVED, BLANK, now + q.ttl);
            q.id in granted.rows && granted.rows[q.id] == row && StandsAs(end.rows, q.id, row)
  {
    hide ExpireTx, LiveTotal, Run;
    StandsUntilDue(ReserveTx(db, q, limits, now, blind).0, ops, limits, q.id,
                   Row(q.strategy, q.scope, q.purpose, q.amount, RESERVED, BLANK, now + q.ttl));
  }

  // ---------------------------------------------------------------- several writers

  /**
   * Where a writer is in its transaction. What it reads before its first write is read without the lock: commit and
   * release look the row up to find its scope, and an expiry that names no scope lists its due rows and looks up the
   * orders of the first. The first write is the scope-lock write, which takes the store's one write lock; the row is
   * then read again, or the held dollars summed, and the transaction settles and commits.
   */
  datatype Phase = Idle | Asked(op: Op) | Seen(op: Op, row: Row) | Locked(op: Op) | Reread(op: Op, row: Row)
                 | Summed(op: Op, mid: Db, held: real) | Listed(op: Op, ids: seq<int>, rows: map<int, Row>)
                 | Judged(op: Op, ids: seq<int>, rows: map<int, Row>, firstUsed: bool)

  /** What a writer's next step does: nothing (it waits for the lock), one step of its own, or its commit. */
  datatype Turn = Wait | Go(phase: Phase) | Settle(db: Db, code: Option<Code>)

  /**
   * One row of a list made before the lock, and whether it was found to be still in use: the update looks at the row as
   * it is, the event says what the list said.
   */
  function ExpireListedOne(db: Db, id: int, row: Row, used: bool): Db
  {
    if used then Log(db, id, EXPIRY_DEFERRED, Some(RESERVED), Some(RESERVED), row.amount)
    else
      Log(db, id, EXPIRE, Some(RESERVED), Some(EXPIRED), row.amount)
      .(rows := if id in db.rows
                   && db.rows[id].state == RESERVED then db.rows[id := db.rows[id].(state := EXPIRED)] else db.rows)
  }

  predicate InUse(db: Db, id: int, row: Row, blind: set<int>) { id in blind || Unresolved(db.orders, id, row.link) }

  /** The list, row by row. The first row's orders were looked up before the first write, hence before the lock. */
  function ExpireListed(db: Db, ids: seq<int>, rows: map<int, Row>, blind: set<int>, firstUsed: bool): Db
    decreases |ids|
  {
    if ids == [] then db
    else
      var last := |ids| - 1;
      var mid := ExpireListed(db, ids[..last], rows, blind, firstUsed);
      if ids[last] !in rows then mid
      else
        var row := rows[ids[last]];
        ExpireListedOne(mid, ids[last], row, if last == 0 then firstUsed else InUse(mid, ids[last], row, blind))
  }

  predicate HoldsLock(p: Phase) { p.Locked? || p.Reread? || p.Summed? }

  function TakeLock(op: Op, free: bool): Turn { if free then Go(Locked(op)) else Wait }

  function DueIds(db: Db, now: real): seq<int> { Ascending(set id | id in db.rows && Due(db, id, None, now)) }

  /** The first step: what can be answered without the lock is, and commit and release read their row. */
  function AskedTurn(db: Db, op: Op, free: bool): Turn
  {
    match op
    case Reserve(q, _, _) => if BadRequest(q).Some? then Settle(db, Some(BadRequest(q).value)) else TakeLock(op, free)
    case Commit(id, link) =>
      if link == BLANK then Settle(db, Some(FIELD_INVALID))
      else if id !in db.rows then Settle(db, Some(NO_SUCH_RESERVATION))
      else Go(Seen(op, db.rows[id]))
    case Release(id, _) => if id !in db.rows then Settle(db, Some(NO_SUCH_RESERVATION)) else Go(Seen(op, db.rows[id]))
    case Expire(scope, now, _) =>
      if scope.Some? then TakeLock(op, free)
      else Go(Listed(op, DueIds(db, now), db.rows))
    case WriteOrder(_, _) => TakeLock(op, free)
  }

  /** Under the lock: read the row again, sum the scope, or (nothing read before) do the whole of it. */
  function LockedTurn(db: Db, op: Op, limits: Limits): Turn
  {
    match op
    case Reserve(q, now, blind) =>
      (match Prepare(db, q, limits, now, blind)
       case Answer(after, code) => Settle(after, Some(code))
       case Ready(mid, held) => Go(Summed(op, mid, held)))
    case Commit(id, _) => if id in db.rows then Go(Reread(op, db.rows[id])) else Wait
    case Release(id, _) => if id in db.rows then Go(Reread(op, db.rows[id])) else Wait
    case Expire(scope, now, blind) => Settle(ExpireTx(db, scope, now, blind), None)
    case WriteOrder(link, order) => Settle(db.(orders := db.orders[link := order]), None)
  }

  function RereadTurn(db: Db, op: Op, row: Row): Turn
  {
    match op
    case Commit(id, link) => var (after, code) := CommitOn(db, id, row, link); Settle(after, Some(code))
    case Release(id, blind) => var (after, code) := ReleaseOn(db, id, row, blind); Settle(after, Some(code))
    case _ => Wait
  }

  function SummedTurn(op: Op, mid: Db, held: real, limits: Limits): Turn
  {
    match op
    case Reserve(q, now, _) => var (after, code) := Decide(mid, held, q, limits, now); Settle(after, Some(code))
    case _ => Wait
  }

  function TurnOf(db: Db, p: Phase, free: bool, limits: Limits): Turn
  {
    match p
    case Idle => Wait
    case Asked(op) => AskedTurn(db, op, free)
    case Seen(op, _) => TakeLock(op, free)
    case Listed(op, ids, rows) =>
      if !op.Expire? then Wait
      else if ids == [] || ids[0] !in rows then Settle(db, None)
      else Go(Judged(op, ids, rows, InUse(db, ids[0], rows[ids[0]], op.blind)))
    case Judged(op, ids, rows, firstUsed) =>
      if free && op.Expire? then Settle(ExpireListed(db, ids, rows, op.blind, firstUsed), None) else Wait
    case Locked(op) => LockedTurn(db, op, limits)
    case Reread(op, row) => RereadTurn(db, op, row)
    case Summed(op, mid, held) => SummedTurn(op, mid, held, limits)
  }

  /**
   * The committed database, the writers, who holds the lock, and the transactions committed so far with their answers.
   */
  datatype Shared = Shared(db: Db, writers: seq<Phase>, holder: Option<nat>, done: seq<Op>, told: seq<Option<Code>>)

  datatype Action = Ask(writer: nat, op: Op) | Step(writer: nat)

  function Advance(s: Shared, m: Action, limits: Limits): Shared
  {
    var i := m.writer;
    if i >= |s.writers| then s
    else match m
         case Ask(_, op) => if s.writers[i].Idle? then s.(writers := s.writers[i := Asked(op)]) else s
         case Step(_) =>
           match TurnOf(s.db, s.writers[i], s.holder.None?, limits)
           case Wait => s
           case Go(p) => s.(writers := s.writers[i := p], holder := if HoldsLock(p) then Some(i) else s.holder)
           case Settle(after, code) =>
             Shared(after, s.writers[i := Idle], if s.holder == Some(i) then None else s.holder,
                    s.done + [s.writers[i].op], s.told + [code])
  }

  /**
   * What a writer has in hand is still the truth: for the lock holder all of it, for a waiting one only the row's
   * scope.
   */
  ghost predicate Fits(db: Db, p: Phase, limits: Limits)
  {
    match p
    case Idle => true
    case Asked(op) => NamesScope(op)
    case Listed(_, _, _) => false
    case Judged(_, _, _, _) => false
    case Seen(op, row) => Names(op).Some? && Names(op).value in db.rows && db.rows[Names(op).value].scope == row.scope
                          && LinkGiven(op)
    case Locked(op) => NamesScope(op) && (Names(op).Some? ==> Names(op).value in db.rows && LinkGiven(op))
                       && (op.Reserve? ==> BadRequest(op.q).None?)
    case Reread(op, row) => Names(op).Some? && Names(op).value in db.rows && db.rows[Names(op).value] == row
                            && LinkGiven(op)
    case Summed(op, mid, held) => op.Reserve? && Prepare(db, op.q, limits, op.now, op.blind) == Ready(mid, held)
  }

  /** The reservation a commit or release names. */
  function Names(op: Op): Option<int>
  {
    match op
    case Commit(id, _) => Some(id)
    case Release(id, _) => Some(id)
    case _ => None
  }

  predicate LinkGiven(op: Op) { op.Commit? ==> op.link != BLANK }

  /** Every expiry but one that names no scope takes the lock before it reads. */
  predicate NamesScope(op: Op) { op.Expire? ==> op.scope.Some? }

  /**
   * A settled transaction did exactly what it would have done alone, on the database it commits to, and said so; and a
   * lock holder is never stuck. Commit and release owe it to the second read, a reservation to the lock.
   */
  lemma TurnIsAtomic(db: Db, p: Phase, free: bool, limits: Limits)
    requires Fits(db, p, limits)
    ensures match TurnOf(db, p, free, limits)
            case Wait => !HoldsLock(p)
            case Go(next) => Fits(db, next, limits) && (HoldsLock(next) ==> HoldsLock(p) || free)
                             && (HoldsLock(p) ==> HoldsLock(next))
            case Settle(after, code) =>
              && !p.Idle? && after == Exec(db, p.op, limits) && code == Told(db, p.op, limits)
              && (!HoldsLock(p) ==> after == db)
  {
    hide ExpireTx, Decide, LiveTotal, CommitOn, ReleaseOn, Ascending, ReadingRefused;
  }

  /** What a writer who does not hold the lock has in hand survives anyone else's commit. */
  lemma FitsStill(db: Db, after: Db, p: Phase, limits: Limits)
    requires Fits(db, p, limits) && !HoldsLock(p) && Evolves(db, after)
    ensures Fits(after, p, limits)
  {
    hide Prepare;
    if p.Seen? { assert RowEvolves(db.rows[Names(p.op).value], after.rows[Names(p.op).value]); }
  }

  ghost predicate EachFits(s: Shared, limits: Limits)
  {
    forall k :: 0 <= k < |s.writers| ==>
                  Fits(s.db, s.writers[k], limits) && (HoldsLock(s.writers[k]) <==> s.holder == Some(k))
  }

  /** The committed transactions, in the order they committed, run one after the other from `db0`, and their answers. */
  ghost predicate Serial(s: Shared, db0: Db, limits: Limits)
  {
    && s.db == Run(db0, s.done, limits) && |s.told| == |s.done|
    && forall k :: 0 <= k < |s.done| ==> s.told[k] == Told(Run(db0, s.done[..k], limits), s.done[k], limits)
  }

  ghost predicate Consistent(s: Shared, db0: Db, limits: Limits)
  {
    EachFits(s, limits) && Serial(s, db0, limits) && Agrees(s.db)
  }

  lemma {:induction false} RunThen(db: Db, ops: seq<Op>, op: Op, limits: Limits)
    ensures Run(db, ops + [op], limits) == Exec(Run(db, ops, limits), op, limits)
    decreases |ops|
  {
    hide Exec;
    if ops == [] {
      assert ops + [op] == [op];
      assert Run(Exec(db, op, limits), [], limits) == Exec(db, op, limits);
    } else {
      assert (ops + [op])[0] == ops[0] && (ops + [op])[1..] == ops[1..] + [op];
      RunThen(Exec(db, ops[0], limits), ops[1..], op, limits);
    }
  }

  lemma SerialThen(s: Shared, after: Shared, db0: Db, op: Op, limits: Limits)
    requires Serial(s, db0, limits) && after.done == s.done + [op]
    requires after.db == Exec(s.db, op, limits) && after.told == s.told + [Told(s.db, op, limits)]
    ensures Serial(after, db0, limits)
  {
    hide Exec, Told, Run;
    RunThen(db0, s.done, op, limits);
    forall k | 0 <= k < |after.done|
      ensures after.told[k] == Told(Run(db0, after.done[..k], limits), after.done[k], limits) {
      if k < |s.done| {
        assert after.done[..k] == s.done[..k];
        assert s.told[k] == Told(Run(db0, s.done[..k], limits), s.done[k], limits);
      } else {
        assert after.done[..k] == s.done;
      }
    }
  }

  lemma SettleKeeps(s: Shared, db0: Db, i: nat, after: Db, code: Option<Code>, limits: Limits)
    requires Consistent(s, db0, limits) && i < |s.writers| && !s.writers[i].Idle?
    requires TurnOf(s.db, s.writers[i], s.holder.None?, limits) == Settle(after, code)
    ensures Consistent(Advance(s, Step(i), limits), db0, limits)
  {
    hide TurnOf, Exec, Told, Serial, Agrees, Evolves, Fits, Run;
    var op := s.writers[i].op;
    assert Fits(s.db, s.writers[i], limits) && (HoldsLock(s.writers[i]) <==> s.holder == Some(i));
    TurnIsAtomic(s.db, s.writers[i], s.holder.None?, limits);
    ExecKeeps(s.db, op, limits);
    var next := Advance(s, Step(i), limits);
    SerialThen(s, next, db0, op, limits);
    forall k | 0 <= k < |next.writers|
      ensures Fits(next.db, next.writers[k], limits) && (HoldsLock(next.writers[k]) <==> next.holder == Some(k)) {
      assert Fits(s.db, s.writers[k], limits) && (HoldsLock(s.writers[k]) <==> s.holder == Some(k));
      if k == i { IdleFits(after, limits); }
      else if !HoldsLock(s.writers[k]) { FitsStill(s.db, after, s.writers[k], limits); }
    }
  }

  lemma IdleFits(db: Db, limits: Limits)
    ensures Fits(db, Idle, limits)
  {
  }

  lemma AdvanceKeeps(s: Shared, m: Action, db0: Db, limits: Limits)
    requires Consistent(s, db0, limits) && (m.Ask? ==> NamesScope(m.op))
    ensures Consistent(Advance(s, m, limits), db0, limits)
  {
    hide TurnOf, Agrees, Serial;
    var i := m.writer;
    if i < |s.writers| {
      assert Fits(s.db, s.writers[i], limits) && (HoldsLock(s.writers[i]) <==> s.holder == Some(i));
      match m
      case Ask(_, op) =>
        SameHistory(s, Advance(s, m, limits), db0, limits);
      case Step(_) =>
        TurnIsAtomic(s.db, s.writers[i], s.holder.None?, limits);
        match TurnOf(s.db, s.writers[i], s.holder.None?, limits)
        case Wait =>
        case Go(p) => SameHistory(s, Advance(s, m, limits), db0, limits);
        case Settle(after, code) => SettleKeeps(s, db0, i, after, code, limits);
    }
  }

  lemma SameHistory(s: Shared, after: Shared, db0: Db, limits: Limits)
    requires Serial(s, db0, limits) && after.db == s.db && after.done == s.done && after.told == s.told
    ensures Serial(after, db0, limits)
  {
  }

  function AdvanceAll(s: Shared, moves: seq<Action>, limits: Limits): Shared
    decreases |moves|
  {
    if moves == [] then s else AdvanceAll(Advance(s, moves[0], limits), moves[1..], limits)
  }

  predicate AllNameScope(moves: seq<Action>)
  {
    forall k :: 0 <= k < |moves| && moves[k].Ask? ==> NamesScope(moves[k].op)
  }

  /** Under every interleaving of any number of writers, the database is what their transactions make one at a time. */
  lemma {:induction false} Linearizable(s: Shared, moves: seq<Action>, db0: Db, limits: Limits)
    requires Consistent(s, db0, limits) && AllNameScope(moves)
    ensures Consistent(AdvanceAll(s, moves, limits), db0, limits)
    decreases |moves|
  {
    hide Consistent, Advance;
    if moves != [] {
      AdvanceKeeps(s, moves[0], db0, limits);
      Linearizable(Advance(s, moves[0], limits), moves[1..], db0, limits);
    }
  }

  /** Nobody is in the middle of anything, and nothing has been done yet. */
  predicate AtRest(s: Shared)
  {
    s.done == [] && s.told == [] && s.holder.None? && forall k :: 0 <= k < |s.writers| ==> s.writers[k].Idle?
  }

  /**
   * No dollar is held twice. Whatever the writers do and however their steps interleave, each reservation that was told
   * it succeeded left its scope's held dollars, at its commit, within its own reading less the buffer; the event log
   * replays to the table; and no row is lost or re-used.
   */
  lemma SettledWithinReading(s: Shared, moves: seq<Action>, limits: Limits)
    requires AtRest(s) && Agrees(s.db) && AllNameScope(moves)
    ensures var after := AdvanceAll(s, moves, limits);
            && Agrees(after.db) && Evolves(s.db, after.db) && |after.told| == |after.done|
            && forall k :: 0 <= k < |after.done| && after.done[k].Reserve? && after.told[k] == Some(OK_RESERVED) ==>
                             var q := after.done[k].q;
                             LiveTotal(Run(s.db, after.done[..k + 1], limits).rows, Some(q.scope))
                             <= q.reading.value - limits.buffer
  {
    hide Fits, Evolves, LiveTotal, Exec, Agrees;
    forall k | 0 <= k < |s.writers| ensures Fits(s.db, s.writers[k], limits) { IdleFits(s.db, limits); }
    assert Run(s.db, [], limits) == s.db;
    Linearizable(s, moves, s.db, limits);
    var after := AdvanceAll(s, moves, limits);
    RunKeeps(s.db, after.done, limits);
    forall k | 0 <= k < |after.done| && after.done[k].Reserve? && after.told[k] == Some(OK_RESERVED)
      ensures LiveTotal(Run(s.db, after.done[..k + 1], limits).rows, Some(after.done[k].q.scope))
           <= after.done[k].q.reading.value - limits.buffer
    {
      SettledAt(s.db, after.done, k, limits);
    }
  }

  lemma SettledAt(db0: Db, done: seq<Op>, k: nat, limits: Limits)
    requires k < |done| && done[k].Reserve?
    requires Told(Run(db0, done[..k], limits), done[k], limits) == Some(OK_RESERVED)
    ensures LiveTotal(Run(db0, done[..k + 1], limits).rows, Some(done[k].q.scope))
         <= done[k].q.reading.value - limits.buffer
  {
    hide LiveTotal, ReserveTx, Run;
    var op := done[k];
    assert done[..k + 1] == done[..k] + [op];
    RunThen(db0, done[..k], op, limits);
    ReservedWithinReading(Run(db0, done[..k], limits), op.q, limits, op.now, op.blind);
  }

  /**
   * Why commit reads its row again: deciding on the row read before the lock, after another writer has committed it to
   * another link, reports success where there is a conflict and breaks the event chain for good.
   */
  lemma FirstReadIsNotEnough(db: Db, id: int, ours: int, theirs: int)
    requires Agrees(db) && id in db.rows && db.rows[id].state == RESERVED
    requires ours != theirs && ours != BLANK && theirs != BLANK
    ensures var mid := CommitTx(db, id, theirs).0;
            && CommitTx(mid, id, ours) == (mid, ORDER_LINK_CONFLICT)
            && CommitOn(mid, id, db.rows[id], ours).1 == OK_COMMITTED
            && !Agrees(CommitOn(mid, id, db.rows[id], ours).0)
  {
    hide Flow, LiveTotal;
    var mid := CommitTx(db, id, theirs).0;
    var after := CommitOn(mid, id, db.rows[id], ours).0;
    CommitKeeps(db, id, theirs);
    assert Replay(mid.events, id) == Some(Some(COMMITTED));
    assert after.events[..|after.events| - 1] == mid.events;
    assert Replay(after.events, id) == None;
  }

  // ---------------------------------------------------------------- the expiry that names no scope

  /** The list an expiry made earlier: its rows stand, under the same amounts, whatever has become of their states. */
  predicate ListOf(db: Db, ids: seq<int>, rows: map<int, Row>)
  {
    forall k :: 0 <= k < |ids| ==> ids[k] in rows && ids[k] in db.rows && rows[ids[k]].amount == db.rows[ids[k]].amount
  }

  predicate StillReserved(db: Db, ids: seq<int>)
  {
    forall k :: 0 <= k < |ids| ==> ids[k] in db.rows && db.rows[ids[k]].state == RESERVED
  }

  /** The turns of other rows leave a row and its events alone. */
  lemma {:induction false} OthersListed(db: Db, ids: seq<int>, rows: map<int, Row>, blind: set<int>, firstUsed: bool,
                                        id: int)
    requires id !in ids
    ensures var after := ExpireListed(db, ids, rows, blind, firstUsed);
            && Replay(after.events, id) == Replay(db.events, id) && after.orders == db.orders
            && (id in after.rows <==> id in db.rows) && (id in db.rows ==> after.rows[id] == db.rows[id])
    decreases |ids|
  {
    if ids != [] {
      var last := |ids| - 1;
      assert ids == ids[..last] + [ids[last]];
      OthersListed(db, ids[..last], rows, blind, firstUsed, id);
      var mid, after := ExpireListed(db, ids[..last], rows, blind, firstUsed),
                        ExpireListed(db, ids, rows, blind, firstUsed);
      if after != mid { assert after.events[..|after.events| - 1] == mid.events; }
    }
  }

  lemma {:induction false} ListedKeeps(db: Db, ids: seq<int>, rows: map<int, Row>, blind: set<int>, firstUsed: bool)
    requires Agrees(db) && StrictlyAscending(ids) && ListOf(db, ids, rows) && StillReserved(db, ids)
    ensures Agrees(ExpireListed(db, ids, rows, blind, firstUsed))
    decreases |ids|
  {
    hide Agrees, Replay;
    if ids != [] {
      var last := |ids| - 1;
      var id := ids[last];
      ListedKeeps(db, ids[..last], rows, blind, firstUsed);
      OthersListed(db, ids[..last], rows, blind, firstUsed, id);
      var mid := ExpireListed(db, ids[..last], rows, blind, firstUsed);
      LogOnly(mid, id, EXPIRY_DEFERRED, Some(RESERVED), rows[id].amount);
      MoveKeeps(mid, id, EXPIRE, EXPIRED, mid.rows[id].link);
    }
  }

  /** One row that has moved since the list was made breaks its chain of events, for good. */
  lemma {:induction false} ListedBreaks(db: Db, ids: seq<int>, rows: map<int, Row>, blind: set<int>, firstUsed: bool,
                                        k: nat)
    requires Agrees(db) && StrictlyAscending(ids) && ListOf(db, ids, rows)
    requires k < |ids| && db.rows[ids[k]].state != RESERVED
    ensures Replay(ExpireListed(db, ids, rows, blind, firstUsed).events, ids[k]) == None
    decreases |ids|
  {
    hide Flow, LiveTotal;
    var last := |ids| - 1;
    var mid, after := ExpireListed(db, ids[..last], rows, blind, firstUsed),
                      ExpireListed(db, ids, rows, blind, firstUsed);
    assert after.events[..|after.events| - 1] == mid.events;
    if k < last {
      ListedBreaks(db, ids[..last], rows, blind, firstUsed, k);
    } else {
      OthersListed(db, ids[..last], rows, blind, firstUsed, ids[last]);
      assert Replay(db.events, ids[last]) == Some(Some(db.rows[ids[last]].state));
    }
  }

  /**
   * An expiry that listed its rows before the lock keeps log and table in step exactly when none of them has moved
   * since.
   */
  lemma ListedKeepsIff(db: Db, ids: seq<int>, rows: map<int, Row>, blind: set<int>, firstUsed: bool)
    requires Agrees(db) && StrictlyAscending(ids) && ListOf(db, ids, rows)
    ensures Agrees(ExpireListed(db, ids, rows, blind, firstUsed)) <==> StillReserved(db, ids)
  {
    hide ExpireListed, Replay, Flow, LiveTotal;
    if StillReserved(db, ids) {
      ListedKeeps(db, ids, rows, blind, firstUsed);
    } else {
      var k :| 0 <= k < |ids| && !(ids[k] in db.rows && db.rows[ids[k]].state == RESERVED);
      ListedBreaks(db, ids, rows, blind, firstUsed, k);
    }
  }

  // ---------------------------------------------------------------- the runs that lose

  lemma {:induction false} MovesThen(s: Shared, first: seq<Action>, rest: seq<Action>, limits: Limits)
    ensures AdvanceAll(s, first + rest, limits) == AdvanceAll(AdvanceAll(s, first, limits), rest, limits)
    decreases |first|
  {
    hide Advance;
    if first == [] {
      assert first + rest == rest;
    } else {
      assert (first + rest)[1..] == first[1..] + rest;
      MovesThen(Advance(s, first[0], limits), first[1..], rest, limits);
    }
  }

  lemma OneMove(s: Shared, m: Action, limits: Limits)
    ensures AdvanceAll(s, [m], limits) == Advance(s, m, limits)
  {
    hide Advance;
    assert [m][1..] == [];
  }

  lemma ThreeMoves(s: Shared, a: Action, b: Action, c: Action, limits: Limits)
    ensures AdvanceAll(s, [a, b, c], limits) == Advance(Advance(Advance(s, a, limits), b, limits), c, limits)
  {
    hide Advance;
    assert [a, b, c] == [a] + ([b] + [c]);
    MovesThen(s, [a], [b] + [c], limits);
    MovesThen(Advance(s, a, limits), [b], [c], limits);
    OneMove(s, a, limits);
    OneMove(Advance(s, a, limits), b, limits);
    OneMove(Advance(Advance(s, a, limits), b, limits), c, limits);
  }

  function Pair(db: Db, p: Phase, done: seq<Op>, told: seq<Option<Code>>): Shared
  {
    Shared(db, [p, Idle], None, done, told)
  }

  /** What the first writer does before the lock: it lists the due rows and looks up the orders of the first. */
  function ListAndLook(now: real, blind: set<int>): seq<Action> { [Ask(0, Expire(None, now, blind)), Step(0), Step(0)] }

  function JudgedList(db: Db, now: real, blind: set<int>): Phase
    requires DueIds(db, now) != [] && DueIds(db, now)[0] in db.rows
  {
    var ids := DueIds(db, now);
    Judged(Expire(None, now, blind), ids, db.rows, InUse(db, ids[0], db.rows[ids[0]], blind))
  }

  lemma Listing(db: Db, now: real, blind: set<int>, limits: Limits)
    requires DueIds(db, now) != [] && DueIds(db, now)[0] in db.rows
    ensures AdvanceAll(Pair(db, Idle, [], []), ListAndLook(now, blind), limits)
         == Pair(db, JudgedList(db, now, blind), [], [])
  {
    hide DueIds, InUse;
    var list, s := Expire(None, now, blind), Pair(db, Idle, [], []);
    ThreeMoves(s, Ask(0, list), Step(0), Step(0), limits);
    assert Advance(Advance(s, Ask(0, list), limits), Step(0), limits)
        == Pair(db, Listed(list, DueIds(db, now), db.rows), [], []);
  }

  /** What another writer does in the meantime. */
  function CommitMoves(id: int, link: int): seq<Action>
  {
    [Ask(1, Commit(id, link)), Step(1), Step(1)] + ([Step(1)] + [Step(1)])
  }

  lemma CommitsBetween(db: Db, id: int, link: int, p: Phase, limits: Limits)
    requires id in db.rows && db.rows[id].state == RESERVED && link != BLANK
    ensures AdvanceAll(Pair(db, p, [], []), CommitMoves(id, link), limits)
         == Pair(CommitTx(db, id, link).0, p, [Commit(id, link)], [Some(OK_COMMITTED)])
  {
    hide Write;
    var commit, s := Commit(id, link), Pair(db, p, [], []);
    var locked := Shared(db, [p, Locked(commit)], Some(1), [], []);
    ThreeMoves(s, Ask(1, commit), Step(1), Step(1), limits);
    assert Advance(Advance(Advance(s, Ask(1, commit), limits), Step(1), limits), Step(1), limits) == locked;
    MovesThen(s, [Ask(1, commit), Step(1), Step(1)], [Step(1)] + [Step(1)], limits);
    MovesThen(locked, [Step(1)], [Step(1)], limits);
    OneMove(locked, Step(1), limits);
    OneMove(Advance(locked, Step(1), limits), Step(1), limits);
  }

  lemma WritesBetween(db: Db, link: int, order: Order, p: Phase, limits: Limits)
    ensures AdvanceAll(Pair(db, p, [], []), [Ask(1, WriteOrder(link, order)), Step(1), Step(1)], limits)
         == Pair(db.(orders := db.orders[link := order]), p, [WriteOrder(link, order)], [None])
  {
    var s := Pair(db, p, [], []);
    ThreeMoves(s, Ask(1, WriteOrder(link, order)), Step(1), Step(1), limits);
  }

  lemma ThenExpires(db: Db, p: Phase, done: seq<Op>, told: seq<Option<Code>>, limits: Limits)
    requires p.Judged? && p.op.Expire?
    ensures AdvanceAll(Pair(db, p, done, told), [Step(0)], limits).db
         == ExpireListed(db, p.ids, p.rows, p.op.blind, p.firstUsed)
  {
    hide ExpireListed;
    OneMove(Pair(db, p, done, told), Step(0), limits);
  }

  /**
   * On any table with a due row: an expiry without a scope lists the row, another writer commits it, the expiry logs
   * its end, and log and table no longer tell one story. With a scope the list is made under the lock: `Linearizable`.
   */
  lemma ScopelessExpiryBreaks(db: Db, id: int, link: int, now: real, blind: set<int>, limits: Limits)
    requires Agrees(db) && Due(db, id, None, now) && link != BLANK
    ensures var s, moves := Pair(db, Idle, [], []), ListAndLook(now, blind) + (CommitMoves(id, link) + [Step(0)]);
            AtRest(s) && s.db == db && !Agrees(AdvanceAll(s, moves, limits).db)
  {
    hide Agrees, Advance, ExpireListed, DueIds, CommitTx, InUse;
    var s, db1 := Pair(db, Idle, [], []), CommitTx(db, id, link).0;
    CommittedSince(db, id, link, now);
    var p := JudgedList(db, now, blind);
    MovesThen(s, ListAndLook(now, blind), CommitMoves(id, link) + [Step(0)], limits);
    Listing(db, now, blind, limits);
    MovesThen(Pair(db, p, [], []), CommitMoves(id, link), [Step(0)], limits);
    CommitsBetween(db, id, link, p, limits);
    ThenExpires(db1, p, [Commit(id, link)], [Some(OK_COMMITTED)], limits);
    ListedKeepsIff(db1, p.ids, db.rows, blind, p.firstUsed);
  }

  lemma CommittedSince(db: Db, id: int, link: int, now: real)
    requires Agrees(db) && Due(db, id, None, now) && link != BLANK
    ensures var db1, ids := CommitTx(db, id, link).0, DueIds(db, now);
            && Agrees(db1) && ListOf(db1, ids, db.rows) && !StillReserved(db1, ids) && StrictlyAscending(ids)
            && ids != [] && ids[0] in db.rows
  {
    hide Agrees, Evolves;
    CommitKeeps(db, id, link);
    var db1, ids := CommitTx(db, id, link).0, DueIds(db, now);
    assert id in ids;
    forall k | 0 <= k < |ids|
      ensures ids[k] in db.rows && ids[k] in db1.rows && db.rows[ids[k]].amount == db1.rows[ids[k]].amount {
      assert ids[k] in ids;
    }
  }

  /**
   * And on any table whose first due row no order uses: the expiry looks, another writer sends an order for that row's
   * cycle, and the row expires with its dollars in use.
   */
  lemma ScopelessExpiryFrees(db: Db, id: int, link: int, order: Order, now: real, limits: Limits)
    requires Due(db, id, None, now) && !OrderUnresolved(db, id) && order.cycle == id && !order.terminal
             && link != BLANK && link !in db.orders
    requires forall other :: Due(db, other, None, now) ==> id <= other
    ensures var s, write := Pair(db, Idle, [], []), [Ask(1, WriteOrder(link, order)), Step(1), Step(1)];
            var after := AdvanceAll(s, ListAndLook(now, {}) + (write + [Step(0)]), limits).db;
            AtRest(s) && s.db == db && id in after.rows && after.rows[id].state == EXPIRED && OrderUnresolved(after, id)
  {
    hide Advance, ExpireListed, DueIds, Unresolved;
    var s, db1 := Pair(db, Idle, [], []), db.(orders := db.orders[link := order]);
    FirstDue(db, id, now);
    var p, write := JudgedList(db, now, {}), [Ask(1, WriteOrder(link, order)), Step(1), Step(1)];
    MovesThen(s, ListAndLook(now, {}), write + [Step(0)], limits);
    Listing(db, now, {}, limits);
    MovesThen(Pair(db, p, [], []), write, [Step(0)], limits);
    WritesBetween(db, link, order, p, limits);
    ThenExpires(db1, p, [WriteOrder(link, order)], [None], limits);
    FirstGoes(db1, p.ids, db.rows, {});
    NowUnresolved(db1.orders, id, link, db.rows[id].link);
  }

  lemma NowUnresolved(orders: map<int, Order>, id: int, l: int, link: int)
    requires l in orders && orders[l].cycle == id && !orders[l].terminal
    ensures Unresolved(orders, id, link)
  {
  }

  lemma FirstDue(db: Db, id: int, now: real)
    requires Due(db, id, None, now) && forall other :: Due(db, other, None, now) ==> id <= other
    ensures var ids := DueIds(db, now); ids != [] && ids[0] == id && StrictlyAscending(ids)
  {
    var ids := DueIds(db, now);
    assert id in ids;
    assert ids[0] in ids;
  }

  /** The first row of the list goes as it was judged; the turns of the others leave it alone. */
  lemma {:induction false} FirstGoes(db: Db, ids: seq<int>, rows: map<int, Row>, blind: set<int>)
    requires ids != [] && StrictlyAscending(ids) && ids[0] in rows && ids[0] in db.rows
             && db.rows[ids[0]].state == RESERVED
    ensures var after := ExpireListed(db, ids, rows, blind, false);
            after.orders == db.orders && ids[0] in after.rows
            && after.rows[ids[0]] == db.rows[ids[0]].(state := EXPIRED)
    decreases |ids|
  {
    hide InUse;
    var last := |ids| - 1;
    if last > 0 {
      FirstGoes(db, ids[..last], rows, blind);
    } else {
      assert ids[..0] == [];
    }
  }

  // ---------------------------------------------------------------- no row expires before its time, interleaved

  /** What a writer has in hand will not expire the row: no clock that late, no list it is on. */
  predicate Spares(p: Phase, id: int, row: Row)
  {
    match p
    case Idle => true
    case Asked(op) => Early(op, row)
    case Locked(op) => Early(op, row)
    case Seen(op, seen) => Early(op, row) && (Names(op) == Some(id) ==> StandsAs(map[id := seen], id, row))
    case Reread(op, seen) => Early(op, row) && (Names(op) == Some(id) ==> StandsAs(map[id := seen], id, row))
    case Summed(op, mid, _) => Early(op, row) && StandsAs(mid.rows, id, row) && (op.Reserve? ==> op.q.id != id)
    case Listed(op, ids, _) => Early(op, row) && id !in ids
    case Judged(op, ids, _, _) => Early(op, row) && id !in ids
  }

  lemma TurnSpares(db: Db, p: Phase, free: bool, limits: Limits, id: int, row: Row)
    requires StandsAs(db.rows, id, row) && Spares(p, id, row)
    ensures match TurnOf(db, p, free, limits)
            case Wait => true
            case Go(next) => Spares(next, id, row)
            case Settle(after, _) => StandsAs(after.rows, id, row)
  {
    hide LiveTotal, Ascending, Unresolved, ReadingRefused, ExpireListed, InUse, DueIds;
    match p {
      case Asked(op) =>
        if op.Expire? { NotListed(db, op.now, id, row); }
      case Locked(op) =>
        if op.Reserve? {
          ExpiresExactly(db, Ascending(db.rows.Keys), Some(op.q.scope), op.now, op.blind, id);
        } else if op.Expire? {
          ExpiresExactly(db, Ascending(db.rows.Keys), op.scope, op.now, op.blind, id);
        }
      case Judged(op, ids, rows, used) =>
        if op.Expire? { OthersListed(db, ids, rows, op.blind, used, id); }
      case _ =>
    }
  }

  lemma NotListed(db: Db, now: real, id: int, row: Row)
    requires StandsAs(db.rows, id, row) && now < row.expires
    ensures id !in DueIds(db, now)
  {
  }

  /**
   * Whatever the writers do and however their steps interleave, expiries without a scope included: no row expires while
   * every clock they expire by reads before its time.
   */
  lemma {:induction false} NotBeforeItsTime(s: Shared, moves: seq<Action>, limits: Limits, id: int, row: Row)
    requires StandsAs(s.db.rows, id, row) && forall k :: 0 <= k < |s.writers| ==> Spares(s.writers[k], id, row)
    requires forall k :: 0 <= k < |moves| && moves[k].Ask? ==> Early(moves[k].op, row)
    ensures StandsAs(AdvanceAll(s, moves, limits).db.rows, id, row)
    decreases |moves|
  {
    hide TurnOf, StandsAs, HoldsLock, Spares;
    if moves != [] {
      var i, next := moves[0].writer, Advance(s, moves[0], limits);
      if i < |s.writers| { TurnSpares(s.db, s.writers[i], s.holder.None?, limits, id, row); }
      forall k | 0 <= k < |next.writers| ensures Spares(next.writers[k], id, row) {
        IdleSpares(moves[0], id, row);
      }
      NotBeforeItsTime(next, moves[1..], limits, id, row);
    }
  }

  lemma IdleSpares(m: Action, id: int, row: Row)
    requires m.Ask? ==> Early(m.op, row)
    ensures Spares(Idle, id, row) && (m.Ask? ==> Spares(Asked(m.op), id, row))
  {
  }

  // ---------------------------------------------------------------- dollars behind an unresolved order, interleaved

  /** In every database the run goes through, some order tied to the reservation is unresolved. */
  predicate UnresolvedAlong(s: Shared, moves: seq<Action>, limits: Limits, id: int)
    decreases |moves|
  {
    && id in s.db.rows && OrderUnresolved(s.db, id)
    && (moves != [] ==> UnresolvedAlong(Advance(s, moves[0], limits), moves[1..], limits, id))
  }

  /**
   * Whatever the writers do and however their steps interleave, as long as every expiry names its scope: dollars behind
   * an order that is unresolved all along stay held. `ScopelessExpiryFrees` is what happens without a scope.
   */
  lemma {:induction false} HeldUnderInterleaving(s: Shared, moves: seq<Action>, db0: Db, limits: Limits, id: int)
    requires Consistent(s, db0, limits) && AllNameScope(moves) && UnresolvedAlong(s, moves, limits, id)
    requires Live(s.db.rows[id].state)
    ensures var after := AdvanceAll(s, moves, limits).db; id in after.rows && Live(after.rows[id].state)
    decreases |moves|
  {
    hide Consistent, Advance, OrderUnresolved;
    if moves != [] {
      AdvanceKeeps(s, moves[0], db0, limits);
      HeldByMove(s, moves[0], db0, limits, id);
      HeldUnderInterleaving(Advance(s, moves[0], limits), moves[1..], db0, limits, id);
    }
  }

  lemma HeldByMove(s: Shared, m: Action, db0: Db, limits: Limits, id: int)
    requires Consistent(s, db0, limits) && id in s.db.rows && OrderUnresolved(s.db, id) && Live(s.db.rows[id].state)
    ensures var after := Advance(s, m, limits).db; id in after.rows && Live(after.rows[id].state)
  {
    hide TurnOf, Agrees, Serial, OrderUnresolved, Exec, Told, Fits;
    var i := m.writer;
    if i < |s.writers| && m.Step? {
      assert Fits(s.db, s.writers[i], limits);
      TurnIsAtomic(s.db, s.writers[i], s.holder.None?, limits);
      if TurnOf(s.db, s.writers[i], s.holder.None?, limits).Settle? {
        HeldWhileUnresolved(s.db, s.writers[i].op, limits, id);
      }
    }
  }

  // ---------------------------------------------------------------- the store's own tables

  /** An order's write that can happen: its link id is not blank, and a later write does not re-home the order. */
  predicate Possible(db: Db, op: Op)
  {
    op.WriteOrder? ==> && op.link != BLANK
                       && (op.link in db.orders ==>
                             op.order.(terminal := db.orders[op.link].terminal) == db.orders[op.link])
  }

  lemma OnlyRowsExpire(db: Db, scope: Option<int>, now: real, blind: set<int>)
    ensures forall id :: Expires(db, id, scope, now, blind) ==> id in Ascending(db.rows.Keys)
  {
  }

  lemma NotYetJudged(db: Db, ids: seq<int>, i: nat, scope: Option<int>, now: real, blind: set<int>)
    requires StrictlyAscending(ids) && i < |ids| && ids[i] in db.rows
    ensures var mid := ExpireEach(db, ids[..i], scope, now, blind);
            Expires(mid, ids[i], scope, now, blind) <==> Expires(db, ids[i], scope, now, blind)
    ensures ExpireEach(db, ids[..i + 1], scope, now, blind)
         == ExpireOne(ExpireEach(db, ids[..i], scope, now, blind), ids[i], scope, now, blind)
  {
    ExpiresExactly(db, ids[..i], scope, now, blind, ids[i]);
    assert ids[..i + 1][..i] == ids[..i];
  }

  class CapitalReservations {
    const limits: Limits
    var rows: map<int, Row>
    var events: seq<Event>
    var orders: map<int, Order>

    ghost predicate Valid() reads this { Agrees(Contents()) && BLANK !in orders }

    function Contents(): Db reads this { Db(rows, events, orders) }

    constructor (limits: Limits)
      ensures Valid() && this.limits == limits && Contents() == Db(map[], [], map[])
    {
      this.limits, rows, events, orders := limits, map[], [], map[];
    }

    method Note(id: int, kind: Kind, before: Option<State>, after: Option<State>, amount: real)
      modifies this`events
      ensures Contents() == Log(old(Contents()), id, kind, before, after, amount)
    {
      events := events + [Event(id, kind, before, after, amount)];
    }

    /** `_linked_order_unresolved`: an unreadable order log counts as unresolved. */
    method LinkedOrderUnresolved(id: int, blind: set<int>) returns (yes: bool)
      requires id in rows
      ensures yes <==> id in blind || OrderUnresolved(Contents(), id)
    {
      if id in blind { return true; }
      if rows[id].link != BLANK && rows[id].link in orders && !orders[rows[id].link].terminal { return true; }
      if id in orders && !orders[id].terminal { return true; }
      yes := exists l :: l in orders && orders[l].cycle == id && !orders[l].terminal;
    }

    method ExpireRow(id: int, scope: Option<int>, now: real, blind: set<int>) returns (gone: bool)
      modifies this`rows, this`events
      ensures Contents() == ExpireOne(old(Contents()), id, scope, now, blind)
      ensures gone <==> Expires(old(Contents()), id, scope, now, blind)
    {
      if !Due(Contents(), id, scope, now) { return false; }
      var unresolved := LinkedOrderUnresolved(id, blind);
      if unresolved {
        Note(id, EXPIRY_DEFERRED, Some(RESERVED), Some(RESERVED), rows[id].amount);
      } else {
        rows := rows[id := rows[id].(state := EXPIRED)];
        Note(id, EXPIRE, Some(RESERVED), Some(EXPIRED), rows[id].amount);
      }
      gone := !unresolved;
    }

    /** `_expire_locked`: the due rows in id order. What it expires is exactly what should go, judged beforehand. */
    method ExpireStale(scope: Option<int>, now: real, blind: set<int>) returns (expired: set<int>)
      modifies this`rows, this`events
      ensures Contents() == ExpireTx(old(Contents()), scope, now, blind)
      ensures forall id :: id in expired <==> Expires(old(Contents()), id, scope, now, blind)
    {
      hide Expires, ExpireOne, Ascending;
      ghost var before := Contents();
      var ids := Ascending(rows.Keys);
      expired := {};
      for i := 0 to |ids|
        invariant Contents() == ExpireEach(before, ids[..i], scope, now, blind)
        invariant forall id :: id in expired <==> id in ids[..i] && Expires(before, id, scope, now, blind)
      {
        NotYetJudged(before, ids, i, scope, now, blind);
        var gone := ExpireRow(ids[i], scope, now, blind);
        if gone { expired := expired + {ids[i]}; }
        assert ids[..i + 1] == ids[..i] + [ids[i]];
      }
      assert ids[..|ids|] == ids;
      OnlyRowsExpire(before, scope, now, blind);
    }

    /** `reserve`. */
    method Reserve(q: Request, now: real, blind: set<int>) returns (code: Code)
      modifies this`rows, this`events
      ensures (Contents(), code) == ReserveTx(old(Contents()), q, limits, now, blind)
    {
      if q.strategy == BLANK || q.id == BLANK || q.scope == BLANK || q.purpose == BLANK { return FIELD_INVALID; }
      if q.amount <= 0.0 { return AMOUNT_INVALID; }
      if q.ttl <= 0.0 { return TTL_INVALID; }
      if q.id in rows {
        var row := rows[q.id];
        var same := row.strategy == q.strategy && row.scope == q.scope && row.purpose == q.purpose
                    && row.amount == q.amount;
        return if !same then INTENT_ID_CONFLICT else if Live(row.state) then OK_IDEMPOTENT else INTENT_ID_SPENT;
      }
      var bad := ReadingRefused(q.reading, now, limits.maxAge);
      if bad.Some? {
        Note(q.id, REFUSE, None, None, q.amount);
        return bad.value;
      }
      var _ := ExpireStale(Some(q.scope), now, blind);
      var held := LiveTotal(rows, Some(q.scope));
      if q.reading.value - held - limits.buffer < q.amount {
        Note(q.id, REFUSE, None, None, q.amount);
        return INSUFFICIENT_FREE_CAPITAL;
      }
      rows := rows[q.id := Row(q.strategy, q.scope, q.purpose, q.amount, RESERVED, BLANK, now + q.ttl)];
      Note(q.id, RESERVE, None, Some(RESERVED), q.amount);
      code := OK_RESERVED;
    }

    method Commit(id: int, link: int) returns (code: Code)
      modifies this`rows, this`events
      ensures (Contents(), code) == CommitTx(old(Contents()), id, link)
    {
      if link == BLANK { return FIELD_INVALID; }
      if id !in rows { return NO_SUCH_RESERVATION; }
      var row := rows[id];
      if row.state == COMMITTED { return if row.link == link then OK_IDEMPOTENT else ORDER_LINK_CONFLICT; }
      if row.state != RESERVED { return ILLEGAL_STATE; }
      rows := rows[id := row.(state := COMMITTED, link := link)];
      Note(id, COMMIT, Some(RESERVED), Some(COMMITTED), row.amount);
      code := OK_COMMITTED;
    }

    method Release(id: int, blind: set<int>) returns (code: Code)
      modifies this`rows, this`events
      ensures (Contents(), code) == ReleaseTx(old(Contents()), id, blind)
    {
      if id !in rows { return NO_SUCH_RESERVATION; }
      var row := rows[id];
      if row.state == RELEASED { return OK_IDEMPOTENT; }
      if row.state == EXPIRED { return ILLEGAL_STATE; }
      var unresolved := LinkedOrderUnresolved(id, blind);
      if unresolved {
        Note(id, RELEASE_REFUSED, Some(row.state), Some(row.state), row.amount);
        return ORDER_UNRESOLVED;
      }
      rows := rows[id := row.(state := RELEASED)];
      Note(id, RELEASE, Some(row.state), Some(RELEASED), row.amount);
      code := OK_RELEASED;
    }

    /** Whatever the other writers do between two of our transactions. */
    method OthersAct(n: nat)
      requires Valid()
      modifies this`rows, this`events, this`orders
      ensures Valid() && Evolves(old(Contents()), Contents()) && SameHomes(old(orders), orders)
    {
      for i := 0 to n
        invariant Valid() && Evolves(old(Contents()), Contents()) && SameHomes(old(orders), orders)
      {
        var op: Op := *;
        if Possible(Contents(), op) {
          ghost var mid := Contents();
          ExecKeeps(mid, op, limits);
          ExecKeepsOrders(mid, op, limits);
          var next := Exec(Contents(), op, limits);
          rows, events, orders := next.rows, next.events, next.orders;
          EvolvesTransitive(old(Contents()), mid, Contents());
        }
      }
    }
  }

  /** Orders stay on file under their cycle and symbol. */
  predicate SameHomes(before: map<int, Order>, after: map<int, Order>)
  {
    forall l :: l in before ==> l in after && after[l].cycle == before[l].cycle && after[l].symbol == before[l].symbol
  }

  lemma ExecKeepsOrders(db: Db, op: Op, limits: Limits)
    requires Possible(db, op) && BLANK !in db.orders
    ensures var after := Exec(db, op, limits); SameHomes(db.orders, after.orders) && BLANK !in after.orders
    ensures !op.WriteOrder? ==> Exec(db, op, limits).orders == db.orders
  {
    hide LiveTotal, ExpireEach, Ascending, Unresolved;
    match op {
      case Reserve(q, now, blind) => ExpiryKeepsOrders(db, Ascending(db.rows.Keys), Some(q.scope), now, blind);
      case Expire(scope, now, blind) => ExpiryKeepsOrders(db, Ascending(db.rows.Keys), scope, now, blind);
      case Commit(_, _) =>
      case Release(_, _) =>
      case WriteOrder(_, _) =>
    }
  }

  lemma {:induction false} ExpiryKeepsOrders(db: Db, ids: seq<int>, scope: Option<int>, now: real, blind: set<int>)
    ensures ExpireEach(db, ids, scope, now, blind).orders == db.orders
    decreases |ids|
  {
    if ids != [] { ExpiryKeepsOrders(db, ids[..|ids| - 1], scope, now, blind); }
  }

  // ---------------------------------------------------------------- the carry book's tick

  const CARRY := 1

  /**
   * A hold's turn to be given back, in the state `at` between `begin` and `end`: it is released exactly if it was live
   * then, its orders could be read and none of them was unresolved; and released it stays.
   */
  ghost predicate Turned(begin: Db, at: Db, end: Db, id: int, blind: set<int>, given: bool)
  {
    && Evolves(begin, at) && Evolves(at, end) && id in at.rows && id in end.rows
    && (given <==> Live(at.rows[id].state) && id !in blind && !OrderUnresolved(at, id))
    && (given ==> end.rows[id].state == RELEASED)
  }

  lemma TurnedLater(begin: Db, at: Db, mid: Db, end: Db, id: int, blind: set<int>, given: bool)
    requires Turned(begin, at, mid, id, blind, given) && Evolves(mid, end)
    ensures Turned(begin, at, end, id, blind, given)
  {
    hide OrderUnresolved;
    EvolvesTransitive(at, mid, end);
    assert RowEvolves(mid.rows[id], end.rows[id]);
  }

  ghost predicate AllTurned(begin: Db, turns: map<int, Db>, end: Db, blind: set<int>, released: set<int>)
  {
    forall id :: id in turns ==> Turned(begin, turns[id], end, id, blind, id in released)
  }

  lemma AllTurnedLater(begin: Db, turns: map<int, Db>, mid: Db, end: Db, blind: set<int>, released: set<int>)
    requires AllTurned(begin, turns, mid, blind, released) && Evolves(mid, end)
    ensures AllTurned(begin, turns, end, blind, released)
  {
    hide Turned, Evolves;
    forall id | id in turns ensures Turned(begin, turns[id], end, id, blind, id in released) {
      TurnedLater(begin, turns[id], mid, end, id, blind, id in released);
    }
  }

  lemma OneTurned(begin: Db, at: Db, id: int, blind: set<int>)
    requires Agrees(at) && Evolves(begin, at) && id in begin.rows
    ensures var (after, code) := ReleaseTx(at, id, blind); Turned(begin, at, after, id, blind, code == OK_RELEASED)
  {
    hide Agrees;
    ReleaseKeeps(at, id, blind);
  }

  class CarryCapitalAuthority {
    const store: CapitalReservations
    const scope: int
    const perp: int
    const spot: int

    constructor (store: CapitalReservations, scope: int, perp: int, spot: int)
      ensures this.store == store && this.scope == scope && this.perp == perp && this.spot == spot
    {
      this.store, this.scope, this.perp, this.spot := store, scope, perp, spot;
    }

    predicate Ours(row: Row) { Live(row.state) && row.strategy == CARRY && row.scope == scope }

    function CarryLive(): (ids: set<int>)
      reads store
      ensures forall id :: id in ids <==>
                           && id in store.rows && store.rows[id].state in {RESERVED, COMMITTED}
                           && store.rows[id].strategy == CARRY && store.rows[id].scope == scope
    {
      set id | id in store.rows && Ours(store.rows[id])
    }

    /** Some order of the cycle is on file, whatever its status. */
    predicate HasOrder(orders: map<int, Order>, cycle: int)
    {
      exists l :: l in orders && orders[l].cycle == cycle && (orders[l].symbol == perp || orders[l].symbol == spot)
    }

    lemma HasOrderStays(before: map<int, Order>, after: map<int, Order>, cycle: int)
      requires SameHomes(before, after) && HasOrder(before, cycle)
      ensures HasOrder(after, cycle)
    {
      var l :| l in before && before[l].cycle == cycle && (before[l].symbol == perp || before[l].symbol == spot);
      assert l in after;
    }

    /** The hold is committed to an order of its own cycle, a perp one unless the cycle has none. */
    ghost predicate BoundToItsCycle(id: int)
      reads store
    {
      && id in store.rows && store.rows[id].state == COMMITTED && store.rows[id].link in store.orders
      && var order := store.orders[store.rows[id].link];
      order.cycle == id && (order.symbol == perp || (order.symbol == spot
                                                     && forall l :: l in store.orders
                                                                    && store.orders[l].cycle == id ==>
                                                                      store.orders[l].symbol != perp))
    }

    /** `_commit`: bind a hold to an order of its cycle, a perp one if there is one. */
    method Bind(id: int)
      requires store.Valid()
      modifies store`rows, store`events
      ensures store.Valid() && Evolves(old(store.Contents()), store.Contents())
      ensures id in store.rows && HasOrder(store.orders, id) ==> store.rows[id].state != RESERVED
      ensures !HasOrder(store.orders, id) ==> store.Contents() == old(store.Contents())
      ensures store.Contents() != old(store.Contents()) ==> BoundToItsCycle(id)
    {
      var link := BLANK;
      if l :| l in store.orders && store.orders[l].cycle == id && store.orders[l].symbol == perp {
        link := l;
      } else if l :| l in store.orders && store.orders[l].cycle == id && store.orders[l].symbol == spot {
        link := l;
      }
      if link == BLANK { return; }
      CommitKeeps(store.Contents(), id, link);
      var _ := store.Commit(id, link);
    }

    /** Every hold that was RESERVED and has an order behind it is bound, whatever the other writers do meanwhile. */
    method BindAll(ids: seq<int>)
      requires store.Valid() && forall i :: 0 <= i < |ids| ==> ids[i] in store.rows
      modifies store`rows, store`events, store`orders
      ensures store.Valid() && Evolves(old(store.Contents()), store.Contents())
              && SameHomes(old(store.orders), store.orders)
      ensures forall i :: 0 <= i < |ids| && HasOrder(old(store.orders), ids[i]) ==>
                            ids[i] in store.rows && store.rows[ids[i]].state != RESERVED
    {
      hide Agrees;
      for i := 0 to |ids|
        invariant store.Valid() && Evolves(old(store.Contents()), store.Contents())
                  && SameHomes(old(store.orders), store.orders)
        invariant forall k :: 0 <= k < i && HasOrder(old(store.orders), ids[k]) ==>
                                ids[k] in store.rows && store.rows[ids[k]].state != RESERVED
      {
        ghost var mid := store.Contents();
        var n: nat := *;
        store.OthersAct(n);
        EvolvesTransitive(old(store.Contents()), mid, store.Contents());
        if HasOrder(old(store.orders), ids[i]) { HasOrderStays(old(store.orders), store.orders, ids[i]); }
        ghost var mid' := store.Contents();
        Bind(ids[i]);
        EvolvesTransitive(old(store.Contents()), mid', store.Contents());
        EvolvesTransitive(mid, mid', store.Contents());
      }
    }

    /** The first half of a tick: bind every hold with an order behind it, only then expire. */
    method BindThenExpire(now: real, blind: set<int>) returns (expired: set<int>)
      requires store.Valid()
      modifies store`rows, store`events, store`orders
      ensures store.Valid() && Evolves(old(store.Contents()), store.Contents())
      ensures forall id :: id in expired && id in old(CarryLive()) ==> !HasOrder(old(store.orders), id)
    {
      var ids := Ascending(CarryLive());
      forall i | 0 <= i < |ids| ensures ids[i] in store.rows {
        assert ids[i] in ids && ids[i] in CarryLive();
      }
      BindAll(ids);
      ghost var mid := store.Contents();
      var n: nat := *;
      store.OthersAct(n);
      EvolvesTransitive(old(store.Contents()), mid, store.Contents());
      ghost var mid' := store.Contents();
      ExpiryKeeps(mid', Ascending(mid'.rows.Keys), Some(scope), now, blind);
      expired := store.ExpireStale(Some(scope), now, blind);
      EvolvesTransitive(old(store.Contents()), mid', store.Contents());
      forall id | id in expired && id in ids ensures !HasOrder(old(store.orders), id) {
        assert mid'.rows[id].state == RESERVED;
        assert id in mid.rows && RowEvolves(mid.rows[id], mid'.rows[id]);
      }
    }

    /**
     * `sync`: bind, then expire, then give back, while the other writers go on with their own transactions. The expiry
     * never takes a hold of ours that was live, with an order of its cycle on file, when the tick began. Nothing is
     * given back while a pair is open, or on a look that saw a carry order in flight; and what is given back had, in
     * the state its release was decided on, no order that might still be using it.
     */
    method Sync(positionOpen: bool, now: real, blind: set<int>)
      returns (expired: set<int>, released: set<int>, ghost looked: Db, ghost turns: map<int, Db>)
      requires store.Valid()
      modifies store`rows, store`events, store`orders
      ensures store.Valid() && Evolves(old(store.Contents()), store.Contents())
      ensures forall id :: id in expired && id in old(CarryLive()) ==> !HasOrder(old(store.orders), id)
      ensures positionOpen || InFlight(looked.orders) ==> released == {}
      ensures released <= turns.Keys && AllTurned(old(store.Contents()), turns, store.Contents(), blind, released)
    {
      hide Agrees, Turned, Evolves;
      expired := BindThenExpire(now, blind);
      released, turns := {}, map[];
      ghost var mid := store.Contents();
      var n: nat := *;
      store.OthersAct(n);
      EvolvesTransitive(old(store.Contents()), mid, store.Contents());
      looked := store.Contents();
      if !positionOpen {
        mid := store.Contents();
        released, looked, turns := GiveBack(blind);
        EvolvesTransitive(old(store.Contents()), mid, store.Contents());
        forall id | id in turns
          ensures Turned(old(store.Contents()), turns[id], store.Contents(), id, blind, id in released) {
          TurnedSince(old(store.Contents()), mid, turns[id], store.Contents(), id, blind, id in released);
        }
      }
    }

    lemma TurnedSince(begin: Db, mid: Db, at: Db, end: Db, id: int, blind: set<int>, given: bool)
      requires Evolves(begin, mid) && Turned(mid, at, end, id, blind, given)
      ensures Turned(begin, at, end, id, blind, given)
    {
      EvolvesTransitive(begin, mid, at);
    }

    predicate InFlight(orders: map<int, Order>) { exists l :: l in orders && orders[l].carry && !orders[l].terminal }

    /**
     * The second half of a tick: the live holds are listed, the carry orders looked at, and if none is in flight each
     * hold is released in turn, the other writers acting before the look and before every release. Every hold listed
     * gets its turn.
     */
    method GiveBack(blind: set<int>) returns (released: set<int>, ghost looked: Db, ghost turns: map<int, Db>)
      requires store.Valid()
      modifies store`rows, store`events, store`orders
      ensures store.Valid() && Evolves(old(store.Contents()), store.Contents())
      ensures Evolves(old(store.Contents()), looked)
      ensures if InFlight(looked.orders) then released == {} && turns == map[] else turns.Keys == old(CarryLive())
      ensures released <= turns.Keys && AllTurned(old(store.Contents()), turns, store.Contents(), blind, released)
    {
      hide Agrees, Turned, Evolves, InFlight;
      released, turns := {}, map[];
      ghost var begin := store.Contents();
      var live := CarryLive();
      var ids := Ascending(live);
      LiveIdsAreRows(ids);
      var n: nat := *;
      store.OthersAct(n);
      looked := store.Contents();
      if InFlight(store.orders) { return; }
      released, turns := GiveEach(ids, blind, begin);
      assert forall id :: id in turns.Keys <==> id in live;
    }

    method GiveEach(ids: seq<int>, blind: set<int>, ghost begin: Db)
      returns (released: set<int>, ghost turns: map<int, Db>)
      requires store.Valid() && Evolves(begin, store.Contents()) && StrictlyAscending(ids)
      requires forall k :: 0 <= k < |ids| ==> ids[k] in begin.rows
      modifies store`rows, store`events, store`orders
      ensures store.Valid() && Evolves(begin, store.Contents())
      ensures released <= turns.Keys && (forall id :: id in turns <==> id in ids)
      ensures AllTurned(begin, turns, store.Contents(), blind, released)
    {
      hide Agrees, Turned, AllTurned, Evolves;
      released, turns := {}, map[];
      NoneTurned(begin, store.Contents(), blind);
      for i := 0 to |ids|
        invariant store.Valid() && Evolves(begin, store.Contents()) && released <= turns.Keys
        invariant forall id :: id in turns <==> id in ids[..i]
        invariant AllTurned(begin, turns, store.Contents(), blind, released)
      {
        var given;
        ghost var at;
        given, at := GiveOne(ids[i], blind, begin, released, turns);
        NotYet(ids, i);
        assert ids[..i + 1] == ids[..i] + [ids[i]];
        AlsoTurned(begin, turns, store.Contents(), blind, released, ids[i], at, given);
        if given { released := released + {ids[i]}; }
        turns := turns[ids[i] := at];
      }
      assert ids[..|ids|] == ids;
    }

    lemma NoneTurned(begin: Db, end: Db, blind: set<int>)
      ensures AllTurned(begin, map[], end, blind, {})
    {
    }

    /** One hold's turn, after whatever the others did in the meantime. */
    method GiveOne(id: int, blind: set<int>, ghost begin: Db, ghost released: set<int>, ghost turns: map<int, Db>)
      returns (given: bool, ghost at: Db)
      requires store.Valid() && Evolves(begin, store.Contents()) && id in begin.rows
      requires AllTurned(begin, turns, store.Contents(), blind, released)
      modifies store`rows, store`events, store`orders
      ensures store.Valid() && Evolves(begin, store.Contents())
              && AllTurned(begin, turns, store.Contents(), blind, released)
      ensures Turned(begin, at, store.Contents(), id, blind, given)
    {
      hide Agrees, ReleaseTx, Turned, AllTurned, Evolves, OrderUnresolved;
      ghost var mid := store.Contents();
      var n: nat := *;
      store.OthersAct(n);
      at := store.Contents();
      EvolvesTransitive(begin, mid, at);
      ReleaseKeeps(at, id, blind);
      OneTurned(begin, at, id, blind);
      var code := store.Release(id, blind);
      given := code == OK_RELEASED;
      EvolvesTransitive(mid, at, store.Contents());
      EvolvesTransitive(begin, at, store.Contents());
      AllTurnedLater(begin, turns, mid, store.Contents(), blind, released);
    }

    lemma AlsoTurned(begin: Db, turns: map<int, Db>, end: Db, blind: set<int>, released: set<int>, id: int, at: Db,
                     given: bool)
      requires AllTurned(begin, turns, end, blind, released) && Turned(begin, at, end, id, blind, given)
      requires id !in turns && released <= turns.Keys
      ensures AllTurned(begin, turns[id := at], end, blind, if given then released + {id} else released)
    {
      hide Turned;
    }

    lemma NotYet(ids: seq<int>, i: nat)
      requires StrictlyAscending(ids) && i < |ids|
      ensures ids[i] !in ids[..i]
    {
    }

    lemma LiveIdsAreRows(ids: seq<int>)
      requires ids == Ascending(CarryLive())
      ensures forall i :: 0 <= i < |ids| ==> ids[i] in store.rows && Live(store.rows[ids[i]].state)
    {
      forall i | 0 <= i < |ids| ensures ids[i] in CarryLive() { assert ids[i] in ids; }
    }
  }
}
