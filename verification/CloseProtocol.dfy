/**
 The durable close (`CloseExecutor`, `apply_close_step`, `mark_close_sent`) of one cycle. The planner may answer
 anything and the process may die between any two effects; what is claimed is what reaches the wire, and when.
 */
module CloseProtocol {
  import opened Basics
  import opened Ordering

  /** The longest between writing an intent and putting the request on the wire, in seconds. */
  const INTENT_TO_SEND_MAX_S := 5.0
  /** How far behind the intent's own stamp the clock may read before the send is abandoned. */
  const CLOCK_SLACK_S := 1.0

  datatype State = INTENT | SENT | FILLED | PARTIAL | CANCELLED | REJECTED | MOOT | NEVER_SENT

  predicate Resolved(s: State) { s != INTENT && s != SENT }

  datatype Row = Row(link: int, qty: real, state: State, filled: real, execs: set<int>, sends: nat, shortBefore: real,
                     intent: real)

  datatype Reason = ByPlanner(code: int) | Refused | Reversed

  /** The close log of a cycle: its attempts by number, the wait counters, the halt reason and the closed flag. */
  datatype Log = Log(rows: map<int, Row>, waits: nat, lag: nat, halted: Option<Reason>, closed: bool)

  datatype Resolution = Resolution(n: int, state: State, filled: real, execs: set<int>)

  datatype Attempt = Attempt(n: int, link: int, qty: real, shortBefore: real)

  datatype CloseStep = CloseStep(resolve: seq<Resolution>, opens: Option<Attempt>, again: Option<int>,
                                 waits: nat, lag: nat, halted: Option<Reason>, closed: bool)

  ghost function LinksOf(rows: map<int, Row>): set<int> { set n | n in rows :: rows[n].link }

  ghost predicate UniqueLinks(rows: map<int, Row>)
  {
    forall m, n :: m in rows && n in rows && rows[m].link == rows[n].link ==> m == n
  }

  // ---------------------------------------------------------------- one commit to the log

  function Resolve(rows: map<int, Row>, r: Resolution): Option<map<int, Row>>
  {
    if !Resolved(r.state) || r.n !in rows then None
    else
      var cur := rows[r.n];
      if Resolved(cur.state) then (if cur.state == r.state && cur.filled >= r.filled then Some(rows) else None)
      else Some(rows[r.n := cur.(state := r.state, filled := Max(cur.filled, r.filled), execs := cur.execs + r.execs)])
  }

  function ResolveAll(rows: map<int, Row>, resolve: seq<Resolution>): Option<map<int, Row>>
    decreases |resolve|
  {
    if resolve == [] then Some(rows)
    else match Resolve(rows, resolve[0])
         case None => None
         case Some(next) => ResolveAll(next, resolve[1..])
  }

  /** A new intent: its number and its link id must both be new. */
  function Insert(rows: map<int, Row>, a: Attempt, now: real): Option<map<int, Row>>
  {
    if a.n in rows || (exists n :: n in rows && rows[n].link == a.link) then None
    else Some(rows[a.n := Row(a.link, a.qty, INTENT, 0.0, {}, 1, a.shortBefore, now)])
  }

  function Again(rows: map<int, Row>, n: int, now: real): Option<map<int, Row>>
  {
    if n !in rows || Resolved(rows[n].state) then None
    else Some(rows[n := rows[n].(sends := rows[n].sends + 1, state := INTENT, intent := now)])
  }

  /** The transaction of one step: everything, or (None) an exception and nothing. */
  function Apply(log: Log, s: CloseStep, now: real): Option<Log>
  {
    match ResolveAll(log.rows, s.resolve)
    case None => None
    case Some(rows0) =>
      match (if s.opens.Some? then Insert(rows0, s.opens.value, now) else Some(rows0))
      case None => None
      case Some(rows1) =>
        match (if s.again.Some? then Again(rows1, s.again.value, now) else Some(rows1))
        case None => None
        case Some(rows2) =>
          Some(Log(rows2, s.waits, s.lag, if s.halted.Some? then s.halted else log.halted, log.closed || s.closed))
  }

  /** What no later commit may undo in an attempt. */
  ghost predicate RowAdvances(before: Row, after: Row)
  {
    && after.link == before.link && after.qty == before.qty && after.shortBefore == before.shortBefore
    && before.filled <= after.filled && before.execs <= after.execs && before.sends <= after.sends
    && (Resolved(before.state) ==> after == before)
  }

  ghost predicate RowsAdvance(before: map<int, Row>, after: map<int, Row>)
  {
    forall n :: n in before ==> n in after && RowAdvances(before[n], after[n])
  }

  ghost predicate SameIntents(before: map<int, Row>, after: map<int, Row>)
  {
    forall n :: n in before && n in after ==> after[n].intent == before[n].intent
  }

  ghost predicate Advances(before: Log, after: Log)
  {
    RowsAdvance(before.rows, after.rows) && (before.halted.Some? ==> after.halted.Some?)
    && (before.closed ==> after.closed)
  }

  lemma AdvancesTransitive(a: Log, b: Log, c: Log)
    requires Advances(a, b) && Advances(b, c)
    ensures Advances(a, c)
  {
    forall n | n in a.rows ensures n in c.rows && RowAdvances(a.rows[n], c.rows[n]) {
      assert n in b.rows && RowAdvances(a.rows[n], b.rows[n]);
    }
  }

  lemma LinksGrow(before: Log, after: Log)
    requires Advances(before, after)
    ensures LinksOf(before.rows) <= LinksOf(after.rows)
  {
    forall l | l in LinksOf(before.rows) ensures l in LinksOf(after.rows) {
      var n :| n in before.rows && before.rows[n].link == l;
      assert RowAdvances(before.rows[n], after.rows[n]);
    }
  }

  /** Ids that were on file and had not landed are still both, whatever landed since under new ids. */
  lemma StillAbsent(ids: set<int>, before: Log, after: Log, landed0: set<int>, landed1: set<int>)
    requires Advances(before, after) && ids <= LinksOf(before.rows) && ids !! landed0
    requires landed1 * LinksOf(before.rows) == landed0 * LinksOf(before.rows)
    ensures ids <= LinksOf(after.rows) && ids !! landed1
  {
    LinksGrow(before, after);
    forall l | l in ids ensures l !in landed1 {
      assert l in landed1 <==> l in landed1 * LinksOf(before.rows);
    }
  }

  /**
   * An attempt is resolved once: to any state but those of an open one; and again only to the same state, with no more
   * filled, which changes nothing.
   */
  lemma ResolvesOnce(rows: map<int, Row>, r: Resolution)
    ensures Resolve(rows, r).Some? <==>
            && r.n in rows && r.state !in {INTENT, SENT}
            && (rows[r.n].state !in {INTENT, SENT} ==> r.state == rows[r.n].state && r.filled <= rows[r.n].filled)
    ensures Resolve(rows, r).Some? ==> Resolve(Resolve(rows, r).value, r) == Resolve(rows, r)
  {
  }

  /** What resolutions leave of a row: named by none it is as it was, named by one it is resolved as that one says. */
  ghost predicate Rests(before: Row, after: Row, n: int, resolve: seq<Resolution>)
  {
    && ((forall i :: 0 <= i < |resolve| ==> resolve[i].n != n) || Resolved(before.state) ==> after == before)
    && forall i :: 0 <= i < |resolve| && resolve[i].n == n && !Resolved(before.state)
                   && (forall j :: 0 <= j < |resolve| && resolve[j].n == n ==> j == i) ==>
                     && after == before.(state := resolve[i].state, filled := after.filled,
                                 execs := before.execs + resolve[i].execs)
                     && after.filled == if before.filled < resolve[i].filled then resolve[i].filled else before.filled
  }

  lemma {:induction false} ResolvingAdvances(rows: map<int, Row>, resolve: seq<Resolution>)
    requires ResolveAll(rows, resolve).Some? && UniqueLinks(rows)
    ensures var after := ResolveAll(rows, resolve).value;
            after.Keys == rows.Keys && UniqueLinks(after) && RowsAdvance(rows, after) && SameIntents(rows, after)
    decreases |resolve|
  {
    if resolve != [] {
      ResolvingAdvances(Resolve(rows, resolve[0]).value, resolve[1..]);
    }
  }

  lemma {:induction false} ResolvingRests(rows: map<int, Row>, resolve: seq<Resolution>)
    requires ResolveAll(rows, resolve).Some?
    ensures var after := ResolveAll(rows, resolve).value;
            && after.Keys == rows.Keys
            && forall n :: n in rows ==>
                             && Rests(rows[n], after[n], n, resolve) && after[n].link == rows[n].link
                             && (!Resolved(after[n].state) ==> after[n] == rows[n])
    decreases |resolve|
  {
    hide Rests;
    if resolve == [] {
      forall n | n in rows { NothingRests(rows[n], n); }
    } else {
      var next, after := Resolve(rows, resolve[0]).value, ResolveAll(rows, resolve).value;
      ResolvingRests(next, resolve[1..]);
      forall n | n in rows ensures Rests(rows[n], after[n], n, resolve) {
        RestsAfterOne(rows[n], next[n], after[n], n, resolve);
      }
    }
  }

  lemma NothingRests(row: Row, n: int)
    ensures Rests(row, row, n, [])
  {
  }

  lemma RestsAfterOne(before: Row, next: Row, after: Row, n: int, resolve: seq<Resolution>)
    requires resolve != [] && Resolved(resolve[0].state) && Rests(next, after, n, resolve[1..])
    requires if resolve[0].n != n || Resolved(before.state) then next == before
             else next == before.(state := resolve[0].state, filled := Max(before.filled, resolve[0].filled),
                          execs := before.execs + resolve[0].execs)
    ensures Rests(before, after, n, resolve)
  {
    forall i | 0 < i < |resolve| ensures resolve[1..][i - 1] == resolve[i] {}
    if resolve[0].n != n {
      forall i | 0 <= i < |resolve| && resolve[i].n == n && !Resolved(before.state)
                 && (forall j :: 0 <= j < |resolve| && resolve[j].n == n ==> j == i)
        ensures after == before.(state := resolve[i].state, filled := after.filled,
                         execs := before.execs + resolve[i].execs)
        ensures after.filled == if before.filled < resolve[i].filled then resolve[i].filled else before.filled {
        assert resolve[1..][i - 1].n == n;
        forall j | 0 <= j < |resolve[1..]| && resolve[1..][j].n == n ensures j == i - 1 {
          assert resolve[j + 1].n == n;
        }
      }
      if forall i :: 0 <= i < |resolve| ==> resolve[i].n != n {
        forall i | 0 <= i < |resolve[1..]| ensures resolve[1..][i].n != n { assert resolve[i + 1].n != n; }
      }
    }
  }

  /**
   * A commit never reopens a resolved attempt, lowers a fill, forgets an execution, clears a halt or reopens a close;
   * a new intent is the only row added, under an id no row has; and intent times move only by a re-send.
   */
  lemma CommitAdvances(log: Log, s: CloseStep, now: real)
    requires Apply(log, s, now).Some? && UniqueLinks(log.rows)
    ensures var after := Apply(log, s, now).value;
            && Advances(log, after) && UniqueLinks(after.rows)
            && after.rows.Keys == log.rows.Keys + (if s.opens.Some? then {s.opens.value.n} else {})
            && (s.opens.Some? ==> s.opens.value.n !in log.rows && s.opens.value.link !in LinksOf(log.rows))
            && (s.again.None? ==> SameIntents(log.rows, after.rows))
            && (s.opens.Some? && s.again.None? ==>
                  var row := after.rows[s.opens.value.n];
                  row.link == s.opens.value.link && row.state == INTENT && row.intent == now)
  {
    ResolvingAdvances(log.rows, s.resolve);
  }

  // ---------------------------------------------------------------- the venue's executions

  /** Executions folded into a total, once per execution id; an unusable event (no id, negative) spoils the read. */
  function MergeFills(seen: set<int>, events: seq<(Option<int>, real)>): Option<(real, set<int>)>
    decreases |events|
  {
    if events == [] then Some((0.0, seen))
    else
      var (id, qty) := events[0];
      if id.None? || qty < 0.0 then None
      else match MergeFills(seen + {id.value}, events[1..])
           case None => None
           case Some((total, ids)) => Some(((if id.value in seen then 0.0 else qty) + total, ids))
  }

  /** The event is the first delivery of its execution. */
  predicate IsFirst(seen: set<int>, events: seq<(Option<int>, real)>, i: nat)
    requires i < |events|
  {
    && events[i].0.Some? && events[i].0.value !in seen
    && forall j :: 0 <= j < i ==> events[j].0 != events[i].0
  }

  /** Each execution's quantity, at its first delivery. */
  function Delivered(seen: set<int>, events: seq<(Option<int>, real)>): real
    decreases |events|
  {
    if events == [] then 0.0
    else
      var last := |events| - 1;
      Delivered(seen, events[..last]) + if IsFirst(seen, events, last) then events[last].1 else 0.0
  }

  lemma {:induction false} DeliveredTail(seen: set<int>, events: seq<(Option<int>, real)>)
    requires events != [] && events[0].0.Some?
    ensures Delivered(seen, events) == (if events[0].0.value in seen then 0.0 else events[0].1)
                                       + Delivered(seen + {events[0].0.value}, events[1..])
    decreases |events|
  {
    var last, id := |events| - 1, events[0].0.value;
    if last > 0 {
      DeliveredTail(seen, events[..last]);
      assert events[..last][1..] == events[1..][..last - 1];
      if IsFirst(seen + {id}, events[1..], last - 1) {
        forall j | 0 <= j < last ensures events[j].0 != events[last].0 {
          if j > 0 { assert events[1..][j - 1] == events[j]; }
        }
      }
    } else {
      assert events[..0] == [] && events[1..] == [];
    }
  }

  /** The fills add up to each execution's quantity once; an event with no id or a negative quantity spoils all. */
  lemma {:induction false} MergeCounts(seen: set<int>, events: seq<(Option<int>, real)>)
    ensures MergeFills(seen, events).Some? <==>
            forall i :: 0 <= i < |events| ==> events[i].0.Some? && events[i].1 >= 0.0
    ensures MergeFills(seen, events).Some? ==>
              && MergeFills(seen, events).value.0 == Delivered(seen, events)
              && forall id :: id in MergeFills(seen, events).value.1 <==>
                              id in seen || exists i :: 0 <= i < |events| && events[i].0 == Some(id)
    decreases |events|
  {
    if events != [] {
      assert forall i :: 0 <= i < |events| - 1 ==> events[1..][i] == events[i + 1];
      if events[0].0.Some? {
        MergeCounts(seen + {events[0].0.value}, events[1..]);
        DeliveredTail(seen, events);
        MergedIds(seen, events);
      }
    }
  }

  lemma MergedIds(seen: set<int>, events: seq<(Option<int>, real)>)
    requires events != [] && events[0].0.Some?
    ensures forall id :: (id in seen || exists i :: 0 <= i < |events| && events[i].0 == Some(id)) <==>
                         (id in seen + {events[0].0.value}
                          || exists i :: 0 <= i < |events[1..]| && events[1..][i].0 == Some(id))
  {
    forall id | exists i :: 0 <= i < |events| && events[i].0 == Some(id)
      ensures id == events[0].0.value || exists i :: 0 <= i < |events[1..]| && events[1..][i].0 == Some(id) {
      var i :| 0 <= i < |events| && events[i].0 == Some(id);
      if i > 0 { assert events[1..][i - 1].0 == Some(id); }
    }
    forall id | exists i :: 0 <= i < |events[1..]| && events[1..][i].0 == Some(id)
      ensures exists i :: 0 <= i < |events| && events[i].0 == Some(id) {
      var i :| 0 <= i < |events[1..]| && events[1..][i].0 == Some(id);
      assert events[i + 1].0 == Some(id);
    }
  }

  /** Delivering again what was already delivered adds nothing, wherever the repeats fall. */
  lemma {:induction false} RepeatsAddNothing(seen: set<int>, events: seq<(Option<int>, real)>)
    requires forall i :: 0 <= i < |events| ==> events[i].0.Some? && events[i].0.value in seen && events[i].1 >= 0.0
    ensures MergeFills(seen, events) == Some((0.0, seen))
    decreases |events|
  {
    if events != [] {
      assert seen + {events[0].0.value} == seen;
      RepeatsAddNothing(seen, events[1..]);
    }
  }

  // ---------------------------------------------------------------- the wire

  /** A request put on the wire for attempt `n`, with the clock that was read just before and the log then on disk. */
  datatype Send = Send(n: int, link: int, at: real, disk: Log)

  /** Durable first, at most five seconds old, and nothing on disk forbids it. */
  ghost predicate Permitted(s: Send)
  {
    && s.n in s.disk.rows && s.disk.rows[s.n].link == s.link && s.disk.rows[s.n].state == INTENT
    && -CLOCK_SLACK_S <= s.at - s.disk.rows[s.n].intent <= INTENT_TO_SEND_MAX_S
    && s.disk.halted.None? && !s.disk.closed
  }

  /** The attempt a request was sent for is still on file, and without re-sends still has the intent it left under. */
  ghost predicate OnFile(s: Send, rows: map<int, Row>, resend: bool)
  {
    s.n in s.disk.rows && s.n in rows && rows[s.n].link == s.link
    && (!resend ==> rows[s.n].intent == s.disk.rows[s.n].intent)
  }

  ghost predicate EachLinkOnce(sends: seq<Send>)
  {
    forall i, j :: 0 <= i < j < |sends| ==> sends[i].link != sends[j].link
  }

  ghost function SentLinks(sends: seq<Send>): set<int> { set i | 0 <= i < |sends| :: sends[i].link }

  datatype OrderRead = Unreadable | Absent | Shown(status: int, cum: real)

  datatype Outcome = Declined | InDoubt | Returned(filled: Option<real>)

  /** The disk, the wire and the venue: everything that outlives the process. */
  class World {
    /** `absence_window_s`: a request that left is visible this long after, or it never exists. */
    const window: real
    /** Whether the planner may send an attempt again under its own link id (`resend_same_link_id`). */
    const resend: bool
    /** Every read and write of the log succeeds, the process lives, and the broker declines nothing. */
    const steady: bool
    var log: Log
    var sends: seq<Send>
    /** The link ids of requests that make it to the venue, sooner or later. */
    var landed: set<int>

    ghost predicate Valid()
      reads this
    {
      && window > 0.0 && UniqueLinks(log.rows)
      && (forall i :: 0 <= i < |sends| ==> Permitted(sends[i]) && OnFile(sends[i], log.rows, resend))
      && (!resend ==> EachLinkOnce(sends))
      && landed <= SentLinks(sends)
    }

    constructor (window: real, resend: bool, steady: bool)
      requires window > 0.0
      ensures Valid() && sends == [] && log == Log(map[], 0, 0, None, false)
      ensures this.window == window && this.resend == resend && this.steady == steady
    {
      this.window, this.resend, this.steady := window, resend, steady;
      log, sends, landed := Log(map[], 0, 0, None, false), [], {};
    }

    method ReadLog() returns (r: Option<Log>)
      ensures r.Some? ==> r.value == log
      ensures steady ==> r.Some?
    {
      var unreadable := *;
      if unreadable && !steady { return None; }
      r := Some(log);
    }

    /** One transaction. It may fail for its own reasons, and then nothing was written. */
    method Commit(s: CloseStep, now: real) returns (ok: bool)
      requires Valid() && (!resend ==> s.again.None?)
      modifies this`log
      ensures Valid()
      ensures ok ==> Apply(old(log), s, now) == Some(log)
      ensures steady && Apply(old(log), s, now).Some? ==> ok
      ensures !ok ==> log == old(log)
    {
      var after := Apply(log, s, now);
      var fails := *;
      if (fails && !steady) || after.None? { return false; }
      CommitAdvances(log, s, now);
      ghost var before := log;
      log := after.value;
      forall i | 0 <= i < |sends| ensures OnFile(sends[i], log.rows, resend) {
        assert OnFile(sends[i], before.rows, resend);
        assert RowAdvances(before.rows[sends[i].n], log.rows[sends[i].n]);
      }
      ok := true;
    }

    /** `mark_close_sent`: INTENT to SENT; the write may be lost. */
    method MarkSent(n: int)
      requires Valid()
      modifies this`log
      ensures Valid() && Advances(old(log), log)
      ensures log == old(log)
              || (n in old(log.rows) && old(log.rows)[n].state == INTENT
                  && log == old(log).(rows := old(log.rows)[n := old(log.rows)[n].(state := SENT)]))
    {
      var lost := *;
      if lost || n !in log.rows || log.rows[n].state != INTENT { return; }
      log := log.(rows := log.rows[n := log.rows[n].(state := SENT)]);
    }

    /**
     * `place_market` for attempt `n`. Declined means refused before anything left; otherwise the request is on the
     * wire, and whether it lands is the venue's to decide, whatever the response was.
     */
    method Place(n: int, link: int, at: real) returns (r: Outcome)
      requires Valid() && Permitted(Send(n, link, at, log))
      requires !resend ==> link !in SentLinks(sends)
      modifies this`sends, this`landed
      ensures Valid()
      ensures r == Declined ==> sends == old(sends) && landed == old(landed)
      ensures steady ==> r != Declined
      ensures r != Declined ==>
                sends == old(sends) + [Send(n, link, at, log)] && old(landed) <= landed <= old(landed) + {link}
      ensures r.Returned? ==> link in landed
    {
      r := *;
      if r == Declined && steady { r := InDoubt; }
      if r == Declined { return; }
      ghost var before := sends;
      sends := sends + [Send(n, link, at, log)];
      if r.Returned? { landed := landed + {link}; } else if * { landed := landed + {link}; }
      assert SentLinks(sends) == SentLinks(before) + {link} by {
        forall l | l in SentLinks(before) ensures l in SentLinks(sends) {
          var i :| 0 <= i < |before| && before[i].link == l;
          assert sends[i].link == l;
        }
        assert sends[|before|].link == link;
      }
    }

    /** What a lookup of `link` made at time `t` may say. */
    ghost predicate Answers(link: int, t: real, r: OrderRead)
      reads this
    {
      && (r.Shown? ==> link in landed)
      && (r.Absent? ==> link in landed ==> forall i :: 0 <= i < |sends| && sends[i].link == link ==>
                                                         t < sends[i].at + window)
    }

    method ReadOrder(link: int, t: real) returns (r: OrderRead)
      ensures Answers(link, t, r)
    {
      r := *;
      var early := true;
      for i := 0 to |sends|
        invariant early <==> forall k :: 0 <= k < i && sends[k].link == link ==> t < sends[k].at + window
      {
        if sends[i].link == link && t >= sends[i].at + window { early := false; }
      }
      if (r.Shown? && link !in landed) || (r.Absent? && link in landed && !early) { r := Unreadable; }
    }
  }

  // ---------------------------------------------------------------- the executor

  datatype Status = FLAT | IN_PROGRESS | HALT

  datatype Action = NOOP_FLAT | SEND_NEW | RESEND | WAIT | STOP

  /** Anything the planner may answer. */
  datatype Plan = Plan(action: Action, reason: Reason, lagging: bool, netLong: bool, qty: real, link: int, n: int,
                       shortSeen: real, resolve: seq<Resolution>)

  datatype Observation = Observation(orders: map<int, OrderRead>, failed: set<int>, proven: set<int>)

  /** One look: the plan, the time its commit was stamped, the time its send was, and the log the commit left. */
  datatype Look = Look(plan: Plan, stamp: real, at: real, written: Option<Log>)

  /** A step that is over: its looks, and all that had been sent by its end. */
  datatype Past = Past(looks: seq<Look>, sends: seq<Send>)

  /** What a lookup of an order showed, and what its executions came to, where they could be added up. */
  datatype Seen = Seen(order: OrderRead, executed: Option<real>)

  /** What a step answers; `Died` stands for the process ending before it could. */
  datatype StepResult = Died | Answer(status: Status, action: Option<Action>, sent: Option<int>, inDoubt: bool)

  class CloseExecutor {
    const world: World
    /** Links whose send returned a result in this process, and what it said was filled. */
    var booked: map<int, real>

    constructor (world: World)
      ensures this.world == world && booked == map[]
    {
      this.world, booked := world, map[];
    }

    /**
     * `_observe`: each unresolved attempt looked up by link id. What it calls proven absent is not at the venue, and
     * never was: the lookups are made no earlier than `now`.
     */
    method Observe(log: Log, now: real) returns (obs: Observation, ghost seen: map<int, Seen>)
      requires world.Valid() && log == world.log
      ensures obs.proven <= LinksOf(log.rows)
      ensures !world.resend ==> obs.proven !! world.landed
      ensures forall l :: l in obs.orders ==> l in world.landed && obs.orders[l].Shown?
      ensures ReadSoFar(log, now, log.rows.Keys, obs, seen)
    {
      hide Reads, Unseen, ReadSoFar, LinksOf;
      obs, seen := Observation(map[], {}, {}), map[];
      var ns := Ascending(log.rows.Keys);
      NothingSeen(log, now);
      assert Upto(ns, 0) == {};
      for k := 0 to |ns|
        invariant obs.proven <= LinksOf(log.rows)
        invariant !world.resend ==> obs.proven !! world.landed
        invariant forall l :: l in obs.orders ==> l in world.landed && obs.orders[l].Shown?
        invariant ReadSoFar(log, now, Upto(ns, k), obs, seen)
      {
        var n := ns[k];
        OneMoreLooked(ns, k);
        assert n in ns;
        ghost var before, one := obs, Seen(Unreadable, None);
        if Resolved(log.rows[n].state) {
          NotLooked(log, n, now, Upto(ns, k), obs, seen);
        } else {
          FirstLooked(log, n, now, Upto(ns, k), obs, seen);
          obs, one := ObserveOne(log, n, now, obs);
          StillRead(log, n, now, Upto(ns, k), before, obs, seen, one);
          seen := seen[n := one];
        }
      }
      assert Upto(ns, |ns|) == log.rows.Keys;
    }

    /** The numbers looked up so far. */
    ghost function Upto(ns: seq<int>, k: nat): set<int>
      requires k <= |ns|
    {
      set i | 0 <= i < k :: ns[i]
    }

    lemma OneMoreLooked(ns: seq<int>, k: nat)
      requires StrictlyAscending(ns) && k < |ns|
      ensures ns[k] !in Upto(ns, k) && Upto(ns, k + 1) == Upto(ns, k) + {ns[k]}
    {
    }

    /** Of the attempts looked up, the open ones are in the observation as their lookup says; no other is in it. */
    ghost predicate ReadSoFar(log: Log, now: real, done: set<int>, obs: Observation, seen: map<int, Seen>)
      reads world
    {
      forall n :: n in log.rows ==> if Resolved(log.rows[n].state) || n !in done then Unseen(obs, log.rows[n].link)
                    else n in seen && Reads(obs, log.rows[n], now, seen[n])
    }

    lemma FirstLooked(log: Log, n: int, now: real, done: set<int>, obs: Observation, seen: map<int, Seen>)
      requires ReadSoFar(log, now, done, obs, seen) && n in log.rows && n !in done
      ensures Unseen(obs, log.rows[n].link)
    {
    }

    lemma NotLooked(log: Log, n: int, now: real, done: set<int>, obs: Observation, seen: map<int, Seen>)
      requires ReadSoFar(log, now, done, obs, seen) && n in log.rows && Resolved(log.rows[n].state)
      ensures ReadSoFar(log, now, done + {n}, obs, seen)
    {
      hide Reads, Unseen;
    }

    lemma NothingSeen(log: Log, now: real)
      ensures ReadSoFar(log, now, {}, Observation(map[], {}, {}), map[])
    {
    }

    /** The link is in no part of the observation. */
    ghost predicate Unseen(obs: Observation, link: int)
    {
      link !in obs.orders && link !in obs.failed && link !in obs.proven
    }

    /**
     * What one lookup made of the observation: an order shown counts only if its fills can be added up and agree; one
     * not shown is proven absent once the longest delay of a send and the venue's window are over; the rest failed.
     */
    ghost predicate Reads(obs: Observation, row: Row, now: real, seen: Seen)
      reads world
    {
      match seen.order
      case Unreadable => row.link in obs.failed && row.link !in obs.orders && row.link !in obs.proven
      case Absent =>
        && row.link !in obs.failed && row.link !in obs.orders
        && (row.link in obs.proven <==> now - row.intent >= 5.0 + world.window)
      case Shown(_, cum) =>
        && row.link !in obs.proven
        && (row.link in obs.orders <==> cum == 0.0 || (cum > 0.0 && seen.executed == Some(cum)))
        && (row.link in obs.orders ==> row.link !in obs.failed && obs.orders[row.link] == seen.order)
        && (row.link !in obs.orders ==> row.link in obs.failed)
    }

    /** Another row's lookup changes nothing of this one's. */
    lemma StillRead(log: Log, n: int, now: real, done: set<int>, before: Observation, after: Observation,
                    seen: map<int, Seen>, one: Seen)
      requires UniqueLinks(log.rows) && n in log.rows && n !in done && !Resolved(log.rows[n].state)
      requires SameElsewhere(before, after, log.rows[n].link) && Reads(after, log.rows[n], now, one)
      requires ReadSoFar(log, now, done, before, seen)
      ensures ReadSoFar(log, now, done + {n}, after, seen[n := one])
    {
      forall m | m in log.rows && m != n ensures log.rows[m].link != log.rows[n].link {}
    }

    ghost predicate SameElsewhere(before: Observation, after: Observation, link: int)
    {
      forall l :: l != link ==>
                    && (l in after.orders <==> l in before.orders)
                    && (l in before.orders ==> after.orders[l] == before.orders[l])
                    && (l in after.failed <==> l in before.failed) && (l in after.proven <==> l in before.proven)
    }

    /** One attempt looked up. */
    method ObserveOne(log: Log, n: int, now: real, obs0: Observation) returns (obs: Observation, ghost seen: Seen)
      requires world.Valid() && log == world.log && n in log.rows && Unseen(obs0, log.rows[n].link)
      requires obs0.proven <= LinksOf(log.rows) && (!world.resend ==> obs0.proven !! world.landed)
      requires forall l :: l in obs0.orders ==> l in world.landed && obs0.orders[l].Shown?
      ensures obs.proven <= LinksOf(log.rows) && (!world.resend ==> obs.proven !! world.landed)
      ensures forall l :: l in obs.orders ==> l in world.landed && obs.orders[l].Shown?
      ensures Reads(obs, log.rows[n], now, seen) && SameElsewhere(obs0, obs, log.rows[n].link)
    {
      obs := obs0;
      var row := log.rows[n];
      var later: real := *;
      var t := Max(now, later);
      var r := world.ReadOrder(row.link, t);
      seen := Seen(r, None);
      match r {
        case Unreadable => obs := obs.(failed := obs.failed + {row.link});
        case Absent =>
          if now - row.intent >= INTENT_TO_SEND_MAX_S + world.window {
            if !world.resend { SilenceIsProof(n, t); }
            obs := obs.(proven := obs.proven + {row.link});
          }
        case Shown(_, cum) =>
          var events: seq<(Option<int>, real)> := *;
          var merged := MergeFills({}, events);
          seen := Seen(r, if merged.Some? then Some(merged.value.0) else None);
          if cum < 0.0 || (cum > 0.0 && (merged.None? || merged.value.0 != cum)) {
            obs := obs.(failed := obs.failed + {row.link});
          } else {
            obs := obs.(orders := obs.orders[row.link := r]);
          }
      }
    }

    /** Nothing seen at time `t`, long enough after the intent: the request is not among those that land. */
    lemma SilenceIsProof(n: int, t: real)
      requires world.Valid() && !world.resend && n in world.log.rows
      requires world.Answers(world.log.rows[n].link, t, Absent)
      requires t - world.log.rows[n].intent >= INTENT_TO_SEND_MAX_S + world.window
      ensures world.log.rows[n].link !in world.landed
    {
      var link := world.log.rows[n].link;
      forall i | 0 <= i < |world.sends| && world.sends[i].link == link ensures t >= world.sends[i].at + world.window {
        assert OnFile(world.sends[i], world.log.rows, false) && Permitted(world.sends[i]);
      }
      assert link in world.landed ==> link in SentLinks(world.sends);
    }

    /**
     * What a piece of a step keeps, from the log and wire it started with: at most one request, for no link then on
     * file.
     */
    ghost predicate Keeps(log: Log, sends: seq<Send>, landed: set<int>)
      reads world
    {
      && world.Valid() && Advances(log, world.log)
      && sends <= world.sends && |world.sends| <= |sends| + 1
      && (world.sends == sends ==> world.landed == landed)
      && (!world.resend ==> world.landed * LinksOf(log.rows) == landed * LinksOf(log.rows))
      && (log.halted.Some? || log.closed ==> world.log == log && world.sends == sends)
    }

    /** What `_refused` writes. */
    static function Refusal(n: int): CloseStep
    {
      CloseStep([Resolution(n, NEVER_SENT, 0.0, {})], None, None, 0, 0, Some(Refused), false)
    }

    static lemma RefusalWrites(log: Log, n: int, now: real)
      ensures var after := Apply(log, Refusal(n), now);
              && (after.Some? ==> after.value.halted == Some(Refused) && n in after.value.rows
                                  && after.value.rows[n].state == NEVER_SENT
                                  && after.value.rows[n].filled == (if log.rows[n].filled < 0.0
                                                                       && !Resolved(log.rows[n].state) then 0.0
                                                                    else log.rows[n].filled)
                                  && after.value.closed == log.closed && after.value.waits == after.value.lag == 0)
              && (n in log.rows && !Resolved(log.rows[n].state) ==> after.Some?)
    {
      var resolve := Refusal(n).resolve;
      assert resolve[1..] == [];
      assert ResolveAll(log.rows, resolve) == Resolve(log.rows, resolve[0]);
    }

    /**
     * `_refused`: nothing left, and the close halts; if even that cannot be written, the attempt waits for its proof.
     */
    method Refuse(plan: Plan) returns (r: StepResult, ghost wrote: bool)
      requires world.Valid()
      modifies world`log
      ensures world.Valid() && Advances(old(world.log), world.log)
      ensures if r.Died? then !world.steady else r == Answer(HALT, Some(plan.action), None, false)
      ensures wrote ==> world.log.halted == Some(Refused) && plan.n in world.log.rows
                        && world.log.rows[plan.n].state == NEVER_SENT
      ensures !wrote ==> world.log == old(world.log)
      ensures world.steady && plan.n in old(world.log).rows && !Resolved(old(world.log).rows[plan.n].state) ==> wrote
    {
      var now: real := *;
      ghost var before := world.log;
      var step := Refusal(plan.n);
      RefusalWrites(before, plan.n, now);
      var ok := world.Commit(step, now);
      wrote := ok;
      if ok { CommitAdvances(before, step, now); }
      var dies := *;
      r := if dies && !world.steady then Died else Answer(HALT, Some(plan.action), None, false);
    }

    /** An attempt under this link is on file as an intent young enough, by the clock `at`, to be sent. */
    ghost predicate Sendable(log: Log, link: int, at: real)
    {
      exists n :: n in log.rows && log.rows[n].link == link && log.rows[n].state == INTENT
                  && -CLOCK_SLACK_S <= at - log.rows[n].intent <= INTENT_TO_SEND_MAX_S
    }

    /** A request leaves only for a sendable intent; and on a steady day one that is sendable does leave. */
    ghost predicate Dispatched(log: Log, link: int, at: real, r: StepResult)
    {
      && (r.Answer? && r.sent.Some? ==> r.sent == Some(link) && Sendable(log, link, at))
      && (world.steady && UniqueLinks(log.rows) && Sendable(log, link, at) ==> r.Answer? && r.sent == Some(link))
    }

    /**
     * `_send`: the request for the intent the step has just written, unless the clock says it is too old to prove
     * absent.
     */
    method Send(plan: Plan, after: Log) returns (r: StepResult, ghost at: real)
      requires world.Valid() && after == world.log && after.halted.None? && !after.closed
      requires !world.resend ==> plan.link !in SentLinks(world.sends)
      modifies world, this`booked
      ensures world.Valid() && Advances(old(world.log), world.log)
      ensures old(world.sends) <= world.sends && |world.sends| <= |old(world.sends)| + 1
      ensures world.sends == old(world.sends) ==> world.landed == old(world.landed)
      ensures old(world.landed) <= world.landed <= old(world.landed) + {plan.link}
      ensures r.Answer? && r.sent.Some? ==> |world.sends| == |old(world.sends)| + 1 && r.status == IN_PROGRESS
      ensures r.Answer? && r.sent.None? ==> world.sends == old(world.sends)
      ensures r.Answer? ==> r.status != FLAT && (r.action.Some? ==> r.action.value == plan.action)
      ensures r.Answer? && r.inDoubt ==> r.sent.Some?
      ensures r.Answer? && r.sent.Some? && !r.inDoubt ==> plan.link in world.landed
      ensures Dispatched(after, plan.link, at, r) && (r.Died? ==> !world.steady)
    {
      at := 0.0;
      if n :| n in after.rows && after.rows[n].link == plan.link && after.rows[n].state == INTENT {
        var clock: real := *;
        at := clock;
        var age := clock - after.rows[n].intent;
        if age > INTENT_TO_SEND_MAX_S || age < -CLOCK_SLACK_S {
          r := Answer(IN_PROGRESS, Some(plan.action), None, false);
          return;
        }
        var outcome := world.Place(n, plan.link, clock);
        var dies := *;
        if dies && !world.steady { r := Died; return; }
        if outcome == Declined {
          ghost var wrote;
          r, wrote := Refuse(plan);
          return;
        }
        world.MarkSent(plan.n);
        dies := *;
        if dies && !world.steady { r := Died; return; }
        if outcome.Returned? && outcome.filled.Some? { booked := booked[plan.link := outcome.filled.value]; }
        r := Answer(IN_PROGRESS, Some(plan.action), Some(plan.link), outcome == InDoubt);
      } else {
        r := Answer(HALT, Some(plan.action), None, false);
      }
    }

    /** The commit a plan asks for. */
    function StepFor(log: Log, plan: Plan): CloseStep
    {
      var ours := exists n :: n in log.rows && log.rows[n].state != NEVER_SENT;
      CloseStep(
        plan.resolve,
        if plan.action == SEND_NEW then Some(Attempt(plan.n, plan.link, plan.qty, plan.shortSeen)) else None,
        if plan.action == RESEND then Some(plan.n) else None,
        if plan.action == WAIT then log.waits + 1 else 0,
        if plan.action != WAIT then 0 else if plan.lagging then log.lag + 1 else log.lag,
        if plan.action != STOP then None else if plan.netLong && ours then Some(Reversed) else Some(plan.reason),
        plan.action == NOOP_FLAT)
    }

    /** A link no row had is a link no request was ever sent under. */
    lemma NewLinkIsUnsent(link: int, rows: map<int, Row>)
      requires link !in LinksOf(rows)
      requires forall i :: 0 <= i < |world.sends| ==> OnFile(world.sends[i], rows, world.resend)
      ensures link !in SentLinks(world.sends)
    {
      forall i | 0 <= i < |world.sends| ensures world.sends[i].link != link {
        assert OnFile(world.sends[i], rows, world.resend);
      }
    }

    /** The plan's step can be written: its resolutions stand, a new attempt is new, an attempt sent again is open. */
    ghost predicate Writable(log: Log, plan: Plan)
    {
      && ResolveAll(log.rows, plan.resolve).Some?
      && (plan.action == SEND_NEW ==>
            plan.n !in log.rows && forall n :: n in log.rows ==> log.rows[n].link != plan.link)
      && (plan.action == RESEND ==>
            var rows := ResolveAll(log.rows, plan.resolve).value; plan.n in rows && !Resolved(rows[plan.n].state))
    }

    /**
     * What the commit of a plan leaves on disk: the halt a stop asks for, under its own name when our buys have turned
     * the position; the waits counted or cleared; the close closed; the new intent, or the one to send again.
     */
    ghost predicate Wrote(before: Log, after: Log, plan: Plan, stamp: real)
    {
      && after.halted == (if plan.action != STOP then before.halted
                          else if plan.netLong && exists n :: n in before.rows && before.rows[n].state != NEVER_SENT
                          then Some(Reversed) else Some(plan.reason))
      && after.closed == (before.closed || plan.action == NOOP_FLAT)
      && after.waits == (if plan.action == WAIT then before.waits + 1 else 0)
      && after.lag == (if plan.action != WAIT then 0 else if plan.lagging then before.lag + 1 else before.lag)
      && (plan.action == SEND_NEW ==>
            && plan.n !in before.rows && plan.n in after.rows
            && after.rows[plan.n] == Row(plan.link, plan.qty, INTENT, 0.0, {}, 1, plan.shortSeen, stamp))
      && (plan.action == RESEND ==>
            && plan.n in before.rows && plan.n in after.rows
            && after.rows[plan.n] == before.rows[plan.n].(state := INTENT, sends := before.rows[plan.n].sends + 1,
                                     intent := stamp))
      && forall n :: n in before.rows && (Sending(plan) ==> n != plan.n) ==>
                       n in after.rows && Rests(before.rows[n], after.rows[n], n, plan.resolve)
    }

    predicate Sending(plan: Plan) { plan.action == SEND_NEW || plan.action == RESEND }

    /** What is left on disk answers the plan, once there is a commit; and a send follows only a commit. */
    ghost predicate Followed(before: Log, look: Look, maySend: bool, r: StepResult)
    {
      var plan := look.plan;
      && (look.written.Some? <==> Writable(before, plan) && (Sending(plan) ==> maySend))
      && match look.written
         case None =>
           r == Answer(if Sending(plan) && !maySend then IN_PROGRESS else HALT, Some(plan.action), None, false)
         case Some(written) =>
           if Sending(plan) then Dispatched(written, plan.link, look.at, r)
           else r == Answer(if plan.action == WAIT then IN_PROGRESS else if plan.action == STOP then HALT else FLAT,
                            Some(plan.action), None, false)
    }

    /** The commit of a writable plan, and only of one, succeeds and leaves what the plan asks for. */
    lemma CommitWrites(log: Log, plan: Plan, stamp: real)
      ensures Apply(log, StepFor(log, plan), stamp).Some? <==> Writable(log, plan)
      ensures Writable(log, plan) ==> Wrote(log, Apply(log, StepFor(log, plan), stamp).value, plan, stamp)
    {
      hide ResolveAll, Rests;
      if ResolveAll(log.rows, plan.resolve).Some? {
        ResolvingRests(log.rows, plan.resolve);
        if Apply(log, StepFor(log, plan), stamp).Some? {
          var rows, after := ResolveAll(log.rows, plan.resolve).value, Apply(log, StepFor(log, plan), stamp).value.rows;
          assert plan.action == RESEND ==> rows[plan.n] == log.rows[plan.n];
        }
      }
    }

    /** The commit of a look and what was done after it, as the look records them. */
    ghost predicate Recorded(before: Log, after: Log, look: Look)
    {
      match look.written
      case None => after == before
      case Some(written) =>
        && Wrote(before, written, look.plan, look.stamp) && Advances(before, written)
        && Advances(written, after) && (!Sending(look.plan) ==> after == written)
    }

    /** The plan of a look: commit, and only then send. */
    method Carry(log: Log, plan: Plan, maySend: bool) returns (r: StepResult, ghost look: Look)
      requires world.Valid() && log == world.log && !log.closed && log.halted.None?
      requires !world.resend ==> plan.action != RESEND
      modifies world, this`booked
      ensures Keeps(log, old(world.sends), old(world.landed)) && look.plan == plan
      ensures !maySend || look.written.None? || !Sending(plan) ==> world.sends == old(world.sends)
      ensures Recorded(log, world.log, look)
      ensures r.Answer? ==>
                && (if r.sent.Some? then |world.sends| > |old(world.sends)| && r.status == IN_PROGRESS
                    else world.sends == old(world.sends))
                && (r.status == FLAT ==> world.log.closed) && (r.action.Some? ==> r.action.value == plan.action)
                && (r.inDoubt ==> r.sent.Some?)
      ensures world.steady ==> Followed(log, look, maySend, r)
    {
      hide Wrote, Apply, StepFor, Writable, Sendable, RowsAdvance;
      look := Look(plan, 0.0, 0.0, None);
      ghost var sends0, landed0 := world.sends, world.landed;
      LogStands(log);
      if !maySend && Sending(plan) { return Answer(IN_PROGRESS, Some(plan.action), None, false), look; }
      var stamp: real := *;
      look := look.(stamp := stamp);
      CommitWrites(log, plan, stamp);
      PlanSteps(log, plan);
      var step := StepFor(log, plan);
      var ok := world.Commit(step, stamp);
      if !ok { return Answer(HALT, Some(plan.action), None, false), look; }
      CommitAdvances(log, step, stamp);
      ghost var log1 := world.log;
      look := look.(written := Some(log1));
      LogStands(log1);
      CommittedMarks(log, log1, plan, stamp);
      var dies := *;
      if dies && !world.steady { return Died, look; }
      var after := world.ReadLog();
      if after.None? || plan.action == STOP { return Answer(HALT, Some(plan.action), None, false), look; }
      if plan.action == NOOP_FLAT { return Answer(FLAT, Some(plan.action), None, false), look; }
      if plan.action == WAIT { return Answer(IN_PROGRESS, Some(plan.action), None, false), look; }
      if !world.resend { NewLinkIsUnsent(plan.link, log.rows); }
      ghost var at;
      r, at := Send(plan, after.value);
      look := look.(at := at);
      AdvancesTransitive(log, log1, world.log);
    }

    lemma LogStands(log: Log)
      ensures Advances(log, log)
    {
    }

    /** Which parts of a step a plan sets. */
    lemma PlanSteps(log: Log, plan: Plan)
      ensures var step := StepFor(log, plan);
              && (step.again.Some? <==> plan.action == RESEND)
              && step.opens == if plan.action == SEND_NEW
                               then Some(Attempt(plan.n, plan.link, plan.qty, plan.shortSeen)) else None
    {
    }

    lemma StopHalts(before: Log, after: Log, look: Look)
      requires Recorded(before, after, look)
      ensures look.plan.action == STOP && look.written.Some? ==> after.halted.Some?
    {
    }

    lemma CommittedMarks(before: Log, after: Log, plan: Plan, stamp: real)
      requires Wrote(before, after, plan, stamp)
      ensures plan.action != STOP ==> after.halted == before.halted
      ensures plan.action == NOOP_FLAT ==> after.closed
      ensures plan.action != NOOP_FLAT ==> after.closed == before.closed
    {
    }

    /** `_once`: read, observe, plan, and carry the plan out. */
    method Once(maySend: bool) returns (r: StepResult, ghost proven: set<int>, ghost did: Option<Look>)
      requires world.Valid()
      modifies world, this`booked
      ensures Keeps(old(world.log), old(world.sends), old(world.landed))
      ensures proven <= LinksOf(old(world.log).rows)
      ensures !world.resend ==> proven !! old(world.landed)
      ensures !maySend ==> world.sends == old(world.sends)
      ensures r.Answer? ==> if r.sent.Some? then |world.sends| > |old(world.sends)| && r.status == IN_PROGRESS
                else world.sends == old(world.sends)
      ensures r.Answer? ==> (r.status == FLAT ==> world.log.closed) && (r.inDoubt ==> r.sent.Some?)
      ensures r.Answer? && r.action.Some? ==> did.Some? && r.action.value == did.value.plan.action
      ensures if did.Some? then Recorded(old(world.log), world.log, did.value) else world.log == old(world.log)
      ensures did.None? || did.value.written.None? ==> world.sends == old(world.sends)
      ensures world.steady && !old(world.log).closed && old(world.log).halted.None? ==> did.Some?
      ensures world.steady && did.Some? ==> Followed(old(world.log), did.value, maySend, r)
      ensures world.steady && old(world.log).closed ==> r == Answer(FLAT, None, None, false)
      ensures world.steady && !old(world.log).closed && old(world.log).halted.Some? ==>
                r == Answer(HALT, None, None, false)
    {
      hide Recorded, Followed;
      proven, did := {}, None;
      LogStands(world.log);
      var read := world.ReadLog();
      if read.None? { return Answer(HALT, None, None, false), proven, did; }
      var log := read.value;
      var policyFails := *;
      if policyFails && !world.steady { return Answer(HALT, None, None, false), proven, did; }
      if log.closed { return Answer(FLAT, None, None, false), proven, did; }
      if log.halted.Some? { return Answer(HALT, None, None, false), proven, did; }
      var now: real := *;
      var obs, _ := Observe(log, now);
      proven := obs.proven;
      var plan: Plan := *;
      if !world.resend && plan.action == RESEND { plan := plan.(action := WAIT); }
      ghost var look;
      r, look := Carry(log, plan, maySend);
      did := Some(look);
    }

    /** A request left, and what became of it is known. */
    static predicate SentForSure(r: StepResult)
    {
      r.Answer? && r.sent.Some? && r.status == IN_PROGRESS && !r.inDoubt
    }

    /** The look after a send found nothing to do. */
    static predicate StillGoing(r: StepResult) { r.Answer? && r.status == IN_PROGRESS && r.action.None? }

    /** A stop the planner asked for has been written down. */
    static ghost predicate Stops(looks: seq<Look>)
    {
      exists i :: 0 <= i < |looks| && looks[i].plan.action == STOP && looks[i].written.Some?
    }

    /** `step`: one look that may send, and after a send with a known outcome one more that may not. */
    method Step(ghost proven0: set<int>)
      returns (r: StepResult, ghost proven: set<int>, ghost looks: seq<Look>, ghost answers: seq<StepResult>)
      requires world.Valid()
      requires !world.resend ==> proven0 <= LinksOf(world.log.rows) && proven0 !! world.landed
      modifies world, this`booked
      ensures Keeps(old(world.log), old(world.sends), old(world.landed))
      ensures !world.resend ==> proven0 <= proven <= LinksOf(world.log.rows) && proven !! world.landed
      ensures r.Answer? && r.status == FLAT ==> world.log.closed
      ensures Stops(looks) ==> world.log.halted.Some?
      ensures 1 <= |answers| <= 2 && (|answers| == 2 <==> SentForSure(answers[0]))
      ensures r == if |answers| == 2 && !StillGoing(answers[1]) then answers[1] else answers[0]
      ensures world.steady && !old(world.log).closed && old(world.log).halted.None? ==>
                looks != [] && Followed(old(world.log), looks[0], true, answers[0])
      ensures r.Answer? && r.action.Some? ==> exists i :: 0 <= i < |looks| && looks[i].plan.action == r.action.value
    {
      hide Followed, Recorded, RowsAdvance, LinksOf;
      ghost var log0, landed0 := world.log, world.landed;
      var last, p, look := Once(true);
      proven, r, looks := proven0 + p, last, if look.Some? then [look.value] else [];
      answers := [last];
      assert look.Some? ==> looks[0] == look.value;
      if look.Some? { StopHalts(log0, world.log, look.value); }
      if !world.resend { StillAbsent(proven, log0, world.log, landed0, world.landed); }
      if last.Answer? && last.sent.Some? && last.status == IN_PROGRESS && !last.inDoubt {
        ghost var log1, landed1 := world.log, world.landed;
        var follow, q, other := Once(false);
        if other.Some? { looks := looks + [other.value]; }
        answers := answers + [follow];
        if other.Some? { StopHalts(log1, world.log, other.value); }
        AdvancesTransitive(log0, log1, world.log);
        proven := proven + q;
        if !world.resend { StillAbsent(proven, log1, world.log, landed1, world.landed); }
        if follow.Died? || follow.status != IN_PROGRESS || follow.action.Some? { r := follow; }
        assert (look.Some? ==> looks[0] == look.value) && (other.Some? ==> looks[|looks| - 1] == other.value);
      }
    }

    /**
     * Any number of steps, each of which may be cut short at any effect and followed by a new process over the same
     * disk. What some step called proven absent never lands, then or later; the log only ever advances; and after a
     * step that wrote down a stop nothing is sent any more.
     */
    static method Live(world: World, steps: nat) returns (ghost proven: set<int>, ghost past: seq<Past>)
      requires world.Valid()
      modifies world
      ensures world.Valid() && Advances(old(world.log), world.log) && old(world.sends) <= world.sends
      ensures |world.sends| <= |old(world.sends)| + steps
      ensures !world.resend ==> proven !! world.landed
      ensures old(world.log).halted.Some? || old(world.log).closed ==>
                world.log == old(world.log) && world.sends == old(world.sends)
      ensures |past| == steps && (past != [] ==> past[|past| - 1].sends == world.sends)
      ensures forall i, j :: 0 <= i < j < |past| && Stops(past[i].looks) ==> past[j].sends == past[i].sends
    {
      proven, past := {}, [];
      var executor := new CloseExecutor(world);
      for i := 0 to steps
        invariant executor.world == world && fresh(executor)
        invariant world.Valid() && Advances(old(world.log), world.log) && old(world.sends) <= world.sends
        invariant |world.sends| <= |old(world.sends)| + i
        invariant !world.resend ==> proven <= LinksOf(world.log.rows) && proven !! world.landed
        invariant old(world.log).halted.Some? || old(world.log).closed ==>
            world.log == old(world.log) && world.sends == old(world.sends)
        invariant |past| == i && (past != [] ==> past[|past| - 1].sends == world.sends)
        invariant forall k :: 0 <= k < |past| && Stops(past[k].looks) ==>
                                world.log.halted.Some? && past[k].sends == world.sends
        invariant forall k, j :: 0 <= k < j < |past| && Stops(past[k].looks) ==> past[j].sends == past[k].sends
      {
        ghost var log0 := world.log;
        var r;
        ghost var looks, answers;
        r, proven, looks, answers := executor.Step(proven);
        past := past + [Past(looks, world.sends)];
        AdvancesTransitive(old(world.log), log0, world.log);
        if r.Died? { executor := new CloseExecutor(world); }
      }
    }
  }
}
