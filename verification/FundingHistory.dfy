/**
 Reading a window of public funding prints backwards, 200 at a time (`get_funding_history_range`). The endpoint has no
 cursor: each request ends at the oldest stamp of the page before, which is therefore read twice on purpose.
 */
module FundingHistory {
  import opened Ordering

  const PAGE := 200
  const MAX_REQUESTS := 80
  const MAX_PLAUSIBLE_RATE := 0.05

  /** A row as parsed; `Unparsed` stands for a missing or unreadable field. */
  datatype Row = Unparsed | Row(rate: real, stamp: int, ours: bool)

  datatype Response = Failed | Envelope(rows: seq<Row>)

  datatype Complaint = BadWindow | OutOfRequests | RequestFailed | BadRow | Contradiction | NoProgress

  /** `prints` pairs a rate in bps with its stamp. */
  datatype History = History(prints: seq<(real, int)>, requests: nat, errors: seq<Complaint>)

  predicate Plausible(rate: real) { -MAX_PLAUSIBLE_RATE <= rate <= MAX_PLAUSIBLE_RATE }

  // ---------------------------------------------------------------- the venue

  /** The stamps the venue holds between two times; whether the later bound is included is not documented. */
  function Window(truth: map<int, real>, inclusive: bool, start: int, end: int): set<int>
  {
    set t | t in truth && start <= t && (t < end || (inclusive && t == end))
  }

  predicate Shows(rows: seq<Row>, t: int)
  {
    exists i :: 0 <= i < |rows| && rows[i].Row? && rows[i].stamp == t
  }

  /** The newest 200 of the window: only rows of it, and what is missing is older than everything on a full page. */
  predicate Honest(truth: map<int, real>, inclusive: bool, start: int, end: int, rows: seq<Row>)
  {
    && |rows| <= PAGE
    && (forall i :: 0 <= i < |rows| ==>
                      rows[i].Row? && rows[i].ours && rows[i].stamp in Window(truth, inclusive, start, end)
                      && rows[i].rate == truth[rows[i].stamp])
    && (forall i, j :: 0 <= i < j < |rows| ==> rows[j].stamp < rows[i].stamp)
    && (forall t :: t in Window(truth, inclusive, start, end) ==>
                      Shows(rows, t) || (|rows| == PAGE && forall i :: 0 <= i < |rows| ==> t < rows[i].stamp))
  }

  class Venue {
    /** An honest venue answers from `truth` as documented; any other may answer anything. Either may fail to answer. */
    const honest: bool
    const inclusive: bool
    const truth: map<int, real>

    method Request(start: int, end: int) returns (r: Response)
      ensures honest && r.Envelope? ==> Honest(truth, inclusive, start, end, r.rows)
    {
      r := *;
      if honest && r.Envelope? && !Honest(truth, inclusive, start, end, r.rows) { r := Failed; }
    }
  }

  // ---------------------------------------------------------------- one page

  /** A row this reader accepts for the window it asked. */
  predicate Usable(row: Row, start: int, end: int)
  {
    row.Row? && row.stamp > 0 && Plausible(row.rate) && row.ours && start <= row.stamp <= end
  }

  /** Dated, in the window, for the symbol asked, at a rate of at most five per cent either way. */
  ghost predicate Acceptable(row: Row, start: int, end: int)
  {
    && row.Row? && row.ours && 0 < row.stamp && start <= row.stamp <= end
    && -0.05 <= row.rate <= 0.05
  }

  /** What the rows seen so far may be: stamped in the window, and plausible. */
  ghost predicate Sound(seen: map<int, real>, start: int, end: int)
  {
    forall t :: t in seen ==> start <= t <= end && t > 0 && -0.05 <= seen[t] <= 0.05
  }

  /** A page with nothing to complain about: usable rows, no stamp twice, no rate changed. */
  ghost predicate Clean(rows: seq<Row>, start: int, end: int, seen: map<int, real>)
  {
    && (forall i :: 0 <= i < |rows| ==>
                      && Acceptable(rows[i], start, end)
                      && (rows[i].stamp in seen ==> seen[rows[i].stamp] == rows[i].rate))
    && (forall i, j :: 0 <= i < j < |rows| && rows[i].Row? && rows[j].Row? ==> rows[i].stamp != rows[j].stamp)
  }

  /** Nothing seen is lost or changed, and what is new is a usable row. */
  ghost predicate Extends(rows: seq<Row>, start: int, end: int, seen0: map<int, real>, seen: map<int, real>)
  {
    && (forall t :: t in seen0 ==> t in seen && seen[t] == seen0[t])
    && (forall t :: t in seen && t !in seen0 ==> exists i :: 0 <= i < |rows| && rows[i] == Row(seen[t], t, true))
    && (forall t :: t in seen && t !in seen0 ==> start <= t <= end && t > 0 && -0.05 <= seen[t] <= 0.05)
  }

  ghost predicate AllTaken(rows: seq<Row>, start: int, end: int, seen: map<int, real>)
  {
    forall i :: 0 <= i < |rows| ==>
                  Acceptable(rows[i], start, end) && rows[i].stamp in seen && seen[rows[i].stamp] == rows[i].rate
  }

  /** The row loop: every usable row is kept under its stamp; anything else is a complaint. */
  method ReadRows(rows: seq<Row>, start: int, end: int, seen0: map<int, real>)
    returns (seen: map<int, real>, errors: seq<Complaint>)
    ensures Extends(rows, start, end, seen0, seen)
    ensures errors == [] ==> AllTaken(rows, start, end, seen)
    ensures Clean(rows, start, end, seen0) ==> errors == []
  {
    seen, errors := seen0, [];
    for i := 0 to |rows|
      invariant forall t :: t in seen0 ==> t in seen && seen[t] == seen0[t]
      invariant forall t :: t in seen && t !in seen0 ==> exists k :: 0 <= k < i && rows[k] == Row(seen[t], t, true)
      invariant forall t :: t in seen && t !in seen0 ==> start <= t <= end && t > 0 && -0.05 <= seen[t] <= 0.05
      invariant errors == [] ==>
          forall k :: 0 <= k < i ==> Acceptable(rows[k], start, end) && rows[k].stamp in seen
                                     && seen[rows[k].stamp] == rows[k].rate
      invariant Clean(rows, start, end, seen0) ==> errors == []
    {
      var row := rows[i];
      if !Usable(row, start, end) {
        errors := errors + [BadRow];
      } else if row.stamp in seen && seen[row.stamp] != row.rate {
        errors := errors + [Contradiction];
      } else {
        seen := seen[row.stamp := row.rate];
      }
    }
  }

  method Oldest(rows: seq<Row>) returns (oldest: int)
    requires rows != [] && forall i :: 0 <= i < |rows| ==> rows[i].Row?
    ensures Shows(rows, oldest)
    ensures forall i :: 0 <= i < |rows| ==> oldest <= rows[i].stamp
  {
    oldest := rows[0].stamp;
    for i := 1 to |rows|
      invariant exists k :: 0 <= k < i && rows[k].stamp == oldest
      invariant forall k :: 0 <= k < i ==> oldest <= rows[k].stamp
    {
      if rows[i].stamp < oldest { oldest := rows[i].stamp; }
    }
  }

  // ---------------------------------------------------------------- the walk

  /** Everything the venue holds at or after `from` has been seen. */
  ghost predicate SeenFrom(truth: map<int, real>, inclusive: bool, start: int, end: int, seen: map<int, real>,
                           from: int)
  {
    forall t :: t in Window(truth, inclusive, start, end) && from <= t ==> t in seen
  }

  /** Only the venue's own prints have been seen. */
  ghost predicate SeenTrue(truth: map<int, real>, inclusive: bool, start: int, end: int, seen: map<int, real>)
  {
    forall t :: t in seen ==> t in Window(truth, inclusive, start, end) && seen[t] == truth[t]
  }

  /**
   * A page read without complaint extends what is covered down to its oldest row, or, if short, to the whole window.
   */
  lemma PageCovers(truth: map<int, real>, inclusive: bool, start: int, end: int, curEnd: int, rows: seq<Row>,
                   seen: map<int, real>, from: int)
    requires Honest(truth, inclusive, start, curEnd, rows)
    requires forall i :: 0 <= i < |rows| ==> rows[i].stamp in seen
    requires curEnd <= end && (curEnd == end || SeenFrom(truth, inclusive, start, end, seen, curEnd))
    requires |rows| == PAGE ==> Shows(rows, from)
    ensures SeenFrom(truth, inclusive, start, end, seen, if |rows| < PAGE then start else from)
  {
    forall t | t in Window(truth, inclusive, start, end) && (if |rows| < PAGE then start else from) <= t
      ensures t in seen {
      if t in Window(truth, inclusive, start, curEnd) {
        assert Shows(rows, t) || |rows| < PAGE || Shows(rows, from);
      }
    }
  }

  /** The reader's answer as a list in time order, in bps. */
  predicate Lists(prints: seq<(real, int)>, seen: map<int, real>, stamps: seq<int>)
  {
    |prints| == |stamps|
    && forall i :: 0 <= i < |prints| ==>
                     stamps[i] in seen && prints[i].1 == stamps[i] && prints[i].0 == seen[stamps[i]] * 10000.0
  }

  function InBps(seen: map<int, real>, t: int): (real, int) requires t in seen { (seen[t] * 10000.0, t) }

  method InBpsEach(seen: map<int, real>, stamps: seq<int>) returns (prints: seq<(real, int)>)
    requires forall i :: 0 <= i < |stamps| ==> stamps[i] in seen
    ensures Lists(prints, seen, stamps)
  {
    prints := [];
    for i := 0 to |stamps|
      invariant Lists(prints, seen, stamps[..i])
    {
      prints := prints + [InBps(seen, stamps[i])];
    }
    assert stamps[..|stamps|] == stamps;
  }

  lemma InKeys(s: set<int>)
    ensures forall i :: 0 <= i < |Ascending(s)| ==> Ascending(s)[i] in s
  {
    forall i | 0 <= i < |Ascending(s)| ensures Ascending(s)[i] in s {
      assert Ascending(s)[i] in Ascending(s);
    }
  }

  /** In time order, inside the window, and plausible. */
  predicate WellFormed(prints: seq<(real, int)>, start: int, end: int)
  {
    && (forall i, j :: 0 <= i < j < |prints| ==> prints[i].1 < prints[j].1)
    && (forall i :: 0 <= i < |prints| ==> start <= prints[i].1 <= end && -500.0 <= prints[i].0 <= 500.0)
  }

  lemma SoundLists(prints: seq<(real, int)>, seen: map<int, real>, stamps: seq<int>, start: int, end: int)
    requires Lists(prints, seen, stamps) && StrictlyAscending(stamps) && Sound(seen, start, end)
    ensures WellFormed(prints, start, end)
  {
    forall i | 0 <= i < |prints| ensures start <= prints[i].1 <= end && -500.0 <= prints[i].0 <= 500.0 {
      assert prints[i].1 == stamps[i];
    }
    forall i, j | 0 <= i < j < |prints| ensures prints[i].1 < prints[j].1 {
      assert prints[i].1 == stamps[i] && prints[j].1 == stamps[j];
    }
  }

  lemma ExactLists(truth: map<int, real>, inclusive: bool, start: int, end: int, seen: map<int, real>,
                   prints: seq<(real, int)>, stamps: seq<int>)
    requires SeenFrom(truth, inclusive, start, end, seen, start) && SeenTrue(truth, inclusive, start, end, seen)
    requires Lists(prints, seen, stamps)
    ensures seen.Keys == Window(truth, inclusive, start, end)
    ensures Lists(prints, truth, stamps)
  {
    var w := Window(truth, inclusive, start, end);
    forall t | t in w ensures t in seen.Keys { assert start <= t; }
    forall t | t in seen.Keys ensures t in w { assert t in seen; }
  }

  /**
   * `get_funding_history_range`. Whatever the venue answers it stops within its requests, and its prints are in the
   * window, plausible and strictly increasing in time. From an honest venue, no complaint means exactly the venue's
   * prints of the window in time order: none missing, none doubled by the boundary stamp read twice.
   */
  method GetFundingHistoryRange(venue: Venue, start: int, end: int) returns (h: History)
    ensures h.requests <= MAX_REQUESTS
    ensures WellFormed(h.prints, start, end)
    ensures venue.honest && h.errors == [] ==>
              Lists(h.prints, venue.truth, Ascending(Window(venue.truth, venue.inclusive, start, end)))
    ensures venue.honest && h.errors == [] ==>
              forall p :: p in h.prints <==> IsPrint(venue, start, end, p)
    ensures start <= end && venue.honest && AllPlausible(venue.truth) ==>
              Excused(h.errors, Window(venue.truth, venue.inclusive, start, end))
  {
    if end < start { return History([], 0, [BadWindow]); }
    var seen: map<int, real>, errors, requests := Walk(venue, start, end);
    var stamps := Ascending(seen.Keys);
    InKeys(seen.Keys);
    var prints := InBpsEach(seen, stamps);
    SoundLists(prints, seen, stamps, start, end);
    if venue.honest && errors == [] { ExactLists(venue.truth, venue.inclusive, start, end, seen, prints, stamps); }
    if venue.honest && errors == [] {
      forall p { ListedIff(venue.truth, prints, stamps, p); }
      assert forall t :: t in stamps <==> t in seen.Keys;
    }
    h := History(prints, requests, errors);
  }

  /** A print of the window, in bps. */
  ghost predicate IsPrint(venue: Venue, start: int, end: int, p: (real, int))
  {
    && start <= p.1 && (p.1 < end || (venue.inclusive && p.1 == end))
    && p.1 in venue.truth && p.0 == venue.truth[p.1] * 10000.0
  }

  lemma ListedIff(truth: map<int, real>, prints: seq<(real, int)>, stamps: seq<int>, p: (real, int))
    requires Lists(prints, truth, stamps)
    ensures p in prints <==> p.1 in stamps && p.1 in truth && p.0 == truth[p.1] * 10000.0
  {
    if p.1 in stamps && p.1 in truth && p.0 == truth[p.1] * 10000.0 {
      var i :| 0 <= i < |stamps| && stamps[i] == p.1;
      assert prints[i] == p;
    }
    if p in prints {
      var i :| 0 <= i < |prints| && prints[i] == p;
      assert stamps[i] == p.1;
    }
  }

  // ---------------------------------------------------------------- when it may complain

  /** Every print the venue holds is one this reader accepts. */
  ghost predicate AllPlausible(truth: map<int, real>)
  {
    forall t :: t in truth ==> t > 0 && -0.05 <= truth[t] <= 0.05
  }

  function Stamps(rows: seq<Row>): set<int>
    requires forall i :: 0 <= i < |rows| ==> rows[i].Row?
  {
    if rows == [] then {} else Stamps(rows[1..]) + {rows[0].stamp}
  }

  lemma {:induction false} StampsCount(rows: seq<Row>)
    requires forall i :: 0 <= i < |rows| ==> rows[i].Row?
    requires forall i, j :: 0 <= i < j < |rows| ==> rows[j].stamp < rows[i].stamp
    ensures |Stamps(rows)| == |rows|
    ensures forall t :: t in Stamps(rows) ==> Shows(rows, t)
  {
    if rows != [] {
      var rest := rows[1..];
      StampsCount(rest);
      forall t | t in Stamps(rest) ensures t < rows[0].stamp && Shows(rows, t) {
        assert Shows(rest, t);
        var i :| 0 <= i < |rest| && rest[i].Row? && rest[i].stamp == t;
        assert rows[i + 1].stamp == t;
      }
    }
  }

  /** A full page of an honest venue brings at least 199 stamps not seen before, and so reaches further back. */
  lemma FullPageProgresses(truth: map<int, real>, inclusive: bool, start: int, curEnd: int, rows: seq<Row>,
                           before: set<int>, after: set<int>)
    requires Honest(truth, inclusive, start, curEnd, rows) && |rows| == PAGE
    requires forall t :: t in before ==> t >= curEnd
    requires before <= after && forall i :: 0 <= i < |rows| ==> rows[i].stamp in after
    ensures |after| >= |before| + PAGE - 1
    ensures rows[PAGE - 1].stamp < curEnd
  {
    StampsCount(rows);
    var fresh' := Stamps(rows) - {curEnd};
    forall t | t in fresh' ensures t < curEnd && t in after {
      assert Shows(rows, t);
    }
    assert fresh' !! before;
    assert |fresh'| >= PAGE - 1;
    Within(before + fresh', after);
    assert rows[PAGE - 1].stamp < rows[0].stamp;
  }

  lemma {:induction false} Within(a: set<int>, b: set<int>)
    requires a <= b
    ensures |a| <= |b|
  {
    if a != {} {
      var x := AnyOf(a);
      Within(a - {x}, b - {x});
    }
  }

  /** The only complaints an honest venue with plausible prints can draw: it failed to answer, or it holds too many. */
  ghost predicate Excused(errors: seq<Complaint>, window: set<int>)
  {
    errors == [] || errors == [RequestFailed] || (errors == [OutOfRequests] && |window| >= MAX_REQUESTS * (PAGE - 1))
  }

  lemma CleanPage(truth: map<int, real>, inclusive: bool, start: int, curEnd: int, rows: seq<Row>, seen: map<int, real>)
    requires Honest(truth, inclusive, start, curEnd, rows) && AllPlausible(truth)
    requires forall t :: t in seen ==> t in truth && seen[t] == truth[t]
    ensures Clean(rows, start, curEnd, seen)
  {
  }

  /** What the walk knows of an honest venue after `requests` full pages. */
  ghost predicate Tracks(truth: map<int, real>, inclusive: bool, start: int, end: int, seen: map<int, real>,
                         curEnd: int, requests: nat)
  {
    && SeenTrue(truth, inclusive, start, end, seen)
    && (curEnd != end ==> SeenFrom(truth, inclusive, start, end, seen, curEnd))
    && (forall t :: t in seen ==> curEnd <= t) && |seen.Keys| >= requests * (PAGE - 1)
  }

  lemma TruePage(truth: map<int, real>, inclusive: bool, start: int, end: int, curEnd: int, rows: seq<Row>,
                 before: map<int, real>, seen: map<int, real>)
    requires SeenTrue(truth, inclusive, start, end, before) && Honest(truth, inclusive, start, curEnd, rows)
             && curEnd <= end
    requires Extends(rows, start, curEnd, before, seen)
    ensures SeenTrue(truth, inclusive, start, end, seen)
  {
    forall t | t in seen ensures t in Window(truth, inclusive, start, end) && seen[t] == truth[t] {
      if t !in before {
        var i :| 0 <= i < |rows| && rows[i] == Row(seen[t], t, true);
        assert rows[i].stamp in Window(truth, inclusive, start, curEnd);
      }
    }
  }

  lemma SoundPage(rows: seq<Row>, start: int, end: int, curEnd: int, before: map<int, real>, seen: map<int, real>)
    requires Sound(before, start, end) && curEnd <= end && Extends(rows, start, curEnd, before, seen)
    ensures Sound(seen, start, end)
  {
  }

  /** A short page ends the walk with the whole window seen. */
  lemma ShortPage(truth: map<int, real>, inclusive: bool, start: int, end: int, curEnd: int, rows: seq<Row>,
                  before: map<int, real>, seen: map<int, real>, requests: nat)
    requires Tracks(truth, inclusive, start, end, before, curEnd, requests) && start <= curEnd <= end
    requires Honest(truth, inclusive, start, curEnd, rows) && |rows| < PAGE
    requires Extends(rows, start, curEnd, before, seen) && AllTaken(rows, start, curEnd, seen)
    ensures SeenTrue(truth, inclusive, start, end, seen) && SeenFrom(truth, inclusive, start, end, seen, start)
  {
    hide Honest, Extends;
    TruePage(truth, inclusive, start, end, curEnd, rows, before, seen);
    StillFrom(truth, inclusive, start, end, curEnd, rows, before, seen);
    PageCovers(truth, inclusive, start, end, curEnd, rows, seen, start);
  }

  lemma StillFrom(truth: map<int, real>, inclusive: bool, start: int, end: int, curEnd: int, rows: seq<Row>,
                  before: map<int, real>, seen: map<int, real>)
    requires Extends(rows, start, curEnd, before, seen)
    requires curEnd != end ==> SeenFrom(truth, inclusive, start, end, before, curEnd)
    ensures curEnd != end ==> SeenFrom(truth, inclusive, start, end, seen, curEnd)
  {
  }

  /** A full page takes the walk to its oldest row, strictly further back. */
  lemma FullPage(truth: map<int, real>, inclusive: bool, start: int, end: int, curEnd: int, rows: seq<Row>,
                 before: map<int, real>, seen: map<int, real>, oldest: int, requests: nat)
    requires Tracks(truth, inclusive, start, end, before, curEnd, requests) && start <= curEnd <= end
    requires Honest(truth, inclusive, start, curEnd, rows) && |rows| == PAGE
    requires Extends(rows, start, curEnd, before, seen) && AllTaken(rows, start, curEnd, seen)
    requires Shows(rows, oldest) && forall i :: 0 <= i < |rows| ==> oldest <= rows[i].stamp
    ensures oldest < curEnd && Tracks(truth, inclusive, start, end, seen, oldest, requests + 1)
  {
    hide Honest, Shows;
    TruePage(truth, inclusive, start, end, curEnd, rows, before, seen);
    StillFrom(truth, inclusive, start, end, curEnd, rows, before, seen);
    PageCovers(truth, inclusive, start, end, curEnd, rows, seen, oldest);
    forall t | t in before.Keys ensures t in seen.Keys && t >= curEnd { assert t in before; }
    FullPageProgresses(truth, inclusive, start, curEnd, rows, before.Keys, seen.Keys);
    forall t | t in seen ensures oldest
                              <= t { if t !in before { var i :| 0 <= i < |rows| && rows[i] == Row(seen[t], t, true); } }
  }

  lemma TooMany(truth: map<int, real>, inclusive: bool, start: int, end: int, seen: map<int, real>, curEnd: int)
    requires Tracks(truth, inclusive, start, end, seen, curEnd, MAX_REQUESTS)
    ensures Excused([OutOfRequests], Window(truth, inclusive, start, end))
  {
    var w := Window(truth, inclusive, start, end);
    forall t | t in seen.Keys ensures t in w { assert t in seen; }
    Within(seen.Keys, w);
  }

  lemma Start(truth: map<int, real>, inclusive: bool, start: int, end: int)
    ensures Tracks(truth, inclusive, start, end, map[], end, 0) && Sound(map[], start, end)
  {
  }

  lemma Reached(truth: map<int, real>, inclusive: bool, start: int, end: int, seen: map<int, real>, curEnd: int,
                requests: nat)
    requires Tracks(truth, inclusive, start, end, seen, curEnd, requests) && curEnd <= start && curEnd < end
    ensures SeenTrue(truth, inclusive, start, end, seen) && SeenFrom(truth, inclusive, start, end, seen, start)
  {
  }

  method Walk(venue: Venue, start: int, end: int) returns (seen: map<int, real>, errors: seq<Complaint>, requests: nat)
    requires start <= end
    ensures requests <= MAX_REQUESTS && Sound(seen, start, end)
    ensures venue.honest && errors == [] ==>
              && SeenFrom(venue.truth, venue.inclusive, start, end, seen, start)
              && SeenTrue(venue.truth, venue.inclusive, start, end, seen)
    ensures venue.honest && AllPlausible(venue.truth) ==>
              Excused(errors, Window(venue.truth, venue.inclusive, start, end))
  {
    hide Honest, Extends, AllTaken, Clean, SeenFrom, SeenTrue, Sound, Tracks, Window, Shows, AllPlausible;
    Start(venue.truth, venue.inclusive, start, end);
    seen, errors, requests := map[], [], 0;
    var curEnd := end;
    while true
      invariant requests <= MAX_REQUESTS && Sound(seen, start, end) && start <= curEnd <= end && errors == []
      invariant venue.honest ==> Tracks(venue.truth, venue.inclusive, start, end, seen, curEnd, requests)
      decreases MAX_REQUESTS - requests
    {
      if requests >= MAX_REQUESTS {
        errors := [OutOfRequests];
        if venue.honest { TooMany(venue.truth, venue.inclusive, start, end, seen, curEnd); }
        return;
      }
      requests := requests + 1;
      var r := venue.Request(start, curEnd);
      if r.Failed? { errors := [RequestFailed]; return; }
      ghost var before := seen;
      if venue.honest && AllPlausible(venue.truth) {
        TracksTrue(venue, start, end, seen, curEnd, requests - 1, r.rows);
      }
      seen, errors := ReadRows(r.rows, start, curEnd, seen);
      SoundPage(r.rows, start, end, curEnd, before, seen);
      if errors != [] { return; }
      if |r.rows| < PAGE {
        if venue.honest {
          ShortPage(venue.truth, venue.inclusive, start, end, curEnd, r.rows, before, seen, requests - 1);
        }
        return;
      }
      TakenAreRows(r.rows, start, curEnd, seen);
      var oldest := Oldest(r.rows);
      if venue.honest {
        AtMostAPage(venue, start, curEnd, r.rows);
        FullPage(venue.truth, venue.inclusive, start, end, curEnd, r.rows, before, seen, oldest, requests - 1);
      }
      if oldest >= curEnd { errors := [NoProgress]; return; }
      TakenAtOrAfter(r.rows, start, curEnd, seen, oldest);
      curEnd := oldest;
      if curEnd <= start {
        if venue.honest { Reached(venue.truth, venue.inclusive, start, end, seen, curEnd, requests); }
        return;
      }
    }
  }

  lemma TracksTrue(venue: Venue, start: int, end: int, seen: map<int, real>, curEnd: int, requests: nat, rows: seq<Row>)
    requires Tracks(venue.truth, venue.inclusive, start, end, seen, curEnd, requests) && AllPlausible(venue.truth)
    requires Honest(venue.truth, venue.inclusive, start, curEnd, rows)
    ensures Clean(rows, start, curEnd, seen)
  {
    hide Honest;
    forall t | t in seen ensures t in venue.truth && seen[t] == venue.truth[t] {
      assert t in Window(venue.truth, venue.inclusive, start, end);
    }
    CleanPage(venue.truth, venue.inclusive, start, curEnd, rows, seen);
  }

  lemma TakenAreRows(rows: seq<Row>, start: int, end: int, seen: map<int, real>)
    requires AllTaken(rows, start, end, seen)
    ensures forall i :: 0 <= i < |rows| ==> rows[i].Row? && start <= rows[i].stamp
  {
  }

  lemma TakenAtOrAfter(rows: seq<Row>, start: int, end: int, seen: map<int, real>, oldest: int)
    requires AllTaken(rows, start, end, seen) && Shows(rows, oldest)
    ensures start <= oldest
  {
  }

  lemma AtMostAPage(venue: Venue, start: int, end: int, rows: seq<Row>)
    requires Honest(venue.truth, venue.inclusive, start, end, rows)
    ensures |rows| <= PAGE
  {
  }
}
