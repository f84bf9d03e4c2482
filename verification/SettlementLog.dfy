/**
 Settlement evidence from the account's transaction log (`txlog_windows`, `read_log_pages`, `get_funding_evidence`):
 windows of at most seven days, each read page by page along the venue's cursors.
 */
module SettlementLog {
  import opened Basics

  const WINDOW_MS := 7 * 24 * 3600 * 1000 - 1
  const LIMIT_MS := 7 * 24 * 3600 * 1000
  const MAX_PAGES := 40
  const MAX_SPAN_MS := 730 * 24 * 3600 * 1000

  // ---------------------------------------------------------------- rows

  datatype Kind = SETTLEMENT | AnotherKind

  datatype Amount = Unstated | Garbled | Stated(usd: real)

  /** A log row as delivered: an absent or unreadable field is `None` (for the id, so is an empty one). */
  datatype LogRow = LogRow(symbol: int, kind: Option<Kind>, otherCategory: bool, funding: Amount, ms: Option<int>,
                           id: Option<int>)

  datatype Payment = Payment(id: int, ms: int, usd: real)

  datatype Parsed =
    | OtherSymbol | WrongType | NoType | WrongCategory | NoFunding | OutOfWindow | Malformed
    | Paid(payment: Payment)

  /** `_funding_row`. */
  function Parse(row: LogRow, symbol: int, start: int, end: int): Parsed
  {
    if row.symbol != symbol then OtherSymbol
    else if row.kind == None then NoType
    else if row.kind != Some(SETTLEMENT) then WrongType
    else if row.otherCategory then WrongCategory
    else if row.funding.Unstated? then
      (if row.ms.Some? && (row.ms.value < start || row.ms.value > end) then OutOfWindow else NoFunding)
    else if row.funding.Garbled? || row.ms.None? || row.id.None? || row.ms.value <= 0 then Malformed
    else if row.ms.value < start || row.ms.value > end then OutOfWindow
    else Paid(Payment(row.id.value, row.ms.value, row.funding.usd))
  }

  predicate Objectionable(p: Parsed) { p.Malformed? || p.NoFunding? || p.OutOfWindow? }

  // ---------------------------------------------------------------- what a row says, by its fields

  /** The row records a settlement of the symbol, readable or not. */
  ghost predicate Concerns(row: LogRow, symbol: int)
  {
    row.symbol == symbol && row.kind == Some(SETTLEMENT) && !row.otherCategory
  }

  /** It states a payment, in full and inside the interval. */
  ghost predicate Pays(row: LogRow, start: int, end: int)
  {
    && row.funding.Stated? && row.id.Some? && row.ms.Some?
    && 0 < row.ms.value && start <= row.ms.value <= end
  }

  /** It is where the payment comes from. */
  ghost predicate States(row: LogRow, symbol: int, start: int, end: int, p: Payment)
  {
    && Concerns(row, symbol) && row.id == Some(p.id) && row.ms == Some(p.ms) && row.funding == Stated(p.usd)
    && 0 < p.ms && start <= p.ms <= end
  }

  /** It leaves the evidence incomplete: a settlement of the symbol that cannot be counted. */
  ghost predicate Spoils(row: LogRow, symbol: int, start: int, end: int)
  {
    Concerns(row, symbol) && !Pays(row, start, end)
  }

  /**
   * The parser uses exactly the rows that state a payment, and objects to exactly the settlements that do not: for
   * their stamp, though they may state nothing; for stating nothing where they count; or because they cannot be read.
   */
  lemma ParsesByFields(row: LogRow, symbol: int, start: int, end: int)
    ensures Objectionable(Parse(row, symbol, start, end)) <==> Spoils(row, symbol, start, end)
    ensures forall p :: Parse(row, symbol, start, end) == Paid(p) <==> States(row, symbol, start, end, p)
    ensures Parse(row, symbol, start, end) == OutOfWindow <==>
            && Concerns(row, symbol) && row.ms.Some? && !(start <= row.ms.value <= end)
            && (row.funding.Stated? ==> row.id.Some? && 0 < row.ms.value) && !row.funding.Garbled?
    ensures Parse(row, symbol, start, end) == NoFunding <==>
            Concerns(row, symbol) && row.funding.Unstated? && (row.ms.Some? ==> start <= row.ms.value <= end)
  {
  }

  // ---------------------------------------------------------------- windows

  /** Consecutive windows share their boundary millisecond, and together they run from `start` to `end`. */
  ghost predicate Tiles(windows: seq<(int, int)>, start: int, end: int)
  {
    && windows != [] && windows[0].0 == start && windows[|windows| - 1].1 == end
    && (forall i, j :: 0 <= i < j < |windows| && j == i + 1 ==> windows[j].0 == windows[i].1)
  }

  method TxlogWindows(start: int, end: int) returns (windows: seq<(int, int)>)
    ensures Tiles(windows, start, end)
    ensures forall i :: 0 <= i < |windows| ==> windows[i].1 - windows[i].0 < LIMIT_MS && windows[i].1 <= end
    ensures start <= end ==> forall i :: 0 <= i < |windows| ==> windows[i].0 <= windows[i].1
  {
    windows := [];
    var ws := start;
    while true
      invariant windows == [] ==> ws == start
      invariant windows != [] ==> ws < end && Tiles(windows, start, ws)
      invariant forall i :: 0 <= i < |windows| ==>
                              windows[i].0 <= windows[i].1 <= end && windows[i].1 - windows[i].0 < LIMIT_MS
      decreases end - ws
    {
      var we := if ws + WINDOW_MS < end then ws + WINDOW_MS else end;
      windows := windows + [(ws, we)];
      if we >= end { return; }
      ws := we;
    }
  }

  /** Whether a read of `[from, to]` shows a row stamped `ms`; whether the later bound counts is not documented. */
  predicate Inside(ms: int, from: int, to: int, inclusive: bool) { from <= ms && (ms < to || (inclusive && ms == to)) }

  /** Whichever way the venue reads `endTime`, the windows together show what one read of the whole would. */
  lemma {:induction false} WindowsCover(windows: seq<(int, int)>, start: int, end: int, inclusive: bool, ms: int)
    requires Tiles(windows, start, end) && Inside(ms, start, end, inclusive)
    ensures exists i :: 0 <= i < |windows| && Inside(ms, windows[i].0, windows[i].1, inclusive)
    decreases |windows|
  {
    var last := |windows| - 1;
    if ms >= windows[last].0 {
      assert Inside(ms, windows[last].0, windows[last].1, inclusive);
    } else {
      assert last > 0 && windows[last].0 == windows[last - 1].1;
      WindowsCover(windows[..last], start, windows[last].0, inclusive, ms);
      var i :| 0 <= i < last && Inside(ms, windows[..last][i].0, windows[..last][i].1, inclusive);
      assert Inside(ms, windows[i].0, windows[i].1, inclusive);
    }
  }

  // ---------------------------------------------------------------- the venue

  datatype Response = Failed | Page(rows: seq<LogRow>, next: Option<int>)

  /** An honest venue lists a window in some fixed order, cuts the list anywhere, and a cursor says where it stopped. */
  class Venue {
    const honest: bool
    const inclusive: bool
    const truth: set<LogRow>
    const listing: (int, int) -> seq<LogRow>
    const offset: int -> nat

    ghost predicate Valid() { honest ==> forall from, to :: Whole(from, to) }

    /** The listing of a window is the rows of the log stamped inside it. */
    ghost predicate Whole(from: int, to: int)
    {
      forall row :: row in listing(from, to) <==>
                    row in truth && row.ms.Some? && Inside(row.ms.value, from, to, inclusive)
    }

    predicate HonestPage(from: int, to: int, cursor: Option<int>, r: Response)
    {
      r.Page? ==>
        var all := listing(from, to);
        var at := if cursor.None? then 0 else offset(cursor.value);
        && at + |r.rows| <= |all| && r.rows == all[at..at + |r.rows|]
        && (r.next.None? ==> at + |r.rows| == |all|)
        && (r.next.Some? ==> offset(r.next.value) == at + |r.rows|)
    }

    method Request(from: int, to: int, cursor: Option<int>) returns (r: Response)
      ensures honest ==> HonestPage(from, to, cursor, r)
    {
      r := *;
      if honest && !HonestPage(from, to, cursor, r) { r := Failed; }
    }
  }

  // ---------------------------------------------------------------- one window

  datatype Trouble = RequestFailed | TooManyPages | CursorRepeated

  /** `trouble` is None exactly when the cursor ran out normally. */
  datatype LogPages = LogPages(rows: seq<LogRow>, pages: nat, trouble: Option<Trouble>)

  predicate Distinct(cursors: seq<int>) { forall i, j :: 0 <= i < j < |cursors| ==> cursors[i] != cursors[j] }

  /**
   * `read_log_pages`. It stops within its pages, follows no cursor twice, and from an honest venue calls a window
   * complete only with every row of it in hand.
   */
  method ReadLogPages(venue: Venue, from: int, to: int) returns (out: LogPages, followed: seq<int>)
    requires venue.Valid()
    ensures out.pages <= MAX_PAGES && Distinct(followed)
    ensures out.trouble == Some(TooManyPages) ==> out.pages == MAX_PAGES
    ensures venue.honest ==> forall row :: row in out.rows ==> row in venue.listing(from, to)
    ensures venue.honest && out.trouble.None? ==> out.rows == venue.listing(from, to)
  {
    out, followed := LogPages([], 0, None), [];
    var cursor: Option<int> := None;
    while true
      invariant out.pages <= MAX_PAGES && out.trouble.None? && Distinct(followed)
      invariant cursor.None? ==> out.rows == []
      invariant venue.honest ==>
                  |out.rows| <= |venue.listing(from, to)| && out.rows == venue.listing(from, to)[..|out.rows|]
      invariant venue.honest && cursor.Some? ==> venue.offset(cursor.value) == |out.rows|
      decreases MAX_PAGES - out.pages
    {
      if out.pages >= MAX_PAGES { out := out.(trouble := Some(TooManyPages)); return; }
      var r := venue.Request(from, to, cursor);
      if r.Failed? { out := out.(trouble := Some(RequestFailed)); return; }
      out := out.(pages := out.pages + 1, rows := out.rows + r.rows);
      if r.next.None? { return; }
      if r.next == cursor || r.next.value in followed { out := out.(trouble := Some(CursorRepeated)); return; }
      followed := followed + [r.next.value];
      cursor := r.next;
    }
  }

  // ---------------------------------------------------------------- the evidence

  datatype Complaint = SpanTooLong | Unreadable(window: (int, int), why: Trouble) | BadRow(row: Parsed)

  datatype Evidence = Evidence(payments: seq<Payment>, errors: seq<Complaint>, windows: nat, pages: nat,
                               duplicates: nat)

  /** The payments stated by some rows: one for each id, time and amount. */
  ghost function Payments(rows: seq<LogRow>, symbol: int, start: int, end: int): set<Payment>
  {
    set row | row in rows && Concerns(row, symbol) && Pays(row, start, end) ::
      Payment(row.id.value, row.ms.value, row.funding.usd)
  }

  /** A payment some row of the log states. */
  ghost predicate StatedBy(rows: set<LogRow>, symbol: int, start: int, end: int, p: Payment)
  {
    exists row :: row in rows && States(row, symbol, start, end, p)
  }

  lemma PaymentsStated(rows: seq<LogRow>, symbol: int, start: int, end: int, p: Payment)
    ensures p in Payments(rows, symbol, start, end) <==> exists row :: row in rows && States(row, symbol, start, end, p)
  {
    if row :| row in rows && States(row, symbol, start, end, p) {
      assert Concerns(row, symbol) && Pays(row, start, end);
      assert p == Payment(row.id.value, row.ms.value, row.funding.usd);
    }
    if p in Payments(rows, symbol, start, end) {
      var row :| row in rows && Concerns(row, symbol) && Pays(row, start, end)
                 && p == Payment(row.id.value, row.ms.value, row.funding.usd);
      assert States(row, symbol, start, end, p);
    }
  }

  lemma PaymentsAppend(rows: seq<LogRow>, row: LogRow, symbol: int, start: int, end: int, q: Payment)
    ensures q in Payments(rows + [row], symbol, start, end) <==>
            q in Payments(rows, symbol, start, end) || States(row, symbol, start, end, q)
  {
    PaymentsStated(rows, symbol, start, end, q);
    PaymentsStated(rows + [row], symbol, start, end, q);
    assert row in rows + [row];
  }

  /** How many of the rows state a payment. */
  ghost function Counted(rows: seq<LogRow>, symbol: int, start: int, end: int): nat
    decreases |rows|
  {
    if rows == [] then 0
    else
      var row := rows[|rows| - 1];
      Counted(rows[..|rows| - 1], symbol, start, end) + if Concerns(row, symbol) && Pays(row, start, end) then 1 else 0
  }

  predicate Earlier(p: Payment, q: Payment) { p.ms < q.ms || (p.ms == q.ms && p.id <= q.id) }

  /** Oldest first, as the evidence lists them; `found` has them once each. */
  predicate OldestFirst(payments: seq<Payment>)
  {
    forall i, j :: 0 <= i < j < |payments| ==>
                     && payments[i] != payments[j] && payments[i].ms <= payments[j].ms
                     && (payments[i].ms == payments[j].ms ==> payments[i].id <= payments[j].id)
  }

  method Insert(payments: seq<Payment>, p: Payment) returns (r: seq<Payment>)
    requires OldestFirst(payments) && p !in payments
    ensures OldestFirst(r) && |r| == |payments| + 1
    ensures forall q :: q in r <==> q in payments || q == p
  {
    var at := |payments|;
    while at > 0 && !Earlier(payments[at - 1], p)
      invariant 0 <= at <= |payments|
      invariant forall i :: at <= i < |payments| ==> Earlier(p, payments[i])
    {
      at := at - 1;
    }
    r := payments[..at] + [p] + payments[at..];
    forall i, j | 0 <= i < j < |r| ensures Earlier(r[i], r[j]) && r[i] != r[j] {
      assert i < at ==> r[i] == payments[i];
      assert i > at ==> r[i] == payments[i - 1];
      assert j < at ==> r[j] == payments[j];
      assert j > at ==> r[j] == payments[j - 1];
      if j == at { assert Earlier(payments[i], payments[at - 1]) || i == at - 1; }
    }
  }

  /** One window's rows: kept once each, or, when objectionable, complained of. */
  method TakeRows(rows: seq<LogRow>, symbol: int, start: int, end: int, payments0: seq<Payment>)
    returns (payments: seq<Payment>, errors: seq<Complaint>, duplicates: nat)
    requires OldestFirst(payments0)
    ensures OldestFirst(payments)
    ensures forall p :: p in payments <==> p in payments0 || p in Payments(rows, symbol, start, end)
    ensures errors == [] <==> forall i :: 0 <= i < |rows| ==> !Spoils(rows[i], symbol, start, end)
    ensures |payments| + duplicates == |payments0| + Counted(rows, symbol, start, end)
  {
    payments, errors, duplicates := payments0, [], 0;
    for i := 0 to |rows|
      invariant OldestFirst(payments)
      invariant forall p :: p in payments <==> p in payments0 || p in Payments(rows[..i], symbol, start, end)
      invariant errors == [] <==> forall k :: 0 <= k < i ==> !Spoils(rows[k], symbol, start, end)
      invariant |payments| + duplicates == |payments0| + Counted(rows[..i], symbol, start, end)
    {
      var p := Parse(rows[i], symbol, start, end);
      assert rows[..i + 1] == rows[..i] + [rows[i]];
      ParsesByFields(rows[i], symbol, start, end);
      forall q { PaymentsAppend(rows[..i], rows[i], symbol, start, end, q); }
      if Objectionable(p) {
        errors := errors + [BadRow(p)];
      } else if p.Paid? {
        if p.payment in payments { duplicates := duplicates + 1; } else { payments := Insert(payments, p.payment); }
      }
    }
    assert rows[..|rows|] == rows;
  }

  /** A payment of the interval that the account's log really holds. */
  ghost predicate InLog(venue: Venue, symbol: int, start: int, end: int, p: Payment)
  {
    StatedBy(venue.truth, symbol, start, end, p) && Inside(p.ms, start, end, venue.inclusive)
  }

  /** What an honest venue's rows for one window state is in the log. */
  lemma ReadIsTrue(venue: Venue, symbol: int, start: int, end: int, window: (int, int), rows: seq<LogRow>, p: Payment)
    requires venue.Valid() && venue.honest && window.1 <= end
    requires forall row :: row in rows ==> row in venue.listing(window.0, window.1)
    requires p in Payments(rows, symbol, start, end)
    ensures InLog(venue, symbol, start, end, p)
  {
    PaymentsStated(rows, symbol, start, end, p);
    var row :| row in rows && States(row, symbol, start, end, p);
    assert venue.Whole(window.0, window.1) && row in venue.listing(window.0, window.1);
  }

  /** Every payment in the log is in the listing of some window. */
  lemma LogIsRead(venue: Venue, symbol: int, start: int, end: int, windows: seq<(int, int)>,
                  p: Payment) returns (i: nat)
    requires venue.Valid() && venue.honest && Tiles(windows, start, end) && InLog(venue, symbol, start, end, p)
    ensures i < |windows| && p in Payments(venue.listing(windows[i].0, windows[i].1), symbol, start, end)
  {
    var row :| row in venue.truth && States(row, symbol, start, end, p);
    WindowsCover(windows, start, end, venue.inclusive, p.ms);
    i :| 0 <= i < |windows| && Inside(p.ms, windows[i].0, windows[i].1, venue.inclusive);
    assert venue.Whole(windows[i].0, windows[i].1) && row in venue.listing(windows[i].0, windows[i].1);
    PaymentsStated(venue.listing(windows[i].0, windows[i].1), symbol, start, end, p);
  }

  /** A read with nothing to complain about. */
  ghost predicate Clean(read: LogPages, symbol: int, start: int, end: int)
  {
    read.trouble.None? && forall k :: 0 <= k < |read.rows| ==> !Spoils(read.rows[k], symbol, start, end)
  }

  ghost predicate From(venue: Venue, window: (int, int), read: LogPages)
  {
    && (forall row :: row in read.rows ==> row in venue.listing(window.0, window.1))
    && (read.trouble.None? ==> read.rows == venue.listing(window.0, window.1))
  }

  ghost predicate AllClean(answers: seq<LogPages>, symbol: int, start: int, end: int)
  {
    forall i :: 0 <= i < |answers| ==> Clean(answers[i], symbol, start, end)
  }

  /** The payments are those of the reads, all of them and nothing else. */
  ghost predicate Gathered(payments: seq<Payment>, answers: seq<LogPages>, symbol: int, start: int, end: int)
  {
    forall p :: p in payments <==> exists i :: 0 <= i < |answers| && p in Payments(answers[i].rows, symbol, start, end)
  }

  /** How many rows of the reads state a payment. */
  ghost function AllCounted(answers: seq<LogPages>, symbol: int, start: int, end: int): nat
    decreases |answers|
  {
    if answers == [] then 0
    else AllCounted(answers[..|answers| - 1], symbol, start, end)
         + Counted(answers[|answers| - 1].rows, symbol, start, end)
  }

  lemma OneMoreCounted(answers: seq<LogPages>, read: LogPages, symbol: int, start: int, end: int)
    ensures AllCounted(answers + [read], symbol, start, end)
         == AllCounted(answers, symbol, start, end) + Counted(read.rows, symbol, start, end)
  {
    assert (answers + [read])[..|answers|] == answers;
  }

  ghost predicate EachFrom(venue: Venue, windows: seq<(int, int)>, answers: seq<LogPages>)
  {
    |answers| <= |windows| && forall i :: 0 <= i < |answers| ==> From(venue, windows[i], answers[i])
  }

  lemma OneMoreClean(answers: seq<LogPages>, read: LogPages, symbol: int, start: int, end: int)
    ensures AllClean(answers + [read], symbol, start, end) <==>
            AllClean(answers, symbol, start, end) && Clean(read, symbol, start, end)
  {
    hide Clean;
    var all := answers + [read];
    assert all[|answers|] == read;
    forall i | 0 <= i < |answers| ensures all[i] == answers[i] {}
  }

  lemma OneMoreGathered(payments: seq<Payment>, more: seq<Payment>, answers: seq<LogPages>, read: LogPages,
                        symbol: int, start: int, end: int)
    requires Gathered(payments, answers, symbol, start, end)
    requires forall p :: p in more <==> p in payments || p in Payments(read.rows, symbol, start, end)
    ensures Gathered(more, answers + [read], symbol, start, end)
  {
    hide Payments;
    var all := answers + [read];
    assert all[|answers|] == read;
    forall i | 0 <= i < |answers| ensures all[i] == answers[i] {}
    forall p ensures p in more <==> exists i :: 0 <= i < |all| && p in Payments(all[i].rows, symbol, start, end) {
      if p in payments {
        var i :| 0 <= i < |answers| && p in Payments(answers[i].rows, symbol, start, end);
        assert all[i] == answers[i];
      }
    }
  }

  lemma OneMoreFrom(venue: Venue, windows: seq<(int, int)>, answers: seq<LogPages>, read: LogPages)
    requires EachFrom(venue, windows, answers) && |answers| < |windows| && From(venue, windows[|answers|], read)
    ensures EachFrom(venue, windows, answers + [read])
  {
    hide From;
  }

  /** The window loop; `answers` keeps what each window's read returned. */
  method ReadWindows(venue: Venue, symbol: int, start: int, end: int, windows: seq<(int, int)>)
    returns (ev: Evidence, answers: seq<LogPages>)
    requires venue.Valid() && forall i :: 0 <= i < |windows| ==> windows[i].1 <= end
    ensures OldestFirst(ev.payments) && |answers| == ev.windows == |windows| && ev.pages <= MAX_PAGES * ev.windows
    ensures ev.errors == [] <==> AllClean(answers, symbol, start, end)
    ensures Gathered(ev.payments, answers, symbol, start, end)
    ensures |ev.payments| + ev.duplicates == AllCounted(answers, symbol, start, end)
    ensures venue.honest ==> EachFrom(venue, windows, answers)
  {
    hide Clean, AllClean, Gathered, OldestFirst, Payments, From, EachFrom, Counted;
    ev, answers := NothingRead(symbol, start, end, venue, windows);
    for i := 0 to |windows|
      invariant OldestFirst(ev.payments) && |answers| == ev.windows == i && ev.pages <= MAX_PAGES * i
      invariant ev.errors == [] <==> AllClean(answers, symbol, start, end)
      invariant Gathered(ev.payments, answers, symbol, start, end)
      invariant |ev.payments| + ev.duplicates == AllCounted(answers, symbol, start, end)
      invariant venue.honest ==> EachFrom(venue, windows, answers)
    {
      var read, payments, errors, duplicates := ReadWindow(venue, symbol, start, end, windows[i], ev.payments);
      OneMoreClean(answers, read, symbol, start, end);
      OneMoreCounted(answers, read, symbol, start, end);
      OneMoreGathered(ev.payments, payments, answers, read, symbol, start, end);
      if venue.honest { OneMoreFrom(venue, windows, answers, read); }
      answers := answers + [read];
      ev := Evidence(payments, ev.errors + errors, i + 1, ev.pages + read.pages, ev.duplicates + duplicates);
    }
  }

  method NothingRead(symbol: int, start: int, end: int, ghost venue: Venue, ghost windows: seq<(int, int)>)
    returns (ev: Evidence, answers: seq<LogPages>)
    ensures ev == Evidence([], [], 0, 0, 0) && answers == []
    ensures OldestFirst(ev.payments) && AllClean(answers, symbol, start, end)
            && Gathered(ev.payments, answers, symbol, start, end)
    ensures EachFrom(venue, windows, answers)
  {
    ev, answers := Evidence([], [], 0, 0, 0), [];
  }

  /** One window: its pages, and what its rows add to the payments found before. */
  method ReadWindow(venue: Venue, symbol: int, start: int, end: int, window: (int, int), found: seq<Payment>)
    returns (read: LogPages, payments: seq<Payment>, errors: seq<Complaint>, duplicates: nat)
    requires venue.Valid() && OldestFirst(found)
    ensures OldestFirst(payments) && read.pages <= MAX_PAGES
    ensures forall p :: p in payments <==> p in found || p in Payments(read.rows, symbol, start, end)
    ensures errors == [] <==> Clean(read, symbol, start, end)
    ensures |payments| + duplicates == |found| + Counted(read.rows, symbol, start, end)
    ensures venue.honest ==> From(venue, window, read)
  {
    hide OldestFirst, Payments, Counted;
    var res, _ := ReadLogPages(venue, window.0, window.1);
    read := res;
    payments, errors, duplicates := TakeRows(read.rows, symbol, start, end, found);
    if read.trouble.Some? { errors := [Unreadable(window, read.trouble.value)] + errors; }
  }

  /**
   * `get_funding_evidence`. Complete exactly when the span is within the log's depth, every window was read to the end
   * of its cursors and no row was objectionable; and complete evidence from an honest venue is the log itself: every
   * settlement of the symbol in the interval, once, although adjacent windows overlap and pages follow cursors.
   */
  method GetFundingEvidence(venue: Venue, symbol: int, start: int, end: int)
    returns (ev: Evidence, answers: seq<LogPages>)
    requires venue.Valid()
    ensures OldestFirst(ev.payments) && ev.pages <= MAX_PAGES * ev.windows
    ensures ev.errors == [] <==> end - start <= MAX_SPAN_MS && AllClean(answers, symbol, start, end)
    ensures Gathered(ev.payments, answers, symbol, start, end)
    ensures |ev.payments| + ev.duplicates == AllCounted(answers, symbol, start, end)
    ensures venue.honest ==> forall p :: p in ev.payments ==> InLog(venue, symbol, start, end, p)
    ensures venue.honest && ev.errors == [] ==> forall p :: p in ev.payments <==> InLog(venue, symbol, start, end, p)
  {
    if end - start > MAX_SPAN_MS { return Evidence([], [SpanTooLong], 0, 0, 0), []; }
    var windows := TxlogWindows(start, end);
    ev, answers := ReadWindows(venue, symbol, start, end, windows);
    if venue.honest {
      forall p | p in ev.payments ensures InLog(venue, symbol, start, end, p) {
        var i :| 0 <= i < |answers| && p in Payments(answers[i].rows, symbol, start, end);
        ReadIsTrue(venue, symbol, start, end, windows[i], answers[i].rows, p);
      }
      if ev.errors == [] {
        forall p | InLog(venue, symbol, start, end, p) ensures p in ev.payments {
          var i := LogIsRead(venue, symbol, start, end, windows, p);
          assert Clean(answers[i], symbol, start, end) && From(venue, windows[i], answers[i]);
        }
      }
    }
  }
}
