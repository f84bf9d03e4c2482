/**
 Which funding prints a book records (`on_candle`, `_drop_history_the_clock_disproves`, `warm_funding_history`). A tick
 is not a print: the same settled print is offered on every tick, late, early or after a gap, and must count once.
 */
module FundingPrints {
  import opened Basics
  import opened Ordering

  const FUNDING_HISTORY := 8
  const MAX_PRINT_GAP_MS := 12 * 3_600_000
  const MAX_CLOCK_SKEW_MS := 30_000

  /** The dated history with its two watermarks. `stamps` are the settlement times of the rates kept, newest last. */
  datatype Books = Books(stamps: seq<int>, last: Option<int>, floor: Option<int>)

  /** One tick: the tick clock (0 or less means none) and the print in hand, if it carries a stamp. */
  datatype Tick = Tick(now: int, stamp: Option<int>)

  datatype Verdict = Placed | Stale | Future

  // ---------------------------------------------------------------- one tick

  predicate IsNew(b: Books, stamp: Option<int>)
  {
    stamp.Some? && (b.last.None? || stamp.value > b.last.value) && (b.floor.None? || stamp.value > b.floor.value)
  }

  function Judge(b: Books, now: int): Verdict
  {
    if now <= 0 || b.last.None? || b.stamps == [] then Placed
    else if now - b.last.value > MAX_PRINT_GAP_MS then Stale
    else if b.last.value - now > MAX_CLOCK_SKEW_MS then Future
    else Placed
  }

  function Discard(b: Books, now: int): Books
  {
    match Judge(b, now)
    case Placed => b
    case Stale => Books([], None, if b.floor.Some? && b.floor.value > b.last.value then b.floor else b.last)
    case Future => Books([], None, None)
  }

  function Newest<T>(stamps: seq<T>): seq<T>
  {
    if |stamps| <= FUNDING_HISTORY then stamps else stamps[|stamps| - FUNDING_HISTORY..]
  }

  function Book(b: Books, stamp: int): Books
  {
    var gap := b.last.Some? && b.stamps != [] && stamp - b.last.value > MAX_PRINT_GAP_MS;
    Books(Newest((if gap then [] else b.stamps) + [stamp]), Some(stamp), b.floor)
  }

  /** What a tick leaves, and the print it recorded, if any. */
  function Step(b: Books, t: Tick): (Books, Option<int>)
  {
    if IsNew(b, t.stamp) then (Book(b, t.stamp.value), t.stamp)
    else
      var kept := Discard(b, t.now);
      if Judge(b, t.now) == Future && IsNew(kept, t.stamp) then (Book(kept, t.stamp.value), t.stamp)
      else (kept, None)
  }

  // ---------------------------------------------------------------- watermarks

  /** The watermark, the larger of the two stamps, is at or above `w`. */
  ghost predicate Above(b: Books, w: int)
  {
    (b.last.Some? && w <= b.last.value) || (b.floor.Some? && w <= b.floor.value)
  }

  /** The tick does its job: the watermark does not fall, and a print is recorded exactly if it lies strictly above. */
  ghost predicate Sound(b: Books, t: Tick)
  {
    var (after, recorded) := Step(b, t);
    && (forall w {:trigger Above(after, w)} {:trigger Above(b, w)} :: Above(b, w) ==> Above(after, w))
    && (recorded.Some? ==> recorded == t.stamp && Above(after, recorded.value) && !Above(b, recorded.value))
    && (t.stamp.Some? && !Above(b, t.stamp.value) ==> recorded == t.stamp)
  }

  /** The branch that forgets: no new print in hand, and a watermark the clock says is in the future. */
  predicate ForgetsTheFuture(b: Books, t: Tick) { !IsNew(b, t.stamp) && Judge(b, t.now) == Future }

  /** A tick is sound exactly when it does not take that branch. */
  lemma SoundIff(b: Books, t: Tick)
    ensures Sound(b, t) <==> !ForgetsTheFuture(b, t)
  {
    var (after, recorded) := Step(b, t);
    if ForgetsTheFuture(b, t) {
      assert Above(b, b.last.value);
      if recorded.None? {
        assert !Above(after, b.last.value);
      } else {
        assert Above(b, recorded.value);
      }
    }
  }

  /**
   * A tick that brings nothing new drops the history exactly when its newest print is more than twelve hours older than
   * the clock, or more than thirty seconds newer.
   */
  lemma DropsIff(b: Books, t: Tick)
    requires !IsNew(b, t.stamp) && b.stamps != [] && b.last.Some?
    ensures Step(b, t) == (b, None) <==>
            t.now <= 0 || (t.now - b.last.value <= 12 * 60 * 60 * 1000 && b.last.value - t.now <= 30 * 1000)
    ensures Step(b, t) != (b, None) && Step(b, t).1.None? ==> Step(b, t).0.stamps == [] && Step(b, t).0.last.None?
  {
  }

  /**
   * A new print joins the history, of which at most the newest eight are kept; only after a gap of more than twelve
   * hours does it begin it anew.
   */
  lemma BooksIff(b: Books, stamp: int)
    requires b.last.Some? && b.stamps != [] && stamp > b.last.value
    ensures var after, all := Book(b, stamp), b.stamps + [stamp];
            && after.last == Some(stamp) && after.floor == b.floor
            && after.stamps == if stamp - b.last.value > 12 * 60 * 60 * 1000 then [stamp]
                               else if |all| > 8 then all[|all| - 8..] else all
  {
    assert b.stamps != [] ==> [] + [stamp] == [stamp];
  }

  // ---------------------------------------------------------------- the warm-up

  /**
   * A warm-up from the venue's newest unbroken run seeds an empty history, and its newest stamp becomes the watermark.
   */
  function Warmed(b: Books, clean: seq<int>): Books
  {
    if b.stamps != [] || clean == [] then b else Books(clean, Some(clean[|clean| - 1]), b.floor)
  }

  /** The warm-up does not lower the watermark exactly when it seeds nothing, or nothing newer was already seen. */
  lemma WarmSoundIff(b: Books, clean: seq<int>)
    ensures (forall w {:trigger Above(Warmed(b, clean), w)} {:trigger Above(b, w)} :: Above(b, w) ==>
                                                                                        Above(Warmed(b, clean), w))
       <==> Warmed(b, clean) == b || b.last.None? || b.last.value <= clean[|clean| - 1]
            || (b.floor.Some? && b.last.value <= b.floor.value)
  {
    if b.last.Some? { assert Above(b, b.last.value); }
  }

  /**
   * A history without prints has no last-print stamp either: true of a new book, and kept by everything that moves it.
   */
  predicate Dateless(b: Books) { b.stamps == [] ==> b.last.None? }

  // ---------------------------------------------------------------- runs

  /** A tick, or a warm-up with the unbroken run it found. */
  datatype Event = Ticked(t: Tick) | WarmedUp(clean: seq<int>)

  /** What an event leaves, and the print it recorded, if any. */
  function Happen(b: Books, e: Event): (Books, Option<int>)
  {
    match e
    case Ticked(t) => Step(b, t)
    case WarmedUp(clean) => (Warmed(b, clean), None)
  }

  function After(b: Books, events: seq<Event>): Books
    decreases |events|
  {
    if events == [] then b else After(Happen(b, events[0]).0, events[1..])
  }

  /** Every print a run records, in the order it records them. */
  function Recorded(b: Books, events: seq<Event>): seq<int>
    decreases |events|
  {
    if events == [] then []
    else
      var (after, recorded) := Happen(b, events[0]);
      (if recorded.Some? then [recorded.value] else []) + Recorded(after, events[1..])
  }

  /** And the branch that forgets does lose: the same settlement is recorded twice. */
  lemma FuturePrintIsBookedTwice() returns (events: seq<Event>)
    ensures Recorded(Books([], None, None), events) == [1_000_000, 400_000, 1_000_000]
  {
    var corrupt := Ticked(Tick(0, Some(1_000_000)));
    var older := Ticked(Tick(500_000, Some(400_000)));
    events := [corrupt, older, corrupt];
    var b1 := Happen(Books([], None, None), corrupt).0;
    var b2 := Happen(b1, older).0;
    assert Recorded(b2, [corrupt]) == [1_000_000]
                                      + Recorded(Happen(b2, corrupt).0, []) by { assert [corrupt][1..] == []; }
    assert [older, corrupt][1..] == [corrupt];
    assert events[1..] == [older, corrupt];
  }

  /** The newest stamp an event brings, and the clock it is judged by, if it has one. */
  function Brings(e: Event): Option<int>
  {
    match e
    case Ticked(t) => t.stamp
    case WarmedUp(clean) => if clean == [] then None else Some(clean[|clean| - 1])
  }

  function Clock(e: Event): int { if e.Ticked? then e.t.now else 0 }

  /**
   * No stamp, held at the start or brought on the way, lies further ahead of a later tick's clock than the skew limit.
   */
  ghost predicate Punctual(b: Books, events: seq<Event>)
  {
    && (b.last.Some? ==> forall j :: 0 <= j < |events| && Clock(events[j]) > 0 ==>
                                       b.last.value - Clock(events[j]) <= MAX_CLOCK_SKEW_MS)
    && (forall i, j :: 0 <= i <= j < |events| && Brings(events[i]).Some? && Clock(events[j]) > 0 ==>
                         Brings(events[i]).value - Clock(events[j]) <= MAX_CLOCK_SKEW_MS)
  }

  lemma PunctualTail(b: Books, events: seq<Event>)
    requires events != [] && Punctual(b, events)
    ensures Punctual(Happen(b, events[0]).0, events[1..])
    ensures events[0].Ticked? ==> !ForgetsTheFuture(b, events[0].t)
  {
    var after := Happen(b, events[0]).0;
    assert after.last.Some? ==> after.last == b.last || after.last == Brings(events[0]);
    forall j | 0 <= j < |events[1..]| && Clock(events[1..][j]) > 0 && after.last.Some?
      ensures after.last.value - Clock(events[1..][j]) <= MAX_CLOCK_SKEW_MS
    {
      assert events[1..][j] == events[j + 1];
    }
    forall i, j | 0 <= i <= j < |events[1..]| && Brings(events[1..][i]).Some? && Clock(events[1..][j]) > 0
      ensures Brings(events[1..][i]).value - Clock(events[1..][j]) <= MAX_CLOCK_SKEW_MS
    {
      assert events[1..][i] == events[i + 1] && events[1..][j] == events[j + 1];
    }
  }

  /**
   * A warm-up may come anywhere in the run if a book without prints has no watermark; ticks alone need no such start.
   */
  predicate WarmsSafely(b: Books, events: seq<Event>)
  {
    Dateless(b) || forall i :: 0 <= i < |events| ==> events[i].Ticked?
  }

  lemma EventSound(b: Books, e: Event)
    requires e.Ticked? ==> !ForgetsTheFuture(b, e.t)
    requires e.WarmedUp? ==> Dateless(b)
    ensures var (after, recorded) := Happen(b, e);
            && (forall w :: Above(b, w) ==> Above(after, w))
            && (recorded.Some? ==> Above(after, recorded.value) && !Above(b, recorded.value))
            && (Dateless(b) ==> Dateless(after))
  {
    match e
    case Ticked(t) => SoundIff(b, t);
    case WarmedUp(clean) => WarmSoundIff(b, clean);
  }

  /**
   * Over every run of ticks and warm-ups whose stamps are punctual, with repeats, gaps and stale discards: the
   * watermark never falls, and the prints recorded are strictly increasing and above where the run began, so none is
   * recorded twice, and none that a warm-up had already taken in.
   */
  lemma {:induction false} RecordedOnce(b: Books, events: seq<Event>)
    requires Punctual(b, events) && WarmsSafely(b, events)
    ensures StrictlyAscending(Recorded(b, events))
    ensures forall i :: 0 <= i < |Recorded(b, events)| ==> !Above(b, Recorded(b, events)[i])
    ensures forall w :: Above(b, w) ==> Above(After(b, events), w)
    decreases |events|
  {
    hide Step, Warmed, Punctual;
    if events != [] {
      PunctualTail(b, events);
      EventSound(b, events[0]);
      var (after, recorded) := Happen(b, events[0]);
      assert forall i :: 0 <= i < |events[1..]| ==> events[1..][i] == events[i + 1];
      RecordedOnce(after, events[1..]);
      var rest := Recorded(after, events[1..]);
      forall i | 0 <= i < |rest| ensures !Above(b, rest[i]) && (recorded.Some? ==> recorded.value < rest[i]) {
        assert !Above(after, rest[i]);
        if recorded.Some? { assert Above(after, recorded.value); }
      }
    }
  }

  // ---------------------------------------------------------------- the history's shape

  /** Adjacent stamps rise by no more than the gap that means a missed settlement. */
  ghost predicate Contiguous(stamps: seq<int>)
  {
    forall i, j :: 0 <= i < j < |stamps| && j == i + 1 ==> stamps[i] < stamps[j] <= stamps[i] + MAX_PRINT_GAP_MS
  }

  /** A history the gate may smooth: short, without a hole, and dated by the last-print watermark. */
  ghost predicate Shaped(b: Books)
  {
    && |b.stamps| <= FUNDING_HISTORY && Contiguous(b.stamps)
    && (b.stamps != [] ==> b.last == Some(b.stamps[|b.stamps| - 1]))
  }

  lemma BookKeepsShape(b: Books, stamp: int)
    requires Shaped(b) && (b.last.None? || stamp > b.last.value)
    ensures Shaped(Book(b, stamp))
  {
  }

  lemma SeededShape(clean: seq<int>, floor: Option<int>)
    requires 0 < |clean| <= FUNDING_HISTORY && Contiguous(clean)
    ensures Shaped(Books(clean, Some(clean[|clean| - 1]), floor))
  {
  }

  /** What a warm-up brings is short and unbroken. */
  ghost predicate Cleaned(e: Event) { e.WarmedUp? ==> |e.clean| <= FUNDING_HISTORY && Contiguous(e.clean) }

  /** No run of ticks and warm-ups, punctual or not, ever leaves a history with a hole or more than eight prints. */
  lemma {:induction false} HistoryStaysShaped(b: Books, events: seq<Event>)
    requires Shaped(b) && forall i :: 0 <= i < |events| ==> Cleaned(events[i])
    ensures Shaped(After(b, events))
    decreases |events|
  {
    hide Shaped, Cleaned, Book;
    if events != [] {
      assert Cleaned(events[0]);
      EventKeepsShape(b, events[0]);
      assert forall i :: 0 <= i < |events[1..]| ==> events[1..][i] == events[i + 1];
      HistoryStaysShaped(Happen(b, events[0]).0, events[1..]);
    }
  }

  lemma EventKeepsShape(b: Books, e: Event)
    requires Shaped(b) && Cleaned(e)
    ensures Shaped(Happen(b, e).0)
  {
    match e
    case WarmedUp(clean) => if clean != [] { SeededShape(clean, b.floor); }
    case Ticked(t) =>
      var kept := Discard(b, t.now);
      if IsNew(b, t.stamp) { BookKeepsShape(b, t.stamp.value); }
      else if IsNew(kept, t.stamp) { BookKeepsShape(kept, t.stamp.value); }
  }

  // ---------------------------------------------------------------- the settlements missed while down

  /**
   * Of the settlements due, the newest is left to the next tick, unless a warm-up has already moved the watermark past
   * it.
   */
  function Missed(due: seq<int>, last: Option<int>): seq<int>
  {
    if due != [] && (last.None? || due[|due| - 1] > last.value) then due[..|due| - 1] else due
  }

  /** One by one onto the history; nothing looks whether they are adjacent. */
  function Follow(b: Books, missed: seq<int>): Books
    decreases |missed|
  {
    if missed == [] then b
    else
      var n := |missed| - 1;
      var earlier := Follow(b, missed[..n]);
      if earlier.last.None? || missed[n] > earlier.last.value
      then Books(Newest(earlier.stamps + [missed[n]]), Some(missed[n]), earlier.floor) else earlier
  }

  /** A venue read that does not reach back to the last print seen: the history is the read's own newest stretch. */
  function Reseeded(b: Books, tail: seq<int>, missed: seq<int>): Books
    requires missed != []
  {
    var newest := missed[|missed| - 1];
    var seen := if b.last.Some? then b.last.value else 0;
    Books(Newest(Missed(tail, b.last)), Some(if seen > newest then seen else newest), b.floor)
  }

  /** What a restart makes of the watermark and the history, the ledger having last seen `seen`. */
  function Caught(b: Books, due: seq<int>, tail: seq<int>, seen: int): Books
  {
    var missed := Missed(due, b.last);
    if missed != [] && missed[0] - seen > MAX_PRINT_GAP_MS then Reseeded(b, tail, missed) else Follow(b, missed)
  }

  lemma {:induction false} FollowMark(b: Books, missed: seq<int>)
    requires StrictlyAscending(missed)
    ensures var after := Follow(b, missed);
            && after.floor == b.floor && (b.last.Some? ==> after.last.Some? && b.last.value <= after.last.value)
            && (forall s :: s in missed ==> after.last.Some? && s <= after.last.value)
            && (after.last == b.last || (after.last.Some? && after.last.value in missed))
    decreases |missed|
  {
    if missed != [] {
      var n := |missed| - 1;
      FollowMark(b, missed[..n]);
      assert missed == missed[..n] + [missed[n]];
    }
  }

  /** What is left to the next tick is the newest settlement due, and lies above everything counted. */
  lemma MissedSplits(due: seq<int>, last: Option<int>)
    requires StrictlyAscending(due)
    ensures var missed := Missed(due, last);
            && StrictlyAscending(missed) && (forall s :: s in missed ==> s in due)
            && (missed == due != [] ==> last.Some? && forall s :: s in due ==> s <= last.value)
            && (missed != due ==> due != [] && (last.Some? ==> due[|due| - 1] > last.value)
                                  && (forall s :: s in due <==> s in missed || s == due[|due| - 1])
                                  && (forall s :: s in missed ==> s < due[|due| - 1]))
  {
    if due != [] { assert due == due[..|due| - 1] + [due[|due| - 1]]; }
  }

  lemma CaughtMark(b: Books, due: seq<int>, tail: seq<int>, seen: int)
    requires StrictlyAscending(due) && forall s :: s in due ==> s > 0
    ensures var after, missed := Caught(b, due, tail, seen), Missed(due, b.last);
            && after.floor == b.floor && (b.last.Some? ==> after.last.Some? && b.last.value <= after.last.value)
            && (forall s :: s in missed ==> after.last.Some? && s <= after.last.value)
            && (after.last == b.last || (after.last.Some? && after.last.value in missed))
  {
    hide Newest, Missed;
    var missed := Missed(due, b.last);
    MissedSplits(due, b.last);
    FollowMark(b, missed);
    if missed != [] { assert missed[|missed| - 1] in missed; }
  }

  /**
   * Across a restart each settlement due is counted once: those counted now are exactly those no tick could still
   * record, whichever branch the history took, and the one left, if any, is the newest. The watermark does not fall.
   */
  lemma CountedOnce(b: Books, due: seq<int>, tail: seq<int>, seen: int)
    requires StrictlyAscending(due) && (forall s :: s in due ==> s > 0 && (b.floor.None? || s > b.floor.value))
    ensures var after, missed := Caught(b, due, tail, seen), Missed(due, b.last);
            && (forall s :: s in due ==> (s in missed <==> !IsNew(after, Some(s))))
            && (forall s :: s in due && s !in missed ==> s == due[|due| - 1])
            && (b.last.Some? ==> after.last.Some? && b.last.value <= after.last.value)
            && (forall s :: s in missed ==> s in due && Above(after, s))
  {
    hide Caught, Missed;
    CaughtMark(b, due, tail, seen);
    MissedSplits(due, b.last);
  }

  predicate Offers(e: Event, due: seq<int>) { e.Ticked? && e.t.stamp.Some? && e.t.stamp.value in due }

  /**
   * So over any punctual run that follows, nothing counted at the restart is recorded again, and a tick that offers the
   * one left records it.
   */
  lemma RestartCountsOnce(b: Books, due: seq<int>, tail: seq<int>, seen: int, events: seq<Event>)
    requires StrictlyAscending(due) && (forall s :: s in due ==> s > 0 && (b.floor.None? || s > b.floor.value))
    requires var after := Caught(b, due, tail, seen); Punctual(after, events) && WarmsSafely(after, events)
    ensures var recorded, missed := Recorded(Caught(b, due, tail, seen), events), Missed(due, b.last);
            && (forall i :: 0 <= i < |recorded| ==> recorded[i] !in missed)
            && (events != [] && Offers(events[0], due) && events[0].t.stamp.value !in missed ==>
                  recorded != [] && recorded[0] == events[0].t.stamp.value)
  {
    hide Caught, Missed, Punctual, WarmsSafely, Recorded, Above;
    CountedOnce(b, due, tail, seen);
    var after := Caught(b, due, tail, seen);
    RecordedOnce(after, events);
    var recorded := Recorded(after, events);
    forall i | 0 <= i < |recorded| ensures recorded[i] !in Missed(due, b.last) {
      assert !Above(after, recorded[i]);
    }
    if events != [] && events[0].Ticked? && IsNew(after, events[0].t.stamp) { FirstRecorded(after, events); }
  }

  lemma FirstRecorded(b: Books, events: seq<Event>)
    requires events != [] && events[0].Ticked? && IsNew(b, events[0].t.stamp)
    ensures Recorded(b, events) != [] && Recorded(b, events)[0] == events[0].t.stamp.value
  {
  }

  /** No settlement is missing between a stamp and those that follow it. */
  predicate Adjacent(from: int, missed: seq<int>)
  {
    && (missed != [] ==> missed[0] <= from + MAX_PRINT_GAP_MS)
    && forall i :: 0 <= i < |missed| - 1 ==> missed[i + 1] <= missed[i] + MAX_PRINT_GAP_MS
  }

  lemma {:induction false} FollowStamps(b: Books, missed: seq<int>)
    requires StrictlyAscending(missed) && b.last.Some? && (missed != [] ==> missed[0] > b.last.value)
    requires |b.stamps| + |missed| <= FUNDING_HISTORY
    ensures Follow(b, missed) == if missed == [] then b
                                 else Books(b.stamps + missed, Some(missed[|missed| - 1]), b.floor)
    decreases |missed|
  {
    if missed != [] {
      var n := |missed| - 1;
      FollowStamps(b, missed[..n]);
      assert b.stamps + missed == b.stamps + missed[..n] + [missed[n]];
    }
  }

  /**
   * What the catch-up does not check: as long as nothing is dropped, the history keeps its shape if and only if no
   * settlement is missing among those it appends.
   */
  lemma FollowKeepsShapeIff(b: Books, missed: seq<int>)
    requires Shaped(b) && b.stamps != [] && StrictlyAscending(missed) && (missed != [] ==> missed[0] > b.last.value)
    requires |b.stamps| + |missed| <= FUNDING_HISTORY
    ensures Shaped(Follow(b, missed)) <==> Adjacent(b.last.value, missed)
  {
    hide Shaped, Adjacent, Contiguous;
    ShapedParts(b);
    FollowStamps(b, missed);
    JoinIff(b.stamps, missed);
    if missed != [] {
      ShapedParts(Follow(b, missed));
      assert (b.stamps + missed)[|b.stamps| + |missed| - 1] == missed[|missed| - 1];
    } else {
      assert b.stamps + missed == b.stamps;
    }
  }

  lemma ShapedParts(b: Books)
    ensures Shaped(b) <==> |b.stamps| <= FUNDING_HISTORY && Contiguous(b.stamps)
                           && (b.stamps != [] ==> b.last == Some(b.stamps[|b.stamps| - 1]))
  {
  }

  /** A stretch goes on without a hole exactly if what follows is adjacent. */
  lemma JoinIff(run: seq<int>, missed: seq<int>)
    requires Contiguous(run) && run != [] && StrictlyAscending(missed) && (missed != [] ==> missed[0] > run[|run| - 1])
    ensures Contiguous(run + missed) <==> Adjacent(run[|run| - 1], missed)
  {
    if Adjacent(run[|run| - 1], missed) { JoinedAdjacent(run, missed); }
    if Contiguous(run + missed) { JoinedContiguous(run, missed); }
  }

  lemma JoinedAdjacent(run: seq<int>, missed: seq<int>)
    requires Contiguous(run) && run != [] && StrictlyAscending(missed) && (missed != [] ==> missed[0] > run[|run| - 1])
    requires Adjacent(run[|run| - 1], missed)
    ensures Contiguous(run + missed)
  {
    var all, n := run + missed, |run|;
    forall i, j | 0 <= i < j < |all| && j == i + 1 ensures all[i] < all[j] <= all[i] + MAX_PRINT_GAP_MS {
      if i >= n { assert missed[i - n + 1] <= missed[i - n] + MAX_PRINT_GAP_MS; }
    }
  }

  lemma JoinedContiguous(run: seq<int>, missed: seq<int>)
    requires run != [] && Contiguous(run + missed)
    ensures Adjacent(run[|run| - 1], missed)
  {
    var all, n := run + missed, |run|;
    if missed != [] { assert all[n - 1] == run[n - 1] && all[n] == missed[0]; }
    forall i | 0 <= i < |missed| - 1 ensures missed[i + 1] <= missed[i] + MAX_PRINT_GAP_MS {
      assert all[n + i] == missed[i] && all[n + i + 1] == missed[i + 1];
    }
  }

  /** A run that bridges a hole: seen at 8h, read at 16h, 40h and 48h, all in one history. */
  lemma CatchUpBridgesAHole(h: int)
    requires h == 3_600_000
    ensures var b, due := Books([8 * h], Some(8 * h), None), [16 * h, 40 * h, 48 * h];
            Shaped(b) && Caught(b, due, [], 8 * h).stamps == [8 * h, 16 * h, 40 * h]
            && !Shaped(Caught(b, due, [], 8 * h))
  {
    var b, missed := Books([8 * h], Some(8 * h), None), [16 * h, 40 * h];
    assert [16 * h, 40 * h, 48 * h][..2] == missed;
    FollowStamps(b, missed);
    FollowKeepsShapeIff(b, missed);
    assert missed[1] > missed[0] + MAX_PRINT_GAP_MS;
  }

  /** A re-seeded history has no hole and at most eight prints. */
  lemma ReseedUnbroken(b: Books, tail: seq<int>, missed: seq<int>)
    requires missed != [] && Contiguous(tail)
    ensures var stamps := Reseeded(b, tail, missed).stamps; |stamps| <= FUNDING_HISTORY && Contiguous(stamps)
  {
  }

  // ---------------------------------------------------------------- the book's own fields

  /** A print the venue published: its rate in bps and its settlement stamp. */
  datatype Print = Print(bps: real, stamp: int)

  /** The row used for a stamp is the first the venue listed with it. */
  ghost predicate FirstOf(prints: seq<Print>, stamp: int, bps: real)
  {
    exists j :: 0 <= j < |prints| && prints[j] == Print(bps, stamp)
                && forall k :: 0 <= k < j ==> prints[k].stamp != stamp
  }

  /** The newest stretch of `all` without a missed settlement begins at `start`. */
  ghost predicate RunFrom(all: seq<int>, start: nat)
  {
    && start <= |all| && (all != [] ==> start < |all|)
    && Contiguous(all[start..])
    && (start > 0 ==> all[start] - all[start - 1] > MAX_PRINT_GAP_MS)
  }

  /** What is left of the rates held is a tail of them, each still with its own stamp. */
  ghost predicate Kept(stamps: seq<int>, rates: seq<real>, stamps': seq<int>, rates': seq<real>)
  {
    |stamps'| == |rates'| <= |stamps| == |rates|
    && stamps' == stamps[|stamps| - |stamps'|..] && rates' == rates[|rates| - |rates'|..]
  }

  lemma NewestKeeps<T>(s: seq<T>, x: T)
    ensures var r := Newest(s + [x]); && 0 < |r| <= |s| + 1 && r[|r| - 1] == x && r[..|r| - 1] == s[|s| + 1 - |r|..]
    ensures |Newest(s + [x])| == if |s| < FUNDING_HISTORY then |s| + 1 else FUNDING_HISTORY
  {
  }

  /** Keeping a new print leaves a tail of what was held, or nothing of it. */
  lemma TailKept(stamps: seq<int>, rates: seq<real>, gap: bool, stamp: int, bps: real)
    requires |stamps| == |rates|
    ensures var s, r := Newest((if gap then [] else stamps) + [stamp]), Newest((if gap then [] else rates) + [bps]);
            && |s| == |r| > 0 && |r| <= |rates| + 1 && r[|r| - 1] == bps
            && Kept(stamps, rates, s[..|s| - 1], r[..|r| - 1])
  {
    hide Newest;
    NewestKeeps(if gap then [] else stamps, stamp);
    NewestKeeps(if gap then [] else rates, bps);
  }

  ghost function Dates(prints: seq<Print>): set<int>
  {
    set j | 0 <= j < |prints| && prints[j].stamp > 0 :: prints[j].stamp
  }

  /** One rate for every dated settlement: the first row listed with its stamp. */
  method FirstRows(prints: seq<Print>) returns (byStamp: map<int, real>)
    ensures byStamp.Keys == Dates(prints)
    ensures forall s :: s in byStamp ==> FirstOf(prints, s, byStamp[s])
  {
    byStamp := map[];
    for j := 0 to |prints|
      invariant byStamp.Keys == Dates(prints[..j])
      invariant forall s :: s in byStamp ==> FirstOf(prints, s, byStamp[s])
    {
      var p := prints[j];
      ghost var before := byStamp.Keys;
      assert Dates(prints[..j + 1]) == before + (if p.stamp > 0 then {p.stamp} else {}) by {
        assert prints[..j + 1] == prints[..j] + [p];
        assert prints[..j + 1][j] == p;
        forall s | s in before ensures s in Dates(prints[..j + 1]) {
          var k :| 0 <= k < j && prints[..j][k].stamp == s && s > 0;
          assert prints[..j + 1][k].stamp == s;
        }
      }
      if p.stamp > 0 && p.stamp !in byStamp {
        assert forall k :: 0 <= k < j && prints[k].stamp == p.stamp ==> prints[..j][k].stamp in Dates(prints[..j]);
        assert FirstOf(prints, p.stamp, p.bps);
        byStamp := byStamp[p.stamp := p.bps];
      }
    }
    assert prints[..|prints|] == prints;
  }

  lemma ContiguousGrows(run: seq<int>, stamp: int)
    requires Contiguous(run) && run != [] && run[|run| - 1] < stamp <= run[|run| - 1] + MAX_PRINT_GAP_MS
    ensures Contiguous(run + [stamp])
  {
  }

  lemma SingleContiguous(stamp: int)
    ensures Contiguous([]) && Contiguous([stamp])
  {
  }

  lemma SliceGrows(all: seq<int>, start: nat, i: nat)
    requires start <= i < |all|
    ensures all[start..i + 1] == all[start..i] + [all[i]]
  {
  }

  /** One more stamp: the run goes on, or a gap begins it anew. */
  lemma StretchStep(all: seq<int>, start: nat, i: nat) returns (next: nat)
    requires StrictlyAscending(all) && start <= i < |all| && (i > 0 ==> start < i) && Contiguous(all[start..i])
    requires start > 0 ==> all[start] - all[start - 1] > MAX_PRINT_GAP_MS
    ensures next == if i > start && all[i] - all[i - 1] > MAX_PRINT_GAP_MS then i else start
    ensures next <= i && Contiguous(all[next..i + 1])
    ensures next > 0 ==> all[next] - all[next - 1] > MAX_PRINT_GAP_MS
    ensures all[next..i + 1] == (if next == i && i > start then [] else all[start..i]) + [all[i]]
  {
    hide Contiguous;
    SingleContiguous(all[i]);
    next := if i > start && all[i] - all[i - 1] > MAX_PRINT_GAP_MS then i else start;
    SliceGrows(all, next, i);
    if start < i && next == start {
      ContiguousGrows(all[start..i], all[i]);
    } else {
      assert all[next..i] == [] && all[next..i + 1] == [all[i]];
    }
  }

  lemma ContiguousTail(run: seq<int>, n: nat)
    requires Contiguous(run) && n <= |run|
    ensures Contiguous(run[n..])
  {
  }

  method NewestStretch(all: seq<int>) returns (run: seq<int>, ghost start: nat)
    requires StrictlyAscending(all)
    ensures RunFrom(all, start) && run == all[start..]
  {
    hide Contiguous, StrictlyAscending;
    run, start := [], 0;
    SingleContiguous(0);
    for i := 0 to |all|
      invariant start <= i && (i > 0 ==> start < i)
      invariant run == all[start..i] && Contiguous(run)
      invariant start > 0 ==> all[start] - all[start - 1] > MAX_PRINT_GAP_MS
    {
      ghost var next := StretchStep(all, start, i);
      if run != [] && all[i] - run[|run| - 1] > MAX_PRINT_GAP_MS { run := []; }
      run, start := run + [all[i]], next;
    }
    assert all[start..|all|] == all[start..];
  }

  method RatesOf(stamps: seq<int>, byStamp: map<int, real>) returns (rates: seq<real>)
    requires forall i :: 0 <= i < |stamps| ==> stamps[i] in byStamp
    ensures |rates| == |stamps| && forall i :: 0 <= i < |stamps| ==> rates[i] == byStamp[stamps[i]]
  {
    rates := [];
    for i := 0 to |stamps|
      invariant |rates| == i && forall k :: 0 <= k < i ==> rates[k] == byStamp[stamps[k]]
    {
      rates := rates + [byStamp[stamps[i]]];
    }
  }

  /** `clean` is the newest, at most eight, of the newest unbroken run of `all`. */
  ghost predicate NewestUnbroken(all: seq<int>, clean: seq<int>)
  {
    exists start: nat :: RunFrom(all, start) && clean == Newest(all[start..])
  }

  method NewestClean(all: seq<int>) returns (clean: seq<int>)
    requires StrictlyAscending(all)
    ensures NewestUnbroken(all, clean) && |clean| <= FUNDING_HISTORY && Contiguous(clean)
    ensures clean == [] ==> all == []
    ensures forall i :: 0 <= i < |clean| ==> clean[i] in all
  {
    hide RunFrom, Contiguous;
    var run, start := NewestStretch(all);
    clean := Newest(run);
    NewestOfTail(all, start);
    ContiguousTail(run, |run| - |clean|);
  }

  lemma NewestOfTail(all: seq<int>, start: nat)
    requires RunFrom(all, start)
    ensures var run := all[start..]; var clean := Newest(run);
                                     && clean == run[|run| - |clean|..] && Contiguous(run)
                                     && (clean == [] ==> all == [])
                                     && forall i :: 0 <= i < |clean| ==> clean[i] in all
  {
    hide Contiguous;
    var clean := Newest(all[start..]);
    forall i | 0 <= i < |clean| ensures clean[i] in all { assert clean[i] == all[i + |all| - |clean|]; }
  }

  /** Every rate is the first the venue listed for its stamp. */
  ghost predicate Rated(prints: seq<Print>, stamps: seq<int>, rates: seq<real>)
  {
    |rates| == |stamps| && forall i :: 0 <= i < |stamps| ==> FirstOf(prints, stamps[i], rates[i])
  }

  /** The rows a warm-up keeps. */
  method NewestRows(prints: seq<Print>) returns (clean: seq<int>, rates: seq<real>)
    ensures NewestUnbroken(Ascending(Dates(prints)), clean) && Rated(prints, clean, rates)
    ensures |clean| <= FUNDING_HISTORY && Contiguous(clean) && (clean == [] ==> Dates(prints) == {})
  {
    var byStamp := FirstRows(prints);
    var all := Ascending(byStamp.Keys);
    clean := NewestClean(all);
    rates := RatesOf(clean, byStamp);
    assert Rated(prints, clean, rates);
  }

  // ---------------------------------------------------------------- the rows a restart reads

  /** The row used for a stamp is the last the venue listed with it. */
  ghost predicate LastOf(prints: seq<Print>, stamp: int, bps: real)
  {
    exists j :: 0 <= j < |prints| && prints[j] == Print(bps, stamp)
                && forall k :: j < k < |prints| ==> prints[k].stamp != stamp
  }

  ghost function Stamps(prints: seq<Print>): set<int> { set j | 0 <= j < |prints| :: prints[j].stamp }

  /** One rate for every stamp listed, the last row's. */
  method LastRows(prints: seq<Print>) returns (byStamp: map<int, real>)
    ensures byStamp.Keys == Stamps(prints)
    ensures forall s :: s in byStamp ==> LastOf(prints, s, byStamp[s])
  {
    byStamp := map[];
    for j := 0 to |prints|
      invariant byStamp.Keys == Stamps(prints[..j])
      invariant forall s :: s in byStamp ==> LastOf(prints[..j], s, byStamp[s])
    {
      var p := prints[j];
      LastGrows(prints, j, byStamp);
      byStamp := byStamp[p.stamp := p.bps];
    }
    assert prints[..|prints|] == prints;
  }

  lemma LastGrows(prints: seq<Print>, j: nat, byStamp: map<int, real>)
    requires j < |prints| && byStamp.Keys == Stamps(prints[..j])
    requires forall s :: s in byStamp ==> LastOf(prints[..j], s, byStamp[s])
    ensures Stamps(prints[..j + 1]) == Stamps(prints[..j]) + {prints[j].stamp}
    ensures forall s :: s in byStamp && s != prints[j].stamp ==> LastOf(prints[..j + 1], s, byStamp[s])
    ensures LastOf(prints[..j + 1], prints[j].stamp, prints[j].bps)
  {
    var all := prints[..j + 1];
    assert all == prints[..j] + [prints[j]] && all[j] == prints[j];
    forall s | s in Stamps(prints[..j]) ensures s in Stamps(all) {
      var k :| 0 <= k < j && prints[..j][k].stamp == s;
      assert all[k].stamp == s;
    }
    forall s | s in byStamp && s != prints[j].stamp ensures LastOf(all, s, byStamp[s]) {
      var k :| 0 <= k < j && prints[..j][k] == Print(byStamp[s], s) && forall i :: k < i < j ==>
                                                                                     prints[..j][i].stamp != s;
      assert all[k] == Print(byStamp[s], s);
      forall i | k < i < |all| ensures all[i].stamp != s { if i < j { assert prints[..j][i] == all[i]; } }
    }
  }

  /** Every rate is the last the venue listed for its stamp. */
  ghost predicate RatedLast(prints: seq<Print>, stamps: seq<int>, rates: seq<real>)
  {
    |rates| == |stamps| && forall i :: 0 <= i < |stamps| ==> LastOf(prints, stamps[i], rates[i])
  }

  /** The newest stretch without a missed settlement of everything the venue listed. */
  ghost predicate NewestListed(prints: seq<Print>, tail: seq<int>)
  {
    var all := Ascending(Stamps(prints));
    exists start: nat :: RunFrom(all, start) && tail == all[start..]
  }

  /** The settlements a pair opened at `opened` was held through and the ledger had not seen. */
  ghost function Due(prints: seq<Print>, seen: int, openMs: int): set<int>
  {
    set s | s in Dates(prints) && s > seen && s > openMs
  }

  /** The pair was held through the settlement, which the venue lists, after the last one the ledger saw. */
  ghost predicate HeldThrough(prints: seq<Print>, seen: int, openMs: int, s: int)
  {
    s > 0 && s > seen && s > openMs && exists j :: 0 <= j < |prints| && prints[j].stamp == s
  }

  /** It is counted now: the watermark is past it already, or it is not the newest of its kind. */
  ghost predicate CountsNow(prints: seq<Print>, seen: int, openMs: int, last: Option<int>, s: int)
  {
    && HeldThrough(prints, seen, openMs, s)
    && ((last.Some? && s <= last.value) || exists later :: HeldThrough(prints, seen, openMs, later) && later > s)
  }

  lemma MissedMeans(prints: seq<Print>, seen: int, openMs: int, last: Option<int>, s: int)
    ensures s in Missed(Ascending(Due(prints, seen, openMs)), last) <==> CountsNow(prints, seen, openMs, last, s)
  {
    hide HeldThrough, Due, Missed;
    var due := Ascending(Due(prints, seen, openMs));
    forall x ensures x in due <==> HeldThrough(prints, seen, openMs, x) { DueIs(prints, seen, openMs, x); }
    MissedOf(due, last, s);
    if later :| HeldThrough(prints, seen, openMs, later) && later > s { assert later in due; }
    if later :| later in due && later > s { assert HeldThrough(prints, seen, openMs, later); }
  }

  lemma DueIs(prints: seq<Print>, seen: int, openMs: int, x: int)
    ensures x in Ascending(Due(prints, seen, openMs)) <==> HeldThrough(prints, seen, openMs, x)
  {
    hide StrictlyAscending;
    assert x in Ascending(Due(prints, seen, openMs)) <==> x in Due(prints, seen, openMs);
  }

  /** All but the newest are missed, and the newest too where the watermark has reached it. */
  lemma MissedOf(due: seq<int>, last: Option<int>, s: int)
    requires StrictlyAscending(due)
    ensures s in Missed(due, last) <==>
            s in due && ((last.Some? && s <= last.value) || exists later :: later in due && later > s)
  {
    MissedSplits(due, last);
    if due != [] {
      var newest := due[|due| - 1];
      assert newest in due && forall x :: x in due ==> x <= newest;
    }
  }

  /** The streak and the credit of settlements at these rates, in this order. */
  function StreakAfter(streak: nat, rates: seq<real>): nat
    decreases |rates|
  {
    if rates == [] then streak
    else if rates[|rates| - 1] < 0.0 then StreakAfter(streak, rates[..|rates| - 1]) + 1 else 0
  }

  function Credited(rates: seq<real>, short: real, price: real): real
    decreases |rates|
  {
    if rates == [] then 0.0
    else Credited(rates[..|rates| - 1], short, price) + rates[|rates| - 1] / 10000.0 * short * price
  }

  function SumOf(rates: seq<real>): real { if rates == [] then 0.0 else rates[0] + SumOf(rates[1..]) }

  lemma {:induction false} SumLast(rates: seq<real>)
    requires rates != []
    ensures SumOf(rates) == SumOf(rates[..|rates| - 1]) + rates[|rates| - 1]
    decreases |rates|
  {
    if |rates| > 1 {
      assert rates[1..][..|rates| - 2] == rates[..|rates| - 1][1..];
      SumLast(rates[1..]);
    }
  }

  /** The short is credited the sum of the rates on its value: what is positive it receives. */
  lemma {:induction false} CreditedIs(rates: seq<real>, short: real, price: real)
    ensures Credited(rates, short, price) == SumOf(rates) * (short * price) / 10000.0
    decreases |rates|
  {
    if rates != [] {
      SumLast(rates);
      CreditedIs(rates[..|rates| - 1], short, price);
      OneCredit(SumOf(rates[..|rates| - 1]), rates[|rates| - 1], short, price);
    }
  }

  lemma OneCredit(sum: real, rate: real, short: real, price: real)
    ensures (sum + rate) * (short * price) / 10000.0 == sum * (short * price) / 10000.0 + rate / 10000.0 * short * price
  {
    assert (sum + rate) * (short * price) == sum * (short * price) + rate * (short * price);
    assert rate / 10000.0 * short * price == rate * (short * price) / 10000.0;
  }

  /** The streak counts the negative rates since the last that was not, those before the restart included. */
  lemma {:induction false} StreakIs(streak: nat, rates: seq<real>)
    ensures var n := StreakAfter(streak, rates);
            if forall i :: 0 <= i < |rates| ==> rates[i] < 0.0 then n == streak + |rates|
            else n < |rates| && rates[|rates| - 1 - n] >= 0.0
                 && forall i :: |rates| - n <= i < |rates| ==> rates[i] < 0.0
    decreases |rates|
  {
    if rates != [] {
      var rest := rates[..|rates| - 1];
      StreakIs(streak, rest);
      if rates[|rates| - 1] < 0.0 && !(forall i :: 0 <= i < |rest| ==> rest[i] < 0.0) {
        var i :| 0 <= i < |rest| && rest[i] >= 0.0;
        assert rates[i] >= 0.0;
      }
    }
  }

  class FundingBook {
    var history: seq<real>
    /** The stamps of `history`; the source keeps the rates only. */
    ghost var stamps: seq<int>
    var last: Option<int>
    var floor: Option<int>
    /** The held pair, when there is one: when it opened, its short, what it collected, its negative streak. */
    var openedMs: Option<int>
    var short: real
    var collected: real
    var streak: nat

    ghost function Dated(): Books reads this { Books(stamps, last, floor) }

    ghost predicate Valid() reads this { |history| == |stamps| && Shaped(Dated()) }

    constructor ()
      ensures Valid() && Dated() == Books([], None, None) && openedMs.None?
    {
      history, stamps, last, floor, openedMs, short, collected, streak := [], [], None, None, None, 0.0, 0.0, 0;
    }

    predicate New(stamp: Option<int>)
      reads this
    {
      stamp.Some? && (last.None? || stamp.value > last.value) && (floor.None? || stamp.value > floor.value)
    }

    /** `_drop_history_the_clock_disproves`. */
    method DropDisproved(now: int) returns (v: Verdict)
      requires Valid()
      modifies this`history, this`stamps, this`last, this`floor
      ensures Valid() && v == Judge(old(Dated()), now) && Dated() == Discard(old(Dated()), now)
      ensures Kept(old(stamps), old(history), stamps, history)
    {
      if now <= 0 || last.None? || history == [] { return Placed; }
      var newest := last.value;
      var stale := now - newest > MAX_PRINT_GAP_MS;
      if stale || newest - now > MAX_CLOCK_SKEW_MS {
        history, stamps, last := [], [], None;
        if stale {
          floor := Some(if floor.Some? && floor.value > newest then floor.value else newest);
          return Stale;
        }
        floor := None;
        return Future;
      }
      v := Placed;
    }

    /** Keep a new print: after a missed settlement the older rates are dropped first. */
    method Append(stamp: int, bps: real)
      requires Valid() && (last.None? || stamp > last.value)
      modifies this`history, this`stamps, this`last
      ensures Valid() && Dated() == Book(old(Dated()), stamp)
      ensures history != [] && history[|history| - 1] == bps && |history| <= |old(history)| + 1
      ensures Kept(old(stamps), old(history), stamps[..|stamps| - 1], history[..|history| - 1])
    {
      hide Shaped, Newest, Kept;
      BookKeepsShape(Dated(), stamp);
      var gap := last.Some? && history != [] && stamp - last.value > MAX_PRINT_GAP_MS;
      TailKept(stamps, history, gap, stamp, bps);
      if gap { history, stamps := [], []; }
      last := Some(stamp);
      history, stamps := Newest(history + [bps]), Newest(stamps + [stamp]);
    }

    /** The history side of one tick: it moves as `Step` says, and every rate kept keeps its stamp. */
    method Record(now: int, stamp: Option<int>, bps: real) returns (recorded: bool)
      requires Valid()
      modifies this`history, this`stamps, this`last, this`floor
      ensures Valid() && (recorded ==> stamp.Some?)
      ensures Step(old(Dated()), Tick(now, stamp)) == (Dated(), if recorded then stamp else None)
      ensures recorded ==> history != [] && history[|history| - 1] == bps
      ensures var n := |history| - (if recorded then 1 else 0);
              Kept(old(stamps), old(history), stamps[..n], history[..n])
    {
      hide Shaped, Book, Judge;
      recorded := New(stamp);
      if recorded {
        Append(stamp.value, bps);
      } else {
        var v := DropDisproved(now);
        if v == Future && New(stamp) {
          Append(stamp.value, bps);
          recorded := true;
        } else {
          assert stamps[..|history|] == stamps && history[..|history|] == history;
        }
      }
    }

    /**
     * The print handling of one tick: a held pair is credited exactly when a print stamped after it opened is recorded.
     */
    method OnCandle(now: int, stamp: Option<int>, bps: real, mark: real) returns (recorded: bool)
      requires Valid() && mark > 0.0
      modifies this
      ensures Valid() && (recorded ==> stamp.Some?)
      ensures Step(old(Dated()), Tick(now, stamp)) == (Dated(), if recorded then stamp else None)
      ensures recorded ==> history != [] && history[|history| - 1] == bps
      ensures var n := |history| - (if recorded then 1 else 0);
              Kept(old(stamps), old(history), stamps[..n], history[..n])
      ensures openedMs == old(openedMs) && short == old(short)
      ensures var held := recorded && openedMs.Some? && stamp.value > openedMs.value;
              && collected == old(collected) + (if held then bps / 10000.0 * short * mark else 0.0)
              && streak == (if !held then old(streak) else if bps < 0.0 then old(streak) + 1 else 0)
    {
      hide Shaped, Step, Kept;
      recorded := Record(now, stamp, bps);
      if recorded && openedMs.Some? && stamp.value > openedMs.value {
        Credit(bps, mark);
      }
    }

    method Credit(bps: real, mark: real)
      modifies this`collected, this`streak
      ensures collected == old(collected) + bps / 10000.0 * short * mark
      ensures streak == if bps < 0.0 then old(streak) + 1 else 0
    {
      collected := collected + bps / 10000.0 * short * mark;
      streak := if bps < 0.0 then streak + 1 else 0;
    }

    method Seed(ghost clean: seq<int>, rates: seq<real>, newest: int)
      requires |rates| == |clean| && Shaped(Books(clean, Some(newest), floor))
      modifies this`history, this`stamps, this`last
      ensures Valid() && history == rates && stamps == clean
    {
      history, stamps, last := rates, clean, Some(newest);
    }

    /** `warm_funding_history`: seed an empty history with the newest unbroken run the venue published. */
    method Warm(prints: seq<Print>) returns (n: nat, ghost clean: seq<int>)
      requires Valid()
      modifies this`history, this`stamps, this`last
      ensures Valid() && Dated() == Warmed(old(Dated()), clean) && Cleaned(WarmedUp(clean))
      ensures n == (if old(history) != [] then 0 else |history|)
      ensures n == 0 ==> Dated() == old(Dated()) && history == old(history)
      ensures old(history) == [] && n == 0 ==> Dates(prints) == {}
      ensures n > 0 ==> NewestUnbroken(Ascending(Dates(prints)), stamps) && clean == stamps
      ensures n > 0 ==> Rated(prints, stamps, history)
    {
      hide Contiguous, NewestUnbroken, Rated;
      clean := [];
      SingleContiguous(0);
      if history != [] { return 0, clean; }
      var rows, rates := NewestRows(prints);
      if rows == [] { return 0, clean; }
      clean := rows;
      SeededShape(rows, floor);
      Seed(rows, rates, rows[|rows| - 1]);
      n := |history|;
    }

    /**
     * `_catch_up_missed_prints`: a resumed pair is credited the settlements it was held through while the process was
     * down, each at the first rate listed for it; the history follows them, or is re-seeded where they start too late.
     */
    method CatchUp(ledgerLast: Option<int>, prints: seq<Print>, mark: real, entry: real)
      returns (counted: seq<int>, ghost rates: seq<real>, ghost tail: seq<int>)
      requires |history| == |stamps|
      modifies this`history, this`stamps, this`last, this`collected, this`streak
      ensures |history| == |stamps| && Rated(prints, counted, rates)
      ensures openedMs.None? || (ledgerLast.None? && old(last).None?) ==> unchanged(this) && counted == []
      ensures openedMs.Some? && (ledgerLast.Some? || old(last).Some?) ==>
                var seen := if ledgerLast.Some? then ledgerLast.value else old(last).value;
                var due := Ascending(Due(prints, seen, openedMs.value));
                && counted == Missed(due, old(last)) && Dated() == Caught(old(Dated()), due, tail, seen)
                && NewestListed(prints, tail)
                && (forall s :: s in counted <==> CountsNow(prints, seen, openedMs.value, old(last), s))
                && (counted != [] && counted[0] - seen > MAX_PRINT_GAP_MS ==> RatedLast(prints, stamps, history))
      ensures streak == StreakAfter(old(streak), rates)
      ensures collected == old(collected)
                           + Credited(rates, short, if mark > 0.0 then mark else if entry > 0.0 then entry else 0.0)
    {
      hide NewestListed, RatedLast, Caught, Missed, StrictlyAscending, FirstOf, StreakAfter, Credited, CountsNow, Due;
      counted, rates, tail := [], [], [];
      NothingCredited(streak, short, if mark > 0.0 then mark else if entry > 0.0 then entry else 0.0);
      if openedMs.None? || (ledgerLast.None? && last.None?) { return; }
      var seen := if ledgerLast.Some? then ledgerLast.value else last.value;
      var due, byStamp := DueRows(prints, seen, openedMs.value);
      counted := Missed(due, last);
      MissedCount(prints, seen, openedMs.value, last);
      MissedListed(due, last, byStamp);
      var found := RatesOf(counted, byStamp);
      rates := found;
      tail := Reseat(prints, due, counted, found, seen);
      CreditAll(found, if mark > 0.0 then mark else if entry > 0.0 then entry else 0.0);
    }

    /** The settlements due, and the first rate listed for each stamp. */
    method DueRows(prints: seq<Print>, seen: int, openMs: int) returns (due: seq<int>, byStamp: map<int, real>)
      ensures due == Ascending(Due(prints, seen, openMs)) && (forall s :: s in due ==> s in byStamp)
      ensures forall s :: s in byStamp ==> FirstOf(prints, s, byStamp[s])
    {
      hide FirstOf, StrictlyAscending;
      byStamp := FirstRows(prints);
      due := Ascending(set s | s in byStamp && s > seen && s > openMs);
      assert (set s | s in byStamp && s > seen && s > openMs) == Due(prints, seen, openMs);
    }

    lemma MissedCount(prints: seq<Print>, seen: int, openMs: int, last: Option<int>)
      ensures forall s :: s in Missed(Ascending(Due(prints, seen, openMs)), last)
                          <==> CountsNow(prints, seen, openMs, last, s)
    {
      forall s { MissedMeans(prints, seen, openMs, last, s); }
    }

    lemma MissedListed(due: seq<int>, last: Option<int>, byStamp: map<int, real>)
      requires forall s :: s in due ==> s in byStamp
      ensures forall i :: 0 <= i < |Missed(due, last)| ==> Missed(due, last)[i] in byStamp
    {
      var missed := Missed(due, last);
      forall i | 0 <= i < |missed| ensures missed[i] in byStamp { assert missed[i] == due[i]; }
    }

    lemma NothingCredited(streak: nat, short: real, price: real)
      ensures StreakAfter(streak, []) == streak && Credited([], short, price) == 0.0
    {
    }

    /** The history and the watermark of the catch-up. */
    method Reseat(prints: seq<Print>, due: seq<int>, missed: seq<int>, rates: seq<real>, seen: int)
      returns (ghost tail: seq<int>)
      requires |history| == |stamps| && |rates| == |missed| && missed == Missed(due, last)
      modifies this`history, this`stamps, this`last
      ensures |history| == |stamps| && Dated() == Caught(old(Dated()), due, tail, seen) && NewestListed(prints, tail)
      ensures missed != [] && missed[0] - seen > MAX_PRINT_GAP_MS ==> RatedLast(prints, stamps, history)
    {
      hide NewestListed, StrictlyAscending, Missed, RatedLast, Newest;
      var run, listed := ListNewest(prints);
      tail := run;
      if missed != [] && missed[0] - seen > MAX_PRINT_GAP_MS {
        var kept := Missed(run, last);
        MissedListed(run, last, listed);
        var found := RatesOf(kept, listed);
        AllRatedLast(prints, listed, kept, found);
        TakeNewest(prints, kept, found);
        var newest, mark := missed[|missed| - 1], if last.Some? then last.value else 0;
        last := Some(if mark > newest then mark else newest);
      } else {
        FollowAll(missed, rates);
      }
    }

    /** The newest stretch of what the venue listed, and a rate for each stamp. */
    method ListNewest(prints: seq<Print>) returns (run: seq<int>, byStamp: map<int, real>)
      ensures NewestListed(prints, run) && (forall s :: s in run ==> s in byStamp)
      ensures forall s :: s in byStamp ==> LastOf(prints, s, byStamp[s])
    {
      hide RunFrom, StrictlyAscending, LastOf;
      byStamp := LastRows(prints);
      var all := Ascending(byStamp.Keys);
      ghost var start;
      run, start := NewestStretch(all);
      StretchListed(all, start, byStamp);
    }

    method TakeNewest(prints: seq<Print>, kept: seq<int>, found: seq<real>)
      requires |kept| == |found| && RatedLast(prints, kept, found)
      modifies this`history, this`stamps
      ensures stamps == Newest(kept) && history == Newest(found) && |history| == |stamps|
              && RatedLast(prints, stamps, history)
    {
      hide LastOf;
      history, stamps := Newest(found), Newest(kept);
    }

    lemma AllRatedLast(prints: seq<Print>, byStamp: map<int, real>, kept: seq<int>, found: seq<real>)
      requires forall s :: s in byStamp ==> LastOf(prints, s, byStamp[s])
      requires |found| == |kept| && forall i :: 0 <= i < |kept| ==> kept[i] in byStamp && found[i] == byStamp[kept[i]]
      ensures RatedLast(prints, kept, found)
    {
      hide LastOf;
    }

    lemma StretchListed(all: seq<int>, start: nat, byStamp: map<int, real>)
      requires RunFrom(all, start) && forall s :: s in all ==> s in byStamp
      ensures start <= |all| && forall s :: s in all[start..] ==> s in byStamp
    {
    }

    method FollowAll(missed: seq<int>, rates: seq<real>)
      requires |history| == |stamps| && |rates| == |missed|
      modifies this`history, this`stamps, this`last
      ensures |history| == |stamps| && Dated() == Follow(old(Dated()), missed)
    {
      hide Newest;
      ghost var before := Dated();
      for i := 0 to |missed|
        invariant |history| == |stamps| && Dated() == Follow(before, missed[..i])
      {
        assert missed[..i + 1][..i] == missed[..i];
        if last.None? || missed[i] > last.value {
          NewestKeeps(history, rates[i]);
          NewestKeeps(stamps, missed[i]);
          history, stamps, last := Newest(history + [rates[i]]), Newest(stamps + [missed[i]]), Some(missed[i]);
        }
      }
      assert missed[..|missed|] == missed;
    }

    method CreditAll(rates: seq<real>, price: real)
      modifies this`collected, this`streak
      ensures streak == StreakAfter(old(streak), rates)
      ensures collected == old(collected) + Credited(rates, short, price)
    {
      for i := 0 to |rates|
        invariant streak == StreakAfter(old(streak), rates[..i])
        invariant collected == old(collected) + Credited(rates[..i], short, price)
      {
        assert rates[..i + 1][..i] == rates[..i];
        Credit(rates[i], price);
      }
      assert rates[..|rates|] == rates;
    }
  }
}
