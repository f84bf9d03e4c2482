# Verification of the BTC carry bot's cores

Dafny models of the parts of the bot whose correctness is about runs, loops and crash points, with proofs of what they
promise. `dafny verify dfyconfig.toml` checks everything.

| file | what it models |
|---|---|
| Basics.dfy | options, the price of a merged leg, lot rounding, ascending listings, sums over maps |
| ColdStart.dfy, CarryBook.dfy | the two-leg book: entry, rebalance, cover check, unwind, staged close, ledger writes and restart |
| MakerFirst.dfy | placing, looking up and cancelling one order; resting, cancelling and crossing the remainder |
| FundingPrints.dfy | which funding prints a tick records, the history they form, and the settlements missed while down |
| CloseProtocol.dfy | the durable close: intents, sends, observations, crashes |
| Reservations.dfy | capital reservations, their event log and lock, and the carry book's tick over them |
| FundingHistory.dfy, SettlementLog.dfy | the paginated readers of the venue's funding prints and settlement log |
| Allocator.dfy | the greedy capital allocator |
| EntryGate.dfy | the entry gate, its horizon arithmetic and its inverse by bisection |
| PerpVenue.dfy | one step of the perpetual simulator, as functions on its state |
| PerpFills.dfy | what its orders, exits, margins and bars come to, in prices, quantities and fees |
| PerpAccounting.dfy, Liquidation.dfy, PerpState.dfy | its equity identity, liquidation and saved state |
| FundingClock.dfy, FundingBoundary.dfy, FundingHold.dfy, FundingPaid.dfy | its funding: the clock, the boundary settlement, both over a whole hold, and the dollars |
| PerpSimulator.dfy | the simulator object, every method of which does what PerpVenue says |

How the models are set up:

- Money, prices and quantities are exact reals, times are integer milliseconds (reals in seconds in the close protocol
  and the reservations), and the dust constants 1e-12 and 1e-9 are 0. Ids and symbols are integers where only their
  identity matters.
- A venue, a disk or another writer is a class whose methods may answer anything its contract allows. The contracts
  name their assumptions as constants: an `honest` venue tells the truth about its rows (the maker-first venue always
  does); one that `showsDuplicates` shows an order whose second sending it refused; a `prompt` one answers and cancels
  in time; `exactFills` never fill more than was asked; a `quiet` account is moved by nothing but the book; on an
  `obliging`, `steady` or `deep` day nothing that can succeed fails. Safety results hold without the last three, which
  only say what must then happen.
- A crash is not an extra step. In the book, every effect appends the world it leaves to a ghost trace and validity
  says each world in the trace restarts safely. In the close protocol, a method may return `Died` after any effect.
- The simulator is an object whose fields change in place; `Contents()` is its state as a value, each method equates
  the new state with a function of the old one, and the laws are proved of those functions over all runs.

Where the code and its documentation disagree the code is followed: `snap_to_lot` truncates toward zero, which is the
documented rounding down only for the non-negative quantities it is given (`SnapRoundsDownIff`); a future-stamped
print that is discarded also clears the stale floor; a post-only order refused as a duplicate and not shown when
looked up is reported as not standing, although the method promises to raise when a fate cannot be established; and an
expiry that names no scope reads before it writes, although every transaction is described as writing first.

## Model

| member | source | states |
|---|---|---|
| `Lots.SnapBounds` | bot/carry_engine.py:152-171 | A snapped quantity is on the lot grid, never above the request and short of it by less than one lot |
| `Lots.SnapIsGreatest` | bot/carry_engine.py:152-171 | No multiple of the lot fits between the snapped quantity and the request |
| `Lots.SnapIdempotent` | bot/carry_engine.py:152-171 | Snapping twice is snapping once |
| `Lots.SnapRoundsDownIff` | bot/carry_engine.py:152-171 | Snapping rounds down exactly the amounts that are not negative or already on the grid; -1.5 lots become -1 |
| `ColdStart.SafeLedgerRestartsSafely` | bot/carry_engine.py:321-491 | If the ledger obeys the write-ahead rule, RESUME implies the recorded perp is the venue's, the coin matches (ACQUIRE, up to the stated base fee) or covers it (OVERLAY), and the short does not outrun the coin (OVERLAY: by more than a perp lot; ACQUIRE: given exact fills); nothing is compared only where an overlay's UNWINDING ledger meets an open close log; CLEAN implies a flat perp and at most one unsold spot lot |
| `ColdStart.UnsafeLedgerRestartsClean` | bot/carry_engine.py:321-491 | Partner: a ledger that breaks the rule restarts CLEAN over coin the book still holds, so the rule is what carries the claim |
| `ColdStart.PlanIff` | bot/carry_engine.py:321-491 | Each decision but HALT by when it is made: RESUME exactly where nothing is open, no transaction was, and ledger, configuration and venue agree on the pair; mid-close exactly for an overlay's open close; CLEAN exactly where there is no pair on either side |
| `CarryBook.World.PlaceMarket` | bot/carry_broker.py:699-923 | A venue order: any outcome consistent with the contract; a spot order only while the ledger does not read as clean; the world it leaves restarts safely |
| `CarryBook.World.Persist` | bot/carry_engine.py:952-966 | A ledger write that may raise and may be torn from its outcome; only ledgers safe for the holdings of the moment may be written, and either result restarts safely |
| `CarryBook.World.StepClose` | bot/close_executor.py:213-304 | One step of the durable close moves the short only down and says flat only when the venue reads flat; the world it leaves restarts safely |
| `CarryBook.CarryEngine.Halt` | bot/carry_engine.py:4024-4050 | Halting moves no holdings, always ends HALTED, and never makes a ledger read as clean |
| `CarryBook.CarryEngine.Record` | bot/carry_engine.py:952-966 | The position write: on failure the book is HALTED and the disk holds the old row or the new one |
| `CarryBook.CarryEngine.Take` | bot/carry_engine.py:3686-3729 | One crossing order: a leg states exactly what the venue filled, in the configured market; an unknown fate halts; on an obliging venue the leg is the whole order |
| `CarryBook.CarryEngine.Refuse` | bot/carry_engine.py:4007-4022 | A refused leg takes the open-transaction marker down, but never a halt |
| `CarryBook.CarryEngine.OpenAcquire` | bot/carry_engine.py:1929-1990 | Intent before the first leg; however it ends, on a quiet account whose fills never exceed their orders, short <= coin of this cycle; hedged at exactly the lot-floored net coin, or excused by the venue's minima or the delta band |
| `CarryBook.CarryEngine.HedgeBoughtSpot` | bot/carry_engine.py:1940-1990 | The second leg is the net coin floored to the perp lot, or the first leg is undone; on a quiet account whose fills never exceed their orders the short never exceeds the coin |
| `CarryBook.CarryEngine.OpenOverlay` | bot/carry_engine.py:1996-2030 | The overlay entry is sized inside the inventory read, floored to the lot, and refused below the venue's minima; hedged, its coin is the slice of the short at the spot mark |
| `CarryBook.CarryEngine.ShortInventory` | bot/carry_engine.py:2030-2088 | The short left standing is no larger than the inventory, or the book is halted, however far a market leg overshot |
| `CarryBook.CarryEngine.Rebalance` | bot/carry_engine.py:2090-2158 | Only the perp moves, toward the held coin, by the snapped difference; it never passes the coin (in ACQUIRE, given exact fills); exactly a difference below one lot changes nothing |
| `CarryBook.CarryEngine.ShortLeftAfterClose` | bot/carry_engine.py:2205-2232 | Up to three looks, the last the first that fails or is down to what the fills imply; what is still short is never read as less than that |
| `CarryBook.CarryEngine.PartialClose` | bot/carry_engine.py:2875-2907 | The pair is rewritten to exactly the quantities still held, and the book stops |
| `CarryBook.CarryEngine.SpotAfterPerpClosed` | bot/carry_engine.py:2586-2660 | A short closed elsewhere: only this pair's own coin is sold, all a lot can sell of it where orders do what they say; the record keeps no short and the coin left; the book halts either way |
| `CarryBook.CarryEngine.SellInProportion` | bot/carry_engine.py:2822-2865 | Through lot flooring, at most the closed fraction of the coin is sold; a full close on an obliging venue leaves only what no lot could sell |
| `CarryBook.CarryEngine.UnwindOverlay` | bot/carry_engine.py:2790-2821 | An overlay unwind sells no coin, ends FLAT only on the venue's own word that the short is gone, and otherwise writes down the short the venue shows and its slice of coin or, unread, what the fills leave |
| `CarryBook.CarryEngine.UnwindImpl` | bot/carry_engine.py:2738-2873 | A staged overlay takes a step of its durable close; otherwise it ends FLAT or HALTED, and the coin kept is at least the fraction of the coin that the open short is of the short before, so a covered pair stays covered (quiet account, exact fills); on an obliging quiet account both legs are gone |
| `CarryBook.CarryEngine.StagedClose` | bot/carry_engine.py:2666-2728 | One step of the staged close: FLAT only when the venue reads flat and the close's own booked fills explain it; still UNWINDING only with that on disk; otherwise halted, and the position is what the step's answer says is left |
| `CarryBook.CarryEngine.EmergencyUnwindSpot` | bot/carry_engine.py:2909-2980 | The naked first leg is sold on the lot and FLAT claimed only when nothing sellable is left; otherwise halted with no hedge and the coin left on record; an unknown hedge is recorded and halted, nothing sold |
| `CarryBook.CarryEngine.CheckInventoryCover` | bot/carry_engine.py:3075-3205 | A tick it leaves HEDGED has a short <= inventory read + one perp lot; with the inventory there it does nothing |
| `CarryBook.CarryEngine.SettleCover` | bot/carry_engine.py:3140-3201 | After a buy-back: flat, or smaller and covered to within one lot, or rewritten to what is held and halted; by the short the venue shows or, unread, by the fills |
| `CarryBook.CarryEngine.CheckMargin` | bot/carry_engine.py:2981-3004 | No report exactly where margin and distance both read ample. An unreadable one halts, or, where the venue's own records show the short closed elsewhere, sells the pair's coin and halts; a thin one unwinds to flat where orders do what they say; otherwise nothing changes |
| `CarryBook.CarryEngine.CheckVenuePosition` | bot/carry_engine.py:3031-3073 | The book stops exactly where the short the venue showed is not its own or could not be read; it is never corrected, and a pair whose short was provably closed elsewhere sells its coin |
| `CarryBook.CarryEngine.SoldIfClosedElsewhere` | bot/carry_engine.py:2544-2653 | Exactly in ACQUIRE and when two reads show no short and the closing records cover the book's; never on a quiet account, and always to a halt |
| `CarryBook.CarryEngine.HeldTick` | bot/carry_engine.py:1695-1760 | Over margin gates, venue check, cover check, rebalance, the write of a booked print and the inversion exit, every OVERLAY tick that ends HEDGED has a short within the inventory read plus one lot, whatever the fills; an ACQUIRE one, on a quiet account with exact fills, within the coin; a hold is only reported for an uninverted, unchanged pair with the booked print on disk |
| `CarryBook.CarryEngine.TickWithoutView` | bot/carry_engine.py:3006-3029 | Without a market view a staged close takes its step and a held pair is checked against the venue and its margin; agreement changes nothing |
| `CarryBook.CarryEngine.Restart` | bot/carry_engine.py:968-1030 | A new process on any world a crash may leave does what the cold-start plan says and is again valid: clean is flat, resume is the recorded pair (mid-close where the close log is open), a halt rewrites nothing; with a spot order of unknown fate still out it never comes up clean |
| `CarryBook.CarryEngine.TakeUp` | bot/carry_engine.py:861-907 | The recorded pair is the book's again and what it may write anew restarts safely |
| `CarryBook.StopAndStart` | bot/carry_engine.py:968-1030 | MAIN. Stop and start: a held pair, whose ledger is on disk at every step, is taken up again by a new process, the same position under RESUME, wherever the venue still holds it and no order is open, and is HEDGED unless a write fails. Where the last write was the book's own, a flat book over a flat perp comes up clean, a staged close goes on mid-close, a halt stays |
| `CarryBook.Live` | bot/carry_engine.py:952-1030 | MAIN. Any interleaving of entries, whole ticks with and without a market view, staged-close steps and restarts, at any venue minima, over any fills and failing writes: every world left behind by any single effect restarts safely |
| `CarryBook.FractionIsExact` | bot/carry_engine.py:2822-2850 | Both ways of computing the closed fraction give filled / held when reads are honest |
| `CarryBook.DeltaFractionIs` | bot/carry_engine.py:572-578 | The delta fraction is the size of the delta at the mark over what both legs cost, and nothing for an empty book |
| `CarryBook.ProportionKept` | bot/carry_engine.py:2822-2865 | Selling at most the closed fraction keeps at least the open fraction, and keeps a covered pair covered |
| `MakerFirst.Merge` | bot/carry_engine.py:3961-3981 | A merged leg adds its quantities and prices them so that price x quantity is the sum of both; an unknown fee half makes the fee unknown |
| `Fills.MergedPositive` | bot/carry_engine.py:3962-3969 | The merged price of two priced fills is a price: positive when anything filled |
| `MakerFirst.Executor.Rest` | bot/carry_engine.py:3770-3905 | A post-only order that is not known terminal halts the book, and at a prompt venue with a readable book nothing else does; otherwise the leg is exactly what it filled, at its price and fee, and it can fill no more |
| `MakerFirst.Executor.Take` | bot/carry_engine.py:3686-3729 | A crossing leg is exactly what that order filled; an unknown fate halts |
| `MakerFirst.Executor.RestThenTake` | bot/carry_engine.py:3731-3756 | MAIN. Unless halted, and where a refused duplicate is shown when looked up, the booked leg is exactly the total of every order sent, at the quantity-weighted price and, where it states one, with all their fees, none still live; it is at most the request; where market orders fill, less than one lot is left out; at a prompt venue it does not halt |
| `MakerFirst.CrossingBesideALiveOrderDoubles` | bot/carry_engine.py:3831-3905 | Partner: crossing beside an order still resting can fill twice what was asked, which is why that halts |
| `MakerFirst.PostVerdictIff` | bot/carry_broker.py:1120-1204 | What a post-only placement concludes is true of every honest venue if and only if the reply was not a duplicate whose row is not shown; there a live order is reported as rejected |
| `MakerFirst.CrossVerdictSound` | bot/carry_broker.py:751-923 | What a market placement concludes is always true: nothing sent, exactly what filled, or unknown |
| `MakerFirst.Venue.PlacePostOnly` | bot/carry_broker.py:1120-1204 | Whatever the reply, one look decides: no order, this order as it is, or an unknown fate raised |
| `MakerFirst.Venue.PlaceMarket` | bot/carry_broker.py:751-923 | The same for a market order, read back a few times until final |
| `MakerFirst.Venue.CancelOrder` | bot/carry_broker.py:1206-1246 | A cancel is answered by reading the order back, never by the cancel's own response |
| `FundingPrints.SoundIff` | bot/carry_engine.py:1518-1552 | A tick keeps the watermark from falling and records only above it if and only if it does not take the branch that forgets a future stamp |
| `FundingPrints.DropsIff` | bot/carry_engine.py:1518-1552 | A tick that brings nothing new leaves the books as they are exactly when the newest print is at most twelve hours behind its clock and at most thirty seconds ahead of it; otherwise the history goes |
| `FundingPrints.BooksIff` | bot/carry_engine.py:1615-1648 | A new print joins the history, of which the newest eight stay; only after a gap over twelve hours does it begin one anew |
| `FundingPrints.WarmSoundIff` | bot/carry_engine.py:1144-1169 | A warm-up does not lower the watermark exactly when it seeds nothing or nothing newer was already seen |
| `FundingPrints.FuturePrintIsBookedTwice` | bot/carry_engine.py:1544-1551 | Counterexample for that branch: one settlement recorded twice |
| `FundingPrints.RecordedOnce` | bot/carry_engine.py:1615-1648 | MAIN. Over every run of ticks and warm-ups whose stamps are never further ahead of a later tick than the skew limit, the watermark never falls and recorded prints strictly increase above it |
| `FundingPrints.HistoryStaysShaped` | bot/carry_engine.py:1518-1648 | No run of ticks and warm-ups, punctual or not, leaves more than eight prints or a gap over the limit between adjacent ones |
| `FundingPrints.CountedOnce` | bot/carry_engine.py:1044-1113 | At a restart each settlement the pair was held through while down is counted exactly if no tick could still record it, whichever branch the history takes; the one left, if any, is the newest; the watermark does not fall |
| `FundingPrints.MissedMeans` | bot/carry_engine.py:1044-1063 | What is counted: a dated settlement stamped after the pair opened and after the last print on the ledger, exactly if the watermark has reached it or a later such one is listed |
| `FundingPrints.CreditedIs` | bot/carry_engine.py:1072-1085 | The short receives the sum of the rates on its value: what is positive is income, what is negative a cost |
| `FundingPrints.StreakIs` | bot/carry_engine.py:1072-1085 | The streak is the number of negative rates since the last that was not, those from before the restart included where there was none |
| `FundingPrints.RestartCountsOnce` | bot/carry_engine.py:1044-1113 | MAIN. Over any punctual run after it nothing counted at the restart is recorded again, and the tick that offers the one left records it |
| `FundingPrints.FollowKeepsShapeIff` | bot/carry_engine.py:1097-1104 | The catch-up keeps the history unbroken if and only if no settlement is missing among those it appends, which it does not check |
| `FundingPrints.CatchUpBridgesAHole` | bot/carry_engine.py:1097-1104 | The input: prints at 16h, 40h and 48h after 8h end in one history with a hole |
| `FundingPrints.ReseedUnbroken` | bot/carry_engine.py:1064-1088 | A re-seeded history is unbroken and at most eight prints |
| `FundingPrints.PunctualTail` | bot/carry_engine.py:1615-1648 | Punctuality passes to the rest of the run and rules out the forgetting branch |
| `FundingPrints.FundingBook.DropDisproved` | bot/carry_engine.py:1518-1552 | The clock's verdict: a stale watermark becomes the floor, a future one clears it, and otherwise nothing moves |
| `FundingPrints.FundingBook.Record` | bot/carry_engine.py:1615-1648 | The history moves as the tick function says and every rate keeps its own stamp |
| `FundingPrints.FundingBook.OnCandle` | bot/carry_engine.py:1615-1690 | A held pair is credited exactly when the tick recorded a print stamped after it opened, on the mark of the tick, signed |
| `FundingPrints.FundingBook.Warm` | bot/carry_engine.py:1122-1174 | An empty history becomes the newest, at most eight, of the newest unbroken run; each rate the first listed for its stamp; a kept history is not touched |
| `FundingPrints.FundingBook.CatchUp` | bot/carry_engine.py:1033-1120 | The catch-up in place: history and watermark as specified, each counted settlement credited and streaked in order at the first rate listed for it, a re-seeded history at the last |
| `FundingPrints.FirstRows` | bot/carry_engine.py:1148-1160 | One rate per dated settlement, the first listed |
| `CloseProtocol.CommitAdvances` | bot/persistence.py:2720-2796 | One commit never reopens a resolved attempt, lowers a fill, forgets an execution, clears a halt or reopens a close; the one row added has a new number and link; intent times move only by a re-send |
| `CloseProtocol.AdvancesTransitive` | bot/persistence.py:2720-2796 | And so over any number of commits |
| `CloseProtocol.StillAbsent` | bot/close_executor.py:166-181 | Ids on file that had not landed are still on file and not landed whatever lands under new ids |
| `CloseProtocol.RepeatsAddNothing` | bot/close_executor.py:193-201 | Execution events already counted add nothing when delivered again |
| `CloseProtocol.MergeCounts` | bot/close_plan.py:225-245 | Fills add up to each execution's quantity exactly once; one event without an id or with a negative quantity and none count |
| `CloseProtocol.ResolvesOnce` | bot/persistence.py:2720-2796 | An attempt is resolved once: from open to any other state; again only to the same with no more filled, which changes nothing |
| `CloseProtocol.World.Place` | bot/close_executor.py:306-340 | Wire rule: every request has a durable intent, -1 to 5 seconds old, with no halt or closed flag on disk; each link once when re-sends are off |
| `CloseProtocol.CloseExecutor.Observe` | bot/close_executor.py:152-211 | Row by row what one look makes of each attempt: an order shown counts only if its fills add up and agree with it; one not shown is proven absent exactly when the longest delay of a send and the venue's window are over, and then it never landed; the rest have failed |
| `CloseProtocol.CloseExecutor.SilenceIsProof` | bot/close_executor.py:177-184 | A silent look-up later than intent + 5 s + window means the request is not among those that land |
| `CloseProtocol.CloseExecutor.Send` | bot/close_executor.py:306-340 | A request leaves exactly for a sendable intent; on a steady day a sendable one does leave |
| `CloseProtocol.CloseExecutor.Refuse` | bot/close_executor.py:342-352 | A refusal answers HALT with nothing sent, and where the disk takes it closes the attempt as never sent |
| `CloseProtocol.CloseExecutor.CommitWrites` | bot/persistence.py:2720-2796 | The commit succeeds exactly for a plan the log admits, and leaves, field by field, what the plan asks for: after a STOP its reason, or the reversed one when net long over an attempt not NEVER_SENT; after a WAIT one more wait, and one more lag exactly when lagging, after anything else none of either; after a SEND_NEW an intent with the plan's own number, link, quantity and short; after a RESEND its new time; after a NOOP_FLAT the closed flag; no other row moves but as resolved |
| `CloseProtocol.CloseExecutor.Carry` | bot/close_executor.py:255-304 | Carrying a plan out: the log holds that writing, or is as it was for an inadmissible plan or a failed write; a request leaves only after it and only for a sending plan; the answer is the one the plan calls for |
| `CloseProtocol.CloseExecutor.Once` | bot/close_executor.py:225-304 | For any planner answer and any crash point: the look is recorded in the log's own fields (`Wrote`) or nothing is written, a send only after it, at most one, none under a halt or closed flag, never for a link already on file; the answer follows the plan |
| `CloseProtocol.CloseExecutor.Step` | bot/close_executor.py:213-223 | At most one request per step, the follow-up look sends nothing, FLAT only with the closed flag on disk; every look and answer of the step is accounted for |
| `CloseProtocol.CloseExecutor.Live` | bot/close_executor.py:166-304 | MAIN. Over any steps, crashes and restarts: what some step proved absent never lands then or later, the log only advances, a halted or closed log sends nothing, and after a step that wrote a STOP no later one sends |
| `Reservations.ReserveKeeps` | bot/capital_reservations.py:330-399 | A reservation, refused or granted, keeps the event log and the table telling one story |
| `Reservations.MoveKeeps` | bot/capital_reservations.py:228-235 | A state move and its event take dollars out of the total exactly when the row stops being live |
| `Reservations.ExpiresExactly` | bot/capital_reservations.py:295-318 | The expiry of a scope takes exactly its RESERVED rows whose time is at or before the clock, whose orders can be read and are all finished, judged on the table as it was; no other row moves |
| `Reservations.ReservesIff` | bot/capital_reservations.py:330-399 | A reservation succeeds exactly for a well-formed request under a new id, on a current confirmed reading with room for it beside the buffer and what the scope still holds once its overdue rows are gone |
| `Reservations.CommitsIff` | bot/capital_reservations.py:401-432 | A commit succeeds exactly for a RESERVED row and a link, which it binds; it is answered as a repeat exactly for a row already committed to that link; otherwise nothing is written |
| `Reservations.ReleasesIff` | bot/capital_reservations.py:434-462 | A release succeeds exactly for a live row whose orders can be read and are all finished; it is answered as a repeat exactly for one already released; otherwise no row moves |
| `Reservations.StandsUntilDue` | bot/capital_reservations.py:295-328 | Over every run whose clocks read before a row's time, nothing expires it: it stays RESERVED on its terms unless committed or released |
| `Reservations.GrantStands` | bot/capital_reservations.py:330-399 | MAIN. A reservation granted at `now` for `ttl` is there through every run whose clocks stay below now + ttl |
| `Reservations.NotBeforeItsTime` | bot/capital_reservations.py:295-328 | MAIN. And under every interleaving of writers' steps, expiries without a scope included: no row expires by a clock that reads before its time |
| `Reservations.RunKeeps` | bot/capital_reservations.py:228-462 | MAIN. Over every run: RELEASED and EXPIRED are final, no id is re-used, each intent's events replay to its row, and the live total is reserved less released and expired |
| `Reservations.ReservedWithinReading` | bot/capital_reservations.py:361-399 | MAIN. A success is a new id on a fresh confirmed reading and leaves the scope's held dollars <= reading - buffer, adding exactly its own claim |
| `Reservations.ReplayClaimsNothing` | bot/capital_reservations.py:349-366 | An id ever used claims and writes nothing; it succeeds exactly for a live row on the same terms |
| `Reservations.HeldWhileUnresolved` | bot/capital_reservations.py:267-318 | No transaction, run whole, moves a live row out of the live states while an order linked by link id, intent id or cycle is not terminal |
| `Reservations.HeldThroughout` | bot/capital_reservations.py:267-462 | And so through any serial run during which some such order stays unresolved |
| `Reservations.InsertKeeps` | bot/capital_reservations.py:392-399 | A new row and its event enter log, table and live total together |
| `Reservations.TurnIsAtomic` | bot/capital_reservations.py:401-462 | However it read before its lock, a transaction that settles did exactly what it would have done alone on the database it commits to, and said so; a lock holder is never stuck |
| `Reservations.Linearizable` | bot/capital_reservations.py:237-242 | Every interleaving of writers' steps, reads before the lock included, commits what their transactions make one at a time in commit order, answers included |
| `Reservations.SettledWithinReading` | bot/capital_reservations.py:330-462 | MAIN. From rest, under every interleaving of any writers' steps whose expiries name a scope: each reservation told it succeeded left its scope, at its commit, within its own reading less the buffer; the log replays to the table; no row is lost or re-used |
| `Reservations.FirstReadIsNotEnough` | bot/capital_reservations.py:413-425 | Partner: a commit decided on the row read before the lock would report success over another writer's commit and break the event chain |
| `Reservations.ListedKeepsIff` | bot/capital_reservations.py:295-328 | An expiry that lists its rows before any lock keeps log and table in step if and only if none of those rows has moved since |
| `Reservations.ScopelessExpiryBreaks` | bot/capital_reservations.py:320-328 | The run that breaks it, on any table with a due row: an expiry without a scope lists it, a commit comes between, the expiry logs its end |
| `Reservations.ScopelessExpiryFrees` | bot/capital_reservations.py:267-328 | And the run that frees dollars in use: the expiry looks up the first row's orders, an order is sent, the row expires |
| `Reservations.HeldUnderInterleaving` | bot/capital_reservations.py:267-462 | MAIN. Under every interleaving of writers' steps whose expiries name a scope, dollars behind an order that is unresolved all along stay held |
| `Reservations.CapitalReservations.ExpireStale` | bot/capital_reservations.py:295-328 | The in-place expiry equals the specified one and returns exactly the rows of its scope that were due, readable and finished |
| `Reservations.CapitalReservations.Reserve` | bot/capital_reservations.py:330-399 | The in-place reservation equals the specified transaction |
| `Reservations.CapitalReservations.Commit` | bot/capital_reservations.py:401-432 | Only a RESERVED claim commits, once, to one link |
| `Reservations.CapitalReservations.Release` | bot/capital_reservations.py:434-462 | Refused while a linked order is unresolved; idempotent once released |
| `Reservations.CapitalReservations.LinkedOrderUnresolved` | bot/capital_reservations.py:267-293 | True exactly when a linked order is not terminal or cannot be read |
| `Reservations.CarryCapitalAuthority.Bind` | bot/carry_capital.py:119-135 | A hold with an order on file is committed to an order of its own cycle, a perp one unless the cycle has none; with none nothing changes |
| `Reservations.CarryCapitalAuthority.GiveBack` | bot/carry_capital.py:104-117 | Other writers act before the look and before every release. With a carry order in flight at the look nothing is released; otherwise every hold listed gets its turn and is released exactly if it was then live and no order might still be using it |
| `Reservations.CarryCapitalAuthority.BindAll` | bot/carry_capital.py:101-103 | Every hold with an order behind it leaves RESERVED whatever other writers do in between |
| `Reservations.CarryCapitalAuthority.Sync` | bot/carry_capital.py:86-117 | MAIN. With other writers acting between all its transactions, the tick's expiry never takes a live hold whose cycle had an order on file at its start; nothing is released while a pair is open or a carry order was seen in flight, and what is released had no unresolved order when its release was decided |
| `FundingHistory.GetFundingHistoryRange` | bot/carry_broker.py:2010-2114 | MAIN. At most 80 requests; prints ascending, in the window and plausible from any venue; no complaint from an honest venue means exactly its prints of the window; an honest plausible venue draws a complaint only by failing to answer or by holding 15,920 prints or more |
| `FundingHistory.Walk` | bot/carry_broker.py:2030-2108 | The backwards walk terminates with the whole window seen, or says why not |
| `FundingHistory.ReadRows` | bot/carry_broker.py:2059-2095 | Nothing seen is lost or changed, what is new is a usable row, and a clean page draws no complaint |
| `FundingHistory.PageCovers` | bot/carry_broker.py:2096-2108 | A page read without complaint covers the window down to its oldest row, or, if short, all of it |
| `FundingHistory.FullPageProgresses` | bot/carry_broker.py:2098-2106 | A full page brings at least 199 new stamps and reaches strictly further back |
| `SettlementLog.TxlogWindows` | bot/carry_broker.py:155-170 | Windows shorter than seven days that share their boundary millisecond and together run from start to end |
| `SettlementLog.WindowsCover` | bot/carry_broker.py:155-170 | Whether endTime is inclusive or not, the windows show every stamp one read of the whole would |
| `SettlementLog.ParsesByFields` | bot/carry_broker.py:2201-2240 | The parser uses exactly the rows of the symbol, SETTLEMENT, linear, with an id, a positive stamp inside the interval and a stated amount; it objects to exactly the other settlements of the symbol, by stamp or by silence or as unreadable |
| `SettlementLog.ReadLogPages` | bot/carry_broker.py:189-242 | At most 40 pages, no cursor followed twice, and complete only with every row of the window in hand |
| `SettlementLog.TakeRows` | bot/carry_broker.py:2151-2181 | In the rows' own fields: a payment is listed exactly if some row states it, once per id, time and amount, oldest first, repeats counted; a complaint exactly when a settlement of the symbol cannot be counted |
| `SettlementLog.GetFundingEvidence` | bot/carry_broker.py:2116-2184 | MAIN. Complete exactly when the span fits, every window was read out and no settlement of the symbol was uncountable; complete evidence from an honest venue lists a payment if and only if a row of its log states it, by symbol, kind, category, id, stamp and amount, once each |
| `Allocator.IncrementBounds` | bot/capital_allocator.py:225-228 | A line adds at most its own tail, exactly that at correlation 1, takes away at most the book's, and more correlation never adds less |
| `Allocator.RhoIsLargest` | bot/capital_allocator.py:312-313 | A line is scored at the largest correlation it has with the book or with anything picked, an unstated one counting as 1 |
| `Allocator.TailAdds` | bot/capital_allocator.py:225-228 | Taking a line makes the squared aggregate tail the sum of both squares and twice their product by the correlation, or nothing if that is negative |
| `Allocator.ScoreCompares` | bot/capital_allocator.py:314-318 | Between two lines the higher score is more value, net of the priced tail risk, per dollar bound and day |
| `Allocator.RefusedIff` | bot/capital_allocator.py:319-340 | A line is refused exactly when it does not score or one of the six caps has no room for it, and the reason given is true |
| `Allocator.TailHolds` | bot/capital_allocator.py:298-362 | The aggregate tail stays >= 0 and never exceeds the book's plus the picks' own |
| `Allocator.TotalsAgree` | bot/capital_allocator.py:343-362 | The running totals are what the picks add up to afresh, per strategy and per group too |
| `Allocator.CapsHold` | bot/capital_allocator.py:311-340 | MAIN. All six caps hold of the picks added up afresh |
| `Allocator.TakenAndLeft` | bot/capital_allocator.py:311-340 | MAIN. Each pick scored above zero when taken; each eligible line left out scores <= 0 or breaks a cap against the final state |
| `Allocator.RunWithinOffer` | bot/capital_allocator.py:298-367 | MAIN. Against the limits as offered: the picks' capital fits the free capital, the total, each strategy's and each group's cap, their losses and drawdowns theirs; what remains is the offer less what was spent; and each pick returns more than the tail risk it adds, from the book's own tail on, at the aversion offered |
| `Allocator.RunUnique` | bot/capital_allocator.py:298-362 | The lines alone determine the run |
| `Allocator.OrderDoesNotMatter` | bot/capital_allocator.py:269-289 | MAIN. For distinct ids, listing the opportunities in another order changes neither lines nor picks |
| `Allocator.Round` | bot/capital_allocator.py:300-342 | One round takes the best line no cap refuses, or judges every pending line against the final state |
| `Allocator.Select` | bot/capital_allocator.py:298-362 | The loop terminates with a greedy run to its end, every line settled by it |
| `Allocator.Validate` | bot/capital_allocator.py:269-289 | Exactly the first opportunity under each id can be a line, and only if eligible; refused for its id is exactly one without any or a second under the same |
| `Allocator.Allocate` | bot/capital_allocator.py:231-367 | Invalid limits allocate nothing; otherwise the plan keeps every limit offered, the totals are the run's, and an ineligible opportunity gets nothing |
| `EntryGate.EwmaFundingBps` | bot/carry_costs.py:217-232 | The loop computes the smoothed rate, or nothing below the minimum of usable prints |
| `EntryGate.EwmaMoves` | bot/carry_costs.py:217-232 | A new print moves the smoothed rate alpha of the way to itself; the first is taken as it is |
| `EntryGate.SmoothingRisesIff` | bot/carry_costs.py:229-232 | Smoothing is monotone in the prints exactly when the weight is a proportion |
| `EntryGate.SettlementsAreLeast` | bot/carry_costs.py:420-487 | The settlements answered are the least that break even; none exactly when no number does |
| `EntryGate.GateIsClears` | bot/carry_costs.py:271-411 | The chain of refusals is one condition on the smoothed rate: positive net edge, basis within it, and a demonstrated hold that breaks even |
| `EntryGate.GateIsPays` | bot/carry_costs.py:271-411 | MAIN. In dollars of the deal: an entry is allowed exactly when there are prints enough, the funding of a hold covers its borrow and the round trip, the perp is no further from the spot than that surplus allows, and the settlements the costs need fall inside the demonstrated hold |
| `EntryGate.RefusalIsTrue` | bot/carry_costs.py:271-411 | A refusal names something that is wrong, and the first thing in the order checked |
| `EntryGate.GateRefines` | bot/carry_costs.py:764-787 | The gate allows only what evaluate_entry allows and returns its refusals unchanged |
| `EntryGate.GateIsMonotone` | bot/carry_costs.py:685-722 | MAIN. An entry allowed stays allowed when every print rises |
| `EntryGate.PassesIsClears` | bot/carry_costs.py:741-747 | A steady rate is judged at exactly that rate, whatever the smoothing |
| `EntryGate.Bisect` | bot/carry_costs.py:749-761 | Forty halvings of an upward-closed test end within ceiling / 2^40 of its threshold |
| `EntryGate.BreakevenFundingBps` | bot/carry_costs.py:725-761 | MAIN. The answer passes and nothing lower by ceiling / 2^40 does; no answer means no rate up to the ceiling passes |
| `PerpAccounting.TradeWorth` | bot/backtest.py:1161-1206 | Opening, averaging, reducing, closing and flipping change the worth only by what the fill gains and the funding it settles |
| `PerpAccounting.CloseConserves` | bot/backtest.py:1239-1282 | A stop, target or liquidation with its fee and forfeit conserves |
| `PerpAccounting.ResolveBarConserves` | bot/backtest.py:1448-1540 | A whole bar conserves |
| `PerpAccounting.ActConserves` | bot/backtest.py:329-339 | Every action but draining the fill log conserves |
| `PerpAccounting.EquityIdentity` | bot/backtest.py:1079-1098 | MAIN. Over every run of any actions, at any marks: the worth moves by the gains of all fills made, less fees and funding paid; funding paid is the sum of the funding log |
| `PerpAccounting.EquityFromStart` | bot/backtest.py:1079-1098 | MAIN. From the start: equity = starting cash - fees - funding + gains of all fills |
| `PerpAccounting.EquityIsWorth` | bot/backtest.py:1079-1084 | The simulator's equity is that worth at the current closes |
| `PerpAccounting.ChargeConserves` | bot/backtest.py:1327-1341 | A settlement moves cash and funding paid by the same logged amount |
| `PerpAccounting.GainIsMove` | bot/backtest.py:703-709 | A long gains what the price has risen on its quantity, a short what it has fallen |
| `PerpFills.TakerPays` | bot/backtest.py:895-910 | A taker pays half the spread and the slippage: above the mark to buy, as far below it to sell |
| `PerpFills.ExitIs` | bot/backtest.py:1239-1282 | An exit's price, fee and forfeit by its purpose, and the cash they leave: a stop less what a taker pays, a target less half the spread, a liquidation at its price with the maintenance margin forfeited |
| `PerpFills.BarTakesOut` | bot/backtest.py:1464-1499 | MAIN. What a bar does to a position: out at its stop when that is reached and comes before the liquidation price, at the open where the bar opens past it; liquidated when that comes first; at its target only where neither is reached; otherwise it stays, noted unprotected without a verified stop |
| `PerpFills.RestsUntilReached` | bot/backtest.py:341-352 | A resting order fills in a bar exactly when the bar trades at its price, or past it where a touch is not a fill |
| `PerpFills.OrphansGo` | bot/backtest.py:1520-1529 | Reduce-only orders still resting go with the position; nothing else does, and nothing while there is one |
| `PerpFills.BarSettlesOrders` | bot/backtest.py:1500-1529 | MAIN. A bar and every order at once: what waits in its symbol and is traded at waits no longer, unless the bar's volume runs out or it may only reduce; what is not traded at stays as it was; without a position nothing that may only reduce waits; no other symbol's order moves |
| `PerpFills.CancelTakes` | bot/backtest.py:586-596 | A cancel takes the open orders under its link, and nothing else |
| `PerpFills.FillsWhatItCan` | bot/backtest.py:1121-1160 | An order is filled for the least of what it asks and what the bar has left, at the taker's or its own price and fee; with nothing left a market order at a close is cut and another waits |
| `PerpFills.FillJoins` | bot/backtest.py:1207-1231 | A fill joins the order's account: quantities add up at the average price, fees add up, and it is filled exactly when nothing is left |
| `PerpFills.FillCounts` | bot/backtest.py:1207-1231 | And the account's: the fee is paid from cash, the bar has that much less to give, the fill is on file |
| `PerpFills.RefusedIff` | bot/backtest.py:1161-1180 | A trade that opens or adds is refused exactly when its margin and fee exceed the equity not bound; one against the position never is |
| `PerpFills.TradeLeaves` | bot/backtest.py:1161-1206 | What a trade leaves: a new position; one larger at the average entry; one smaller at its own; nothing; or, of more than there was, the rest on the other side. No other position moves |
| `PerpFills.ReadBackVerifies` | bot/backtest.py:1594-1604 | Reading a position back verifies the stop it has, of no other position and of none without a stop |
| `PerpFills.StepsOn` | bot/backtest.py:329-339 | A step goes to the next bar of the first symbol until there is none |
| `FundingClock.BarOwns` | bot/backtest.py:1343-1356 | A bar owns exactly the settlements from the end of the bar before (or its own start, if earlier) to its own end |
| `FundingClock.OwedGrows` | bot/backtest.py:1343-1356 | Consecutive bars' settlements tile time, holes and overlaps included |
| `FundingClock.BarHeld` | bot/backtest.py:1378-1423 | A bar through which the position is unchanged charges exactly the held bar's settlements |
| `FundingClock.BarElsewhere` | bot/backtest.py:1448-1462 | Another symbol's bar touches neither the position nor its charges |
| `FundingClock.BarTiles` | bot/backtest.py:1378-1423 | One more bar charges exactly what it adds to the debt, once each and on the size due |
| `FundingClock.ActStands` | bot/backtest.py:1121-1231 | Nothing a caller does between two bars charges a settlement except to what leaves on an order |
| `FundingClock.ClockTiles` | bot/backtest.py:1327-1423 | MAIN. Over any run of any actions that leaves the position's side, size and late adds as they are, from any state in which exactly what is owed by its bar was charged once each, the same is true at the end; owed are all stamps from the end of bar k on but one stamped as bar k + 1 starts; and each stamp that came to be owed was charged on the size held less what was added after it |
| `FundingClock.ClockFromOpening` | bot/backtest.py:1327-1423 | A position held from its opening bar on is charged each settlement owed exactly once and no other |
| `FundingBoundary.BoundaryCharges` | bot/backtest.py:1181-1206 | MAIN. Over anything done at a close, the sizes in the log after the next step for the boundary settlement sum to the larger of what was held and what was taken off the position, read from the position alone: exactly what was held if and only if no more than that was taken off |
| `FundingBoundary.OpenCharges` | bot/backtest.py:1378-1396 | A bar's resolution charges the stamp it starts with once, on the held size less what was added after it, and not at all to a position opened at that close |
| `FundingBoundary.LeavingExact` | bot/backtest.py:1181-1206 | What is charged on the way out at a close is what left the position, and the next open is left with the rest of what was held |
| `FundingBoundary.BoundaryUnfunded` | bot/backtest.py:1343-1356 | Where bars do not overlap and the clock has kept its promise, the boundary stamp has not been charged yet |
| `FundingBoundary.AddingThenLeavingOverCharges` | bot/backtest.py:1186-1206 | The failing family: add any amount at a close and then close all of it, and the boundary settlement is charged on the sum |
| `FundingBoundary.OverChargeHappens` | bot/backtest.py:1186-1206 | A run of that family exists: one held, one added, two sold are charged as two |
| `FundingBoundary.RunTags` | bot/backtest.py:1186-1195 | No run charges an exit to an order not on file, so the boundary law holds of every reachable state |
| `FundingHold.CloseLeaves` | bot/backtest.py:1181-1206 | What a close charges for a stamp and what is still to be charged make up what was held, at the stamp the next bar starts with; at any other stamp a close charges nothing |
| `FundingHold.DayCharges` | bot/backtest.py:1327-1423 | A close and the bar after it charge each stamp that comes to be owed on the size held at it, and no other |
| `FundingHold.OwedOnce` | bot/backtest.py:1343-1356 | A stamp comes to be owed on one day only |
| `FundingHold.HoldCharges` | bot/backtest.py:1181-1423 | MAIN. Over any run, with closes that add and remove in any order as long as some of what was held stays, each settlement that comes to be owed is charged, exits and clock together, on exactly the size held at its stamp, and none other at all |
| `FundingHold.HoldHappens` | bot/backtest.py:1181-1423 | Such a hold happens: one held, one bought and a half sold at the close; the settlement is charged on one |
| `FundingPaid.SettledRateIs` | bot/backtest.py:1302-1325 | The rate charged is that of the last print stamped no later than sixty seconds after the settlement, by quantifier over the prints, and the flat rate where there is none |
| `FundingPaid.RunRows` | bot/backtest.py:1327-1423 | MAIN. Over every run of any actions each row added to the funding log charges a position of that moment, by its own fields: the side, that rate, the size held, and as mark the bar's open at the open, the larger or smaller of open and close inside it, the close on the way out; a long pays what a short receives; the money moves by exactly those rows, and settlements without a print are counted |
| `FundingPaid.DayPays` | bot/backtest.py:1327-1423 | A close and the bar after it pay each stamp that comes to be owed in dollars: what left at the close, the rest at the bar's mark |
| `FundingPaid.HoldPays` | bot/backtest.py:1181-1423 | MAIN. Over a hold each settlement that comes to be owed costs the settled rate times the size held at its stamp, split between the marks it was charged at, paid by a long and received by a short; no other stamp costs anything |
| `FundingPaid.HoldPaysInAll` | bot/backtest.py:1079-1423 | MAIN. The dollars of a hold: funding paid moves by the sum of those over all stamps owed and by what other positions paid, and the worth by as much less |
| `Liquidation.LiquidationExact` | bot/backtest.py:1100-1117 | MAIN. A bar reaches the liquidation price exactly when equity at its adverse extreme is <= maintenance, if and only if long or cash + size x entry > 0 |
| `Liquidation.StopRulesOut` | bot/backtest.py:1475-1499 | A position is safe from liquidation in every possible bar exactly when its stop is on the safe side |
| `Liquidation.LiquidationLeaves` | bot/backtest.py:1239-1273 | A liquidation leaves cash at -taker x size x price with forfeiture, (mmr - taker) x size x price without |
| `Liquidation.Solved` | bot/backtest.py:1100-1117 | The solved mark separates solvent from insolvent marks and maintenance stands exactly on it |
| `PerpSimulator.LinearSimulatedExchange.ChargeSettlement` | bot/backtest.py:1327-1341 | The charge in place: once per key, never for no size; its dollars are `FundingPaid.RunRows` |
| `PerpSimulator.LinearSimulatedExchange.FundAtOpen` | bot/backtest.py:1378-1396 | The walk before the bar's prices |
| `PerpSimulator.LinearSimulatedExchange.FundInside` | bot/backtest.py:1398-1423 | The walk after them, unfavourable order per sign |
| `PerpSimulator.LinearSimulatedExchange.Execute` | bot/backtest.py:1121-1231 | The execution in place equals the specified one |
| `PerpSimulator.LinearSimulatedExchange.CloseAt` | bot/backtest.py:1239-1282 | The exit in place equals the specified one |
| `PerpSimulator.LinearSimulatedExchange.ResolvePrices` | bot/backtest.py:1464-1529 | Exits, resting orders and orphaned legs in place, as specified |
| `PerpSimulator.LinearSimulatedExchange.ResolveBar` | bot/backtest.py:1441-1462 | A bar in place, as specified |
| `PerpSimulator.LinearSimulatedExchange.Step` | bot/backtest.py:329-339 | The next bar for every symbol, False when the data is exhausted |
| `PerpSimulator.LinearSimulatedExchange.Create` | bot/backtest.py:608-648 | A link on file or an unknown symbol changes nothing; otherwise exactly one order joins, the others stay as they were, and a limit rests, a conditional waits, a market order is settled at once |
| `PerpSimulator.MarketSettles` | bot/backtest.py:1121-1231 | A market order at a close is filled, cut or refused there and then, and no other order is touched |
| `PerpSimulator.LinearSimulatedExchange.SetTradingStop` | bot/backtest.py:1605-1619 | Without a position nothing changes; while writes are made to fail only their count moves; otherwise the stop and target written are the position's, a written stop is unverified, and nothing else of any position moves |
| `PerpSimulator.StopMustBeRead` | bot/backtest.py:1464-1480 | A bar that finds a written stop not yet read back notes the position unprotected; one read back it does not |
| `PerpSimulator.LinearSimulatedExchange.PerformAll` | bot/backtest.py:329-339 | Any sequence of actions takes the object where the specified run goes, and at any marks its worth moves by its fills' gains less fees and funding, the funding being the sum of its log |
| `PerpSimulator.LinearSimulatedExchange.ToState` | bot/backtest.py:989-1029 | The saved lists stand for exactly the state they were written from |
| `PerpSimulator.LinearSimulatedExchange.FromState` | bot/backtest.py:1031-1077 | Refused exactly for another schema or other data; otherwise the same state |
| `PerpSimulator.LinearSimulatedExchange.RunInTwo` | bot/backtest.py:989-1077 | MAIN. A run stopped anywhere, saved and resumed in a new object ends where the unbroken run would |

## Left out

- Reservations.SettledWithinReading: every expiry names a scope (`ScopelessExpiryBreaks` is what happens otherwise); that a second writer waits while the store's write lock is held is the database's own promise, modelled as a step that does nothing.
- CarryBook.World.PlaceMarket: order lifecycle recording, link-id reuse and retries inside the broker are an arbitrary answer; the create response carries no fill of its own.
- CarryBook.CarryEngine.OpenAcquire: begins at the sized quantity; the gates before sizing, margin and leverage checks, capital reservations and decision records are not modelled.
- CarryBook.World.StepClose: which orders a step of the close sends is the business of CloseProtocol; here its flat answer is taken to rest on a venue read of no short, which is what the planner decides it on.
- CarryBook.CarryEngine.Restart: a restart that resumes a pair while a spot order of unknown fate is still out is not followed further; `Live` restarts once that order has landed or died. What the missed-settlement catch-up counts is `FundingBook.CatchUp`; here only its ledger write appears.
- CarryBook.Live: the one-lot bound on unsold coin is per cycle, measured from what the wallet held when the cycle began; dust of earlier cycles may add up.
- CarryBook.CarryEngine.HeldTick: what the margin, liquidation and collateral gates compute is an arbitrary answer (ample, thin, unreadable); the booking of the print itself is FundingPrints.
- MakerFirst.Executor.RestThenTake: the price and offset chosen for the resting order and the polling interval are left to the venue's freedom; the booked leg is promised only where duplicates are shown (`PostVerdictIff` says why).
- FundingPrints.RecordedOnce: within one process (`RestartCountsOnce` joins it to the next); a warm-up in the run is safe when a book without prints starts without a watermark (`WarmSoundIff` gives the exact condition of one warm-up).
- CloseProtocol.CloseExecutor.Once: one cycle; the planner is an arbitrary oracle, so what close_plan itself decides is not part of this model, and neither are the explained, unbooked and last-short fields of the result.
- Reservations.ReservedWithinReading: amounts and terms are compared exactly, not to within 1e-9.
- FundingHistory.GetFundingHistoryRange: the gap analysis that follows a complete read is not modelled; when the venue's endTime is exclusive a print stamped exactly at the end is not the venue's to return.
- SettlementLog.GetFundingEvidence: the sign check, size, currency and change fields carried on a payment, and the counters of unused rows.
- Allocator.Allocate: reasons are verdicts, not lists of text; results are a map by id instead of a sorted tuple, so their order is not stated.
- Allocator.TailHolds: the library's square root is any function with its defining property.
- EntryGate.BreakevenFundingBps: overflow refusals and rounding to 9 or 12 places are absent over exact reals.
- PerpSimulator.LinearSimulatedExchange.Execute: the fee coin and raw order rows; the single-coin balance is the cash itself.
- PerpAccounting.EquityIdentity: holds whatever the sign of fees and prices; whether a fill is realistic is not its concern.
- FundingHold.HoldCharges: a close that takes off all of what was held ends the hold (BoundaryCharges covers it), and a resting order that changes the size inside a bar is outside the claim; bars do not overlap.
- FundingBoundary.BoundaryCharges: the boundary stamp must not have been charged already, which happens when a bar overlaps the next (`BoundaryUnfunded` says when it has not).
- PerpSimulator.LinearSimulatedExchange.FromState: the SHA-256 of the data is a parameter; equal digests stand for equal data.
- Spot simulator, strategy replay, reports, walk-forward and Monte Carlo: drive unseen modules or are statistical.
- HTTP, signing, JSON, WebSocket and venue selection: represented by the venues' contracts.
- Collateral, margin-mode and leverage parsing, capital_survival, carry_risk and carry_evidence: long single-branch validation, easy members.
