/**
 The capital allocator (`allocate`, `incremental_tail_risk`): a greedy loop that re-scores every pending line against
 the aggregate tail risk, takes the best line no cap refuses, and stops when none is left.
 */
module Allocator {
  import opened Basics
  import opened Ordering

  /** A validated opportunity. Correlations with lines not listed in `others` count as 1. */
  datatype Line = Line(strategy: int, group: int, net: real, capital: real, loss: real, drawdown: real, tail: real,
                       days: real, book: real, others: map<int, real>)

  datatype Limits = Limits(free: real, maxTotal: real, perStrategy: map<int, real>, maxLoss: real, maxDrawdown: real,
                           maxGroup: real, bookTail: real)

  /** What a plan is priced with: its limits, the risk aversion, and the square root of the source's numeric library. */
  datatype Terms = Terms(limits: Limits, aversion: real, sqrt: real -> real)

  ghost predicate IsRoot(sqrt: real -> real)
  {
    forall x :: x >= 0.0 ==> sqrt(x) >= 0.0 && sqrt(x) * sqrt(x) == x
  }

  /** The running totals of the loop. */
  datatype Plan = Plan(free: real, total: real, loss: real, drawdown: real, byStrategy: map<int, real>,
                       byGroup: map<int, real>, tail: real, selected: seq<int>)

  datatype Reason = NO_RISK_ADJUSTED_VALUE | FREE_CAPITAL_EXHAUSTED | TOTAL_CAP | STRATEGY_CAP | TOTAL_LOSS_CAP
                  | DRAWDOWN_CAP | CONCENTRATION_CAP

  function Of(m: map<int, real>, key: int): real { if key in m then m[key] else 0.0 }

  // ---------------------------------------------------------------- validity

  datatype Inputs = Inputs(net: Option<real>, capital: Option<real>, financing: Option<real>, margin: Option<real>,
                           liquidity: Option<real>, executionCost: Option<real>, capacity: Option<real>,
                           book: Option<real>, others: map<int, Option<real>>, loss: Option<real>,
                           drawdown: Option<real>,
                           tail: Option<real>, days: Option<real>)

  /** An input that is absent, unsourced or not a number is `None`; so is a blank id or group. */
  datatype Opportunity = Opportunity(id: Option<int>, strategy: int, group: Option<int>, inputs: Inputs)

  predicate Correlation(c: Option<real>) { c.Some? && -1.0 <= c.value <= 1.0 }

  /** `_validate` finds nothing to object to. */
  predicate Valid(op: Opportunity)
  {
    var v := op.inputs;
    && v.net.Some? && v.capital.Some? && v.financing.Some? && v.margin.Some? && v.liquidity.Some?
    && v.executionCost.Some?
    && v.capacity.Some? && v.loss.Some? && v.drawdown.Some? && v.tail.Some? && v.days.Some? && op.group.Some?
    && Correlation(v.book) && (forall k :: k in v.others ==> Correlation(v.others[k]))
    && v.capital.value > 0.0 && v.days.value > 0.0 && v.loss.value > 0.0
    && v.margin.value >= 0.0 && v.liquidity.value >= 0.0 && v.executionCost.value >= 0.0 && v.capacity.value >= 0.0
    && v.tail.value >= 0.0 && v.drawdown.value >= 0.0
    && v.margin.value <= v.capital.value <= v.capacity.value && v.capital.value <= v.liquidity.value
    && v.net.value > 0.0
  }

  function LineOf(op: Opportunity): Line
    requires Valid(op)
  {
    var v := op.inputs;
    Line(op.strategy, op.group.value, v.net.value, v.capital.value, v.loss.value, v.drawdown.value, v.tail.value,
         v.days.value, v.book.value, map k | k in v.others :: v.others[k].value)
  }

  predicate Fit(l: Line)
  {
    && l.capital > 0.0 && l.days > 0.0 && l.loss > 0.0 && l.drawdown >= 0.0 && l.tail >= 0.0 && -1.0 <= l.book <= 1.0
    && forall k :: k in l.others ==> -1.0 <= l.others[k] <= 1.0
  }

  // ---------------------------------------------------------------- scores

  /** The largest correlation of a line with the book and with what is already selected. */
  function Rho(l: Line, selected: seq<int>): real
  {
    if selected == [] then l.book
    else
      var s := selected[|selected| - 1];
      Max(Rho(l, selected[..|selected| - 1]), if s in l.others then l.others[s] else 1.0)
  }

  function Inside(book: real, tail: real, rho: real): real { book * book + tail * tail + 2.0 * rho * book * tail }

  function IncrementalTailRisk(book: real, tail: real, rho: real, sqrt: real -> real): real
  {
    sqrt(Max(0.0, Inside(book, tail, rho))) - book
  }

  function Increment(p: Plan, l: Line, t: Terms): real
  {
    IncrementalTailRisk(p.tail, l.tail, Rho(l, p.selected), t.sqrt)
  }

  function Score(p: Plan, l: Line, t: Terms): real
    requires Fit(l)
  {
    Positive(l.capital, l.days);
    (l.net - t.aversion * Increment(p, l, t)) / (l.capital * l.days)
  }

  lemma Positive(x: real, y: real)
    requires x > 0.0 && y > 0.0
    ensures x * y > 0.0
  {
  }

  /** Why a line is refused now; the caps in the order the loop tries them. */
  function Why(p: Plan, l: Line, t: Terms): Option<Reason>
    requires Fit(l) && l.strategy in t.limits.perStrategy
  {
    if Score(p, l, t) <= 0.0 then Some(NO_RISK_ADJUSTED_VALUE)
    else if l.capital > p.free then Some(FREE_CAPITAL_EXHAUSTED)
    else if p.total + l.capital > t.limits.maxTotal then Some(TOTAL_CAP)
    else if Of(p.byStrategy, l.strategy) + l.capital > t.limits.perStrategy[l.strategy] then Some(STRATEGY_CAP)
    else if p.loss + l.loss > t.limits.maxLoss then Some(TOTAL_LOSS_CAP)
    else if p.drawdown + l.drawdown > t.limits.maxDrawdown then Some(DRAWDOWN_CAP)
    else if Of(p.byGroup, l.group) + l.capital > t.limits.maxGroup then Some(CONCENTRATION_CAP)
    else None
  }

  function Start(t: Terms): Plan { Plan(t.limits.free, 0.0, 0.0, 0.0, map[], map[], t.limits.bookTail, []) }

  function Take(p: Plan, id: int, l: Line, t: Terms): Plan
  {
    Plan(p.free - l.capital, p.total + l.capital, p.loss + l.loss, p.drawdown + l.drawdown,
         p.byStrategy[l.strategy := Of(p.byStrategy, l.strategy) + l.capital],
         p.byGroup[l.group := Of(p.byGroup, l.group) + l.capital],
         p.tail + Increment(p, l, t), p.selected + [id])
  }

  // ---------------------------------------------------------------- what a greedy run is

  ghost predicate Priced(lines: map<int, Line>, t: Terms)
  {
    forall id :: id in lines ==> Fit(lines[id]) && lines[id].strategy in t.limits.perStrategy
  }

  function Before(picks: seq<int>): seq<int> requires picks != [] { picks[..|picks| - 1] }

  function Last(picks: seq<int>): int requires picks != [] { picks[|picks| - 1] }

  function Pending(lines: map<int, Line>, picks: seq<int>): map<int, Line>
    decreases |picks|
  {
    if picks == [] then lines else Pending(lines, Before(picks)) - {Last(picks)}
  }

  function After(lines: map<int, Line>, picks: seq<int>, t: Terms): Plan
    decreases |picks|
  {
    if picks == [] then Start(t)
    else if Last(picks) in lines then Take(After(lines, Before(picks), t), Last(picks), lines[Last(picks)], t)
    else After(lines, Before(picks), t)
  }

  /** Scores first, ids to break ties: what sorting on (-score, id) puts earlier. */
  predicate Ahead(p: Plan, t: Terms, id: int, l: Line, id': int, l': Line)
    requires Fit(l) && Fit(l')
  {
    Score(p, l, t) > Score(p, l', t) || (Score(p, l, t) == Score(p, l', t) && id <= id')
  }

  /** The line to take next: no cap refuses it, and no line that none refuses is ahead of it. */
  ghost predicate IsPick(pending: map<int, Line>, p: Plan, t: Terms, id: int)
    requires Priced(pending, t)
  {
    && id in pending && Why(p, pending[id], t).None?
    && forall other :: other in pending && Why(p, pending[other], t).None? && other != id ==>
                         Score(p, pending[id], t) > Score(p, pending[other], t)
                         || (Score(p, pending[id], t) == Score(p, pending[other], t) && id < other)
  }

  ghost predicate Stuck(pending: map<int, Line>, p: Plan, t: Terms)
    requires Priced(pending, t)
  {
    forall id :: id in pending ==> Why(p, pending[id], t).Some?
  }

  lemma {:induction false} PendingPriced(lines: map<int, Line>, picks: seq<int>, t: Terms)
    requires Priced(lines, t)
    ensures Priced(Pending(lines, picks), t)
    ensures forall id :: id in Pending(lines, picks) <==> id in lines && id !in picks
    ensures forall id :: id in Pending(lines, picks) ==> Pending(lines, picks)[id] == lines[id]
    decreases |picks|
  {
    if picks != [] {
      PendingPriced(lines, Before(picks), t);
      assert picks == Before(picks) + [Last(picks)];
    }
  }

  /** Every pick was the right one when it was made. */
  ghost predicate Greedy(lines: map<int, Line>, picks: seq<int>, t: Terms)
    requires Priced(lines, t)
    decreases |picks|
  {
    picks != [] ==>
      && Greedy(lines, Before(picks), t)
      && (PendingPriced(lines, Before(picks), t);
          IsPick(Pending(lines, Before(picks)), After(lines, Before(picks), t), t, Last(picks)))
  }

  /** A whole run: greedy picks until no pending line would be taken. */
  ghost predicate IsRun(lines: map<int, Line>, picks: seq<int>, t: Terms)
    requires Priced(lines, t)
  {
    Greedy(lines, picks, t) && (PendingPriced(lines, picks, t); Stuck(Pending(lines, picks), After(lines, picks, t), t))
  }

  // ---------------------------------------------------------------- one answer

  lemma {:induction false} GreedyPrefix(lines: map<int, Line>, picks: seq<int>, k: nat, t: Terms)
    requires Priced(lines, t) && Greedy(lines, picks, t) && k <= |picks|
    ensures Greedy(lines, picks[..k], t)
    decreases |picks|
  {
    if k < |picks| {
      GreedyPrefix(lines, Before(picks), k, t);
      assert Before(picks)[..k] == picks[..k];
    } else {
      assert picks[..k] == picks;
    }
  }

  /** Each pick, seen from the picks before it. */
  ghost predicate PickedAt(lines: map<int, Line>, before: seq<int>, id: int, t: Terms)
    requires Priced(lines, t)
  {
    PendingPriced(lines, before, t);
    IsPick(Pending(lines, before), After(lines, before, t), t, id)
  }

  lemma PickAt(lines: map<int, Line>, picks: seq<int>, k: nat, t: Terms)
    requires Priced(lines, t) && Greedy(lines, picks, t) && k < |picks|
    ensures PickedAt(lines, picks[..k], picks[k], t)
  {
    GreedyPrefix(lines, picks, k + 1, t);
    assert Before(picks[..k + 1]) == picks[..k];
  }

  lemma PickUnique(lines: map<int, Line>, before: seq<int>, a: int, b: int, t: Terms)
    requires Priced(lines, t) && PickedAt(lines, before, a, t) && PickedAt(lines, before, b, t)
    ensures a == b
  {
    PendingPriced(lines, before, t);
  }

  /** The two runs make the same first `k` picks. */
  lemma {:induction false} SamePicks(lines: map<int, Line>, a: seq<int>, b: seq<int>, k: nat, t: Terms)
    requires Priced(lines, t) && Greedy(lines, a, t) && Greedy(lines, b, t) && k <= |a| && k <= |b|
    ensures a[..k] == b[..k]
    decreases k
  {
    hide Greedy, After, Pending, PickedAt, Priced;
    if k > 0 {
      SamePicks(lines, a, b, k - 1, t);
      PickAt(lines, a, k - 1, t);
      PickAt(lines, b, k - 1, t);
      PickUnique(lines, a[..k - 1], a[k - 1], b[k - 1], t);
      assert a[..k] == a[..k - 1] + [a[k - 1]] && b[..k] == b[..k - 1] + [b[k - 1]];
    }
  }

  lemma NothingAfterStuck(lines: map<int, Line>, before: seq<int>, id: int, t: Terms)
    requires Priced(lines, t) && IsRun(lines, before, t)
    ensures !PickedAt(lines, before, id, t)
  {
    PendingPriced(lines, before, t);
  }

  lemma NoLonger(lines: map<int, Line>, a: seq<int>, b: seq<int>, t: Terms)
    requires Priced(lines, t) && IsRun(lines, a, t) && Greedy(lines, b, t) && |a| <= |b|
    ensures a == b
  {
    SamePicks(lines, a, b, |a|, t);
    assert a[..|a|] == a;
    if |a| < |b| {
      NothingAfterStuck(lines, a, b[|a|], t);
      PickAt(lines, b, |a|, t);
    } else {
      assert b[..|a|] == b;
    }
  }

  /** The lines alone decide the run: whatever order they were listed in, the picks are the same. */
  lemma RunUnique(lines: map<int, Line>, a: seq<int>, b: seq<int>, t: Terms)
    requires Priced(lines, t) && IsRun(lines, a, t) && IsRun(lines, b, t)
    ensures a == b
  {
    if |a| <= |b| { NoLonger(lines, a, b, t); } else { NoLonger(lines, b, a, t); }
  }

  // ---------------------------------------------------------------- caps

  datatype Scope = Everything | Strategy(id: int) | Group(id: int)

  predicate In(l: Line, scope: Scope)
  {
    match scope
    case Everything => true
    case Strategy(id) => l.strategy == id
    case Group(id) => l.group == id
  }

  /** The capital, loss and drawdown of the picks, added up afresh. */
  function Capital(lines: map<int, Line>, picks: seq<int>, scope: Scope): real
    requires forall i :: 0 <= i < |picks| ==> picks[i] in lines
    decreases |picks|
  {
    if picks == [] then 0.0
    else Capital(lines, Before(picks), scope) + if In(lines[Last(picks)], scope) then lines[Last(picks)].capital
         else 0.0
  }

  function Losses(lines: map<int, Line>, picks: seq<int>): real
    requires forall i :: 0 <= i < |picks| ==> picks[i] in lines
    decreases |picks|
  {
    if picks == [] then 0.0 else Losses(lines, Before(picks)) + lines[Last(picks)].loss
  }

  function Drawdowns(lines: map<int, Line>, picks: seq<int>): real
    requires forall i :: 0 <= i < |picks| ==> picks[i] in lines
    decreases |picks|
  {
    if picks == [] then 0.0 else Drawdowns(lines, Before(picks)) + lines[Last(picks)].drawdown
  }

  function Tails(lines: map<int, Line>, picks: seq<int>): real
    requires forall i :: 0 <= i < |picks| ==> picks[i] in lines
    decreases |picks|
  {
    if picks == [] then 0.0 else Tails(lines, Before(picks)) + lines[Last(picks)].tail
  }

  predicate Sane(limits: Limits)
  {
    limits.maxTotal >= 0.0 && limits.maxLoss >= 0.0 && limits.maxDrawdown >= 0.0 && limits.maxGroup >= 0.0
    && limits.bookTail >= 0.0
  }

  lemma {:induction false} PicksAreLines(lines: map<int, Line>, picks: seq<int>, t: Terms)
    requires Priced(lines, t) && Greedy(lines, picks, t)
    ensures forall i :: 0 <= i < |picks| ==> picks[i] in lines
    ensures forall i, j :: 0 <= i < j < |picks| ==> picks[i] != picks[j]
    decreases |picks|
  {
    hide Why, Score, Increment;
    if picks != [] {
      PicksAreLines(lines, Before(picks), t);
      PendingPriced(lines, Before(picks), t);
      assert forall i :: 0 <= i < |picks| - 1 ==> picks[i] == Before(picks)[i] && picks[i] in Before(picks);
    }
  }

  /** The running totals are what the picks add up to afresh. */
  lemma {:induction false} TotalsAgree(lines: map<int, Line>, picks: seq<int>, t: Terms)
    requires forall i :: 0 <= i < |picks| ==> picks[i] in lines
    ensures var p := After(lines, picks, t);
            && p.total == Capital(lines, picks, Everything) == t.limits.free - p.free
            && (forall s :: Of(p.byStrategy, s) == Capital(lines, picks, Strategy(s)))
            && (forall g :: Of(p.byGroup, g) == Capital(lines, picks, Group(g)))
            && p.loss == Losses(lines, picks) && p.drawdown == Drawdowns(lines, picks)
    decreases |picks|
  {
    hide Increment;
    if picks != [] {
      assert forall i :: 0 <= i < |Before(picks)| ==> Before(picks)[i] == picks[i];
      TotalsAgree(lines, Before(picks), t);
    }
  }

  /** All six caps hold of what was taken, added up afresh from the lines and not from the running totals. */
  lemma {:induction false} CapsHold(lines: map<int, Line>, picks: seq<int>, t: Terms)
    requires Priced(lines, t) && Greedy(lines, picks, t) && Sane(t.limits)
    requires forall i :: 0 <= i < |picks| ==> picks[i] in lines
    ensures picks != [] ==> Capital(lines, picks, Everything) <= t.limits.free
    ensures Capital(lines, picks, Everything) <= t.limits.maxTotal
    ensures forall s :: 0.0 < Capital(lines, picks, Strategy(s)) ==>
                          s in t.limits.perStrategy && Capital(lines, picks, Strategy(s)) <= t.limits.perStrategy[s]
    ensures Losses(lines, picks) <= t.limits.maxLoss && Drawdowns(lines, picks) <= t.limits.maxDrawdown
    ensures forall g :: Capital(lines, picks, Group(g)) <= t.limits.maxGroup
    decreases |picks|
  {
    hide Score, Increment, After;
    if picks != [] {
      assert forall i :: 0 <= i < |Before(picks)| ==> Before(picks)[i] == picks[i];
      CapsHold(lines, Before(picks), t);
      TotalsAgree(lines, Before(picks), t);
      PendingPriced(lines, Before(picks), t);
      assert Why(After(lines, Before(picks), t), lines[Last(picks)], t).None?;
    }
  }

  // ---------------------------------------------------------------- tail risk

  lemma SquaresOrder(a: real, b: real)
    requires a >= 0.0 && b >= 0.0 && a * a <= b * b
    ensures a <= b
  {
    if a > b {
      assert a * a - b * b == (a - b) * (a + b);
      Positive(a - b, a + b);
    }
  }

  lemma RootOrder(sqrt: real -> real, x: real, y: real)
    requires IsRoot(sqrt) && 0.0 <= x <= y
    ensures 0.0 <= sqrt(x) <= sqrt(y)
  {
    SquaresOrder(sqrt(x), sqrt(y));
  }

  lemma RootOfSquare(sqrt: real -> real, x: real)
    requires IsRoot(sqrt) && x >= 0.0
    ensures sqrt(x * x) == x
  {
    assert x * x >= 0.0;
    SquaresOrder(sqrt(x * x), x);
    SquaresOrder(x, sqrt(x * x));
  }

  lemma InsideGrows(book: real, tail: real, rho: real, rho': real)
    requires book >= 0.0 && tail >= 0.0 && rho <= rho'
    ensures Inside(book, tail, rho) <= Inside(book, tail, rho')
    ensures Inside(book, tail, 1.0) == (book + tail) * (book + tail)
  {
    var product := book * tail;
    assert product >= 0.0;
    assert (rho' - rho) * product >= 0.0;
    assert rho * book * tail == rho * product && rho' * book * tail == rho' * product;
  }

  /**
   * A line adds at most its own tail risk, exactly that when perfectly correlated, and takes away at most the book's;
   * and more correlation never adds less.
   */
  lemma IncrementBounds(book: real, tail: real, rho: real, rho': real, sqrt: real -> real)
    requires IsRoot(sqrt) && book >= 0.0 && tail >= 0.0 && rho <= rho' <= 1.0
    ensures -book <= IncrementalTailRisk(book, tail, rho, sqrt) <= IncrementalTailRisk(book, tail, rho', sqrt) <= tail
    ensures rho' == 1.0 ==> IncrementalTailRisk(book, tail, rho', sqrt) == tail
  {
    InsideGrows(book, tail, rho, rho');
    InsideGrows(book, tail, rho', 1.0);
    assert (book + tail) * (book + tail) >= 0.0;
    RootOrder(sqrt, Max(0.0, Inside(book, tail, rho)), Max(0.0, Inside(book, tail, rho')));
    RootOrder(sqrt, Max(0.0, Inside(book, tail, rho')), Max(0.0, Inside(book, tail, 1.0)));
    var both := book + tail;
    assert Max(0.0, Inside(book, tail, 1.0)) == both * both;
    RootOfSquare(sqrt, both);
  }

  lemma {:induction false} RhoBounds(l: Line, selected: seq<int>)
    requires Fit(l)
    ensures -1.0 <= l.book <= Rho(l, selected) <= 1.0
    decreases |selected|
  {
    if selected != [] { RhoBounds(l, selected[..|selected| - 1]); }
  }

  /** The aggregate tail risk never goes negative, and never exceeds the book's plus the picks' own. */
  lemma {:induction false} TailHolds(lines: map<int, Line>, picks: seq<int>, t: Terms)
    requires Priced(lines, t) && t.limits.bookTail >= 0.0 && IsRoot(t.sqrt)
    requires forall i :: 0 <= i < |picks| ==> picks[i] in lines
    ensures 0.0 <= After(lines, picks, t).tail <= t.limits.bookTail + Tails(lines, picks)
    decreases |picks|
  {
    if picks != [] {
      assert forall i :: 0 <= i < |Before(picks)| ==> Before(picks)[i] == picks[i];
      TailHolds(lines, Before(picks), t);
      var l, p := lines[Last(picks)], After(lines, Before(picks), t);
      var rho := Rho(l, p.selected);
      RhoBounds(l, p.selected);
      IncrementBounds(p.tail, l.tail, rho, rho, t.sqrt);
    }
  }

  /** The line scored above zero when the picks before it had been made. */
  ghost predicate Earned(lines: map<int, Line>, before: seq<int>, id: int, t: Terms)
    requires Priced(lines, t)
  {
    id in lines && Score(After(lines, before, t), lines[id], t) > 0.0
  }

  /** A line was taken only while it scored above zero, and a line left out is refused by the state the run ended in. */
  lemma TakenAndLeft(lines: map<int, Line>, picks: seq<int>, t: Terms)
    requires Priced(lines, t) && IsRun(lines, picks, t)
    ensures forall k :: 0 <= k < |picks| ==> Earned(lines, picks[..k], picks[k], t)
    ensures forall id :: id in lines && id !in picks ==> Why(After(lines, picks, t), lines[id], t).Some?
  {
    PicksAreLines(lines, picks, t);
    PendingPriced(lines, picks, t);
    forall k | 0 <= k < |picks| ensures Earned(lines, picks[..k], picks[k], t) {
      PickAt(lines, picks, k, t);
      PendingPriced(lines, picks[..k], t);
    }
  }

  // ---------------------------------------------------------------- what the arithmetic means

  /** The correlation a line is scored at is the largest it has: with the book, or with a line already selected. */
  lemma {:induction false} RhoIsLargest(l: Line, selected: seq<int>)
    ensures l.book <= Rho(l, selected)
    ensures forall s :: s in selected ==> (if s in l.others then l.others[s] else 1.0) <= Rho(l, selected)
    ensures Rho(l, selected) == l.book
            || exists s :: s in selected && Rho(l, selected) == if s in l.others then l.others[s] else 1.0
    decreases |selected|
  {
    if selected != [] {
      var rest, s := selected[..|selected| - 1], selected[|selected| - 1];
      RhoIsLargest(l, rest);
      assert selected == rest + [s];
    }
  }

  /** Taking a line makes the aggregate tail the length of a sum of two vectors: the old one and the line's. */
  lemma TailAdds(lines: map<int, Line>, picks: seq<int>, id: int, t: Terms)
    requires IsRoot(t.sqrt) && id in lines
    ensures var tail, after, l := After(lines, picks, t).tail, After(lines, picks + [id], t).tail, lines[id];
            var squared := tail * tail + l.tail * l.tail
                           + 2.0 * Rho(l, After(lines, picks, t).selected) * tail * l.tail;
            after >= 0.0 && after * after == if squared < 0.0 then 0.0 else squared
  {
    hide Rho, Inside, IsRoot, After;
    AfterOneMore(lines, picks, id, t);
    var p, l := After(lines, picks, t), lines[id];
    InsideIs(p.tail, l.tail, Rho(l, p.selected));
    RootSquared(t.sqrt, Max(0.0, Inside(p.tail, l.tail, Rho(l, p.selected))));
  }

  lemma AfterOneMore(lines: map<int, Line>, picks: seq<int>, id: int, t: Terms)
    requires id in lines
    ensures After(lines, picks + [id], t) == Take(After(lines, picks, t), id, lines[id], t)
  {
    hide Take;
    assert Before(picks + [id]) == picks;
  }

  lemma InsideIs(book: real, tail: real, rho: real)
    ensures Inside(book, tail, rho) == book * book + tail * tail + 2.0 * rho * book * tail
  {
  }

  lemma RootSquared(sqrt: real -> real, x: real)
    requires IsRoot(sqrt) && x >= 0.0
    ensures sqrt(x) >= 0.0 && sqrt(x) * sqrt(x) == x
  {
  }

  /** Which line scores higher: more value left after the priced risk, for the dollars it binds and the days. */
  lemma ScoreCompares(p: Plan, l: Line, l': Line, t: Terms)
    requires Fit(l) && Fit(l')
    ensures var value, value' := l.net - t.aversion * Increment(p, l, t), l'.net - t.aversion * Increment(p, l', t);
            && (Score(p, l, t) > Score(p, l', t) <==> value * (l'.capital * l'.days) > value' * (l.capital * l.days))
            && (Score(p, l, t) > 0.0 <==> value > 0.0)
  {
    hide Increment;
    Positive(l.capital, l.days);
    Positive(l'.capital, l'.days);
    Ratios(l.net - t.aversion * Increment(p, l, t), l.capital * l.days,
           l'.net - t.aversion * Increment(p, l', t), l'.capital * l'.days);
  }

  lemma Ratios(a: real, x: real, b: real, y: real)
    requires x > 0.0 && y > 0.0
    ensures a / x > b / y <==> a * y > b * x
    ensures a / x > 0.0 <==> a > 0.0
  {
    var q, r := a / x, b / y;
    assert q * x == a && r * y == b;
    assert a * y == q * (x * y) && b * x == r * (x * y);
    Positive(x, y);
    Order(q, r, x * y);
    Order(q, 0.0, x);
  }

  lemma Order(q: real, r: real, k: real)
    requires k > 0.0
    ensures q > r <==> q * k > r * k
  {
    if q > r { Positive(q - r, k); }
    if q < r { Positive(r - q, k); }
  }

  /** There is room for the line under every cap, the picks added up afresh. */
  ghost predicate Room(lines: map<int, Line>, picks: seq<int>, l: Line, t: Terms)
    requires forall i :: 0 <= i < |picks| ==> picks[i] in lines
    requires l.strategy in t.limits.perStrategy
  {
    && Capital(lines, picks, Everything) + l.capital <= t.limits.free
    && Capital(lines, picks, Everything) + l.capital <= t.limits.maxTotal
    && Capital(lines, picks, Strategy(l.strategy)) + l.capital <= t.limits.perStrategy[l.strategy]
    && Losses(lines, picks) + l.loss <= t.limits.maxLoss
    && Drawdowns(lines, picks) + l.drawdown <= t.limits.maxDrawdown
    && Capital(lines, picks, Group(l.group)) + l.capital <= t.limits.maxGroup
  }

  /** A line is refused exactly when it does not score or some cap has no room for it, and the reason given is true. */
  lemma RefusedIff(lines: map<int, Line>, picks: seq<int>, l: Line, t: Terms)
    requires forall i :: 0 <= i < |picks| ==> picks[i] in lines
    requires Fit(l) && l.strategy in t.limits.perStrategy
    ensures var p := After(lines, picks, t);
            && (Why(p, l, t).None? <==> Score(p, l, t) > 0.0 && Room(lines, picks, l, t))
            && match Why(p, l, t)
               case None => true
               case Some(NO_RISK_ADJUSTED_VALUE) => Score(p, l, t) <= 0.0
               case Some(FREE_CAPITAL_EXHAUSTED) => Capital(lines, picks, Everything) + l.capital > t.limits.free
               case Some(TOTAL_CAP) => Capital(lines, picks, Everything) + l.capital > t.limits.maxTotal
               case Some(STRATEGY_CAP) =>
                 Capital(lines, picks, Strategy(l.strategy)) + l.capital > t.limits.perStrategy[l.strategy]
               case Some(TOTAL_LOSS_CAP) => Losses(lines, picks) + l.loss > t.limits.maxLoss
               case Some(DRAWDOWN_CAP) => Drawdowns(lines, picks) + l.drawdown > t.limits.maxDrawdown
               case Some(CONCENTRATION_CAP) => Capital(lines, picks, Group(l.group)) + l.capital > t.limits.maxGroup
  {
    hide Score, After, Capital, Losses, Drawdowns;
    TotalsAgree(lines, picks, t);
  }

  // ---------------------------------------------------------------- the loop

  datatype Verdict = ALLOCATED | Refused(reason: Reason) | Ineligible | Duplicate | LimitsInvalid

  datatype Result = Result(usd: real, eligible: bool, verdict: Verdict)

  /** Insert one line into an order kept by (-score, id). */
  method Rank(order: seq<int>, id: int, pending: map<int, Line>, p: Plan, t: Terms) returns (r: seq<int>)
    requires Priced(pending, t) && id in pending && Ranked(order, pending, p, t)
    ensures Ranked(r, pending, p, t)
    ensures forall x :: x in r <==> x in order || x == id
  {
    hide Increment;
    var at := |order|;
    while at > 0 && !Ahead(p, t, order[at - 1], pending[order[at - 1]], id, pending[id])
      invariant 0 <= at <= |order|
      invariant forall i :: at <= i < |order| ==> Ahead(p, t, id, pending[id], order[i], pending[order[i]])
    {
      at := at - 1;
    }
    r := order[..at] + [id] + order[at..];
    assert forall x :: x in order <==> x in order[..at] || x in order[at..];
  }

  ghost predicate Ranked(order: seq<int>, pending: map<int, Line>, p: Plan, t: Terms)
    requires Priced(pending, t)
  {
    && (forall i :: 0 <= i < |order| ==> order[i] in pending)
    && (forall i, j :: 0 <= i < j < |order| ==> Ahead(p, t, order[i], pending[order[i]], order[j], pending[order[j]]))
  }

  method RankAll(pending: map<int, Line>, p: Plan, t: Terms) returns (order: seq<int>)
    requires Priced(pending, t)
    ensures Ranked(order, pending, p, t) && forall id :: id in pending ==> id in order
  {
    hide Ahead, Score;
    order := [];
    var ids := Ascending(pending.Keys);
    for i := 0 to |ids|
      invariant Ranked(order, pending, p, t)
      invariant forall k :: 0 <= k < i ==> ids[k] in order
    {
      assert ids[i] in ids;
      order := Rank(order, ids[i], pending, p, t);
    }
    forall id | id in pending ensures id in order {
      assert id in ids;
      var k :| 0 <= k < |ids| && ids[k] == id;
    }
  }

  lemma FirstIsPick(order: seq<int>, i: nat, pending: map<int, Line>, p: Plan, t: Terms)
    requires Priced(pending, t) && Ranked(order, pending, p, t) && i < |order|
    requires forall id :: id in pending ==> id in order
    requires Why(p, pending[order[i]], t).None? && forall k :: 0 <= k < i ==> Why(p, pending[order[k]], t).Some?
    ensures IsPick(pending, p, t, order[i])
  {
    forall other | other in pending && Why(p, pending[other], t).None?
      ensures Ahead(p, t, order[i], pending[order[i]], other, pending[other])
    {
      var k :| 0 <= k < |order| && order[k] == other;
    }
  }

  /** The verdict recorded for a line refused by the state it was last scored in. */
  ghost predicate RefusedBy(results: map<int, Result>, pending: map<int, Line>, id: int, p: Plan, t: Terms)
    requires Priced(pending, t)
  {
    && id in pending && Why(p, pending[id], t).Some? && id in results
    && results[id] == Result(0.0, true, Refused(Why(p, pending[id], t).value))
  }

  ghost predicate SameElsewhere(results: map<int, Result>, results': map<int, Result>, pending: map<int, Line>)
  {
    forall id :: id !in pending ==>
                   (id in results <==> id in results') && (id in results ==> results[id] == results'[id])
  }

  /** One round: rank every pending line, and take the first that nothing refuses. */
  method Round(pending: map<int, Line>, p: Plan, t: Terms, results0: map<int, Result>)
    returns (picked: Option<int>, results: map<int, Result>)
    requires Priced(pending, t)
    ensures picked.Some? ==> IsPick(pending, p, t, picked.value)
    ensures picked.None? ==> forall id :: id in pending ==> RefusedBy(results, pending, id, p, t)
    ensures SameElsewhere(results0, results, pending)
  {
    var order := RankAll(pending, p, t);
    results := results0;
    for i := 0 to |order|
      invariant forall k :: 0 <= k < i ==> RefusedBy(results, pending, order[k], p, t)
      invariant SameElsewhere(results0, results, pending)
    {
      var why := Why(p, pending[order[i]], t);
      if why.None? {
        FirstIsPick(order, i, pending, p, t);
        return Some(order[i]), results;
      }
      results := results[order[i] := Result(0.0, true, Refused(why.value))];
    }
    picked := None;
  }

  lemma PickExtends(lines: map<int, Line>, picks: seq<int>, id: int, t: Terms)
    requires Priced(lines, t) && Greedy(lines, picks, t) && PickedAt(lines, picks, id, t)
    ensures Greedy(lines, picks + [id], t)
    ensures id in lines && Pending(lines, picks + [id]) == Pending(lines, picks) - {id}
    ensures After(lines, picks + [id], t) == Take(After(lines, picks, t), id, lines[id], t)
  {
    PendingPriced(lines, picks, t);
    assert Before(picks + [id]) == picks;
  }

  /** What the results say of the lines: the picks got their capital, and the rest the reason they were refused. */
  ghost predicate Settled(results: map<int, Result>, lines: map<int, Line>, picks: seq<int>, t: Terms)
    requires Priced(lines, t)
  {
    forall id :: id in lines ==>
                   if id in picks then id in results && results[id] == Result(lines[id].capital, true, ALLOCATED)
                   else RefusedBy(results, lines, id, After(lines, picks, t), t)
  }

  ghost predicate PicksPaid(results: map<int, Result>, lines: map<int, Line>, picks: seq<int>)
  {
    forall i :: 0 <= i < |picks| ==>
                  picks[i] in lines && picks[i] in results
                  && results[picks[i]] == Result(lines[picks[i]].capital, true, ALLOCATED)
  }

  /** A round that takes nothing has judged every line still pending against the state the run ends in. */
  lemma NothingTaken(lines: map<int, Line>, picks: seq<int>, t: Terms, results: map<int, Result>)
    requires Priced(lines, t) && Greedy(lines, picks, t)
    requires Priced(Pending(lines, picks), t)
    requires forall id :: id in Pending(lines, picks) ==>
                            RefusedBy(results, Pending(lines, picks), id, After(lines, picks, t), t)
    ensures IsRun(lines, picks, t)
    ensures forall id :: id in lines && id !in picks ==> RefusedBy(results, lines, id, After(lines, picks, t), t)
  {
    PendingPriced(lines, picks, t);
    forall id | id in lines && id !in picks ensures RefusedBy(results, lines, id, After(lines, picks, t), t) {
      assert RefusedBy(results, Pending(lines, picks), id, After(lines, picks, t), t);
    }
  }

  lemma {:induction false} PickedIsNotPending(lines: map<int, Line>, picks: seq<int>, i: nat)
    requires i < |picks|
    ensures picks[i] !in Pending(lines, picks)
    decreases |picks|
  {
    if i < |picks| - 1 { PickedIsNotPending(lines, Before(picks), i); }
  }

  lemma StillPaid(lines: map<int, Line>, picks: seq<int>, t: Terms, before: map<int, Result>, results: map<int, Result>)
    requires Priced(lines, t) && PicksPaid(before, lines, picks)
    requires SameElsewhere(before, results, Pending(lines, picks))
    ensures PicksPaid(results, lines, picks)
    ensures forall id :: id in lines && id in picks ==>
                           id in results && results[id] == Result(lines[id].capital, true, ALLOCATED)
  {
    PendingPriced(lines, picks, t);
    forall i | 0 <= i < |picks| ensures picks[i] in results && results[picks[i]] == before[picks[i]] {
      PickedIsNotPending(lines, picks, i);
    }
    forall id | id in lines && id in picks
      ensures id in results && results[id] == Result(lines[id].capital, true, ALLOCATED)
    {
      var i :| 0 <= i < |picks| && picks[i] == id;
    }
  }

  lemma StillElsewhere(lines: map<int, Line>, picks: seq<int>, t: Terms, a: map<int, Result>, b: map<int, Result>,
                       c: map<int, Result>)
    requires Priced(lines, t) && SameElsewhere(a, b, lines) && SameElsewhere(b, c, Pending(lines, picks))
    ensures SameElsewhere(a, c, lines)
  {
    PendingPriced(lines, picks, t);
  }

  /** What a round of the loop keeps. */
  ghost predicate Running(lines: map<int, Line>, picks: seq<int>, t: Terms, pending: map<int, Line>, p: Plan,
                          results0: map<int, Result>, results: map<int, Result>)
    requires Priced(lines, t)
  {
    && Greedy(lines, picks, t) && pending == Pending(lines, picks) && p == After(lines, picks, t)
    && PicksPaid(results, lines, picks) && SameElsewhere(results0, results, lines)
  }

  lemma RoundKeeps(lines: map<int, Line>, picks: seq<int>, t: Terms, pending: map<int, Line>, p: Plan,
                   results0: map<int, Result>, results: map<int, Result>, judged: map<int, Result>, id: int)
    requires Priced(lines, t) && Running(lines, picks, t, pending, p, results0, results)
    requires Priced(pending, t) && IsPick(pending, p, t, id) && SameElsewhere(results, judged, pending)
    ensures id in lines && pending[id] == lines[id]
    ensures Running(lines, picks + [id], t, pending - {id}, Take(p, id, lines[id], t), results0,
                    judged[id := Result(lines[id].capital, true, ALLOCATED)])
  {
    hide Why, Score, Take, Increment;
    PendingPriced(lines, picks, t);
    PickExtends(lines, picks, id, t);
    StillElsewhere(lines, picks, t, results0, results, judged);
    StillPaid(lines, picks, t, results, judged);
  }

  /** The greedy loop of `allocate`, over the validated lines. */
  method Select(lines: map<int, Line>, t: Terms, results0: map<int, Result>)
    returns (picks: seq<int>, p: Plan, results: map<int, Result>)
    requires Priced(lines, t)
    ensures IsRun(lines, picks, t) && p == After(lines, picks, t)
    ensures Settled(results, lines, picks, t) && SameElsewhere(results0, results, lines)
  {
    picks, p, results := [], Start(t), results0;
    var pending := lines;
    while true
      invariant Running(lines, picks, t, pending, p, results0, results)
      decreases |pending|
    {
      PendingPriced(lines, picks, t);
      var picked, judged := Round(pending, p, t, results);
      if picked.None? {
        NothingTaken(lines, picks, t, judged);
        StillPaid(lines, picks, t, results, judged);
        StillElsewhere(lines, picks, t, results0, results, judged);
        return picks, p, judged;
      }
      var id := picked.value;
      RoundKeeps(lines, picks, t, pending, p, results0, results, judged, id);
      Fewer(pending, id);
      p, pending := Take(p, id, pending[id], t), pending - {id};
      results := judged[id := Result(lines[id].capital, true, ALLOCATED)];
      picks := picks + [id];
    }
  }

  lemma Fewer(m: map<int, Line>, id: int)
    requires id in m
    ensures |m - {id}| < |m|
  {
    assert (m - {id}).Keys == m.Keys - {id};
    assert |m| == |m.Keys| && |m - {id}| == |(m - {id}).Keys|;
  }

  // ---------------------------------------------------------------- from opportunities to lines

  /** The limits as offered: what is absent, unsourced or not a number is `None`. */
  datatype Offer = Offer(free: Option<real>, maxTotal: Option<real>, perStrategy: map<int, real>, maxLoss: Option<real>,
                         maxDrawdown: Option<real>, maxGroup: Option<real>, bookTail: Option<real>,
                         aversion: Option<real>,
                         evidence: Option<map<int, bool>>, researchOnly: bool)

  predicate NonNegative(v: Option<real>) { v.Some? && v.value >= 0.0 }

  predicate Offered(o: Offer)
  {
    && o.free.Some? && NonNegative(o.maxTotal) && NonNegative(o.maxLoss) && NonNegative(o.maxDrawdown)
    && NonNegative(o.maxGroup) && NonNegative(o.bookTail) && NonNegative(o.aversion)
  }

  function TermsOf(o: Offer, sqrt: real -> real): Terms
    requires Offered(o)
  {
    Terms(Limits(o.free.value, o.maxTotal.value, o.perStrategy, o.maxLoss.value, o.maxDrawdown.value, o.maxGroup.value,
                 o.bookTail.value), o.aversion.value, sqrt)
  }

  /** A verdict of ALLOCATE for that very strategy; with no verdicts at all, only the explicit research switch. */
  predicate Evidenced(o: Offer, strategy: int)
  {
    if o.evidence.Some? then strategy in o.evidence.value && o.evidence.value[strategy] else o.researchOnly
  }

  predicate Eligible(op: Opportunity, o: Offer)
  {
    Valid(op) && op.strategy in o.perStrategy && o.perStrategy[op.strategy] >= 0.0 && Evidenced(o, op.strategy)
  }

  /** The opportunity states what it needs, in order; it is sized within the market; its strategy has earned a cap. */
  ghost predicate Investable(op: Opportunity, o: Offer)
  {
    var v := op.inputs;
    && op.group.Some? && v.financing.Some? && v.margin.Some? && v.executionCost.Some? && v.capital.Some?
    && v.net.Some? && 0.0 < v.net.value
    && v.capacity.Some? && v.liquidity.Some? && 0.0 < v.capital.value <= v.capacity.value
    && v.capital.value <= v.liquidity.value && 0.0 <= v.margin.value <= v.capital.value
    && 0.0 <= v.executionCost.value
    && v.days.Some? && 0.0 < v.days.value && v.loss.Some? && 0.0 < v.loss.value
    && v.tail.Some? && 0.0 <= v.tail.value && v.drawdown.Some? && 0.0 <= v.drawdown.value
    && v.book.Some? && -1.0 <= v.book.value <= 1.0
    && (forall k :: k in v.others ==> v.others[k].Some? && -1.0 <= v.others[k].value <= 1.0)
    && op.strategy in o.perStrategy && 0.0 <= o.perStrategy[op.strategy]
    && (o.evidence.Some? ==> op.strategy in o.evidence.value && o.evidence.value[op.strategy])
    && (o.evidence.None? ==> o.researchOnly)
  }

  /** The limits can be applied: every one stated, and none but the free capital below nothing. */
  ghost predicate Applicable(o: Offer)
  {
    && o.free.Some? && o.maxTotal.Some? && o.maxLoss.Some? && o.maxDrawdown.Some? && o.maxGroup.Some?
    && o.bookTail.Some? && o.aversion.Some?
    && 0.0 <= o.maxTotal.value && 0.0 <= o.maxLoss.value && 0.0 <= o.maxDrawdown.value && 0.0 <= o.maxGroup.value
    && 0.0 <= o.bookTail.value && 0.0 <= o.aversion.value
  }

  /** Which opportunities can get anything, and under which limits. */
  lemma EligibleIff(op: Opportunity, o: Offer)
    ensures Eligible(op, o) <==> Investable(op, o)
    ensures Offered(o) <==> Applicable(o)
  {
  }

  predicate Listed(ops: seq<Opportunity>, id: int) { exists i :: 0 <= i < |ops| && ops[i].id == Some(id) }

  /** The lines priced: of several opportunities under one id, only the first listed can be one. */
  function Lines(ops: seq<Opportunity>, o: Offer): map<int, Line>
    decreases |ops|
  {
    if ops == [] then map[]
    else
      var op, earlier := ops[|ops| - 1], ops[..|ops| - 1];
      if op.id.None? || Listed(earlier, op.id.value) || !Eligible(op, o) then Lines(earlier, o)
      else Lines(earlier, o)[op.id.value := LineOf(op)]
  }

  predicate DistinctIds(ops: seq<Opportunity>)
  {
    && (forall i :: 0 <= i < |ops| ==> ops[i].id.Some?)
    && (forall i, j :: 0 <= i < j < |ops| ==> ops[i].id != ops[j].id)
  }

  lemma {:induction false} LinesFit(ops: seq<Opportunity>, o: Offer, sqrt: real -> real)
    requires Offered(o)
    ensures Priced(Lines(ops, o), TermsOf(o, sqrt))
    ensures forall id :: id in Lines(ops, o) ==> Listed(ops, id)
    decreases |ops|
  {
    if ops != [] {
      var earlier := ops[..|ops| - 1];
      LinesFit(earlier, o, sqrt);
      forall id | id in Lines(ops, o) ensures Listed(ops, id) {
        if id in Lines(earlier, o) {
          var i :| 0 <= i < |earlier| && earlier[i].id == Some(id);
          assert ops[i].id == Some(id);
        } else {
          assert ops[|ops| - 1].id == Some(id);
        }
      }
    }
  }

  /** With distinct ids, an opportunity is a line exactly when it is eligible, wherever it is listed. */
  lemma {:induction false} LinesExactly(ops: seq<Opportunity>, o: Offer, i: nat)
    requires DistinctIds(ops) && i < |ops|
    ensures var id := ops[i].id.value;
            (id in Lines(ops, o) <==> Eligible(ops[i], o))
            && (id in Lines(ops, o) ==> Lines(ops, o)[id] == LineOf(ops[i]))
    decreases |ops|
  {
    var last := |ops| - 1;
    var earlier := ops[..last];
    if i < last {
      LinesExactly(earlier, o, i);
    } else {
      NotListed(ops, o);
    }
  }

  lemma NotListed(ops: seq<Opportunity>, o: Offer)
    requires DistinctIds(ops) && ops != []
    ensures var earlier, id := ops[..|ops| - 1], ops[|ops| - 1].id.value;
            !Listed(earlier, id) && id !in Lines(earlier, o)
  {
    var earlier, id := ops[..|ops| - 1], ops[|ops| - 1].id.value;
    forall i | 0 <= i < |earlier| ensures earlier[i].id != Some(id) {
      assert earlier[i] == ops[i];
    }
    OnlyListed(earlier, o, id);
  }

  lemma {:induction false} OnlyListed(ops: seq<Opportunity>, o: Offer, id: int)
    requires !Listed(ops, id)
    ensures id !in Lines(ops, o)
    decreases |ops|
  {
    if ops != [] {
      assert ops[|ops| - 1].id != Some(id);
      assert !Listed(ops[..|ops| - 1], id);
      OnlyListed(ops[..|ops| - 1], o, id);
    }
  }

  lemma SameLines(ops: seq<Opportunity>, ops': seq<Opportunity>, o: Offer, id: int)
    requires DistinctIds(ops) && DistinctIds(ops') && multiset(ops) == multiset(ops')
    requires id in Lines(ops, o)
    ensures id in Lines(ops', o) && Lines(ops', o)[id] == Lines(ops, o)[id]
  {
    if !Listed(ops, id) { OnlyListed(ops, o, id); }
    var i :| 0 <= i < |ops| && ops[i].id == Some(id);
    assert ops[i] in multiset(ops);
    assert ops[i] in ops';
    var j :| 0 <= j < |ops'| && ops'[j] == ops[i];
    LinesExactly(ops, o, i);
    LinesExactly(ops', o, j);
  }

  /** Listing the same opportunities in another order changes neither the lines nor, hence, any pick. */
  lemma OrderDoesNotMatter(ops: seq<Opportunity>, ops': seq<Opportunity>, o: Offer, sqrt: real -> real,
                           picks: seq<int>, picks': seq<int>)
    requires DistinctIds(ops) && DistinctIds(ops') && multiset(ops) == multiset(ops') && Offered(o)
    requires Priced(Lines(ops, o), TermsOf(o, sqrt)) && IsRun(Lines(ops, o), picks, TermsOf(o, sqrt))
    requires Priced(Lines(ops', o), TermsOf(o, sqrt)) && IsRun(Lines(ops', o), picks', TermsOf(o, sqrt))
    ensures Lines(ops, o) == Lines(ops', o) && picks == picks'
  {
    forall id | id in Lines(ops, o) ensures id in Lines(ops', o) && Lines(ops', o)[id] == Lines(ops, o)[id] {
      SameLines(ops, ops', o, id);
    }
    forall id | id in Lines(ops', o) ensures id in Lines(ops, o) {
      SameLines(ops', ops, o, id);
    }
    assert Lines(ops, o) == Lines(ops', o);
    RunUnique(Lines(ops, o), picks, picks', TermsOf(o, sqrt));
  }

  // ---------------------------------------------------------------- the whole plan

  /** A result is filed under its id; a second opportunity with that id, or one with none, under a key of its own. */
  datatype Key = Again(id: int) | Blank

  ghost predicate Twice(ops: seq<Opportunity>, id: int)
  {
    exists i, j :: 0 <= i < j < |ops| && ops[i].id == Some(id) && ops[j].id == Some(id)
  }

  /** What is refused for its id alone: one without any, and a second one under the same. */
  ghost predicate Unfiled(ops: seq<Opportunity>, rejected: set<Key>)
  {
    && (Blank in rejected <==> exists i :: 0 <= i < |ops| && ops[i].id.None?)
    && forall id :: Again(id) in rejected <==> Twice(ops, id)
  }

  lemma UnfiledGrows(ops: seq<Opportunity>, rejected: set<Key>)
    requires ops != [] && Unfiled(ops[..|ops| - 1], rejected)
    ensures var op := ops[|ops| - 1];
            if op.id.None? then Unfiled(ops, rejected + {Blank})
            else if Listed(ops[..|ops| - 1], op.id.value) then Unfiled(ops, rejected + {Again(op.id.value)})
            else Unfiled(ops, rejected)
  {
    var earlier, op := ops[..|ops| - 1], ops[|ops| - 1];
    forall id
      ensures Twice(ops, id) <==> Twice(earlier, id) || (op.id == Some(id) && Listed(earlier, id))
    {
      if Twice(ops, id) {
        var i, j :| 0 <= i < j < |ops| && ops[i].id == Some(id) && ops[j].id == Some(id);
        assert earlier[i].id == Some(id);
        assert j < |ops| - 1 ==> earlier[j].id == Some(id);
      }
      if Twice(earlier, id) {
        var i, j :| 0 <= i < j < |earlier| && earlier[i].id == Some(id) && earlier[j].id == Some(id);
        assert ops[i].id == Some(id) && ops[j].id == Some(id);
      }
      if op.id == Some(id) && Listed(earlier, id) {
        var i :| 0 <= i < |earlier| && earlier[i].id == Some(id);
        assert ops[i].id == Some(id) && ops[|ops| - 1].id == Some(id);
      }
    }
    forall i | 0 <= i < |earlier| ensures ops[i] == earlier[i] {
    }
  }

  datatype Allocation = Allocation(results: map<int, Result>, rejected: set<Key>, total: real, remaining: Option<real>)

  /** The validation loop. */
  method Validate(ops: seq<Opportunity>, o: Offer)
    returns (lines: map<int, Line>, results: map<int, Result>, rejected: set<Key>)
    ensures lines == Lines(ops, o)
    ensures forall id :: id in results <==> Listed(ops, id) && id !in lines
    ensures forall id :: id in results ==> results[id] == Result(0.0, false, Ineligible)
    ensures Unfiled(ops, rejected)
  {
    hide Unfiled, Listed, Valid, Evidenced, LineOf;
    lines, results, rejected := map[], map[], {};
    var seen: set<int> := {};
    NothingListed();
    assert ops[..0] == [];
    for i := 0 to |ops|
      invariant lines == Lines(ops[..i], o)
      invariant forall id :: id in seen <==> Listed(ops[..i], id)
      invariant forall id :: id in lines || id in results <==> id in seen
      invariant forall id :: id in results ==> id !in lines && results[id] == Result(0.0, false, Ineligible)
      invariant Unfiled(ops[..i], rejected)
    {
      var op := ops[i];
      ListedGrows(ops, i);
      assert ops[..i + 1][..i] == ops[..i];
      UnfiledGrows(ops[..i + 1], rejected);
      if op.id.None? || op.id.value in seen {
        rejected := rejected + {if op.id.None? then Blank else Again(op.id.value)};
      } else {
        seen := seen + {op.id.value};
        if Eligible(op, o) {
          lines := lines[op.id.value := LineOf(op)];
        } else {
          results := results[op.id.value := Result(0.0, false, Ineligible)];
        }
      }
    }
    assert ops[..|ops|] == ops;
  }

  lemma NothingListed()
    ensures Unfiled([], {}) && forall id :: !Listed([], id)
  {
  }

  lemma ListedGrows(ops: seq<Opportunity>, i: nat)
    requires i < |ops|
    ensures forall id :: Listed(ops[..i + 1], id) <==> Listed(ops[..i], id) || ops[i].id == Some(id)
  {
    forall id ensures Listed(ops[..i + 1], id) <==> Listed(ops[..i], id) || ops[i].id == Some(id) {
      if Listed(ops[..i], id) {
        var k :| 0 <= k < i && ops[..i][k].id == Some(id);
        assert ops[..i + 1][k].id == Some(id);
      }
      if ops[i].id == Some(id) { assert ops[..i + 1][i].id == Some(id); }
      if Listed(ops[..i + 1], id) {
        var k :| 0 <= k <= i && ops[..i + 1][k].id == Some(id);
        if k < i { assert ops[..i][k].id == Some(id); }
      }
    }
  }

  function Spent(lines: map<int, Line>, picks: seq<int>): real
    decreases |picks|
  {
    if picks == [] then 0.0
    else Spent(lines, Before(picks)) + if Last(picks) in lines then lines[Last(picks)].capital else 0.0
  }

  /** The plan keeps every limit it was offered. */
  ghost predicate WithinOffer(lines: map<int, Line>, picks: seq<int>, o: Offer)
    requires Offered(o)
  {
    && (forall i :: 0 <= i < |picks| ==> picks[i] in lines)
    && (picks != [] ==> Capital(lines, picks, Everything) <= o.free.value)
    && Capital(lines, picks, Everything) <= o.maxTotal.value
    && (forall s :: 0.0 < Capital(lines, picks, Strategy(s)) ==>
                      s in o.perStrategy && Capital(lines, picks, Strategy(s)) <= o.perStrategy[s])
    && Losses(lines, picks) <= o.maxLoss.value && Drawdowns(lines, picks) <= o.maxDrawdown.value
    && forall g :: Capital(lines, picks, Group(g)) <= o.maxGroup.value
  }

  lemma {:induction false} SpentIs(lines: map<int, Line>, picks: seq<int>)
    requires forall i :: 0 <= i < |picks| ==> picks[i] in lines
    ensures Spent(lines, picks) == Capital(lines, picks, Everything)
    decreases |picks|
  {
    if picks != [] {
      assert forall i :: 0 <= i < |Before(picks)| ==> Before(picks)[i] == picks[i];
      SpentIs(lines, Before(picks));
    }
  }

  /** The aggregate tail risk after some picks, from that of the book on. */
  ghost function TailAfter(lines: map<int, Line>, picks: seq<int>, o: Offer, sqrt: real -> real): real
    requires Offered(o)
    decreases |picks|
  {
    if picks == [] then o.bookTail.value
    else if Last(picks) !in lines then TailAfter(lines, Before(picks), o, sqrt)
    else
      var tail, l := TailAfter(lines, Before(picks), o, sqrt), lines[Last(picks)];
      sqrt(Max(0.0, Inside(tail, l.tail, Rho(l, Before(picks)))))
  }

  /** Every pick returns more than the tail risk it adds, at the aversion offered. */
  ghost predicate WorthTheRisk(lines: map<int, Line>, picks: seq<int>, o: Offer, sqrt: real -> real)
    requires Offered(o)
  {
    forall k :: 0 <= k < |picks| ==>
                  && picks[k] in lines
                  && lines[picks[k]].net
                   > o.aversion.value * (TailAfter(lines, picks[..k + 1], o, sqrt)
                                         - TailAfter(lines, picks[..k], o, sqrt))
  }

  lemma {:induction false} TailAfterIs(lines: map<int, Line>, picks: seq<int>, o: Offer, sqrt: real -> real)
    requires Offered(o) && forall i :: 0 <= i < |picks| ==> picks[i] in lines
    ensures After(lines, picks, TermsOf(o, sqrt)).tail == TailAfter(lines, picks, o, sqrt)
    ensures After(lines, picks, TermsOf(o, sqrt)).selected == picks
    decreases |picks|
  {
    hide Rho, Inside;
    if picks != [] {
      assert forall i :: 0 <= i < |Before(picks)| ==> Before(picks)[i] == picks[i];
      TailAfterIs(lines, Before(picks), o, sqrt);
      var tail, l := TailAfter(lines, Before(picks), o, sqrt), lines[Last(picks)];
      var p := After(lines, Before(picks), TermsOf(o, sqrt));
      assert p.tail + Increment(p, l, TermsOf(o, sqrt)) == sqrt(Max(0.0, Inside(tail, l.tail, Rho(l, Before(picks)))));
    }
  }

  lemma PicksAreWorthIt(lines: map<int, Line>, picks: seq<int>, o: Offer, sqrt: real -> real)
    requires Offered(o) && Priced(lines, TermsOf(o, sqrt)) && IsRun(lines, picks, TermsOf(o, sqrt))
    ensures WorthTheRisk(lines, picks, o, sqrt)
  {
    hide After, Why, Stuck, Greedy, Score, Increment, TailAfter;
    var t := TermsOf(o, sqrt);
    PicksAreLines(lines, picks, t);
    TakenAndLeft(lines, picks, t);
    forall k | 0 <= k < |picks|
      ensures lines[picks[k]].net > o.aversion.value * (TailAfter(lines, picks[..k + 1], o, sqrt)
                                                        - TailAfter(lines, picks[..k], o, sqrt))
    {
      var p, l := After(lines, picks[..k], t), lines[picks[k]];
      assert Earned(lines, picks[..k], picks[k], t);
      ScoreCompares(p, l, l, t);
      assert picks[..k + 1] == picks[..k] + [picks[k]];
      AfterOneMore(lines, picks[..k], picks[k], t);
      TailAfterIs(lines, picks[..k], o, sqrt);
      TailAfterIs(lines, picks[..k + 1], o, sqrt);
    }
  }

  lemma RunWithinOffer(lines: map<int, Line>, picks: seq<int>, o: Offer, sqrt: real -> real)
    requires Offered(o) && Priced(lines, TermsOf(o, sqrt)) && IsRun(lines, picks, TermsOf(o, sqrt))
    ensures WithinOffer(lines, picks, o)
    ensures After(lines, picks, TermsOf(o, sqrt)).total == Spent(lines, picks)
    ensures After(lines, picks, TermsOf(o, sqrt)).free == o.free.value - Spent(lines, picks)
    ensures WorthTheRisk(lines, picks, o, sqrt)
  {
    hide After, Why, Stuck, Greedy;
    var t := TermsOf(o, sqrt);
    PicksAreLines(lines, picks, t);
    CapsHold(lines, picks, t);
    TotalsAgree(lines, picks, t);
    SpentIs(lines, picks);
    PicksAreWorthIt(lines, picks, o, sqrt);
  }

  /**
   * `allocate`: validate, refuse a plan with invalid limits whole, otherwise run the greedy loop. The totals are those
   * of the run, every line is settled by it, and an ineligible opportunity gets nothing whatever it promises.
   */
  method Allocate(ops: seq<Opportunity>, o: Offer, sqrt: real -> real) returns (a: Allocation, picks: seq<int>)
    ensures forall id :: id in a.results <==> Listed(ops, id)
    ensures forall id :: id in a.results && id !in Lines(ops, o) ==> a.results[id] == Result(0.0, false, Ineligible)
    ensures Offered(o) <==> Applicable(o)
    ensures Unfiled(ops, a.rejected)
    ensures !Offered(o) ==> a.total == 0.0 && picks == [] && a.remaining == o.free
    ensures !Offered(o) ==>
              forall id :: id in Lines(ops, o) ==> id in a.results && a.results[id] == Result(0.0, true, LimitsInvalid)
    ensures Offered(o) ==> Priced(Lines(ops, o), TermsOf(o, sqrt)) && IsRun(Lines(ops, o), picks, TermsOf(o, sqrt))
    ensures Offered(o) ==> Settled(a.results, Lines(ops, o), picks, TermsOf(o, sqrt))
    ensures Offered(o) ==> var p := After(Lines(ops, o), picks, TermsOf(o, sqrt));
                           a.total == p.total && a.remaining == Some(p.free)
    ensures Offered(o) ==> WithinOffer(Lines(ops, o), picks, o) && a.total == Spent(Lines(ops, o), picks)
                           && a.remaining == Some(o.free.value - a.total)
    ensures Offered(o) ==> WorthTheRisk(Lines(ops, o), picks, o, sqrt)
  {
    hide WorthTheRisk, WithinOffer, Unfiled, IsRun, After;
    var lines, results, rejected := Validate(ops, o);
    if !Offered(o) {
      var refused := map id | id in lines :: Result(0.0, true, LimitsInvalid);
      forall id | id in lines ensures Listed(ops, id) { if !Listed(ops, id) { OnlyListed(ops, o, id); } }
      return Allocation(results + refused, rejected, 0.0, o.free), [];
    }
    LinesFit(ops, o, sqrt);
    var p, settled;
    picks, p, settled := Select(lines, TermsOf(o, sqrt), results);
    forall id ensures id in settled <==> Listed(ops, id) {
      if id in lines { assert id in settled; }
    }
    a := Allocation(settled, rejected, p.total, Some(p.free));
    RunWithinOffer(Lines(ops, o), picks, o, sqrt);
  }
}
