/**
 How far a backtest's positions can exceed the per-symbol limit. The position
 check reads a view refreshed only after a bar's reactions have settled, so each
 check may miss the fills of the bar being handled.
 */
module Exposure {
  import opened Core
  import opened Ledger
  import opened Simulator
  import opened Orders
  import opened Limiter
  import opened Risk
  import opened Engine
  import opened Lookahead

  // ---- Working quantity, side by side ----

  /** What the orders of one side still have to fill. */
  function SideSum(ps: seq<Pending>, side: Side): int {
    if ps == [] then 0
    else
      var p := ps[|ps| - 1];
      SideSum(ps[..|ps| - 1], side) + (if p.request.side == side then p.remaining else 0)
  }

  predicate AllModest(ps: seq<Pending>, limits: RiskLimits) {
    forall i :: 0 <= i < |ps| ==> 0 <= ps[i].remaining <= limits.maxContractsPerOrder
  }

  lemma {:induction false} SideSumBound(ps: seq<Pending>, side: Side, limits: RiskLimits)
    requires 0 <= limits.maxContractsPerOrder && AllModest(ps, limits)
    ensures 0 <= SideSum(ps, side) <= MaxOrders(|ps|, limits)
  {
    hide MaxOrders;
    OneOrder(|ps|, limits);
    OneOrder(0, limits);
    if ps != [] {
      SideSumBound(ps[..|ps| - 1], side, limits);
    }
  }

  lemma {:induction false} ReplayPosition(b: Book, es: seq<Execution>, multipliers: Multipliers, s: Symbol)
    requires SoundBook(b) && Positive(es)
    ensures Position(Replay(b, es, multipliers), s) == Position(b, s) + SumSigned(es, s)
  {
    hide Settle;
    if es != [] {
      ReplayPosition(b, es[..|es| - 1], multipliers, s);
    }
  }

  lemma SumSignedAppend(es: seq<Execution>, e: Execution, s: Symbol)
    ensures SumSigned(es + [e], s) == SumSigned(es, s) + (if e.symbol == s then SignedQuantity(e) else 0)
  {
    assert (es + [e])[..|es|] == es;
  }

  /** Whatever a bar fills of a side is no longer working on it. */
  lemma {:induction false} BarConserves(ps: seq<Pending>, bar: Bar, quotes: Quotes, terms: Terms, limits: RiskLimits,
                                        side: Side)
    requires Unfilled(ps) && AllModest(ps, limits)
    ensures Signed(side, SumSigned(Executions(ps, bar, quotes, terms), bar.symbol))
            + SideSum(Survivors(ps, bar, terms), side) <= SideSum(ps, side)
    ensures |Survivors(ps, bar, terms)| <= |ps| && AllModest(Survivors(ps, bar, terms), limits)
  {
    hide FillQuantity, Executions, Survivors, SideSum, SumSigned, Truncate;
    NothingLeft(bar, quotes, terms, side);
    if ps == [] {
      assert ps == [];
    } else {
      var init, p := ps[..|ps| - 1], ps[|ps| - 1];
      assert init + [p] == ps;
      BarConserves(init, bar, quotes, terms, limits, side);
      BarOfLast(init, p, bar, quotes, terms);
      var es, rs := Executions(init, bar, quotes, terms), Survivors(init, bar, terms);
      var e := ExecutionOf(p, FillQuantity(p, bar, terms), quotes(p.request.orderId), bar, terms);
      assert es + [] == es && rs + [] == rs;
      SumSignedAppend(es, e, bar.symbol);
      SideSumAppend(rs, Aged(p, bar, terms), side);
      SideSumAppend(init, p, side);
    }
  }

  lemma NothingLeft(bar: Bar, quotes: Quotes, terms: Terms, side: Side)
    ensures Executions([], bar, quotes, terms) == [] && Survivors([], bar, terms) == []
    ensures SideSum([], side) == 0 && SumSigned([], bar.symbol) == 0
  {
  }

  lemma SideSumAppend(ps: seq<Pending>, p: Pending, side: Side)
    ensures SideSum(ps + [p], side) == SideSum(ps, side) + (if p.request.side == side then p.remaining else 0)
  {
    assert (ps + [p])[..|ps|] == ps;
  }

  /** What the last order of the list adds to the fills and to the survivors of a bar. */
  lemma BarOfLast(ps: seq<Pending>, p: Pending, bar: Bar, quotes: Quotes, terms: Terms)
    requires Unfilled(ps + [p])
    ensures Unfilled(ps) && 0 <= p.remaining && 0 <= FillQuantity(p, bar, terms) <= p.remaining
    ensures
      var n := FillQuantity(p, bar, terms);
      Executions(ps + [p], bar, quotes, terms) == Executions(ps, bar, quotes, terms)
        + if n > 0 then [ExecutionOf(p, n, quotes(p.request.orderId), bar, terms)] else []
    ensures Survivors(ps + [p], bar, terms)
         == Survivors(ps, bar, terms) + if Survives(p, bar, terms) then [Aged(p, bar, terms)] else []
  {
    hide FillQuantity, Survives, Aged;
    var all := ps + [p];
    assert all[|ps|] == p && all[..|ps|] == ps;
    assert forall i :: 0 <= i < |ps| ==> all[i] == ps[i];
  }

  lemma {:induction false} OtherSymbolsUnmoved(ps: seq<Pending>, bar: Bar, quotes: Quotes, terms: Terms, s: Symbol)
    requires Unfilled(ps) && s != bar.symbol
    ensures SumSigned(Executions(ps, bar, quotes, terms), s) == 0
  {
    if ps != [] {
      var init, p := ps[..|ps| - 1], ps[|ps| - 1];
      OtherSymbolsUnmoved(init, bar, quotes, terms, s);
      var es := Executions(init, bar, quotes, terms);
      var n := FillQuantity(p, bar, terms);
      hide FillQuantity;
      SumSignedAppend(es, ExecutionOf(p, n, quotes(p.request.orderId), bar, terms), s);
      assert es + [] == es;
    }
  }

  // ---- The bound, one symbol at a time ----

  function PositionNow(st: Backtest, s: Symbol): int {
    Position(st.sys.desk.book, s)
  }

  function Working(st: Backtest, s: Symbol): seq<Pending> {
    PendingOf(st.sys.desk, s)
  }

  /** The size of `c` orders of the largest allowed size. */
  function MaxOrders(c: int, limits: RiskLimits): int {
    c * limits.maxContractsPerOrder
  }

  /**
   Filled and working exposure of a side, when at most `n` orders work at a time and
   each check lets through at most `slack` orders more than the limit.
   */
  predicate CappedOn(side: Side, position: int, ps: seq<Pending>, n: int, slack: int, limits: RiskLimits) {
    Signed(side, position) + SideSum(ps, side)
    <= limits.maxContractsPerSymbol + MaxOrders(Max(2 * n - 1, n + |ps| - 1) + slack, limits)
  }

  /** How far filled and working exposure may be ahead of what the risk engine knows. */
  predicate DriftsOn(side: Side, position: int, ps: seq<Pending>, known: int, n: int, limits: RiskLimits) {
    Signed(side, position) + SideSum(ps, side) <= Signed(side, known) + MaxOrders(n + |ps|, limits)
  }

  predicate Capped(st: Backtest, s: Symbol, n: int, slack: int, limits: RiskLimits) {
    && AllModest(Working(st, s), limits)
    && forall side :: CappedOn(side, PositionNow(st, s), Working(st, s), n, slack, limits)
  }

  predicate Drifts(st: Backtest, s: Symbol, n: int, limits: RiskLimits) {
    forall side :: DriftsOn(side, PositionNow(st, s), Working(st, s), Known(st.risk, s), n, limits)
  }

  predicate UntradedIsFlat(st: Backtest, s: Symbol) {
    s !in Traded(st.sys.desk.fills) ==> PositionNow(st, s) == 0 == Known(st.risk, s)
  }

  lemma Scale(a: int, b: int, limits: RiskLimits)
    requires a <= b && 0 <= limits.maxContractsPerOrder
    ensures MaxOrders(a, limits) <= MaxOrders(b, limits)
  {
  }

  lemma TwoSizes(a: int, b: int, limits: RiskLimits)
    ensures MaxOrders(a + b, limits) == MaxOrders(a, limits) + MaxOrders(b, limits)
  {
  }

  lemma OneOrder(c: int, limits: RiskLimits)
    ensures MaxOrders(c, limits) == MaxOrders(c - 1, limits) + limits.maxContractsPerOrder
    ensures MaxOrders(0, limits) == 0
  {
  }

  lemma {:induction false} NoneTraded(es: seq<Execution>, s: Symbol)
    requires forall i :: 0 <= i < |es| ==> es[i].symbol != s
    ensures SumSigned(es, s) == 0
  {
    if es != [] {
      NoneTraded(es[..|es| - 1], s);
    }
  }

  lemma UntradedUnmoved(fills: seq<Execution>, es: seq<Execution>, s: Symbol)
    requires s !in Traded(fills + es)
    ensures s !in Traded(fills) && SumSigned(es, s) == 0
  {
    var all := fills + es;
    assert forall i :: 0 <= i < |all| ==> all[i].symbol != s;
    assert forall i :: 0 <= i < |fills| ==> fills[i] == all[i];
    assert forall i :: 0 <= i < |es| ==> es[i] == all[|fills| + i];
    NoneTraded(es, s);
  }

  /** A bar moves the position of its symbol by what it fills, and nothing else. */
  lemma RevealMoves(st: Backtest, f: Frame, setup: Setup, s: Symbol)
    requires Inv(st.sys) && UntradedIsFlat(st, s)
    ensures
      var r, ps := BarRevealed(st, f, setup), Working(st, s);
      && PositionNow(r, s) == PositionNow(st, s)
         + (if s == f.bar.symbol then SumSigned(Executions(ps, f.bar, f.quotes, setup.terms), s) else 0)
      && Working(r, s) == (if s == f.bar.symbol then Survivors(ps, f.bar, setup.terms) else ps)
      && Known(r.risk, s) == Known(st.risk, s)
      && UntradedIsFlat(r, s)
  {
    var ps := Working(st, f.bar.symbol);
    var es := Executions(ps, f.bar, f.quotes, setup.terms);
    var r := BarRevealed(st, f, setup);
    Revealed(st, f, setup);
    ReplayPosition(st.sys.desk.book, es, setup.terms.multipliers, s);
    if s != f.bar.symbol {
      OtherSymbolsUnmoved(ps, f.bar, f.quotes, setup.terms, s);
    }
    hide Executions, Replay, Survivors, Drained, Inv;
    if s !in Traded(r.sys.desk.fills) {
      UntradedUnmoved(st.sys.desk.fills, es, s);
    }
  }

  /** The arithmetic of a bar: nothing is added to filled and working exposure. */
  lemma CapAfterBar(side: Side, position: int, ps: seq<Pending>, filled: int, rest: seq<Pending>, n: int, slack: int,
                    limits: RiskLimits)
    requires CappedOn(side, position, ps, n, slack, limits) && AllModest(ps, limits)
    requires |rest| <= |ps| <= n && 0 <= limits.maxContractsPerOrder
    requires Signed(side, filled) + SideSum(rest, side) <= SideSum(ps, side)
    ensures CappedOn(side, position + filled, rest, n, slack, limits)
    ensures DriftsOn(side, position + filled, rest, position, n, limits)
  {
    hide MaxOrders, SideSum;
    SideSumBound(ps, side, limits);
    Scale(|ps|, n + |rest|, limits);
  }

  lemma RevealKeepsCap(st: Backtest, f: Frame, setup: Setup, s: Symbol, n: int, slack: int)
    requires Inv(st.sys) && 0 <= setup.limits.maxContractsPerOrder
    requires Capped(st, s, n, slack, setup.limits) && |Working(st, s)| <= n
    requires Known(st.risk, s) == PositionNow(st, s) && UntradedIsFlat(st, s)
    ensures
      var r := BarRevealed(st, f, setup);
      && Inv(r.sys) && Capped(r, s, n, slack, setup.limits) && Drifts(r, s, n, setup.limits) && UntradedIsFlat(r, s)
  {
    var ps := Working(st, s);
    assert Unfilled(ps);
    hide BarRevealed, Inv, UntradedIsFlat, SideSum, Working, PositionNow, Known, MaxOrders, CappedOn, DriftsOn,
         AllModest, Executions, Survivors;
    Revealed(st, f, setup);
    RevealMoves(st, f, setup, s);
    var r := BarRevealed(st, f, setup);
    forall side
      ensures CappedOn(side, PositionNow(r, s), Working(r, s), n, slack, setup.limits)
      ensures DriftsOn(side, PositionNow(r, s), Working(r, s), Known(r.risk, s), n, setup.limits)
      ensures AllModest(Working(r, s), setup.limits)
    {
      if s == f.bar.symbol {
        var filled := SumSigned(Executions(ps, f.bar, f.quotes, setup.terms), s);
        BarConserves(ps, f.bar, f.quotes, setup.terms, setup.limits, side);
        CapAfterBar(side, PositionNow(st, s), ps, filled, Survivors(ps, f.bar, setup.terms), n, slack, setup.limits);
      } else {
        CapAfterBar(side, PositionNow(st, s), ps, 0, ps, n, slack, setup.limits);
      }
    }
    assert AllModest(Working(r, s), setup.limits) by {
      assert CappedOn(Buy, PositionNow(r, s), Working(r, s), n, slack, setup.limits);
    }
  }

  /** With no slack, the sign of the target is the one the position check assumes. */
  predicate Covers(slack: int, r: Reaction) {
    slack == 2 || (slack == 0 && 0 <= r.signal.targetQuantity)
  }

  /** An order that passed the checks against this known position, whatever its target's sign. */
  predicate Passed(p: Pending, known: int, slack: int, limits: RiskLimits) {
    && 0 <= p.remaining <= limits.maxContractsPerOrder
    && Signed(p.request.side, known) + p.remaining <= limits.maxContractsPerSymbol + MaxOrders(slack, limits)
  }

  ghost predicate MayGrow(before: seq<Pending>, after: seq<Pending>, known: int, slack: int, limits: RiskLimits) {
    after == before || exists p :: after == before + [p] && Passed(p, known, slack, limits)
  }

  /** The arithmetic of an approval: the view is within the limit, and not far off. */
  lemma CapAfterApproval(side: Side, position: int, known: int, ps: seq<Pending>, p: Pending, n: int, slack: int,
                         limits: RiskLimits)
    requires CappedOn(side, position, ps, n, slack, limits) && DriftsOn(side, position, ps, known, n, limits)
    requires Passed(p, known, slack, limits) && 0 <= limits.maxContractsPerOrder
    ensures CappedOn(side, position, ps + [p], n, slack, limits)
    ensures DriftsOn(side, position, ps + [p], known, n, limits)
  {
    assert (ps + [p])[..|ps|] == ps;
    assert SideSum(ps + [p], side) == SideSum(ps, side) + (if p.request.side == side then p.remaining else 0);
    OneOrder(n + |ps| + 1, limits);
    TwoSizes(n + |ps|, slack, limits);
    Scale(n + |ps| + slack, Max(2 * n - 1, n + |ps|) + slack, limits);
    Scale(Max(2 * n - 1, n + |ps| - 1) + slack, Max(2 * n - 1, n + |ps|) + slack, limits);
    hide MaxOrders, SideSum;
  }

  function NewPending(y: System, sig: Signal): Pending {
    Pending(RequestFor(y.nextId, sig),
            if sig.symbol in y.desk.lastClose then y.desk.lastClose[sig.symbol] else 0.0,
            Abs(sig.targetQuantity), 0)
  }

  lemma SubmitAdds(y: System, sig: Signal, s: Symbol)
    requires SoundDesk(y.desk)
    ensures PendingOf(SubmitTo(y, sig).desk, s)
         == PendingOf(y.desk, s) + (if s == sig.symbol then [NewPending(y, sig)] else [])
  {
  }

  /** The signed check, said of the order that is sent: a negative target counts twice. */
  lemma ApprovedPasses(st: Backtest, r: Reaction, setup: Setup, slack: int)
    requires Covers(slack, r) && Approves(st, r, setup)
    ensures Passed(NewPending(st.sys, r.signal), Known(st.risk, r.signal.symbol), slack, setup.limits)
  {
    hide HasRoom, Trimmed, MarginCovers, OrderNotional, GrossExposure;
    assert MaxOrders(0, setup.limits) == 0;
    assert MaxOrders(2, setup.limits) == 2 * setup.limits.maxContractsPerOrder;
  }

  /** An approval adds one working order; a refusal leaves the symbol alone. */
  lemma ReactMoves(st: Backtest, r: Reaction, setup: Setup, s: Symbol, slack: int)
    requires SoundDesk(st.sys.desk) && Covers(slack, r)
    ensures MayGrow(Working(st, s), Working(React(st, r, setup), s), Known(st.risk, s), slack, setup.limits)
  {
    hide Approves, SubmitTo, PendingOf, Passed, NewPending;
    if Approves(st, r, setup) {
      SubmitAdds(st.sys, r.signal, s);
      ApprovedPasses(st, r, setup, slack);
    }
  }

  /** Nothing is filled and nothing is learned by reacting. */
  lemma ReactKeepsRest(st: Backtest, r: Reaction, setup: Setup, s: Symbol)
    requires Inv(st.sys)
    ensures
      var q := React(st, r, setup);
      && Inv(q.sys) && q.sys.desk.fills == st.sys.desk.fills
      && PositionNow(q, s) == PositionNow(st, s) && Known(q.risk, s) == Known(st.risk, s)
  {
    assert SoundDesk(st.sys.desk);
    SubmitKeeps(st.sys, r.signal);
    hide Inv, Approves;
  }

  lemma GrowthKeepsCap(position: int, known: int, before: seq<Pending>, after: seq<Pending>, n: int, slack: int,
                       limits: RiskLimits)
    requires 0 <= limits.maxContractsPerOrder && AllModest(before, limits)
    requires forall side :: CappedOn(side, position, before, n, slack, limits)
    requires forall side :: DriftsOn(side, position, before, known, n, limits)
    requires MayGrow(before, after, known, slack, limits)
    ensures AllModest(after, limits)
    ensures forall side :: CappedOn(side, position, after, n, slack, limits)
    ensures forall side :: DriftsOn(side, position, after, known, n, limits)
  {
    if after != before {
      var p :| after == before + [p] && Passed(p, known, slack, limits);
      hide CappedOn, DriftsOn;
      forall side
        ensures CappedOn(side, position, after, n, slack, limits) && DriftsOn(side, position, after, known, n, limits)
      {
        CapAfterApproval(side, position, known, before, p, n, slack, limits);
      }
    }
  }

  /** What holds while the reactions to a bar are handled. */
  ghost predicate Reacting(st: Backtest, s: Symbol, n: int, slack: int, limits: RiskLimits) {
    Inv(st.sys) && Capped(st, s, n, slack, limits) && Drifts(st, s, n, limits) && UntradedIsFlat(st, s)
  }

  lemma ReactKeepsCap(st: Backtest, r: Reaction, setup: Setup, s: Symbol, n: int, slack: int)
    requires Reacting(st, s, n, slack, setup.limits) && Covers(slack, r) && 0 <= setup.limits.maxContractsPerOrder
    ensures SoundDesk(st.sys.desk) && Reacting(React(st, r, setup), s, n, slack, setup.limits)
  {
    assert SoundDesk(st.sys.desk);
    hide React, Inv, PositionNow, Working, Known, CappedOn, DriftsOn, MayGrow, Covers, AllModest;
    ReactMoves(st, r, setup, s, slack);
    ReactKeepsRest(st, r, setup, s);
    var q := React(st, r, setup);
    GrowthKeepsCap(PositionNow(st, s), Known(st.risk, s), Working(st, s), Working(q, s), n, slack, setup.limits);
  }

  lemma {:induction false} ReactAllKeepsCap(st: Backtest, rs: seq<Reaction>, setup: Setup, s: Symbol, n: int,
                                            slack: int)
    requires SoundDesk(st.sys.desk) && Reacting(st, s, n, slack, setup.limits)
    requires 0 <= setup.limits.maxContractsPerOrder
    requires forall i :: 0 <= i < |rs| ==> Covers(slack, rs[i])
    ensures Reacting(ReactAll(st, rs, setup), s, n, slack, setup.limits)
  {
    hide Reacting, React, SoundDesk, Covers;
    if rs != [] {
      ReactAllKeepsCap(st, rs[..|rs| - 1], setup, s, n, slack);
      ReactKeepsCap(ReactAll(st, rs[..|rs| - 1], setup), rs[|rs| - 1], setup, s, n, slack);
    }
  }

  /** What holds between bars. */
  ghost predicate Steady(st: Backtest, s: Symbol, n: int, slack: int, limits: RiskLimits) {
    && Inv(st.sys) && Capped(st, s, n, slack, limits)
    && UntradedIsFlat(st, s) && Known(st.risk, s) == PositionNow(st, s)
  }

  lemma SettleKeepsCap(st: Backtest, f: Frame, setup: Setup, s: Symbol, n: int, slack: int)
    requires Reacting(st, s, n, slack, setup.limits)
    ensures Steady(BarSettled(st, f, setup), s, n, slack, setup.limits)
  {
    hide Inv, CappedOn, DriftsOn, AllModest;
    var q := BarSettled(st, f, setup);
    assert q.sys == st.sys;
    assert PositionNow(q, s) == PositionNow(st, s) && Working(q, s) == Working(st, s);
    assert Known(q.risk, s) == PositionNow(q, s);
  }

  lemma BarKeepsCap(st: Backtest, f: Frame, setup: Setup, s: Symbol, n: int, slack: int)
    requires 0 <= setup.limits.maxContractsPerOrder
    requires Steady(st, s, n, slack, setup.limits) && |Working(st, s)| <= n
    requires forall i :: 0 <= i < |f.reactions| ==> Covers(slack, f.reactions[i])
    ensures SoundDesk(st.sys.desk) && Steady(BarStep(st, f, setup), s, n, slack, setup.limits)
  {
    assert SoundDesk(st.sys.desk);
    hide Inv, Capped, Drifts, UntradedIsFlat, Working, PositionNow, Known, BarRevealed, BarSettled, ReactAll, Covers;
    RevealKeepsCap(st, f, setup, s, n, slack);
    var r := BarRevealed(st, f, setup);
    ReactAllKeepsCap(r, f.reactions, setup, s, n, slack);
    SettleKeepsCap(ReactAll(r, f.reactions, setup), f, setup, s, n, slack);
  }

  // ---- Whole backtests ----

  /** At no bar boundary of the run do more than `n` orders work in one symbol. */
  ghost predicate AtMostWorking(equity: real, date: int, fs: seq<Frame>, setup: Setup, n: int) {
    forall m, s :: 0 <= m <= |fs| ==> |Working(Replayed(Opening(equity, date), fs[..m], setup), s)| <= n
  }

  predicate AllCovered(fs: seq<Frame>, slack: int) {
    forall i, j :: 0 <= i < |fs| && 0 <= j < |fs[i].reactions| ==> Covers(slack, fs[i].reactions[j])
  }

  lemma OpeningIsSteady(equity: real, date: int, limits: RiskLimits, s: Symbol, n: int, slack: int)
    requires 1 <= n && 0 <= slack && 0 <= limits.maxContractsPerOrder && 0 <= limits.maxContractsPerSymbol
    ensures Steady(Opening(equity, date), s, n, slack, limits)
  {
    var bound := Max(2 * n - 1, n - 1) + slack;
    Scale(0, bound, limits);
    OneOrder(0, limits);
    assert SideSum([], Buy) == 0 == SideSum([], Sell);
    hide MaxOrders;
  }

  lemma {:induction false} ReplayIsSteady(equity: real, date: int, fs: seq<Frame>, setup: Setup, s: Symbol, n: int,
                                          slack: int, m: nat)
    requires m <= |fs| && 1 <= n && 0 <= slack
    requires 0 <= setup.limits.maxContractsPerOrder && 0 <= setup.limits.maxContractsPerSymbol
    requires AllCovered(fs, slack) && AtMostWorking(equity, date, fs, setup, n)
    ensures Steady(Replayed(Opening(equity, date), fs[..m], setup), s, n, slack, setup.limits)
  {
    hide Steady, Opening, BarStep, SoundDesk, Working, Covers;
    OpeningIsSound(equity, date);
    OpeningIsSteady(equity, date, setup.limits, s, n, slack);
    if m > 0 {
      ReplayIsSteady(equity, date, fs, setup, s, n, slack, m - 1);
      ReplayNext(Opening(equity, date), fs, m - 1, setup);
      var q := Replayed(Opening(equity, date), fs[..m - 1], setup);
      if !q.stopped {
        BarKeepsCap(q, fs[m - 1], setup, s, n, slack);
      }
    }
  }

  lemma SteadyIsBounded(st: Backtest, s: Symbol, n: int, slack: int, limits: RiskLimits)
    requires Steady(st, s, n, slack, limits) && |Working(st, s)| <= n && 0 <= limits.maxContractsPerOrder
    ensures Abs(PositionNow(st, s)) <= limits.maxContractsPerSymbol + MaxOrders(2 * n - 1 + slack, limits)
  {
    hide Inv, UntradedIsFlat, PositionNow, Working, MaxOrders, SideSum;
    SideSumBound(Working(st, s), Buy, limits);
    SideSumBound(Working(st, s), Sell, limits);
    assert CappedOn(Buy, PositionNow(st, s), Working(st, s), n, slack, limits);
    assert CappedOn(Sell, PositionNow(st, s), Working(st, s), n, slack, limits);
  }

  lemma BoundWithSlack(equity: real, date: int, fs: seq<Frame>, setup: Setup, n: int, slack: int, s: Symbol)
    requires 1 <= n && 0 <= slack
    requires 0 <= setup.limits.maxContractsPerOrder && 0 <= setup.limits.maxContractsPerSymbol
    requires AllCovered(fs, slack) && AtMostWorking(equity, date, fs, setup, n)
    ensures Abs(PositionNow(Replayed(Opening(equity, date), fs, setup), s))
         <= setup.limits.maxContractsPerSymbol + MaxOrders(2 * n - 1 + slack, setup.limits)
  {
    hide Steady, Opening, BarStep, SoundDesk, Working, AllCovered, MaxOrders, PositionNow, Replayed;
    OpeningIsSound(equity, date);
    assert fs[..|fs|] == fs;
    ReplayIsSteady(equity, date, fs, setup, s, n, slack, |fs|);
    SteadyIsBounded(Replayed(Opening(equity, date), fs, setup), s, n, slack, setup.limits);
  }

  /** No signal asks for a negative quantity. */
  predicate TargetsSigned(fs: seq<Frame>) {
    forall i, j :: 0 <= i < |fs| && 0 <= j < |fs[i].reactions| ==> 0 <= fs[i].reactions[j].signal.targetQuantity
  }

  lemma SignedIsCovered(fs: seq<Frame>)
    requires TargetsSigned(fs)
    ensures AllCovered(fs, 0)
  {
  }

  lemma AnyIsCovered(fs: seq<Frame>)
    ensures AllCovered(fs, 2)
  {
  }

  lemma SizeOf(c: int, limits: RiskLimits)
    ensures MaxOrders(c, limits) == c * limits.maxContractsPerOrder
  {
  }

  /**
   Over any backtest in which at most `n` orders of a symbol work at a time, of any type
   and time in force, and no target is negative, positions stay within the per-symbol
   limit plus 2n - 1 orders. For n = 1 that is the limit plus one order.
   */
  lemma PositionBound(equity: real, date: int, fs: seq<Frame>, setup: Setup, n: int, s: Symbol)
    requires 1 <= n && 0 <= setup.limits.maxContractsPerOrder && 0 <= setup.limits.maxContractsPerSymbol
    requires TargetsSigned(fs) && AtMostWorking(equity, date, fs, setup, n)
    ensures Abs(PositionNow(Replayed(Opening(equity, date), fs, setup), s))
         <= setup.limits.maxContractsPerSymbol + (2 * n - 1) * setup.limits.maxContractsPerOrder
  {
    hide *;
    SignedIsCovered(fs);
    OpeningIsSound(equity, date);
    BoundWithSlack(equity, date, fs, setup, n, 0, s);
    SizeOf(2 * n - 1, setup.limits);
  }

  /** Whatever the targets: a negative one passes the signed check two orders further out. */
  lemma AnyTargetBound(equity: real, date: int, fs: seq<Frame>, setup: Setup, n: int, s: Symbol)
    requires 1 <= n && 0 <= setup.limits.maxContractsPerOrder && 0 <= setup.limits.maxContractsPerSymbol
    requires AtMostWorking(equity, date, fs, setup, n)
    ensures Abs(PositionNow(Replayed(Opening(equity, date), fs, setup), s))
         <= setup.limits.maxContractsPerSymbol + (2 * n + 1) * setup.limits.maxContractsPerOrder
  {
    hide *;
    AnyIsCovered(fs);
    OpeningIsSound(equity, date);
    BoundWithSlack(equity, date, fs, setup, n, 2, s);
    SizeOf(2 * n + 1, setup.limits);
  }

  /** The check bounds the order that is really sent exactly when its target is not negative. */
  lemma CheckMatchesOrder(sig: Signal)
    ensures Signed(sig.side, sig.targetQuantity) == Signed(sig.side, RequestFor(0, sig).quantity)
            <==> 0 <= sig.targetQuantity
  {
  }

  /**
   Holding one contract under a limit of one, a purchase with a target of minus one is
   checked as a sale, passes, and buys a second.
   */
  lemma NegativeTargetPasses(v: RiskView, limits: RiskLimits)
    requires v.positions == map[0 := 1]
    requires limits.maxContractsPerOrder == 1 && limits.maxContractsPerSymbol == 1
    ensures
      var sig := Signal(0, Buy, -1, Market, None, Day);
      && PassesSizeAndPosition(v, limits, sig)
      && Known(v, 0) + Signed(sig.side, RequestFor(0, sig).quantity) == 2
  {
  }

  // ---- When one check is enough ----

  /** The two checks that bound positions: order size, and projected position. */
  predicate PassesSizeAndPosition(v: RiskView, limits: RiskLimits, sig: Signal) {
    SizeAllowed(limits, sig) && Abs(Projected(v, sig)) <= limits.maxContractsPerSymbol
  }

  /** No order of this side that passes the two checks takes the exposure over the limit. */
  ghost predicate SafeFor(v: RiskView, limits: RiskLimits, s: Symbol, side: Side, exposure: int) {
    forall sig: Signal :: sig.symbol == s && sig.side == side && 0 < sig.targetQuantity
                          && PassesSizeAndPosition(v, limits, sig) ==>
      Abs(exposure + Signed(side, sig.targetQuantity)) <= limits.maxContractsPerSymbol
  }

  /** The largest order of a side that the two checks let through, and the smallest. */
  function Largest(known: int, limits: RiskLimits, side: Side): int {
    Min(limits.maxContractsPerOrder, limits.maxContractsPerSymbol - Signed(side, known))
  }

  function Smallest(known: int, limits: RiskLimits, side: Side): int {
    Max(1, -limits.maxContractsPerSymbol - Signed(side, known))
  }

  /** Either no order of the side passes, or there is room for the largest that does. */
  predicate HasRoomFor(known: int, limits: RiskLimits, side: Side, exposure: int) {
    Smallest(known, limits, side) <= Largest(known, limits, side) ==>
      Signed(side, exposure) + Largest(known, limits, side) <= limits.maxContractsPerSymbol
  }

  lemma ChecksAsRange(v: RiskView, limits: RiskLimits, sig: Signal)
    requires 0 < sig.targetQuantity
    ensures PassesSizeAndPosition(v, limits, sig) <==>
            Smallest(Known(v, sig.symbol), limits, sig.side) <= sig.targetQuantity
            <= Largest(Known(v, sig.symbol), limits, sig.side)
  {
  }

  /**
   Exactly when the position check protects the limit: `exposure` is what is filled
   and working, `Known` what the risk engine was last told. Every order that passes
   keeps the exposure within the limit if and only if there is room for the largest
   one that passes.
   */
  lemma CheckProtectsIff(v: RiskView, limits: RiskLimits, s: Symbol, side: Side, exposure: int)
    requires Abs(exposure) <= limits.maxContractsPerSymbol
    ensures SafeFor(v, limits, s, side, exposure) <==> HasRoomFor(Known(v, s), limits, side, exposure)
  {
    var largest := Signal(s, side, Largest(Known(v, s), limits, side), Market, None, Day);
    forall sig: Signal | sig.symbol == s && sig.side == side && 0 < sig.targetQuantity
      ensures PassesSizeAndPosition(v, limits, sig) <==>
              Smallest(Known(v, s), limits, side) <= sig.targetQuantity <= largest.targetQuantity
    {
      ChecksAsRange(v, limits, sig);
    }
    if Smallest(Known(v, s), limits, side) <= largest.targetQuantity {
      assert PassesSizeAndPosition(v, limits, largest);
    }
  }

  /** With an up-to-date view and nothing working, the check does protect the limit. */
  lemma FreshViewProtects(v: RiskView, limits: RiskLimits, s: Symbol, side: Side)
    requires Abs(Known(v, s)) <= limits.maxContractsPerSymbol
    ensures SafeFor(v, limits, s, side, Known(v, s))
  {
    CheckProtectsIff(v, limits, s, side, Known(v, s));
  }
}
