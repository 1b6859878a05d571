/**
 A backtest from its constructors to its result: what the replay loop of a freshly
 wired engine returns has all the properties proved of replays.
 */
module Results {
  import opened Core
  import opened Ledger
  import opened Simulator
  import opened Breaker
  import opened Risk
  import opened Engine
  import opened Lookahead
  import opened Exposure
  import opened Performance
  import opened Halting
  import opened Runner

  lemma {:induction false} InsertKeepsDistinct(bars: seq<Bar>, b: Bar)
    requires DistinctBars(bars) && forall x :: x in bars ==> !SameInstant(x, b)
    ensures DistinctBars(Insert(bars, b))
    ensures forall x :: x in Insert(bars, b) <==> x in bars || x == b
  {
    if bars != [] && !NotAfter(bars[|bars| - 1], b) {
      var init, last := bars[..|bars| - 1], bars[|bars| - 1];
      assert bars == init + [last];
      InsertKeepsDistinct(init, b);
      var longer := Insert(init, b);
      assert last in bars;
      forall i | 0 <= i < |longer| ensures !SameInstant(longer[i], last) {
        var x := longer[i];
        assert x in longer;
        if x != b {
          var k :| 0 <= k < |init| && init[k] == x;
          assert bars[k] == x && bars[|init|] == last;
        }
      }
    }
  }

  lemma {:induction false} SortedKeepsDistinct(bars: seq<Bar>)
    requires DistinctBars(bars)
    ensures DistinctBars(Sorted(bars))
    ensures forall x :: x in Sorted(bars) <==> x in bars
  {
    if bars != [] {
      var init, last := bars[..|bars| - 1], bars[|bars| - 1];
      assert bars == init + [last];
      SortedKeepsDistinct(init);
      InsertKeepsDistinct(Sorted(init), last);
    }
  }

  /** The frames of a run are in replay order, and distinct when its bars are. */
  lemma FramesInOrder(bars: seq<Bar>, quotes: seq<Quotes>, reactions: seq<seq<Reaction>>)
    requires |Sorted(bars)| == |quotes| == |reactions|
    ensures InReplayOrder(BarsOf(Framed(Sorted(bars), quotes, reactions)))
    ensures DistinctBars(bars) ==> DistinctBars(BarsOf(Framed(Sorted(bars), quotes, reactions)))
  {
    SortedIsOrdered(bars);
    if DistinctBars(bars) {
      SortedKeepsDistinct(bars);
    }
    FramedBars(Sorted(bars), quotes, reactions);
    hide Sorted, InReplayOrder, DistinctBars;
  }

  /** At most `n` orders of a symbol work at a time. */
  ghost predicate AtMost(n: int, equity: real, date: int, fs: seq<Frame>, setup: Setup) {
    && 1 <= n && 0 <= setup.limits.maxContractsPerOrder && 0 <= setup.limits.maxContractsPerSymbol
    && AtMostWorking(equity, date, fs, setup, n)
  }

  /** Every position is within the limit and so many orders more. */
  ghost predicate Bounded(final: Backtest, orders: int, limits: RiskLimits) {
    forall s :: Abs(PositionNow(final, s)) <= limits.maxContractsPerSymbol + orders * limits.maxContractsPerOrder
  }

  /** Every open trade is what the fills of the run say it is. */
  ghost predicate HoldingsFollowFills(final: Backtest, terms: Terms) {
    forall s ::
      FollowsFills(HoldingIn(final.sys.desk.book, s), final.sys.desk.fills, s, MultiplierOf(terms.multipliers, s))
  }

  /** All that is proved of replays, of one final state. */
  ghost predicate Trustworthy(final: Backtest, equity: real, date: int, fs: seq<Frame>, setup: Setup) {
    && Balanced(final.sys.desk.book, equity, final.sys.desk.fills, setup.terms.multipliers)
    && HoldingsFollowFills(final, setup.terms) && Charged(final.sys.desk.fills, setup.terms)
    && Explained(final)
    && (0.0 < equity && IsLimit(setup.drawdownLimit) ==> HaltsOnBreach(final, BarsOf(fs), setup.drawdownLimit))
    && final.curve != [] && final.curve[0] == equity
    && (DistinctBars(BarsOf(fs)) ==> forall i :: 0 <= i < |final.sys.desk.fills| ==> Unforeseen(final, fs, i))
    && forall n :: AtMost(n, equity, date, fs, setup) ==>
         && Bounded(final, 2 * n + 1, setup.limits)
         && (TargetsSigned(fs) ==> Bounded(final, 2 * n - 1, setup.limits))
  }

  lemma ReplayIsTrustworthy(equity: real, date: int, fs: seq<Frame>, setup: Setup)
    requires InReplayOrder(BarsOf(fs))
    ensures Trustworthy(Replayed(Opening(equity, date), fs, setup), equity, date, fs, setup)
  {
    ReplayBalances(equity, date, fs, setup);
    ReportExplainsEquity(equity, date, fs, setup);
    if 0.0 < equity && IsLimit(setup.drawdownLimit) {
      BacktestHaltsOnBreach(equity, date, fs, setup);
    }
    hide Balanced, HoldingsFollowFills, Charged, HaltsOnBreach, Explained, Unforeseen, InReplayOrder, DistinctBars,
         AtMost, Bounded, TargetsSigned, Replayed, Opening;
    OpeningIsSound(equity, date);
    var final := Replayed(Opening(equity, date), fs, setup);
    if DistinctBars(BarsOf(fs)) {
      forall i | 0 <= i < |final.sys.desk.fills| ensures Unforeseen(final, fs, i) {
        NoLookahead(equity, date, fs, setup, i);
      }
    }
    forall n | AtMost(n, equity, date, fs, setup)
      ensures Bounded(final, 2 * n + 1, setup.limits)
      ensures TargetsSigned(fs) ==> Bounded(final, 2 * n - 1, setup.limits)
    {
      RunIsBounded(equity, date, fs, setup, n);
    }
  }

  lemma RunIsBounded(equity: real, date: int, fs: seq<Frame>, setup: Setup, n: int)
    requires AtMost(n, equity, date, fs, setup)
    ensures
      var final := Replayed(Opening(equity, date), fs, setup);
      && Bounded(final, 2 * n + 1, setup.limits)
      && (TargetsSigned(fs) ==> Bounded(final, 2 * n - 1, setup.limits))
  {
    hide AtMostWorking, TargetsSigned, Replayed, Opening, PositionNow;
    OpeningIsSound(equity, date);
    var final, limits := Replayed(Opening(equity, date), fs, setup), setup.limits;
    forall s
      ensures Abs(PositionNow(final, s)) <= limits.maxContractsPerSymbol + (2 * n + 1) * limits.maxContractsPerOrder
    {
      AnyTargetBound(equity, date, fs, setup, n, s);
    }
    if TargetsSigned(fs) {
      forall s
        ensures Abs(PositionNow(final, s)) <= limits.maxContractsPerSymbol + (2 * n - 1) * limits.maxContractsPerOrder
      {
        PositionBound(equity, date, fs, setup, n, s);
      }
    }
  }

  lemma ReplayBalances(equity: real, date: int, fs: seq<Frame>, setup: Setup)
    ensures
      var final := Replayed(Opening(equity, date), fs, setup);
      && Balanced(final.sys.desk.book, equity, final.sys.desk.fills, setup.terms.multipliers)
      && HoldingsFollowFills(final, setup.terms) && Charged(final.sys.desk.fills, setup.terms)
      && final.curve != [] && final.curve[0] == equity
  {
    hide Balanced, Replayed, FollowsFills, Replay, MultiplierOf, Charged;
    var final, multipliers := Replayed(Opening(equity, date), fs, setup), setup.terms.multipliers;
    assert fs[..|fs|] == fs;
    ReplayKeepsAccounts(equity, date, fs, |fs|, setup);
    assert Performance.Accounted(final, equity, setup.terms);
    BooksBalance(equity, final.sys.desk.fills, multipliers);
    forall s
      ensures FollowsFills(HoldingIn(final.sys.desk.book, s), final.sys.desk.fills, s, MultiplierOf(multipliers, s))
    {
      OpenTradeFollowsFills(equity, final.sys.desk.fills, multipliers, s);
    }
  }

  /**
   A backtest with a new broker, breaker and risk engine. Its result, and the state it
   comes from, have all that is proved of replays.
   */
  method RunFresh(setup: Setup, equity: real, today: int, bars: seq<Bar>, quotes: seq<Quotes>,
                  reactions: seq<seq<Reaction>>)
    returns (result: Option<BacktestResult>, ghost final: Backtest)
    requires 0.0 < equity && IsLimit(setup.drawdownLimit)
    requires bars != [] && |quotes| == |reactions| == |bars|
    ensures |Sorted(bars)| == |bars|
    ensures Trustworthy(final, equity, SessionDay(Sorted(bars)[0].ts), Framed(Sorted(bars), quotes, reactions), setup)
    ensures result.Some?
      && Summarizes(result.value, final, Sorted(bars))
      && result.value.equityCurve != [] && result.value.equityCurve[0] == equity
  {
    var broker := new MarketSimulatorBroker(equity, setup.terms);
    var breaker := new DrawdownCircuitBreaker(setup.drawdownLimit, equity, today);
    var risk := new RiskEngine(setup.limits, setup.margin, breaker);
    var engine := new BacktestEngine(setup, broker, risk);
    ghost var start := engine.View([equity], false);
    assert broker.equity == broker.View().book.equity == equity;
    assert Begun(start, Sorted(bars)[0]) == Opening(equity, SessionDay(Sorted(bars)[0].ts));
    hide Replayed, Framed, Sorted, Trustworthy, InReplayOrder, DistinctBars, Summarizes, StopsOrFinishes, Unmeasurable;
    result, final := engine.Run(bars, quotes, reactions);
    FramesInOrder(bars, quotes, reactions);
    ReplayIsTrustworthy(equity, SessionDay(Sorted(bars)[0].ts), Framed(Sorted(bars), quotes, reactions), setup);
    FramedBars(Sorted(bars), quotes, reactions);
    BreachIsMeasured(final, equity, SessionDay(Sorted(bars)[0].ts), Framed(Sorted(bars), quotes, reactions), setup);
  }

  lemma BreachIsMeasured(final: Backtest, equity: real, date: int, fs: seq<Frame>, setup: Setup)
    requires Trustworthy(final, equity, date, fs, setup) && 0.0 < equity && IsLimit(setup.drawdownLimit)
    ensures final.stopped ==>
      2 <= |final.curve| <= |fs| + 1 && !Unmeasurable(final.curve, BarsOf(fs), |final.curve| - 2)
  {
    hide Balanced, HoldingsFollowFills, Explained, Unforeseen, AtMost, Bounded, Unmeasurable, BreaksAt;
  }
}
