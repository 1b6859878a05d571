/** The replay loop itself, over the mutable broker, manager, risk engine and breaker. */
module Runner {
  import opened Core
  import opened Ledger
  import opened Simulator
  import opened Orders
  import opened Breaker
  import opened Risk
  import opened Engine
  import opened Performance
  import opened Halting

  datatype BacktestResult = BacktestResult(
    equityCurve: seq<real>,
    equityTimestamps: seq<int>,
    trades: seq<TradeRecord>,
    performance: PerformanceReport,
    halted: bool,
    haltReason: Reason
  )

  /** The times of the first `n` points of an equity curve: where it opens, and each bar. */
  function Times(bars: seq<Bar>, n: nat): seq<int>
    requires bars != [] && 1 <= n <= |bars| + 1
  {
    [bars[0].ts] + seq(n - 1, i requires 0 <= i < n - 1 => bars[i].ts)
  }

  /** What a run reports of its final state. */
  ghost predicate Summarizes(result: BacktestResult, final: Backtest, bars: seq<Bar>)
    requires bars != []
  {
    && 2 <= |final.curve| <= |bars| + 1
    && result.equityCurve == final.curve && |result.equityTimestamps| == |final.curve|
    && result.equityTimestamps[0] == bars[0].ts
    && (forall i :: 0 <= i < |final.curve| - 1 ==> result.equityTimestamps[i + 1] == bars[i].ts)
    && result.trades == final.sys.desk.book.trades
    && Describes(result.performance, final.curve, result.trades)
    && result.halted == final.stopped
    && result.haltReason == if final.stopped then final.session.reason else NoReason
  }

  class BacktestEngine {
    const setup: Setup
    const broker: MarketSimulatorBroker
    const orderManager: OrderLifecycleManager
    const risk: RiskEngine
    var lastPrice: map<Symbol, real>
    ghost var steps: nat
    ghost var born: map<OrderId, nat>
    ghost var filledAt: seq<nat>

    ghost predicate Valid()
      reads this, broker, orderManager, risk
    {
      && orderManager.broker == broker && orderManager.Valid()
      && broker.terms == setup.terms
      && risk.limits == setup.limits && risk.margin == setup.margin
      && risk.breaker.maxDailyDrawdownPct == setup.drawdownLimit
      && risk.limiter.limits == setup.limits.rate
    }

    ghost function View(curve: seq<real>, stopped: bool): (st: Backtest)
      requires Valid()
      reads this, broker, orderManager, risk, risk.breaker, risk.limiter
      ensures SoundDesk(st.sys.desk)
    {
      Backtest(orderManager.View(), risk.View(), risk.breaker.View(), lastPrice, curve, stopped,
               steps, born, filledAt)
    }

    constructor (setup: Setup, broker: MarketSimulatorBroker, risk: RiskEngine)
      requires broker.Valid() && broker.terms == setup.terms
      requires risk.limits == setup.limits && risk.margin == setup.margin
      requires risk.breaker.maxDailyDrawdownPct == setup.drawdownLimit
      requires risk.limiter.limits == setup.limits.rate
      ensures Valid() && this.setup == setup && this.broker == broker && this.risk == risk
      ensures View([], false) == Backtest(System(broker.View(), map[], [], 0), risk.View(), risk.breaker.View(),
                                          map[], [], false, 0, map[], [])
    {
      this.setup, this.broker, this.risk := setup, broker, risk;
      orderManager := new OrderLifecycleManager(broker);
      lastPrice, steps, born, filledAt := map[], 0, map[], [];
    }

    /** What is left to add up of the gross exposure. */
    ghost function Unsummed(keys: set<Symbol>): map<Symbol, real>
      reads this, broker
    {
      map s | s in broker.book.open && s in keys ::
        ExposureOf(Position(broker.book, s), s, lastPrice, setup.multipliers)
    }

    method GrossExposureNow() returns (gross: real)
      requires Valid()
      ensures gross == GrossExposure(broker.book, lastPrice, setup.multipliers)
    {
      gross := 0.0;
      var keys := broker.positions.Keys;
      forall s | s in broker.book.open ensures s in keys {
        assert InStep(broker.positions, broker.avgEntryPrice, broker.openTrades, broker.book, s);
      }
      ghost var total := GrossExposure(broker.book, lastPrice, setup.multipliers);
      assert Unsummed(keys) == map s | s in broker.book.open ::
        ExposureOf(Position(broker.book, s), s, lastPrice, setup.multipliers);
      while keys != {}
        invariant keys <= broker.positions.Keys
        invariant gross + SumValues(Unsummed(keys)) == total
        decreases keys
      {
        var s :| s in keys;
        assert InStep(broker.positions, broker.avgEntryPrice, broker.openTrades, broker.book, s);
        var exposure := ExposureOf(broker.positions[s], s, lastPrice, setup.multipliers);
        if s in broker.book.open {
          assert broker.positions[s] == Position(broker.book, s);
          SumValuesRemove(Unsummed(keys), s);
        } else {
          assert exposure == 0.0;
          assert Unsummed(keys) - {s} == Unsummed(keys);
        }
        assert Unsummed(keys - {s}) == Unsummed(keys) - {s};
        gross := gross + exposure;
        keys := keys - {s};
      }
      assert Unsummed({}) == map[];
    }

    method OnSignal(r: Reaction)
      requires Valid()
      modifies this, broker, orderManager, risk.limiter
      ensures Valid()
      ensures forall curve :: View(curve, false) == React(old(View(curve, false)), r, setup)
      ensures steps == old(steps)
    {
      var gross := GrossExposureNow();
      var verdict := risk.CheckOrder(r.signal, broker.equity, gross, r.clock);
      if !verdict.Approved? {
        return;
      }
      var id := orderManager.SubmitOrder(r.signal);
      born := born[id := steps];
    }

    /** A bar of another day opens a new session at the equity before the bar. */
    method RollSession(date: int)
      requires Valid()
      modifies risk.breaker
      ensures Valid()
      ensures risk.breaker.View() ==
        if date != old(risk.breaker.sessionDate) then Reset(old(risk.breaker.View()), broker.equity, date)
        else old(risk.breaker.View())
    {
      if date != risk.breaker.sessionDate {
        risk.breaker.ResetSession(broker.equity, date);
      }
    }

    /** Rolls the session over, records the price, resolves pending orders, drains reports. */
    method RevealBar(f: Frame)
      requires Valid()
      modifies this, broker, orderManager, risk`prices, risk`multipliers, risk.breaker
      ensures Valid()
      ensures forall curve :: View(curve, false) == BarRevealed(old(View(curve, false)), f, setup)
      ensures steps == old(steps)
    {
      hide BarProcessed, Drained, AllInStep, Traded, SoundDesk, MultiplierOf, SessionDay, About, Unfilled, Reset;
      var s, date := f.bar.symbol, SessionDay(f.bar.ts);
      RollSession(date);
      lastPrice := lastPrice[s := f.bar.close];
      risk.UpdateMarketState(s, f.bar.close, MultiplierOf(setup.multipliers, s));
      ghost var before, step := |broker.fills|, steps;
      broker.ProcessBar(f.bar, f.quotes);
      filledAt := filledAt + seq(|broker.fills| - before, _ => step);
      orderManager.ConsumeBrokerEvents();
    }

    lemma PositionsAgree()
      requires Valid()
      ensures broker.positions == map s | s in Traded(broker.fills) :: Position(broker.book, s)
    {
      forall s | s in broker.positions ensures broker.positions[s] == Position(broker.book, s) {
        assert InStep(broker.positions, broker.avgEntryPrice, broker.openTrades, broker.book, s);
      }
    }

    method HandleReactions(rs: seq<Reaction>)
      requires Valid()
      modifies this, broker, orderManager, risk.limiter
      ensures Valid()
      ensures forall curve :: View(curve, false) == ReactAll(old(View(curve, false)), rs, setup)
      ensures steps == old(steps)
    {
      for i := 0 to |rs|
        invariant Valid()
        invariant forall curve :: View(curve, false) == ReactAll(old(View(curve, false)), rs[..i], setup)
        invariant steps == old(steps)
      {
        assert rs[..i + 1][..i] == rs[..i];
        OnSignal(rs[i]);
      }
      assert rs[..|rs|] == rs;
    }

    /**
     Refreshes the risk engine's positions and feeds the breaker. `None` stands
     for the division by zero a zero baseline would raise.
     */
    method SettleBar(f: Frame) returns (equity: real, tripped: Option<bool>)
      requires Valid()
      modifies this`steps, risk`positions, risk.breaker
      ensures Valid()
      ensures forall curve ::
        View(curve + [equity], tripped != Some(false)) == BarSettled(old(View(curve, false)), f, setup)
      ensures Tells(tripped)
    {
      PositionsAgree();
      risk.UpdatePositions(broker.positions);
      steps := steps + 1;
      equity := broker.equity;
      var date := SessionDay(f.bar.ts);
      if !Measurable(risk.breaker.View(), equity, date) {
        tripped := None;
      } else {
        var t := risk.breaker.Update(equity, date);
        tripped := Some(t);
      }
    }

    /** The breaker is halted if the bar tripped it, and not if it could not measure. */
    ghost predicate Tells(tripped: Option<bool>)
      reads risk.breaker
    {
      && (tripped == Some(true) ==> risk.breaker.halted)
      && (tripped == None ==> !risk.breaker.halted)
    }

    /** One bar from the session check to the breaker. */
    method ReplayFrame(f: Frame, curve: seq<real>) returns (longer: seq<real>, tripped: Option<bool>)
      requires Valid()
      modifies this, broker, orderManager, risk, risk.breaker, risk.limiter
      ensures Valid()
      ensures View(longer, tripped != Some(false)) == BarStep(old(View(curve, false)), f, setup)
      ensures |longer| == |curve| + 1 && Tells(tripped)
    {
      hide BarRevealed, ReactAll, BarSettled;
      RevealBar(f);
      HandleReactions(f.reactions);
      var equity;
      equity, tripped := SettleBar(f);
      longer := curve + [equity];
    }

    /** Replays the bars in order until they run out or the breaker trips. */
    method Run(bars: seq<Bar>, quotes: seq<Quotes>, reactions: seq<seq<Reaction>>)
      returns (result: Option<BacktestResult>, ghost final: Backtest)
      requires Valid() && |quotes| == |reactions| == |bars|
      modifies this, broker, orderManager, risk, risk.breaker, risk.limiter
      ensures bars == [] ==> result == None
      ensures bars != [] ==>
        && |Sorted(bars)| == |bars|
        && final == Replayed(Begun(old(View([broker.equity], false)), Sorted(bars)[0]),
                             Framed(Sorted(bars), quotes, reactions), setup)
        && StopsOrFinishes(final, Sorted(bars), setup.drawdownLimit)
        && (result == None <==> final.stopped && Unmeasurable(final.curve, Sorted(bars), |final.curve| - 2))
        && (result.Some? ==> Summarizes(result.value, final, Sorted(bars)))
    {
      hide Replayed, StopsOrFinishes, Unmeasurable, Summarizes, Sorted, Framed, Tells, Times;
      result, final := None, View([], false);
      if bars == [] {
        return;
      }
      var sorted := Sorted(bars);
      assert |sorted| == |bars| by {
        assert |multiset(sorted)| == |multiset(bars)|;
      }
      var curve := [broker.equity];
      risk.breaker.ResetSession(broker.equity, SessionDay(sorted[0].ts));
      ghost var start := View(curve, false);
      var timestamps, tripped;
      curve, timestamps, tripped, final := Loop(sorted, quotes, reactions, curve);
      ViewTells(curve, tripped);
      FramedBars(sorted, quotes, reactions);
      StopsAtFirst(start, Framed(sorted, quotes, reactions), setup);
      UnmeasuredIff(final, sorted, setup.drawdownLimit);
      if tripped == None {
        return None, final;
      }
      var summary := Summarize(curve, timestamps, tripped != Some(false), sorted);
      result := Some(summary);
    }

    /** Replays until the bars run out or a bar stops the run. */
    method Loop(sorted: seq<Bar>, quotes: seq<Quotes>, reactions: seq<seq<Reaction>>, opening: seq<real>)
      returns (curve: seq<real>, timestamps: seq<int>, tripped: Option<bool>, ghost final: Backtest)
      requires Valid() && |quotes| == |reactions| == |sorted| && sorted != [] && |opening| == 1
      modifies this, broker, orderManager, risk, risk.breaker, risk.limiter
      ensures Valid() && final == View(curve, tripped != Some(false))
      ensures final == Replayed(old(View(opening, false)), Framed(sorted, quotes, reactions), setup)
      ensures 2 <= |curve| <= |sorted| + 1 && timestamps == Times(sorted, |curve|)
      ensures Tells(tripped)
    {
      hide BarStep, Replayed, Times, Tells, Framed, SoundDesk;
      curve, timestamps, tripped := opening, [sorted[0].ts], Some(false);
      var i := 0;
      ghost var start := View(curve, false);
      ghost var fs := Framed(sorted, quotes, reactions);
      TimesOn(sorted, 1);
      NothingTold();
      NothingReplayed(start, fs, setup);
      while i < |sorted| && tripped == Some(false)
        invariant 0 <= i <= |sorted| && Valid()
        invariant (i == 0 ==> tripped == Some(false)) && Tells(tripped)
        invariant |curve| == i + 1 && timestamps == Times(sorted, i + 1)
        invariant View(curve, tripped != Some(false)) == Replayed(start, fs[..i], setup)
      {
        ReplayNext(start, fs, i, setup);
        FramedAt(sorted, quotes, reactions, i);
        TimesOn(sorted, i + 1);
        curve, tripped := ReplayFrame(Frame(sorted[i], quotes[i], reactions[i]), curve);
        timestamps := timestamps + [sorted[i].ts];
        i := i + 1;
      }
      final := View(curve, tripped != Some(false));
      if tripped != Some(false) {
        StoppedForGood(start, fs, i, setup);
      }
      assert fs[..|fs|] == fs;
    }

    lemma NothingTold()
      ensures Tells(Some(false))
    {
    }

    lemma ViewTells(curve: seq<real>, tripped: Option<bool>)
      requires Valid() && Tells(tripped)
      ensures
        var st := View(curve, tripped != Some(false));
        tripped == None <==> st.stopped && !st.session.halted
    {
      hide Valid, SoundDesk;
      assert View(curve, tripped != Some(false)).session.halted == risk.breaker.halted;
      if tripped.Some? && tripped.value {
        assert tripped == Some(true);
      }
    }

    method Summarize(curve: seq<real>, timestamps: seq<int>, stopped: bool, ghost sorted: seq<Bar>)
      returns (result: BacktestResult)
      requires Valid() && sorted != [] && 2 <= |curve| <= |sorted| + 1 && timestamps == Times(sorted, |curve|)
      ensures Summarizes(result, View(curve, stopped), sorted)
    {
      hide Describes, Times;
      TimesAre(sorted, |curve|);
      var report := ComputePerformanceReport(curve, broker.trades);
      result := BacktestResult(curve, timestamps, broker.trades, report.value, stopped,
                               if stopped then risk.breaker.haltReason else NoReason);
    }
  }

  lemma TimesOn(bars: seq<Bar>, n: nat)
    requires 1 <= n <= |bars|
    ensures Times(bars, 1) == [bars[0].ts]
    ensures Times(bars, n + 1) == Times(bars, n) + [bars[n - 1].ts]
  {
  }

  lemma TimesAre(bars: seq<Bar>, n: nat)
    requires bars != [] && 1 <= n <= |bars| + 1
    ensures |Times(bars, n)| == n && Times(bars, n)[0] == bars[0].ts
    ensures forall i :: 0 <= i < n - 1 ==> Times(bars, n)[i + 1] == bars[i].ts
  {
  }

  function Framed(bars: seq<Bar>, quotes: seq<Quotes>, reactions: seq<seq<Reaction>>): (fs: seq<Frame>)
    requires |bars| == |quotes| == |reactions|
    ensures |fs| == |bars|
  {
    seq(|bars|, i requires 0 <= i < |bars| => Frame(bars[i], quotes[i], reactions[i]))
  }

  lemma FramedAt(bars: seq<Bar>, quotes: seq<Quotes>, reactions: seq<seq<Reaction>>, i: nat)
    requires i < |bars| == |quotes| == |reactions|
    ensures Framed(bars, quotes, reactions)[i] == Frame(bars[i], quotes[i], reactions[i])
  {
  }

  lemma NothingReplayed(st: Backtest, fs: seq<Frame>, setup: Setup)
    requires SoundDesk(st.sys.desk)
    ensures Replayed(st, fs[..0], setup) == st
  {
  }

  lemma FramedBars(bars: seq<Bar>, quotes: seq<Quotes>, reactions: seq<seq<Reaction>>)
    requires |bars| == |quotes| == |reactions|
    ensures BarsOf(Framed(bars, quotes, reactions)) == bars
  {
  }

  /** The session opens on the day of the first bar with the broker's equity. */
  function Begun(st: Backtest, first: Bar): Backtest {
    st.(session := Reset(st.session, st.sys.desk.book.equity, SessionDay(first.ts)))
  }

  lemma {:induction false} StoppedForGood(st: Backtest, fs: seq<Frame>, n: nat, setup: Setup)
    requires SoundDesk(st.sys.desk) && n <= |fs|
    requires Replayed(st, fs[..n], setup).stopped
    ensures Replayed(st, fs, setup) == Replayed(st, fs[..n], setup)
  {
    if n == |fs| {
      assert fs[..n] == fs;
    } else {
      assert fs[..|fs| - 1][..n] == fs[..n];
      StoppedForGood(st, fs[..|fs| - 1], n, setup);
    }
  }
}
