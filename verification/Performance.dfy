/** Performance figures of a backtest, and how they tie back to its accounts. */
module Performance {
  import opened Core
  import Arith
  import opened Ledger
  import opened Simulator
  import opened Orders
  import opened Engine
  import opened Lookahead

  // ---- Expectancy ----

  /** The trades on one side of the win/loss divide; a flat trade counts as a loss. */
  function Split(ts: seq<TradeRecord>, wins: bool): seq<TradeRecord> {
    if ts == [] then []
    else
      var t := ts[|ts| - 1];
      Split(ts[..|ts| - 1], wins) + (if (t.pnl > 0.0) == wins then [t] else [])
  }

  function Ratio(x: real, n: nat): real {
    if n > 0 then x / n as real else 0.0
  }

  function GrossProfit(ts: seq<TradeRecord>): real {
    ClosedPnl(Split(ts, true))
  }

  function GrossLoss(ts: seq<TradeRecord>): real {
    var sum := ClosedPnl(Split(ts, false));
    if sum < 0.0 then -sum else sum
  }

  /** The chance of a win times the average win, less the chance of a loss times the average loss. */
  function ExpectancyOf(profit: real, loss: real, wins: nat, losses: nat, n: nat): real {
    var pWin := Ratio(wins as real, n);
    pWin * Ratio(profit, wins) - (1.0 - pWin) * Ratio(loss, losses)
  }

  function Expectancy(ts: seq<TradeRecord>): real {
    ExpectancyOf(GrossProfit(ts), GrossLoss(ts), |Split(ts, true)|, |Split(ts, false)|, |ts|)
  }

  lemma {:induction false} SplitAddsUp(ts: seq<TradeRecord>)
    ensures |Split(ts, true)| + |Split(ts, false)| == |ts|
    ensures ClosedPnl(Split(ts, true)) + ClosedPnl(Split(ts, false)) == ClosedPnl(ts)
    ensures ClosedPnl(Split(ts, false)) <= 0.0
    ensures |Split(ts, true)| == 0 ==> ClosedPnl(Split(ts, true)) == 0.0
    ensures |Split(ts, false)| == 0 ==> ClosedPnl(Split(ts, false)) == 0.0
  {
    if ts != [] {
      var init, t := ts[..|ts| - 1], ts[|ts| - 1];
      SplitAddsUp(init);
      var side := Split(init, t.pnl > 0.0);
      assert (side + [t])[..|side|] == side;
      assert Split(init, !(t.pnl > 0.0)) + [] == Split(init, !(t.pnl > 0.0));
    }
  }

  /** `n` times a mean that is weighted by `k` out of `n` is the sum over the `k`. */
  lemma WeightedMean(sum: real, k: nat, n: nat)
    requires k <= n && 0 < n && (k == 0 ==> sum == 0.0)
    ensures (k as real / n as real) * Ratio(sum, k) * n as real == sum
  {
    if k > 0 {
      var mean, share := sum / k as real, k as real / n as real;
      Arith.QuotientTimes(sum, k as real);
      Arith.QuotientTimes(k as real, n as real);
      Arith.Exchange(share, mean, n as real);
      assert (share * n as real) * mean == k as real * mean;
    }
  }

  lemma LossShare(wins: nat, losses: nat, n: nat)
    requires wins + losses == n && 0 < n
    ensures 1.0 - wins as real / n as real == losses as real / n as real
  {
    var a, b := wins as real / n as real, losses as real / n as real;
    Arith.QuotientTimes(wins as real, n as real);
    Arith.QuotientTimes(losses as real, n as real);
    Arith.Distribute(1.0, a, n as real);
    Arith.UnscaleEq(1.0 - a, b, n as real);
  }

  lemma MeansCombine(profit: real, loss: real, wins: nat, losses: nat, n: nat)
    requires wins + losses == n && 0 < n
    requires (wins == 0 ==> profit == 0.0) && (losses == 0 ==> loss == 0.0)
    ensures ExpectancyOf(profit, loss, wins, losses, n) * n as real == profit - loss
  {
    WeightedMean(profit, wins, n);
    WeightedMean(loss, losses, n);
    LossShare(wins, losses, n);
    var p, x := wins as real / n as real, Ratio(profit, wins);
    var q, y := losses as real / n as real, Ratio(loss, losses);
    assert Ratio(wins as real, n) == p;
    hide Ratio;
    Arith.Distribute(p * x, q * y, n as real);
  }

  lemma GrossAddsUp(ts: seq<TradeRecord>)
    ensures |Split(ts, true)| + |Split(ts, false)| == |ts|
    ensures GrossProfit(ts) - GrossLoss(ts) == ClosedPnl(ts)
    ensures |Split(ts, true)| == 0 ==> GrossProfit(ts) == 0.0
    ensures |Split(ts, false)| == 0 ==> GrossLoss(ts) == 0.0
    ensures ts == [] ==> ClosedPnl(ts) == 0.0
  {
    SplitAddsUp(ts);
  }

  /** What the trades that made money made, and what the others lost. */
  function Gains(ts: seq<TradeRecord>): real {
    if ts == [] then 0.0 else Gains(ts[..|ts| - 1]) + MaxR(ts[|ts| - 1].pnl, 0.0)
  }

  function Losses(ts: seq<TradeRecord>): real {
    if ts == [] then 0.0 else Losses(ts[..|ts| - 1]) + MaxR(-ts[|ts| - 1].pnl, 0.0)
  }

  lemma {:induction false} GrossIsGainsAndLosses(ts: seq<TradeRecord>)
    ensures GrossProfit(ts) == Gains(ts) && GrossLoss(ts) == Losses(ts)
    ensures ClosedPnl(Split(ts, false)) <= 0.0
  {
    if ts != [] {
      var init, t := ts[..|ts| - 1], ts[|ts| - 1];
      GrossIsGainsAndLosses(init);
      SplitAddsUp(ts);
      var side := Split(init, t.pnl > 0.0);
      assert (side + [t])[..|side|] == side;
      assert Split(init, !(t.pnl > 0.0)) + [] == Split(init, !(t.pnl > 0.0));
    }
  }

  /** What `n` occurrences of a mean add up to. */
  function Total(mean: real, n: nat): real {
    mean * n as real
  }

  lemma ExpectancyExplains(profit: real, loss: real, wins: nat, losses: nat, n: nat)
    requires wins + losses == n
    requires (wins == 0 ==> profit == 0.0) && (losses == 0 ==> loss == 0.0)
    ensures Total(ExpectancyOf(profit, loss, wins, losses, n), n) == profit - loss
  {
    if n > 0 {
      MeansCombine(profit, loss, wins, losses, n);
    }
  }

  /** The reported expectancy times the number of trades is what the trades made. */
  lemma ExpectancyIsMeanPnl(ts: seq<TradeRecord>)
    ensures Total(Expectancy(ts), |ts|) == ClosedPnl(ts)
  {
    hide Total, ExpectancyOf, ClosedPnl, Split, GrossProfit, GrossLoss;
    GrossAddsUp(ts);
    ExpectancyExplains(GrossProfit(ts), GrossLoss(ts), |Split(ts, true)|, |Split(ts, false)|, |ts|);
  }

  // ---- Accounts of a whole backtest ----

  /** Each fill was charged by the contract. */
  predicate Charged(es: seq<Execution>, terms: Terms) {
    forall i :: 0 <= i < |es| ==> es[i].commission == terms.commissionPerContract * es[i].quantity as real
  }

  ghost predicate Accounted(st: Backtest, start: real, terms: Terms) {
    && Positive(st.sys.desk.fills) && Charged(st.sys.desk.fills, terms)
    && st.sys.desk.book == Replay(Book(start, map[], []), st.sys.desk.fills, terms.multipliers)
    && st.curve != [] && st.curve[0] == start && st.curve[|st.curve| - 1] == st.sys.desk.book.equity
  }

  lemma BarCharges(ps: seq<Pending>, bar: Bar, quotes: Quotes, terms: Terms)
    requires Unfilled(ps)
    ensures Charged(Executions(ps, bar, quotes, terms), terms)
  {
    hide Executions;
    forall j | 0 <= j < |Executions(ps, bar, quotes, terms)|
      ensures
        var e := Executions(ps, bar, quotes, terms)[j];
        e.commission == terms.commissionPerContract * e.quantity as real
    {
      var k := ExecutionsOfBar(ps, bar, quotes, terms, j);
    }
  }

  lemma RevealKeepsAccounts(st: Backtest, f: Frame, setup: Setup, start: real)
    requires Inv(st.sys) && Positive(st.sys.desk.fills) && Charged(st.sys.desk.fills, setup.terms)
    requires st.sys.desk.book == Replay(Book(start, map[], []), st.sys.desk.fills, setup.terms.multipliers)
    ensures
      var d := BarRevealed(st, f, setup).sys.desk;
      && Positive(d.fills) && Charged(d.fills, setup.terms)
      && d.book == Replay(Book(start, map[], []), d.fills, setup.terms.multipliers)
  {
    hide BarRevealed, Inv, Replay, Executions, PendingOf, Charged, Positive, SoundDesk;
    InvIsSound(st.sys);
    var ps, fills := PendingOf(st.sys.desk, f.bar.symbol), st.sys.desk.fills;
    PendingIsUnfilled(st.sys.desk, f.bar.symbol);
    Revealed(st, f, setup);
    BarCharges(ps, f.bar, f.quotes, setup.terms);
    BothCharged(fills, Executions(ps, f.bar, f.quotes, setup.terms), setup.terms);
    ReplayAppend(Book(start, map[], []), fills, Executions(ps, f.bar, f.quotes, setup.terms), setup.terms.multipliers);
  }

  lemma PendingIsUnfilled(d: Desk, s: Symbol)
    requires SoundDesk(d)
    ensures Unfilled(PendingOf(d, s))
  {
  }

  lemma BothCharged(es: seq<Execution>, fs: seq<Execution>, terms: Terms)
    requires Positive(es) && Positive(fs) && Charged(es, terms) && Charged(fs, terms)
    ensures Positive(es + fs) && Charged(es + fs, terms)
  {
  }

  lemma {:induction false} ReactKeepsAccounts(st: Backtest, rs: seq<Reaction>, setup: Setup)
    requires SoundDesk(st.sys.desk)
    ensures
      var q := ReactAll(st, rs, setup);
      q.sys.desk.book == st.sys.desk.book && q.sys.desk.fills == st.sys.desk.fills && q.curve == st.curve
  {
    if rs != [] {
      ReactKeepsAccounts(st, rs[..|rs| - 1], setup);
    }
  }

  /** Settling a bar records its equity and leaves the accounts alone. */
  lemma SettleKeepsAccounts(st: Backtest, f: Frame, setup: Setup)
    ensures
      var q := BarSettled(st, f, setup);
      && q.sys == st.sys && q.curve == st.curve + [st.sys.desk.book.equity]
  {
  }

  lemma BarKeepsAccounts(st: Backtest, f: Frame, setup: Setup, start: real)
    requires SoundDesk(st.sys.desk) && Inv(st.sys) && Accounted(st, start, setup.terms)
    ensures Accounted(BarStep(st, f, setup), start, setup.terms)
  {
    hide Inv, Replay, SoundDesk, ReactAll, BarSettled, Positive;
    var r := BarRevealed(st, f, setup);
    assert r.curve == st.curve;
    hide BarRevealed;
    RevealKeepsAccounts(st, f, setup, start);
    ReactKeepsAccounts(r, f.reactions, setup);
    SettleKeepsAccounts(ReactAll(r, f.reactions, setup), f, setup);
  }

  lemma OpeningAccounts(start: real, date: int, terms: Terms)
    ensures Accounted(Opening(start, date), start, terms)
  {
  }

  lemma NextKeepsAccounts(st: Backtest, fs: seq<Frame>, n: nat, f: Frame, setup: Setup, start: real)
    requires TimelyAfter(st, fs, n) && Accounted(st, start, setup.terms)
    ensures SoundDesk(st.sys.desk)
    ensures Accounted(if st.stopped then st else BarStep(st, f, setup), start, setup.terms)
  {
    assert SoundDesk(st.sys.desk);
    hide Accounted, BarStep, Inv, SoundDesk;
    BarKeepsAccounts(st, f, setup, start);
  }

  lemma {:induction false} ReplayKeepsAccounts(start: real, date: int, fs: seq<Frame>, n: nat, setup: Setup)
    requires n <= |fs|
    ensures Accounted(Replayed(Opening(start, date), fs[..n], setup), start, setup.terms)
  {
    hide Accounted, BarStep, Opening, TimelyAfter, SoundDesk;
    OpeningIsSound(start, date);
    OpeningAccounts(start, date, setup.terms);
    if n > 0 {
      var before := Replayed(Opening(start, date), fs[..n - 1], setup);
      ReplayIsTimely(start, date, fs, n - 1, setup);
      ReplayKeepsAccounts(start, date, fs, n - 1, setup);
      ReplayNext(Opening(start, date), fs, n - 1, setup);
      NextKeepsAccounts(before, fs, n - 1, fs[n - 1], setup, start);
    }
  }

  /** Closed trades by the report, plus open ones, account for the whole equity curve. */
  ghost predicate Explained(st: Backtest) {
    var book := st.sys.desk.book;
    && st.curve != []
    && Total(Expectancy(book.trades), |book.trades|) + TotalOpenPnl(book)
       == st.curve[|st.curve| - 1] - st.curve[0]
  }

  lemma AccountsExplainEquity(st: Backtest, start: real, terms: Terms)
    requires Accounted(st, start, terms)
    ensures Explained(st)
  {
    hide Total, Expectancy, Replay, CashPaid, TotalBasis, SumSigned, Position;
    BooksBalance(start, st.sys.desk.fills, terms.multipliers);
    ExpectancyIsMeanPnl(st.sys.desk.book.trades);
  }

  /**
   The whole report adds up: in any backtest, expectancy times number of trades,
   plus the running profit of trades still open, is the change of the equity curve.
   */
  lemma ReportExplainsEquity(start: real, date: int, fs: seq<Frame>, setup: Setup)
    ensures Explained(Replayed(Opening(start, date), fs, setup))
  {
    assert fs[..|fs|] == fs;
    assert SoundDesk(Opening(start, date).sys.desk);
    hide Explained, Replayed, Opening, Accounted, Inv, SoundDesk;
    ReplayKeepsAccounts(start, date, fs, |fs|, setup);
    AccountsExplainEquity(Replayed(Opening(start, date), fs, setup), start, setup.terms);
  }

  // ---- Drawdown duration ----

  function RunningMax(es: seq<real>, i: nat): real
    requires i < |es|
  {
    if i == 0 then es[0] else MaxR(RunningMax(es, i - 1), es[i])
  }

  predicate UnderWater(es: seq<real>, lo: nat, hi: nat) {
    lo <= hi <= |es| && forall i :: lo <= i < hi ==> BelowEarlier(es, i)
  }

  /** Some earlier equity was higher. */
  predicate BelowEarlier(es: seq<real>, i: nat)
    requires i < |es|
  {
    exists j :: 0 <= j < i && es[i] < es[j]
  }

  lemma {:induction false} BelowRunningMax(es: seq<real>, i: nat) returns (j: nat)
    requires i < |es|
    ensures j <= i && es[j] == RunningMax(es, i) && forall k :: 0 <= k <= i ==> es[k] <= es[j]
    ensures BelowEarlier(es, i) <==> es[i] < RunningMax(es, i)
  {
    j := 0;
    if i > 0 {
      j := BelowRunningMax(es, i - 1);
      if es[j] < es[i] {
        j := i;
      }
    }
  }

  /** The longest stretch of bars spent below the running peak. */
  method LongestDrawdown(equity: seq<real>) returns (longest: nat)
    ensures exists lo: nat, hi: nat :: UnderWater(equity, lo, hi) && hi - lo == longest
    ensures forall lo: nat, hi: nat :: UnderWater(equity, lo, hi) ==> hi - lo <= longest
  {
    var duration := 0;
    longest := 0;
    var peak := 0.0;
    ghost var lo: nat, hi: nat := 0, 0;
    for i := 0 to |equity|
      invariant i > 0 ==> peak == RunningMax(equity, i - 1)
      invariant duration <= i && UnderWater(equity, i - duration, i)
      invariant duration < i ==> !BelowEarlier(equity, i - duration - 1)
      invariant UnderWater(equity, lo, hi) && hi <= i && hi - lo == longest
      invariant forall a: nat, b: nat :: UnderWater(equity, a, b) && b <= i ==> b - a <= longest
    {
      peak := if i == 0 then equity[0] else MaxR(peak, equity[i]);
      ghost var highest := BelowRunningMax(equity, i);
      if equity[i] < peak {
        duration := duration + 1;
        if duration > longest {
          longest := duration;
          lo, hi := i + 1 - duration, i + 1;
        }
      } else {
        duration := 0;
      }
    }
  }

  // ---- The report ----

  /** The figures of the report that are not library statistics. */
  datatype PerformanceReport = PerformanceReport(
    numTrades: nat,
    grossProfit: real,
    grossLoss: real,
    expectancy: real,
    maxDrawdownDuration: nat
  )

  ghost predicate LongestUnderWater(equity: seq<real>, longest: nat) {
    && (exists lo: nat, hi: nat :: UnderWater(equity, lo, hi) && hi - lo == longest)
    && (forall lo: nat, hi: nat :: UnderWater(equity, lo, hi) ==> hi - lo <= longest)
  }

  ghost predicate Describes(r: PerformanceReport, equity: seq<real>, trades: seq<TradeRecord>) {
    && r.numTrades == |trades|
    && r.grossProfit - r.grossLoss == ClosedPnl(trades) == Total(r.expectancy, r.numTrades)
    && r.grossProfit == Gains(trades) && r.grossLoss == Losses(trades)
    && (trades == [] ==> r.expectancy == 0.0)
    && LongestUnderWater(equity, r.maxDrawdownDuration)
  }

  /** An equity curve of fewer than two points is refused. */
  method ComputePerformanceReport(equity: seq<real>, trades: seq<TradeRecord>)
    returns (report: Option<PerformanceReport>)
    ensures report.Some? <==> 2 <= |equity|
    ensures report.Some? ==> Describes(report.value, equity, trades)
  {
    if |equity| < 2 {
      return None;
    }
    var duration := LongestDrawdown(equity);
    GrossAddsUp(trades);
    GrossIsGainsAndLosses(trades);
    ExpectancyIsMeanPnl(trades);
    hide Total, Expectancy, GrossProfit, GrossLoss, ClosedPnl, UnderWater;
    report := Some(
      PerformanceReport(|trades|, GrossProfit(trades), GrossLoss(trades), Expectancy(trades), duration));
  }
}
