/**
 When a backtest stops: the equity curve and the dates of the bars say at which bar the
 drawdown breaker trips, and at which one it cannot measure a drawdown at all.
 */
module Halting {
  import opened Core
  import opened Ledger
  import opened Simulator
  import opened Orders
  import opened Breaker
  import opened Engine

  // ---- A day on the equity curve ----

  // The curve opens with the starting equity; bar `i` adds the point `curve[i + 1]`.

  /** The first bar of the day of bar `i`. */
  function DayStart(bars: seq<Bar>, i: nat): (j: nat)
    requires i < |bars|
    ensures j <= i
  {
    if i == 0 || SessionDay(bars[i - 1].ts) != SessionDay(bars[i].ts) then i else DayStart(bars, i - 1)
  }

  predicate OnCurve(curve: seq<real>, bars: seq<Bar>, i: nat) {
    i < |bars| && i + 1 < |curve|
  }

  /** The equity the day of bar `i` opened with. */
  function DayOpen(curve: seq<real>, bars: seq<Bar>, i: nat): real
    requires OnCurve(curve, bars, i)
  {
    curve[DayStart(bars, i)]
  }

  /** The highest equity of that day up to bar `i`, the opening one included. */
  function DayHigh(curve: seq<real>, bars: seq<Bar>, i: nat): real
    requires OnCurve(curve, bars, i)
  {
    var d := DayStart(bars, i);
    HighMark(curve[d], curve[d + 1..i + 2])
  }

  /** A drawdown at bar `i` would be divided by zero. */
  predicate Unmeasurable(curve: seq<real>, bars: seq<Bar>, i: nat)
    requires OnCurve(curve, bars, i)
  {
    DayOpen(curve, bars, i) == 0.0 || DayHigh(curve, bars, i) == 0.0
  }

  /** The larger fall at bar `i`: from the day's open, or from its high. */
  function DayFall(curve: seq<real>, bars: seq<Bar>, i: nat): real
    requires OnCurve(curve, bars, i) && !Unmeasurable(curve, bars, i)
  {
    MaxR(Fall(DayOpen(curve, bars, i), curve[i + 1]), Fall(DayHigh(curve, bars, i), curve[i + 1]))
  }

  predicate Passes(curve: seq<real>, bars: seq<Bar>, i: nat, limit: real)
    requires OnCurve(curve, bars, i)
  {
    !Unmeasurable(curve, bars, i) && DayFall(curve, bars, i) < limit
  }

  /** The reason the breaker gives when it trips at bar `i`. */
  function ReasonOf(curve: seq<real>, bars: seq<Bar>, i: nat): Reason
    requires OnCurve(curve, bars, i) && !Unmeasurable(curve, bars, i)
  {
    Drawdown(DayFall(curve, bars, i), curve[i + 1], DayOpen(curve, bars, i), DayHigh(curve, bars, i))
  }

  // ---- Replays ----

  /** A replay about to begin: one point on the curve, and a session opened at it. */
  predicate Begins(st: Backtest) {
    && !st.stopped && !st.session.halted
    && st.curve == [st.sys.desk.book.equity]
    && st.session.startingEquity == st.session.peakEquity == st.sys.desk.book.equity
  }

  /** Nothing has stopped the replay in its first `n` bars. */
  ghost predicate GoingOn(q: Backtest, bars: seq<Bar>, n: nat, limit: real)
    requires n <= |bars|
  {
    && !q.stopped && !q.session.halted
    && |q.curve| == n + 1 && q.curve[n] == q.sys.desk.book.equity
    && (forall i: nat :: i < n ==> Passes(q.curve, bars, i, limit))
    && (n == 0 ==> q.session.startingEquity == q.session.peakEquity == q.curve[0])
    && (n > 0 ==>
         && q.session.date == SessionDay(bars[n - 1].ts)
         && q.session.startingEquity == DayOpen(q.curve, bars, n - 1)
         && q.session.peakEquity == DayHigh(q.curve, bars, n - 1))
  }

  /** The replay stopped at a bar, the first that did not pass: tripped, or unable to measure. */
  ghost predicate StoppedAt(q: Backtest, bars: seq<Bar>, k: nat, limit: real)
    requires k < |bars|
  {
    && q.stopped && |q.curve| == k + 2
    && (forall i: nat :: i < k ==> Passes(q.curve, bars, i, limit))
    && (q.session.halted <==> !Unmeasurable(q.curve, bars, k))
    && (q.session.halted ==>
         DayFall(q.curve, bars, k) >= limit && q.session.reason == ReasonOf(q.curve, bars, k))
  }

  lemma ExtendedCurve(curve: seq<real>, e: real, bars: seq<Bar>, i: nat, limit: real)
    requires OnCurve(curve, bars, i)
    ensures OnCurve(curve + [e], bars, i)
    ensures DayOpen(curve + [e], bars, i) == DayOpen(curve, bars, i)
    ensures DayHigh(curve + [e], bars, i) == DayHigh(curve, bars, i)
    ensures Passes(curve + [e], bars, i, limit) <==> Passes(curve, bars, i, limit)
  {
    hide HighMark, Fall;
    var d := DayStart(bars, i);
    assert (curve + [e])[d + 1..i + 2] == curve[d + 1..i + 2];
  }

  /** The mark of the day with one more bar. */
  lemma NextMark(curve: seq<real>, e: real, bars: seq<Bar>, n: nat)
    requires |curve| == n + 1 && n < |bars|
    ensures
      var longer := curve + [e];
      && OnCurve(longer, bars, n)
      && if n > 0 && SessionDay(bars[n - 1].ts) == SessionDay(bars[n].ts)
         then
           && DayOpen(longer, bars, n) == DayOpen(curve, bars, n - 1)
           && DayHigh(longer, bars, n) == MaxR(DayHigh(curve, bars, n - 1), e)
         else
           DayOpen(longer, bars, n) == curve[n] && DayHigh(longer, bars, n) == MaxR(curve[n], e)
  {
    hide SessionDay;
    var longer, d := curve + [e], DayStart(bars, n);
    var es := longer[d + 1..n + 2];
    assert es[..|es| - 1] == curve[d + 1..];
    if n > 0 && SessionDay(bars[n - 1].ts) == SessionDay(bars[n].ts) {
      assert curve[d + 1..] == curve[d + 1..n + 1];
    } else {
      assert d == n && longer[n] == curve[n];
      assert es == [e] && es[..0] == [] && HighMark(curve[n], es[..0]) == curve[n];
    }
  }

  lemma {:induction false} ReactionsKeepSession(st: Backtest, rs: seq<Reaction>, setup: Setup)
    requires SoundDesk(st.sys.desk)
    ensures
      var q := ReactAll(st, rs, setup);
      q.session == st.session && q.curve == st.curve && q.sys.desk.book == st.sys.desk.book
  {
    if rs != [] {
      ReactionsKeepSession(st, rs[..|rs| - 1], setup);
      hide Approves;
    }
  }

  /** What a bar does to the session and the curve, in terms of the equity it ends with. */
  lemma BarWatched(st: Backtest, f: Frame, setup: Setup)
    requires SoundDesk(st.sys.desk)
    ensures
      var r, date := BarStep(st, f, setup), SessionDay(f.bar.ts);
      var e := r.sys.desk.book.equity;
      var today := if date != st.session.date then Reset(st.session, st.sys.desk.book.equity, date) else st.session;
      && r.curve == st.curve + [e]
      && if Measurable(today, e, date)
         then (r.session, r.stopped) == Updated(today, e, date, setup.drawdownLimit)
         else r.session == today && r.stopped
  {
    hide Drained, Step, ReactAll, Updated, MultiplierOf, Traded, Position, SessionDay;
    ReactionsKeepSession(BarRevealed(st, f, setup), f.reactions, setup);
  }

  lemma BarDecides(st: Backtest, fs: seq<Frame>, n: nat, setup: Setup)
    requires SoundDesk(st.sys.desk) && n < |fs| && GoingOn(st, BarsOf(fs), n, setup.drawdownLimit)
    ensures
      var r, bars, limit := BarStep(st, fs[n], setup), BarsOf(fs), setup.drawdownLimit;
      if r.stopped then StoppedAt(r, bars, n, limit) else GoingOn(r, bars, n + 1, limit)
  {
    hide BarStep, SoundDesk, SessionDay, DayOpen, DayHigh, Fall;
    BarWatched(st, fs[n], setup);
    var bars, e := BarsOf(fs), BarStep(st, fs[n], setup).sys.desk.book.equity;
    NextMark(st.curve, e, bars, n);
    forall i: nat | i < n ensures Passes(st.curve + [e], bars, i, setup.drawdownLimit) {
      ExtendedCurve(st.curve, e, bars, i, setup.drawdownLimit);
    }
  }

  /** How a replay of these bars ends. */
  ghost predicate StopsOrFinishes(q: Backtest, bars: seq<Bar>, limit: real) {
    if q.stopped then 2 <= |q.curve| <= |bars| + 1 && StoppedAt(q, bars, |q.curve| - 2, limit)
    else GoingOn(q, bars, |bars|, limit)
  }

  lemma {:induction false} ReplayGoesOn(st: Backtest, fs: seq<Frame>, n: nat, setup: Setup)
    requires SoundDesk(st.sys.desk) && Begins(st) && n <= |fs|
    ensures
      var q, bars, limit := Replayed(st, fs[..n], setup), BarsOf(fs), setup.drawdownLimit;
      if q.stopped then 2 <= |q.curve| <= n + 1 && StoppedAt(q, bars, |q.curve| - 2, limit)
      else GoingOn(q, bars, n, limit)
  {
    hide BarStep, SoundDesk, StoppedAt, Passes;
    if n > 0 {
      ReplayGoesOn(st, fs, n - 1, setup);
      ReplayNext(st, fs, n - 1, setup);
      var q := Replayed(st, fs[..n - 1], setup);
      if !q.stopped {
        BarDecides(q, fs, n - 1, setup);
        StoppedHere(BarStep(q, fs[n - 1], setup), BarsOf(fs), n - 1, setup.drawdownLimit);
      }
    }
  }

  lemma StoppedHere(q: Backtest, bars: seq<Bar>, k: nat, limit: real)
    requires k < |bars|
    ensures StoppedAt(q, bars, k, limit) ==> |q.curve| == k + 2
  {
  }

  /**
   Every replay stops at the first bar that does not pass and at no other: with the breaker
   tripped and its reason given if the fall can be measured there, and without if it cannot.
   */
  lemma StopsAtFirst(st: Backtest, fs: seq<Frame>, setup: Setup)
    requires SoundDesk(st.sys.desk) && Begins(st)
    ensures StopsOrFinishes(Replayed(st, fs, setup), BarsOf(fs), setup.drawdownLimit)
  {
    hide BarStep, SoundDesk, StoppedAt, GoingOn, Begins;
    ReplayGoesOn(st, fs, |fs|, setup);
    assert fs[..|fs|] == fs;
  }

  /** A replay that stopped without tripping is one that could not measure its last bar. */
  lemma UnmeasuredIff(q: Backtest, bars: seq<Bar>, limit: real)
    requires StopsOrFinishes(q, bars, limit)
    ensures q.stopped ==>
      2 <= |q.curve| <= |bars| + 1 && (q.session.halted <==> !Unmeasurable(q.curve, bars, |q.curve| - 2))
  {
    hide Unmeasurable;
  }

  // ---- From a positive equity ----

  /** The equity after bar `i` has given back the limit's share of the day's high. */
  predicate BreaksAt(curve: seq<real>, bars: seq<Bar>, i: nat, limit: real)
    requires OnCurve(curve, bars, i)
  {
    curve[i + 1] <= (1.0 - limit / 100.0) * DayHigh(curve, bars, i)
  }

  /** With a positive open, a bar fails to pass exactly by breaching the day's high. */
  lemma PassesUnlessBreached(curve: seq<real>, bars: seq<Bar>, i: nat, limit: real)
    requires OnCurve(curve, bars, i) && IsLimit(limit) && 0.0 < DayOpen(curve, bars, i)
    ensures !Unmeasurable(curve, bars, i) && (Passes(curve, bars, i, limit) <==> !BreaksAt(curve, bars, i, limit))
    ensures Passes(curve, bars, i, limit) ==> 0.0 < curve[i + 1]
  {
    var start, high, e := DayOpen(curve, bars, i), DayHigh(curve, bars, i), curve[i + 1];
    assert start <= high;
    hide HighMark, DayStart, Fall;
    PeakTestDecides(start, high, e, limit);
    FallReaches(high, e, limit);
    KeptIsPositive(limit, high);
  }

  lemma KeptIsPositive(limit: real, high: real)
    requires IsLimit(limit) && 0.0 < high
    ensures 0.0 <= (1.0 - limit / 100.0) * high
  {
  }

  lemma {:induction false} StaysPositive(curve: seq<real>, bars: seq<Bar>, n: nat, limit: real)
    requires n < |curve| && n <= |bars| && IsLimit(limit) && 0.0 < curve[0]
    requires forall i: nat :: i < n ==> Passes(curve, bars, i, limit)
    ensures forall i: nat :: i <= n ==> 0.0 < curve[i]
  {
    hide Passes;
    if n > 0 {
      StaysPositive(curve, bars, n - 1, limit);
      assert 0.0 < DayOpen(curve, bars, n - 1);
      PassesUnlessBreached(curve, bars, n - 1, limit);
    }
  }

  /**
   The last bar replayed is the first whose equity breached the high of its day, if the run
   stopped; if not, all bars were replayed and none did.
   */
  ghost predicate HaltsOnBreach(q: Backtest, bars: seq<Bar>, limit: real) {
    var n := |q.curve| - 1;
    && 0 <= n <= |bars| && (q.stopped <==> q.session.halted)
    && (forall i: nat :: i < n - 1 ==> !BreaksAt(q.curve, bars, i, limit))
    && if q.stopped
       then n > 0 && BreaksAt(q.curve, bars, n - 1, limit) && !Unmeasurable(q.curve, bars, n - 1)
            && q.session.reason == ReasonOf(q.curve, bars, n - 1)
       else n == |bars| && (n > 0 ==> !BreaksAt(q.curve, bars, n - 1, limit))
  }

  lemma EndsByBreach(q: Backtest, bars: seq<Bar>, limit: real)
    requires StopsOrFinishes(q, bars, limit) && IsLimit(limit) && q.curve != [] && 0.0 < q.curve[0]
    ensures HaltsOnBreach(q, bars, limit)
  {
    hide DayFall, DayHigh, Unmeasurable, Passes, BreaksAt, ReasonOf;
    var n := if q.stopped then |q.curve| - 2 else |bars|;
    StaysPositive(q.curve, bars, n, limit);
    forall i: nat | OnCurve(q.curve, bars, i)
      ensures !Unmeasurable(q.curve, bars, i)
      ensures Passes(q.curve, bars, i, limit) <==> !BreaksAt(q.curve, bars, i, limit)
    {
      assert 0.0 < DayOpen(q.curve, bars, i);
      PassesUnlessBreached(q.curve, bars, i, limit);
    }
    if q.stopped {
      HaltedDoesNotPass(q.curve, bars, n, limit);
    }
  }

  lemma HaltedDoesNotPass(curve: seq<real>, bars: seq<Bar>, k: nat, limit: real)
    requires OnCurve(curve, bars, k)
    ensures !Unmeasurable(curve, bars, k) && DayFall(curve, bars, k) >= limit ==> !Passes(curve, bars, k, limit)
  {
  }

  /**
   A backtest from a positive equity halts if and only if some bar ends with an equity that
   has given back the drawdown limit from the high of its own day; it then stops at the
   first such bar, and it never fails to measure.
   */
  lemma BacktestHaltsOnBreach(equity: real, date: int, fs: seq<Frame>, setup: Setup)
    requires 0.0 < equity && IsLimit(setup.drawdownLimit)
    ensures HaltsOnBreach(Replayed(Opening(equity, date), fs, setup), BarsOf(fs), setup.drawdownLimit)
  {
    hide StopsOrFinishes, HaltsOnBreach, Replayed;
    OpeningIsSound(equity, date);
    StopsAtFirst(Opening(equity, date), fs, setup);
    CurveOpens(Opening(equity, date), fs, setup);
    EndsByBreach(Replayed(Opening(equity, date), fs, setup), BarsOf(fs), setup.drawdownLimit);
  }

  lemma {:induction false} CurveOpens(st: Backtest, fs: seq<Frame>, setup: Setup)
    requires SoundDesk(st.sys.desk) && st.curve != []
    ensures
      var q := Replayed(st, fs, setup);
      q.curve != [] && q.curve[0] == st.curve[0]
  {
    if fs != [] {
      CurveOpens(st, fs[..|fs| - 1], setup);
      BarWatched(Replayed(st, fs[..|fs| - 1], setup), fs[|fs| - 1], setup);
      hide BarStep, Updated, Reset, SoundDesk;
    }
  }
}
