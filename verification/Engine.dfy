/**
 The backtest engine: bars replayed in order through broker, order manager, risk
 engine and circuit breaker. The strategy is a parameter: whatever signals it
 emits in reaction to each bar.
 */
module Engine {
  import opened Core
  import opened Ledger
  import opened Simulator
  import opened Orders
  import opened Limiter
  import opened Breaker
  import opened Risk

  const MICROS_PER_DAY := 86_400_000_000

  function SessionDay(ts: int): int {
    ts / MICROS_PER_DAY
  }

  /** The calendar day whose 24 hours hold the instant. */
  lemma SessionDayIff(ts: int, day: int)
    ensures SessionDay(ts) == day <==> day * 24 * 3600 * 1_000_000 <= ts < (day + 1) * 24 * 3600 * 1_000_000
  {
  }

  datatype Setup = Setup(
    terms: Terms,
    limits: RiskLimits,
    margin: MarginRules,
    drawdownLimit: real,
    multipliers: Multipliers
  )

  /** A signal, and the monotonic time at which the risk engine sees it. */
  datatype Reaction = Reaction(signal: Signal, clock: real)

  datatype Frame = Frame(bar: Bar, quotes: Quotes, reactions: seq<Reaction>)

  /**
   `steps` counts the bars replayed; `born` and `filledAt` record, for each order
   and each fill, the step during which it happened.
   */
  datatype Backtest = Backtest(
    sys: System,
    risk: RiskView,
    session: Session,
    lastPrice: map<Symbol, real>,
    curve: seq<real>,
    stopped: bool,
    steps: nat,
    born: map<OrderId, nat>,
    filledAt: seq<nat>
  )

  // ---- Replay order ----

  predicate NotAfter(a: Bar, b: Bar) {
    a.ts < b.ts || (a.ts == b.ts && a.symbol <= b.symbol)
  }

  predicate InReplayOrder(bars: seq<Bar>) {
    forall i, j :: 0 <= i < j < |bars| ==> NotAfter(bars[i], bars[j])
  }

  /** No two bars share both symbol and time. */
  predicate DistinctBars(bars: seq<Bar>) {
    forall i, j :: 0 <= i < j < |bars| ==> !SameInstant(bars[i], bars[j])
  }

  predicate SameInstant(a: Bar, b: Bar) {
    a.ts == b.ts && a.symbol == b.symbol
  }

  function BarsOf(fs: seq<Frame>): (bars: seq<Bar>)
    ensures |bars| == |fs| && forall i :: 0 <= i < |fs| ==> bars[i] == fs[i].bar
  {
    seq(|fs|, i requires 0 <= i < |fs| => fs[i].bar)
  }

  function Insert(bars: seq<Bar>, b: Bar): (r: seq<Bar>)
    ensures multiset(r) == multiset(bars) + multiset{b}
  {
    if bars == [] || NotAfter(bars[|bars| - 1], b) then bars + [b]
    else
      assert bars == bars[..|bars| - 1] + [bars[|bars| - 1]];
      Insert(bars[..|bars| - 1], b) + [bars[|bars| - 1]]
  }

  /** The replay is in time order, ties broken by symbol, and loses no bar. */
  function Sorted(bars: seq<Bar>): (r: seq<Bar>)
    ensures multiset(r) == multiset(bars)
  {
    if bars == [] then []
    else
      assert bars == bars[..|bars| - 1] + [bars[|bars| - 1]];
      Insert(Sorted(bars[..|bars| - 1]), bars[|bars| - 1])
  }

  lemma {:induction false} InsertKeepsBound(bars: seq<Bar>, b: Bar, hi: Bar)
    requires forall i :: 0 <= i < |bars| ==> NotAfter(bars[i], hi)
    requires NotAfter(b, hi)
    ensures forall i :: 0 <= i < |Insert(bars, b)| ==> NotAfter(Insert(bars, b)[i], hi)
  {
    if bars != [] && !NotAfter(bars[|bars| - 1], b) {
      InsertKeepsBound(bars[..|bars| - 1], b, hi);
    }
  }

  lemma {:induction false} InsertKeepsOrder(bars: seq<Bar>, b: Bar)
    requires InReplayOrder(bars)
    ensures InReplayOrder(Insert(bars, b))
  {
    if bars != [] && !NotAfter(bars[|bars| - 1], b) {
      InsertKeepsOrder(bars[..|bars| - 1], b);
      InsertKeepsBound(bars[..|bars| - 1], b, bars[|bars| - 1]);
    }
  }

  lemma {:induction false} SortedIsOrdered(bars: seq<Bar>)
    ensures InReplayOrder(Sorted(bars))
    ensures
      var r := Sorted(bars);
      forall i, j :: 0 <= i < j < |r| ==> r[i].ts < r[j].ts || (r[i].ts == r[j].ts && r[i].symbol <= r[j].symbol)
  {
    if bars != [] {
      SortedIsOrdered(bars[..|bars| - 1]);
      InsertKeepsOrder(Sorted(bars[..|bars| - 1]), bars[|bars| - 1]);
    }
  }

  /** The bars of one symbol at one time, in the order they are listed. */
  function At(bars: seq<Bar>, ts: int, s: Symbol): seq<Bar> {
    if bars == [] then []
    else
      var b := bars[|bars| - 1];
      At(bars[..|bars| - 1], ts, s) + (if b.ts == ts && b.symbol == s then [b] else [])
  }

  lemma AtOn(bars: seq<Bar>, b: Bar, ts: int, s: Symbol)
    ensures At(bars + [b], ts, s) == At(bars, ts, s) + (if b.ts == ts && b.symbol == s then [b] else [])
  {
    assert (bars + [b])[..|bars|] == bars;
  }

  lemma {:induction false} InsertIsStable(bars: seq<Bar>, b: Bar, ts: int, s: Symbol)
    ensures At(Insert(bars, b), ts, s) == At(bars, ts, s) + (if b.ts == ts && b.symbol == s then [b] else [])
  {
    hide At;
    if bars == [] || NotAfter(bars[|bars| - 1], b) {
      AtOn(bars, b, ts, s);
    } else {
      var init, last := bars[..|bars| - 1], bars[|bars| - 1];
      assert init + [last] == bars;
      InsertIsStable(init, b, ts, s);
      AtOn(Insert(init, b), last, ts, s);
      AtOn(init, last, ts, s);
    }
  }

  /** Bars the order does not tell apart are replayed as they were given. */
  lemma {:induction false} SortedIsStable(bars: seq<Bar>, ts: int, s: Symbol)
    ensures At(Sorted(bars), ts, s) == At(bars, ts, s)
  {
    if bars != [] {
      SortedIsStable(bars[..|bars| - 1], ts, s);
      InsertIsStable(Sorted(bars[..|bars| - 1]), bars[|bars| - 1], ts, s);
    }
  }

  // ---- One bar ----

  ghost function GrossExposure(b: Book, lastPrice: map<Symbol, real>, multipliers: Multipliers): real {
    SumValues(map s | s in b.open :: ExposureOf(Position(b, s), s, lastPrice, multipliers))
  }

  function ExposureOf(position: int, s: Symbol, lastPrice: map<Symbol, real>, multipliers: Multipliers): real {
    Abs(position) as real * (if s in lastPrice then lastPrice[s] else 0.0) * MultiplierOf(multipliers, s)
  }

  ghost predicate Approves(st: Backtest, r: Reaction, setup: Setup) {
    Permitted(st.risk, setup.limits, setup.margin, st.session.halted, r.signal, st.sys.desk.book.equity,
              GrossExposure(st.sys.desk.book, st.lastPrice, setup.multipliers), r.clock)
  }

  /** A signal reaches the broker only if the risk engine permits it. */
  ghost function React(st: Backtest, r: Reaction, setup: Setup): (q: Backtest)
    requires SoundDesk(st.sys.desk)
    ensures SoundDesk(q.sys.desk)
  {
    var risk := st.risk.(windows := WindowsAfterCheck(st.risk, setup.limits, st.session.halted, r.signal, r.clock));
    if Approves(st, r, setup)
    then st.(risk := risk, sys := SubmitTo(st.sys, r.signal), born := st.born[st.sys.nextId := st.steps])
    else st.(risk := risk)
  }

  ghost function ReactAll(st: Backtest, rs: seq<Reaction>, setup: Setup): (q: Backtest)
    requires SoundDesk(st.sys.desk)
    ensures SoundDesk(q.sys.desk)
  {
    if rs == [] then st else React(ReactAll(st, rs[..|rs| - 1], setup), rs[|rs| - 1], setup)
  }

  /** A new day resets the breaker; pending orders meet the bar before anyone else. */
  function BarRevealed(st: Backtest, f: Frame, setup: Setup): (q: Backtest)
    requires SoundDesk(st.sys.desk)
    ensures SoundDesk(q.sys.desk)
  {
    var s, date := f.bar.symbol, SessionDay(f.bar.ts);
    var sys := Step(st.sys, NextBar(f.bar, f.quotes), setup.terms);
    st.(session := if date != st.session.date then Reset(st.session, st.sys.desk.book.equity, date) else st.session,
        lastPrice := st.lastPrice[s := f.bar.close],
        risk := st.risk.(prices := st.risk.prices[s := f.bar.close],
                         multipliers := st.risk.multipliers[s := MultiplierOf(setup.multipliers, s)]),
        sys := Drained(sys),
        filledAt := st.filledAt + seq(|sys.desk.fills| - |st.sys.desk.fills|, _ => st.steps))
  }

  /** After the reactions the risk engine is told the positions, the breaker the equity. */
  function BarSettled(st: Backtest, f: Frame, setup: Setup): Backtest {
    var book := st.sys.desk.book;
    var equity := book.equity;
    var q := st.(
      risk := st.risk.(positions := st.risk.positions + map s | s in Traded(st.sys.desk.fills) :: Position(book, s)),
      curve := st.curve + [equity],
      steps := st.steps + 1);
    if Measurable(st.session, equity, SessionDay(f.bar.ts)) then
      var (session, tripped) := Updated(st.session, equity, SessionDay(f.bar.ts), setup.drawdownLimit);
      q.(session := session, stopped := tripped)
    else q.(stopped := true)
  }

  ghost function BarStep(st: Backtest, f: Frame, setup: Setup): (q: Backtest)
    requires SoundDesk(st.sys.desk)
    ensures SoundDesk(q.sys.desk)
  {
    BarSettled(ReactAll(BarRevealed(st, f, setup), f.reactions, setup), f, setup)
  }

  /** Nothing happens any more once the breaker has stopped the run. */
  ghost function Replayed(st: Backtest, fs: seq<Frame>, setup: Setup): (q: Backtest)
    requires SoundDesk(st.sys.desk)
    ensures SoundDesk(q.sys.desk)
  {
    if fs == [] then st
    else
      var q := Replayed(st, fs[..|fs| - 1], setup);
      if q.stopped then q else BarStep(q, fs[|fs| - 1], setup)
  }

  lemma ReplayNext(st: Backtest, fs: seq<Frame>, n: nat, setup: Setup)
    requires SoundDesk(st.sys.desk) && n < |fs|
    ensures
      var q := Replayed(st, fs[..n], setup);
      Replayed(st, fs[..n + 1], setup) == if q.stopped then q else BarStep(q, fs[n], setup)
  {
    hide BarStep, SoundDesk;
    assert fs[..n + 1][..n] == fs[..n];
  }

  lemma OpeningIsSound(equity: real, date: int)
    ensures SoundDesk(Opening(equity, date).sys.desk)
  {
  }

  function Opening(equity: real, date: int): Backtest {
    Backtest(Started(equity), RiskView(map[], map[], map[], RateWindows([], [])),
             Session(date, equity, equity, false, NoReason, false), map[], [equity], false, 0, map[], [])
  }
}
