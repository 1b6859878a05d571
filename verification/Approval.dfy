/**
 What an order submitted in a backtest was checked against: the prices are the last
 closes revealed, the positions those after the bar before, and what the leverage check
 promises of the book once the order fills.
 */
module Approval {
  import opened Arith
  import opened Core
  import opened Ledger
  import opened Simulator
  import opened Orders
  import opened Limiter
  import opened Breaker
  import opened Risk
  import opened Engine
  import opened Lookahead
  import opened Exposure

  // ---- What the risk engine knows ----

  /** The close of the last of these bars that is of symbol `s`. */
  function LastClose(bars: seq<Bar>, s: Symbol): Option<real> {
    if bars == [] then None
    else if bars[|bars| - 1].symbol == s then Some(bars[|bars| - 1].close)
    else LastClose(bars[..|bars| - 1], s)
  }

  function PriceIn(prices: map<Symbol, real>, s: Symbol): Option<real> {
    if s in prices then Some(prices[s]) else None
  }

  /** Prices are the last closes, for the risk engine and for the exposure alike; contract sizes are the setup's. */
  ghost predicate Informed(st: Backtest, bars: seq<Bar>, multipliers: Multipliers) {
    && st.risk.prices == st.lastPrice
    && (forall s :: PriceIn(st.lastPrice, s) == LastClose(bars, s))
    && (forall s :: s in st.lastPrice ==> MultiplierOf(st.risk.multipliers, s) == MultiplierOf(multipliers, s))
  }

  /** The risk engine knows the position of `s` as it is. */
  ghost predicate UpToDate(st: Backtest, s: Symbol) {
    UntradedIsFlat(st, s) && Known(st.risk, s) == PositionNow(st, s)
  }

  lemma RevealInforms(st: Backtest, f: Frame, setup: Setup, bars: seq<Bar>)
    requires SoundDesk(st.sys.desk) && Informed(st, bars, setup.multipliers)
    ensures Informed(BarRevealed(st, f, setup), bars + [f.bar], setup.multipliers)
  {
    hide Drained, Step, SessionDay, SoundDesk;
    assert (bars + [f.bar])[..|bars|] == bars;
    var q := BarRevealed(st, f, setup);
    forall s ensures PriceIn(q.lastPrice, s) == LastClose(bars + [f.bar], s) {
      assert PriceIn(st.lastPrice, s) == LastClose(bars, s);
    }
  }

  lemma {:induction false} ReactionsKeepInformed(st: Backtest, rs: seq<Reaction>, setup: Setup, bars: seq<Bar>)
    requires SoundDesk(st.sys.desk) && Informed(st, bars, setup.multipliers)
    ensures Informed(ReactAll(st, rs, setup), bars, setup.multipliers)
  {
    if rs != [] {
      ReactionsKeepInformed(st, rs[..|rs| - 1], setup, bars);
      hide Approves, SoundDesk, LastClose;
    }
  }

  lemma BarKeepsInformed(st: Backtest, f: Frame, setup: Setup, bars: seq<Bar>)
    requires SoundDesk(st.sys.desk) && Informed(st, bars, setup.multipliers)
    ensures Informed(BarStep(st, f, setup), bars + [f.bar], setup.multipliers)
  {
    hide BarRevealed, ReactAll, SoundDesk, Updated, Measurable, SessionDay, Traded, Position, LastClose;
    RevealInforms(st, f, setup, bars);
    ReactionsKeepInformed(BarRevealed(st, f, setup), f.reactions, setup, bars + [f.bar]);
  }

  lemma RevealKeepsUpToDate(st: Backtest, f: Frame, setup: Setup, s: Symbol)
    requires Inv(st.sys) && UpToDate(st, s)
    ensures
      var r := BarRevealed(st, f, setup);
      Inv(r.sys) && UntradedIsFlat(r, s) && Known(r.risk, s) == PositionNow(st, s)
  {
    hide BarRevealed, Inv, UntradedIsFlat, PositionNow, Known, Working, Executions, Survivors;
    Revealed(st, f, setup);
    RevealMoves(st, f, setup, s);
  }

  /** Reacting fills nothing and tells nothing. */
  lemma {:induction false} ReactionsKeepKnown(st: Backtest, rs: seq<Reaction>, setup: Setup, s: Symbol)
    requires SoundDesk(st.sys.desk) && Inv(st.sys) && UntradedIsFlat(st, s)
    ensures
      var q := ReactAll(st, rs, setup);
      Inv(q.sys) && UntradedIsFlat(q, s) && Known(q.risk, s) == Known(st.risk, s)
  {
    hide React, Inv, SoundDesk, PositionNow, Known;
    if rs != [] {
      ReactionsKeepKnown(st, rs[..|rs| - 1], setup, s);
      ReactKeepsRest(ReactAll(st, rs[..|rs| - 1], setup), rs[|rs| - 1], setup, s);
    }
  }

  lemma BarKeepsUpToDate(st: Backtest, f: Frame, setup: Setup, s: Symbol)
    requires SoundDesk(st.sys.desk) && Inv(st.sys) && UpToDate(st, s)
    ensures Inv(BarStep(st, f, setup).sys) && UpToDate(BarStep(st, f, setup), s)
  {
    hide BarRevealed, ReactAll, Inv, SoundDesk, UpToDate, BarSettled;
    UpToDateIsFlat(st, s);
    RevealKeepsUpToDate(st, f, setup, s);
    var r := BarRevealed(st, f, setup);
    ReactionsKeepKnown(r, f.reactions, setup, s);
    SettleTells(ReactAll(r, f.reactions, setup), f, setup, s);
  }

  lemma UpToDateIsFlat(st: Backtest, s: Symbol)
    requires UpToDate(st, s)
    ensures UntradedIsFlat(st, s)
  {
  }

  lemma SettleTells(st: Backtest, f: Frame, setup: Setup, s: Symbol)
    requires UntradedIsFlat(st, s)
    ensures BarSettled(st, f, setup).sys == st.sys && UpToDate(BarSettled(st, f, setup), s)
  {
    hide Updated, Measurable, SessionDay;
  }

  lemma OpeningIsInformed(equity: real, date: int, multipliers: Multipliers, s: Symbol)
    ensures Informed(Opening(equity, date), [], multipliers)
    ensures Inv(Opening(equity, date).sys) && UpToDate(Opening(equity, date), s)
  {
  }

  /** Between bars, until the run stops, the risk engine knows prices and positions as they are. */
  lemma {:induction false} ReplayIsInformed(equity: real, date: int, fs: seq<Frame>, n: nat, setup: Setup, s: Symbol)
    requires n <= |fs|
    ensures
      var q := Replayed(Opening(equity, date), fs[..n], setup);
      Inv(q.sys) && UpToDate(q, s) && (!q.stopped ==> Informed(q, BarsOf(fs)[..n], setup.multipliers))
  {
    hide Opening, BarStep, SoundDesk, Inv, UpToDate, Informed;
    OpeningIsSound(equity, date);
    OpeningIsInformed(equity, date, setup.multipliers, s);
    if n > 0 {
      ReplayIsInformed(equity, date, fs, n - 1, setup, s);
      ReplayNext(Opening(equity, date), fs, n - 1, setup);
      var q, bars := Replayed(Opening(equity, date), fs[..n - 1], setup), BarsOf(fs);
      if !q.stopped {
        assert bars[..n] == bars[..n - 1] + [fs[n - 1].bar];
        BarKeepsInformed(q, fs[n - 1], setup, bars[..n - 1]);
        BarKeepsUpToDate(q, fs[n - 1], setup, s);
      }
    } else {
      assert fs[..0] == [] && BarsOf(fs)[..0] == [];
    }
  }

  // ---- The order a reaction submits ----

  /** The price a symbol is marked at, zero before its first bar. */
  function MarkOf(bars: seq<Bar>, s: Symbol): real {
    match LastClose(bars, s)
    case Some(close) => close
    case None => 0.0
  }

  /** So many contracts at a price. */
  function Worth(n: int, price: real, contract: real): real {
    n as real * price * contract
  }

  ghost function Marked(b: Book, bars: seq<Bar>, multipliers: Multipliers): map<Symbol, real> {
    map s | s in b.open :: Worth(Abs(Position(b, s)), MarkOf(bars, s), MultiplierOf(multipliers, s))
  }

  /** What all positions are worth at the last closes, long or short. */
  ghost function MarkedExposure(b: Book, bars: seq<Bar>, multipliers: Multipliers): real {
    SumValues(Marked(b, bars, multipliers))
  }

  lemma ExposureIsMarked(st: Backtest, bars: seq<Bar>, multipliers: Multipliers)
    requires Informed(st, bars, multipliers)
    ensures GrossExposure(st.sys.desk.book, st.lastPrice, multipliers)
         == MarkedExposure(st.sys.desk.book, bars, multipliers)
  {
    var b := st.sys.desk.book;
    forall s
      ensures ExposureOf(Position(b, s), s, st.lastPrice, multipliers)
           == Worth(Abs(Position(b, s)), MarkOf(bars, s), MultiplierOf(multipliers, s))
    {
      assert PriceIn(st.lastPrice, s) == LastClose(bars, s);
    }
    hide ExposureOf, Worth, MarkOf, MultiplierOf, Position, LastClose;
    assert (map s | s in b.open :: ExposureOf(Position(b, s), s, st.lastPrice, multipliers))
        == Marked(b, bars, multipliers);
  }

  /** The state in which reaction `j` to bar `n` is handled. */
  ghost function Facing(equity: real, date: int, fs: seq<Frame>, setup: Setup, n: nat, j: nat): (st: Backtest)
    requires n < |fs| && j <= |fs[n].reactions|
    ensures SoundDesk(st.sys.desk)
  {
    OpeningIsSound(equity, date);
    ReactAll(BarRevealed(Replayed(Opening(equity, date), fs[..n], setup), fs[n], setup), fs[n].reactions[..j], setup)
  }

  /** The run gets to the reaction, and it makes the manager hand out an order id. */
  ghost predicate Submits(equity: real, date: int, fs: seq<Frame>, setup: Setup, n: nat, j: nat)
    requires n < |fs| && j < |fs[n].reactions|
  {
    OpeningIsSound(equity, date);
    var st := Facing(equity, date, fs, setup, n, j);
    && !Replayed(Opening(equity, date), fs[..n], setup).stopped
    && React(st, fs[n].reactions[j], setup).sys.nextId != st.sys.nextId
  }

  /** The order in money: its whole quantity at the mark of its symbol. */
  function MoneyOf(sig: Signal, bars: seq<Bar>, multipliers: Multipliers): real {
    Worth(Abs(sig.targetQuantity), MarkOf(bars, sig.symbol), MultiplierOf(multipliers, sig.symbol))
  }

  /** What an order has to keep to, given the book, the bars seen, and the position the risk engine goes by. */
  ghost predicate WithinLimits(sig: Signal, b: Book, bars: seq<Bar>, held: int, setup: Setup) {
    var s, size, limits, rules := sig.symbol, Abs(sig.targetQuantity), setup.limits, setup.margin;
    var projected := Abs(if sig.side.Buy? then held + sig.targetQuantity else held - sig.targetQuantity);
    && 1 <= size <= limits.maxContractsPerOrder && projected <= limits.maxContractsPerSymbol
    && 0.0 < MarkOf(bars, s) && MoneyOf(sig, bars, setup.multipliers) <= limits.maxPositionNotional
    && 0.0 < b.equity
    && MarkedExposure(b, bars, setup.multipliers) + MoneyOf(sig, bars, setup.multipliers)
       <= limits.maxGrossLeverage * b.equity
    && s in rules.schedule
    && projected as real * rules.schedule[s].initial * (1.0 + rules.initialBufferPct / 100.0) <= b.equity
    && projected as real * rules.schedule[s].maintenance * (1.0 + rules.maintenanceBufferPct / 100.0) <= b.equity
  }

  lemma SubmittedIsPermitted(st: Backtest, r: Reaction, setup: Setup)
    requires SoundDesk(st.sys.desk) && React(st, r, setup).sys.nextId != st.sys.nextId
    ensures Approves(st, r, setup)
  {
    hide Approves, SubmitTo;
  }

  lemma PermittedIsWithinLimits(st: Backtest, r: Reaction, bars: seq<Bar>, held: int, setup: Setup)
    requires Informed(st, bars, setup.multipliers) && held == Known(st.risk, r.signal.symbol)
    requires Approves(st, r, setup)
    ensures WithinLimits(r.signal, st.sys.desk.book, bars, held, setup) && !st.session.halted
  {
    hide Permitted, HasRoom, Trimmed, GrossExposure, MarkedExposure, LastClose;
    var s, book := r.signal.symbol, st.sys.desk.book;
    ExposureIsMarked(st, bars, setup.multipliers);
    PermittedIff(st.risk, setup.limits, setup.margin, st.session.halted, r.signal, book.equity,
                 GrossExposure(book, st.lastPrice, setup.multipliers), r.clock);
    assert PriceIn(st.lastPrice, s) == LastClose(bars, s);
  }

  /**
   Every order a backtest submits is, when it is submitted, of allowed size, worth no more
   than the notional limit, within the leverage of the account together with all that is
   open, and covered by the margin of the position it adds up to, at the last closes
   revealed and with the position held before the bar it reacts to; and no halt is on.
   */
  lemma SubmittedIsWithinLimits(equity: real, date: int, fs: seq<Frame>, setup: Setup, n: nat, j: nat)
    requires n < |fs| && j < |fs[n].reactions| && Submits(equity, date, fs, setup, n, j)
    ensures SoundDesk(Opening(equity, date).sys.desk)
    ensures
      var st, sig := Facing(equity, date, fs, setup, n, j), fs[n].reactions[j].signal;
      var held := PositionNow(Replayed(Opening(equity, date), fs[..n], setup), sig.symbol);
      !st.session.halted && WithinLimits(sig, st.sys.desk.book, BarsOf(fs)[..n + 1], held, setup)
  {
    hide Opening, SoundDesk, Inv, UpToDate, Informed, WithinLimits, PositionNow, Known, BarRevealed, React, Approves,
         UntradedIsFlat;
    OpeningIsSound(equity, date);
    var r, bars := fs[n].reactions[j], BarsOf(fs);
    var s, q := r.signal.symbol, Replayed(Opening(equity, date), fs[..n], setup);
    ReplayIsInformed(equity, date, fs, n, setup, s);
    assert bars[..n + 1] == bars[..n] + [fs[n].bar];
    RevealInforms(q, fs[n], setup, bars[..n]);
    RevealKeepsUpToDate(q, fs[n], setup, s);
    ReactionsKeepInformed(BarRevealed(q, fs[n], setup), fs[n].reactions[..j], setup, bars[..n + 1]);
    ReactionsKeepKnown(BarRevealed(q, fs[n], setup), fs[n].reactions[..j], setup, s);
    var st := Facing(equity, date, fs, setup, n, j);
    SubmittedIsPermitted(st, r, setup);
    PermittedIsWithinLimits(st, r, bars[..n + 1], PositionNow(q, s), setup);
  }

  // ---- Once it fills ----

  lemma WorthGrows(m: int, n: int, price: real, contract: real)
    requires m <= n && 0.0 <= price && 0.0 <= contract
    ensures Worth(m, price, contract) <= Worth(n, price, contract)
  {
    ScaleLe(m as real, n as real, price);
    ScaleLe(m as real * price, n as real * price, contract);
  }

  lemma WorthAdds(m: int, n: int, price: real, contract: real)
    ensures Worth(m + n, price, contract) == Worth(m, price, contract) + Worth(n, price, contract)
    ensures Worth(0, price, contract) == 0.0
  {
    Distribute(m as real, n as real, price);
    Distribute(m as real * price, n as real * price, contract);
  }

  /** One more fill moves the worth of a position by at most its own worth. */
  lemma WorthTriangle(before: int, fill: int, price: real, contract: real)
    requires 0.0 <= price && 0.0 <= contract
    ensures Worth(Abs(before + fill), price, contract)
         <= Worth(Abs(before), price, contract) + Worth(Abs(fill), price, contract)
  {
    hide Worth;
    WorthGrows(Abs(before + fill), Abs(before) + Abs(fill), price, contract);
    WorthAdds(Abs(before), Abs(fill), price, contract);
  }

  /** A fill of the order, in whole or in part. */
  predicate FillsOrder(e: Execution, sig: Signal) {
    e.symbol == sig.symbol && e.side == sig.side && 0 < e.quantity <= Abs(sig.targetQuantity)
  }

  lemma FillMovesExposure(b: Book, e: Execution, own: Multipliers, bars: seq<Bar>, multipliers: Multipliers)
    requires SoundBook(b) && 0 < e.quantity
    requires 0.0 <= MarkOf(bars, e.symbol) && 0.0 <= MultiplierOf(multipliers, e.symbol)
    ensures MarkedExposure(Post(b, e, own), bars, multipliers)
         <= MarkedExposure(b, bars, multipliers)
            + Worth(e.quantity, MarkOf(bars, e.symbol), MultiplierOf(multipliers, e.symbol))
  {
    hide Post, MarkOf, MultiplierOf, Worth, Position;
    var r, s := Post(b, e, own), e.symbol;
    OtherMarksUnmoved(b, r, s, bars, multipliers);
    SumMoves(Marked(b, bars, multipliers), Marked(r, bars, multipliers), s);
    WorthTriangle(Position(b, s), SignedQuantity(e), MarkOf(bars, s), MultiplierOf(multipliers, s));
    WorthAdds(0, 0, MarkOf(bars, s), MultiplierOf(multipliers, s));
    WorthAt(b, s, bars, multipliers);
    WorthAt(r, s, bars, multipliers);
  }

  lemma WorthAt(b: Book, s: Symbol, bars: seq<Bar>, multipliers: Multipliers)
    ensures Worth(Abs(Position(b, s)), MarkOf(bars, s), MultiplierOf(multipliers, s))
         == if s in Marked(b, bars, multipliers) then Marked(b, bars, multipliers)[s] else 0.0
  {
    hide MarkOf, MultiplierOf, Worth;
    WorthAdds(0, 0, MarkOf(bars, s), MultiplierOf(multipliers, s));
  }

  lemma OtherMarksUnmoved(b: Book, r: Book, s: Symbol, bars: seq<Bar>, multipliers: Multipliers)
    requires forall t :: t != s ==> HoldingIn(r, t) == HoldingIn(b, t)
    ensures Marked(b, bars, multipliers) - {s} == Marked(r, bars, multipliers) - {s}
  {
    forall t | t != s ensures (t in r.open <==> t in b.open) && Position(r, t) == Position(b, t) {
      assert HoldingIn(r, t) == HoldingIn(b, t);
    }
    hide MarkOf, MultiplierOf, Worth, Position, HoldingIn;
  }

  /**
   However an order a backtest submits then fills against the book it was checked with, in
   whole or in part and at any price, the gross exposure at the closes it was checked with
   stays within the allowed multiple of the equity it was checked with.
   */
  lemma FilledOrderKeepsLeverage(equity: real, date: int, fs: seq<Frame>, setup: Setup, n: nat, j: nat, e: Execution)
    requires n < |fs| && j < |fs[n].reactions| && Submits(equity, date, fs, setup, n, j)
    requires FillsOrder(e, fs[n].reactions[j].signal) && 0.0 <= MultiplierOf(setup.multipliers, e.symbol)
    ensures
      var b := Facing(equity, date, fs, setup, n, j).sys.desk.book;
      && SoundBook(b)
      && MarkedExposure(Post(b, e, setup.terms.multipliers), BarsOf(fs)[..n + 1], setup.multipliers)
         <= setup.limits.maxGrossLeverage * b.equity
  {
    hide Facing, Submits, Replayed, MarkedExposure, MarkOf, MultiplierOf, Post, PositionNow, Opening, Worth, SoundDesk,
         SoundBook, WithinLimits;
    SubmittedIsWithinLimits(equity, date, fs, setup, n, j);
    var sig, bars := fs[n].reactions[j].signal, BarsOf(fs)[..n + 1];
    var held := PositionNow(Replayed(Opening(equity, date), fs[..n], setup), sig.symbol);
    var d := Facing(equity, date, fs, setup, n, j).sys.desk;
    DeskHasSoundBook(d);
    WithinLeverage(sig, d.book, bars, held, setup);
    FillMovesExposure(d.book, e, setup.terms.multipliers, bars, setup.multipliers);
    WorthGrows(e.quantity, Abs(sig.targetQuantity), MarkOf(bars, e.symbol), MultiplierOf(setup.multipliers, e.symbol));
  }

  lemma DeskHasSoundBook(d: Desk)
    requires SoundDesk(d)
    ensures SoundBook(d.book)
  {
  }

  lemma WithinLeverage(sig: Signal, b: Book, bars: seq<Bar>, held: int, setup: Setup)
    requires WithinLimits(sig, b, bars, held, setup)
    ensures 0.0 < MarkOf(bars, sig.symbol)
    ensures MarkedExposure(b, bars, setup.multipliers)
            + Worth(Abs(sig.targetQuantity), MarkOf(bars, sig.symbol), MultiplierOf(setup.multipliers, sig.symbol))
         <= setup.limits.maxGrossLeverage * b.equity
  {
    hide MarkedExposure, MarkOf, MultiplierOf, Worth;
  }
}
