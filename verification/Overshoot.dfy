/**
 How far the per-symbol position limit can really be exceeded: for all limits and every
 number of orders at a time there is a backtest that reaches the bound, and one that
 reaches the wider bound when targets may be negative.
 */
module Overshoot {
  import opened Core
  import opened Ledger
  import opened Simulator
  import opened Orders
  import opened Windows
  import opened Limiter
  import opened Breaker
  import opened Risk
  import opened Engine
  import opened Lookahead
  import opened Exposure

  /** `n` orders at a time, a limit of `m` per symbol and of `o` per order. */
  datatype Case = Case(n: int, m: int, o: int)

  predicate Fits(c: Case) {
    1 <= c.n && 1 <= c.m && 1 <= c.o
  }

  /** `k` orders of size `q`. */
  function Lot(k: int, q: int): int {
    k * q
  }

  lemma OneMoreLot(k: int, q: int)
    ensures Lot(0, q) == 0 && Lot(1, q) == q && Lot(k + 1, q) == Lot(k, q) + q
  {
  }

  lemma LotsPositive(k: int, q: int)
    requires 0 <= k && 0 <= q
    ensures 0 <= Lot(k, q)
  {
  }

  /** No position gets larger than this, and no backtest here attempts more orders. */
  function Peak(c: Case): int {
    c.m + c.o + 2 * Lot(c.n, c.o)
  }

  function Attempts(c: Case): int {
    2 * (c.m + c.o) + 2 * c.n + 1
  }

  function LimitsOf(c: Case): RiskLimits {
    RiskLimits(c.o, c.m, c.o as real, Limits((Attempts(c) + 1) as real, Attempts(c) + 1), 1.0)
  }

  function SetupOf(c: Case): Setup {
    Setup(Terms(map[], 0.0, 0.0), LimitsOf(c),
          MarginRules(map[0 := MarginRequirement(0.0, 0.0)], 0.0, 0.0), 100.0, map[])
  }

  function EquityOf(c: Case): real {
    (Peak(c) + c.o) as real
  }

  lemma EquitySuffices(c: Case)
    requires Fits(c)
    ensures 0.0 < EquityOf(c) && 0 < Peak(c)
  {
    LotsPositive(c.n, c.o);
  }

  // ---- Bars answered by market orders ----

  /** An order of one side; what it asks for is the target's size, whatever its sign. */
  datatype Ask = Ask(side: Side, target: int)

  function SignalOf(a: Ask): Signal {
    Signal(0, a.side, a.target, Market, None, Day)
  }

  function FlatQuotes(): Quotes {
    (id: OrderId) => 1.0
  }

  function Asked(k: nat, a: Ask, ts: int): seq<Reaction> {
    if k == 0 then [] else Asked(k - 1, a, ts) + [Reaction(SignalOf(a), ts as real)]
  }

  /** A bar at a price of one, answered by `k` such orders. */
  function FrameAt(ts: int, k: nat, a: Ask): Frame {
    Frame(Bar(ts, 0, 1.0, 1.0, 1.0, 1.0, 0.0), FlatQuotes(), Asked(k, a, ts))
  }

  // ---- The states such a backtest goes through ----

  /** Working market orders of this side and size. */
  predicate AllFor(ps: seq<Pending>, a: Ask) {
    forall i :: 0 <= i < |ps| ==>
      ps[i].request.side == a.side && ps[i].request.orderType.Market? && ps[i].remaining == Abs(a.target)
  }

  /** Everything was bought and sold at a price of one, so equity has not moved. */
  predicate AtPar(b: Book, equity: real) {
    b.equity == equity && b.open.Keys <= {0} && (0 in b.open ==> b.open[0].avgEntry == 1.0)
  }

  /** At the broker: a position at par, and `k` orders working. */
  ghost predicate CalmDesk(st: Backtest, c: Case, position: int, k: int, a: Ask) {
    && Inv(st.sys) && UntradedIsFlat(st, 0)
    && AtPar(st.sys.desk.book, EquityOf(c)) && PositionNow(st, 0) == position
    && st.sys.desk.pending.Keys <= {0}
    && |Working(st, 0)| == k && AllFor(Working(st, 0), a)
  }

  /** Around the broker: an untroubled breaker, one known symbol, few attempts. */
  ghost predicate CalmView(st: Backtest, c: Case, attempts: int) {
    && !st.stopped
    && st.session == Session(st.session.date, EquityOf(c), EquityOf(c), false, NoReason, false)
    && st.risk.prices.Keys <= {0} && st.risk.multipliers.Keys <= {0} && st.lastPrice.Keys <= {0}
    && |st.risk.windows.second| <= attempts && |st.risk.windows.minute| <= attempts
  }

  /** The one known price is one. */
  ghost predicate Priced(st: Backtest) {
    st.risk.prices == map[0 := 1.0] && st.risk.multipliers == map[0 := 1.0] && st.lastPrice == map[0 := 1.0]
  }

  // ---- A bar fills what works ----

  lemma BlendAtPar(m: int, n: int)
    requires 0 <= m && 0 <= n && 0 < m + n
    ensures Blend(1.0, m, 1.0, n) == 1.0
  {
    var r, total := Blend(1.0, m, 1.0, n), (m + n) as real;
    assert r * total == total;
    assert total / total == 1.0;
  }

  lemma NoProfitAtPar(side: Side, n: int, multiplier: real)
    ensures Profit(side, 1.0, 1.0, n, multiplier) == 0.0
  {
  }

  /** Without commission a fill at par leaves equity alone, whatever it does. */
  lemma ParIsFree(b: Book, e: Execution, equity: real)
    requires SoundBook(b) && AtPar(b, equity)
    requires e.symbol == 0 && 0 < e.quantity && e.price == 1.0 && e.commission == 0.0
    ensures AtPar(Post(b, e, map[]), equity)
  {
    hide Blend, Profit;
    if 0 in b.open {
      var h := b.open[0];
      BlendAtPar(h.quantity, e.quantity);
      NoProfitAtPar(h.side, e.quantity, 1.0);
      NoProfitAtPar(h.side, h.quantity, 1.0);
    }
  }

  function Batch(k: int, a: Ask): int {
    Signed(a.side, Lot(k, Abs(a.target)))
  }

  /** Market orders all leave with one bar and are all in the position. */
  lemma {:induction false} MarketFills(b: Book, ps: seq<Pending>, f: Frame, c: Case, a: Ask)
    requires SoundBook(b) && AtPar(b, EquityOf(c)) && AllFor(ps, a) && Unfilled(ps)
    requires f.bar.symbol == 0 && f.quotes == FlatQuotes()
    ensures AtPar(Replay(b, Executions(ps, f.bar, f.quotes, SetupOf(c).terms), map[]), EquityOf(c))
    ensures Survivors(ps, f.bar, SetupOf(c).terms) == []
    ensures SumSigned(Executions(ps, f.bar, f.quotes, SetupOf(c).terms), 0) == Batch(|ps|, a)
  {
    hide AtPar, Post, EquityOf, ExecutionOf, SoundBook, FillQuantity, Lot, Executions, Survivors, SumSigned, Survives;
    NothingLeft(f.bar, f.quotes, SetupOf(c).terms, Buy);
    OneMoreLot(|ps| - 1, Abs(a.target));
    if ps == [] {
      ReplayNone(b, map[]);
    } else {
      var init, p := ps[..|ps| - 1], ps[|ps| - 1];
      assert init + [p] == ps;
      MarketFills(b, init, f, c, a);
      BarOfLast(init, p, f.bar, f.quotes, SetupOf(c).terms);
      MarketExecutes(p, f, c);
      var es := Executions(init, f.bar, f.quotes, SetupOf(c).terms);
      if 0 < p.remaining {
        var e := ExecutionOf(p, p.remaining, f.quotes(p.request.orderId), f.bar, SetupOf(c).terms);
        ReplayLast(b, es, e, map[]);
        ParIsFree(Replay(b, es, map[]), e, EquityOf(c));
        SumSignedAppend(es, e, 0);
      } else {
        assert es + [] == es;
      }
    }
  }

  lemma MarketExecutes(p: Pending, f: Frame, c: Case)
    requires p.request.orderType.Market? && 0 <= p.remaining && f.bar.symbol == 0 && f.quotes == FlatQuotes()
    ensures FillQuantity(p, f.bar, SetupOf(c).terms) == p.remaining && !Survives(p, f.bar, SetupOf(c).terms)
    ensures
      var e := ExecutionOf(p, p.remaining, f.quotes(p.request.orderId), f.bar, SetupOf(c).terms);
      && e.symbol == 0 && e.quantity == p.remaining && e.price == 1.0 && e.commission == 0.0
      && SignedQuantity(e) == Signed(p.request.side, p.remaining)
  {
  }

  lemma RevealKeepsView(st: Backtest, f: Frame, c: Case, attempts: int)
    requires SoundDesk(st.sys.desk) && CalmView(st, c, attempts)
    requires AtPar(st.sys.desk.book, EquityOf(c)) && f.bar.symbol == 0 && f.bar.close == 1.0
    ensures
      var r := BarRevealed(st, f, SetupOf(c));
      && CalmView(r, c, attempts) && Priced(r)
      && r.session.date == SessionDay(f.bar.ts)
  {
    hide Drained, Step, SoundDesk, EquityOf;
  }

  lemma RevealStaysAtPar(st: Backtest, f: Frame, c: Case, position: int, k: int, a: Ask)
    requires CalmDesk(st, c, position, k, a) && f.bar.symbol == 0 && f.quotes == FlatQuotes()
    ensures AtPar(BarRevealed(st, f, SetupOf(c)).sys.desk.book, EquityOf(c))
    ensures BarRevealed(st, f, SetupOf(c)).sys.desk.pending.Keys <= {0}
    ensures Survivors(Working(st, 0), f.bar, SetupOf(c).terms) == []
    ensures SumSigned(Executions(Working(st, 0), f.bar, f.quotes, SetupOf(c).terms), 0) == Batch(k, a)
  {
    var ps := Working(st, 0);
    assert SoundBook(st.sys.desk.book) && Unfilled(ps);
    hide Inv, Executions, Replay, AtPar, BarRevealed, EquityOf, Survivors, SumSigned, Batch;
    MarketFills(st.sys.desk.book, ps, f, c, a);
    Revealed(st, f, SetupOf(c));
  }

  lemma RevealKeepsDesk(st: Backtest, f: Frame, c: Case, position: int, k: int, a: Ask, b: Ask)
    requires CalmDesk(st, c, position, k, a) && f.bar.symbol == 0 && f.quotes == FlatQuotes()
    ensures
      var r := BarRevealed(st, f, SetupOf(c));
      && CalmDesk(r, c, position + Batch(k, a), 0, b)
      && Known(r.risk, 0) == Known(st.risk, 0)
  {
    hide Inv, UntradedIsFlat, PositionNow, AtPar, BarRevealed, Working, Known, EquityOf, Batch, Executions, Survivors,
         SumSigned;
    RevealStaysAtPar(st, f, c, position, k, a);
    Revealed(st, f, SetupOf(c));
    RevealMoves(st, f, SetupOf(c), 0);
  }

  // ---- A reaction sends one order ----

  lemma {:induction false} TrimShortens(q: seq<real>, now: real, width: real)
    ensures |Trim(q, Instant(), now, width)| <= |q|
  {
    if q != [] {
      TrimShortens(q[1..], now, width);
    }
  }

  /** Room in the view, in the account and at the rate limiter. */
  predicate Room(known: int, c: Case, position: int, a: Ask, attempts: int) {
    && Fits(c) && 1 <= Abs(a.target) <= c.o && Abs(known + Signed(a.side, a.target)) <= c.m
    && Abs(position) <= Peak(c) && attempts < Attempts(c)
  }

  /** The risk engine permits an order that the view it has leaves room for. */
  lemma OrderPermitted(v: RiskView, c: Case, a: Ask, gross: real, now: real)
    requires Fits(c) && 1 <= Abs(a.target) <= c.o && Abs(Known(v, 0) + Signed(a.side, a.target)) <= c.m
    requires v.prices == map[0 := 1.0] && v.multipliers == map[0 := 1.0]
    requires |v.windows.second| < Attempts(c) && |v.windows.minute| < Attempts(c)
    requires 0.0 < EquityOf(c) && gross + Abs(a.target) as real <= EquityOf(c)
    ensures Permitted(v, LimitsOf(c), SetupOf(c).margin, false, SignalOf(a), EquityOf(c), gross, now)
  {
    TrimShortens(v.windows.second, now, 1.0);
    TrimShortens(v.windows.minute, now, 60.0);
    assert OrderNotional(v, SignalOf(a)) == Abs(a.target) as real;
    AtMostAll(gross + Abs(a.target) as real, EquityOf(c));
    NoMargin(v, c, SignalOf(a));
    hide EquityOf, MarginCovers, Trim, OrderNotional;
  }

  lemma AtMostAll(x: real, y: real)
    requires x <= y && 0.0 < y
    ensures x / y <= 1.0
  {
  }

  lemma NoMargin(v: RiskView, c: Case, sig: Signal)
    requires sig.symbol == 0 && 0.0 < EquityOf(c)
    ensures MarginCovers(SetupOf(c).margin, v, sig, EquityOf(c))
  {
    var contracts := Abs(Projected(v, sig)) as real;
    assert contracts * 0.0 == 0.0;
  }

  lemma SmallGross(st: Backtest, c: Case, position: int, k: int, a: Ask)
    requires CalmDesk(st, c, position, k, a) && st.lastPrice == map[0 := 1.0]
    ensures GrossExposure(st.sys.desk.book, st.lastPrice, map[]) <= Abs(position) as real
  {
    var b := st.sys.desk.book;
    hide Inv, EquityOf, UntradedIsFlat, Working;
    var m := map s | s in b.open :: ExposureOf(Position(b, s), s, st.lastPrice, map[]);
    assert GrossExposure(b, st.lastPrice, map[]) == SumValues(m);
    if 0 in b.open {
      assert m[0] == Abs(position) as real;
      SumValuesRemove(m, 0);
      assert m - {0} == map[];
    } else {
      assert m == map[];
    }
  }

  lemma OrderApproved(r: Backtest, c: Case, now: real, position: int, k: int, a: Ask, attempts: int)
    requires CalmDesk(r, c, position, k, a) && CalmView(r, c, attempts) && Priced(r)
    requires Room(Known(r.risk, 0), c, position, a, attempts)
    ensures Approves(r, Reaction(SignalOf(a), now), SetupOf(c))
  {
    SmallGross(r, c, position, k, a);
    EquitySuffices(c);
    assert r.sys.desk.book.equity == EquityOf(c) && !r.session.halted;
    assert GrossExposure(r.sys.desk.book, r.lastPrice, map[]) + Abs(a.target) as real <= EquityOf(c);
    hide Inv, GrossExposure, Permitted, CalmDesk, Peak;
    OrderPermitted(r.risk, c, a, GrossExposure(r.sys.desk.book, r.lastPrice, map[]), now);
  }

  lemma SentKeepsDesk(r: Backtest, c: Case, now: real, position: int, k: int, a: Ask)
    requires CalmDesk(r, c, position, k, a) && SoundDesk(r.sys.desk)
    requires Approves(r, Reaction(SignalOf(a), now), SetupOf(c))
    ensures CalmDesk(React(r, Reaction(SignalOf(a), now), SetupOf(c)), c, position, k + 1, a)
  {
    hide Inv, Approves, EquityOf, WindowsAfterCheck;
    SubmitKeeps(r.sys, SignalOf(a));
  }

  lemma SentKeepsView(r: Backtest, c: Case, now: real, a: Ask, attempts: int)
    requires CalmView(r, c, attempts) && Priced(r) && SoundDesk(r.sys.desk)
    ensures
      var x := React(r, Reaction(SignalOf(a), now), SetupOf(c));
      && CalmView(x, c, attempts + 1) && Priced(x)
      && Known(x.risk, 0) == Known(r.risk, 0) && x.session.date == r.session.date
  {
    hide Approves, EquityOf, SubmitTo;
    TrimShortens(r.risk.windows.second, now, 1.0);
    TrimShortens(r.risk.windows.minute, now, 60.0);
  }

  /** With room for it the order passes every check and starts working. */
  lemma OrderIsSent(r: Backtest, c: Case, now: real, position: int, k: int, a: Ask, attempts: int)
    requires CalmDesk(r, c, position, k, a) && CalmView(r, c, attempts) && Priced(r)
    requires Room(Known(r.risk, 0), c, position, a, attempts)
    ensures SoundDesk(r.sys.desk)
    ensures
      var x := React(r, Reaction(SignalOf(a), now), SetupOf(c));
      && CalmDesk(x, c, position, k + 1, a) && CalmView(x, c, attempts + 1) && Priced(x)
      && Known(x.risk, 0) == Known(r.risk, 0) && x.session.date == r.session.date
  {
    hide CalmView, Priced, Approves, React, Room, Inv, SoundDesk;
    InvIsSound(r.sys);
    OrderApproved(r, c, now, position, k, a, attempts);
    SentKeepsDesk(r, c, now, position, k, a);
    SentKeepsView(r, c, now, a, attempts);
  }

  /** The state after a bar and some of its reactions: `known` is what the risk engine was told. */
  ghost predicate Calm(st: Backtest, c: Case, position: int, k: int, a: Ask, known: int, attempts: int) {
    && CalmDesk(st, c, position, k, a) && CalmView(st, c, attempts) && Known(st.risk, 0) == known
  }

  /** Calm, with the price known, on one day. */
  ghost predicate Reacting(st: Backtest, c: Case, position: int, k: int, a: Ask, known: int, attempts: int,
                           date: int) {
    Calm(st, c, position, k, a, known, attempts) && Priced(st) && st.session.date == date
  }

  lemma AskedOneMore(r: Backtest, ts: int, k: nat, a: Ask, c: Case)
    requires SoundDesk(r.sys.desk)
    ensures ReactAll(r, Asked(0, a, ts), SetupOf(c)) == r
    ensures ReactAll(r, Asked(k + 1, a, ts), SetupOf(c))
         == React(ReactAll(r, Asked(k, a, ts), SetupOf(c)), Reaction(SignalOf(a), ts as real), SetupOf(c))
  {
    hide React, SoundDesk, SetupOf;
    var rs := Asked(k + 1, a, ts);
    assert rs[..|rs| - 1] == Asked(k, a, ts);
  }

  lemma NextIsSent(x: Backtest, c: Case, ts: int, position: int, k: int, a: Ask, known: int, attempts: int, date: int)
    requires Reacting(x, c, position, k, a, known, attempts, date) && Room(known, c, position, a, attempts)
    ensures SoundDesk(x.sys.desk)
    ensures Reacting(React(x, Reaction(SignalOf(a), ts as real), SetupOf(c)), c, position, k + 1, a, known,
                     attempts + 1, date)
  {
    assert SoundDesk(x.sys.desk);
    hide CalmDesk, CalmView, Priced, React, SetupOf, Room;
    OrderIsSent(x, c, ts as real, position, k, a, attempts);
  }

  lemma {:induction false} AllAreSent(r: Backtest, c: Case, ts: int, position: int, k: nat, a: Ask, known: int,
                                      attempts: int, date: int)
    requires SoundDesk(r.sys.desk) && Reacting(r, c, position, 0, a, known, attempts, date)
    requires 0 < k ==> Room(known, c, position, a, attempts + k - 1)
    ensures Reacting(ReactAll(r, Asked(k, a, ts), SetupOf(c)), c, position, k, a, known, attempts + k, date)
  {
    hide Reacting, React, ReactAll, SetupOf, SoundDesk, Peak;
    AskedOneMore(r, ts, if k > 0 then k - 1 else 0, a, c);
    if k > 0 {
      AllAreSent(r, c, ts, position, k - 1, a, known, attempts, date);
      var x := ReactAll(r, Asked(k - 1, a, ts), SetupOf(c));
      NextIsSent(x, c, ts, position, k - 1, a, known, attempts + k - 1, date);
    }
  }

  lemma SettleKeepsCalm(st: Backtest, f: Frame, c: Case, position: int, k: int, a: Ask, known: int, attempts: int)
    requires Calm(st, c, position, k, a, known, attempts) && st.session.date == SessionDay(f.bar.ts)
    requires 0.0 < EquityOf(c)
    ensures Calm(BarSettled(st, f, SetupOf(c)), c, position, k, a, position, attempts)
  {
    hide Inv, EquityOf, SessionDay, Position;
  }

  /** One bar: what worked is filled, `k` orders are sent, and the view catches up. */
  lemma Round(st: Backtest, c: Case, ts: int, position: int, had: int, old_: Ask, k: nat, a: Ask, known: int,
              attempts: int)
    requires Calm(st, c, position, had, old_, known, attempts) && Fits(c)
    requires 0 < k ==> Room(known, c, position + Batch(had, old_), a, attempts + k - 1)
    ensures
      var now := position + Batch(had, old_);
      Calm(BarStep(st, FrameAt(ts, k, a), SetupOf(c)), c, now, k, a, now, attempts + k)
  {
    hide BarRevealed, CalmDesk, CalmView, BarSettled, ReactAll, Room, Batch, SetupOf, SoundDesk, Priced, Known,
         EquityOf;
    var f, now := FrameAt(ts, k, a), position + Batch(had, old_);
    CalmIsSound(st, c, position, had, old_, known, attempts);
    RevealKeepsDesk(st, f, c, position, had, old_, a);
    RevealKeepsView(st, f, c, attempts);
    var r := BarRevealed(st, f, SetupOf(c));
    AllAreSent(r, c, ts, now, k, a, known, attempts, SessionDay(ts));
    SettleKeepsCalm(ReactAll(r, f.reactions, SetupOf(c)), f, c, now, k, a, known, attempts + k);
  }

  lemma CalmIsSound(st: Backtest, c: Case, position: int, k: int, a: Ask, known: int, attempts: int)
    requires Calm(st, c, position, k, a, known, attempts) && Fits(c)
    ensures SoundDesk(st.sys.desk) && AtPar(st.sys.desk.book, EquityOf(c)) && 0.0 < EquityOf(c)
  {
    EquitySuffices(c);
  }

  // ---- Runs of such bars ----

  /** The backtest of these frames, starting flat. */
  ghost function Trial(c: Case, fs: seq<Frame>): (st: Backtest)
    ensures SoundDesk(st.sys.desk)
  {
    Replayed(Opening(EquityOf(c), 0), fs, SetupOf(c))
  }

  lemma TrialOneMore(c: Case, fs: seq<Frame>, f: Frame)
    requires !Trial(c, fs).stopped
    ensures Trial(c, fs + [f]) == BarStep(Trial(c, fs), f, SetupOf(c))
  {
    hide BarStep, Opening, EquityOf, SetupOf;
    assert (fs + [f])[..|fs|] == fs;
  }

  ghost predicate WorkAtMost(c: Case, fs: seq<Frame>) {
    forall i, s :: 0 <= i <= |fs| ==> |Working(Trial(c, fs[..i]), s)| <= c.n
  }

  /** Where the backtest stands, with never more than `n` orders working on the way. */
  ghost predicate Stands(c: Case, fs: seq<Frame>, position: int, k: int, a: Ask, known: int, attempts: int) {
    Calm(Trial(c, fs), c, position, k, a, known, attempts) && WorkAtMost(c, fs)
  }

  lemma CalmWorks(st: Backtest, c: Case, position: int, k: int, a: Ask, known: int, attempts: int)
    requires Calm(st, c, position, k, a, known, attempts) && k <= c.n
    ensures forall s :: |Working(st, s)| <= c.n
  {
    hide Inv, EquityOf;
    assert forall s :: s != 0 ==> s !in st.sys.desk.pending;
  }

  lemma WorkAtMostOn(c: Case, fs: seq<Frame>, f: Frame)
    requires WorkAtMost(c, fs) && forall s :: |Working(Trial(c, fs + [f]), s)| <= c.n
    ensures WorkAtMost(c, fs + [f])
  {
    hide Trial, Working;
    var longer := fs + [f];
    forall i, s | 0 <= i <= |longer| ensures |Working(Trial(c, longer[..i]), s)| <= c.n {
      assert longer[..i] == if i <= |fs| then fs[..i] else longer;
    }
  }

  lemma NextRound(c: Case, fs: seq<Frame>, position: int, had: int, old_: Ask, k: nat, a: Ask, known: int,
                  attempts: int)
    requires Stands(c, fs, position, had, old_, known, attempts) && Fits(c) && k <= c.n
    requires 0 < k ==> Room(known, c, position + Batch(had, old_), a, attempts + k - 1)
    ensures
      var now := position + Batch(had, old_);
      Stands(c, fs + [FrameAt(|fs|, k, a)], now, k, a, now, attempts + k)
  {
    hide Calm, BarStep, Trial, Batch, WorkAtMost, Working, EquityOf, Room, SetupOf, FrameAt;
    var f, now := FrameAt(|fs|, k, a), position + Batch(had, old_);
    CalmRuns(Trial(c, fs), c, position, had, old_, known, attempts);
    Round(Trial(c, fs), c, |fs|, position, had, old_, k, a, known, attempts);
    TrialOneMore(c, fs, f);
    CalmWorks(Trial(c, fs + [f]), c, now, k, a, now, attempts + k);
    WorkAtMostOn(c, fs, f);
  }

  lemma CalmRuns(st: Backtest, c: Case, position: int, k: int, a: Ask, known: int, attempts: int)
    requires Calm(st, c, position, k, a, known, attempts)
    ensures !st.stopped
  {
  }

  lemma StandsFlat(c: Case, a: Ask)
    requires Fits(c)
    ensures Stands(c, [], 0, 0, a, 0, 0)
  {
    var st := Trial(c, []);
    assert Inv(st.sys) && PositionNow(st, 0) == 0 && Working(st, 0) == [];
  }

  /** No target among the reactions is negative. */
  lemma {:induction false} AskedAreSigned(k: nat, a: Ask, ts: int)
    requires 0 < k ==> 0 <= a.target
    ensures forall j :: 0 <= j < |Asked(k, a, ts)| ==> 0 <= Asked(k, a, ts)[j].signal.targetQuantity
  {
    if k > 0 {
      AskedAreSigned(k - 1, a, ts);
    }
  }

  lemma SignedOn(fs: seq<Frame>, k: nat, a: Ask)
    requires TargetsSigned(fs) && (0 < k ==> 0 <= a.target)
    ensures TargetsSigned(fs + [FrameAt(|fs|, k, a)])
  {
    AskedAreSigned(k, a, |fs|);
    hide Asked;
  }

  // ---- Driving the view to a given position ----

  const IDLE := Ask(Buy, 1)

  /** Nothing works, and the view shows the position. */
  ghost predicate Rests(c: Case, fs: seq<Frame>, position: int, attempts: int) {
    exists a :: Stands(c, fs, position, 0, a, position, attempts)
  }

  lemma SmallBatches(a: Ask)
    ensures Batch(0, a) == 0 && Batch(1, a) == Signed(a.side, Abs(a.target))
  {
    OneMoreLot(0, Abs(a.target));
    hide Lot;
  }

  /** One order, and a bar to fill it and let the view catch up. */
  lemma OneStep(c: Case, fs: seq<Frame>, position: int, a: Ask, attempts: int) returns (gs: seq<Frame>)
    requires Rests(c, fs, position, attempts) && Room(position, c, position, a, attempts)
    ensures Rests(c, gs, position + Signed(a.side, Abs(a.target)), attempts + 1)
    ensures 0 <= a.target && TargetsSigned(fs) ==> TargetsSigned(gs)
  {
    hide Stands, Batch, FrameAt, TargetsSigned, Peak;
    var old_ :| Stands(c, fs, position, 0, old_, position, attempts);
    SmallBatches(old_);
    SmallBatches(a);
    NextRound(c, fs, position, 0, old_, 1, a, position, attempts);
    var hs := fs + [FrameAt(|fs|, 1, a)];
    NextRound(c, hs, position, 1, a, 0, IDLE, position, attempts + 1);
    gs := hs + [FrameAt(|hs|, 0, IDLE)];
    if 0 <= a.target && TargetsSigned(fs) {
      SignedOn(fs, 1, a);
      SignedOn(hs, 0, IDLE);
    }
  }

  /** Two orders on successive bars, both checked against the same view. */
  lemma TwoSteps(c: Case, fs: seq<Frame>, position: int, a: Ask, b: Ask, attempts: int) returns (gs: seq<Frame>)
    requires Rests(c, fs, position, attempts) && Room(position, c, position, a, attempts)
    requires Room(position, c, position + Signed(a.side, Abs(a.target)), b, attempts + 1)
    ensures Rests(c, gs, position + Signed(a.side, Abs(a.target)) + Signed(b.side, Abs(b.target)), attempts + 2)
    ensures 0 <= a.target && 0 <= b.target && TargetsSigned(fs) ==> TargetsSigned(gs)
  {
    hide Stands, Batch, FrameAt, TargetsSigned, Peak;
    var old_ :| Stands(c, fs, position, 0, old_, position, attempts);
    SmallBatches(old_);
    SmallBatches(a);
    SmallBatches(b);
    NextRound(c, fs, position, 0, old_, 1, a, position, attempts);
    var hs := fs + [FrameAt(|fs|, 1, a)];
    NextRound(c, hs, position, 1, a, 1, b, position, attempts + 1);
    var is_ := hs + [FrameAt(|hs|, 1, b)];
    var mid := position + Signed(a.side, Abs(a.target));
    NextRound(c, is_, mid, 1, b, 0, IDLE, mid, attempts + 2);
    gs := is_ + [FrameAt(|is_|, 0, IDLE)];
    if 0 <= a.target && 0 <= b.target && TargetsSigned(fs) {
      SignedOn(fs, 1, a);
      SignedOn(hs, 1, b);
      SignedOn(is_, 0, IDLE);
    }
  }

  /** Room for one order from an up-to-date view, judged by the two limits alone. */
  lemma RoomFor(c: Case, known: int, position: int, a: Ask, attempts: int)
    requires Fits(c) && 1 <= Abs(a.target) <= c.o && Abs(known + Signed(a.side, a.target)) <= c.m
    requires Abs(position) <= c.m + c.o && attempts < Attempts(c)
    ensures Room(known, c, position, a, attempts)
  {
    LotsPositive(c.n, c.o);
    hide Lot;
  }

  /**
   Any position up to the limit is reached one contract at a time. A larger one is
   reached by swinging over from the other side, twice as far as the limit at a time:
   two orders are checked against the same view, and the second goes past the limit.
   */
  lemma {:induction false} Swing(c: Case, side: Side, height: nat) returns (fs: seq<Frame>, attempts: nat)
    requires Fits(c) && (height <= c.m || height <= c.o - c.m)
    ensures Rests(c, fs, Signed(side, height), attempts) && attempts <= 2 * height && TargetsSigned(fs)
    decreases height
  {
    hide Rests, Room, Peak, TargetsSigned;
    if height == 0 {
      FlatRests(c);
      fs, attempts := [], 0;
    } else if height <= c.m {
      fs, attempts := Swing(c, side, height - 1);
      RoomFor(c, Signed(side, height - 1), Signed(side, height - 1), Ask(side, 1), attempts);
      fs := OneStep(c, fs, Signed(side, height - 1), Ask(side, 1), attempts);
      attempts := attempts + 1;
    } else {
      var other := if side.Buy? then Sell else Buy;
      var x := Max(0, height - 2 * c.m);
      fs, attempts := Swing(c, other, x);
      var a, b := Ask(side, x + c.m), Ask(side, height - c.m);
      RoomFor(c, Signed(other, x), Signed(other, x), a, attempts);
      RoomFor(c, Signed(other, x), Signed(side, c.m), b, attempts + 1);
      fs := TwoSteps(c, fs, Signed(other, x), a, b, attempts);
      attempts := attempts + 2;
    }
  }

  lemma FlatRests(c: Case)
    requires Fits(c)
    ensures Rests(c, [], 0, 0) && TargetsSigned([])
  {
    StandsFlat(c, IDLE);
    hide Stands;
  }

  // ---- The bound is reached ----

  /**
   Two full batches from a view that leaves room for the order: on the first bar and,
   with the first batch filled but not yet in the view, on the second.
   */
  lemma TwoBatches(c: Case, fs: seq<Frame>, position: int, a: Ask, attempts: nat) returns (gs: seq<Frame>)
    requires Rests(c, fs, position, attempts) && a.side.Buy? && Abs(a.target) == c.o
    requires c.m - c.o <= position <= c.m + c.o
    requires Fits(c) && Abs(position + Signed(a.side, a.target)) <= c.m
    requires attempts + 2 * c.n <= Attempts(c)
    ensures Rests(c, gs, position + 2 * Lot(c.n, c.o), attempts + 2 * c.n)
    ensures 0 <= a.target && TargetsSigned(fs) ==> TargetsSigned(gs)
  {
    hide Stands, Lot, FrameAt, TargetsSigned;
    var old_ :| Stands(c, fs, position, 0, old_, position, attempts);
    SmallBatches(old_);
    LotsPositive(c.n, c.o);
    NextRound(c, fs, position, 0, old_, c.n, a, position, attempts);
    var hs := fs + [FrameAt(|fs|, c.n, a)];
    NextRound(c, hs, position, c.n, a, c.n, a, position, attempts + c.n);
    var is_ := hs + [FrameAt(|hs|, c.n, a)];
    var mid := position + Lot(c.n, c.o);
    NextRound(c, is_, mid, c.n, a, 0, IDLE, mid, attempts + 2 * c.n);
    gs := is_ + [FrameAt(|is_|, 0, IDLE)];
    if 0 <= a.target && TargetsSigned(fs) {
      SignedOn(fs, c.n, a);
      SignedOn(hs, c.n, a);
      SignedOn(is_, 0, IDLE);
    }
  }

  lemma RestsAt(c: Case, fs: seq<Frame>, position: int, attempts: int)
    requires Rests(c, fs, position, attempts)
    ensures AtMostWorking(EquityOf(c), 0, fs, SetupOf(c), c.n)
    ensures PositionNow(Replayed(Opening(EquityOf(c), 0), fs, SetupOf(c)), 0) == position
  {
    hide Inv, Working, Opening, SetupOf, Replayed, AtMostWorking, WorkAtMost;
    WorkAtMostInRun(c, fs);
  }

  lemma WorkAtMostInRun(c: Case, fs: seq<Frame>)
    requires WorkAtMost(c, fs)
    ensures AtMostWorking(EquityOf(c), 0, fs, SetupOf(c), c.n)
  {
    hide Opening, SetupOf, Replayed, Working, EquityOf;
    OpeningIsSound(EquityOf(c), 0);
    forall m, s | 0 <= m <= |fs|
      ensures |Working(Replayed(Opening(EquityOf(c), 0), fs[..m], SetupOf(c)), s)| <= c.n
    {
      assert |Working(Trial(c, fs[..m]), s)| <= c.n;
    }
  }

  lemma LotsAsProduct(n: int, m: int, o: int)
    ensures m - o + 2 * Lot(n, o) == m + (2 * n - 1) * o
    ensures m + o + 2 * Lot(n, o) == m + (2 * n + 1) * o
  {
    assert (2 * n - 1) * o == 2 * (n * o) - o;
    assert (2 * n + 1) * o == 2 * (n * o) + o;
  }

  /**
   The bound is reached: for every number of orders at a time and all limits, some
   backtest in which never more than that many orders work and no target is negative
   ends with a position of the limit plus 2n - 1 orders. Its view is first driven to one
   order below the limit, on the other side if the order is larger than the limit.
   */
  lemma BoundIsReached(n: int, m: int, o: int) returns (equity: real, fs: seq<Frame>, setup: Setup)
    requires 1 <= n && 1 <= m && 1 <= o
    ensures setup.limits.maxContractsPerSymbol == m && setup.limits.maxContractsPerOrder == o
    ensures TargetsSigned(fs) && AtMostWorking(equity, 0, fs, setup, n)
    ensures PositionNow(Replayed(Opening(equity, 0), fs, setup), 0) == m + (2 * n - 1) * o
  {
    hide Rests, Lot, AtMostWorking, TargetsSigned, Replayed, Opening, EquityOf, PositionNow;
    var c := Case(n, m, o);
    equity, setup := EquityOf(c), SetupOf(c);
    var attempts;
    fs, attempts := Swing(c, if o <= m then Buy else Sell, if o <= m then m - o else o - m);
    fs := TwoBatches(c, fs, m - o, Ask(Buy, o), attempts);
    RestsAt(c, fs, m - o + 2 * Lot(n, o), attempts + 2 * n);
    LotsAsProduct(n, m, o);
  }

  /**
   With negative targets any position up to two orders is reached from half of it: a
   purchase checked as a sale is let through as long as the sale would be.
   */
  lemma {:induction false} Doubled(c: Case, height: nat) returns (fs: seq<Frame>, attempts: nat)
    requires Fits(c) && height <= c.m + c.o && (height <= c.m || height <= 2 * c.o)
    ensures Rests(c, fs, height, attempts) && attempts <= 2 * height
    decreases height
  {
    hide Rests, Room, Peak, TargetsSigned;
    if height <= c.m {
      fs, attempts := Swing(c, Buy, height);
    } else {
      var half := height / 2;
      fs, attempts := Doubled(c, half);
      RoomFor(c, half, half, Ask(Buy, half - height), attempts);
      fs := OneStep(c, fs, half, Ask(Buy, half - height), attempts);
      attempts := attempts + 1;
    }
  }

  /** One order past the limit: by one purchase with a negative target, or from half of it. */
  lemma PastTheLimit(c: Case) returns (fs: seq<Frame>, attempts: nat)
    requires Fits(c)
    ensures Rests(c, fs, c.m + c.o, attempts) && attempts <= 2 * (c.m + c.o)
  {
    hide Rests, Room, Peak, TargetsSigned;
    if c.o <= c.m {
      fs, attempts := Swing(c, Buy, c.m);
      RoomFor(c, c.m, c.m, Ask(Buy, -c.o), attempts);
      fs := OneStep(c, fs, c.m, Ask(Buy, -c.o), attempts);
      attempts := attempts + 1;
    } else {
      fs, attempts := Doubled(c, c.m + c.o);
    }
  }

  /** The wider bound is reached too, for all limits, when targets may be negative. */
  lemma AnyTargetBoundIsReached(n: int, m: int, o: int) returns (equity: real, fs: seq<Frame>, setup: Setup)
    requires 1 <= n && 1 <= m && 1 <= o
    ensures setup.limits.maxContractsPerSymbol == m && setup.limits.maxContractsPerOrder == o
    ensures AtMostWorking(equity, 0, fs, setup, n)
    ensures PositionNow(Replayed(Opening(equity, 0), fs, setup), 0) == m + (2 * n + 1) * o
  {
    hide Rests, Lot, AtMostWorking, TargetsSigned, Replayed, Opening, EquityOf, PositionNow;
    var c := Case(n, m, o);
    equity, setup := EquityOf(c), SetupOf(c);
    var attempts;
    fs, attempts := PastTheLimit(c);
    fs := TwoBatches(c, fs, m + o, Ask(Buy, -o), attempts);
    RestsAt(c, fs, m + o + 2 * Lot(n, o), attempts + 2 * n);
    LotsAsProduct(n, m, o);
  }

  const ONE := Case(1, 1, 1)

  /**
   In particular the limit itself is exceeded: two bars answered by an order to buy one,
   the second checked before the view shows the first, and a third bar end in a position
   of two under a limit of one.
   */
  lemma LimitIsExceeded()
    ensures
      var a := Ask(Buy, 1);
      var fs := [] + [FrameAt(0, 1, a)] + [FrameAt(1, 1, a)] + [FrameAt(2, 0, a)];
      && AtMostWorking(EquityOf(ONE), 0, fs, SetupOf(ONE), 1)
      && PositionNow(Replayed(Opening(EquityOf(ONE), 0), fs, SetupOf(ONE)), 0)
         == 2 == SetupOf(ONE).limits.maxContractsPerSymbol + 1
  {
    hide Stands, AtMostWorking, Replayed, Opening, EquityOf, PositionNow, FrameAt, Room, Batch;
    var a := Ask(Buy, 1);
    SmallBatches(a);
    RoomFor(ONE, 0, 0, a, 0);
    RoomFor(ONE, 0, 1, a, 1);
    StandsFlat(ONE, a);
    var one, two := [] + [FrameAt(0, 1, a)], [] + [FrameAt(0, 1, a)] + [FrameAt(1, 1, a)];
    assert |one| == 1 && |two| == 2;
    NextRound(ONE, [], 0, 0, a, 1, a, 0, 0);
    NextRound(ONE, one, 0, 1, a, 1, a, 0, 1);
    NextRound(ONE, two, 1, 1, a, 0, a, 1, 2);
    RestsAt(ONE, two + [FrameAt(2, 0, a)], 2, 2);
  }
}
