/** No lookahead: over whole backtests, orders fill only on later bars of their own symbol. */
module Lookahead {
  import opened Ledger
  import opened Simulator
  import opened Orders
  import opened Engine

  /** Draining delivers the queue and changes nothing at the broker. */
  lemma {:induction false} DrainKeeps(y: System)
    requires Inv(y)
    ensures Inv(Drained(y))
    ensures Drained(y).desk == y.desk.(queue := [])
    ensures Drained(y).orders.Keys == y.orders.Keys && Drained(y).nextId == y.nextId
    ensures forall id :: id in y.orders ==> SameTerms(Drained(y).orders[id], y.orders[id])
    decreases |y.desk.queue|
  {
    if y.desk.queue != [] {
      DeliverKeeps(y);
      DrainKeeps(DeliverOne(y));
    }
  }

  lemma {:induction false} ExecutionsOfBar(ps: seq<Pending>, bar: Bar, quotes: Quotes, terms: Terms, j: nat)
    returns (k: nat)
    requires Unfilled(ps) && j < |Executions(ps, bar, quotes, terms)|
    ensures k < |ps| && Executions(ps, bar, quotes, terms)[j].orderId == ps[k].request.orderId
    ensures
      var e := Executions(ps, bar, quotes, terms)[j];
      && e.ts == bar.ts && e.symbol == bar.symbol && e.side == ps[k].request.side
      && e.price == quotes(e.orderId) && e.commission == terms.commissionPerContract * e.quantity as real
  {
    var last := |ps| - 1;
    if j < |Executions(ps[..last], bar, quotes, terms)| {
      k := ExecutionsOfBar(ps[..last], bar, quotes, terms, j);
    } else {
      k := last;
    }
  }

  /** The fill happened on a bar of its order's symbol, after the order's own step. */
  ghost predicate FillTimely(st: Backtest, fs: seq<Frame>, i: nat)
    requires i < |st.sys.desk.fills| == |st.filledAt|
  {
    var e, k := st.sys.desk.fills[i], st.filledAt[i];
    && k < |fs|
    && e.ts == fs[k].bar.ts && e.symbol == fs[k].bar.symbol
    && e.price == fs[k].quotes(e.orderId)
    && e.orderId in st.sys.orders && st.sys.orders[e.orderId].symbol == e.symbol
    && st.sys.orders[e.orderId].side == e.side
    && e.orderId in st.born && st.born[e.orderId] < k
  }

  ghost predicate Timely(st: Backtest, fs: seq<Frame>, bound: nat) {
    && Inv(st.sys)
    && st.sys.orders.Keys == st.born.Keys
    && (forall id :: id in st.born ==> st.born[id] < bound)
    && FillsTimely(st, fs)
  }

  ghost predicate OfBar(e: Execution, bar: Bar, quotes: Quotes, y: System) {
    && e.ts == bar.ts && e.symbol == bar.symbol && e.price == quotes(e.orderId)
    && e.orderId in y.orders && y.orders[e.orderId].symbol == bar.symbol && y.orders[e.orderId].side == e.side
  }

  /** The fills a bar adds come from orders that were already working. */
  lemma NewFills(y: System, bar: Bar, quotes: Quotes, terms: Terms, j: nat)
    requires Inv(y)
    requires j < |Executions(PendingOf(y.desk, bar.symbol), bar, quotes, terms)|
    ensures OfBar(Executions(PendingOf(y.desk, bar.symbol), bar, quotes, terms)[j], bar, quotes, y)
  {
    var ps := PendingOf(y.desk, bar.symbol);
    var k := ExecutionsOfBar(ps, bar, quotes, terms, j);
    assert ps[k] in ps && Works(ps[k], bar.symbol, y.desk.fills, y.orders);
  }

  /** What a bar's drained state keeps of the state just after its fills. */
  lemma RevealedDrains(st: Backtest, f: Frame, setup: Setup)
    requires Inv(st.sys)
    ensures
      var r, y := BarRevealed(st, f, setup), Step(st.sys, NextBar(f.bar, f.quotes), setup.terms);
      && Inv(r.sys)
      && r.sys.desk == y.desk.(queue := [])
      && r.sys.orders.Keys == st.sys.orders.Keys && r.sys.nextId == st.sys.nextId
      && (forall id :: id in st.sys.orders ==> SameTerms(r.sys.orders[id], st.sys.orders[id]))
      && r.born == st.born
      && r.filledAt == st.filledAt + seq(|y.desk.fills| - |st.sys.desk.fills|, _ => st.steps)
  {
    var y := Step(st.sys, NextBar(f.bar, f.quotes), setup.terms);
    StepKeeps(st.sys, NextBar(f.bar, f.quotes), setup.terms);
    assert y.orders == st.sys.orders && y.nextId == st.sys.nextId && st.sys.desk.fills <= y.desk.fills;
    hide Inv, Step, Drained, MultiplierOf, SessionDay;
    DrainKeeps(y);
  }

  lemma Revealed(st: Backtest, f: Frame, setup: Setup)
    requires Inv(st.sys)
    ensures
      var r, es := BarRevealed(st, f, setup),
                   Executions(PendingOf(st.sys.desk, f.bar.symbol), f.bar, f.quotes, setup.terms);
      && Inv(r.sys)
      && r.sys.desk.fills == st.sys.desk.fills + es
      && r.sys.desk.pending == Step(st.sys, NextBar(f.bar, f.quotes), setup.terms).desk.pending
      && r.sys.desk.book == Replay(st.sys.desk.book, es, setup.terms.multipliers)
      && r.sys.orders.Keys == st.sys.orders.Keys && r.sys.nextId == st.sys.nextId
      && (forall id :: id in st.sys.orders ==> SameTerms(r.sys.orders[id], st.sys.orders[id]))
      && r.born == st.born
      && r.filledAt == st.filledAt + seq(|es|, _ => st.steps)
  {
    assert SoundDesk(st.sys.desk);
    hide Inv, Replay, Survivors, Executions, BarRevealed;
    RevealedDrains(st, f, setup);
  }

  /** `r` carries on from `st`: nothing recorded about old orders and fills changes. */
  ghost predicate Continues(st: Backtest, r: Backtest) {
    && st.sys.desk.fills <= r.sys.desk.fills && st.filledAt <= r.filledAt
    && (forall id :: id in st.born ==> id in r.born && r.born[id] == st.born[id])
    && (forall id :: id in st.sys.orders ==>
          id in r.sys.orders && SameTerms(r.sys.orders[id], st.sys.orders[id]))
  }

  ghost predicate FillsTimely(st: Backtest, fs: seq<Frame>) {
    |st.filledAt| == |st.sys.desk.fills| && forall i :: 0 <= i < |st.filledAt| ==> FillTimely(st, fs, i)
  }

  lemma OldFillsStayTimely(st: Backtest, r: Backtest, fs: seq<Frame>)
    requires FillsTimely(st, fs) && |r.filledAt| == |r.sys.desk.fills|
    requires Continues(st, r)
    ensures forall i :: 0 <= i < |st.filledAt| ==> FillTimely(r, fs, i)
  {
    forall i | 0 <= i < |st.filledAt| ensures FillTimely(r, fs, i) {
      assert FillTimely(st, fs, i);
    }
  }

  /** Fills made at step `k` for orders born before it are timely. */
  lemma NewFillsAreTimely(st: Backtest, r: Backtest, fs: seq<Frame>, es: seq<Execution>, k: nat)
    requires FillsTimely(st, fs) && Continues(st, r) && k < |fs|
    requires r.sys.desk.fills == st.sys.desk.fills + es && r.filledAt == st.filledAt + seq(|es|, _ => k)
    requires st.sys.orders.Keys == st.born.Keys && forall id :: id in st.born ==> st.born[id] < k
    requires forall j :: 0 <= j < |es| ==> OfBar(es[j], fs[k].bar, fs[k].quotes, st.sys)
    ensures FillsTimely(r, fs)
  {
    OldFillsStayTimely(st, r, fs);
    var n := |st.filledAt|;
    forall i | n <= i < |r.filledAt| ensures FillTimely(r, fs, i) {
      assert OfBar(es[i - n], fs[k].bar, fs[k].quotes, st.sys);
    }
  }

  lemma RevealContinues(st: Backtest, f: Frame, setup: Setup)
    requires Inv(st.sys)
    ensures Continues(st, BarRevealed(st, f, setup))
    ensures BarRevealed(st, f, setup).sys.orders.Keys == st.sys.orders.Keys
    ensures BarRevealed(st, f, setup).born == st.born
  {
    Revealed(st, f, setup);
  }

  lemma RevealKeepsTimely(st: Backtest, fs: seq<Frame>, setup: Setup)
    requires st.steps < |fs| && Timely(st, fs, st.steps)
    ensures Timely(BarRevealed(st, fs[st.steps], setup), fs, st.steps)
  {
    var f := fs[st.steps];
    assert SoundDesk(st.sys.desk);
    hide BarRevealed, Inv, Executions, PendingOf, FillTimely, Continues;
    var es := Executions(PendingOf(st.sys.desk, f.bar.symbol), f.bar, f.quotes, setup.terms);
    Revealed(st, f, setup);
    RevealContinues(st, f, setup);
    forall j | 0 <= j < |es| ensures OfBar(es[j], f.bar, f.quotes, st.sys) {
      NewFills(st.sys, f.bar, f.quotes, setup.terms, j);
    }
    NewFillsAreTimely(st, BarRevealed(st, f, setup), fs, es, st.steps);
  }

  lemma ReactContinues(st: Backtest, r: Reaction, setup: Setup)
    requires Inv(st.sys) && st.sys.orders.Keys == st.born.Keys
    ensures Continues(st, React(st, r, setup))
  {
    assert st.sys.nextId !in st.sys.orders;
    hide Inv, Approves;
  }

  lemma ReactKeepsBirths(st: Backtest, r: Reaction, setup: Setup, bound: nat)
    requires Inv(st.sys) && st.sys.orders.Keys == st.born.Keys && st.steps < bound
    requires forall id :: id in st.born ==> st.born[id] < bound
    ensures
      var q := React(st, r, setup);
      && Inv(q.sys) && q.steps == st.steps
      && q.sys.orders.Keys == q.born.Keys && (forall id :: id in q.born ==> q.born[id] < bound)
      && q.sys.desk.fills == st.sys.desk.fills && q.filledAt == st.filledAt
  {
    hide Inv, Approves, Placed;
    InvIsSound(st.sys);
    SubmitKeeps(st.sys, r.signal);
    PlacedKeepsFills(st.sys.desk, RequestFor(st.sys.nextId, r.signal));
  }

  lemma PlacedKeepsFills(d: Desk, r: Request)
    requires SoundDesk(d)
    ensures Placed(d, r).fills == d.fills && Placed(d, r).book == d.book
  {
  }

  lemma ReactKeepsTimely(st: Backtest, fs: seq<Frame>, r: Reaction, setup: Setup)
    requires Timely(st, fs, st.steps + 1)
    ensures Timely(React(st, r, setup), fs, st.steps + 1) && React(st, r, setup).steps == st.steps
  {
    assert SoundDesk(st.sys.desk);
    hide Inv, React, FillsTimely, Continues;
    ReactKeepsBirths(st, r, setup, st.steps + 1);
    ReactContinues(st, r, setup);
    NoNewFills(st, React(st, r, setup), fs);
  }

  lemma NoNewFills(st: Backtest, r: Backtest, fs: seq<Frame>)
    requires FillsTimely(st, fs) && Continues(st, r)
    requires r.sys.desk.fills == st.sys.desk.fills && r.filledAt == st.filledAt
    ensures FillsTimely(r, fs)
  {
    OldFillsStayTimely(st, r, fs);
  }

  lemma {:induction false} ReactAllKeepsTimely(st: Backtest, fs: seq<Frame>, rs: seq<Reaction>, setup: Setup)
    requires Timely(st, fs, st.steps + 1)
    ensures Timely(ReactAll(st, rs, setup), fs, st.steps + 1) && ReactAll(st, rs, setup).steps == st.steps
  {
    if rs != [] {
      ReactAllKeepsTimely(st, fs, rs[..|rs| - 1], setup);
      ReactKeepsTimely(ReactAll(st, rs[..|rs| - 1], setup), fs, rs[|rs| - 1], setup);
    }
  }

  lemma SettleKeepsTimely(st: Backtest, fs: seq<Frame>, f: Frame, setup: Setup, bound: nat)
    requires Timely(st, fs, bound)
    ensures Timely(BarSettled(st, f, setup), fs, bound) && BarSettled(st, f, setup).steps == st.steps + 1
  {
    hide Inv, FillTimely;
    NoNewFills(st, BarSettled(st, f, setup), fs);
  }

  lemma BarKeepsTimely(st: Backtest, fs: seq<Frame>, setup: Setup)
    requires st.steps < |fs| && Timely(st, fs, st.steps)
    ensures Timely(BarStep(st, fs[st.steps], setup), fs, st.steps + 1)
    ensures BarStep(st, fs[st.steps], setup).steps == st.steps + 1
  {
    var f := fs[st.steps];
    RevealKeepsTimely(st, fs, setup);
    var mid := BarRevealed(st, f, setup);
    assert mid.steps == st.steps && Timely(mid, fs, st.steps + 1);
    hide BarRevealed, Timely, BarSettled;
    ReactAllKeepsTimely(mid, fs, f.reactions, setup);
    SettleKeepsTimely(ReactAll(mid, f.reactions, setup), fs, f, setup, st.steps + 1);
  }

  ghost predicate TimelyAfter(st: Backtest, fs: seq<Frame>, n: nat) {
    Timely(st, fs, st.steps) && st.steps <= n && (!st.stopped ==> st.steps == n)
  }

  lemma NextIsTimely(st: Backtest, fs: seq<Frame>, n: nat, setup: Setup)
    requires n < |fs| && TimelyAfter(st, fs, n)
    ensures SoundDesk(st.sys.desk)
    ensures TimelyAfter(if st.stopped then st else BarStep(st, fs[n], setup), fs, n + 1)
  {
    assert SoundDesk(st.sys.desk);
    hide Timely, BarStep;
    if !st.stopped {
      BarKeepsTimely(st, fs, setup);
    }
  }

  lemma OpeningIsTimely(equity: real, date: int, fs: seq<Frame>)
    ensures TimelyAfter(Opening(equity, date), fs, 0)
  {
  }

  lemma {:induction false} ReplayIsTimely(equity: real, date: int, fs: seq<Frame>, n: nat, setup: Setup)
    requires n <= |fs|
    ensures TimelyAfter(Replayed(Opening(equity, date), fs[..n], setup), fs, n)
  {
    hide TimelyAfter, BarStep, Opening, SoundDesk;
    OpeningIsSound(equity, date);
    OpeningIsTimely(equity, date, fs);
    if n > 0 {
      ReplayIsTimely(equity, date, fs, n - 1, setup);
      ReplayNext(Opening(equity, date), fs, n - 1, setup);
      NextIsTimely(Replayed(Opening(equity, date), fs[..n - 1], setup), fs, n - 1, setup);
    }
  }

  /** Fill `i` was made on a later bar of its own symbol than the one its order answers. */
  ghost predicate Unforeseen(st: Backtest, fs: seq<Frame>, i: nat)
    requires i < |st.sys.desk.fills|
  {
    var e := st.sys.desk.fills[i];
    && i < |st.filledAt| && e.orderId in st.born && e.orderId in st.sys.orders
    && st.born[e.orderId] < st.filledAt[i] < |fs|
    && fs[st.filledAt[i]].bar.symbol == e.symbol == st.sys.orders[e.orderId].symbol
    && fs[st.filledAt[i]].bar.ts == e.ts
    && fs[st.filledAt[i]].quotes(e.orderId) == e.price && st.sys.orders[e.orderId].side == e.side
    && fs[st.born[e.orderId]].bar.ts <= e.ts
    && (fs[st.born[e.orderId]].bar.symbol == e.symbol ==> fs[st.born[e.orderId]].bar.ts < e.ts)
  }

  /**
   In any backtest, whatever the strategy does, every fill happened on a bar of
   the order's own symbol replayed strictly after the bar whose handling placed
   the order. Its time is never earlier, and strictly later when the strategy was
   reacting to the same symbol.
   */
  lemma NoLookahead(equity: real, date: int, fs: seq<Frame>, setup: Setup, i: nat)
    requires InReplayOrder(BarsOf(fs)) && DistinctBars(BarsOf(fs))
    requires i < |Replayed(Opening(equity, date), fs, setup).sys.desk.fills|
    ensures Unforeseen(Replayed(Opening(equity, date), fs, setup), fs, i)
  {
    hide Opening, Replayed, Inv, SoundDesk, NotAfter, SameInstant;
    OpeningIsSound(equity, date);
    assert fs[..|fs|] == fs;
    ReplayIsTimely(equity, date, fs, |fs|, setup);
    var q := Replayed(Opening(equity, date), fs, setup);
    assert FillTimely(q, fs, i);
    InOrder(fs, q.born[q.sys.desk.fills[i].orderId], q.filledAt[i]);
  }

  lemma InOrder(fs: seq<Frame>, a: nat, b: nat)
    requires InReplayOrder(BarsOf(fs)) && DistinctBars(BarsOf(fs)) && a < b < |fs|
    ensures fs[a].bar.ts <= fs[b].bar.ts
    ensures fs[a].bar.symbol == fs[b].bar.symbol ==> fs[a].bar.ts < fs[b].bar.ts
  {
    assert NotAfter(BarsOf(fs)[a], BarsOf(fs)[b]) && !SameInstant(BarsOf(fs)[a], BarsOf(fs)[b]);
  }
}
