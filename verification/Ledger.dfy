/**
 The accounting of the simulated broker, fill by fill: signed positions, the
 average entry price, partial closes, flips through zero, commissions and the
 ledger of round-trip trades.
 */
module Ledger {
  import opened Core

  datatype Execution = Execution(
    ts: int,
    orderId: OrderId,
    symbol: Symbol,
    side: Side,
    quantity: int,
    price: real,
    cumulative: int,
    remaining: int,
    commission: real
  )

  /** Exposure in one symbol together with the round-trip trade it belongs to. */
  datatype Holding = Holding(
    side: Side,
    quantity: int,
    avgEntry: real,
    entryTs: int,
    peak: int,
    pnl: real
  )

  datatype TradeRecord = TradeRecord(
    symbol: Symbol,
    side: Side,
    entryTs: int,
    exitTs: int,
    quantity: int,
    pnl: real
  )

  /** Symbols that are flat have no entry in `open`. */
  datatype Book = Book(equity: real, open: map<Symbol, Holding>, trades: seq<TradeRecord>)

  /** What one fill does to one symbol. */
  datatype Outcome = Outcome(after: Option<Holding>, realized: real, closed: Option<TradeRecord>)

  type Multipliers = map<Symbol, real>

  function MultiplierOf(multipliers: Multipliers, s: Symbol): real {
    if s in multipliers then multipliers[s] else 1.0
  }

  function SignedQuantity(e: Execution): int {
    Signed(e.side, e.quantity)
  }

  /** The cash a fill pays out: positive for a purchase, negative for a sale. */
  function Cash(e: Execution, multiplier: real): real {
    SignedQuantity(e) as real * e.price * multiplier
  }

  predicate Sound(h: Holding) {
    0 < h.quantity <= h.peak
  }

  predicate SoundBook(b: Book) {
    forall s :: s in b.open ==> Sound(b.open[s])
  }

  function HoldingIn(b: Book, s: Symbol): Option<Holding> {
    if s in b.open then Some(b.open[s]) else None
  }

  function NetQuantity(h: Option<Holding>): int {
    if h.None? then 0 else Signed(h.value.side, h.value.quantity)
  }

  function Position(b: Book, s: Symbol): int {
    NetQuantity(HoldingIn(b, s))
  }

  /** What the exposure cost: signed quantity at the average entry price. */
  function Basis(h: Option<Holding>, multiplier: real): real {
    if h.None? then 0.0 else NetQuantity(h) as real * h.value.avgEntry * multiplier
  }

  function OpenPnl(h: Option<Holding>): real {
    if h.None? then 0.0 else h.value.pnl
  }

  function RecordedPnl(t: Option<TradeRecord>): real {
    if t.None? then 0.0 else t.value.pnl
  }

  /** The quantity-weighted mean of two prices. */
  function Blend(p: real, m: int, q: real, n: int): (r: real)
    requires 0 <= m && 0 <= n && 0 < m + n
    ensures r * (m + n) as real == p * m as real + q * n as real
  {
    (p * m as real + q * n as real) / (m + n) as real
  }

  /** A fill that closes more than is held and so comes out on the other side. */
  predicate IsFlip(before: Option<Holding>, e: Execution) {
    before.Some? && before.value.side != e.side && before.value.quantity < e.quantity
  }

  /** The profit of moving `n` on one side from an entry to an exit price. */
  function Profit(side: Side, entry: real, exit: real, n: int, multiplier: real): real {
    Signed(side, n) as real * (exit - entry) * multiplier
  }

  function Opened(e: Execution): Outcome {
    Outcome(Some(Holding(e.side, e.quantity, e.price, e.ts, e.quantity, -e.commission)), 0.0, None)
  }

  function Extended(h: Holding, e: Execution): Outcome
    requires Sound(h) && 0 < e.quantity
  {
    var total := h.quantity + e.quantity;
    var avg := Blend(h.avgEntry, h.quantity, e.price, e.quantity);
    Outcome(
      Some(h.(quantity := total, avgEntry := avg, peak := Max(h.peak, total), pnl := h.pnl - e.commission)),
      0.0, None)
  }

  function Reduced(h: Holding, e: Execution, multiplier: real): Outcome {
    var realized := Profit(h.side, h.avgEntry, e.price, e.quantity, multiplier);
    Outcome(
      Some(h.(quantity := h.quantity - e.quantity, pnl := h.pnl - e.commission + realized)), realized, None)
  }

  /** Closes the whole holding; what is left of the fill opens the other side. */
  function Turned(h: Holding, e: Execution, multiplier: real): Outcome {
    var residual := e.quantity - h.quantity;
    var realized := Profit(h.side, h.avgEntry, e.price, h.quantity, multiplier);
    var pnl := h.pnl - e.commission + realized;
    Outcome(
      if residual == 0 then None else Some(Holding(e.side, residual, e.price, e.ts, residual, 0.0)),
      realized,
      Some(TradeRecord(e.symbol, h.side, h.entryTs, e.ts, Max(h.peak, residual), pnl)))
  }

  /** The five things a fill can do: open, extend, reduce, close, or flip. */
  function Settle(before: Option<Holding>, e: Execution, multiplier: real): (o: Outcome)
    requires before.Some? ==> Sound(before.value)
    requires 0 < e.quantity
    ensures o.after.Some? ==> Sound(o.after.value)
    ensures NetQuantity(o.after) == NetQuantity(before) + SignedQuantity(e)
    ensures o.closed.Some? <==> before.Some? && before.value.side != e.side && before.value.quantity <= e.quantity
  {
    match before
    case None => Opened(e)
    case Some(h) =>
      if e.side == h.side then Extended(h, e)
      else if e.quantity < h.quantity then Reduced(h, e, multiplier)
      else Turned(h, e, multiplier)
  }

  /**
   What makes a fill double-entry bookkeeping: cost basis moves by cash paid plus
   profit taken, and the trade ledger absorbs exactly the profit taken less the
   commission.
   */
  predicate Accounted(before: Option<Holding>, e: Execution, multiplier: real, o: Outcome) {
    && Basis(o.after, multiplier) - Basis(before, multiplier) == Cash(e, multiplier) + o.realized
    && RecordedPnl(o.closed) + OpenPnl(o.after) - OpenPnl(before) == o.realized - e.commission
  }

  lemma ExtendedAccounts(h: Holding, e: Execution, multiplier: real)
    requires Sound(h) && 0 < e.quantity && h.side == e.side
    ensures Accounted(Some(h), e, multiplier, Extended(h, e))
  {
    var avg := Blend(h.avgEntry, h.quantity, e.price, e.quantity);
    assert (avg * (h.quantity + e.quantity) as real) * multiplier
        == (h.avgEntry * h.quantity as real + e.price * e.quantity as real) * multiplier;
  }

  lemma ReducedAccounts(h: Holding, e: Execution, multiplier: real)
    requires h.side != e.side
    ensures Accounted(Some(h), e, multiplier, Reduced(h, e, multiplier))
  {
  }

  lemma TurnedAccounts(h: Holding, e: Execution, multiplier: real)
    requires h.side != e.side
    ensures Accounted(Some(h), e, multiplier, Turned(h, e, multiplier))
  {
  }

  lemma SettleAccounts(before: Option<Holding>, e: Execution, multiplier: real)
    requires before.Some? ==> Sound(before.value)
    requires 0 < e.quantity
    ensures Accounted(before, e, multiplier, Settle(before, e, multiplier))
  {
    if before.Some? {
      var h := before.value;
      if e.side == h.side { ExtendedAccounts(h, e, multiplier); }
      else if e.quantity < h.quantity { ReducedAccounts(h, e, multiplier); }
      else { TurnedAccounts(h, e, multiplier); }
    }
  }

  /** Writes what a fill did to its symbol into the book. */
  function Applied(b: Book, e: Execution, o: Outcome): Book {
    Book(
      b.equity + o.realized - e.commission,
      if o.after.Some? then b.open[e.symbol := o.after.value] else b.open - {e.symbol},
      if o.closed.Some? then b.trades + [o.closed.value] else b.trades)
  }

  /** Books one execution: equity takes the profit less the commission at once. */
  function Post(b: Book, e: Execution, multipliers: Multipliers): (r: Book)
    requires SoundBook(b)
    requires 0 < e.quantity
    ensures SoundBook(r)
    ensures Position(r, e.symbol) == Position(b, e.symbol) + SignedQuantity(e)
    ensures forall s :: s != e.symbol ==> HoldingIn(r, s) == HoldingIn(b, s)
  {
    Applied(b, e, Settle(HoldingIn(b, e.symbol), e, MultiplierOf(multipliers, e.symbol)))
  }

  predicate Positive(es: seq<Execution>) {
    forall i :: 0 <= i < |es| ==> 0 < es[i].quantity
  }

  function Replay(b: Book, es: seq<Execution>, multipliers: Multipliers): (r: Book)
    requires SoundBook(b)
    requires Positive(es)
    ensures SoundBook(r)
  {
    if es == [] then b
    else Post(Replay(b, es[..|es| - 1], multipliers), es[|es| - 1], multipliers)
  }

  lemma PositiveParts(es: seq<Execution>, fs: seq<Execution>)
    requires Positive(es + fs)
    ensures Positive(es) && Positive(fs)
    ensures forall n :: 0 <= n <= |fs| ==> Positive(es + fs[..n])
  {
    assert forall i :: 0 <= i < |es| ==> es[i] == (es + fs)[i];
    assert forall i :: 0 <= i < |fs| ==> fs[i] == (es + fs)[|es| + i];
  }

  lemma ReplayLast(b: Book, es: seq<Execution>, e: Execution, multipliers: Multipliers)
    requires SoundBook(b)
    requires Positive(es + [e])
    ensures Positive(es) && 0 < e.quantity
    ensures Replay(b, es + [e], multipliers) == Post(Replay(b, es, multipliers), e, multipliers)
  {
    hide Post, SoundBook;
    assert (es + [e])[..|es|] == es;
    assert (es + [e])[|es|] == e;
  }

  lemma ReplayNone(b: Book, multipliers: Multipliers)
    requires SoundBook(b)
    ensures Positive([]) && Replay(b, [], multipliers) == b
  {
  }

  lemma {:induction false} ReplayAppend(b: Book, es: seq<Execution>, fs: seq<Execution>, multipliers: Multipliers)
    requires SoundBook(b)
    requires Positive(es + fs)
    ensures Positive(es) && Positive(fs)
    ensures Replay(b, es + fs, multipliers) == Replay(Replay(b, es, multipliers), fs, multipliers)
    decreases |fs|
  {
    hide Post, Positive, SoundBook, Replay;
    PositiveParts(es, fs);
    if fs == [] {
      assert es + fs == es;
      ReplayNone(Replay(b, es, multipliers), multipliers);
    } else {
      var init, e := fs[..|fs| - 1], fs[|fs| - 1];
      assert init + [e] == fs && es + fs == (es + init) + [e];
      ReplayAppend(b, es, init, multipliers);
      ReplayLast(b, es + init, e, multipliers);
      ReplayLast(Replay(b, es, multipliers), init, e, multipliers);
    }
  }

  // ---- Whole-history accounting ----

  function SumSigned(es: seq<Execution>, s: Symbol): int {
    if es == [] then 0
    else
      var e := es[|es| - 1];
      SumSigned(es[..|es| - 1], s) + (if e.symbol == s then SignedQuantity(e) else 0)
  }

  function CashPaid(es: seq<Execution>, multipliers: Multipliers): real {
    if es == [] then 0.0
    else
      var e := es[|es| - 1];
      CashPaid(es[..|es| - 1], multipliers) + Cash(e, MultiplierOf(multipliers, e.symbol))
  }

  function Commissions(es: seq<Execution>): real {
    if es == [] then 0.0 else Commissions(es[..|es| - 1]) + es[|es| - 1].commission
  }

  function ClosedPnl(trades: seq<TradeRecord>): real {
    if trades == [] then 0.0 else ClosedPnl(trades[..|trades| - 1]) + trades[|trades| - 1].pnl
  }

  ghost function Bases(b: Book, multipliers: Multipliers): map<Symbol, real> {
    map s | s in b.open :: Basis(Some(b.open[s]), MultiplierOf(multipliers, s))
  }

  ghost function Pnls(b: Book): map<Symbol, real> {
    map s | s in b.open :: b.open[s].pnl
  }

  ghost function TotalBasis(b: Book, multipliers: Multipliers): real {
    SumValues(Bases(b, multipliers))
  }

  ghost function TotalOpenPnl(b: Book): real {
    SumValues(Pnls(b))
  }

  lemma OthersUnmoved(b: Book, e: Execution, multipliers: Multipliers)
    requires SoundBook(b) && 0 < e.quantity
    ensures Bases(b, multipliers) - {e.symbol} == Bases(Post(b, e, multipliers), multipliers) - {e.symbol}
    ensures Pnls(b) - {e.symbol} == Pnls(Post(b, e, multipliers)) - {e.symbol}
  {
    var r := Post(b, e, multipliers);
    hide Post, Basis;
    assert forall s :: s != e.symbol ==> HoldingIn(r, s) == HoldingIn(b, s);
    assert forall s :: s != e.symbol ==> (s in r.open <==> s in b.open);
  }

  /** A per-symbol total moves by exactly what the one posted symbol moves by. */
  lemma TotalsAfterPost(b: Book, e: Execution, multipliers: Multipliers)
    requires SoundBook(b)
    requires 0 < e.quantity
    ensures
      var r := Post(b, e, multipliers);
      var m := MultiplierOf(multipliers, e.symbol);
      && TotalBasis(r, multipliers) - TotalBasis(b, multipliers)
         == Basis(HoldingIn(r, e.symbol), m) - Basis(HoldingIn(b, e.symbol), m)
      && TotalOpenPnl(r) - TotalOpenPnl(b)
         == OpenPnl(HoldingIn(r, e.symbol)) - OpenPnl(HoldingIn(b, e.symbol))
  {
    OthersUnmoved(b, e, multipliers);
    hide Post;
    var r := Post(b, e, multipliers);
    SumMoves(Bases(b, multipliers), Bases(r, multipliers), e.symbol);
    SumMoves(Pnls(b), Pnls(r), e.symbol);
  }

  lemma SumMoves(m: map<Symbol, real>, n: map<Symbol, real>, k: Symbol)
    requires m - {k} == n - {k}
    ensures SumValues(n) - SumValues(m)
         == (if k in n then n[k] else 0.0) - (if k in m then m[k] else 0.0)
  {
    if k in m { SumValuesRemove(m, k); } else { assert m - {k} == m; }
    if k in n { SumValuesRemove(n, k); } else { assert n - {k} == n; }
  }

  ghost predicate Balanced(b: Book, start: real, es: seq<Execution>, multipliers: Multipliers) {
    && b.equity == start - CashPaid(es, multipliers) - Commissions(es) + TotalBasis(b, multipliers)
    && ClosedPnl(b.trades) + TotalOpenPnl(b) == b.equity - start
    && forall s :: Position(b, s) == SumSigned(es, s)
  }

  lemma PostMovesEquity(b: Book, e: Execution, multipliers: Multipliers)
    requires SoundBook(b)
    requires 0 < e.quantity
    ensures
      var r := Post(b, e, multipliers);
      && (r.equity - TotalBasis(r, multipliers)) - (b.equity - TotalBasis(b, multipliers))
         == -Cash(e, MultiplierOf(multipliers, e.symbol)) - e.commission
      && ClosedPnl(r.trades) + TotalOpenPnl(r) - r.equity == ClosedPnl(b.trades) + TotalOpenPnl(b) - b.equity
  {
    var r := Post(b, e, multipliers);
    var o := Settle(HoldingIn(b, e.symbol), e, MultiplierOf(multipliers, e.symbol));
    assert HoldingIn(r, e.symbol) == o.after;
    SettleAccounts(HoldingIn(b, e.symbol), e, MultiplierOf(multipliers, e.symbol));
    TotalsAfterPost(b, e, multipliers);
    if o.closed.Some? {
      assert r.trades[..|b.trades|] == b.trades;
    }
  }

  lemma PostKeepsBalance(b: Book, start: real, es: seq<Execution>, e: Execution, multipliers: Multipliers)
    requires SoundBook(b)
    requires 0 < e.quantity
    requires Balanced(b, start, es, multipliers)
    ensures Balanced(Post(b, e, multipliers), start, es + [e], multipliers)
  {
    assert (es + [e])[..|es|] == es;
    PostMovesEquity(b, e, multipliers);
    assert CashPaid(es + [e], multipliers)
        == CashPaid(es, multipliers) + Cash(e, MultiplierOf(multipliers, e.symbol));
  }

  lemma EmptyBookBalances(start: real, multipliers: Multipliers)
    ensures SoundBook(Book(start, map[], []))
    ensures Balanced(Book(start, map[], []), start, [], multipliers)
  {
    assert Bases(Book(start, map[], []), multipliers) == map[];
    assert Pnls(Book(start, map[], [])) == map[];
  }

  /**
   The books balance after any sequence of fills whatsoever, with positions
   opened, extended, reduced, closed and flipped in any interleaving of symbols.
   */
  lemma {:induction false} BooksBalance(start: real, es: seq<Execution>, multipliers: Multipliers)
    requires Positive(es)
    ensures Balanced(Replay(Book(start, map[], []), es, multipliers), start, es, multipliers)
  {
    hide Balanced, Post, Replay, SoundBook, Positive;
    EmptyBookBalances(start, multipliers);
    var empty := Book(start, map[], []);
    if es == [] {
      ReplayNone(empty, multipliers);
    } else {
      var init, e := es[..|es| - 1], es[|es| - 1];
      assert init + [e] == es;
      ReplayLast(empty, init, e, multipliers);
      BooksBalance(start, init, multipliers);
      PostKeepsBalance(Replay(empty, init, multipliers), start, init, e, multipliers);
    }
  }

  // ---- The quantity a closed trade reports ----

  /** A fill that takes the position from zero or across it. */
  predicate Starts(before: int, after: int) {
    after != 0 && (before == 0 || (before > 0) != (after > 0))
  }

  /** The largest exposure since the position in `s` last opened or flipped. */
  function HighWater(es: seq<Execution>, s: Symbol): nat {
    if es == [] then 0
    else
      var before, now := SumSigned(es[..|es| - 1], s), SumSigned(es, s);
      if now == 0 then 0
      else if Starts(before, now) then Abs(now)
      else Max(HighWater(es[..|es| - 1], s), Abs(now))
  }

  ghost predicate PeakMatches(b: Book, es: seq<Execution>, s: Symbol) {
    HighWater(es, s) == if s in b.open then b.open[s].peak else 0
  }

  lemma PeakStep(b: Book, es: seq<Execution>, e: Execution, multipliers: Multipliers, s: Symbol)
    requires SoundBook(b) && 0 < e.quantity
    requires Position(b, s) == SumSigned(es, s)
    requires PeakMatches(b, es, s)
    ensures PeakMatches(Post(b, e, multipliers), es + [e], s)
  {
    assert (es + [e])[..|es|] == es;
    var r := Post(b, e, multipliers);
    assert HoldingIn(r, s).Some? <==> s in r.open;
    assert HoldingIn(b, s).Some? <==> s in b.open;
  }

  /** The peak of an open trade is the high water of its exposure. */
  lemma {:induction false} PeakIsHighWater(start: real, es: seq<Execution>, multipliers: Multipliers, s: Symbol)
    requires Positive(es)
    ensures PeakMatches(Replay(Book(start, map[], []), es, multipliers), es, s)
  {
    if es != [] {
      var init := es[..|es| - 1];
      PeakIsHighWater(start, init, multipliers, s);
      BooksBalance(start, init, multipliers);
      PeakStep(Replay(Book(start, map[], []), init, multipliers), init, es[|es| - 1], multipliers, s);
      assert init + [es[|es| - 1]] == es;
    }
  }

  /** A net position that returns to zero or changes sign. */
  predicate Ends(before: int, after: int) {
    before != 0 && (after == 0 || (before > 0) != (after > 0))
  }

  lemma ClosedByEnding(b: Book, e: Execution, multipliers: Multipliers)
    requires SoundBook(b) && 0 < e.quantity
    ensures
      var after := Position(b, e.symbol) + SignedQuantity(e);
      var o := Settle(HoldingIn(b, e.symbol), e, MultiplierOf(multipliers, e.symbol));
      && (o.closed.Some? <==> Ends(Position(b, e.symbol), after))
      && (o.closed.Some? ==> e.symbol in b.open && o.closed.value.quantity == Max(b.open[e.symbol].peak, Abs(after)))
  {
  }

  /**
   A trade is recorded exactly when a position ends. It reports the high water of its
   exposure, except after a flip to a side larger than the old one ever was: then, and
   only then, it reports the new side.
   */
  lemma ReportedQuantity(start: real, es: seq<Execution>, e: Execution, multipliers: Multipliers)
    requires Positive(es) && 0 < e.quantity
    ensures
      var b := Replay(Book(start, map[], []), es, multipliers);
      var trades := Post(b, e, multipliers).trades;
      var before := SumSigned(es, e.symbol);
      var after := before + SignedQuantity(e);
      var high := HighWater(es, e.symbol);
      if Ends(before, after)
      then
        && |trades| == |b.trades| + 1 && trades[..|b.trades|] == b.trades
        && (trades[|b.trades|].quantity == high <==> Abs(after) <= high)
        && (high < Abs(after) ==> trades[|b.trades|].quantity == Abs(after))
      else trades == b.trades
  {
    var b := Replay(Book(start, map[], []), es, multipliers);
    BooksBalance(start, es, multipliers);
    PeakIsHighWater(start, es, multipliers, e.symbol);
    assert Position(b, e.symbol) == SumSigned(es, e.symbol);
    hide Balanced, Replay, SumSigned, HighWater, Settle, Position;
    ClosedByEnding(b, e, multipliers);
  }

  // ---- What a trade is, read off the fills alone ----

  /** The quantity-weighted price of everything added to the exposure in `s` since it opened. */
  function EntryPrice(es: seq<Execution>, s: Symbol): real {
    if es == [] then 0.0
    else
      var init, price := es[..|es| - 1], es[|es| - 1].price;
      var before, now := SumSigned(init, s), SumSigned(es, s);
      if Starts(before, now) then price
      else if Abs(before) < Abs(now) then
        (EntryPrice(init, s) * Abs(before) as real + price * (Abs(now) - Abs(before)) as real) / Abs(now) as real
      else EntryPrice(init, s)
  }

  function EntryTime(es: seq<Execution>, s: Symbol): int {
    if es == [] then 0
    else
      var init := es[..|es| - 1];
      if Starts(SumSigned(init, s), SumSigned(es, s)) then es[|es| - 1].ts else EntryTime(init, s)
  }

  /**
   Cash paid and commissions charged for the exposure in `s` since it opened. Of a fill that
   crosses zero only the new side counts, and its commission belongs to the old one.
   */
  function TripCost(es: seq<Execution>, s: Symbol, multiplier: real): real {
    if es == [] then 0.0
    else
      var init, e := es[..|es| - 1], es[|es| - 1];
      var before, now := SumSigned(init, s), SumSigned(es, s);
      if now == 0 then 0.0
      else if before == 0 then Cash(e, multiplier) + e.commission
      else if Starts(before, now) then now as real * e.price * multiplier
      else TripCost(init, s, multiplier) + if e.symbol == s then Cash(e, multiplier) + e.commission else 0.0
  }

  /** The trade held in `s` has the entry its fills give it, and has made what it is worth less what it cost. */
  predicate FollowsFills(h: Option<Holding>, es: seq<Execution>, s: Symbol, multiplier: real) {
    h.Some? ==>
      var net := SumSigned(es, s);
      && (h.value.side.Buy? <==> 0 < net) && h.value.quantity == Abs(net)
      && h.value.avgEntry == EntryPrice(es, s) && h.value.entryTs == EntryTime(es, s)
      && h.value.pnl == net as real * EntryPrice(es, s) * multiplier - TripCost(es, s, multiplier)
  }

  lemma SumSignedOn(es: seq<Execution>, e: Execution, s: Symbol)
    ensures SumSigned(es + [e], s) == SumSigned(es, s) + (if e.symbol == s then SignedQuantity(e) else 0)
  {
    assert (es + [e])[..|es|] == es;
  }

  lemma EntryOn(es: seq<Execution>, e: Execution, s: Symbol)
    ensures
      var before, now := SumSigned(es, s), SumSigned(es + [e], s);
      && EntryTime(es + [e], s) == (if Starts(before, now) then e.ts else EntryTime(es, s))
      && EntryPrice(es + [e], s)
         == (if Starts(before, now) then e.price
             else if Abs(before) < Abs(now) then
               Blend(EntryPrice(es, s), Abs(before), e.price, Abs(now) - Abs(before))
             else EntryPrice(es, s))
  {
    hide SumSigned;
    assert (es + [e])[..|es|] == es;
  }

  lemma CostOn(es: seq<Execution>, e: Execution, s: Symbol, multiplier: real)
    ensures
      var before, now := SumSigned(es, s), SumSigned(es + [e], s);
      TripCost(es + [e], s, multiplier)
      == if now == 0 then 0.0
         else if before == 0 then Cash(e, multiplier) + e.commission
         else if Starts(before, now) then now as real * e.price * multiplier
         else TripCost(es, s, multiplier) + if e.symbol == s then Cash(e, multiplier) + e.commission else 0.0
  {
    hide SumSigned, Cash;
    assert (es + [e])[..|es|] == es;
  }

  /** One fill's effect on the entry of the open trade. */
  lemma SettleEntry(before: Option<Holding>, e: Execution, multiplier: real)
    requires before.Some? ==> Sound(before.value)
    requires 0 < e.quantity
    ensures
      var net, after := NetQuantity(before), Settle(before, e, multiplier).after;
      var now := net + SignedQuantity(e);
      && (after.Some? <==> now != 0)
      && (after.Some? ==>
           && after.value.entryTs == (if Starts(net, now) then e.ts else before.value.entryTs)
           && after.value.avgEntry
              == (if Starts(net, now) then e.price
                  else if Abs(net) < Abs(now) then
                    Blend(before.value.avgEntry, Abs(net), e.price, Abs(now) - Abs(net))
                  else before.value.avgEntry))
  {
    hide Blend, Profit;
  }

  /** One fill's effect on what the open trade has made. */
  lemma SettlePnl(before: Option<Holding>, e: Execution, multiplier: real)
    requires before.Some? ==> Sound(before.value)
    requires 0 < e.quantity
    ensures
      var net, after := NetQuantity(before), Settle(before, e, multiplier).after;
      var now := net + SignedQuantity(e);
      after.Some? ==>
        Basis(after, multiplier) - OpenPnl(after)
        == if net == 0 then Cash(e, multiplier) + e.commission
           else if Starts(net, now) then now as real * e.price * multiplier
           else Basis(before, multiplier) - OpenPnl(before) + Cash(e, multiplier) + e.commission
  {
    SettleAccounts(before, e, multiplier);
    if before.Some? && before.value.side != e.side && before.value.quantity < e.quantity {
      assert Settle(before, e, multiplier).after == Turned(before.value, e, multiplier).after;
    } else {
      hide Basis, Cash;
    }
  }

  lemma FollowsOther(h: Option<Holding>, es: seq<Execution>, e: Execution, s: Symbol, multiplier: real)
    requires (h.Some? ==> Sound(h.value)) && e.symbol != s
    requires NetQuantity(h) == SumSigned(es, s) && FollowsFills(h, es, s, multiplier)
    ensures FollowsFills(h, es + [e], s, multiplier)
  {
    hide SumSigned, EntryPrice, EntryTime, TripCost, Blend, Cash;
    SumSignedOn(es, e, s);
    EntryOn(es, e, s);
    CostOn(es, e, s, multiplier);
  }

  /** What the trade held has made, in terms of what it is worth at entry. */
  lemma PnlAsCost(h: Option<Holding>, es: seq<Execution>, s: Symbol, multiplier: real)
    requires NetQuantity(h) == SumSigned(es, s)
    requires h.Some? ==> h.value.avgEntry == EntryPrice(es, s)
    ensures h.Some? ==>
      (h.value.pnl == SumSigned(es, s) as real * EntryPrice(es, s) * multiplier - TripCost(es, s, multiplier)
       <==> Basis(h, multiplier) - OpenPnl(h) == TripCost(es, s, multiplier))
  {
    hide SumSigned, EntryPrice, TripCost;
  }

  lemma FollowsFill(h: Option<Holding>, es: seq<Execution>, e: Execution, multiplier: real)
    requires (h.Some? ==> Sound(h.value)) && 0 < e.quantity
    requires NetQuantity(h) == SumSigned(es, e.symbol) && FollowsFills(h, es, e.symbol, multiplier)
    ensures FollowsFills(Settle(h, e, multiplier).after, es + [e], e.symbol, multiplier)
  {
    hide Settle, SumSigned, EntryPrice, EntryTime, TripCost, Blend, Cash, Basis;
    var s, after := e.symbol, Settle(h, e, multiplier).after;
    SumSignedOn(es, e, s);
    EntryOn(es, e, s);
    CostOn(es, e, s, multiplier);
    SettleEntry(h, e, multiplier);
    SettlePnl(h, e, multiplier);
    PnlAsCost(h, es, s, multiplier);
    PnlAsCost(after, es + [e], s, multiplier);
  }

  /** What one execution does to the book, in terms of what it does to its symbol. */
  lemma Posted(b: Book, e: Execution, multipliers: Multipliers)
    requires SoundBook(b) && 0 < e.quantity
    ensures
      var r, h := Post(b, e, multipliers), HoldingIn(b, e.symbol);
      && (h.Some? ==> Sound(h.value))
      && var o := Settle(h, e, MultiplierOf(multipliers, e.symbol));
         && HoldingIn(r, e.symbol) == o.after
         && r.equity == b.equity + o.realized - e.commission
         && r.trades == b.trades + if o.closed.Some? then [o.closed.value] else []
  {
    hide Settle;
  }

  /**
   The open trade of a symbol is what its fills say it is: entered where its exposure last
   started, at the mean price of what was added since, and ahead by what the exposure is
   worth at that price less what it cost.
   */
  lemma {:induction false} OpenTradeFollowsFills(start: real, es: seq<Execution>, multipliers: Multipliers, s: Symbol)
    requires Positive(es)
    ensures
      FollowsFills(HoldingIn(Replay(Book(start, map[], []), es, multipliers), s), es, s, MultiplierOf(multipliers, s))
  {
    hide Replay, FollowsFills, Post, SumSigned, Settle, MultiplierOf;
    var empty := Book(start, map[], []);
    if es == [] {
      ReplayNone(empty, multipliers);
      NothingHeld(s, MultiplierOf(multipliers, s));
    } else {
      var init, e := es[..|es| - 1], es[|es| - 1];
      assert init + [e] == es;
      OpenTradeFollowsFills(start, init, multipliers, s);
      PositionIsSum(start, init, multipliers, s);
      ReplayLast(empty, init, e, multipliers);
      var b := Replay(empty, init, multipliers);
      if e.symbol == s {
        Posted(b, e, multipliers);
        FollowsFill(HoldingIn(b, s), init, e, MultiplierOf(multipliers, s));
      } else {
        FollowsOther(HoldingIn(b, s), init, e, s, MultiplierOf(multipliers, s));
      }
    }
  }

  lemma NothingHeld(s: Symbol, multiplier: real)
    ensures FollowsFills(None, [], s, multiplier)
  {
  }

  lemma PositionIsSum(start: real, es: seq<Execution>, multipliers: Multipliers, s: Symbol)
    requires Positive(es)
    ensures Position(Replay(Book(start, map[], []), es, multipliers), s) == SumSigned(es, s)
  {
    hide Replay, SumSigned, Position;
    BooksBalance(start, es, multipliers);
  }

  /** How much of the exposure before a fill the fill takes off. */
  function Covered(before: int, fill: int): int {
    if before > 0 > fill then Min(before, -fill)
    else if before < 0 < fill then -Min(-before, fill)
    else 0
  }

  lemma SettleProfit(before: Option<Holding>, e: Execution, multiplier: real)
    requires before.Some? ==> Sound(before.value)
    requires 0 < e.quantity
    ensures
      var o, net := Settle(before, e, multiplier), NetQuantity(before);
      && (before.None? ==> o.realized == 0.0)
      && (before.Some? ==>
           o.realized == Covered(net, SignedQuantity(e)) as real * (e.price - before.value.avgEntry) * multiplier)
      && (o.closed.Some? ==>
           var t := o.closed.value;
           && t.symbol == e.symbol && t.exitTs == e.ts
           && t.side == before.value.side && t.entryTs == before.value.entryTs
           && t.pnl == OpenPnl(before) - e.commission + o.realized)
  {
  }

  lemma ClosingPnl(net: int, price: real, entry: real, multiplier: real, pnl: real, cost: real)
    requires pnl == net as real * entry * multiplier - cost
    ensures pnl + net as real * (price - entry) * multiplier == net as real * price * multiplier - cost
  {
  }

  /**
   After any history, a fill pays the account for exactly the exposure it takes off, at
   its price less the entry price the fills give; and the trade it closes carries the
   dates and side of that exposure and has made its proceeds less its cost.
   */
  lemma FillPays(start: real, es: seq<Execution>, e: Execution, multipliers: Multipliers)
    requires Positive(es) && 0 < e.quantity
    ensures
      var b := Replay(Book(start, map[], []), es, multipliers);
      var r, s, m := Post(b, e, multipliers), e.symbol, MultiplierOf(multipliers, e.symbol);
      var before := SumSigned(es, s);
      && r.equity == b.equity - e.commission
                     + Covered(before, SignedQuantity(e)) as real * (e.price - EntryPrice(es, s)) * m
      && (Ends(before, before + SignedQuantity(e)) ==>
           && r.trades != []
           && var t := r.trades[|r.trades| - 1];
              && t.symbol == s && (t.side.Buy? <==> 0 < before) && t.entryTs == EntryTime(es, s) && t.exitTs == e.ts
              && t.pnl == before as real * e.price * m - TripCost(es, s, m) - e.commission)
  {
    hide Replay, Post, SumSigned, EntryPrice, EntryTime, TripCost, Settle;
    var b := Replay(Book(start, map[], []), es, multipliers);
    var s, m := e.symbol, MultiplierOf(multipliers, e.symbol);
    var held := HoldingIn(b, s);
    PositionIsSum(start, es, multipliers, s);
    OpenTradeFollowsFills(start, es, multipliers, s);
    Posted(b, e, multipliers);
    ClosedByEnding(b, e, multipliers);
    FillPaysFor(held, es, e, m);
  }

  lemma FillPaysFor(held: Option<Holding>, es: seq<Execution>, e: Execution, multiplier: real)
    requires (held.Some? ==> Sound(held.value)) && 0 < e.quantity
    requires NetQuantity(held) == SumSigned(es, e.symbol) && FollowsFills(held, es, e.symbol, multiplier)
    ensures
      var o, s, before := Settle(held, e, multiplier), e.symbol, SumSigned(es, e.symbol);
      && o.realized == Covered(before, SignedQuantity(e)) as real * (e.price - EntryPrice(es, s)) * multiplier
      && (o.closed.Some? ==>
           var t := o.closed.value;
           && t.symbol == s && (t.side.Buy? <==> 0 < before) && t.entryTs == EntryTime(es, s) && t.exitTs == e.ts
           && t.pnl == before as real * e.price * multiplier - TripCost(es, s, multiplier) - e.commission)
  {
    hide SumSigned, EntryPrice, EntryTime, TripCost, Settle;
    SettleProfit(held, e, multiplier);
    if held.Some? {
      ClosingPnl(SumSigned(es, e.symbol), e.price, EntryPrice(es, e.symbol), multiplier, held.value.pnl,
                 TripCost(es, e.symbol, multiplier));
    }
  }

  function FillOf(side: Side, quantity: int): Execution {
    Execution(0, 0, 0, side, quantity, 1.0, quantity, 0, 0.0)
  }

  lemma BoughtThenSold()
    ensures
      var bought, sold := FillOf(Buy, 1), FillOf(Sell, 3);
      && SumSigned([], 0) == 0 && SumSigned([bought], 0) == 1 && SumSigned([bought] + [sold], 0) == -2
      && HighWater([bought], 0) == 1
  {
    var bought, sold := FillOf(Buy, 1), FillOf(Sell, 3);
    assert [bought][..0] == [] && ([bought] + [sold])[..1] == [bought];
  }

  /** One contract bought, three sold: the closed trade held one and reports two. */
  lemma FlipReportsNewSide()
    ensures
      var trades := Replay(Book(0.0, map[], []), [FillOf(Buy, 1)] + [FillOf(Sell, 3)], map[]).trades;
      HighWater([FillOf(Buy, 1)], 0) == 1 && |trades| == 1 && trades[0].quantity == 2
  {
    hide Replay, Post, SumSigned, HighWater;
    var empty, bought, sold := Book(0.0, map[], []), FillOf(Buy, 1), FillOf(Sell, 3);
    BoughtThenSold();
    ReplayNone(empty, map[]);
    assert [] + [bought] == [bought];
    ReplayLast(empty, [], bought, map[]);
    ReplayLast(empty, [bought], sold, map[]);
    ReportedQuantity(0.0, [], bought, map[]);
    ReportedQuantity(0.0, [bought], sold, map[]);
  }
}
