/**
 The simulated broker: pending orders resolved bar by bar, fills booked in the
 ledger, and acknowledgements and executions queued for the order manager.
 The price a fill gets is a parameter (`Quotes`).
 */
module Simulator {
  import opened Core
  import opened Ledger

  datatype OrderType = Market | Limit | Stop | StopLimit | MarketOnClose

  datatype TimeInForce = Day | Gtc | Ioc | Fok

  datatype Bar = Bar(ts: int, symbol: Symbol, open: real, high: real, low: real, close: real, volume: real)

  datatype Request = Request(
    orderId: OrderId,
    symbol: Symbol,
    side: Side,
    quantity: nat,
    orderType: OrderType,
    limitPrice: Option<real>,
    timeInForce: TimeInForce
  )

  datatype Pending = Pending(request: Request, expectedPrice: real, remaining: int, barsAlive: nat)

  datatype BrokerEvent = Ack(orderId: OrderId) | Reject(orderId: OrderId) | Fill(execution: Execution)

  datatype Terms = Terms(multipliers: Multipliers, commissionPerContract: real, maxParticipation: real)

  /** The price each order would get on the bar being processed. */
  type Quotes = OrderId -> real

  function Truncate(x: real): int {
    if x >= 0.0 then x.Floor else -((-x).Floor)
  }

  predicate FillsInFull(t: OrderType) {
    t.Market? || t.Stop? || t.MarketOnClose?
  }

  predicate Touches(bar: Bar, r: Request) {
    var limit := if r.limitPrice.Some? then r.limitPrice.value else 0.0;
    bar.low <= limit <= bar.high
  }

  /** One unit, or what the bar's volume leaves for one order. */
  predicate WithinShare(n: int, bar: Bar, terms: Terms) {
    n <= 1 || n as real <= bar.volume * terms.maxParticipation
  }

  /**
   What one bar takes of an order: all of it, unless it is a limit or stop-limit order;
   then the most that is left and within the bar's share if the bar's range holds the
   limit price, a missing one counting as zero, and nothing otherwise.
   */
  predicate Takes(p: Pending, bar: Bar, terms: Terms, n: int) {
    && 0 <= n <= p.remaining
    && (p.request.orderType in {Market, Stop, MarketOnClose} ==> n == p.remaining)
    && (p.request.orderType in {Limit, StopLimit} ==>
         var reached := match p.request.limitPrice
                        case Some(price) => bar.low <= price <= bar.high
                        case None => bar.low <= 0.0 <= bar.high;
         if reached
         then WithinShare(n, bar, terms) && forall m :: n < m <= p.remaining ==> !WithinShare(m, bar, terms)
         else n == 0)
  }

  /** How much of an order one bar fills. */
  function FillQuantity(p: Pending, bar: Bar, terms: Terms): (n: int)
    requires 0 <= p.remaining
    ensures Takes(p, bar, terms, n)
    ensures 0 <= n <= p.remaining
    ensures FillsInFull(p.request.orderType) ==> n == p.remaining
    ensures !FillsInFull(p.request.orderType) && Touches(bar, p.request) && 0 < p.remaining ==> 0 < n
    ensures !FillsInFull(p.request.orderType) && !Touches(bar, p.request) ==> n == 0
  {
    var share := Truncate(bar.volume * terms.maxParticipation);
    match p.request.orderType
    case Market => Min(p.remaining, Max(share, p.remaining))
    case Limit | StopLimit => if Touches(bar, p.request) then Min(p.remaining, Max(share, 1)) else 0
    case Stop | MarketOnClose => p.remaining
  }

  function Aged(p: Pending, bar: Bar, terms: Terms): Pending
    requires 0 <= p.remaining
  {
    p.(remaining := p.remaining - FillQuantity(p, bar, terms), barsAlive := p.barsAlive + 1)
  }

  /** Only an unfilled remainder that is not immediate-or-cancel is carried over. */
  predicate Survives(p: Pending, bar: Bar, terms: Terms)
    requires 0 <= p.remaining
  {
    Aged(p, bar, terms).remaining > 0 && !p.request.timeInForce.Ioc? && !p.request.timeInForce.Fok?
  }

  function ExecutionOf(p: Pending, n: int, price: real, bar: Bar, terms: Terms): Execution {
    Execution(bar.ts, p.request.orderId, bar.symbol, p.request.side, n, price,
              p.request.quantity - p.remaining + n, p.remaining - n, terms.commissionPerContract * n as real)
  }

  predicate Unfilled(ps: seq<Pending>) {
    forall i :: 0 <= i < |ps| ==> 0 <= ps[i].remaining
  }

  function Executions(ps: seq<Pending>, bar: Bar, quotes: Quotes, terms: Terms): (es: seq<Execution>)
    requires Unfilled(ps)
    ensures Positive(es)
  {
    if ps == [] then []
    else
      var p := ps[|ps| - 1];
      var n := FillQuantity(p, bar, terms);
      Executions(ps[..|ps| - 1], bar, quotes, terms)
      + (if n > 0 then [ExecutionOf(p, n, quotes(p.request.orderId), bar, terms)] else [])
  }

  function Survivors(ps: seq<Pending>, bar: Bar, terms: Terms): (rs: seq<Pending>)
    requires Unfilled(ps)
    ensures Unfilled(rs)
  {
    if ps == [] then []
    else
      var p := ps[|ps| - 1];
      Survivors(ps[..|ps| - 1], bar, terms) + (if Survives(p, bar, terms) then [Aged(p, bar, terms)] else [])
  }

  function Without(ps: seq<Pending>, id: OrderId): (rs: seq<Pending>)
    requires Unfilled(ps)
    ensures Unfilled(rs)
  {
    if ps == [] then []
    else
      var p := ps[|ps| - 1];
      Without(ps[..|ps| - 1], id) + (if p.request.orderId != id then [p] else [])
  }

  function Reports(es: seq<Execution>): seq<BrokerEvent> {
    seq(|es|, i requires 0 <= i < |es| => Fill(es[i]))
  }

  // ---- The broker as a value ----

  datatype Desk = Desk(
    pending: map<Symbol, seq<Pending>>,
    book: Book,
    fills: seq<Execution>,
    queue: seq<BrokerEvent>,
    lastClose: map<Symbol, real>
  )

  function PendingOf(d: Desk, s: Symbol): seq<Pending> {
    if s in d.pending then d.pending[s] else []
  }

  predicate SoundDesk(d: Desk) {
    && SoundBook(d.book)
    && forall s :: s in d.pending ==> Unfilled(d.pending[s])
  }

  function Placed(d: Desk, r: Request): (e: Desk)
    requires SoundDesk(d)
    ensures SoundDesk(e)
  {
    var expected := if r.symbol in d.lastClose then d.lastClose[r.symbol] else 0.0;
    d.(pending := d.pending[r.symbol := PendingOf(d, r.symbol) + [Pending(r, expected, r.quantity, 0)]],
       queue := d.queue + [Ack(r.orderId)])
  }

  function Withdrawn(d: Desk, id: OrderId): (e: Desk)
    requires SoundDesk(d)
    ensures SoundDesk(e)
  {
    d.(pending := map s | s in d.pending :: Without(d.pending[s], id))
  }

  /** One bar: every pending order of its symbol is resolved in order. */
  function BarProcessed(d: Desk, bar: Bar, quotes: Quotes, terms: Terms): (e: Desk)
    requires SoundDesk(d)
    ensures SoundDesk(e) && d.fills <= e.fills
  {
    var ps := PendingOf(d, bar.symbol);
    var es := Executions(ps, bar, quotes, terms);
    Desk(
      d.pending[bar.symbol := Survivors(ps, bar, terms)],
      Replay(d.book, es, terms.multipliers),
      d.fills + es,
      d.queue + Reports(es),
      d.lastClose[bar.symbol := bar.close])
  }

  lemma ResolveNone(ps: seq<Pending>, book: Book, bar: Bar, quotes: Quotes, terms: Terms)
    requires Unfilled(ps) && SoundBook(book)
    ensures Reports([]) == []
    ensures forall i | 0 <= i <= |ps| :: Unfilled(ps[..i])
    ensures forall i | 0 <= i < |ps| :: 0 <= ps[i].remaining
    ensures Executions(ps[..0], bar, quotes, terms) == []
    ensures Survivors(ps[..0], bar, terms) == []
    ensures Replay(book, [], terms.multipliers) == book
  {
  }

  /** Resolving one more order of the list. */
  lemma ResolveNext(ps: seq<Pending>, i: nat, book: Book, bar: Bar, quotes: Quotes, terms: Terms)
    requires Unfilled(ps) && i < |ps| && SoundBook(book)
    ensures
      var n := FillQuantity(ps[i], bar, terms);
      var e := ExecutionOf(ps[i], n, quotes(ps[i].request.orderId), bar, terms);
      var es := Executions(ps[..i], bar, quotes, terms);
      var fs := Executions(ps[..i + 1], bar, quotes, terms);
      && fs == (if n > 0 then es + [e] else es)
      && Reports(fs) == (if n > 0 then Reports(es) + [Fill(e)] else Reports(es))
      && (n > 0 ==>
            Replay(book, fs, terms.multipliers) == Post(Replay(book, es, terms.multipliers), e, terms.multipliers))
    ensures Survivors(ps[..i + 1], bar, terms)
         == Survivors(ps[..i], bar, terms) + (if Survives(ps[i], bar, terms) then [Aged(ps[i], bar, terms)] else [])
  {
    assert ps[..i + 1][..i] == ps[..i];
    var n := FillQuantity(ps[i], bar, terms);
    if n > 0 {
      var e := ExecutionOf(ps[i], n, quotes(ps[i].request.orderId), bar, terms);
      var es := Executions(ps[..i], bar, quotes, terms);
      assert (es + [e])[..|es|] == es;
      assert Reports(es + [e]) == Reports(es) + [Fill(e)];
    }
  }

  // ---- The broker as the mutable object it is ----

  datatype OpenTrade = OpenTrade(entryTs: int, side: Side, peak: int, pnl: real)

  class MarketSimulatorBroker {
    const terms: Terms
    var equity: real
    var realizedPnl: real
    var positions: map<Symbol, int>
    var avgEntryPrice: map<Symbol, real>
    var pendingOrders: map<Symbol, seq<Pending>>
    var lastClose: map<Symbol, real>
    var eventQueue: seq<BrokerEvent>
    var fills: seq<Execution>
    var openTrades: map<Symbol, OpenTrade>
    var trades: seq<TradeRecord>

    /** The same accounts as one value, kept in step with the fields above. */
    ghost var book: Book

    ghost predicate Consistent()
      reads this
    {
      && book.equity == equity && book.trades == trades
      && AllInStep(positions, avgEntryPrice, openTrades, book)
      && (forall s :: s in pendingOrders ==> Unfilled(pendingOrders[s]))
    }

    /** Between calls all realized profit has been folded into equity. */
    ghost predicate Valid()
      reads this
    {
      Consistent() && realizedPnl == 0.0 && positions.Keys == Traded(fills)
    }

    ghost function View(): (d: Desk)
      requires Valid()
      reads this
      ensures SoundDesk(d)
    {
      assert forall s :: s in book.open ==> InStep(positions, avgEntryPrice, openTrades, book, s);
      Desk(pendingOrders, book, fills, eventQueue, lastClose)
    }

    constructor (startingEquity: real, terms: Terms)
      ensures Valid() && this.terms == terms
      ensures View() == Desk(map[], Book(startingEquity, map[], []), [], [], map[])
    {
      this.terms := terms;
      equity, realizedPnl := startingEquity, 0.0;
      positions, avgEntryPrice, pendingOrders := map[], map[], map[];
      lastClose, eventQueue, fills := map[], [], [];
      openTrades, trades := map[], [];
      book := Book(startingEquity, map[], []);
    }

    method PlaceOrder(r: Request)
      requires Valid()
      modifies this
      ensures Valid() && View() == Placed(old(View()), r)
    {
      var expected := if r.symbol in lastClose then lastClose[r.symbol] else 0.0;
      var ps := if r.symbol in pendingOrders then pendingOrders[r.symbol] else [];
      pendingOrders := pendingOrders[r.symbol := ps + [Pending(r, expected, r.quantity, 0)]];
      eventQueue := eventQueue + [Ack(r.orderId)];
    }

    method CancelOrder(id: OrderId)
      requires Valid()
      modifies this
      ensures Valid() && View() == Withdrawn(old(View()), id)
    {
      pendingOrders := map s | s in pendingOrders :: Without(pendingOrders[s], id);
    }

    method CancelAll()
      requires Valid()
      modifies this`pendingOrders
      ensures Valid() && View() == old(View()).(pending := map[])
    {
      pendingOrders := map[];
    }

    /** What a consumer of the event stream receives next. */
    method NextEvent() returns (ev: BrokerEvent)
      requires Valid() && eventQueue != []
      modifies this`eventQueue
      ensures Valid()
      ensures ev == old(eventQueue)[0] && View() == old(View()).(queue := old(eventQueue)[1..])
    {
      ev := eventQueue[0];
      eventQueue := eventQueue[1..];
    }

    method ProcessBar(bar: Bar, quotes: Quotes)
      requires Valid()
      modifies this
      ensures Valid() && View() == BarProcessed(old(View()), bar, quotes, terms)
      ensures lastClose == old(lastClose)[bar.symbol := bar.close]
    {
      assert SoundDesk(View());
      var ps := if bar.symbol in pendingOrders then pendingOrders[bar.symbol] else [];
      var remainingOrders := ResolvePendingOrders(ps, bar, quotes);
      pendingOrders := pendingOrders[bar.symbol := remainingOrders];
      lastClose := lastClose[bar.symbol := bar.close];
    }

    /** Resolves the orders of the bar's symbol in turn; returns those carried over. */
    method ResolvePendingOrders(ps: seq<Pending>, bar: Bar, quotes: Quotes) returns (remainingOrders: seq<Pending>)
      requires Valid() && SoundBook(book)
      requires Unfilled(ps)
      modifies this`equity, this`realizedPnl, this`positions, this`avgEntryPrice
      modifies this`openTrades, this`trades, this`fills, this`eventQueue, this`book
      ensures Valid()
      ensures remainingOrders == Survivors(ps, bar, terms)
      ensures book == Replay(old(book), Executions(ps, bar, quotes, terms), terms.multipliers)
      ensures fills == old(fills) + Executions(ps, bar, quotes, terms)
      ensures eventQueue == old(eventQueue) + Reports(Executions(ps, bar, quotes, terms))
    {
      hide *;
      remainingOrders := [];
      ResolveNone(ps, old(book), bar, quotes, terms);
      for i := 0 to |ps|
        invariant Valid()
        invariant remainingOrders == Survivors(ps[..i], bar, terms)
        invariant book == Replay(old(book), Executions(ps[..i], bar, quotes, terms), terms.multipliers)
        invariant fills == old(fills) + Executions(ps[..i], bar, quotes, terms)
        invariant eventQueue == old(eventQueue) + Reports(Executions(ps[..i], bar, quotes, terms))
      {
        ResolveNext(ps, i, old(book), bar, quotes, terms);
        var kept := ResolveOrder(ps[i], bar, quotes(ps[i].request.orderId));
        remainingOrders := remainingOrders + kept;
      }
      assert ps[..|ps|] == ps;
    }

    /** One order against one bar; what is carried forward is returned. */
    method ResolveOrder(p: Pending, bar: Bar, price: real) returns (kept: seq<Pending>)
      requires Valid()
      requires 0 <= p.remaining
      modifies this`equity, this`realizedPnl, this`positions, this`avgEntryPrice
      modifies this`openTrades, this`trades, this`fills, this`eventQueue, this`book
      ensures Valid()
      ensures kept == if Survives(p, bar, terms) then [Aged(p, bar, terms)] else []
      ensures
        var n := FillQuantity(p, bar, terms);
        var e := ExecutionOf(p, n, price, bar, terms);
        SoundBook(old(book)) &&
        if n == 0 then
          book == old(book) && fills == old(fills) && eventQueue == old(eventQueue)
        else
          && book == Post(old(book), e, terms.multipliers)
          && fills == old(fills) + [e]
          && eventQueue == old(eventQueue) + [Fill(e)]
    {
      assert SoundBook(View().book);
      hide AllInStep, InStep, Post;
      var pending := p.(barsAlive := p.barsAlive + 1);
      var fillQty := FillQuantity(pending, bar, terms);
      assert fillQty == FillQuantity(p, bar, terms);
      if fillQty > 0 {
        ApplyFill(pending, fillQty, price, bar);
      }
      pending := pending.(remaining := pending.remaining - fillQty);
      if pending.remaining <= 0 {
        return [];
      }
      var tif := pending.request.timeInForce;
      if tif.Ioc? || tif.Fok? {
        return [];
      }
      return [pending];
    }

    method ApplyFill(pending: Pending, fillQty: int, fillPrice: real, bar: Bar)
      requires Valid()
      requires 0 < fillQty
      modifies this`equity, this`realizedPnl, this`positions, this`avgEntryPrice
      modifies this`openTrades, this`trades, this`fills, this`eventQueue, this`book
      ensures Valid()
      ensures
        var e := ExecutionOf(pending, fillQty, fillPrice, bar, terms);
        && SoundBook(old(book))
        && book == Post(old(book), e, terms.multipliers)
        && fills == old(fills) + [e]
        && eventQueue == old(eventQueue) + [Fill(e)]
    {
      assert SoundBook(View().book) && InStep(positions, avgEntryPrice, openTrades, book, bar.symbol);
      var symbol := bar.symbol;
      var e := ExecutionOf(pending, fillQty, fillPrice, bar, terms);
      var entry := if symbol in avgEntryPrice then avgEntryPrice[symbol] else 0.0;
      var before := if symbol in openTrades then Some(openTrades[symbol]) else None;
      var trade, newPosition, newEntry, closed := Rework(e, PositionIn(positions, symbol), before, entry);
      Store(e, trade, newPosition, newEntry, closed,
            Settle(HoldingIn(old(book), symbol), e, MultiplierOf(terms.multipliers, symbol)));
      TradedGrows(fills, e);
      fills := fills + [e];
      eventQueue := eventQueue + [Fill(e)];
    }

    /** Writes the reworked symbol back and folds its profit into equity. */
    method Store(e: Execution, trade: Option<OpenTrade>, newPosition: int, newEntry: real,
                 closed: Option<TradeRecord>, ghost o: Outcome)
      requires Consistent() && realizedPnl == o.realized
      requires closed == o.closed && newPosition == NetQuantity(o.after)
      requires o.after.Some? ==> Sound(o.after.value)
      requires trade.Some? <==> newPosition != 0
      requires Joined(trade, newPosition, newEntry) == o.after
      modifies this`equity, this`realizedPnl, this`positions, this`avgEntryPrice
      modifies this`openTrades, this`trades, this`book
      ensures Consistent() && realizedPnl == 0.0
      ensures book == Applied(old(book), e, o)
      ensures positions.Keys == old(positions).Keys + {e.symbol}
    {
      StoreKeepsStep(positions, avgEntryPrice, openTrades, book, e, trade, newPosition, newEntry, o);
      hide AllInStep, InStep, Traded, Joined, NetQuantity, Sound, Unfilled;
      avgEntryPrice := avgEntryPrice[e.symbol := newEntry];
      trades := if closed.Some? then trades + [closed.value] else trades;
      openTrades := if trade.Some? then openTrades[e.symbol := trade.value] else openTrades - {e.symbol};
      positions := positions[e.symbol := newPosition];
      equity := equity + (realizedPnl - e.commission);
      realizedPnl := 0.0;
      book := Applied(book, e, o);
    }

    /** The symbol-level work of one fill, on the state held for that symbol. */
    method Rework(e: Execution, prevPosition: int, openTrade: Option<OpenTrade>, entry: real)
      returns (trade: Option<OpenTrade>, newPosition: int, newEntry: real, closed: Option<TradeRecord>)
      requires 0 < e.quantity
      requires realizedPnl == 0.0
      requires openTrade.Some? <==> prevPosition != 0
      requires openTrade.Some? ==>
        && (openTrade.value.side.Buy? <==> prevPosition > 0)
        && Abs(prevPosition) <= openTrade.value.peak
      modifies this`realizedPnl
      ensures
        var o := Settle(Joined(openTrade, prevPosition, entry), e, MultiplierOf(terms.multipliers, e.symbol));
        && realizedPnl == o.realized
        && closed == o.closed
        && newPosition == NetQuantity(o.after)
        && (trade.Some? <==> newPosition != 0)
        && Joined(trade, newPosition, newEntry) == o.after
    {
      trade := openTrade;
      newEntry := entry;
      closed := None;
      var signedQty := e.quantity * e.side.Sign();
      var multiplier := MultiplierOf(terms.multipliers, e.symbol);
      newPosition := prevPosition + signedQty;
      var isFlip := prevPosition != 0 && newPosition != 0 && (prevPosition > 0) != (newPosition > 0);
      assert signedQty == SignedQuantity(e);
      if prevPosition == 0 {
        BlendFromFlat(entry, e.price, e.quantity);
      }

      if prevPosition == 0 && newPosition != 0 {
        trade := Some(OpenTrade(e.ts, if newPosition > 0 then Buy else Sell, Abs(newPosition), 0.0));
      }
      if trade.Some? {
        var t := trade.value;
        trade := Some(t.(peak := Max(t.peak, Abs(newPosition)), pnl := t.pnl - e.commission));
      }

      if prevPosition != 0 && (prevPosition > 0) != (signedQty > 0) {
        var closingQty := Min(Abs(signedQty), Abs(prevPosition));
        var closingPnl := Profit(if prevPosition > 0 then Buy else Sell, entry, e.price, closingQty, multiplier);
        realizedPnl := realizedPnl + closingPnl;
        if trade.Some? {
          trade := Some(trade.value.(pnl := trade.value.pnl + closingPnl));
        }
      }

      if newPosition == 0 {
        newEntry := 0.0;
      } else if (prevPosition >= 0 && signedQty > 0) || (prevPosition <= 0 && signedQty < 0) {
        newEntry := Blend(entry, Abs(prevPosition), e.price, Abs(signedQty));
      }
      if isFlip {
        newEntry := e.price;
      }

      if newPosition == 0 && prevPosition != 0 {
        closed := Finalized(e.symbol, trade, e.ts);
        trade := None;
      } else if isFlip {
        closed := Finalized(e.symbol, trade, e.ts);
        trade := Some(OpenTrade(e.ts, if newPosition > 0 then Buy else Sell, Abs(newPosition), 0.0));
      }
    }
  }

  /** The symbols that have ever been filled. */
  function Traded(fills: seq<Execution>): set<Symbol> {
    set i | 0 <= i < |fills| :: fills[i].symbol
  }

  lemma TradedGrows(fills: seq<Execution>, e: Execution)
    ensures Traded(fills + [e]) == Traded(fills) + {e.symbol}
  {
    var all := fills + [e];
    assert forall i :: 0 <= i < |fills| ==> all[i] == fills[i];
    assert all[|fills|] == e;
    assert forall s :: s in Traded(all) ==> exists i :: 0 <= i < |all| && all[i].symbol == s;
  }

  function PositionIn(positions: map<Symbol, int>, s: Symbol): int {
    if s in positions then positions[s] else 0
  }

  /** An open trade exists exactly where there is exposure, and on its side. */
  ghost predicate InStep(positions: map<Symbol, int>, entries: map<Symbol, real>,
                         trades: map<Symbol, OpenTrade>, book: Book, s: Symbol) {
    var position := PositionIn(positions, s);
    && (s in trades <==> position != 0)
    && (s in trades <==> s in book.open)
    && (s in trades ==>
         && s in entries
         && Joined(Some(trades[s]), position, entries[s]) == Some(book.open[s])
         && position == NetQuantity(Some(book.open[s]))
         && Sound(book.open[s]))
  }

  ghost predicate AllInStep(positions: map<Symbol, int>, entries: map<Symbol, real>,
                            trades: map<Symbol, OpenTrade>, book: Book) {
    forall s :: InStep(positions, entries, trades, book, s)
  }

  lemma StoreKeepsStep(positions: map<Symbol, int>, entries: map<Symbol, real>, trades: map<Symbol, OpenTrade>,
                       book: Book, e: Execution, trade: Option<OpenTrade>, newPosition: int, newEntry: real, o: Outcome)
    requires AllInStep(positions, entries, trades, book)
    requires newPosition == NetQuantity(o.after) && (trade.Some? <==> newPosition != 0)
    requires o.after.Some? ==> Sound(o.after.value)
    requires Joined(trade, newPosition, newEntry) == o.after
    ensures AllInStep(positions[e.symbol := newPosition], entries[e.symbol := newEntry],
                      if trade.Some? then trades[e.symbol := trade.value] else trades - {e.symbol},
                      Applied(book, e, o))
  {
    var positions', entries' := positions[e.symbol := newPosition], entries[e.symbol := newEntry];
    var trades' := if trade.Some? then trades[e.symbol := trade.value] else trades - {e.symbol};
    var book' := Applied(book, e, o);
    forall s ensures InStep(positions', entries', trades', book', s) {
      assert InStep(positions, entries, trades, book, s);
    }
  }

  function Joined(t: Option<OpenTrade>, position: int, entry: real): Option<Holding> {
    if t.None? then None
    else Some(Holding(t.value.side, Abs(position), entry, t.value.entryTs, t.value.peak, t.value.pnl))
  }

  lemma BlendFromFlat(entry: real, price: real, n: int)
    requires 0 < n
    ensures Blend(entry, 0, price, n) == price
  {
    assert Blend(entry, 0, price, n) * n as real == price * n as real;
  }

  function Finalized(symbol: Symbol, t: Option<OpenTrade>, exitTs: int): Option<TradeRecord> {
    if t.None? then None
    else Some(TradeRecord(symbol, t.value.side, t.value.entryTs, exitTs, t.value.peak, t.value.pnl))
  }
}
