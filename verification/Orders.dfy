/**
 The order lifecycle manager and its conversation with the simulated broker: a
 FIFO queue carries acknowledgements and executions, so the manager always lags
 the broker by exactly what is still queued.
 */
module Orders {
  import opened Core
  import opened Ledger
  import opened Simulator

  datatype Status =
    | PendingNew | Submitted | Acknowledged | PartiallyFilled | Filled
    | CancelPending | Cancelled | Rejected | Expired

  datatype Signal = Signal(
    symbol: Symbol,
    side: Side,
    targetQuantity: int,
    orderType: OrderType,
    limitPrice: Option<real>,
    timeInForce: TimeInForce
  )

  datatype ManagedOrder = ManagedOrder(
    symbol: Symbol,
    side: Side,
    quantity: nat,
    status: Status,
    filledQuantity: int,
    remainingQuantity: int,
    avgFillPrice: real
  )

  type OrderBook = map<OrderId, ManagedOrder>

  /** What the order was placed for, whatever has become of it since. */
  predicate SameTerms(a: ManagedOrder, b: ManagedOrder) {
    a.symbol == b.symbol && a.side == b.side && a.quantity == b.quantity
  }

  function NewOrder(s: Signal): ManagedOrder {
    ManagedOrder(s.symbol, s.side, Abs(s.targetQuantity), Submitted, 0, Abs(s.targetQuantity), 0.0)
  }

  function RequestFor(id: OrderId, s: Signal): Request {
    Request(id, s.symbol, s.side, Abs(s.targetQuantity), s.orderType, s.limitPrice, s.timeInForce)
  }

  /** An execution report overwrites the totals and re-averages the price. */
  function AfterExecution(o: ManagedOrder, e: Execution): ManagedOrder {
    var notional := o.avgFillPrice * o.filledQuantity as real + e.price * e.quantity as real;
    o.(filledQuantity := e.cumulative,
       remainingQuantity := e.remaining,
       avgFillPrice := if e.cumulative != 0 then notional / e.cumulative as real else 0.0,
       status := if e.remaining == 0 then Filled else PartiallyFilled)
  }

  function IdOf(ev: BrokerEvent): OrderId {
    match ev
    case Ack(id) => id
    case Reject(id) => id
    case Fill(e) => e.orderId
  }

  /** Events for orders the manager does not know are ignored. */
  function Handled(orders: OrderBook, ev: BrokerEvent): OrderBook {
    if IdOf(ev) !in orders then orders
    else
      var o := orders[IdOf(ev)];
      orders[IdOf(ev) :=
        match ev
        case Ack(_) => o.(status := Acknowledged)
        case Reject(_) => o.(status := Rejected)
        case Fill(e) => AfterExecution(o, e)]
  }

  // ---- Broker, queue and manager together ----

  /** `seen` is the history of executions the manager has handled. */
  datatype System = System(desk: Desk, orders: OrderBook, seen: seq<Execution>, nextId: OrderId)

  datatype Move =
    | Submit(signal: Signal)
    | Deliver
    | NextBar(bar: Bar, quotes: Quotes)
    | Cancel(id: OrderId)
    | CancelAll

  function SubmitTo(y: System, s: Signal): (r: System)
    requires SoundDesk(y.desk)
    ensures SoundDesk(r.desk)
  {
    System(
      Placed(y.desk, RequestFor(y.nextId, s)), y.orders[y.nextId := NewOrder(s)], y.seen, y.nextId + 1)
  }

  function DeliverOne(y: System): (r: System)
    requires SoundDesk(y.desk)
    ensures SoundDesk(r.desk)
  {
    if y.desk.queue == [] then y
    else
      var ev := y.desk.queue[0];
      y.(desk := y.desk.(queue := y.desk.queue[1..]),
         orders := Handled(y.orders, ev),
         seen := if ev.Fill? then y.seen + [ev.execution] else y.seen)
  }

  function Step(y: System, m: Move, terms: Terms): (r: System)
    requires SoundDesk(y.desk)
    ensures SoundDesk(r.desk)
  {
    match m
    case Submit(s) => SubmitTo(y, s)
    case Deliver => DeliverOne(y)
    case NextBar(bar, quotes) => y.(desk := BarProcessed(y.desk, bar, quotes, terms))
    case Cancel(id) =>
      if id !in y.orders then y
      else
        y.(orders := y.orders[id := y.orders[id].(status := CancelPending)], desk := Withdrawn(y.desk, id))
    case CancelAll => y.(desk := y.desk.(pending := map[]))
  }

  function Run(y: System, ms: seq<Move>, terms: Terms): (r: System)
    requires SoundDesk(y.desk)
    ensures SoundDesk(r.desk)
  {
    if ms == [] then y else Step(Run(y, ms[..|ms| - 1], terms), ms[|ms| - 1], terms)
  }

  function Started(equity: real): System {
    System(Desk(map[], Book(equity, map[], []), [], [], map[]), map[], [], 0)
  }

  class OrderLifecycleManager {
    const broker: MarketSimulatorBroker
    var orders: OrderBook
    var nextId: OrderId
    var published: seq<BrokerEvent>
    ghost var seen: seq<Execution>

    ghost predicate Valid()
      reads this, broker
    {
      broker.Valid()
    }

    ghost function View(): (y: System)
      requires Valid()
      reads this, broker
      ensures SoundDesk(y.desk)
    {
      System(broker.View(), orders, seen, nextId)
    }

    constructor (broker: MarketSimulatorBroker)
      requires broker.Valid()
      ensures this.broker == broker && Valid()
      ensures View() == System(broker.View(), map[], [], 0) && published == []
    {
      this.broker := broker;
      orders, nextId, published, seen := map[], 0, [], [];
    }

    method SubmitOrder(signal: Signal) returns (id: OrderId)
      requires Valid()
      modifies this, broker
      ensures Valid() && View() == SubmitTo(old(View()), signal) && id == old(nextId)
      ensures id in orders && orders[id].status == Submitted && orders[id].filledQuantity == 0
      ensures
        var ps := PendingOf(View().desk, signal.symbol);
        && ps != []
        && var p := ps[|ps| - 1];
           && p.remaining == p.request.quantity == Abs(signal.targetQuantity)
           && p.request.orderId == id && p.request.symbol == signal.symbol && p.request.side == signal.side
           && p.request.orderType == signal.orderType && p.request.limitPrice == signal.limitPrice
           && p.request.timeInForce == signal.timeInForce
           && p.expectedPrice
              == if signal.symbol in old(broker.lastClose) then old(broker.lastClose)[signal.symbol] else 0.0
    {
      id := nextId;
      nextId := nextId + 1;
      var quantity := Abs(signal.targetQuantity);
      var managed := ManagedOrder(signal.symbol, signal.side, quantity, PendingNew, 0, quantity, 0.0);
      orders := orders[id := managed];
      var request := Request(id, signal.symbol, signal.side, managed.quantity, signal.orderType,
                             signal.limitPrice, signal.timeInForce);
      orders := orders[id := managed.(status := Submitted)];
      broker.PlaceOrder(request);
    }

    method CancelOrder(id: OrderId)
      requires Valid()
      modifies this, broker
      ensures Valid() && View() == Step(old(View()), Cancel(id), broker.terms)
    {
      if id !in orders {
        return;
      }
      orders := orders[id := orders[id].(status := CancelPending)];
      broker.CancelOrder(id);
    }

    method CancelAllOrders()
      requires Valid()
      modifies broker
      ensures Valid() && View() == Step(old(View()), CancelAll, broker.terms)
    {
      broker.CancelAll();
    }

    /** Drains the broker's stream: one event after another until none is left. */
    method ConsumeBrokerEvents()
      requires Valid()
      modifies this, broker
      ensures Valid() && View() == Drained(old(View()))
      ensures published == old(published) + About(old(broker.eventQueue), old(orders).Keys)
    {
      hide Handled, SoundDesk, Drained, About;
      while broker.eventQueue != []
        invariant Valid()
        invariant Drained(View()) == Drained(old(View()))
        invariant orders.Keys == old(orders).Keys
        invariant published + About(broker.eventQueue, orders.Keys)
               == old(published) + About(old(broker.eventQueue), old(orders).Keys)
        decreases |broker.eventQueue|
      {
        ghost var before, events := View(), broker.eventQueue;
        DrainedNext(before);
        AboutFirst(events, orders.Keys);
        var ev := broker.NextEvent();
        HandleBrokerEvent(ev);
        HandledKeepsOrders(before.orders, ev);
        assert View() == DeliverOne(before);
      }
      NothingToDrain(View(), orders.Keys);
    }

    /** Updates the order the event names, and passes the event on to the rest of the system. */
    method HandleBrokerEvent(ev: BrokerEvent)
      modifies this`orders, this`seen, this`published
      ensures orders == Handled(old(orders), ev)
      ensures ev.Reject? && ev.orderId in orders ==> orders[ev.orderId].status == Rejected
      ensures published == old(published) + if IdOf(ev) in old(orders) then [ev] else []
      ensures seen == if ev.Fill? then old(seen) + [ev.execution] else old(seen)
    {
      if ev.Fill? {
        seen := seen + [ev.execution];
      }
      if IdOf(ev) !in orders {
        return;
      }
      var order := orders[IdOf(ev)];
      match ev {
      case Ack(_) =>
        order := order.(status := Acknowledged);
      case Reject(_) =>
        order := order.(status := Rejected);
      case Fill(e) =>
        ghost var after := AfterExecution(order, e);
        var prevNotional := order.avgFillPrice * order.filledQuantity as real;
        order := order.(filledQuantity := e.cumulative, remainingQuantity := e.remaining);
        var newNotional := prevNotional + e.price * e.quantity as real;
        order := order.(avgFillPrice :=
          if order.filledQuantity != 0 then newNotional / order.filledQuantity as real else 0.0);
        order := order.(status := if e.remaining == 0 then Filled else PartiallyFilled);
        assert order == after;
      }
      orders := orders[IdOf(ev) := order];
      published := published + [ev];
    }
  }

  lemma NothingToDrain(y: System, known: set<OrderId>)
    requires SoundDesk(y.desk) && y.desk.queue == []
    ensures Drained(y) == y && About(y.desk.queue, known) == []
  {
  }

  lemma DrainedNext(y: System)
    requires SoundDesk(y.desk) && y.desk.queue != []
    ensures Drained(y) == Drained(DeliverOne(y))
  {
  }

  lemma HandledKeepsOrders(orders: OrderBook, ev: BrokerEvent)
    ensures Handled(orders, ev).Keys == orders.Keys
  {
  }

  lemma AboutFirst(q: seq<BrokerEvent>, known: set<OrderId>)
    requires q != []
    ensures About(q, known) == (if IdOf(q[0]) in known then [q[0]] else []) + About(q[1..], known)
  {
  }

  /** The events that name one of these orders. */
  function About(q: seq<BrokerEvent>, known: set<OrderId>): seq<BrokerEvent> {
    if q == [] then []
    else (if IdOf(q[0]) in known then [q[0]] else []) + About(q[1..], known)
  }

  /** The state once every queued event has been delivered. */
  function Drained(y: System): (r: System)
    requires SoundDesk(y.desk)
    ensures SoundDesk(r.desk) && r.desk.queue == []
    decreases |y.desk.queue|
  {
    if y.desk.queue == [] then y else Drained(DeliverOne(y))
  }

  // ---- What executions add up to, order by order ----

  function FilledQty(es: seq<Execution>, id: OrderId): int {
    if es == [] then 0
    else
      var e := es[|es| - 1];
      FilledQty(es[..|es| - 1], id) + (if e.orderId == id then e.quantity else 0)
  }

  function Notional(es: seq<Execution>, id: OrderId): real {
    if es == [] then 0.0
    else
      var e := es[|es| - 1];
      Notional(es[..|es| - 1], id) + (if e.orderId == id then e.price * e.quantity as real else 0.0)
  }

  function Queued(q: seq<BrokerEvent>): seq<Execution> {
    if q == [] then []
    else (if q[0].Fill? then [q[0].execution] else []) + Queued(q[1..])
  }

  lemma {:induction false} QueuedAppend(p: seq<BrokerEvent>, q: seq<BrokerEvent>)
    ensures Queued(p + q) == Queued(p) + Queued(q)
  {
    if p == [] {
      assert p + q == q;
    } else {
      var head := if p[0].Fill? then [p[0].execution] else [];
      assert (p + q)[1..] == p[1..] + q;
      QueuedAppend(p[1..], q);
      assert head + (Queued(p[1..]) + Queued(q)) == (head + Queued(p[1..])) + Queued(q);
    }
  }

  lemma {:induction false} QueuedReports(es: seq<Execution>)
    ensures Queued(Reports(es)) == es
  {
    if es != [] {
      assert Reports(es)[1..] == Reports(es[1..]);
      QueuedReports(es[1..]);
    }
  }

  lemma {:induction false} FilledQtyAppend(es: seq<Execution>, fs: seq<Execution>, id: OrderId)
    ensures FilledQty(es + fs, id) == FilledQty(es, id) + FilledQty(fs, id)
  {
    if fs == [] {
      assert es + fs == es;
    } else {
      assert (es + fs)[..|es + fs| - 1] == es + fs[..|fs| - 1];
      FilledQtyAppend(es, fs[..|fs| - 1], id);
    }
  }

  lemma {:induction false} FilledQtyNonNegative(es: seq<Execution>, id: OrderId)
    requires Positive(es)
    ensures FilledQty(es, id) >= 0
    ensures FilledQty(es, id) == 0 ==> forall i :: 0 <= i < |es| ==> es[i].orderId != id
  {
    if es != [] {
      FilledQtyNonNegative(es[..|es| - 1], id);
    }
  }

  // ---- The invariant ----

  /** Each report carries the running totals of its order at that point. */
  ghost predicate ReportsAddUp(fills: seq<Execution>, orders: OrderBook) {
    forall i :: 0 <= i < |fills| ==> ReportAddsUp(fills, orders, i)
  }

  ghost predicate ReportAddsUp(fills: seq<Execution>, orders: OrderBook, i: nat)
    requires i < |fills|
  {
    var e := fills[i];
    && 0 < e.quantity
    && e.orderId in orders
    && e.cumulative == FilledQty(fills[..i + 1], e.orderId)
    && e.remaining == orders[e.orderId].quantity - e.cumulative
    && 0 <= e.remaining
  }

  /** What is still working is exactly what has not been filled. */
  ghost predicate Works(p: Pending, s: Symbol, fills: seq<Execution>, orders: OrderBook) {
    && p.request.orderId in orders
    && orders[p.request.orderId].symbol == s == p.request.symbol
    && orders[p.request.orderId].side == p.request.side
    && orders[p.request.orderId].quantity == p.request.quantity
    && p.remaining + FilledQty(fills, p.request.orderId) == p.request.quantity
    && 0 <= p.remaining
  }

  predicate DistinctIds(ps: seq<Pending>) {
    forall i, j :: 0 <= i < j < |ps| ==> ps[i].request.orderId != ps[j].request.orderId
  }

  ghost predicate WorkingOrders(d: Desk, orders: OrderBook) {
    forall s :: s in d.pending ==>
      DistinctIds(d.pending[s]) && forall p :: p in d.pending[s] ==> Works(p, s, d.fills, orders)
  }

  /** The manager's totals are those of the executions it has seen. */
  ghost predicate Totalled(o: ManagedOrder, id: OrderId, seen: seq<Execution>) {
    && o.filledQuantity == FilledQty(seen, id)
    && o.remainingQuantity == o.quantity - o.filledQuantity
    && o.avgFillPrice * o.filledQuantity as real == Notional(seen, id)
  }

  /** An acknowledgement still queued precedes every execution of its order. */
  ghost predicate AckFirst(y: System, id: OrderId) {
    forall j :: 0 <= j < |y.desk.queue| && y.desk.queue[j] == Ack(id) ==>
      && FilledQty(y.seen, id) == 0
      && forall i :: 0 <= i < j ==> IdOf(y.desk.queue[i]) != id
  }

  ghost predicate StatusFollows(y: System, id: OrderId)
    requires id in y.orders
  {
    var o := y.orders[id];
    && (o.status == Filled ==> o.remainingQuantity == 0 && o.filledQuantity > 0)
    && (o.status != CancelPending && Ack(id) !in y.desk.queue ==> o.status == Settled(o))
  }

  /** The status an acknowledged order earns by its own totals. */
  function Settled(o: ManagedOrder): Status {
    if o.filledQuantity == 0 then Acknowledged
    else if o.remainingQuantity == 0 then Filled
    else PartiallyFilled
  }

  ghost predicate Inv(y: System) {
    && SoundDesk(y.desk)
    && y.desk.fills == y.seen + Queued(y.desk.queue)
    && (forall id :: id in y.orders ==> id < y.nextId)
    && (forall i :: 0 <= i < |y.desk.queue| ==> IdOf(y.desk.queue[i]) in y.orders && !y.desk.queue[i].Reject?)
    && ReportsAddUp(y.desk.fills, y.orders)
    && WorkingOrders(y.desk, y.orders)
    && (forall id :: id in y.orders ==> Totalled(y.orders[id], id, y.seen))
    && (forall id :: id in y.orders ==> AckFirst(y, id) && StatusFollows(y, id))
  }

  lemma InvIsSound(y: System)
    requires Inv(y)
    ensures SoundDesk(y.desk)
  {
  }

  // ---- Every move keeps the invariant ----

  lemma NoFillsYet(fills: seq<Execution>, orders: OrderBook, id: OrderId)
    requires ReportsAddUp(fills, orders)
    requires id !in orders
    ensures FilledQty(fills, id) == 0
  {
    forall i | 0 <= i < |fills| ensures fills[i].orderId != id {
      assert ReportAddsUp(fills, orders, i);
    }
    NoneFilled(fills, id);
  }

  lemma {:induction false} NoneFilled(es: seq<Execution>, id: OrderId)
    requires forall i :: 0 <= i < |es| ==> es[i].orderId != id
    ensures FilledQty(es, id) == 0 && Notional(es, id) == 0.0
  {
    if es != [] {
      NoneFilled(es[..|es| - 1], id);
    }
  }

  lemma SubmitKeeps(y: System, sig: Signal)
    requires Inv(y)
    ensures Inv(SubmitTo(y, sig))
  {
    var r := SubmitTo(y, sig);
    QueuedAppend(y.desk.queue, [Ack(y.nextId)]);
    NoneSeen(y, y.nextId);
    forall i | 0 <= i < |r.desk.fills| ensures ReportAddsUp(r.desk.fills, r.orders, i) {
      assert ReportAddsUp(y.desk.fills, y.orders, i);
    }
    SubmitKeepsWorking(y, sig);
    forall id | id in r.orders ensures AckFirst(r, id) && StatusFollows(r, id) {
      SubmitKeepsStatus(y, sig, id);
    }
  }

  lemma WorkingIn(y: System, s: Symbol)
    requires Inv(y)
    ensures DistinctIds(PendingOf(y.desk, s))
    ensures forall p :: p in PendingOf(y.desk, s) ==>
      Works(p, s, y.desk.fills, y.orders) && p.request.orderId < y.nextId
  {
    hide FilledQty, Queued, AckFirst, StatusFollows, Totalled, ReportsAddUp;
  }

  lemma FreshIsUnfilled(y: System)
    requires Inv(y)
    ensures SoundDesk(y.desk) && FilledQty(y.desk.fills, y.nextId) == 0
  {
    NoFillsYet(y.desk.fills, y.orders, y.nextId);
    hide FilledQty, Queued, AckFirst, StatusFollows, Totalled, ReportsAddUp;
  }

  lemma SubmitKeepsWorking(y: System, sig: Signal)
    requires Inv(y)
    ensures WorkingOrders(SubmitTo(y, sig).desk, SubmitTo(y, sig).orders)
  {
    hide Inv, Works, FilledQty, DistinctIds, SoundDesk, PendingOf, SubmitTo;
    InvIsSound(y);
    var r := SubmitTo(y, sig);
    forall s | s in r.desk.pending
      ensures DistinctIds(r.desk.pending[s])
      ensures forall p :: p in r.desk.pending[s] ==> Works(p, s, r.desk.fills, r.orders)
    {
      SubmitKeepsSymbol(y, sig, s);
    }
  }

  lemma SubmitKeepsSymbol(y: System, sig: Signal, s: Symbol)
    requires Inv(y)
    ensures
      var r := SubmitTo(y, sig);
      s in r.desk.pending ==>
        && DistinctIds(r.desk.pending[s])
        && forall p :: p in r.desk.pending[s] ==> Works(p, s, r.desk.fills, r.orders)
  {
    hide Inv, FilledQty, DistinctIds, SoundDesk;
    FreshIsUnfilled(y);
    WorkingIn(y, s);
    var r := SubmitTo(y, sig);
    if s in r.desk.pending {
      StaysDistinct(PendingOf(y.desk, s), r.desk.pending[s], y.nextId);
    }
  }

  /** One more order with a fresh id repeats none. */
  lemma StaysDistinct(ps: seq<Pending>, longer: seq<Pending>, id: OrderId)
    requires DistinctIds(ps) && forall p :: p in ps ==> p.request.orderId < id
    requires longer == ps || (|longer| == |ps| + 1 && longer[..|ps|] == ps && longer[|ps|].request.orderId == id)
    ensures DistinctIds(longer)
  {
    assert forall i :: 0 <= i < |ps| ==> longer[i] == ps[i] && ps[i] in ps;
  }

  lemma SubmitKeepsStatus(y: System, sig: Signal, id: OrderId)
    requires Inv(y) && id in SubmitTo(y, sig).orders
    ensures AckFirst(SubmitTo(y, sig), id) && StatusFollows(SubmitTo(y, sig), id)
  {
    var r := SubmitTo(y, sig);
    NoneSeen(y, y.nextId);
    var n := |y.desk.queue|;
    assert r.desk.queue[n] == Ack(y.nextId) && r.desk.queue[..n] == y.desk.queue;
    if id != y.nextId {
      assert AckFirst(y, id) && StatusFollows(y, id);
      assert Ack(id) in y.desk.queue <==> Ack(id) in r.desk.queue;
    }
  }

  lemma SeenIsNonNegative(y: System)
    requires Inv(y)
    ensures Positive(y.seen) && Positive(Queued(y.desk.queue)) && Positive(y.desk.fills)
  {
    hide FilledQty, Queued, WorkingOrders, Totalled, AckFirst, StatusFollows;
    forall i | 0 <= i < |y.desk.fills| ensures 0 < y.desk.fills[i].quantity {
      assert ReportAddsUp(y.desk.fills, y.orders, i);
    }
    PositiveParts(y.seen, Queued(y.desk.queue));
  }

  lemma NoneSeen(y: System, id: OrderId)
    requires Inv(y) && id !in y.orders
    ensures FilledQty(y.seen, id) == 0 && Notional(y.seen, id) == 0.0
  {
    forall i | 0 <= i < |y.seen| ensures y.seen[i].orderId != id {
      assert ReportAddsUp(y.desk.fills, y.orders, i);
      assert y.seen[i] == y.desk.fills[i];
    }
    NoneFilled(y.seen, id);
  }

  lemma DeliverKeeps(y: System)
    requires Inv(y)
    ensures Inv(DeliverOne(y))
  {
    if y.desk.queue != [] {
      var r := DeliverOne(y);
      DeliverKeepsQueue(y);
      DeliverKeepsReports(y);
      forall id | id in r.orders ensures Totalled(r.orders[id], id, r.seen) {
        DeliverKeepsTotals(y, id);
      }
      forall id | id in r.orders ensures AckFirst(r, id) && StatusFollows(r, id) {
        DeliverKeepsStatus(y, id);
      }
      hide WorkingOrders, ReportsAddUp, Totalled, AckFirst, StatusFollows, Queued;
    }
  }

  lemma DeliverKeepsQueue(y: System)
    requires Inv(y) && y.desk.queue != []
    ensures
      var r := DeliverOne(y);
      && r.desk.fills == r.seen + Queued(r.desk.queue)
      && forall i :: 0 <= i < |r.desk.queue| ==> IdOf(r.desk.queue[i]) in r.orders && !r.desk.queue[i].Reject?
  {
    hide Inv, Queued, AfterExecution;
    QueueFollows(y);
    var rest := y.desk.queue[1..];
    assert forall i :: 0 <= i < |rest| ==> rest[i] == y.desk.queue[i + 1];
    QueuedFirst(y.desk.queue);
    var head := if y.desk.queue[0].Fill? then [y.desk.queue[0].execution] else [];
    assert y.seen + (head + Queued(rest)) == (y.seen + head) + Queued(rest);
    assert y.seen + [] == y.seen;
  }

  lemma QueueFollows(y: System)
    requires Inv(y)
    ensures SoundDesk(y.desk) && y.desk.fills == y.seen + Queued(y.desk.queue)
    ensures forall i :: 0 <= i < |y.desk.queue| ==> IdOf(y.desk.queue[i]) in y.orders && !y.desk.queue[i].Reject?
  {
  }

  lemma QueuedFirst(q: seq<BrokerEvent>)
    requires q != []
    ensures Queued(q) == (if q[0].Fill? then [q[0].execution] else []) + Queued(q[1..])
  {
  }

  lemma DeliverKeepsReports(y: System)
    requires Inv(y) && y.desk.queue != []
    ensures
      var r := DeliverOne(y);
      ReportsAddUp(r.desk.fills, r.orders) && WorkingOrders(r.desk, r.orders)
  {
    var r := DeliverOne(y);
    hide Totalled, AckFirst, StatusFollows, Queued, FilledQty;
    forall i | 0 <= i < |r.desk.fills| ensures ReportAddsUp(r.desk.fills, r.orders, i) {
      assert ReportAddsUp(y.desk.fills, y.orders, i);
    }
    forall s, p | s in r.desk.pending && p in r.desk.pending[s] ensures Works(p, s, r.desk.fills, r.orders) {
      assert Works(p, s, y.desk.fills, y.orders);
    }
  }

  lemma DeliverKeepsTotals(y: System, id: OrderId)
    requires Inv(y) && y.desk.queue != [] && id in y.orders
    ensures id in DeliverOne(y).orders && Totalled(DeliverOne(y).orders[id], id, DeliverOne(y).seen)
  {
    hide Inv, FilledQty, Notional, AfterExecution, SoundDesk;
    KnownTotals(y, id);
    var ev := y.desk.queue[0];
    if ev.Fill? {
      SeenAdds(y, ev.execution);
      OthersUnmoved(y.seen, ev.execution, id);
    }
  }

  lemma KnownTotals(y: System, id: OrderId)
    requires Inv(y) && id in y.orders
    ensures SoundDesk(y.desk) && Totalled(y.orders[id], id, y.seen)
  {
    hide Totalled, SoundDesk, WorkingOrders, ReportsAddUp, AckFirst, StatusFollows, Queued;
  }

  /** One more execution leaves the totals of every other order alone. */
  lemma OthersUnmoved(seen: seq<Execution>, e: Execution, id: OrderId)
    ensures id != e.orderId ==>
      FilledQty(seen + [e], id) == FilledQty(seen, id) && Notional(seen + [e], id) == Notional(seen, id)
  {
    assert (seen + [e])[..|seen|] == seen;
  }

  /** A report that adds up brings its order's totals up to date. */
  lemma ReportTotals(o: ManagedOrder, seen: seq<Execution>, e: Execution)
    requires Totalled(o, e.orderId, seen) && e.cumulative == FilledQty(seen + [e], e.orderId)
    requires e.remaining == o.quantity - e.cumulative && 0 < e.cumulative
    ensures Totalled(AfterExecution(o, e), e.orderId, seen + [e])
  {
    assert (seen + [e])[..|seen|] == seen;
    var notional := o.avgFillPrice * o.filledQuantity as real + e.price * e.quantity as real;
    assert notional / e.cumulative as real * e.cumulative as real == notional;
  }

  /** The next queued execution extends its order's totals. */
  lemma SeenAdds(y: System, e: Execution)
    requires Inv(y) && y.desk.queue != [] && y.desk.queue[0] == Fill(e)
    ensures e.orderId in y.orders
    ensures Totalled(AfterExecution(y.orders[e.orderId], e), e.orderId, y.seen + [e])
    ensures 0 < e.cumulative
  {
    var n := |y.seen|;
    assert y.desk.fills[n] == e;
    assert ReportAddsUp(y.desk.fills, y.orders, n);
    assert y.desk.fills[..n + 1] == y.seen + [e];
    assert Totalled(y.orders[e.orderId], e.orderId, y.seen);
    SeenIsNonNegative(y);
    FilledQtyNonNegative(y.seen, e.orderId);
    FilledQtyAppend(y.seen, [e], e.orderId);
    assert [e][..0] == [] && FilledQty([e], e.orderId) == e.quantity;
    hide Inv, Totalled, ReportAddsUp, FilledQty, AfterExecution;
    ReportTotals(y.orders[e.orderId], y.seen, e);
  }

  lemma DeliverKeepsStatus(y: System, id: OrderId)
    requires Inv(y) && y.desk.queue != [] && id in y.orders
    ensures id in DeliverOne(y).orders && AckFirst(DeliverOne(y), id) && StatusFollows(DeliverOne(y), id)
  {
    var r := DeliverOne(y);
    var ev, rest := y.desk.queue[0], y.desk.queue[1..];
    assert AckFirst(y, id) && StatusFollows(y, id) && Totalled(y.orders[id], id, y.seen);
    assert forall j :: 0 <= j < |rest| ==> rest[j] == y.desk.queue[j + 1];
    if ev.Fill? {
      SeenAdds(y, ev.execution);
      OthersUnmoved(y.seen, ev.execution, id);
    }
    assert AckFirst(r, id);
    if IdOf(ev) == id {
      assert Ack(id) !in rest;
      if ev.Fill? {
        assert y.desk.queue[0] != Ack(id);
      }
    } else {
      assert Ack(id) in rest <==> Ack(id) in y.desk.queue;
    }
  }

  // ---- One bar ----

  /** The last order of the list adds its own fill to the totals. */
  lemma FilledByLast(ps: seq<Pending>, id: OrderId, bar: Bar, quotes: Quotes, terms: Terms)
    requires Unfilled(ps) && ps != []
    ensures
      var p := ps[|ps| - 1];
      FilledQty(Executions(ps, bar, quotes, terms), id)
      == FilledQty(Executions(ps[..|ps| - 1], bar, quotes, terms), id)
         + (if p.request.orderId == id then FillQuantity(p, bar, terms) else 0)
  {
    var p := ps[|ps| - 1];
    var init := Executions(ps[..|ps| - 1], bar, quotes, terms);
    var n := FillQuantity(p, bar, terms);
    if n > 0 {
      var e := ExecutionOf(p, n, quotes(p.request.orderId), bar, terms);
      assert (init + [e])[..|init|] == init;
    } else {
      assert init + [] == init;
    }
  }

  lemma {:induction false} ExecutionsPerOrder(ps: seq<Pending>, k: nat, bar: Bar, quotes: Quotes, terms: Terms)
    requires Unfilled(ps) && DistinctIds(ps) && k < |ps|
    ensures FilledQty(Executions(ps, bar, quotes, terms), ps[k].request.orderId) == FillQuantity(ps[k], bar, terms)
  {
    hide Executions, FillQuantity, FilledQty;
    var last := |ps| - 1;
    FilledByLast(ps, ps[k].request.orderId, bar, quotes, terms);
    if k < last {
      ExecutionsPerOrder(ps[..last], k, bar, quotes, terms);
    } else {
      OtherOrdersUntouched(ps[..last], ps[last].request.orderId, bar, quotes, terms);
    }
  }

  lemma {:induction false} OtherOrdersUntouched(ps: seq<Pending>, id: OrderId, bar: Bar, quotes: Quotes, terms: Terms)
    requires Unfilled(ps)
    requires forall i :: 0 <= i < |ps| ==> ps[i].request.orderId != id
    ensures FilledQty(Executions(ps, bar, quotes, terms), id) == 0
  {
    if ps == [] {
      assert Executions(ps, bar, quotes, terms) == [];
    } else {
      var init := ps[..|ps| - 1];
      assert Unfilled(init) && forall i :: 0 <= i < |init| ==> init[i] == ps[i];
      OtherOrdersUntouched(init, id, bar, quotes, terms);
      FilledByLast(ps, id, bar, quotes, terms);
      hide FilledQty, Executions, FillQuantity, Unfilled;
    }
  }

  lemma {:induction false} ReportsStayTrue(fills: seq<Execution>, ps: seq<Pending>, s: Symbol, orders: OrderBook,
                                           bar: Bar, quotes: Quotes, terms: Terms)
    requires ReportsAddUp(fills, orders)
    requires Unfilled(ps) && DistinctIds(ps)
    requires forall p :: p in ps ==> Works(p, s, fills, orders)
    ensures ReportsAddUp(fills + Executions(ps, bar, quotes, terms), orders)
  {
    if ps == [] {
      assert fills + [] == fills;
    } else {
      var last := |ps| - 1;
      var p := ps[last];
      var init := Executions(ps[..last], bar, quotes, terms);
      ReportsStayTrue(fills, ps[..last], s, orders, bar, quotes, terms);
      var n := FillQuantity(p, bar, terms);
      if n > 0 {
        var e := ExecutionOf(p, n, quotes(p.request.orderId), bar, terms);
        assert Works(p, s, fills, orders);
        OtherOrdersUntouched(ps[..last], p.request.orderId, bar, quotes, terms);
        FilledQtyAppend(fills, init, p.request.orderId);
        ReportsExtend(fills + init, orders, e);
        assert fills + (init + [e]) == (fills + init) + [e];
      } else {
        assert init + [] == init;
      }
    }
  }

  lemma ReportsExtend(fills: seq<Execution>, orders: OrderBook, e: Execution)
    requires ReportsAddUp(fills, orders)
    requires e.orderId in orders && 0 < e.quantity && 0 <= e.remaining
    requires e.cumulative == FilledQty(fills, e.orderId) + e.quantity
    requires e.remaining == orders[e.orderId].quantity - e.cumulative
    ensures ReportsAddUp(fills + [e], orders)
  {
    var all := fills + [e];
    forall i | 0 <= i < |all| ensures ReportAddsUp(all, orders, i) {
      if i < |fills| {
        assert ReportAddsUp(fills, orders, i);
        assert all[..i + 1] == fills[..i + 1];
      } else {
        assert all[..i + 1] == all && all[..|all| - 1] == fills;
      }
    }
  }

  /** Survivors are aged orders of the list, in order and without repetition. */
  lemma {:induction false} SurvivorsComeFrom(ps: seq<Pending>, bar: Bar, terms: Terms)
    requires Unfilled(ps)
    ensures forall r :: r in Survivors(ps, bar, terms) <==>
      exists k :: 0 <= k < |ps| && Survives(ps[k], bar, terms) && r == Aged(ps[k], bar, terms)
    ensures DistinctIds(ps) ==> DistinctIds(Survivors(ps, bar, terms))
  {
    if ps != [] {
      var last := |ps| - 1;
      SurvivorsComeFrom(ps[..last], bar, terms);
      var init := Survivors(ps[..last], bar, terms);
      assert forall i :: 0 <= i < |init| ==> init[i] in init;
    }
  }

  lemma BarKeepsWorking(y: System, bar: Bar, quotes: Quotes, terms: Terms)
    requires Inv(y)
    ensures WorkingOrders(BarProcessed(y.desk, bar, quotes, terms), y.orders)
  {
    var d := BarProcessed(y.desk, bar, quotes, terms);
    var ps := PendingOf(y.desk, bar.symbol);
    var es := Executions(ps, bar, quotes, terms);
    SurvivorsComeFrom(ps, bar, terms);
    forall s, r | s in d.pending && r in d.pending[s] ensures Works(r, s, d.fills, y.orders) {
      FilledQtyAppend(y.desk.fills, es, r.request.orderId);
      if s == bar.symbol {
        var k :| 0 <= k < |ps| && Survives(ps[k], bar, terms) && r == Aged(ps[k], bar, terms);
        assert ps[k] in ps && Works(ps[k], s, y.desk.fills, y.orders);
        ExecutionsPerOrder(ps, k, bar, quotes, terms);
      } else {
        assert Works(r, s, y.desk.fills, y.orders);
        forall i | 0 <= i < |ps| ensures ps[i].request.orderId != r.request.orderId {
          assert ps[i] in ps && Works(ps[i], bar.symbol, y.desk.fills, y.orders);
        }
        OtherOrdersUntouched(ps, r.request.orderId, bar, quotes, terms);
      }
    }
  }

  lemma BarKeepsReports(y: System, bar: Bar, quotes: Quotes, terms: Terms)
    requires Inv(y)
    ensures
      var d := BarProcessed(y.desk, bar, quotes, terms);
      && d.fills == y.seen + Queued(d.queue)
      && ReportsAddUp(d.fills, y.orders)
      && forall i :: 0 <= i < |d.queue| ==> IdOf(d.queue[i]) in y.orders && !d.queue[i].Reject?
  {
    var ps := PendingOf(y.desk, bar.symbol);
    var es := Executions(ps, bar, quotes, terms);
    ReportsStayTrue(y.desk.fills, ps, bar.symbol, y.orders, bar, quotes, terms);
    QueueGrows(y, es);
  }

  lemma QueueGrows(y: System, es: seq<Execution>)
    requires Inv(y) && ReportsAddUp(y.desk.fills + es, y.orders)
    ensures
      var q := y.desk.queue + Reports(es);
      && y.desk.fills + es == y.seen + Queued(q)
      && forall i :: 0 <= i < |q| ==> IdOf(q[i]) in y.orders && !q[i].Reject?
  {
    hide FilledQty, WorkingOrders, Totalled, AckFirst, StatusFollows, Queued;
    QueuedAppend(y.desk.queue, Reports(es));
    QueuedReports(es);
    var fills := y.desk.fills + es;
    forall i | 0 <= i < |es| ensures es[i].orderId in y.orders {
      assert fills[|y.desk.fills| + i] == es[i] && ReportAddsUp(fills, y.orders, |y.desk.fills| + i);
    }
  }

  lemma BarKeeps(y: System, bar: Bar, quotes: Quotes, terms: Terms)
    requires Inv(y)
    ensures Inv(Step(y, NextBar(bar, quotes), terms))
  {
    var r := Step(y, NextBar(bar, quotes), terms);
    BarKeepsReports(y, bar, quotes, terms);
    BarKeepsWorking(y, bar, quotes, terms);
    BarKeepsStatus(y, r, Executions(PendingOf(y.desk, bar.symbol), bar, quotes, terms));
    hide ReportsAddUp, WorkingOrders, AckFirst, StatusFollows, Queued, Executions, Survivors, Replay, Totalled;
  }

  lemma BarKeepsStatus(y: System, r: System, es: seq<Execution>)
    requires Inv(y)
    requires r.orders == y.orders && r.seen == y.seen && r.desk.queue == y.desk.queue + Reports(es)
    ensures forall id :: id in r.orders ==> AckFirst(r, id) && StatusFollows(r, id)
  {
    forall id | id in r.orders ensures AckFirst(r, id) && StatusFollows(r, id) {
      assert AckFirst(y, id) && StatusFollows(y, id);
      assert Ack(id) in y.desk.queue <==> Ack(id) in r.desk.queue;
    }
  }

  // ---- Cancellation ----

  lemma {:induction false} WithoutHas(ps: seq<Pending>, id: OrderId)
    requires Unfilled(ps)
    ensures forall p :: p in Without(ps, id) <==> p in ps && p.request.orderId != id
  {
    if ps != [] {
      WithoutHas(ps[..|ps| - 1], id);
      assert ps == ps[..|ps| - 1] + [ps[|ps| - 1]];
      hide Unfilled;
    }
  }

  lemma {:induction false} WithoutComesFrom(ps: seq<Pending>, id: OrderId)
    requires Unfilled(ps)
    ensures forall p :: p in Without(ps, id) <==> p in ps && p.request.orderId != id
    ensures DistinctIds(ps) ==> DistinctIds(Without(ps, id))
  {
    WithoutHas(ps, id);
    if ps != [] && DistinctIds(ps) {
      var init, last := ps[..|ps| - 1], ps[|ps| - 1];
      assert Unfilled(init) && DistinctIds(init);
      WithoutComesFrom(init, id);
      var rest := Without(init, id);
      forall i | 0 <= i < |rest| ensures rest[i].request.orderId != last.request.orderId {
        assert rest[i] in rest && rest[i] in init;
      }
    }
  }

  lemma {:induction false} WithoutSplits(ps: seq<Pending>, qs: seq<Pending>, id: OrderId)
    requires Unfilled(ps) && Unfilled(qs)
    ensures Unfilled(ps + qs) && Without(ps + qs, id) == Without(ps, id) + Without(qs, id)
  {
    if qs == [] {
      assert ps + qs == ps;
    } else {
      WithoutSplits(ps, qs[..|qs| - 1], id);
      assert (ps + qs)[..|ps + qs| - 1] == ps + qs[..|qs| - 1];
    }
  }

  /** Whatever stays keeps its place between what was before it and what was after it. */
  lemma WithoutKeepsOrder(ps: seq<Pending>, p: Pending, qs: seq<Pending>, id: OrderId)
    requires Unfilled(ps) && Unfilled([p]) && Unfilled(qs)
    ensures Unfilled(ps + [p] + qs)
    ensures Without(ps + [p] + qs, id)
         == Without(ps, id) + (if p.request.orderId == id then [] else [p]) + Without(qs, id)
  {
    assert [p][..0] == [];
    WithoutSplits(ps, [p], id);
    WithoutSplits(ps + [p], qs, id);
  }

  lemma CancelKeepsWorking(y: System, id: OrderId, terms: Terms)
    requires Inv(y) && id in y.orders
    ensures WorkingOrders(Step(y, Cancel(id), terms).desk, Step(y, Cancel(id), terms).orders)
  {
    var r := Step(y, Cancel(id), terms);
    hide FilledQty, Queued, AckFirst, StatusFollows, Totalled, ReportsAddUp;
    forall s | s in r.desk.pending
      ensures DistinctIds(r.desk.pending[s])
      ensures forall p :: p in r.desk.pending[s] ==> Works(p, s, r.desk.fills, r.orders)
    {
      WithoutComesFrom(y.desk.pending[s], id);
      assert forall p :: p in y.desk.pending[s] ==> Works(p, s, y.desk.fills, y.orders);
    }
  }

  lemma CancelKeeps(y: System, id: OrderId, terms: Terms)
    requires Inv(y)
    ensures Inv(Step(y, Cancel(id), terms))
  {
    var r := Step(y, Cancel(id), terms);
    if id in y.orders {
      CancelKeepsWorking(y, id, terms);
      hide FilledQty, Notional, Queued, WorkingOrders;
      forall i | 0 <= i < |r.desk.fills| ensures ReportAddsUp(r.desk.fills, r.orders, i) {
        assert ReportAddsUp(y.desk.fills, y.orders, i);
      }
      forall o | o in r.orders ensures Totalled(r.orders[o], o, r.seen) && AckFirst(r, o) && StatusFollows(r, o) {
        assert Totalled(y.orders[o], o, y.seen) && AckFirst(y, o) && StatusFollows(y, o);
      }
    }
  }

  lemma CancelAllKeeps(y: System, terms: Terms)
    requires Inv(y)
    ensures Inv(Step(y, CancelAll, terms))
  {
    forall id | id in y.orders
      ensures AckFirst(Step(y, CancelAll, terms), id) && StatusFollows(Step(y, CancelAll, terms), id)
    {
      assert AckFirst(y, id) && StatusFollows(y, id);
    }
  }

  // ---- Main results ----

  lemma StepKeeps(y: System, m: Move, terms: Terms)
    requires Inv(y)
    ensures Inv(Step(y, m, terms))
  {
    match m
    case Submit(sig) => SubmitKeeps(y, sig);
    case Deliver => DeliverKeeps(y);
    case NextBar(bar, quotes) => BarKeeps(y, bar, quotes, terms);
    case Cancel(id) => CancelKeeps(y, id, terms);
    case CancelAll => CancelAllKeeps(y, terms);
  }

  lemma {:induction false} RunKeeps(y: System, ms: seq<Move>, terms: Terms)
    requires Inv(y)
    ensures Inv(Run(y, ms, terms))
  {
    if ms != [] {
      RunKeeps(y, ms[..|ms| - 1], terms);
      StepKeeps(Run(y, ms[..|ms| - 1], terms), ms[|ms| - 1], terms);
    }
  }

  /**
   In every reachable state the manager's figures plus what is still queued are
   the broker's figures, and what is still working is what is not yet filled.
   */
  lemma ManagerLagsByTheQueue(equity: real, ms: seq<Move>, terms: Terms, id: OrderId)
    requires id in Run(Started(equity), ms, terms).orders
    ensures
      var y := Run(Started(equity), ms, terms);
      var o := y.orders[id];
      && o.filledQuantity + FilledQty(Queued(y.desk.queue), id) == FilledQty(y.desk.fills, id)
      && o.avgFillPrice * o.filledQuantity as real == Notional(y.seen, id)
      && o.filledQuantity + o.remainingQuantity == o.quantity
      && 0 <= o.filledQuantity <= FilledQty(y.desk.fills, id) <= o.quantity
      && forall s, p :: s in y.desk.pending && p in y.desk.pending[s] && p.request.orderId == id ==>
           p.remaining == o.quantity - FilledQty(y.desk.fills, id)
  {
    var y := Run(Started(equity), ms, terms);
    RunKeeps(Started(equity), ms, terms);
    FilledQtyAppend(y.seen, Queued(y.desk.queue), id);
    SeenIsNonNegative(y);
    FilledQtyNonNegative(y.seen, id);
    FilledQtyNonNegative(Queued(y.desk.queue), id);
    assert Totalled(y.orders[id], id, y.seen);
    FilledWithinQuantity(y.desk.fills, y.orders, id);
    assert forall s, p :: s in y.desk.pending && p in y.desk.pending[s] ==> Works(p, s, y.desk.fills, y.orders);
  }

  lemma {:induction false} FilledWithinQuantity(fills: seq<Execution>, orders: OrderBook, id: OrderId)
    requires ReportsAddUp(fills, orders) && id in orders
    ensures FilledQty(fills, id) <= orders[id].quantity
  {
    if fills != [] {
      var last := |fills| - 1;
      assert ReportAddsUp(fills, orders, last);
      assert fills[..last + 1] == fills;
      if fills[last].orderId != id {
        forall i | 0 <= i < last ensures ReportAddsUp(fills[..last], orders, i) {
          assert ReportAddsUp(fills, orders, i);
          assert fills[..last][..i + 1] == fills[..i + 1];
        }
        FilledWithinQuantity(fills[..last], orders, id);
      }
    }
  }

  /** Once the queue is drained an order is FILLED exactly when nothing is left. */
  lemma DrainedStatus(equity: real, ms: seq<Move>, terms: Terms, id: OrderId)
    requires id in Run(Started(equity), ms, terms).orders
    requires Run(Started(equity), ms, terms).desk.queue == []
    ensures
      var y := Run(Started(equity), ms, terms);
      var o := y.orders[id];
      && o.filledQuantity == FilledQty(y.desk.fills, id)
      && (o.status != CancelPending ==> (o.status == Filled <==> o.remainingQuantity == 0 && 0 < o.quantity))
      && (o.status == CancelPending || o.status == Settled(o))
  {
    var y := Run(Started(equity), ms, terms);
    RunKeeps(Started(equity), ms, terms);
    assert y.desk.fills == y.seen;
    assert Totalled(y.orders[id], id, y.seen) && StatusFollows(y, id);
    SeenIsNonNegative(y);
    FilledQtyNonNegative(y.seen, id);
  }

  /** A queued execution always fits in what the manager still shows as open. */
  lemma NextFillHasRoom(y: System)
    requires Inv(y) && y.desk.queue != [] && y.desk.queue[0].Fill?
    ensures
      var e := y.desk.queue[0].execution;
      e.orderId in y.orders && 0 < e.quantity <= y.orders[e.orderId].remainingQuantity
  {
    var n := |y.seen|;
    assert y.desk.fills[n] == y.desk.queue[0].execution;
    assert ReportAddsUp(y.desk.fills, y.orders, n);
    assert y.desk.fills[..n + 1][..n] == y.seen;
    assert Totalled(y.orders[y.desk.fills[n].orderId], y.desk.fills[n].orderId, y.seen);
  }

  /** FILLED is left only when `cancel` is called on the filled order itself. */
  lemma FilledIsFinal(y: System, m: Move, terms: Terms, id: OrderId)
    requires Inv(y) && id in y.orders && y.orders[id].status == Filled
    ensures id in Step(y, m, terms).orders
    ensures Step(y, m, terms).orders[id].status == Filled <==> m != Cancel(id)
  {
    assert StatusFollows(y, id) && AckFirst(y, id) && Totalled(y.orders[id], id, y.seen);
    if m.Deliver? && y.desk.queue != [] {
      if y.desk.queue[0].Fill? {
        NextFillHasRoom(y);
      }
    }
  }

  /**
   A cancel that overtakes its order's acknowledgement is forgotten: the manager
   shows a working order the broker no longer has.
   */
  lemma CancelForgotten(y: System, sig: Signal, terms: Terms)
    requires Inv(y) && y.desk.queue == []
    ensures
      var id := y.nextId;
      var z := DeliverOne(Step(SubmitTo(y, sig), Cancel(id), terms));
      && id in z.orders && z.orders[id].status == Acknowledged
      && forall s, p :: s in z.desk.pending && p in z.desk.pending[s] ==> p.request.orderId != id
  {
    hide Inv, Without, AfterExecution, SoundBook;
    InvIsSound(y);
    var x := SubmitTo(y, sig);
    forall s | s in x.desk.pending
      ensures forall p :: p in Without(x.desk.pending[s], y.nextId) ==> p.request.orderId != y.nextId
    {
      WithoutComesFrom(x.desk.pending[s], y.nextId);
    }
  }

  // ---- Progress of one order ----

  ghost predicate IsWorking(y: System, s: Symbol, r: Request) {
    exists p :: p in PendingOf(y.desk, s) && p.request == r
  }

  /**
   What a bar does to an order working in its symbol: it fills exactly its fill
   quantity, and stays working exactly when a remainder may be carried over.
   */
  lemma BarResolvesOrder(y: System, p: Pending, bar: Bar, quotes: Quotes, terms: Terms)
    requires Inv(y) && p in PendingOf(y.desk, bar.symbol)
    ensures
      var r := Step(y, NextBar(bar, quotes), terms);
      && FilledQty(r.desk.fills, p.request.orderId)
         == FilledQty(y.desk.fills, p.request.orderId) + FillQuantity(p, bar, terms)
      && Takes(p, bar, terms, FilledQty(r.desk.fills, p.request.orderId) - FilledQty(y.desk.fills, p.request.orderId))
      && (IsWorking(r, bar.symbol, p.request) <==> Survives(p, bar, terms))
  {
    hide Inv, Step, Takes, FillQuantity, Survives, FilledQty, Executions, Survivors, DistinctIds, Works, PendingOf;
    InvIsSound(y);
    WorkingIn(y, bar.symbol);
    BarOutcome(y, bar, quotes, terms);
    var ps := PendingOf(y.desk, bar.symbol);
    var k :| 0 <= k < |ps| && ps[k] == p;
    ExecutionsPerOrder(ps, k, bar, quotes, terms);
    FilledQtyAppend(y.desk.fills, Executions(ps, bar, quotes, terms), p.request.orderId);
    SurvivesIffWorking(ps, k, bar, terms);
  }

  lemma BarOutcome(y: System, bar: Bar, quotes: Quotes, terms: Terms)
    requires SoundDesk(y.desk)
    ensures
      var r, ps := Step(y, NextBar(bar, quotes), terms), PendingOf(y.desk, bar.symbol);
      && Unfilled(ps)
      && r.desk.fills == y.desk.fills + Executions(ps, bar, quotes, terms)
      && PendingOf(r.desk, bar.symbol) == Survivors(ps, bar, terms)
  {
    hide Executions, Survivors, Replay;
  }

  lemma SurvivesIffWorking(ps: seq<Pending>, k: nat, bar: Bar, terms: Terms)
    requires Unfilled(ps) && DistinctIds(ps) && k < |ps|
    ensures (exists q :: q in Survivors(ps, bar, terms) && q.request == ps[k].request) <==> Survives(ps[k], bar, terms)
  {
    hide FillQuantity, Survives, Survivors;
    SurvivorsComeFrom(ps, bar, terms);
    var rs := Survivors(ps, bar, terms);
    if Survives(ps[k], bar, terms) {
      assert Aged(ps[k], bar, terms) in rs;
    }
    if q :| q in rs && q.request == ps[k].request {
      var j :| 0 <= j < |ps| && Survives(ps[j], bar, terms) && q == Aged(ps[j], bar, terms);
      assert j == k;
    }
  }

  /** Market, stop and on-close orders fill in full on the next bar; IOC and FOK never wait for another. */
  lemma NextBarSettles(y: System, p: Pending, bar: Bar, quotes: Quotes, terms: Terms)
    requires Inv(y) && p in PendingOf(y.desk, bar.symbol)
    ensures
      var r := Step(y, NextBar(bar, quotes), terms);
      && (FillsInFull(p.request.orderType) ==> FilledQty(r.desk.fills, p.request.orderId) == p.request.quantity)
      && (FillsInFull(p.request.orderType) || p.request.timeInForce.Ioc? || p.request.timeInForce.Fok? ==>
            !IsWorking(r, bar.symbol, p.request))
  {
    hide Inv, Step, Takes, FilledQty, DistinctIds, PendingOf;
    InvIsSound(y);
    WorkingIn(y, bar.symbol);
    BarResolvesOrder(y, p, bar, quotes, terms);
  }

  predicate TouchesOn(m: Move, r: Request) {
    m.NextBar? && m.bar.symbol == r.symbol && Touches(m.bar, r)
  }

  function TouchCount(ms: seq<Move>, r: Request): nat {
    if ms == [] then 0
    else TouchCount(ms[..|ms| - 1], r) + (if TouchesOn(ms[|ms| - 1], r) then 1 else 0)
  }

  /** A resting limit order: it is worked until filled, unless cancelled. */
  predicate Rests(r: Request) {
    !FillsInFull(r.orderType) && !r.timeInForce.Ioc? && !r.timeInForce.Fok?
  }

  ghost predicate Alive(y: System, r: Request) {
    && r.orderId in y.orders && y.orders[r.orderId].quantity == r.quantity
    && (IsWorking(y, r.symbol, r) || FilledQty(y.desk.fills, r.orderId) == r.quantity)
  }

  /** The order has filled completely, or at least this much. */
  ghost predicate HasFilled(y: System, r: Request, n: int) {
    var filled := FilledQty(y.desk.fills, r.orderId);
    filled >= r.quantity || filled >= n
  }

  lemma RestingBar(y: System, r: Request, bar: Bar, quotes: Quotes, terms: Terms)
    requires Inv(y) && Rests(r) && Alive(y, r)
    ensures
      var z := Step(y, NextBar(bar, quotes), terms);
      && Alive(z, r)
      && HasFilled(z, r, FilledQty(y.desk.fills, r.orderId)
                         + (if bar.symbol == r.symbol && Touches(bar, r) then 1 else 0))
  {
    var z := Step(y, NextBar(bar, quotes), terms);
    var ps := PendingOf(y.desk, bar.symbol);
    FilledQtyAppend(y.desk.fills, Executions(ps, bar, quotes, terms), r.orderId);
    FilledQtyNonNegative(Executions(ps, bar, quotes, terms), r.orderId);
    if IsWorking(y, r.symbol, r) {
      var p :| p in PendingOf(y.desk, r.symbol) && p.request == r;
      assert Works(p, r.symbol, y.desk.fills, y.orders);
      if bar.symbol == r.symbol {
        BarResolvesOrder(y, p, bar, quotes, terms);
      } else {
        assert p in PendingOf(z.desk, r.symbol);
      }
    } else {
      BarKeepsReports(y, bar, quotes, terms);
      FilledWithinQuantity(z.desk.fills, z.orders, r.orderId);
    }
  }

  lemma RestingStep(y: System, r: Request, m: Move, terms: Terms)
    requires Inv(y) && Rests(r) && Alive(y, r)
    requires m != Cancel(r.orderId) && m != CancelAll
    ensures Alive(Step(y, m, terms), r)
    ensures HasFilled(Step(y, m, terms), r, FilledQty(y.desk.fills, r.orderId) + (if TouchesOn(m, r) then 1 else 0))
  {
    var z := Step(y, m, terms);
    match m
    case NextBar(bar, quotes) =>
      RestingBar(y, r, bar, quotes, terms);
    case Cancel(id) =>
      if IsWorking(y, r.symbol, r) && id in y.orders {
        var p :| p in PendingOf(y.desk, r.symbol) && p.request == r;
        WithoutComesFrom(y.desk.pending[r.symbol], id);
        assert p in PendingOf(z.desk, r.symbol);
      }
    case Submit(sig) =>
      if IsWorking(y, r.symbol, r) {
        var p :| p in PendingOf(y.desk, r.symbol) && p.request == r;
        assert p in PendingOf(z.desk, r.symbol);
      }
    case Deliver =>
      if IsWorking(y, r.symbol, r) {
        var p :| p in PendingOf(y.desk, r.symbol) && p.request == r;
        assert p in PendingOf(z.desk, r.symbol);
      }
  }

  /** No move of the run cancels this order. */
  predicate LeftAlone(ms: seq<Move>, id: OrderId) {
    forall i :: 0 <= i < |ms| ==> !ms[i].CancelAll? && (ms[i].Cancel? ==> ms[i].id != id)
  }

  /**
   However long the run and whatever else happens in it, a resting order that is
   left alone has filled at least one unit for every bar that touched its limit.
   */
  lemma {:induction false} RestingOrdersProgress(y: System, r: Request, ms: seq<Move>, terms: Terms)
    requires SoundDesk(y.desk) && Inv(y) && Rests(r) && Alive(y, r)
    requires LeftAlone(ms, r.orderId)
    ensures Alive(Run(y, ms, terms), r)
    ensures HasFilled(Run(y, ms, terms), r, FilledQty(y.desk.fills, r.orderId) + TouchCount(ms, r))
  {
    if ms != [] {
      var init, m := ms[..|ms| - 1], ms[|ms| - 1];
      var x := Run(y, init, terms);
      RunKeeps(y, init, terms);
      RestingOrdersProgress(y, r, init, terms);
      RestingStep(x, r, m, terms);
      FillsAccumulate(x, Step(x, m, terms), r, FilledQty(y.desk.fills, r.orderId) + TouchCount(init, r),
                      if TouchesOn(m, r) then 1 else 0);
    }
  }

  lemma FillsAccumulate(x: System, z: System, r: Request, n: int, more: nat)
    requires HasFilled(x, r, n)
    requires HasFilled(z, r, FilledQty(x.desk.fills, r.orderId) + more)
    ensures HasFilled(z, r, n + more)
  {
  }
}
