/**
 How orders leave the broker, and what the manager shows of them afterwards: when
 a cancel sticks, which orders look open although nothing works them any more, and
 when fill-or-kill is all or nothing.
 */
module Departures {
  import opened Core
  import opened Simulator
  import opened Orders

  // ---- When a cancel sticks ----

  /** An event of this order is still on its way to the manager. */
  predicate Mentions(q: seq<BrokerEvent>, id: OrderId) {
    exists i :: 0 <= i < |q| && IdOf(q[i]) == id
  }

  lemma MentionsFirst(q: seq<BrokerEvent>, id: OrderId)
    requires q != []
    ensures Mentions(q, id) <==> IdOf(q[0]) == id || Mentions(q[1..], id)
  {
    if Mentions(q, id) && IdOf(q[0]) != id {
      var i :| 0 <= i < |q| && IdOf(q[i]) == id;
      assert q[1..][i - 1] == q[i];
    }
    if Mentions(q[1..], id) {
      var i :| 0 <= i < |q[1..]| && IdOf(q[1..][i]) == id;
      assert q[i + 1] == q[1..][i];
    }
  }

  /** Draining overwrites a pending cancel exactly if some event names its order. */
  lemma {:induction false} DrainingOverwrites(y: System, id: OrderId)
    requires SoundDesk(y.desk) && id in y.orders
    ensures id in Drained(y).orders
    ensures !Mentions(y.desk.queue, id) ==> Drained(y).orders[id] == y.orders[id]
    ensures Mentions(y.desk.queue, id) ==> Drained(y).orders[id].status != CancelPending
    decreases |y.desk.queue|
  {
    if y.desk.queue != [] {
      MentionsFirst(y.desk.queue, id);
      DrainingOverwrites(DeliverOne(y), id);
    }
  }

  /**
   A cancel still shows once the queue has drained if and only if no event of its order
   was queued when it was made.
   */
  lemma CancelSticksIff(y: System, id: OrderId, terms: Terms)
    requires SoundDesk(y.desk) && id in y.orders
    ensures
      var z := Drained(Step(y, Cancel(id), terms));
      id in z.orders && (z.orders[id].status == CancelPending <==> !Mentions(y.desk.queue, id))
  {
    hide Mentions, Drained;
    DrainingOverwrites(Step(y, Cancel(id), terms), id);
  }

  // ---- Orders at the broker ----

  predicate AtBroker(y: System, id: OrderId) {
    id in y.orders && exists p :: p in PendingOf(y.desk, y.orders[id].symbol) && p.request.orderId == id
  }

  predicate Immediate(r: Request) {
    r.timeInForce.Ioc? || r.timeInForce.Fok?
  }

  /** A pending order has something left, and all of it if it may not wait. */
  predicate Fresh(p: Pending) {
    && (0 < p.remaining || p.request.quantity == 0)
    && (Immediate(p.request) ==> p.remaining == p.request.quantity)
  }

  ghost predicate Tidy(y: System) {
    && Inv(y)
    && (forall s, p :: s in y.desk.pending && p in y.desk.pending[s] ==> Fresh(p))
    && (forall id :: id in y.orders && y.orders[id].status == CancelPending ==> !AtBroker(y, id))
  }

  /** The move takes this order from the broker's lists. */
  predicate Leaves(y: System, m: Move, id: OrderId, terms: Terms)
    requires SoundDesk(y.desk)
  {
    match m
    case Cancel(other) => other == id
    case CancelAll => true
    case NextBar(bar, _) =>
      exists p :: p in PendingOf(y.desk, bar.symbol) && p.request.orderId == id && !Survives(p, bar, terms)
    case _ => false
  }

  /** Orders leave by these moves only, and never come back. */
  lemma StepAtBroker(y: System, m: Move, id: OrderId, terms: Terms)
    requires Inv(y) && id in y.orders
    ensures AtBroker(Step(y, m, terms), id) <==> AtBroker(y, id) && !Leaves(y, m, id, terms)
  {
    var z, s := Step(y, m, terms), y.orders[id].symbol;
    match m
    case Submit(sig) =>
      hide Inv;
    case Deliver =>
    case NextBar(bar, quotes) =>
      BarAtBroker(y, bar, quotes, id, terms);
    case Cancel(other) =>
      if s in y.desk.pending {
        WithoutComesFrom(y.desk.pending[s], other);
      }
    case CancelAll =>
  }

  lemma BarAtBroker(y: System, bar: Bar, quotes: Quotes, id: OrderId, terms: Terms)
    requires Inv(y) && id in y.orders
    ensures AtBroker(Step(y, NextBar(bar, quotes), terms), id)
       <==> AtBroker(y, id) && !Leaves(y, NextBar(bar, quotes), id, terms)
  {
    var ps := PendingOf(y.desk, bar.symbol);
    var rs := Survivors(ps, bar, terms);
    SurvivorsComeFrom(ps, bar, terms);
    assert forall p :: p in ps ==> Works(p, bar.symbol, y.desk.fills, y.orders);
    hide Inv, Survives, Survivors, Works, FilledQty;
    SurvivesIff(ps, rs, id, bar, terms);
  }

  /** An order is among the survivors exactly if it was in the list and survives. */
  lemma SurvivesIff(ps: seq<Pending>, rs: seq<Pending>, id: OrderId, bar: Bar, terms: Terms)
    requires Unfilled(ps) && DistinctIds(ps)
    requires forall r :: r in rs <==>
      exists k :: 0 <= k < |ps| && Survives(ps[k], bar, terms) && r == Aged(ps[k], bar, terms)
    ensures (exists r :: r in rs && r.request.orderId == id)
       <==> (exists p :: p in ps && p.request.orderId == id)
            && !exists p :: p in ps && p.request.orderId == id && !Survives(p, bar, terms)
  {
    hide Survives, FillQuantity;
    if p :| p in ps && p.request.orderId == id && Survives(p, bar, terms) {
      var k :| 0 <= k < |ps| && ps[k] == p;
      assert Aged(ps[k], bar, terms) in rs;
      assert Aged(ps[k], bar, terms).request.orderId == id;
    }
  }

  // ---- What leaves unfinished ----

  ghost predicate Unfinished(y: System, id: OrderId)
    requires id in y.orders
  {
    FilledQty(y.desk.fills, id) < y.orders[id].quantity || y.orders[id].quantity == 0
  }

  /** Gone from the broker without having been filled. */
  ghost predicate Stranded(y: System, id: OrderId) {
    id in y.orders && !AtBroker(y, id) && Unfinished(y, id)
  }

  /** The bar lets an order go with a remainder it could not fill, or an empty order. */
  predicate LetsGo(p: Pending, bar: Bar, terms: Terms)
    requires 0 <= p.remaining
  {
    !Survives(p, bar, terms) && (FillQuantity(p, bar, terms) < p.remaining || p.request.quantity == 0)
  }

  /** The move drops an order still at the broker: a cancel, or a bar that lets it go. */
  predicate Drops(y: System, m: Move, id: OrderId, terms: Terms)
    requires SoundDesk(y.desk)
  {
    && AtBroker(y, id)
    && match m
       case Cancel(other) => other == id
       case CancelAll => true
       case NextBar(bar, _) =>
         exists p :: p in PendingOf(y.desk, bar.symbol) && p.request.orderId == id && LetsGo(p, bar, terms)
       case _ => false
  }

  /** Only orders that may not wait are let go with a remainder. */
  lemma OnlyImmediateAreLetGo(p: Pending, bar: Bar, terms: Terms)
    requires 0 <= p.remaining && 0 < p.request.quantity && LetsGo(p, bar, terms)
    ensures Immediate(p.request) && !FillsInFull(p.request.orderType)
  {
  }

  lemma BarKeepsFresh(y: System, bar: Bar, quotes: Quotes, terms: Terms)
    requires Tidy(y)
    ensures
      var d := Step(y, NextBar(bar, quotes), terms).desk;
      forall s, p :: s in d.pending && p in d.pending[s] ==> Fresh(p)
  {
    var ps := PendingOf(y.desk, bar.symbol);
    SurvivorsComeFrom(ps, bar, terms);
    hide Inv, AtBroker;
  }

  lemma StepKeepsFresh(y: System, m: Move, terms: Terms)
    requires Tidy(y)
    ensures
      var d := Step(y, m, terms).desk;
      forall s, p :: s in d.pending && p in d.pending[s] ==> Fresh(p)
  {
    match m
    case NextBar(bar, quotes) =>
      BarKeepsFresh(y, bar, quotes, terms);
    case Cancel(id) =>
      forall s | s in y.desk.pending ensures forall p :: p in Without(y.desk.pending[s], id) ==> Fresh(p) {
        WithoutComesFrom(y.desk.pending[s], id);
      }
    case _ =>
  }

  lemma StepKeepsTidy(y: System, m: Move, terms: Terms)
    requires Tidy(y)
    ensures Tidy(Step(y, m, terms))
  {
    hide Inv, AtBroker, Fresh, Step, SoundDesk, Leaves;
    InvIsSound(y);
    StepKeeps(y, m, terms);
    StepKeepsFresh(y, m, terms);
    var z := Step(y, m, terms);
    forall id | id in z.orders && z.orders[id].status == CancelPending ensures !AtBroker(z, id) {
      CancelledBefore(y, m, id, terms);
      StepAtBroker(y, m, id, terms);
    }
  }

  /** An order shown as cancel-pending was so before, or has just been cancelled. */
  lemma CancelledBefore(y: System, m: Move, id: OrderId, terms: Terms)
    requires SoundDesk(y.desk) && id in Step(y, m, terms).orders
    requires Step(y, m, terms).orders[id].status == CancelPending
    ensures id in y.orders && (y.orders[id].status == CancelPending || Leaves(y, m, id, terms))
  {
  }

  lemma {:induction false} RunKeepsTidy(y: System, ms: seq<Move>, terms: Terms)
    requires Tidy(y)
    ensures Tidy(Run(y, ms, terms))
  {
    assert SoundDesk(y.desk);
    hide Tidy;
    if ms != [] {
      RunKeepsTidy(y, ms[..|ms| - 1], terms);
      StepKeepsTidy(Run(y, ms[..|ms| - 1], terms), ms[|ms| - 1], terms);
    }
  }

  lemma StartIsTidy(equity: real)
    ensures Tidy(Started(equity))
  {
  }

  /** What every reachable state has. */
  lemma ReachableIsTidy(equity: real, ms: seq<Move>, terms: Terms)
    ensures Tidy(Run(Started(equity), ms, terms))
  {
    StartIsTidy(equity);
    RunKeepsTidy(Started(equity), ms, terms);
  }

  /** The order as it stands in its symbol's list. */
  lemma Found(y: System, id: OrderId) returns (p: Pending)
    requires Inv(y) && AtBroker(y, id)
    ensures p in PendingOf(y.desk, y.orders[id].symbol) && p.request.orderId == id
    ensures p.request.quantity == y.orders[id].quantity && p.request.symbol == y.orders[id].symbol
    ensures p.remaining == y.orders[id].quantity - FilledQty(y.desk.fills, id)
  {
    p :| p in PendingOf(y.desk, y.orders[id].symbol) && p.request.orderId == id;
    assert Works(p, y.orders[id].symbol, y.desk.fills, y.orders);
  }

  /** No bar fills an order that is not at the broker, and no other move fills anything. */
  lemma AbsentAreNotFilled(y: System, m: Move, id: OrderId, terms: Terms)
    requires Inv(y) && id in y.orders && (!AtBroker(y, id) || !m.NextBar? || m.bar.symbol != y.orders[id].symbol)
    ensures FilledQty(Step(y, m, terms).desk.fills, id) == FilledQty(y.desk.fills, id)
  {
    if m.NextBar? {
      var ps := PendingOf(y.desk, m.bar.symbol);
      assert forall p :: p in ps ==> Works(p, m.bar.symbol, y.desk.fills, y.orders);
      forall i | 0 <= i < |ps| ensures ps[i].request.orderId != id {
        assert ps[i] in ps;
      }
      OtherOrdersUntouched(ps, id, m.bar, m.quotes, terms);
      FilledQtyAppend(y.desk.fills, Executions(ps, m.bar, m.quotes, terms), id);
    }
  }

  /** The bar of an order at the broker: what it has filled, and whether it is let go. */
  lemma BarOfOrder(y: System, p: Pending, bar: Bar, quotes: Quotes, terms: Terms)
    requires Inv(y) && p in PendingOf(y.desk, bar.symbol)
    ensures
      var m, id := NextBar(bar, quotes), p.request.orderId;
      && AtBroker(y, id)
      && FilledQty(Step(y, m, terms).desk.fills, id) == FilledQty(y.desk.fills, id) + FillQuantity(p, bar, terms)
      && Takes(p, bar, terms, FilledQty(Step(y, m, terms).desk.fills, id) - FilledQty(y.desk.fills, id))
      && (Leaves(y, m, id, terms) <==> !Survives(p, bar, terms))
      && (Drops(y, m, id, terms) <==> LetsGo(p, bar, terms))
  {
    hide Inv, Step, Survives, LetsGo, FillQuantity, Takes, FilledQty, DistinctIds, SoundDesk;
    InvIsSound(y);
    WorkingIn(y, bar.symbol);
    BarResolvesOrder(y, p, bar, quotes, terms);
    OnlyOneWithId(PendingOf(y.desk, bar.symbol), p);
  }

  lemma OnlyOneWithId(ps: seq<Pending>, p: Pending)
    requires DistinctIds(ps) && p in ps
    ensures forall q :: q in ps && q.request.orderId == p.request.orderId ==> q == p
  {
    forall q | q in ps && q.request.orderId == p.request.orderId ensures q == p {
      var j :| 0 <= j < |ps| && ps[j] == q;
      var k :| 0 <= k < |ps| && ps[k] == p;
    }
  }

  /** An order is stranded by the moves that drop it and by no others, and stays so. */
  lemma StepStrands(y: System, m: Move, id: OrderId, terms: Terms)
    requires Tidy(y) && id in y.orders
    ensures id in Step(y, m, terms).orders
    ensures Stranded(Step(y, m, terms), id) <==> Stranded(y, id) || Drops(y, m, id, terms)
  {
    var z := Step(y, m, terms);
    StepAtBroker(y, m, id, terms);
    assert z.orders[id].quantity == y.orders[id].quantity;
    if !AtBroker(y, id) {
      AbsentAreNotFilled(y, m, id, terms);
    } else {
      var p := Found(y, id);
      assert Fresh(p);
      if m.NextBar? && m.bar.symbol == y.orders[id].symbol {
        BarOfOrder(y, p, m.bar, m.quotes, terms);
      } else {
        AbsentAreNotFilled(y, m, id, terms);
        if m.NextBar? {
          NotOfThisBar(y, m.bar, id);
        }
      }
    }
    hide Inv, AtBroker, FilledQty, Step;
  }

  lemma NotOfThisBar(y: System, bar: Bar, id: OrderId)
    requires Inv(y) && id in y.orders && bar.symbol != y.orders[id].symbol
    ensures forall p :: p in PendingOf(y.desk, bar.symbol) ==> p.request.orderId != id
  {
    assert forall p :: p in PendingOf(y.desk, bar.symbol) ==> Works(p, bar.symbol, y.desk.fills, y.orders);
  }

  // ---- Whole runs ----

  predicate DropsAt(equity: real, ms: seq<Move>, i: nat, id: OrderId, terms: Terms)
    requires i < |ms|
  {
    Drops(Run(Started(equity), ms[..i], terms), ms[i], id, terms)
  }

  /** Some move of the run drops the order. */
  predicate DroppedDuring(equity: real, ms: seq<Move>, id: OrderId, terms: Terms) {
    exists i :: 0 <= i < |ms| && DropsAt(equity, ms, i, id, terms)
  }

  lemma DropsAtPrefix(equity: real, ms: seq<Move>, i: nat, id: OrderId, terms: Terms)
    requires i < |ms|
    ensures forall n :: i < n <= |ms| ==>
      (DropsAt(equity, ms[..n], i, id, terms) <==> DropsAt(equity, ms, i, id, terms))
  {
    hide Run, Drops;
    assert forall n :: i < n <= |ms| ==> ms[..n][..i] == ms[..i] && ms[..n][i] == ms[i];
  }

  lemma DroppedLater(equity: real, ms: seq<Move>, id: OrderId, terms: Terms)
    requires ms != []
    ensures DroppedDuring(equity, ms, id, terms)
       <==> DroppedDuring(equity, ms[..|ms| - 1], id, terms) || DropsAt(equity, ms, |ms| - 1, id, terms)
  {
    hide DropsAt;
    var init := ms[..|ms| - 1];
    forall i | 0 <= i < |init| ensures DropsAt(equity, init, i, id, terms) <==> DropsAt(equity, ms, i, id, terms) {
      DropsAtPrefix(equity, ms, i, id, terms);
    }
  }

  /** A submitted order starts at the broker. */
  lemma NewOrderWorks(y: System, m: Move, id: OrderId, terms: Terms)
    requires SoundDesk(y.desk) && id !in y.orders && id in Step(y, m, terms).orders
    ensures AtBroker(Step(y, m, terms), id)
  {
    var d := Step(y, m, terms).desk;
    var ps := PendingOf(d, m.signal.symbol);
    assert ps[|ps| - 1].request.orderId == id;
  }

  /** An order is stranded exactly if some move of the run dropped it. */
  lemma {:induction false} StrandedIff(equity: real, ms: seq<Move>, id: OrderId, terms: Terms)
    ensures Stranded(Run(Started(equity), ms, terms), id) <==> DroppedDuring(equity, ms, id, terms)
  {
    assert SoundDesk(Started(equity).desk);
    if ms != [] {
      var init, m := ms[..|ms| - 1], ms[|ms| - 1];
      var y := Run(Started(equity), init, terms);
      StrandedIff(equity, init, id, terms);
      DroppedLater(equity, ms, id, terms);
      ReachableIsTidy(equity, init, terms);
      if id in y.orders {
        StepStrands(y, m, id, terms);
      } else if id in Step(y, m, terms).orders {
        NewOrderWorks(y, m, id, terms);
      }
      hide Inv, Tidy, Step, Unfinished, DroppedDuring;
    }
  }

  predicate Terminal(s: Status) {
    s.Filled? || s.Cancelled? || s.Rejected? || s.Expired?
  }

  /**
   What the manager shows as open with nothing working it: with the queue drained, it is
   exactly the orders whose cancel still shows, and those some move of the run dropped
   unfilled: a cancel whose mark was overwritten, a cancel of all orders, or a bar that
   let an immediate order's remainder go.
   */
  lemma OpenButGoneIff(equity: real, ms: seq<Move>, terms: Terms, id: OrderId)
    requires id in Run(Started(equity), ms, terms).orders
    requires Run(Started(equity), ms, terms).desk.queue == []
    ensures
      var y := Run(Started(equity), ms, terms);
      !Terminal(y.orders[id].status) && !AtBroker(y, id)
      <==> y.orders[id].status == CancelPending || DroppedDuring(equity, ms, id, terms)
  {
    var y := Run(Started(equity), ms, terms);
    ReachableIsTidy(equity, ms, terms);
    StrandedIff(equity, ms, id, terms);
    DrainedStatus(equity, ms, terms, id);
    ManagerLagsByTheQueue(equity, ms, terms, id);
    hide Inv, AtBroker, Run, DroppedDuring, FilledQty, Notional, Queued;
  }

  // ---- Fill or kill ----

  /** What one bar can fill of an order: all it asks for, or a share of the volume. */
  predicate CanFill(r: Request, n: int, bar: Bar, terms: Terms) {
    FillsInFull(r.orderType) || WithinShare(n, bar, terms)
  }

  /** A bar fills none or all of what is left exactly if it cannot touch it or can fill it. */
  lemma AllOrNothingIff(p: Pending, bar: Bar, terms: Terms)
    requires 0 <= p.remaining
    ensures
      var n := FillQuantity(p, bar, terms);
      n == 0 || n == p.remaining
      <==> CanFill(p.request, p.remaining, bar, terms) || !Touches(bar, p.request)
  {
  }

  /** Once gone an order is filled no further and does not return. */
  lemma {:induction false} GoneForGood(y: System, ms: seq<Move>, id: OrderId, terms: Terms)
    requires Inv(y) && id in y.orders && !AtBroker(y, id)
    ensures
      var z := Run(y, ms, terms);
      id in z.orders && !AtBroker(z, id) && FilledQty(z.desk.fills, id) == FilledQty(y.desk.fills, id)
  {
    assert SoundDesk(y.desk);
    if ms != [] {
      var init, m := ms[..|ms| - 1], ms[|ms| - 1];
      var x := Run(y, init, terms);
      GoneForGood(y, init, id, terms);
      RunKeeps(y, init, terms);
      StepAtBroker(x, m, id, terms);
      AbsentAreNotFilled(x, m, id, terms);
      assert id in Step(x, m, terms).orders;
      hide Inv, AtBroker, Leaves, Step, FilledQty;
    }
  }

  /**
   Fill or kill, exactly: the first bar of its symbol takes a fill-or-kill order from the
   broker, and what it has filled from then on is nothing or everything if and only if
   that bar does not touch the order or can fill it at once.
   */
  lemma FillOrKillIff(y: System, p: Pending, bar: Bar, quotes: Quotes, more: seq<Move>, terms: Terms)
    requires Tidy(y) && p in PendingOf(y.desk, bar.symbol) && p.request.timeInForce.Fok?
    ensures
      var z := Run(Step(y, NextBar(bar, quotes), terms), more, terms);
      var filled := FilledQty(z.desk.fills, p.request.orderId);
      && !AtBroker(z, p.request.orderId)
      && (filled == 0 || filled == p.request.quantity
          <==> CanFill(p.request, p.request.quantity, bar, terms) || !Touches(bar, p.request))
  {
    var x, id := Step(y, NextBar(bar, quotes), terms), p.request.orderId;
    assert Fresh(p) && Works(p, bar.symbol, y.desk.fills, y.orders);
    BarOfOrder(y, p, bar, quotes, terms);
    StepAtBroker(y, NextBar(bar, quotes), id, terms);
    BarKeeps(y, bar, quotes, terms);
    GoneForGood(x, more, id, terms);
    AllOrNothingIff(p, bar, terms);
    assert !Survives(p, bar, terms);
    hide Inv, Tidy, AtBroker, Leaves, Drops, Run, Step, FilledQty, FillQuantity, LetsGo;
  }

  const KILL := Signal(0, Buy, 2, Limit, Some(100.0), Fok)

  const THIN := Bar(0, 0, 100.0, 101.0, 99.0, 100.0, 10.0)

  const TENTH := Terms(map[], 0.0, 0.1)

  const KILL_PENDING := Pending(RequestFor(0, KILL), 0.0, 2, 0)

  lemma KillIsPlaced()
    ensures
      var x := Step(Started(1000.0), Submit(KILL), TENTH);
      && SoundDesk(Started(1000.0).desk) && Inv(x) && SoundDesk(x.desk)
      && PendingOf(x.desk, 0) == [KILL_PENDING] && KILL_PENDING.request.orderId == 0
      && 0 in x.orders && x.orders[0].quantity == 2 && FilledQty(x.desk.fills, 0) == 0
  {
    StartIsTidy(1000.0);
    StepKeepsTidy(Started(1000.0), Submit(KILL), TENTH);
    hide Tidy;
  }

  lemma KillTakesOne()
    ensures FillQuantity(KILL_PENDING, THIN, TENTH) == 1 && !Survives(KILL_PENDING, THIN, TENTH)
  {
  }

  /** A fill-or-kill order for two that fills one: the bar's volume is ten, its share a tenth. */
  lemma FillOrKillFillsPart(quotes: Quotes)
    ensures
      var y := Run(Started(1000.0), [Submit(KILL), NextBar(THIN, quotes)], TENTH);
      !AtBroker(y, 0) && 0 in y.orders && y.orders[0].quantity == 2 && FilledQty(y.desk.fills, 0) == 1
  {
    assert THIN.symbol == 0;
    KillIsPlaced();
    hide *;
    var x := Step(Started(1000.0), Submit(KILL), TENTH);
    KillTakesOne();
    TwoMoves(Started(1000.0), Submit(KILL), NextBar(THIN, quotes), TENTH);
    BarKeepsOrders(x, THIN, quotes, TENTH);
    assert KILL_PENDING in PendingOf(x.desk, THIN.symbol);
    BarOfOrder(x, KILL_PENDING, THIN, quotes, TENTH);
    StepAtBroker(x, NextBar(THIN, quotes), 0, TENTH);
  }

  lemma BarKeepsOrders(y: System, bar: Bar, quotes: Quotes, terms: Terms)
    requires SoundDesk(y.desk)
    ensures Step(y, NextBar(bar, quotes), terms).orders == y.orders
  {
  }

  lemma TwoMoves(y: System, m: Move, n: Move, terms: Terms)
    requires SoundDesk(y.desk)
    ensures Run(y, [m, n], terms) == Step(Step(y, m, terms), n, terms)
  {
    assert [m, n][..1] == [m] && [m][..0] == [];
    assert Run(y, [m], terms) == Step(Run(y, [], terms), m, terms);
    hide Step;
  }
}
