/**
 The live trade tracker: a second, independent reading of the execution stream
 into open and closed round trips, and the theorem relating it to the ledger of
 the simulated broker.
 */
module Tracker {
  import opened Core
  import opened Ledger

  datatype OpenTrade = OpenTrade(
    entryTs: int,
    side: Side,
    quantity: int,
    avgEntry: real,
    exitNotional: real,
    exitQuantity: int,
    pnl: real
  )

  datatype ClosedTrade = ClosedTrade(
    symbol: Symbol,
    side: Side,
    entryTs: int,
    exitTs: int,
    quantity: int,
    entryPrice: real,
    exitPrice: real,
    pnl: real
  )

  datatype Tape = Tape(open: map<Symbol, OpenTrade>, closed: seq<ClosedTrade>)

  predicate SoundTape(t: Tape) {
    forall s :: s in t.open ==> 0 < t.open[s].quantity && 0 <= t.open[s].exitQuantity
  }

  function Entered(e: Execution): OpenTrade {
    OpenTrade(e.ts, e.side, e.quantity, e.price, 0.0, 0, -e.commission)
  }

  function ScaledIn(o: OpenTrade, e: Execution): OpenTrade
    requires 0 < o.quantity && 0 <= e.quantity
  {
    o.(quantity := o.quantity + e.quantity,
       avgEntry := Blend(o.avgEntry, o.quantity, e.price, e.quantity),
       pnl := o.pnl - e.commission)
  }

  function ScaledOut(o: OpenTrade, e: Execution, multiplier: real): OpenTrade {
    var n := Min(e.quantity, o.quantity);
    o.(quantity := o.quantity - n,
       exitNotional := o.exitNotional + e.price * n as real,
       exitQuantity := o.exitQuantity + n,
       pnl := o.pnl - e.commission + Profit(o.side, o.avgEntry, e.price, n, multiplier))
  }

  /** A fill larger than the open trade closes it; the excess is dropped. */
  function Track(t: Tape, e: Execution, multipliers: Multipliers): (r: Tape)
    requires SoundTape(t)
    requires 0 <= e.quantity
    ensures SoundTape(r)
  {
    if e.quantity == 0 && e.symbol !in t.open then t
    else if e.symbol !in t.open then t.(open := t.open[e.symbol := Entered(e)])
    else
      var o := t.open[e.symbol];
      if o.side == e.side then t.(open := t.open[e.symbol := ScaledIn(o, e)])
      else
        var left := ScaledOut(o, e, MultiplierOf(multipliers, e.symbol));
        if left.quantity > 0 then t.(open := t.open[e.symbol := left])
        else
          Tape(
            t.open - {e.symbol},
            t.closed + [ClosedTrade(e.symbol, o.side, o.entryTs, e.ts, left.exitQuantity, o.avgEntry,
                                    left.exitNotional / left.exitQuantity as real, left.pnl)])
  }

  /** An empty fill charges its commission and changes nothing else. */
  lemma EmptyFill(o: OpenTrade, e: Execution, multiplier: real)
    requires 0 < o.quantity && e.quantity == 0
    ensures ScaledIn(o, e) == ScaledOut(o, e, multiplier) == o.(pnl := o.pnl - e.commission)
  {
    assert Blend(o.avgEntry, o.quantity, e.price, 0) * o.quantity as real == o.avgEntry * o.quantity as real;
    assert Blend(o.avgEntry, o.quantity, e.price, 0) == o.avgEntry;
    assert Profit(o.side, o.avgEntry, e.price, 0, multiplier) == 0.0;
  }

  class TradeTracker {
    const multipliers: Multipliers
    var open: map<Symbol, OpenTrade>
    var closedTrades: seq<ClosedTrade>

    ghost function View(): Tape
      reads this
    {
      Tape(open, closedTrades)
    }

    constructor (multipliers: Multipliers)
      ensures View() == Tape(map[], []) && this.multipliers == multipliers
    {
      this.multipliers := multipliers;
      open, closedTrades := map[], [];
    }

    method OnExecution(e: Execution) returns (closed: Option<ClosedTrade>)
      requires SoundTape(View())
      requires 0 <= e.quantity
      modifies this
      ensures View() == Track(old(View()), e, multipliers)
      ensures closedTrades == old(closedTrades) + (if closed.Some? then [closed.value] else [])
    {
      closed := None;
      var multiplier := MultiplierOf(multipliers, e.symbol);
      var signedFill := e.quantity * e.side.Sign();
      if e.symbol !in open {
        if signedFill == 0 {
          return;
        }
        open := open[e.symbol := OpenTrade(
          e.ts, if signedFill > 0 then Buy else Sell, Abs(signedFill), e.price, 0.0, 0, -e.commission)];
        return;
      }

      var trade := open[e.symbol];
      var prevSigned := trade.quantity * trade.side.Sign();
      var isClosingDirection := (signedFill > 0) != (prevSigned > 0);
      if !isClosingDirection {
        if e.side != trade.side {
          assert e.quantity == 0;
          EmptyFill(trade, e, multiplier);
        }
        assert Abs(signedFill) == e.quantity;
        ghost var scaled := ScaledIn(trade, e);
        trade := trade.(
          avgEntry := Blend(trade.avgEntry, trade.quantity, e.price, Abs(signedFill)),
          quantity := trade.quantity + Abs(signedFill),
          pnl := trade.pnl - e.commission);
        assert trade == scaled;
        open := open[e.symbol := trade];
        return;
      }

      assert Abs(signedFill) == e.quantity;
      ghost var left := ScaledOut(trade, e, multiplier);
      if e.side == trade.side {
        EmptyFill(trade, e, multiplier);
      }
      var closingQty := Min(Abs(signedFill), trade.quantity);
      trade := trade.(pnl := trade.pnl + Profit(trade.side, trade.avgEntry, e.price, closingQty, multiplier));
      trade := trade.(pnl := trade.pnl - e.commission);
      trade := trade.(
        exitNotional := trade.exitNotional + e.price * closingQty as real,
        exitQuantity := trade.exitQuantity + closingQty,
        quantity := trade.quantity - closingQty);
      assert trade == left;
      if trade.quantity > 0 {
        open := open[e.symbol := trade];
        return;
      }

      open := open - {e.symbol};
      var exitPrice := if trade.exitQuantity != 0 then trade.exitNotional / trade.exitQuantity as real else e.price;
      closed := Some(ClosedTrade(e.symbol, trade.side, trade.entryTs, e.ts, trade.exitQuantity,
                                 trade.avgEntry, exitPrice, trade.pnl));
      closedTrades := closedTrades + [closed.value];
    }
  }

  // ---- The tracker as a shadow of the simulator's ledger ----

  predicate Mirrors(h: Holding, o: OpenTrade) {
    && o.side == h.side && o.quantity == h.quantity && o.avgEntry == h.avgEntry
    && o.entryTs == h.entryTs && o.pnl == h.pnl
  }

  predicate SameTrip(r: TradeRecord, c: ClosedTrade) {
    && c.symbol == r.symbol && c.side == r.side && c.entryTs == r.entryTs
    && c.exitTs == r.exitTs && c.pnl == r.pnl
  }

  ghost predicate SameTrips(rs: seq<TradeRecord>, cs: seq<ClosedTrade>) {
    |rs| == |cs| && forall i :: 0 <= i < |rs| ==> SameTrip(rs[i], cs[i])
  }

  /** Same open trades with the same running figures; same closed round trips. */
  ghost predicate Shadows(b: Book, t: Tape) {
    && b.open.Keys == t.open.Keys
    && (forall s :: s in b.open ==> Mirrors(b.open[s], t.open[s]))
    && SameTrips(b.trades, t.closed)
  }

  /**
   One fill keeps the two ledgers in step exactly when it is not a flip. Even a flip closes
   the same round trip in both; it is the excess that only the simulator keeps.
   */
  lemma ShadowStep(b: Book, t: Tape, e: Execution, multipliers: Multipliers)
    requires SoundBook(b) && SoundTape(t)
    requires 0 < e.quantity
    requires Shadows(b, t)
    ensures Shadows(Post(b, e, multipliers), Track(t, e, multipliers)) <==> !IsFlip(HoldingIn(b, e.symbol), e)
    ensures SameTrips(Post(b, e, multipliers).trades, Track(t, e, multipliers).closed)
  {
    var r, u := Post(b, e, multipliers), Track(t, e, multipliers);
    if IsFlip(HoldingIn(b, e.symbol), e) {
      assert e.symbol in r.open && e.symbol !in u.open;
    } else {
      assert e.symbol in r.open <==> e.symbol in u.open;
      assert e.symbol in r.open ==> Mirrors(r.open[e.symbol], u.open[e.symbol]);
    }
  }

  function TrackAll(t: Tape, es: seq<Execution>, multipliers: Multipliers): (r: Tape)
    requires SoundTape(t)
    requires Positive(es)
    ensures SoundTape(r)
  {
    if es == [] then t
    else Track(TrackAll(t, es[..|es| - 1], multipliers), es[|es| - 1], multipliers)
  }

  /** The net position in the fill's symbol never jumps across zero. */
  predicate FlipFree(es: seq<Execution>) {
    forall i :: 0 <= i < |es| ==> !Crosses(es, i)
  }

  predicate Crosses(es: seq<Execution>, i: nat)
    requires i < |es|
  {
    var before := SumSigned(es[..i], es[i].symbol);
    var after := before + SignedQuantity(es[i]);
    before < 0 < after || after < 0 < before
  }

  ghost predicate InStep(es: seq<Execution>, n: nat, multipliers: Multipliers)
    requires n <= |es| && Positive(es)
  {
    Shadows(Replay(Book(0.0, map[], []), es[..n], multipliers), TrackAll(Tape(map[], []), es[..n], multipliers))
  }

  lemma InStepNext(es: seq<Execution>, n: nat, multipliers: Multipliers)
    requires n < |es| && Positive(es)
    requires InStep(es, n, multipliers)
    ensures InStep(es, n + 1, multipliers) <==> !Crosses(es, n)
  {
    hide Replay, TrackAll, Shadows, Post, Track, Crosses, IsFlip, Positive, SoundBook, SoundTape;
    var empty, blank := Book(0.0, map[], []), Tape(map[], []);
    PrefixIsSound(es, n, multipliers);
    assert es[..n + 1] == es[..n] + [es[n]];
    ReplayLast(empty, es[..n], es[n], multipliers);
    TrackLast(blank, es[..n], es[n], multipliers);
    ShadowStep(Replay(empty, es[..n], multipliers), TrackAll(blank, es[..n], multipliers), es[n], multipliers);
    FlipIsCrossing(es, n, multipliers);
  }

  lemma PrefixIsSound(es: seq<Execution>, n: nat, multipliers: Multipliers)
    requires n < |es| && Positive(es)
    ensures Positive(es[..n]) && Positive(es[..n + 1]) && 0 < es[n].quantity
    ensures SoundBook(Book(0.0, map[], [])) && SoundTape(Tape(map[], []))
  {
  }

  lemma TrackLast(t: Tape, es: seq<Execution>, e: Execution, multipliers: Multipliers)
    requires SoundTape(t) && Positive(es + [e])
    ensures Positive(es) && 0 < e.quantity
    ensures TrackAll(t, es + [e], multipliers) == Track(TrackAll(t, es, multipliers), e, multipliers)
  {
    hide Track, SoundTape;
    assert (es + [e])[..|es|] == es && (es + [e])[|es|] == e;
  }

  /** The simulator flips a position exactly where the net of its fills crosses zero. */
  lemma FlipIsCrossing(es: seq<Execution>, n: nat, multipliers: Multipliers)
    requires n < |es| && Positive(es)
    ensures Positive(es[..n]) && SoundBook(Book(0.0, map[], []))
    ensures IsFlip(HoldingIn(Replay(Book(0.0, map[], []), es[..n], multipliers), es[n].symbol), es[n])
       <==> Crosses(es, n)
  {
    hide Replay, SumSigned;
    BooksBalance(0.0, es[..n], multipliers);
    var b := Replay(Book(0.0, map[], []), es[..n], multipliers);
    assert Position(b, es[n].symbol) == SumSigned(es[..n], es[n].symbol);
  }

  lemma {:induction false} InStepUpTo(es: seq<Execution>, n: nat, multipliers: Multipliers)
    requires n <= |es| && Positive(es)
    requires forall i :: 0 <= i < n ==> !Crosses(es, i)
    ensures InStep(es, n, multipliers)
  {
    if n > 0 {
      InStepUpTo(es, n - 1, multipliers);
      InStepNext(es, n - 1, multipliers);
    }
  }

  /**
   The tracker and the simulator agree after every fill of a history if and only
   if no fill of that history takes a position through zero.
   */
  lemma TrackerShadowsLedger(es: seq<Execution>, multipliers: Multipliers)
    requires Positive(es)
    ensures (forall n :: 0 <= n <= |es| ==> InStep(es, n, multipliers)) <==> FlipFree(es)
  {
    if FlipFree(es) {
      forall n | 0 <= n <= |es| ensures InStep(es, n, multipliers) {
        InStepUpTo(es, n, multipliers);
      }
    } else {
      var i :| 0 <= i < |es| && Crosses(es, i);
      if InStep(es, i, multipliers) {
        InStepNext(es, i, multipliers);
        assert !InStep(es, i + 1, multipliers);
      }
    }
  }

  // ---- The exits a trade reports ----

  /** How much of the exposure in `s` has been taken off since it opened. */
  function ExitQuantity(es: seq<Execution>, s: Symbol): int {
    if es == [] then 0
    else
      var init := es[..|es| - 1];
      var before, now := SumSigned(init, s), SumSigned(es, s);
      if Starts(before, now) then 0 else ExitQuantity(init, s) + Max(0, Abs(before) - Abs(now))
  }

  /** What was taken off, at the prices it was taken off at. */
  function ExitValue(es: seq<Execution>, s: Symbol): real {
    if es == [] then 0.0
    else
      var init := es[..|es| - 1];
      var before, now := SumSigned(init, s), SumSigned(es, s);
      if Starts(before, now) then 0.0
      else ExitValue(init, s) + es[|es| - 1].price * Max(0, Abs(before) - Abs(now)) as real
  }

  lemma ExitsOn(es: seq<Execution>, e: Execution, s: Symbol)
    ensures
      var before, now := SumSigned(es, s), SumSigned(es + [e], s);
      var off := Max(0, Abs(before) - Abs(now));
      && ExitQuantity(es + [e], s) == (if Starts(before, now) then 0 else ExitQuantity(es, s) + off)
      && ExitValue(es + [e], s) == (if Starts(before, now) then 0.0 else ExitValue(es, s) + e.price * off as real)
  {
    hide SumSigned;
    assert (es + [e])[..|es|] == es;
  }

  ghost predicate ExitsMatch(t: Tape, es: seq<Execution>, s: Symbol) {
    && (s in t.open <==> SumSigned(es, s) != 0)
    && (s in t.open ==>
         && t.open[s].side.Buy? == (0 < SumSigned(es, s)) && t.open[s].quantity == Abs(SumSigned(es, s))
         && t.open[s].exitQuantity == ExitQuantity(es, s) && t.open[s].exitNotional == ExitValue(es, s))
  }

  predicate CrossesZero(before: int, now: int) {
    before < 0 < now || now < 0 < before
  }

  lemma ExitsStep(t: Tape, es: seq<Execution>, e: Execution, multipliers: Multipliers, s: Symbol)
    requires SoundTape(t) && 0 < e.quantity && ExitsMatch(t, es, s)
    requires !CrossesZero(SumSigned(es, s), SumSigned(es + [e], s))
    ensures ExitsMatch(Track(t, e, multipliers), es + [e], s)
  {
    SumSignedOn(es, e, s);
    ExitsOn(es, e, s);
    hide SumSigned, ExitQuantity, ExitValue, Blend, Profit;
  }

  lemma FlipFreePrefix(es: seq<Execution>, n: nat)
    requires FlipFree(es) && n <= |es|
    ensures FlipFree(es[..n])
  {
    hide SumSigned;
    forall i | 0 <= i < n ensures !Crosses(es[..n], i) {
      assert !Crosses(es, i);
      assert es[..n][..i] == es[..i];
    }
  }

  lemma LastDoesNotCross(es: seq<Execution>, s: Symbol)
    requires FlipFree(es) && es != []
    ensures !CrossesZero(SumSigned(es[..|es| - 1], s), SumSigned(es, s))
  {
    assert !Crosses(es, |es| - 1);
  }

  lemma {:induction false} ExitsFollowFills(es: seq<Execution>, multipliers: Multipliers, s: Symbol)
    requires Positive(es) && FlipFree(es)
    ensures ExitsMatch(TrackAll(Tape(map[], []), es, multipliers), es, s)
  {
    if es != [] {
      var init, e := es[..|es| - 1], es[|es| - 1];
      assert init + [e] == es;
      FlipFreePrefix(es, |init|);
      LastDoesNotCross(es, s);
      ExitsFollowFills(init, multipliers, s);
      hide ExitsMatch, Track, FlipFree, SumSigned;
      ExitsStep(TrackAll(Tape(map[], []), init, multipliers), init, e, multipliers, s);
    }
  }

  /**
   After any history that flips nothing, the next fill records a trade exactly when it ends
   a position, be it by a flip: entered at the price of the fills, for the whole quantity
   taken off, at the mean price it was taken off at.
   */
  lemma ClosedTradeFollowsFills(es: seq<Execution>, e: Execution, multipliers: Multipliers)
    requires Positive(es) && FlipFree(es) && 0 < e.quantity
    ensures
      var t := TrackAll(Tape(map[], []), es, multipliers);
      var u, s, before := Track(t, e, multipliers), e.symbol, SumSigned(es, e.symbol);
      if Ends(before, before + SignedQuantity(e))
      then
        && |u.closed| == |t.closed| + 1 && u.closed[..|t.closed|] == t.closed && s !in u.open
        && var c := u.closed[|t.closed|];
           && c.symbol == s && c.quantity == ExitQuantity(es, s) + Abs(before)
           && c.entryPrice == EntryPrice(es, s)
           && c.exitPrice * c.quantity as real == ExitValue(es, s) + e.price * Abs(before) as real
      else u.closed == t.closed
  {
    hide Replay, TrackAll, SumSigned, EntryPrice, EntryTime, TripCost, ExitQuantity, ExitValue, Profit, Blend, Post;
    var t, s := TrackAll(Tape(map[], []), es, multipliers), e.symbol;
    ExitsFollowFills(es, multipliers, s);
    TrackerEntry(es, multipliers, s);
    if s in t.open && Ends(SumSigned(es, s), SumSigned(es, s) + SignedQuantity(e)) {
      var o := t.open[s];
      QuotientReturns(o.exitNotional + e.price * o.quantity as real, o.exitQuantity + o.quantity);
    }
  }

  lemma QuotientReturns(x: real, n: int)
    requires 0 < n
    ensures x / n as real * n as real == x
  {
  }

  /** On a history that flips nothing the tracker's entry price is that of the fills. */
  lemma TrackerEntry(es: seq<Execution>, multipliers: Multipliers, s: Symbol)
    requires Positive(es) && FlipFree(es)
    ensures
      var t := TrackAll(Tape(map[], []), es, multipliers);
      s in t.open ==> t.open[s].avgEntry == EntryPrice(es, s)
  {
    hide Replay, TrackAll, EntryPrice, EntryTime, TripCost, SumSigned, Crosses;
    TrackerShadowsLedger(es, multipliers);
    OpenTradeFollowsFills(0.0, es, multipliers, s);
    assert InStep(es, |es|, multipliers) && es[..|es|] == es;
  }

  lemma TrackerClosesOne()
    ensures
      var long := Track(Tape(map[], []), FillOf(Buy, 1), map[]);
      && SoundTape(long) && Track(long, FillOf(Sell, 3), map[]).open == map[]
  {
    hide Profit, Blend;
  }

  /** One contract bought, three sold: the simulator is short two, the tracker shows nothing open. */
  lemma FlipParts()
    ensures
      var es := [FillOf(Buy, 1)] + [FillOf(Sell, 3)];
      && Position(Replay(Book(0.0, map[], []), es, map[]), 0) == -2
      && TrackAll(Tape(map[], []), es, map[]).open == map[]
  {
    hide Replay, Track, SumSigned;
    BoughtThenSold();
    TrackerClosesOne();
    var bought, sold := FillOf(Buy, 1), FillOf(Sell, 3);
    BooksBalance(0.0, [bought] + [sold], map[]);
    assert ([bought] + [sold])[..1] == [bought] && [bought][..0] == [];
    assert TrackAll(Tape(map[], []), [bought], map[]) == Track(Tape(map[], []), bought, map[]);
  }
}
