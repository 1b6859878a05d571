/**
 The live position monitor: one poll after another over snapshots of the open
 positions, freezing a stop at first sight, ratcheting a trailing level, closing
 each position at most once, and arming and disarming native stops.
 */
module Monitor {
  import opened Core

  datatype PositionDetail = PositionDetail(
    symbol: Symbol,
    side: Side,
    quantity: nat,
    entryPrice: real,
    unrealizedPnl: real
  )

  /** A position in a snapshot, with what the broker would answer if it is new. */
  datatype Sight = Sight(detail: PositionDetail, equity: real, placed: Option<OrderId>)

  datatype Params = Params(
    stopLossPct: real,
    leverage: real,
    stepSize: Symbol -> real,
    armPct: real,
    basePct: real,
    stepPct: real,
    incrementPct: real,
    capPct: real
  )

  datatype CloseReason = StopLoss | ProfitCap | TrailingProfit

  datatype CloseOrder = CloseOrder(symbol: Symbol, side: Side, quantity: nat, reason: CloseReason)

  /** All the monitor remembers about one symbol besides its quantity. */
  datatype Track = Track(stop: Option<real>, peak: Option<real>, native: Option<OrderId>, closing: bool)

  const GONE := Track(None, None, None, false)

  function SignedSize(d: PositionDetail): int {
    Signed(d.side, d.quantity)
  }

  function Margin(d: PositionDetail, p: Params): real {
    if p.leverage > 0.0 then d.quantity as real * p.stepSize(d.symbol) * d.entryPrice / p.leverage else 0.0
  }

  function Roi(d: PositionDetail, p: Params): real {
    var margin := Margin(d, p);
    if margin > 0.0 then d.unrealizedPnl / margin * 100.0 else 0.0
  }

  /** The settings validator demands a positive increment. */
  predicate Usable(p: Params) {
    0.0 < p.incrementPct
  }

  function TrailLevel(p: Params, peak: real): real
    requires Usable(p)
  {
    p.basePct + ((peak - p.armPct) / p.incrementPct).Floor as real * p.stepPct
  }

  /** Why a position with this stop, ROI and peak ROI must be closed, if it must. */
  function ExitReason(p: Params, pnl: real, roi: real, stop: real, peak: real): Option<CloseReason>
    requires Usable(p)
  {
    if pnl <= -stop then Some(StopLoss)
    else if roi >= p.capPct then Some(ProfitCap)
    else if peak >= p.armPct && roi <= TrailLevel(p, peak) then Some(TrailingProfit)
    else None
  }

  // ---- One symbol, one poll ----

  function FrozenStop(t: Track, x: Sight, p: Params): real {
    if t.stop.Some? then t.stop.value else x.equity * p.stopLossPct / 100.0
  }

  function PeakWith(t: Track, roi: real): real {
    if t.peak.Some? then MaxR(t.peak.value, roi) else roi
  }

  function ReasonAt(t: Track, x: Sight, p: Params): Option<CloseReason>
    requires Usable(p)
  {
    var roi := Roi(x.detail, p);
    if t.closing then None
    else ExitReason(p, x.detail.unrealizedPnl, roi, FrozenStop(t, x, p), PeakWith(t, roi))
  }

  /** A position being closed is left alone; any other is followed. */
  function Followed(t: Track, x: Sight, p: Params): Track
    requires Usable(p)
  {
    if t.closing then t
    else
      Track(
        Some(FrozenStop(t, x, p)),
        Some(PeakWith(t, Roi(x.detail, p))),
        if t.stop.Some? then t.native else x.placed,
        ReasonAt(t, x, p).Some?)
  }

  function Observed(t: Track, sight: Option<Sight>, p: Params): Track
    requires Usable(p)
  {
    if sight.None? then GONE else Followed(t, sight.value, p)
  }

  function CloseFor(x: Sight, reason: CloseReason): CloseOrder {
    var qty := SignedSize(x.detail);
    CloseOrder(x.detail.symbol, if qty > 0 then Sell else Buy, Abs(qty), reason)
  }

  // ---- The monitor's own dictionaries ----

  datatype Books = Books(
    closing: set<Symbol>,
    native: map<Symbol, OrderId>,
    peak: map<Symbol, real>,
    stop: map<Symbol, real>
  )

  function Lookup<V>(m: map<Symbol, V>, s: Symbol): Option<V> {
    if s in m then Some(m[s]) else None
  }

  function TrackIn(b: Books, s: Symbol): Track {
    Track(Lookup(b.stop, s), Lookup(b.peak, s), Lookup(b.native, s), s in b.closing)
  }

  predicate DistinctSymbols(xs: seq<Sight>) {
    forall i, j :: 0 <= i < j < |xs| ==> xs[i].detail.symbol != xs[j].detail.symbol
  }

  function SightOf(xs: seq<Sight>, s: Symbol): Option<Sight> {
    if xs == [] then None
    else if xs[|xs| - 1].detail.symbol == s then Some(xs[|xs| - 1])
    else SightOf(xs[..|xs| - 1], s)
  }

  function Symbols(xs: seq<Sight>): set<Symbol> {
    set x | x in xs :: x.detail.symbol
  }

  lemma {:induction false} SightOfSymbol(xs: seq<Sight>, s: Symbol)
    ensures SightOf(xs, s).Some? <==> s in Symbols(xs)
    ensures SightOf(xs, s).Some? ==> SightOf(xs, s).value in xs && SightOf(xs, s).value.detail.symbol == s
  {
    if xs != [] {
      SightOfSymbol(xs[..|xs| - 1], s);
      assert xs == xs[..|xs| - 1] + [xs[|xs| - 1]];
    }
  }

  /** The close orders a poll submits, in snapshot order. */
  function ClosesOf(b: Books, xs: seq<Sight>, p: Params): seq<CloseOrder>
    requires Usable(p)
  {
    if xs == [] then []
    else
      var x := xs[|xs| - 1];
      var reason := ReasonAt(TrackIn(b, x.detail.symbol), x, p);
      ClosesOf(b, xs[..|xs| - 1], p) + (if reason.Some? then [CloseFor(x, reason.value)] else [])
  }

  class PositionMonitor {
    const params: Params
    var positions: map<Symbol, int>
    var closing: set<Symbol>
    var nativeStopOrderId: map<Symbol, OrderId>
    var peakRoiPct: map<Symbol, real>
    var positionStopLoss: map<Symbol, real>
    ghost var placedStops: multiset<(Symbol, OrderId)>
    ghost var cancelledStops: multiset<(Symbol, OrderId)>

    function State(): Books
      reads this
    {
      Books(closing, nativeStopOrderId, peakRoiPct, positionStopLoss)
    }

    /** Between polls the dictionaries speak of exactly the open symbols. */
    ghost predicate Valid()
      reads this
    {
      && Usable(params)
      && peakRoiPct.Keys == positions.Keys
      && positionStopLoss.Keys == positions.Keys
      && closing <= positions.Keys
      && nativeStopOrderId.Keys <= positions.Keys
      && Accounted(placedStops, cancelledStops, nativeStopOrderId)
    }

    constructor (params: Params)
      requires Usable(params)
      ensures Valid() && this.params == params
      ensures positions == map[] && State() == Books({}, map[], map[], map[])
    {
      this.params := params;
      positions, closing, nativeStopOrderId := map[], {}, map[];
      peakRoiPct, positionStopLoss := map[], map[];
      placedStops, cancelledStops := multiset{}, multiset{};
    }

    /** One poll. */
    method CheckOnce(details: seq<Sight>) returns (closes: seq<CloseOrder>)
      requires Valid() && DistinctSymbols(details)
      modifies this
      ensures Valid()
      ensures positions == Held(details)
      ensures forall s :: TrackIn(State(), s) == Observed(TrackIn(old(State()), s), SightOf(details, s), params)
      ensures closes == ClosesOf(old(State()), details, params)
      ensures forall c :: c in closes ==>
        c.symbol in positions && positions[c.symbol] + Signed(c.side, c.quantity) == 0
    {
      ghost var before := State();
      var currentSymbols := Symbols(details);
      var previousSymbols := positions.Keys;
      closing := closing * currentSymbols;
      positions := Held(details);
      closes := CheckDetails(details, previousSymbols);
      ghost var checked := State();
      Forget(previousSymbols - currentSymbols);
      PollIsComplete(before, checked, details, previousSymbols, params);
      ClosesSeeOnlyOpen(before, details, currentSymbols, params);
      HeldSymbols(details);
      ClosesFlatten(before, details, params);
    }

    method CheckDetails(details: seq<Sight>, previousSymbols: set<Symbol>) returns (closes: seq<CloseOrder>)
      requires Usable(params) && Accounted(placedStops, cancelledStops, nativeStopOrderId) && DistinctSymbols(details)
      requires peakRoiPct.Keys == positionStopLoss.Keys == previousSymbols
      requires nativeStopOrderId.Keys <= previousSymbols && closing <= previousSymbols
      modifies `closing, `nativeStopOrderId, `peakRoiPct, `positionStopLoss, `placedStops
      ensures Accounted(placedStops, cancelledStops, nativeStopOrderId)
      ensures forall s :: TrackIn(State(), s) == Glimpsed(TrackIn(old(State()), s), SightOf(details, s), params)
      ensures closes == ClosesOf(old(State()), details, params)
    {
      closes := [];
      for i := 0 to |details|
        invariant Accounted(placedStops, cancelledStops, nativeStopOrderId)
        invariant forall s ::
          TrackIn(State(), s) == Glimpsed(TrackIn(old(State()), s), SightOf(details[..i], s), params)
        invariant closes == ClosesOf(old(State()), details[..i], params)
      {
        var x := details[i];
        assert details[..i + 1][..i] == details[..i];
        SightOfSymbol(details[..i], x.detail.symbol);
        assert TrackIn(State(), x.detail.symbol) == TrackIn(old(State()), x.detail.symbol);
        var close := CheckDetail(x, x.detail.symbol in previousSymbols);
        closes := closes + close;
      }
      assert details[..|details|] == details;
    }

    /** The body of the poll loop, for one position of the snapshot. */
    method CheckDetail(x: Sight, seenBefore: bool) returns (close: seq<CloseOrder>)
      requires Usable(params) && Accounted(placedStops, cancelledStops, nativeStopOrderId)
      requires if seenBefore then TrackIn(State(), x.detail.symbol).stop.Some?
               else TrackIn(State(), x.detail.symbol) == GONE
      modifies `closing, `nativeStopOrderId, `peakRoiPct, `positionStopLoss, `placedStops
      ensures Accounted(placedStops, cancelledStops, nativeStopOrderId)
      ensures TrackIn(State(), x.detail.symbol) == Followed(TrackIn(old(State()), x.detail.symbol), x, params)
      ensures forall s :: s != x.detail.symbol ==> TrackIn(State(), s) == TrackIn(old(State()), s)
      ensures
        var reason := ReasonAt(TrackIn(old(State()), x.detail.symbol), x, params);
        close == if reason.Some? then [CloseFor(x, reason.value)] else []
    {
      hide Roi, TrailLevel, CloseFor, Accounted, MaxR;
      var detail, symbol := x.detail, x.detail.symbol;
      if symbol in closing {
        return [];
      }
      var stopLoss, peak := Refresh(x, seenBefore);
      var roi := Roi(detail, params);
      if detail.unrealizedPnl <= -stopLoss {
        close := ClosePosition(x, StopLoss);
      } else if roi >= params.capPct {
        close := ClosePosition(x, ProfitCap);
      } else if peak >= params.armPct && roi <= TrailLevel(params, peak) {
        close := ClosePosition(x, TrailingProfit);
      } else {
        close := [];
      }
    }

    /** Freezes the stop and arms the native order at first sight; raises the peak. */
    method Refresh(x: Sight, seenBefore: bool) returns (stopLoss: real, peak: real)
      requires Accounted(placedStops, cancelledStops, nativeStopOrderId)
      requires if seenBefore then TrackIn(State(), x.detail.symbol).stop.Some?
               else TrackIn(State(), x.detail.symbol) == GONE
      modifies `nativeStopOrderId, `peakRoiPct, `positionStopLoss, `placedStops
      ensures Accounted(placedStops, cancelledStops, nativeStopOrderId)
      ensures
        var t := TrackIn(old(State()), x.detail.symbol);
        && stopLoss == FrozenStop(t, x, params) && peak == PeakWith(t, Roi(x.detail, params))
        && TrackIn(State(), x.detail.symbol)
           == t.(stop := Some(stopLoss), peak := Some(peak), native := if t.stop.Some? then t.native else x.placed)
      ensures forall s :: s != x.detail.symbol ==> TrackIn(State(), s) == TrackIn(old(State()), s)
    {
      hide Roi, Accounted;
      var symbol := x.detail.symbol;
      if !seenBefore {
        var maxLoss := x.equity * params.stopLossPct / 100.0;
        positionStopLoss := positionStopLoss[symbol := maxLoss];
        ArmNativeStop(symbol, x.placed);
      }
      stopLoss := positionStopLoss[symbol];
      var roi := Roi(x.detail, params);
      peak := MaxR(if symbol in peakRoiPct then peakRoiPct[symbol] else roi, roi);
      peakRoiPct := peakRoiPct[symbol := peak];
    }

    method ClosePosition(x: Sight, reason: CloseReason) returns (close: seq<CloseOrder>)
      modifies `closing
      ensures closing == old(closing) + {x.detail.symbol} && close == [CloseFor(x, reason)]
      ensures close[0].symbol == x.detail.symbol && close[0].reason == reason
      ensures Signed(x.detail.side, x.detail.quantity) + Signed(close[0].side, close[0].quantity) == 0
    {
      closing := closing + {x.detail.symbol};
      close := [CloseFor(x, reason)];
    }

    method ArmNativeStop(symbol: Symbol, placed: Option<OrderId>)
      requires Accounted(placedStops, cancelledStops, nativeStopOrderId) && symbol !in nativeStopOrderId
      modifies `nativeStopOrderId, `placedStops
      ensures Accounted(placedStops, cancelledStops, nativeStopOrderId)
      ensures nativeStopOrderId ==
        if placed.Some? then old(nativeStopOrderId)[symbol := placed.value] else old(nativeStopOrderId)
    {
      if placed.Some? {
        nativeStopOrderId := nativeStopOrderId[symbol := placed.value];
        placedStops := placedStops + multiset{(symbol, placed.value)};
      }
    }

    method DisarmNativeStop(symbol: Symbol)
      requires Accounted(placedStops, cancelledStops, nativeStopOrderId)
      modifies `nativeStopOrderId, `cancelledStops
      ensures Accounted(placedStops, cancelledStops, nativeStopOrderId)
      ensures nativeStopOrderId == old(nativeStopOrderId) - {symbol}
    {
      if symbol in nativeStopOrderId {
        var orderId := nativeStopOrderId[symbol];
        nativeStopOrderId := nativeStopOrderId - {symbol};
        cancelledStops := cancelledStops + multiset{(symbol, orderId)};
      }
    }

    /** Positions that are no longer open lose their stop, their peak and their native order. */
    method Forget(gone: set<Symbol>)
      requires Accounted(placedStops, cancelledStops, nativeStopOrderId)
      modifies `nativeStopOrderId, `cancelledStops, `peakRoiPct, `positionStopLoss
      ensures Accounted(placedStops, cancelledStops, nativeStopOrderId)
      ensures State() == Dropped(old(State()), gone)
    {
      var left := gone;
      while left != {}
        invariant left <= gone && Accounted(placedStops, cancelledStops, nativeStopOrderId)
        invariant State() == Dropped(old(State()), gone - left)
        decreases left
      {
        var s :| s in left;
        DroppedOneMore(old(State()), gone, left, s);
        DisarmNativeStop(s);
        peakRoiPct := peakRoiPct - {s};
        positionStopLoss := positionStopLoss - {s};
        left := left - {s};
      }
    }
  }

  /** Every native stop ever placed is still mapped or was cancelled exactly once. */
  ghost predicate Accounted(placed: multiset<(Symbol, OrderId)>, cancelled: multiset<(Symbol, OrderId)>,
                            native: map<Symbol, OrderId>) {
    forall s, id :: placed[(s, id)] == cancelled[(s, id)] + Mapped(native, s, id)
  }

  function Mapped(m: map<Symbol, OrderId>, s: Symbol, id: OrderId): nat {
    if Lookup(m, s) == Some(id) then 1 else 0
  }

  function Dropped(b: Books, gone: set<Symbol>): Books {
    b.(native := b.native - gone, peak := b.peak - gone, stop := b.stop - gone)
  }

  lemma DroppedOneMore(b: Books, gone: set<Symbol>, left: set<Symbol>, s: Symbol)
    requires s in left && left <= gone
    ensures Dropped(Dropped(b, gone - left), {s}) == Dropped(b, gone - (left - {s}))
  {
    assert gone - (left - {s}) == (gone - left) + {s};
    MinusTwice(b.native, gone - left, {s});
    MinusTwice(b.stop, gone - left, {s});
    MinusTwice(b.peak, gone - left, {s});
  }

  lemma MinusTwice<T>(m: map<Symbol, T>, a: set<Symbol>, b: set<Symbol>)
    ensures m - a - b == m - (a + b)
  {
  }

  /** Narrowed to the symbols still open, as at the start of a poll. */
  function Narrowed(b: Books, current: set<Symbol>): Books {
    b.(closing := b.closing * current)
  }

  /** The dictionaries speak of exactly these symbols. */
  predicate Covers(b: Books, open: set<Symbol>) {
    b.peak.Keys == open && b.stop.Keys == open && b.closing <= open && b.native.Keys <= open
  }

  /** A symbol is either unknown or has both a frozen stop and a peak. */
  predicate Whole(t: Track) {
    t == GONE || (t.stop.Some? && t.peak.Some?)
  }

  lemma ObservedIsWhole(t: Track, sight: Option<Sight>, p: Params)
    requires Usable(p) && Whole(t)
    ensures
      var u := Observed(t, sight, p);
      if sight.None? then u == GONE else u.stop.Some? && u.peak.Some?
  {
  }

  lemma {:induction false} ClosesSeeOnlyOpen(b: Books, xs: seq<Sight>, current: set<Symbol>, p: Params)
    requires Usable(p) && Symbols(xs) <= current
    ensures ClosesOf(Narrowed(b, current), xs, p) == ClosesOf(b, xs, p)
  {
    if xs != [] {
      assert forall x :: x in xs[..|xs| - 1] ==> x in xs;
      ClosesSeeOnlyOpen(b, xs[..|xs| - 1], current, p);
      assert xs[|xs| - 1].detail.symbol in Symbols(xs);
    }
  }

  /** Clean-up after the loop turns a glimpse of every symbol into a full observation. */
  lemma PollIsComplete(before: Books, checked: Books, xs: seq<Sight>, previous: set<Symbol>, p: Params)
    requires Usable(p) && Covers(before, previous)
    requires forall s ::
      TrackIn(checked, s) == Glimpsed(TrackIn(Narrowed(before, Symbols(xs)), s), SightOf(xs, s), p)
    ensures
      var after := Dropped(checked, previous - Symbols(xs));
      && (forall s :: TrackIn(after, s) == Observed(TrackIn(before, s), SightOf(xs, s), p))
      && Covers(after, Symbols(xs))
  {
    hide Followed;
    var after := Dropped(checked, previous - Symbols(xs));
    forall s ensures TrackIn(after, s) == Observed(TrackIn(before, s), SightOf(xs, s), p) {
      SightOfSymbol(xs, s);
      assert TrackIn(checked, s) == Glimpsed(TrackIn(Narrowed(before, Symbols(xs)), s), SightOf(xs, s), p);
    }
    forall s ensures (s in after.peak <==> s in Symbols(xs)) && (s in after.stop <==> s in Symbols(xs))
      ensures (s in after.closing ==> s in Symbols(xs)) && (s in after.native ==> s in Symbols(xs))
    {
      SightOfSymbol(xs, s);
      ObservedIsWhole(TrackIn(before, s), SightOf(xs, s), p);
    }
  }

  /** The loop over a snapshot leaves unseen symbols for the clean-up that follows it. */
  function Glimpsed(t: Track, sight: Option<Sight>, p: Params): Track
    requires Usable(p)
  {
    if sight.None? then t else Followed(t, sight.value, p)
  }

  function Held(xs: seq<Sight>): map<Symbol, int> {
    if xs == [] then map[]
    else
      var d := xs[|xs| - 1].detail;
      Held(xs[..|xs| - 1])[d.symbol := SignedSize(d)]
  }

  lemma {:induction false} HeldSymbols(xs: seq<Sight>)
    ensures Held(xs).Keys == Symbols(xs)
  {
    if xs != [] {
      HeldSymbols(xs[..|xs| - 1]);
      assert xs == xs[..|xs| - 1] + [xs[|xs| - 1]];
    }
  }

  /** Every close of a poll takes the position it closes to zero. */
  lemma {:induction false} ClosesFlatten(b: Books, xs: seq<Sight>, p: Params)
    requires Usable(p) && DistinctSymbols(xs)
    ensures forall c :: c in ClosesOf(b, xs, p) ==>
      c.symbol in Held(xs) && Held(xs)[c.symbol] + Signed(c.side, c.quantity) == 0
  {
    if xs != [] {
      var init, x := xs[..|xs| - 1], xs[|xs| - 1];
      ClosesFlatten(b, init, p);
      HeldSymbols(init);
      assert x.detail.symbol !in Symbols(init);
      hide ReasonAt, TrackIn, Symbols;
    }
  }
}
