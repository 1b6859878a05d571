/**
 What the monitor does over whole runs of polls: each stay of a position in the
 snapshots is judged against one frozen stop and one running peak, and is closed
 at most once, at the first poll that warrants it.
 */
module ExitRules {
  import opened Arith
  import opened Core
  import opened Monitor

  // ---- One stay: a position seen in every poll from its first ----

  function FollowAll(xs: seq<Sight>, p: Params): Track
    requires Usable(p)
  {
    if xs == [] then GONE else Followed(FollowAll(xs[..|xs| - 1], p), xs[|xs| - 1], p)
  }

  /** The highest ROI among the polls so far. */
  function PeakRoi(xs: seq<Sight>, p: Params): real
    requires xs != []
  {
    var roi := Roi(xs[|xs| - 1].detail, p);
    if |xs| == 1 then roi else MaxR(PeakRoi(xs[..|xs| - 1], p), roi)
  }

  /** The stop of a stay: a share of the equity read when it was first seen. */
  function StopOf(xs: seq<Sight>, p: Params): real
    requires xs != []
  {
    xs[0].equity * p.stopLossPct / 100.0
  }

  /** The documented exit rule at poll `i`, in terms of the whole stay so far. */
  function DueAt(xs: seq<Sight>, i: nat, p: Params): Option<CloseReason>
    requires Usable(p) && i < |xs|
  {
    ExitReason(p, xs[i].detail.unrealizedPnl, Roi(xs[i].detail, p), StopOf(xs, p), PeakRoi(xs[..i + 1], p))
  }

  predicate DueBefore(xs: seq<Sight>, n: nat, p: Params)
    requires Usable(p) && n <= |xs|
  {
    exists j :: 0 <= j < n && DueAt(xs, j, p).Some?
  }

  lemma {:induction false} StayTrack(xs: seq<Sight>, n: nat, p: Params)
    requires Usable(p) && n <= |xs|
    ensures
      var t := FollowAll(xs[..n], p);
      && (n == 0 ==> t == GONE)
      && (n > 0 ==> t.stop == Some(StopOf(xs, p)) && t.native == xs[0].placed)
      && (t.closing <==> DueBefore(xs, n, p))
      && (n > 0 && !DueBefore(xs, n, p) ==> t.peak == Some(PeakRoi(xs[..n], p)))
  {
    if n > 0 {
      StayTrack(xs, n - 1, p);
      DueNext(xs, n - 1, p);
      PeakNext(xs, n - 1, p);
      assert xs[..n][..n - 1] == xs[..n - 1];
      hide Roi, ExitReason, StopOf, DueBefore, PeakRoi;
      var t := FollowAll(xs[..n - 1], p);
      assert FollowAll(xs[..n], p) == Followed(t, xs[n - 1], p);
      assert FrozenStop(t, xs[n - 1], p) == StopOf(xs, p);
      assert !t.closing ==> PeakWith(t, Roi(xs[n - 1].detail, p)) == PeakRoi(xs[..n], p);
    }
  }

  lemma DueNext(xs: seq<Sight>, n: nat, p: Params)
    requires Usable(p) && n < |xs|
    ensures DueBefore(xs, n + 1, p) <==> DueBefore(xs, n, p) || DueAt(xs, n, p).Some?
  {
    hide DueAt;
  }

  lemma PeakNext(xs: seq<Sight>, n: nat, p: Params)
    requires n < |xs|
    ensures PeakRoi(xs[..n + 1], p)
         == if n == 0 then Roi(xs[n].detail, p) else MaxR(PeakRoi(xs[..n], p), Roi(xs[n].detail, p))
  {
    assert xs[..n + 1][..n] == xs[..n];
  }

  /**
   During one stay a close is submitted at a poll exactly when the exit rule
   first comes due there, and for the reason the rule gives; never again after.
   */
  lemma ClosedOnceWhenDue(xs: seq<Sight>, i: nat, p: Params)
    requires Usable(p) && i < |xs|
    ensures ReasonAt(FollowAll(xs[..i], p), xs[i], p)
         == if DueBefore(xs, i, p) then None else DueAt(xs, i, p)
  {
    StayTrack(xs, i, p);
    assert xs[..i + 1][..i] == xs[..i];
    hide Roi, ExitReason, FollowAll;
  }

  // ---- The exit rule in the terms of its settings ----

  /** A return is the profit in percent of the margin, the notional over the leverage; nothing on no margin. */
  lemma RoiIsReturnOnMargin(d: PositionDetail, p: Params)
    ensures
      var notional := d.quantity as real * p.stepSize(d.symbol) * d.entryPrice;
      if p.leverage > 0.0 && notional > 0.0
      then Roi(d, p) * notional == 100.0 * d.unrealizedPnl * p.leverage
      else Roi(d, p) == 0.0
  {
    var notional := d.quantity as real * p.stepSize(d.symbol) * d.entryPrice;
    if p.leverage > 0.0 {
      var margin := Margin(d, p);
      assert margin == notional / p.leverage;
      QuotientTimes(notional, p.leverage);
      if notional > 0.0 {
        PositiveQuotient(notional, p.leverage);
        ReturnScales(d.unrealizedPnl, margin, p.leverage, notional);
      } else if margin > 0.0 {
        ProductSign(margin, p.leverage);
      }
    }
  }

  lemma PositiveQuotient(x: real, d: real)
    requires 0.0 < x && 0.0 < d
    ensures 0.0 < x / d
  {
  }

  lemma ReturnScales(pnl: real, margin: real, leverage: real, notional: real)
    requires margin != 0.0 && margin * leverage == notional
    ensures (pnl / margin * 100.0) * notional == 100.0 * pnl * leverage
  {
    var share := pnl / margin;
    QuotientTimes(pnl, margin);
    assert (share * 100.0) * (margin * leverage) == 100.0 * (share * margin) * leverage;
  }

  /** The level of a trail that is `k` whole increments past its arm. */
  lemma LevelIsStaircase(p: Params, peak: real, k: int)
    requires Usable(p)
    requires p.armPct + k as real * p.incrementPct <= peak < p.armPct + (k + 1) as real * p.incrementPct
    ensures TrailLevel(p, peak) == p.basePct + k as real * p.stepPct
  {
    FloorOfQuotient(peak - p.armPct, k, p.incrementPct);
  }

  lemma OnSomeStair(p: Params, peak: real) returns (k: int)
    requires Usable(p) && p.armPct <= peak
    ensures 0 <= k
    ensures p.armPct + k as real * p.incrementPct <= peak < p.armPct + (k + 1) as real * p.incrementPct
  {
    var q := (peak - p.armPct) / p.incrementPct;
    k := q.Floor;
    ScaleQuotient(peak - p.armPct, p.incrementPct);
    if q < 0.0 {
      ScaleGrows(q, 0.0, p.incrementPct);
    }
    ScaleGrows(k as real, q, p.incrementPct);
    ScaleGrows(q, (k + 1) as real, p.incrementPct);
  }

  /** Poll `j` shows the best return of the stay up to poll `i`. */
  predicate Best(xs: seq<Sight>, j: nat, i: nat, p: Params) {
    j <= i < |xs| && forall l :: 0 <= l <= i ==> Roi(xs[l].detail, p) <= Roi(xs[j].detail, p)
  }

  lemma {:induction false} PeakIsBest(xs: seq<Sight>, i: nat, p: Params) returns (j: nat)
    requires i < |xs|
    ensures Best(xs, j, i, p) && PeakRoi(xs[..i + 1], p) == Roi(xs[j].detail, p)
  {
    hide Roi;
    PeakNext(xs, i, p);
    if i == 0 {
      j := 0;
    } else {
      j := PeakIsBest(xs, i - 1, p);
      if Roi(xs[j].detail, p) < Roi(xs[i].detail, p) {
        j := i;
      }
    }
  }

  /** The loss at poll `i` is at least the stop's share of the equity read at the first poll. */
  predicate LosesTooMuch(xs: seq<Sight>, i: nat, p: Params)
    requires i < |xs|
  {
    100.0 * xs[i].detail.unrealizedPnl <= -(xs[0].equity * p.stopLossPct)
  }

  /** The best return of the stay is `k` increments past the arm, and the return now at most the level there. */
  predicate GivesBack(xs: seq<Sight>, i: nat, j: nat, k: nat, p: Params)
    requires j <= i < |xs|
  {
    var peak := Roi(xs[j].detail, p);
    && p.armPct + k as real * p.incrementPct <= peak < p.armPct + (k + 1) as real * p.incrementPct
    && Roi(xs[i].detail, p) <= p.basePct + k as real * p.stepPct
  }

  /**
   When and why a stay is closed: on the loss first; else at the cap; else when some poll
   of it, its best, reached the arm and the return has fallen back to the level that the
   increments passed by then have earned.
   */
  lemma DueIff(xs: seq<Sight>, i: nat, p: Params)
    requires Usable(p) && i < |xs|
    ensures
      var due, roi := DueAt(xs, i, p), Roi(xs[i].detail, p);
      && (due == Some(StopLoss) <==> LosesTooMuch(xs, i, p))
      && (due == Some(ProfitCap) <==> !LosesTooMuch(xs, i, p) && p.capPct <= roi)
      && (due == Some(TrailingProfit)
          <==> !LosesTooMuch(xs, i, p) && roi < p.capPct
               && exists j: nat, k: nat :: Best(xs, j, i, p) && GivesBack(xs, i, j, k, p))
  {
    hide Roi, PeakRoi, TrailLevel, LosesTooMuch, GivesBack;
    StopIsShare(xs, i, p);
    var best := PeakIsBest(xs, i, p);
    TrailIsStaircase(xs, i, best, p);
  }

  lemma StopIsShare(xs: seq<Sight>, i: nat, p: Params)
    requires i < |xs|
    ensures LosesTooMuch(xs, i, p) <==> xs[i].detail.unrealizedPnl <= -StopOf(xs, p)
  {
    assert StopOf(xs, p) * 100.0 == xs[0].equity * p.stopLossPct;
  }

  lemma TrailIsStaircase(xs: seq<Sight>, i: nat, best: nat, p: Params)
    requires Usable(p) && Best(xs, best, i, p)
    ensures
      var peak := Roi(xs[best].detail, p);
      (exists j: nat, k: nat :: Best(xs, j, i, p) && GivesBack(xs, i, j, k, p))
      <==> p.armPct <= peak && Roi(xs[i].detail, p) <= TrailLevel(p, peak)
  {
    hide Roi, TrailLevel;
    var peak := Roi(xs[best].detail, p);
    if p.armPct <= peak && Roi(xs[i].detail, p) <= TrailLevel(p, peak) {
      var k := OnSomeStair(p, peak);
      LevelIsStaircase(p, peak, k);
      assert Best(xs, best, i, p) && GivesBack(xs, i, best, k, p);
    }
    if j: nat, k: nat :| Best(xs, j, i, p) && GivesBack(xs, i, j, k, p) {
      assert Roi(xs[j].detail, p) == peak;
      LevelIsStaircase(p, peak, k);
      NotBelowArm(p.armPct, k, p.incrementPct);
    }
  }

  lemma NotBelowArm(arm: real, k: nat, increment: real)
    requires 0.0 < increment
    ensures arm <= arm + k as real * increment
  {
  }

  // ---- Whole runs of polls ----

  type Poll = xs: seq<Sight> | DistinctSymbols(xs) witness []

  function Tracked(polls: seq<Poll>, s: Symbol, p: Params): Track
    requires Usable(p)
  {
    if polls == [] then GONE
    else Observed(Tracked(polls[..|polls| - 1], s, p), SightOf(polls[|polls| - 1], s), p)
  }

  /** `s` is seen in each of the polls from `a` up to `b`, and `a` starts the stay. */
  predicate Stay(polls: seq<Poll>, s: Symbol, a: nat, b: nat) {
    && a <= b <= |polls|
    && (a > 0 ==> SightOf(polls[a - 1], s).None?)
    && forall i :: a <= i < b ==> SightOf(polls[i], s).Some?
  }

  function SightsOf(polls: seq<Poll>, s: Symbol, a: nat, b: nat): (xs: seq<Sight>)
    requires Stay(polls, s, a, b)
    ensures |xs| == b - a
  {
    seq(b - a, i requires 0 <= i < b - a => SightOf(polls[a + i], s).value)
  }

  /** What came before a stay does not matter. */
  lemma {:induction false} StayIsFresh(polls: seq<Poll>, s: Symbol, a: nat, b: nat, p: Params)
    requires Usable(p) && Stay(polls, s, a, b)
    ensures Tracked(polls[..b], s, p) == FollowAll(SightsOf(polls, s, a, b), p)
  {
    if b == a {
      if a > 0 {
        assert polls[..a][..a - 1] == polls[..a - 1];
      }
    } else {
      assert polls[..b][..b - 1] == polls[..b - 1];
      StayIsFresh(polls, s, a, b - 1, p);
      var xs := SightsOf(polls, s, a, b);
      assert xs[..b - a - 1] == SightsOf(polls, s, a, b - 1);
      assert xs[b - a - 1] == SightOf(polls[b - 1], s).value;
    }
  }

  /**
   Over any run of polls and any stay in it, the close decided for the symbol at
   each poll is the one the exit rule gives for that stay alone, at its first due
   poll only; the frozen stop and the native order are those of its first poll.
   */
  lemma ExitsFollowTheRule(polls: seq<Poll>, s: Symbol, a: nat, b: nat, i: nat, p: Params)
    requires Usable(p) && Stay(polls, s, a, b) && a <= i < b
    ensures
      var xs := SightsOf(polls, s, a, b);
      && ReasonAt(Tracked(polls[..i], s, p), SightOf(polls[i], s).value, p)
         == (if DueBefore(xs, i - a, p) then None else DueAt(xs, i - a, p))
      && Tracked(polls[..i + 1], s, p).stop == Some(StopOf(xs, p))
      && Tracked(polls[..i + 1], s, p).native == xs[0].placed
  {
    var xs := SightsOf(polls, s, a, b);
    assert SightsOf(polls, s, a, i) == xs[..i - a];
    assert SightsOf(polls, s, a, i + 1) == xs[..i + 1 - a];
    StayIsFresh(polls, s, a, i, p);
    StayIsFresh(polls, s, a, i + 1, p);
    hide Tracked, FollowAll, ReasonAt, DueBefore, DueAt, SightOf;
    ClosedOnceWhenDue(xs, i - a, p);
    StayTrack(xs, i + 1 - a, p);
  }

  // ---- The orders a run of polls submits ----

  /** The orders among these that close `s`. */
  function ClosesFor(cs: seq<CloseOrder>, s: Symbol): seq<CloseOrder> {
    if cs == [] then []
    else
      var c := cs[|cs| - 1];
      ClosesFor(cs[..|cs| - 1], s) + (if c.symbol == s then [c] else [])
  }

  lemma OneMoreClose(cs: seq<CloseOrder>, c: CloseOrder, s: Symbol)
    ensures ClosesFor(cs + [c], s) == ClosesFor(cs, s) + (if c.symbol == s then [c] else [])
  {
    assert (cs + [c])[..|cs|] == cs;
  }

  function OrderFor(sight: Option<Sight>, reason: Option<CloseReason>): seq<CloseOrder> {
    if sight.Some? && reason.Some? then [CloseFor(sight.value, reason.value)] else []
  }

  function ReasonFor(t: Track, sight: Option<Sight>, p: Params): Option<CloseReason>
    requires Usable(p)
  {
    if sight.None? then None else ReasonAt(t, sight.value, p)
  }

  /** A poll submits for a symbol the one order its own track calls for, or none. */
  lemma {:induction false} ClosesPerSymbol(b: Books, xs: seq<Sight>, s: Symbol, p: Params)
    requires Usable(p) && DistinctSymbols(xs)
    ensures ClosesFor(ClosesOf(b, xs, p), s) == OrderFor(SightOf(xs, s), ReasonFor(TrackIn(b, s), SightOf(xs, s), p))
  {
    if xs != [] {
      var init, x := xs[..|xs| - 1], xs[|xs| - 1];
      ClosesPerSymbol(b, init, s, p);
      SightOfSymbol(init, s);
      assert x.detail.symbol == s ==> SightOf(init, s).None?;
      var cs, reason := ClosesOf(b, init, p), ReasonAt(TrackIn(b, x.detail.symbol), x, p);
      hide ReasonAt, TrackIn;
      if reason.Some? {
        assert ClosesOf(b, xs, p) == cs + [CloseFor(x, reason.value)];
        OneMoreClose(cs, CloseFor(x, reason.value), s);
      } else {
        assert ClosesOf(b, xs, p) == cs + [] == cs;
      }
    }
  }

  /** The monitor's dictionaries before and after each poll of a run. */
  ghost predicate Polled(bs: seq<Books>, polls: seq<Poll>, p: Params)
    requires Usable(p)
  {
    && |bs| == |polls| + 1
    && bs[0] == Books({}, map[], map[], map[])
    && forall i, s :: 0 <= i < |polls| ==>
         TrackIn(bs[i + 1], s) == Observed(TrackIn(bs[i], s), SightOf(polls[i], s), p)
  }

  lemma {:induction false} PolledIsTracked(bs: seq<Books>, polls: seq<Poll>, s: Symbol, i: nat, p: Params)
    requires Usable(p) && Polled(bs, polls, p) && i <= |polls|
    ensures TrackIn(bs[i], s) == Tracked(polls[..i], s, p)
  {
    if i > 0 {
      PolledIsTracked(bs, polls, s, i - 1, p);
      assert polls[..i][..i - 1] == polls[..i - 1];
    }
  }

  /** The orders for `s` submitted by the polls from `a` up to `b`, in order. */
  function Submitted(bs: seq<Books>, polls: seq<Poll>, s: Symbol, a: nat, b: nat, p: Params): seq<CloseOrder>
    requires Usable(p) && a <= b <= |polls| && |bs| == |polls| + 1
  {
    if a == b then []
    else Submitted(bs, polls, s, a, b - 1, p) + ClosesFor(ClosesOf(bs[b - 1], polls[b - 1], p), s)
  }

  /** The order closes this position, all of it. */
  predicate Flattens(c: CloseOrder, d: PositionDetail) {
    c.symbol == d.symbol && Signed(d.side, d.quantity) + Signed(c.side, c.quantity) == 0
  }

  /** The order a stay calls for: it closes the position of the first due poll, if there is one. */
  ghost predicate IsStayOrder(cs: seq<CloseOrder>, xs: seq<Sight>, n: nat, p: Params)
    requires Usable(p) && n <= |xs|
  {
    if DueBefore(xs, n, p)
    then |cs| == 1 && exists k :: 0 <= k < n && !DueBefore(xs, k, p) && DueAt(xs, k, p) == Some(cs[0].reason)
                                  && Flattens(cs[0], xs[k].detail)
    else cs == []
  }

  lemma NextStayOrder(cs: seq<CloseOrder>, xs: seq<Sight>, n: nat, p: Params)
    requires Usable(p) && n < |xs| && IsStayOrder(cs, xs, n, p)
    ensures IsStayOrder(cs + OrderFor(Some(xs[n]), if DueBefore(xs, n, p) then None else DueAt(xs, n, p)), xs, n + 1, p)
  {
    hide DueAt;
    DueNext(xs, n, p);
    if !DueBefore(xs, n, p) && DueAt(xs, n, p).Some? {
      assert Flattens(CloseFor(xs[n], DueAt(xs, n, p).value), xs[n].detail);
    }
  }

  /** What one poll of a stay submits for its symbol. */
  lemma PollOfStay(bs: seq<Books>, polls: seq<Poll>, s: Symbol, a: nat, b: nat, i: nat, p: Params)
    requires Usable(p) && Polled(bs, polls, p) && Stay(polls, s, a, b) && a <= i < b
    ensures
      var xs := SightsOf(polls, s, a, b);
      ClosesFor(ClosesOf(bs[i], polls[i], p), s)
      == OrderFor(Some(xs[i - a]), if DueBefore(xs, i - a, p) then None else DueAt(xs, i - a, p))
  {
    ClosesPerSymbol(bs[i], polls[i], s, p);
    PolledIsTracked(bs, polls, s, i, p);
    ExitsFollowTheRule(polls, s, a, b, i, p);
    hide OrderFor, DueBefore, DueAt, Tracked, Polled, ClosesFor, ClosesOf, ReasonAt, StopOf, TrackIn;
  }

  /** The orders submitted up to poll `n` of a stay are those the stay calls for. */
  ghost predicate OrdersFollow(bs: seq<Books>, polls: seq<Poll>, s: Symbol, a: nat, b: nat, n: nat, p: Params)
    requires Usable(p) && |bs| == |polls| + 1 && Stay(polls, s, a, b) && a <= n <= b
  {
    IsStayOrder(Submitted(bs, polls, s, a, n, p), SightsOf(polls, s, a, b), n - a, p)
  }

  lemma SubmittedNext(bs: seq<Books>, polls: seq<Poll>, s: Symbol, a: nat, n: nat, p: Params)
    requires Usable(p) && |bs| == |polls| + 1 && a <= n < |polls|
    ensures Submitted(bs, polls, s, a, n + 1, p)
         == Submitted(bs, polls, s, a, n, p) + ClosesFor(ClosesOf(bs[n], polls[n], p), s)
  {
  }

  lemma NoOrdersYet(bs: seq<Books>, polls: seq<Poll>, s: Symbol, a: nat, b: nat, p: Params)
    requires Usable(p) && |bs| == |polls| + 1 && Stay(polls, s, a, b)
    ensures OrdersFollow(bs, polls, s, a, b, a, p)
  {
    hide DueAt, ClosesOf, ClosesFor, Stay, SightsOf;
  }

  lemma OrdersFollowOn(bs: seq<Books>, polls: seq<Poll>, s: Symbol, a: nat, b: nat, n: nat, p: Params)
    requires Usable(p) && Polled(bs, polls, p) && Stay(polls, s, a, b) && a <= n < b
    requires OrdersFollow(bs, polls, s, a, b, n, p)
    ensures OrdersFollow(bs, polls, s, a, b, n + 1, p)
  {
    hide *;
    StayFits(bs, polls, s, a, b, p);
    SubmittedNext(bs, polls, s, a, n, p);
    PollOfStay(bs, polls, s, a, b, n, p);
    OrdersFollowFrom(bs, polls, s, a, b, n, p);
  }

  lemma OrdersFollowFrom(bs: seq<Books>, polls: seq<Poll>, s: Symbol, a: nat, b: nat, n: nat, p: Params)
    requires Usable(p) && |bs| == |polls| + 1 && Stay(polls, s, a, b) && a <= n < b <= |polls|
    requires OrdersFollow(bs, polls, s, a, b, n, p)
    requires
      var xs := SightsOf(polls, s, a, b);
      Submitted(bs, polls, s, a, n + 1, p) == Submitted(bs, polls, s, a, n, p)
        + OrderFor(Some(xs[n - a]), if DueBefore(xs, n - a, p) then None else DueAt(xs, n - a, p))
    ensures OrdersFollow(bs, polls, s, a, b, n + 1, p)
  {
    hide IsStayOrder, Submitted, SightsOf, OrderFor, DueBefore, DueAt, Stay, DistinctSymbols;
    NextStayOrder(Submitted(bs, polls, s, a, n, p), SightsOf(polls, s, a, b), n - a, p);
  }

  lemma StayFits(bs: seq<Books>, polls: seq<Poll>, s: Symbol, a: nat, b: nat, p: Params)
    requires Usable(p) && Polled(bs, polls, p) && Stay(polls, s, a, b)
    ensures |bs| == |polls| + 1 && b <= |polls|
  {
    hide SightOf, TrackIn, Observed, DistinctSymbols;
  }

  /**
   The orders that the polls of a stay submit for its symbol, up to any poll of it, are
   exactly one, for the first poll at which the exit rule is due, or none if it is not.
   */
  lemma {:induction false} OneOrderPerStay(bs: seq<Books>, polls: seq<Poll>, s: Symbol, a: nat, b: nat, n: nat,
                                           p: Params)
    requires Usable(p) && Polled(bs, polls, p) && Stay(polls, s, a, b) && a <= n <= b
    ensures OrdersFollow(bs, polls, s, a, b, n, p)
  {
    hide *;
    StayFits(bs, polls, s, a, b, p);
    if a == n {
      NoOrdersYet(bs, polls, s, a, b, p);
    } else {
      OneOrderPerStay(bs, polls, s, a, b, n - 1, p);
      OrdersFollowOn(bs, polls, s, a, b, n - 1, p);
    }
  }

  // ---- The trailing level ----

  lemma StepsScale(m: int, n: int, unit: real)
    requires m <= n && 0.0 <= unit
    ensures m as real * unit <= n as real * unit
  {
  }

  /** The whole increments a peak lies past the arm. */
  function StepsTo(p: Params, peak: real): int
    requires Usable(p)
  {
    ((peak - p.armPct) / p.incrementPct).Floor
  }

  lemma StepsGrow(p: Params, low: real, high: real)
    requires Usable(p) && low <= high
    ensures StepsTo(p, low) <= StepsTo(p, high)
  {
    var a, b := (low - p.armPct) / p.incrementPct, (high - p.armPct) / p.incrementPct;
    ScaleQuotient(low - p.armPct, p.incrementPct);
    ScaleQuotient(high - p.armPct, p.incrementPct);
    hide Scale;
    if b < a {
      ScaleGrows(b, a, p.incrementPct);
    }
  }

  /** A higher peak never lowers the level, as long as the step is not negative. */
  lemma LevelNeverFalls(p: Params, low: real, high: real)
    requires Usable(p) && 0.0 <= p.stepPct && low <= high
    ensures TrailLevel(p, low) <= TrailLevel(p, high)
  {
    StepsGrow(p, low, high);
    StepsScale(StepsTo(p, low), StepsTo(p, high), p.stepPct);
  }

  /** The trail starts at its base the moment the peak reaches the arm. */
  lemma LevelAtArm(p: Params)
    requires Usable(p)
    ensures TrailLevel(p, p.armPct) == p.basePct
  {
    var q := (p.armPct - p.armPct) / p.incrementPct;
    assert q == 0.0;
    assert q.Floor as real * p.stepPct == 0.0;
  }

  // ---- Can a new peak be its own exit? ----

  /** The peak `k` whole increments past the arm, and the level held there. */
  function PeakAfter(p: Params, k: nat): real {
    p.armPct + Scale(k as real, p.incrementPct)
  }

  function LevelAfter(p: Params, k: nat): real {
    p.basePct + Scale(k as real, p.stepPct)
  }

  /** The last whole increment past the arm that stays under the cap. */
  function LastStep(p: Params): int
    requires Usable(p)
  {
    Ceiling((p.capPct - p.armPct) / p.incrementPct) - 1
  }

  lemma StepsAreWhole(p: Params, peak: real)
    requires Usable(p) && p.armPct <= peak
    ensures 0 <= StepsTo(p, peak)
    ensures PeakAfter(p, StepsTo(p, peak)) <= peak && TrailLevel(p, peak) == LevelAfter(p, StepsTo(p, peak))
  {
    var q := (peak - p.armPct) / p.incrementPct;
    ScaleQuotient(peak - p.armPct, p.incrementPct);
    if q < 0.0 {
      ScaleGrows(q, 0.0, p.incrementPct);
    }
    ScaleGrows(q.Floor as real, q, p.incrementPct);
  }

  /** A peak whole increments past the arm holds exactly that level. */
  lemma PeakOfSteps(p: Params, k: nat)
    requires Usable(p)
    ensures p.armPct <= PeakAfter(p, k) && TrailLevel(p, PeakAfter(p, k)) == LevelAfter(p, k)
  {
    ScaleGrows(0.0, k as real, p.incrementPct);
    ScaleGrows(k as real, (k + 1) as real, p.incrementPct);
    FloorOfQuotient(PeakAfter(p, k) - p.armPct, k, p.incrementPct);
  }

  lemma LastStepIsLast(p: Params, k: nat)
    requires Usable(p)
    ensures PeakAfter(p, k) < p.capPct <==> k <= LastStep(p)
  {
    var q := (p.capPct - p.armPct) / p.incrementPct;
    ScaleQuotient(p.capPct - p.armPct, p.incrementPct);
    hide Scale;
    if k as real < q {
      ScaleGrows(k as real, q, p.incrementPct);
    } else {
      ScaleGrows(q, k as real, p.incrementPct);
    }
  }

  /** After `k` increments the level is still below the peak. */
  predicate LeavesRoom(p: Params, k: nat) {
    LevelAfter(p, k) < PeakAfter(p, k)
  }

  /** Room at the first and at the last increment under the cap, if there is one. */
  predicate Gentle(p: Params)
    requires Usable(p)
  {
    0 <= LastStep(p) ==> LeavesRoom(p, 0) && LeavesRoom(p, LastStep(p))
  }

  /** Both the level and the peak are linear in the increments. */
  lemma RoomInBetween(p: Params, k: nat, last: nat)
    requires k <= last && LeavesRoom(p, 0) && LeavesRoom(p, last)
    ensures LeavesRoom(p, k)
  {
    var gain, room := p.stepPct - p.incrementPct, p.armPct - p.basePct;
    RoomIsLinear(p, 0);
    RoomIsLinear(p, k);
    RoomIsLinear(p, last);
    hide LeavesRoom;
    if 0.0 < gain {
      ScaleGrows(k as real, last as real, gain);
    } else if gain < 0.0 {
      ScaleGrows(0.0, k as real, -gain);
      ScaleMirror(k as real, gain);
    }
  }

  lemma RoomIsLinear(p: Params, k: nat)
    ensures LeavesRoom(p, k) <==> Scale(k as real, p.stepPct - p.incrementPct) < p.armPct - p.basePct
  {
    ScaleMinus(k as real, p.stepPct, p.incrementPct);
    hide Scale;
  }

  lemma ScaleMinus(x: real, a: real, b: real)
    ensures Scale(x, a - b) == Scale(x, a) - Scale(x, b)
  {
  }

  lemma ScaleMirror(x: real, unit: real)
    ensures Scale(x, -unit) == -Scale(x, unit)
  {
  }

  /** Every armed peak under the cap lies above its level, exactly for gentle settings. */
  lemma PeaksClearIff(p: Params)
    requires Usable(p)
    ensures (forall peak :: p.armPct <= peak < p.capPct ==> TrailLevel(p, peak) < peak) <==> Gentle(p)
  {
    hide LevelAfter, PeakAfter, LastStep, TrailLevel;
    if Gentle(p) {
      forall peak | p.armPct <= peak < p.capPct ensures TrailLevel(p, peak) < peak {
        var k := StepsTo(p, peak);
        StepsAreWhole(p, peak);
        LastStepIsLast(p, k);
        RoomInBetween(p, k, LastStep(p));
      }
    } else {
      var k := if LeavesRoom(p, 0) then LastStep(p) else 0;
      PeakOfSteps(p, k);
      LastStepIsLast(p, k);
    }
  }

  /** Poll `i` of a stay sets the peak of the stay and closes it on the trailing level. */
  predicate PeakFires(xs: seq<Sight>, i: nat, p: Params)
    requires Usable(p)
  {
    && i < |xs|
    && Roi(xs[i].detail, p) == PeakRoi(xs[..i + 1], p)
    && ReasonAt(FollowAll(xs[..i], p), xs[i], p) == Some(TrailingProfit)
  }

  /** What the settings and the exchange guarantee: some leverage, a stop, a lot size. */
  predicate Tradable(p: Params, s: Symbol) {
    Usable(p) && 0.0 < p.leverage && 0.0 < p.stopLossPct && 0.0 < p.stepSize(s)
  }

  /** A first sight of `s` at a return of `roi`, with an equity that keeps its stop far away. */
  function SightAt(p: Params, s: Symbol, roi: real): Sight
    requires Tradable(p, s)
  {
    var detail := PositionDetail(s, Buy, 1, p.leverage / p.stepSize(s), roi / 100.0);
    Sight(detail, (1.0 + MaxR(roi, -roi)) / p.stopLossPct, None)
  }

  lemma LotCosts(stepSize: real, leverage: real)
    requires 0.0 < stepSize && 0.0 < leverage
    ensures 1 as real * stepSize * (leverage / stepSize) / leverage == 1.0
  {
    assert stepSize * (leverage / stepSize) == leverage;
  }

  lemma SightHasRoi(p: Params, s: Symbol, roi: real)
    requires Tradable(p, s)
    ensures Roi(SightAt(p, s, roi).detail, p) == roi
    ensures SightAt(p, s, roi).detail.unrealizedPnl > -StopOf([SightAt(p, s, roi)], p)
  {
    var d := SightAt(p, s, roi).detail;
    LotCosts(p.stepSize(s), p.leverage);
    assert Margin(d, p) == 1.0;
    assert SightAt(p, s, roi).equity * p.stopLossPct == 1.0 + MaxR(roi, -roi);
  }

  /** At an armed return under the cap and at its level, a first sight closes on its own peak. */
  lemma FirstSightFires(p: Params, s: Symbol, roi: real)
    requires Tradable(p, s) && p.armPct <= roi < p.capPct && roi <= TrailLevel(p, roi)
    ensures PeakFires([SightAt(p, s, roi)], 0, p)
  {
    SightHasRoi(p, s, roi);
    var xs := [SightAt(p, s, roi)];
    assert xs[..1] == xs && xs[..0] == [];
    assert FrozenStop(GONE, xs[0], p) == StopOf(xs, p);
    hide Roi, TrailLevel, SightAt;
  }

  lemma FiringNeedsLevel(xs: seq<Sight>, i: nat, p: Params)
    requires Usable(p) && PeakFires(xs, i, p)
    ensures p.armPct <= Roi(xs[i].detail, p) < p.capPct
    ensures Roi(xs[i].detail, p) <= TrailLevel(p, Roi(xs[i].detail, p))
  {
    ClosedOnceWhenDue(xs, i, p);
    hide Roi, TrailLevel, FollowAll, DueBefore;
  }

  /**
   No poll that sets the peak of a stay ever closes it on the trailing level, over all
   stays of a symbol, if and only if the level lies below the peak at the first and at
   the last increment under the cap. The settings check only that the base does not
   exceed the arm.
   */
  lemma NewPeakNeverFiresIff(p: Params, s: Symbol)
    requires Tradable(p, s)
    ensures (forall xs, i :: !PeakFires(xs, i, p)) <==> Gentle(p)
  {
    hide Gentle, TrailLevel, PeakFires, Roi;
    PeaksClearIff(p);
    if Gentle(p) {
      forall xs, i ensures !PeakFires(xs, i, p) {
        if PeakFires(xs, i, p) {
          FiringNeedsLevel(xs, i, p);
        }
      }
    } else {
      var roi :| p.armPct <= roi < p.capPct && TrailLevel(p, roi) >= roi;
      FirstSightFires(p, s, roi);
    }
  }

  /** What the validators of the scanner's settings accept. */
  predicate Accepted(p: Params) {
    && 1.0 <= p.leverage <= 125.0
    && 0.0 < p.stopLossPct <= 100.0
    && 0.0 < p.incrementPct && p.basePct <= p.armPct < p.capPct
  }

  function Settings(arm: real, base: real, step: real, increment: real, cap: real): Params {
    Params(1.0, 10.0, (s: Symbol) => 1.0, arm, base, step, increment, cap)
  }

  /**
   Accepted settings under which a position is closed by the poll that shows its best
   return yet: at the arm when the base equals it, and past it when the step is steep.
   */
  lemma NewPeakFires()
    ensures
      var flush, steep := Settings(30.0, 30.0, 2.0, 5.0, 80.0), Settings(10.0, 5.0, 1.5, 1.0, 80.0);
      && Accepted(flush) && PeakFires([SightAt(flush, 0, 30.0)], 0, flush)
      && Accepted(steep) && PeakFires([SightAt(steep, 0, 20.0)], 0, steep)
  {
    var flush, steep := Settings(30.0, 30.0, 2.0, 5.0, 80.0), Settings(10.0, 5.0, 1.5, 1.0, 80.0);
    LevelAtArm(flush);
    FirstSightFires(flush, 0, 30.0);
    assert TrailLevel(steep, 20.0) == 20.0;
    FirstSightFires(steep, 0, 20.0);
  }

  /** A step above the increment does no harm when the cap comes early enough. */
  lemma SteepUnderLowCap()
    ensures
      var p := Settings(10.0, 5.0, 1.5, 1.0, 12.0);
      Accepted(p) && forall xs, i :: !PeakFires(xs, i, p)
  {
    var p := Settings(10.0, 5.0, 1.5, 1.0, 12.0);
    assert LastStep(p) == 1;
    assert Gentle(p);
    hide PeakFires;
    NewPeakNeverFiresIff(p, 0);
  }
}
