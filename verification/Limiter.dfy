/** The sliding-window order-rate limiter of the risk engine. */
module Limiter {
  import opened Arith
  import opened Windows

  function Instant(): real -> real {
    (t: real) => t
  }

  datatype RateWindows = RateWindows(second: seq<real>, minute: seq<real>)

  datatype Limits = Limits(maxPerSecond: real, maxPerMinute: int)

  function Trimmed(w: RateWindows, now: real): RateWindows {
    RateWindows(Trim(w.second, Instant(), now, 1.0), Trim(w.minute, Instant(), now, 60.0))
  }

  predicate HasRoom(w: RateWindows, limits: Limits) {
    |w.second| as real < limits.maxPerSecond && |w.minute| < limits.maxPerMinute
  }

  function Attempt(w: RateWindows, now: real, limits: Limits): RateWindows {
    var t := Trimmed(w, now);
    if HasRoom(t, limits) then RateWindows(t.second + [now], t.minute + [now]) else t
  }

  class TokenRateLimiter {
    const limits: Limits
    var secondWindow: seq<real>
    var minuteWindow: seq<real>

    function View(): RateWindows
      reads this
    {
      RateWindows(secondWindow, minuteWindow)
    }

    constructor (limits: Limits)
      ensures this.limits == limits && View() == RateWindows([], [])
    {
      this.limits := limits;
      secondWindow, minuteWindow := [], [];
    }

    method TryAcquire(now: real) returns (ok: bool)
      modifies this
      ensures View() == Attempt(old(View()), now, limits)
      ensures ok <==> HasRoom(Trimmed(old(View()), now), limits)
    {
      while secondWindow != [] && now - secondWindow[0] > 1.0
        invariant minuteWindow == old(minuteWindow)
        invariant Trim(secondWindow, Instant(), now, 1.0) == Trim(old(secondWindow), Instant(), now, 1.0)
        decreases |secondWindow|
      {
        secondWindow := secondWindow[1..];
      }
      while minuteWindow != [] && now - minuteWindow[0] > 60.0
        invariant secondWindow == Trim(old(secondWindow), Instant(), now, 1.0)
        invariant Trim(minuteWindow, Instant(), now, 60.0) == Trim(old(minuteWindow), Instant(), now, 60.0)
        decreases |minuteWindow|
      {
        minuteWindow := minuteWindow[1..];
      }
      if |secondWindow| as real >= limits.maxPerSecond {
        return false;
      }
      if |minuteWindow| >= limits.maxPerMinute {
        return false;
      }
      secondWindow := secondWindow + [now];
      minuteWindow := minuteWindow + [now];
      return true;
    }
  }

  // ---- Whole histories of attempts ----

  function WindowsAfter(clock: seq<real>, limits: Limits): RateWindows {
    if clock == [] then RateWindows([], [])
    else Attempt(WindowsAfter(clock[..|clock| - 1], limits), clock[|clock| - 1], limits)
  }

  predicate GrantedAt(clock: seq<real>, i: nat, limits: Limits)
    requires i < |clock|
  {
    HasRoom(Trimmed(WindowsAfter(clock[..i], limits), clock[i]), limits)
  }

  /** The times of the attempts that were granted. */
  function Grants(clock: seq<real>, limits: Limits): seq<real> {
    if clock == [] then []
    else
      var n := |clock| - 1;
      Grants(clock[..n], limits) + (if GrantedAt(clock, n, limits) then [clock[n]] else [])
  }

  lemma {:induction false} GrantsOrdered(clock: seq<real>, limits: Limits)
    requires Ordered(clock, Instant())
    ensures Ordered(Grants(clock, limits), Instant())
    ensures forall i :: 0 <= i < |Grants(clock, limits)| ==> Grants(clock, limits)[i] <= clock[|clock| - 1]
  {
    if clock != [] {
      var n := |clock| - 1;
      GrantsOrdered(clock[..n], limits);
      assert n > 0 ==> Instant()(clock[n - 1]) <= Instant()(clock[n]);
    }
  }

  lemma AttemptFollows(g: seq<real>, w: RateWindows, last: real, limits: Limits)
    requires Trimmed(w, last) == RateWindows(Recent(g, Instant(), last, 1.0), Recent(g, Instant(), last, 60.0))
    ensures
      var h := if HasRoom(Trimmed(w, last), limits) then g + [last] else g;
      Attempt(w, last, limits)
      == RateWindows(Recent(h, Instant(), last, 1.0), Recent(h, Instant(), last, 60.0))
  {
    RecentAppend(g, [last], Instant(), last, 1.0);
    RecentAppend(g, [last], Instant(), last, 60.0);
  }

  /** Both windows hold exactly the recent grants of all history. */
  lemma {:induction false} WindowsAreRecent(clock: seq<real>, now: real, limits: Limits)
    requires Ordered(clock + [now], Instant())
    ensures
      var g := Grants(clock, limits);
      Trimmed(WindowsAfter(clock, limits), now)
      == RateWindows(Recent(g, Instant(), now, 1.0), Recent(g, Instant(), now, 60.0))
  {
    if clock != [] {
      var n := |clock| - 1;
      var init, last := clock[..n], clock[n];
      var full := clock + [now];
      assert full[n] == last && full[n + 1] == now;
      assert Instant()(full[n]) <= Instant()(full[n + 1]);
      assert init + [last] == full[..n + 1];
      WindowsAreRecent(init, last, limits);
      AttemptFollows(Grants(init, limits), WindowsAfter(init, limits), last, limits);
      var g := Grants(clock, limits);
      assert Ordered(clock, Instant()) by {
        assert clock == full[..n + 1];
      }
      GrantsOrdered(clock, limits);
      assert g == if GrantedAt(clock, n, limits) then Grants(init, limits) + [last] else Grants(init, limits);
      assert WindowsAfter(clock, limits)
          == RateWindows(Recent(g, Instant(), last, 1.0), Recent(g, Instant(), last, 60.0));
      hide Recent, Trim, Ordered, Grants, Attempt, WindowsAfter;
      TrimLater(g, Instant(), last, now, 1.0);
      TrimLater(g, Instant(), last, now, 60.0);
    }
  }

  /** An attempt is refused exactly when one of the two windows is really full. */
  lemma GrantedIff(clock: seq<real>, now: real, limits: Limits)
    requires Ordered(clock + [now], Instant())
    ensures
      var g := Grants(clock, limits);
      GrantedAt(clock + [now], |clock|, limits)
      <==> |Recent(g, Instant(), now, 1.0)| as real < limits.maxPerSecond
           && |Recent(g, Instant(), now, 60.0)| < limits.maxPerMinute
  {
    assert (clock + [now])[..|clock|] == clock;
    WindowsAreRecent(clock, now, limits);
  }

  /** Counting the grants from `i` on, this instant would exceed a limit. */
  predicate Full(g: seq<real>, i: nat, now: real, limits: Limits)
    requires i <= |g|
  {
    || ((forall k :: i <= k < |g| ==> now - g[k] <= 1.0) && (|g| - i) as real >= limits.maxPerSecond)
    || ((forall k :: i <= k < |g| ==> now - g[k] <= 60.0) && |g| - i >= limits.maxPerMinute)
  }

  /** A refusal always has its cause: enough grants of the last second, or of the last minute, to fill a limit. */
  lemma RefusedForCause(clock: seq<real>, now: real, limits: Limits)
    requires Ordered(clock + [now], Instant())
    ensures !GrantedAt(clock + [now], |clock|, limits) <==>
      exists i :: 0 <= i <= |Grants(clock, limits)| && Full(Grants(clock, limits), i, now, limits)
  {
    hide GrantedAt, Recent, Ordered, Grants, Full;
    GrantedIff(clock, now, limits);
    PrefixOrdered(clock, now);
    GrantsOrdered(clock, limits);
    FullIff(Grants(clock, limits), now, limits);
  }

  lemma PrefixOrdered(clock: seq<real>, now: real)
    requires Ordered(clock + [now], Instant())
    ensures Ordered(clock, Instant())
  {
    assert forall i :: 0 <= i < |clock| ==> (clock + [now])[i] == clock[i];
  }

  lemma FullIff(g: seq<real>, now: real, limits: Limits)
    requires Ordered(g, Instant())
    ensures (exists i :: 0 <= i <= |g| && Full(g, i, now, limits))
       <==> |Recent(g, Instant(), now, 1.0)| as real >= limits.maxPerSecond
            || |Recent(g, Instant(), now, 60.0)| >= limits.maxPerMinute
  {
    hide Recent, Ordered;
    var i := RecentGrants(g, now, 1.0);
    var j := RecentGrants(g, now, 60.0);
    if k :| 0 <= k <= |g| && Full(g, k, now, limits) {
      assert k < i ==> now - g[k] > 1.0;
      assert k < j ==> now - g[k] > 60.0;
    }
    if |g[i..]| as real >= limits.maxPerSecond {
      assert Full(g, i, now, limits);
    }
    if |g[j..]| >= limits.maxPerMinute {
      assert Full(g, j, now, limits);
    }
  }

  lemma RecentGrants(g: seq<real>, now: real, width: real) returns (i: nat)
    requires Ordered(g, Instant())
    ensures i <= |g| && Recent(g, Instant(), now, width) == g[i..]
    ensures forall k :: i <= k < |g| ==> now - g[k] <= width
    ensures forall k :: 0 <= k < i ==> now - g[k] > width
  {
    i := RecentIsSuffix(g, Instant(), now, width);
    assert forall k :: 0 <= k < |g| ==> Instant()(g[k]) == g[k];
  }

  /**
   No burst ever exceeds the limits: any run of grants spanning at most a second
   has at most ceil(max_per_second) of them, and at most a minute max_per_minute.
   */
  lemma {:induction false} NoBurst(clock: seq<real>, i: nat, j: nat, limits: Limits)
    requires Ordered(clock, Instant())
    requires i <= j < |Grants(clock, limits)|
    ensures
      var g := Grants(clock, limits);
      && (g[j] - g[i] <= 1.0 ==> j - i + 1 <= Ceiling(limits.maxPerSecond))
      && (g[j] - g[i] <= 60.0 ==> j - i + 1 <= limits.maxPerMinute)
  {
    var n := |clock| - 1;
    var init, now := clock[..n], clock[n];
    var g := Grants(init, limits);
    assert init + [now] == clock;
    if j < |g| {
      NoBurst(init, i, j, limits);
    } else {
      GrantedIff(init, now, limits);
      GrantsOrdered(init, limits);
      if i < j {
        if now - g[i] <= 1.0 { SuffixIsRecent(g, i, Instant(), now, 1.0); }
        if now - g[i] <= 60.0 { SuffixIsRecent(g, i, Instant(), now, 60.0); }
      }
    }
  }
}
