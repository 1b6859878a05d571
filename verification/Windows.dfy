/**
 Sliding time windows kept by trimming the stale front of a queue. For a clock
 that never runs backwards, trimming keeps exactly the recent part of history.
 */
module Windows {
  import opened Core

  /** Pops from the front while the front is older than `width`. */
  function Trim<T>(q: seq<T>, time: T -> real, now: real, width: real): seq<T> {
    if q != [] && now - time(q[0]) > width then Trim(q[1..], time, now, width) else q
  }

  /** The declarative window: everything not older than `width`, in order. */
  function Recent<T>(h: seq<T>, time: T -> real, now: real, width: real): seq<T> {
    if h == [] then []
    else (if now - time(h[0]) > width then [] else [h[0]]) + Recent(h[1..], time, now, width)
  }

  predicate Ordered<T>(h: seq<T>, time: T -> real) {
    forall i, j :: 0 <= i < j < |h| ==> time(h[i]) <= time(h[j])
  }

  lemma {:induction false} TrimIsRecent<T>(h: seq<T>, time: T -> real, now: real, width: real)
    requires Ordered(h, time)
    ensures Trim(h, time, now, width) == Recent(h, time, now, width)
  {
    if h != [] {
      if now - time(h[0]) > width {
        TrimIsRecent(h[1..], time, now, width);
      } else {
        AllRecent(h, time, now, width);
      }
    }
  }

  lemma {:induction false} AllRecent<T>(h: seq<T>, time: T -> real, now: real, width: real)
    requires forall i :: 0 <= i < |h| ==> now - time(h[i]) <= width
    ensures Recent(h, time, now, width) == h
  {
    if h != [] {
      AllRecent(h[1..], time, now, width);
    }
  }

  lemma {:induction false} RecentAppend<T>(g: seq<T>, h: seq<T>, time: T -> real, now: real, width: real)
    ensures Recent(g + h, time, now, width) == Recent(g, time, now, width) + Recent(h, time, now, width)
  {
    if g == [] {
      assert g + h == h;
    } else {
      var head := if now - time(g[0]) > width then [] else [g[0]];
      var tail, after := Recent(g[1..], time, now, width), Recent(h, time, now, width);
      assert (g + h)[1..] == g[1..] + h;
      RecentAppend(g[1..], h, time, now, width);
      assert head + (tail + after) == (head + tail) + after;
    }
  }

  /** What an earlier trim dropped would be dropped later anyway. */
  lemma {:induction false} RecentOfRecent<T>(h: seq<T>, time: T -> real, then_: real, now: real, width: real)
    requires then_ <= now
    ensures Recent(Recent(h, time, then_, width), time, now, width) == Recent(h, time, now, width)
  {
    if h != [] {
      RecentOfRecent(h[1..], time, then_, now, width);
      var rest := Recent(h[1..], time, then_, width);
      if then_ - time(h[0]) <= width {
        assert ([h[0]] + rest)[1..] == rest;
      } else {
        assert [] + rest == rest;
      }
    }
  }

  predicate Between<T>(r: seq<T>, time: T -> real, lo: real, hi: real) {
    forall i :: 0 <= i < |r| ==> lo <= time(r[i]) <= hi
  }

  lemma {:induction false} RecentBetween<T>(h: seq<T>, time: T -> real, now: real, width: real, lo: real, hi: real)
    requires Between(h, time, lo, hi)
    ensures Between(Recent(h, time, now, width), time, MaxR(lo, now - width), hi)
  {
    if h != [] {
      RecentBetween(h[1..], time, now, width, lo, hi);
    }
  }

  lemma {:induction false} RecentOrdered<T>(h: seq<T>, time: T -> real, now: real, width: real)
    requires Ordered(h, time)
    ensures Ordered(Recent(h, time, now, width), time)
  {
    if h != [] {
      RecentOrdered(h[1..], time, now, width);
      RecentBetween(h[1..], time, now, width, time(h[0]), time(h[|h| - 1]));
    }
  }

  /** Feeding one more element to a window keeps it the window of all history. */
  lemma TrimFollows<T>(h: seq<T>, kept: seq<T>, x: T, time: T -> real, then_: real, width: real)
    requires Ordered(h + [x], time) && then_ <= time(x)
    requires h != [] ==> time(h[|h| - 1]) <= then_
    requires kept == Recent(h, time, then_, width)
    ensures Trim(kept + [x], time, time(x), width) == Recent(h + [x], time, time(x), width)
  {
    assert forall i :: 0 <= i < |h| ==> h[i] == (h + [x])[i];
    assert Ordered(h, time);
    RecentOrdered(h, time, then_, width);
    if h != [] {
      RecentBetween(h, time, then_, width, time(h[0]), time(h[|h| - 1]));
    }
    assert Ordered(kept + [x], time);
    hide Recent, Trim, Ordered;
    TrimIsRecent(kept + [x], time, time(x), width);
    RecentAppend(kept, [x], time, time(x), width);
    RecentOfRecent(h, time, then_, time(x), width);
    RecentAppend(h, [x], time, time(x), width);
  }

  /** Trimming a window again, later, gives the later window. */
  lemma TrimLater<T>(h: seq<T>, time: T -> real, then_: real, now: real, width: real)
    requires Ordered(h, time) && then_ <= now
    ensures Trim(Recent(h, time, then_, width), time, now, width) == Recent(h, time, now, width)
  {
    RecentOrdered(h, time, then_, width);
    TrimIsRecent(Recent(h, time, then_, width), time, now, width);
    RecentOfRecent(h, time, then_, now, width);
  }

  /** Everything from a recent element on is in the window. */
  lemma SuffixIsRecent<T>(h: seq<T>, i: nat, time: T -> real, now: real, width: real)
    requires Ordered(h, time) && i < |h| && now - time(h[i]) <= width
    ensures |Recent(h, time, now, width)| >= |h| - i
  {
    assert h == h[..i] + h[i..];
    RecentAppend(h[..i], h[i..], time, now, width);
    AllRecent(h[i..], time, now, width);
  }

  /** Of an ordered history the window is all that comes from some element on, and is recent. */
  lemma {:induction false} RecentIsSuffix<T>(h: seq<T>, time: T -> real, now: real, width: real) returns (i: nat)
    requires Ordered(h, time)
    ensures i <= |h| && Recent(h, time, now, width) == h[i..]
    ensures forall k :: i <= k < |h| ==> now - time(h[k]) <= width
    ensures forall k :: 0 <= k < i ==> now - time(h[k]) > width
  {
    i := 0;
    if h != [] {
      if now - time(h[0]) > width {
        var j := RecentIsSuffix(h[1..], time, now, width);
        i := j + 1;
        forall k | 0 <= k < i ensures now - time(h[k]) > width {
          if k > 0 {
            assert h[k] == h[1..][k - 1];
          }
        }
        forall k | i <= k < |h| ensures now - time(h[k]) <= width {
          assert h[k] == h[1..][k - 1];
        }
      } else {
        AllRecent(h, time, now, width);
      }
    }
  }

  // ---- The rolling price and funding histories of the market feed ----

  datatype Sample = Sample(at: real, value: real)

  function SampleTime(): Sample -> real {
    (s: Sample) => s.at
  }

  class RollingHistory {
    const width: real
    var history: seq<Sample>

    constructor (width: real)
      ensures this.width == width && history == []
    {
      this.width := width;
      history := [];
    }

    method AppendTrimmed(ts: real, value: real)
      modifies this`history
      ensures history == Trim(old(history) + [Sample(ts, value)], SampleTime(), ts, width)
    {
      history := history + [Sample(ts, value)];
      ghost var full := history;
      var cutoff := ts - width;
      while history != [] && history[0].at < cutoff
        invariant Trim(history, SampleTime(), ts, width) == Trim(full, SampleTime(), ts, width)
        decreases |history|
      {
        history := history[1..];
      }
    }

    /** Percentage change over the window, once nearly a full window is held. */
    method PriceChangePct() returns (change: Option<real>)
      ensures change == ChangeOver(history, width)
    {
      if |history| < 2 {
        return None;
      }
      var oldest := history[0];
      if history[|history| - 1].at - oldest.at < width * 0.9 || oldest.value == 0.0 {
        return None;
      }
      var latest := history[|history| - 1].value;
      return Some((latest - oldest.value) / oldest.value * 100.0);
    }

    /** The latest value and the value at the start of the window. */
    method FundingTrend() returns (trend: Option<(real, real)>)
      ensures trend.Some? <==> Spans(history, width)
      ensures trend.Some? ==> trend.value == (history[|history| - 1].value, history[0].value)
    {
      if |history| < 2 || history[|history| - 1].at - history[0].at < width * 0.9 {
        return None;
      }
      return Some((history[|history| - 1].value, history[0].value));
    }
  }

  predicate Spans(h: seq<Sample>, width: real) {
    |h| >= 2 && h[|h| - 1].at - h[0].at >= width * 0.9
  }

  function ChangeOver(h: seq<Sample>, width: real): Option<real> {
    if Spans(h, width) && h[0].value != 0.0
    then Some((h[|h| - 1].value - h[0].value) / h[0].value * 100.0)
    else None
  }

  function Fed(samples: seq<Sample>, width: real): seq<Sample> {
    if samples == [] then []
    else
      var last := samples[|samples| - 1];
      Trim(Fed(samples[..|samples| - 1], width) + [last], SampleTime(), last.at, width)
  }

  /** The trimmed deque is the full history filtered to the last window. */
  lemma {:induction false} HistoryIsWindow(samples: seq<Sample>, width: real)
    requires samples != [] && Ordered(samples, SampleTime())
    ensures Fed(samples, width) == Recent(samples, SampleTime(), samples[|samples| - 1].at, width)
  {
    var n := |samples| - 1;
    var init, last := samples[..n], samples[n];
    assert init + [last] == samples;
    if n == 0 {
      TrimFollows([], [], last, SampleTime(), last.at, width);
    } else {
      HistoryIsWindow(init, width);
      TrimFollows(init, Fed(init, width), last, SampleTime(), init[n - 1].at, width);
    }
  }

  lemma ChangeScales(oldest: real, latest: real)
    requires oldest != 0.0
    ensures oldest * (1.0 + (latest - oldest) / oldest * 100.0 / 100.0) == latest
  {
    assert oldest * ((latest - oldest) / oldest) == latest - oldest;
  }

  /**
   A change is reported exactly when the window of the full history holds two
   samples nine tenths of a window apart and does not start at a zero price.
   */
  lemma ChangeReportedIff(samples: seq<Sample>, width: real)
    requires samples != [] && Ordered(samples, SampleTime())
    ensures
      var w := Recent(samples, SampleTime(), samples[|samples| - 1].at, width);
      ChangeOver(Fed(samples, width), width).Some?
      <==> |w| >= 2 && w[|w| - 1].at - w[0].at >= width * 0.9 && w[0].value != 0.0
    ensures
      var w := Recent(samples, SampleTime(), samples[|samples| - 1].at, width);
      var change := ChangeOver(Fed(samples, width), width);
      change.Some? ==>
        && w[|w| - 1] == samples[|samples| - 1]
        && w[0].value * (1.0 + change.value / 100.0) == samples[|samples| - 1].value
  {
    var last := samples[|samples| - 1];
    var w := Recent(samples, SampleTime(), last.at, width);
    HistoryIsWindow(samples, width);
    if ChangeOver(w, width).Some? {
      LastIsKept(samples, width);
      ChangeScales(w[0].value, last.value);
    }
  }

  lemma LastIsKept(samples: seq<Sample>, width: real)
    requires samples != [] && Ordered(samples, SampleTime())
    ensures
      var w := Recent(samples, SampleTime(), samples[|samples| - 1].at, width);
      w != [] ==> w[|w| - 1] == samples[|samples| - 1]
  {
    var n := |samples| - 1;
    var last, time := samples[n], SampleTime();
    var w := Recent(samples, time, last.at, width);
    RecentAppend(samples[..n], [last], time, last.at, width);
    assert samples[..n] + [last] == samples;
    if w != [] {
      RecentBetween(samples, time, last.at, width, samples[0].at, last.at);
      assert last.at - width <= time(w[0]) <= last.at;
      assert Recent([last], time, last.at, width) == [last];
    }
  }
}
