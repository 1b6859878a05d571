/**
 Ticks into bars (`BarAggregator`) and bars into longer bars (`resampleCandles`):
 both are the same roll-up of consecutive entries that share a time bucket.
 */
module Aggregation {
  import opened Core
  import Arith

  datatype Candle = Candle(time: int, open: real, high: real, low: real, close: real, volume: real)

  datatype Tick = Tick(ts: real, symbol: Symbol, bid: real, ask: real, last: real, lastSize: int)

  datatype OpenBar = OpenBar(
    bucketStart: int,
    open: real,
    high: real,
    low: real,
    close: real,
    volume: real,
    dollarVolume: real
  )

  datatype BarEvent = BarEvent(symbol: Symbol, timeframe: int, candle: Candle, vwap: real)

  // ---- Roll-up of candles ----

  function Bucket(time: int, width: int): int
    requires 0 < width
  {
    time / width * width
  }

  /** Open of the first, close of the last, extremes and total of both. */
  function Merged(a: Candle, b: Candle): Candle {
    Candle(a.time, a.open, MaxR(a.high, b.high), MinR(a.low, b.low), b.close, a.volume + b.volume)
  }

  function Pushed(buckets: seq<Candle>, c: Candle, width: int): seq<Candle>
    requires 0 < width
  {
    var t := Bucket(c.time, width);
    var n := |buckets|;
    if n > 0 && buckets[n - 1].time == t
    then buckets[..n - 1] + [Merged(buckets[n - 1], c)]
    else buckets + [c.(time := t)]
  }

  function RollUp(cs: seq<Candle>, width: int): seq<Candle>
    requires 0 < width
  {
    if cs == [] then [] else Pushed(RollUp(cs[..|cs| - 1], width), cs[|cs| - 1], width)
  }

  lemma RollUpOn(cs: seq<Candle>, c: Candle, width: int)
    requires 0 < width
    ensures RollUp(cs + [c], width) == Pushed(RollUp(cs, width), c, width)
  {
    hide Pushed;
    assert (cs + [c])[..|cs|] == cs;
  }

  lemma NothingRolled(width: int)
    requires 0 < width
    ensures RollUp([], width) == []
  {
  }

  lemma RollUpNext(cs: seq<Candle>, i: nat, width: int)
    requires 0 < width && i < |cs|
    ensures RollUp(cs[..i + 1], width) == Pushed(RollUp(cs[..i], width), cs[i], width)
  {
    hide Pushed;
    assert cs[..i + 1][..i] == cs[..i];
  }

  /** What the chart shows for a bucket width; up to a minute it shows the series itself. */
  function Resampled(cs: seq<Candle>, bucketSeconds: int): seq<Candle> {
    if bucketSeconds <= 60 || cs == [] then cs else RollUp(cs, bucketSeconds)
  }

  method ResampleCandles(candles: seq<Candle>, bucketSeconds: int) returns (buckets: seq<Candle>)
    ensures buckets == Resampled(candles, bucketSeconds)
  {
    if bucketSeconds <= 60 || |candles| == 0 {
      return candles;
    }
    hide RollUp, MaxR, MinR, Bucket;
    buckets := [];
    NothingRolled(bucketSeconds);
    for i := 0 to |candles|
      invariant buckets == RollUp(candles[..i], bucketSeconds)
    {
      RollUpNext(candles, i, bucketSeconds);
      var candle := candles[i];
      var bucketTime := Bucket(candle.time, bucketSeconds);
      var n := |buckets|;
      if n > 0 && buckets[n - 1].time == bucketTime {
        var last := buckets[n - 1];
        last := last.(high := MaxR(last.high, candle.high));
        last := last.(low := MinR(last.low, candle.low));
        last := last.(close := candle.close);
        last := last.(volume := last.volume + candle.volume);
        buckets := buckets[..n - 1] + [last];
      } else {
        buckets := buckets + [candle.(time := bucketTime)];
      }
    }
    assert candles[..|candles|] == candles;
  }

  // ---- What a rolled-up candle shows ----

  function Volume(cs: seq<Candle>): real {
    if cs == [] then 0.0 else Volume(cs[..|cs| - 1]) + cs[|cs| - 1].volume
  }

  /** The candle of a group: one bucket, first open, last close, extremes, and total volume. */
  ghost predicate Sums(b: Candle, cs: seq<Candle>, width: int)
    requires 0 < width
  {
    && cs != [] && (forall i :: 0 <= i < |cs| ==> Bucket(cs[i].time, width) == b.time)
    && b.open == cs[0].open && b.close == cs[|cs| - 1].close && b.volume == Volume(cs)
    && (forall i :: 0 <= i < |cs| ==> b.low <= cs[i].low && cs[i].high <= b.high)
    && (exists i :: 0 <= i < |cs| && cs[i].high == b.high)
    && (exists i :: 0 <= i < |cs| && cs[i].low == b.low)
  }

  function Joined(groups: seq<seq<Candle>>): seq<Candle> {
    if groups == [] then [] else Joined(groups[..|groups| - 1]) + groups[|groups| - 1]
  }

  /** One candle for each group of consecutive candles in one bucket, neighbours in different buckets. */
  ghost predicate SumsEach(bs: seq<Candle>, groups: seq<seq<Candle>>, width: int)
    requires 0 < width
  {
    && |bs| == |groups|
    && (forall i :: 0 <= i < |bs| ==> Sums(bs[i], groups[i], width))
    && forall i :: 0 < i < |bs| ==> bs[i - 1].time != bs[i].time
  }

  lemma SumsOne(c: Candle, width: int)
    requires 0 < width
    ensures Sums(c.(time := Bucket(c.time, width)), [c], width)
  {
    hide Bucket;
    var one, b := [c], c.(time := Bucket(c.time, width));
    assert one[..0] == [] && Volume(one) == c.volume;
    assert one[0].high == b.high && one[0].low == b.low;
  }

  lemma SumsMore(b: Candle, cs: seq<Candle>, c: Candle, width: int)
    requires 0 < width && Sums(b, cs, width) && Bucket(c.time, width) == b.time
    ensures Sums(Merged(b, c), cs + [c], width)
  {
    hide Bucket;
    var all, m := cs + [c], Merged(b, c);
    assert all[..|cs|] == cs && all[|cs|] == c;
    forall i | 0 <= i < |all|
      ensures Bucket(all[i].time, width) == m.time && m.low <= all[i].low && all[i].high <= m.high
    {
      if i < |cs| {
        assert all[i] == cs[i];
      }
    }
    var h :| 0 <= h < |cs| && cs[h].high == b.high;
    var l :| 0 <= l < |cs| && cs[l].low == b.low;
    assert all[h] == cs[h] && all[l] == cs[l];
    var top, bottom := if b.high < c.high then |cs| else h, if c.low < b.low then |cs| else l;
    assert 0 <= top < |all| && all[top].high == m.high;
    assert 0 <= bottom < |all| && all[bottom].low == m.low;
  }

  /**
   The roll-up cuts any series, in whatever order its candles come, into the groups of
   consecutive candles that share a bucket, and shows for each group its first open, its
   last close, its extremes and its total volume.
   */
  lemma {:induction false} RollUpSumsGroups(cs: seq<Candle>, width: int) returns (groups: seq<seq<Candle>>)
    requires 0 < width
    ensures Joined(groups) == cs && SumsEach(RollUp(cs, width), groups, width)
  {
    hide Bucket, Sums, Pushed, Joined;
    if cs == [] {
      groups := [];
      NothingJoined();
    } else {
      var init, c := cs[..|cs| - 1], cs[|cs| - 1];
      assert init + [c] == cs;
      var before := RollUpSumsGroups(init, width);
      groups := PushedSums(RollUp(init, width), before, c, width);
    }
  }

  lemma NothingJoined()
    ensures Joined([]) == []
  {
  }

  lemma PushedSums(bs: seq<Candle>, before: seq<seq<Candle>>, c: Candle, width: int) returns (groups: seq<seq<Candle>>)
    requires 0 < width && SumsEach(bs, before, width)
    ensures SumsEach(Pushed(bs, c, width), groups, width) && Joined(groups) == Joined(before) + [c]
  {
    hide Bucket, Sums, SumsEach;
    if bs != [] && bs[|bs| - 1].time == Bucket(c.time, width) {
      groups := GroupGrows(bs, before, c, width);
    } else {
      groups := before + [[c]];
      assert groups[..|before|] == before;
      GroupStarts(bs, before, c, width);
    }
  }

  lemma GroupStarts(bs: seq<Candle>, groups: seq<seq<Candle>>, c: Candle, width: int)
    requires 0 < width && SumsEach(bs, groups, width)
    requires bs != [] ==> bs[|bs| - 1].time != Bucket(c.time, width)
    ensures SumsEach(bs + [c.(time := Bucket(c.time, width))], groups + [[c]], width)
  {
    hide Bucket, Sums;
    SumsOne(c, width);
  }

  lemma GroupGrows(bs: seq<Candle>, before: seq<seq<Candle>>, c: Candle, width: int) returns (groups: seq<seq<Candle>>)
    requires 0 < width && SumsEach(bs, before, width)
    requires bs != [] && bs[|bs| - 1].time == Bucket(c.time, width)
    ensures SumsEach(bs[..|bs| - 1] + [Merged(bs[|bs| - 1], c)], groups, width)
    ensures Joined(groups) == Joined(before) + [c]
  {
    hide Bucket, Sums;
    var n := |bs|;
    var last := before[n - 1] + [c];
    groups := before[..n - 1] + [last];
    assert groups[..n - 1] == before[..n - 1];
    assert Joined(before[..n - 1]) + last == (Joined(before[..n - 1]) + before[n - 1]) + [c];
    SumsMore(bs[n - 1], before[n - 1], c, width);
  }

  // ---- Aggregation of ticks ----

  function PriceOf(t: Tick): real {
    if t.last > 0.0 then t.last
    else if t.bid > 0.0 && t.ask > 0.0 then (t.bid + t.ask) / 2.0 else t.last
  }

  function SizeOf(t: Tick): real {
    if t.lastSize > 0 then t.lastSize as real else 0.0
  }

  function BucketStart(ts: real, timeframe: int): int
    requires 0 < timeframe
  {
    (ts / timeframe as real).Floor * timeframe
  }

  function Opened(start: int, price: real): OpenBar {
    OpenBar(start, price, price, price, price, 0.0, 0.0)
  }

  function Updated(b: OpenBar, price: real, size: real): OpenBar {
    b.(high := MaxR(b.high, price), low := MinR(b.low, price), close := price,
       volume := b.volume + size, dollarVolume := b.dollarVolume + price * size)
  }

  function CandleOf(b: OpenBar): Candle {
    Candle(b.bucketStart, b.open, b.high, b.low, b.close, b.volume)
  }

  function Vwap(b: OpenBar): real {
    if b.volume > 0.0 then b.dollarVolume / b.volume else b.close
  }

  function Finalized(s: Symbol, b: OpenBar, timeframe: int): BarEvent {
    BarEvent(s, timeframe, CandleOf(b), Vwap(b))
  }

  /** The open bars, and every bar completed so far in order of completion. */
  datatype Stream = Stream(open: map<Symbol, OpenBar>, done: seq<BarEvent>)

  function Ticked(st: Stream, t: Tick, timeframe: int): Stream
    requires 0 < timeframe
  {
    var start := BucketStart(t.ts, timeframe);
    var continuing := t.symbol in st.open && st.open[t.symbol].bucketStart == start;
    var bar := if continuing then st.open[t.symbol] else Opened(start, PriceOf(t));
    Stream(
      st.open[t.symbol := Updated(bar, PriceOf(t), SizeOf(t))],
      if t.symbol in st.open && !continuing
      then st.done + [Finalized(t.symbol, st.open[t.symbol], timeframe)] else st.done)
  }

  function Flushed(st: Stream, s: Symbol, timeframe: int): Stream {
    if s !in st.open then st
    else Stream(st.open - {s}, st.done + [Finalized(s, st.open[s], timeframe)])
  }

  class BarAggregator {
    const timeframe: int
    var openBars: map<Symbol, OpenBar>
    ghost var done: seq<BarEvent>

    ghost function View(): Stream
      reads this
    {
      Stream(openBars, done)
    }

    constructor (timeframe: int)
      requires 0 < timeframe
      ensures this.timeframe == timeframe && View() == Stream(map[], [])
    {
      this.timeframe := timeframe;
      openBars, done := map[], [];
    }

    method OnTick(t: Tick) returns (completed: Option<BarEvent>)
      requires 0 < timeframe
      modifies this
      ensures View() == Ticked(old(View()), t, timeframe)
      ensures t.symbol in openBars && openBars[t.symbol].close ==
        if t.last > 0.0 then t.last
        else if t.bid > 0.0 && t.ask > 0.0 then (t.bid + t.ask) / 2.0
        else t.last
      ensures done == old(done) + (if completed.Some? then [completed.value] else [])
    {
      var bucketStart := BucketStart(t.ts, timeframe);
      var price, size := PriceOf(t), SizeOf(t);
      completed := None;
      if t.symbol in openBars && openBars[t.symbol].bucketStart != bucketStart {
        completed := Some(Finalized(t.symbol, openBars[t.symbol], timeframe));
        openBars := openBars - {t.symbol};
        done := done + [completed.value];
      }
      if t.symbol !in openBars {
        openBars := openBars[t.symbol := Opened(bucketStart, price)];
      }
      openBars := openBars[t.symbol := Updated(openBars[t.symbol], price, size)];
    }

    method Flush(s: Symbol) returns (completed: Option<BarEvent>)
      modifies this
      ensures View() == Flushed(old(View()), s, timeframe)
      ensures done == old(done) + (if completed.Some? then [completed.value] else [])
    {
      completed := None;
      if s in openBars {
        completed := Some(Finalized(s, openBars[s], timeframe));
        openBars := openBars - {s};
        done := done + [completed.value];
      }
    }
  }

  // ---- What a whole stream of ticks amounts to ----

  function Streamed(ticks: seq<Tick>, timeframe: int): Stream
    requires 0 < timeframe
  {
    if ticks == [] then Stream(map[], [])
    else Ticked(Streamed(ticks[..|ticks| - 1], timeframe), ticks[|ticks| - 1], timeframe)
  }

  function CandlesOf(bars: seq<BarEvent>, s: Symbol): seq<Candle> {
    if bars == [] then []
    else
      var b := bars[|bars| - 1];
      CandlesOf(bars[..|bars| - 1], s) + (if b.symbol == s then [b.candle] else [])
  }

  /** The bars of one symbol, the last one closed by a flush. */
  function Aggregated(ticks: seq<Tick>, s: Symbol, timeframe: int): seq<Candle>
    requires 0 < timeframe
  {
    CandlesOf(Flushed(Streamed(ticks, timeframe), s, timeframe).done, s)
  }

  /** A tick seen as a candle one second wide. */
  function Instant(t: Tick): Candle {
    var p := PriceOf(t);
    Candle(t.ts.Floor, p, p, p, p, SizeOf(t))
  }

  function Instants(ticks: seq<Tick>, s: Symbol): seq<Candle> {
    if ticks == [] then []
    else
      var t := ticks[|ticks| - 1];
      Instants(ticks[..|ticks| - 1], s) + (if t.symbol == s then [Instant(t)] else [])
  }

  // ---- Buckets within buckets ----

  lemma BucketOfSecond(ts: real, width: int)
    requires 0 < width
    ensures BucketStart(ts, width) == Bucket(ts.Floor, width)
  {
    var q := ts.Floor / width;
    var r := ts.Floor % width;
    assert ts.Floor == q * width + r && 0 <= r < width;
    assert q as real * width as real <= ts < (q + 1) as real * width as real;
    Arith.FloorOfQuotient(ts, q, width as real);
  }

  lemma AtLeastOne(n: int, d: int)
    requires 1 <= n && 0 < d
    ensures d <= n * d
  {
    assert 0 <= (n - 1) * d;
  }

  lemma QuotientIs(x: int, d: int, q: int, r: int)
    requires 0 < d && x == q * d + r && 0 <= r < d
    ensures x / d == q
  {
    var e := x / d - q;
    assert x == (x / d) * d + x % d;
    assert e * d == r - x % d;
    if e > 0 {
      AtLeastOne(e, d);
    } else if e < 0 {
      AtLeastOne(-e, d);
    }
  }

  /** The bucket of `x` is the multiple of the width it has reached but not left. */
  lemma BucketIs(x: int, width: int, q: int)
    requires 0 < width && q * width <= x < q * width + width
    ensures Bucket(x, width) == q * width
  {
    QuotientIs(x, width, q, x - q * width);
  }

  lemma BucketHolds(x: int, width: int)
    requires 0 < width
    ensures Bucket(x, width) <= x < Bucket(x, width) + width
  {
    assert x == x / width * width + x % width;
  }

  lemma MultiplesOrdered(m: int, n: int, unit: int)
    requires 0 < unit && m * unit < n * unit + unit
    ensures m * unit <= n * unit
  {
    assert m * unit == n * unit + (m - n) * unit;
    if m > n {
      AtLeastOne(m - n, unit);
    }
  }

  lemma Nest(q: int, k: int, a: int)
    ensures q * (k * a) == (q * k) * a
  {
  }

  lemma BucketsNest(time: int, a: int, b: int)
    requires 0 < a && 0 < b && b % a == 0
    ensures Bucket(Bucket(time, a), b) == Bucket(time, b)
  {
    var k, q, p := b / a, time / b, time / a;
    assert b == k * a;
    BucketHolds(time, a);
    BucketHolds(time, b);
    Nest(q, k, a);
    MultiplesOrdered(q * k, p, a);
    BucketIs(Bucket(time, a), b, q);
  }

  // ---- Rolling up twice ----

  lemma PushMerged(buckets: seq<Candle>, x: Candle, c: Candle, width: int)
    requires 0 < width && Bucket(x.time, width) == Bucket(c.time, width)
    ensures Pushed(buckets, Merged(x, c), width) == Pushed(Pushed(buckets, x, width), c, width)
  {
    hide Bucket;
    var t, n := Bucket(x.time, width), |buckets|;
    if n > 0 && buckets[n - 1].time == t {
      var y := buckets[n - 1];
      assert Pushed(buckets, x, width) == buckets[..n - 1] + [Merged(y, x)];
      assert (buckets[..n - 1] + [Merged(y, x)])[..n - 1] == buckets[..n - 1];
      assert Merged(Merged(y, x), c) == Merged(y, Merged(x, c));
    } else {
      assert (buckets + [x.(time := t)])[..n] == buckets;
      assert Merged(x.(time := t), c) == Merged(x, c).(time := t);
    }
  }

  /** Rolling up in two stages is rolling up once, when the widths nest. */
  lemma {:induction false} RollUpTwice(cs: seq<Candle>, a: int, b: int)
    requires 0 < a && 0 < b && b % a == 0
    ensures RollUp(RollUp(cs, a), b) == RollUp(cs, b)
  {
    if cs != [] {
      var init, c := cs[..|cs| - 1], cs[|cs| - 1];
      RollUpTwice(init, a, b);
      PushThenRollUp(RollUp(init, a), c, a, b);
    }
  }

  /** Of a candle's time only its bucket matters. */
  lemma PushedElsewhen(buckets: seq<Candle>, c: Candle, time: int, width: int)
    requires 0 < width && Bucket(time, width) == Bucket(c.time, width)
    ensures Pushed(buckets, c.(time := time), width) == Pushed(buckets, c, width)
  {
    hide Bucket;
  }

  /** Pushing into the finer buckets pushes into the coarser ones. */
  lemma PushThenRollUp(r: seq<Candle>, c: Candle, a: int, b: int)
    requires 0 < a && 0 < b && b % a == 0
    ensures RollUp(Pushed(r, c, a), b) == Pushed(RollUp(r, b), c, b)
  {
    hide Bucket, Merged, RollUp;
    BucketsNest(c.time, a, b);
    var n, t := |r|, Bucket(c.time, a);
    if n > 0 && r[n - 1].time == t {
      RollUpOn(r[..n - 1], r[n - 1], b);
      RollUpOn(r[..n - 1], Merged(r[n - 1], c), b);
      assert r[..n - 1] + [r[n - 1]] == r;
      PushMerged(RollUp(r[..n - 1], b), r[n - 1], c, b);
    } else {
      RollUpOn(r, c.(time := t), b);
      PushedElsewhen(RollUp(r, b), c, t, b);
    }
  }

  /** A single candle placed exactly at a bucket boundary of the second width. */
  function Probe(time: int): seq<Candle> {
    [Candle(time, 1.0, 1.0, 1.0, 1.0, 1.0)]
  }

  lemma RollUpProbe(time: int, width: int)
    requires 0 < width
    ensures RollUp(Probe(time), width) == Probe(Bucket(time, width))
  {
    assert Probe(time)[..0] == [];
  }

  lemma FinerBucketIsLower(b: int, a: int)
    requires 0 < a && 0 < b && b % a != 0
    ensures Bucket(Bucket(b, a), b) == 0
  {
    BucketHolds(b, a);
    var t := Bucket(b, a);
    assert t == b / a * a && b == t + b % a;
    MultiplesOrdered(0, b / a, a);
    BucketIs(t, b, 0);
  }

  /** The law fails for widths that do not nest, already on one candle. */
  lemma NestingIsNeeded(a: int, b: int) returns (cs: seq<Candle>)
    requires 60 < a && !(60 < b && b % a == 0)
    ensures Resampled(Resampled(cs, a), b) != Resampled(cs, b)
  {
    if b <= 60 {
      cs := Probe(1);
      RollUpProbe(1, a);
      BucketIs(1, a, 0);
    } else {
      cs := Probe(b);
      RollUpProbe(b, a);
      RollUpProbe(b, b);
      RollUpProbe(Bucket(b, a), b);
      BucketIs(b, b, 1);
      FinerBucketIsLower(b, a);
    }
    hide Bucket;
  }

  /**
   Resampling an already resampled chart gives the coarser chart, for every series
   of candles, exactly when the finer width was a no-op or divides the coarser one.
   */
  lemma ResampleComposesIff(a: int, b: int)
    ensures (forall cs :: Resampled(Resampled(cs, a), b) == Resampled(cs, b))
            <==> a <= 60 || (60 < b && b % a == 0)
  {
    if a <= 60 || (60 < b && b % a == 0) {
      forall cs ensures Resampled(Resampled(cs, a), b) == Resampled(cs, b) {
        if a > 60 {
          RollUpTwice(cs, a, b);
          RollUpNonEmpty(cs, a);
        }
      }
    } else {
      var cs := NestingIsNeeded(a, b);
    }
  }

  lemma RollUpNonEmpty(cs: seq<Candle>, width: int)
    requires 0 < width
    ensures RollUp(cs, width) == [] <==> cs == []
  {
  }

  // ---- Aggregating ticks is rolling them up ----

  /** What symbol `s` has to show for itself: completed bars, then the open one. */
  function Shown(st: Stream, s: Symbol): seq<Candle> {
    CandlesOf(st.done, s) + (if s in st.open then [CandleOf(st.open[s])] else [])
  }

  lemma CandlesOfAppend(bars: seq<BarEvent>, b: BarEvent, s: Symbol)
    ensures CandlesOf(bars + [b], s) == CandlesOf(bars, s) + (if b.symbol == s then [b.candle] else [])
  {
    assert (bars + [b])[..|bars|] == bars;
  }

  lemma FlushShows(st: Stream, s: Symbol, timeframe: int)
    ensures CandlesOf(Flushed(st, s, timeframe).done, s) == Shown(st, s)
  {
    if s in st.open {
      CandlesOfAppend(st.done, Finalized(s, st.open[s], timeframe), s);
    }
  }

  lemma TickShows(st: Stream, t: Tick, s: Symbol, timeframe: int)
    requires 0 < timeframe
    requires s !in st.open ==> CandlesOf(st.done, s) == []
    ensures
      var shown := Shown(st, s);
      Shown(Ticked(st, t, timeframe), s) == if t.symbol == s then Pushed(shown, Instant(t), timeframe) else shown
    ensures s !in Ticked(st, t, timeframe).open ==> CandlesOf(Ticked(st, t, timeframe).done, s) == []
  {
    hide Bucket, BucketStart, PriceOf, SizeOf, CandlesOf, Pushed, Instant, Updated, Opened, CandleOf;
    if t.symbol != s {
      OtherTickShows(st, t, s, timeframe);
    } else if s in st.open {
      NextTickShows(CandlesOf(st.done, s), st.open[s], t, timeframe);
      CandlesOfAppend(st.done, Finalized(s, st.open[s], timeframe), s);
    } else {
      FirstTickShows(t, timeframe);
    }
  }

  lemma OtherTickShows(st: Stream, t: Tick, s: Symbol, timeframe: int)
    requires 0 < timeframe && t.symbol != s
    ensures Shown(Ticked(st, t, timeframe), s) == Shown(st, s)
    ensures s in Ticked(st, t, timeframe).open <==> s in st.open
    ensures CandlesOf(Ticked(st, t, timeframe).done, s) == CandlesOf(st.done, s)
  {
    hide BucketStart, PriceOf, SizeOf, CandlesOf, Updated, Opened, CandleOf;
    if t.symbol in st.open {
      CandlesOfAppend(st.done, Finalized(t.symbol, st.open[t.symbol], timeframe), s);
    }
  }

  lemma FirstTickShows(t: Tick, timeframe: int)
    requires 0 < timeframe
    ensures
      var start := BucketStart(t.ts, timeframe);
      [] + [CandleOf(Updated(Opened(start, PriceOf(t)), PriceOf(t), SizeOf(t)))] == Pushed([], Instant(t), timeframe)
  {
    BucketOfSecond(t.ts, timeframe);
    hide Bucket, BucketStart;
    OpensFlat(BucketStart(t.ts, timeframe), t);
  }

  /** A tick of a symbol with a bar open joins that bar, or opens the next one. */
  lemma NextTickShows(done: seq<Candle>, b: OpenBar, t: Tick, timeframe: int)
    requires 0 < timeframe
    ensures
      var start := BucketStart(t.ts, timeframe);
      Pushed(done + [CandleOf(b)], Instant(t), timeframe)
      == if b.bucketStart == start then done + [CandleOf(Updated(b, PriceOf(t), SizeOf(t)))]
         else done + [CandleOf(b)]
              + [CandleOf(Updated(Opened(start, PriceOf(t)), PriceOf(t), SizeOf(t)))]
  {
    BucketOfSecond(t.ts, timeframe);
    hide Bucket, BucketStart, PriceOf, SizeOf;
    LastShown(done, CandleOf(b));
    OpensFlat(BucketStart(t.ts, timeframe), t);
  }

  lemma LastShown(cs: seq<Candle>, c: Candle)
    ensures (cs + [c])[..|cs|] == cs && (cs + [c])[|cs|] == c
  {
  }

  /** A bar that opens with a tick shows that tick. */
  lemma OpensFlat(start: int, t: Tick)
    ensures CandleOf(Updated(Opened(start, PriceOf(t)), PriceOf(t), SizeOf(t))) == Instant(t).(time := start)
  {
  }

  lemma {:induction false} StreamShows(ticks: seq<Tick>, s: Symbol, timeframe: int)
    requires 0 < timeframe
    ensures Shown(Streamed(ticks, timeframe), s) == RollUp(Instants(ticks, s), timeframe)
    ensures s !in Streamed(ticks, timeframe).open ==> CandlesOf(Streamed(ticks, timeframe).done, s) == []
  {
    if ticks != [] {
      var init, t := ticks[..|ticks| - 1], ticks[|ticks| - 1];
      StreamShows(init, s, timeframe);
      TickShows(Streamed(init, timeframe), t, s, timeframe);
      if t.symbol == s {
        var c := Instants(init, s);
        assert (c + [Instant(t)])[..|c|] == c;
      } else {
        assert Instants(init, s) + [] == Instants(init, s);
      }
    }
  }

  /**
   Aggregating any tick stream, in or out of order and with symbols interleaved,
   and then resampling is aggregating at the coarser timeframe directly.
   */
  lemma AggregateThenResample(ticks: seq<Tick>, s: Symbol, timeframe: int, bucketSeconds: int)
    requires 0 < timeframe && 60 < bucketSeconds && bucketSeconds % timeframe == 0
    ensures Resampled(Aggregated(ticks, s, timeframe), bucketSeconds) == Aggregated(ticks, s, bucketSeconds)
  {
    StreamShows(ticks, s, timeframe);
    StreamShows(ticks, s, bucketSeconds);
    FlushShows(Streamed(ticks, timeframe), s, timeframe);
    FlushShows(Streamed(ticks, bucketSeconds), s, bucketSeconds);
    RollUpTwice(Instants(ticks, s), timeframe, bucketSeconds);
    RollUpNonEmpty(RollUp(Instants(ticks, s), timeframe), bucketSeconds);
  }

  // ---- What a bar is of its ticks ----

  /** The ticks of `s` since its bucket last changed. */
  function Current(ticks: seq<Tick>, s: Symbol, timeframe: int): seq<Tick>
    requires 0 < timeframe
  {
    if ticks == [] then []
    else
      var t, c := ticks[|ticks| - 1], Current(ticks[..|ticks| - 1], s, timeframe);
      if t.symbol != s then c
      else if c != [] && BucketStart(c[0].ts, timeframe) == BucketStart(t.ts, timeframe) then c + [t]
      else [t]
  }

  function TotalSize(ts: seq<Tick>): real {
    if ts == [] then 0.0 else TotalSize(ts[..|ts| - 1]) + SizeOf(ts[|ts| - 1])
  }

  /** What was paid in these ticks, size by size. */
  function TotalValue(ts: seq<Tick>): real {
    if ts == [] then 0.0
    else TotalValue(ts[..|ts| - 1]) + PriceOf(ts[|ts| - 1]) * SizeOf(ts[|ts| - 1])
  }

  /** The candle of some ticks: bucket, first and last price, extremes, total size. */
  ghost predicate Shows(c: Candle, ts: seq<Tick>, timeframe: int)
    requires 0 < timeframe
  {
    && ts != [] && c.time == BucketStart(ts[0].ts, timeframe)
    && c.open == PriceOf(ts[0]) && c.close == PriceOf(ts[|ts| - 1]) && c.volume == TotalSize(ts)
    && (forall i :: 0 <= i < |ts| ==> c.low <= PriceOf(ts[i]) <= c.high)
    && (exists i :: 0 <= i < |ts| && PriceOf(ts[i]) == c.high)
    && (exists i :: 0 <= i < |ts| && PriceOf(ts[i]) == c.low)
  }

  ghost predicate OpenShows(st: Stream, ts: seq<Tick>, s: Symbol, timeframe: int)
    requires 0 < timeframe
  {
    && (s in st.open <==> ts != [])
    && (s in st.open ==>
         Shows(CandleOf(st.open[s]), ts, timeframe) && st.open[s].dollarVolume == TotalValue(ts))
  }

  lemma TotalsOn(ts: seq<Tick>, t: Tick)
    ensures TotalSize(ts + [t]) == TotalSize(ts) + SizeOf(t)
    ensures TotalValue(ts + [t]) == TotalValue(ts) + PriceOf(t) * SizeOf(t)
    ensures TotalSize([]) == 0.0 && TotalValue([]) == 0.0
  {
    assert (ts + [t])[..|ts|] == ts;
  }

  lemma ShowsFirst(t: Tick, timeframe: int)
    requires 0 < timeframe
    ensures
      var b := Updated(Opened(BucketStart(t.ts, timeframe), PriceOf(t)), PriceOf(t), SizeOf(t));
      Shows(CandleOf(b), [t], timeframe) && b.dollarVolume == TotalValue([t])
  {
    hide BucketStart, PriceOf, SizeOf, TotalSize, TotalValue;
    TotalsOn([], t);
    var one, b := [t], Updated(Opened(BucketStart(t.ts, timeframe), PriceOf(t)), PriceOf(t), SizeOf(t));
    assert [] + [t] == one;
    assert PriceOf(one[0]) == b.high == b.low;
  }

  lemma ShowsMore(b: OpenBar, ts: seq<Tick>, t: Tick, timeframe: int)
    requires 0 < timeframe && Shows(CandleOf(b), ts, timeframe) && b.dollarVolume == TotalValue(ts)
    ensures
      var c := Updated(b, PriceOf(t), SizeOf(t));
      Shows(CandleOf(c), ts + [t], timeframe) && c.dollarVolume == TotalValue(ts + [t])
  {
    hide BucketStart, PriceOf, SizeOf, TotalSize, TotalValue;
    TotalsOn(ts, t);
    var all, c := ts + [t], Updated(b, PriceOf(t), SizeOf(t));
    assert all[|ts|] == t;
    forall i | 0 <= i < |all| ensures c.low <= PriceOf(all[i]) <= c.high {
      if i < |ts| {
        assert all[i] == ts[i];
      }
    }
    var h :| 0 <= h < |ts| && PriceOf(ts[h]) == b.high;
    var l :| 0 <= l < |ts| && PriceOf(ts[l]) == b.low;
    assert all[h] == ts[h] && all[l] == ts[l];
    var top, bottom := if b.high < PriceOf(t) then |ts| else h, if PriceOf(t) < b.low then |ts| else l;
    assert 0 <= top < |all| && PriceOf(all[top]) == c.high;
    assert 0 <= bottom < |all| && PriceOf(all[bottom]) == c.low;
    assert all[0] == ts[0] && all[|all| - 1] == t;
  }

  lemma CurrentOn(ticks: seq<Tick>, t: Tick, s: Symbol, timeframe: int)
    requires 0 < timeframe
    ensures
      var c := Current(ticks, s, timeframe);
      Current(ticks + [t], s, timeframe)
      == if t.symbol != s then c
         else if c != [] && BucketStart(c[0].ts, timeframe) == BucketStart(t.ts, timeframe) then c + [t]
         else [t]
  {
    hide BucketStart;
    assert (ticks + [t])[..|ticks|] == ticks;
  }

  lemma TickShowsOpen(st: Stream, ticks: seq<Tick>, t: Tick, s: Symbol, timeframe: int)
    requires 0 < timeframe && OpenShows(st, Current(ticks, s, timeframe), s, timeframe)
    ensures OpenShows(Ticked(st, t, timeframe), Current(ticks + [t], s, timeframe), s, timeframe)
  {
    hide BucketStart, PriceOf, SizeOf, TotalSize, TotalValue, Shows, Updated, Current;
    CurrentOn(ticks, t, s, timeframe);
    if t.symbol == s {
      var c := Current(ticks, s, timeframe);
      ShowsTime(st, c, s, timeframe);
      if s in st.open && BucketStart(c[0].ts, timeframe) == BucketStart(t.ts, timeframe) {
        ShowsMore(st.open[s], c, t, timeframe);
      } else {
        ShowsFirst(t, timeframe);
      }
    }
  }

  lemma ShowsTime(st: Stream, ts: seq<Tick>, s: Symbol, timeframe: int)
    requires 0 < timeframe && OpenShows(st, ts, s, timeframe)
    ensures s in st.open ==> ts != [] && st.open[s].bucketStart == BucketStart(ts[0].ts, timeframe)
  {
    hide BucketStart;
  }

  lemma {:induction false} OpenBarShowsTicks(ticks: seq<Tick>, s: Symbol, timeframe: int)
    requires 0 < timeframe
    ensures OpenShows(Streamed(ticks, timeframe), Current(ticks, s, timeframe), s, timeframe)
  {
    if ticks != [] {
      var init, t := ticks[..|ticks| - 1], ticks[|ticks| - 1];
      assert init + [t] == ticks;
      OpenBarShowsTicks(init, s, timeframe);
      hide OpenShows, Ticked, Current;
      TickShowsOpen(Streamed(init, timeframe), init, t, s, timeframe);
    }
  }

  /**
   A tick completes a bar exactly when its symbol has ticks and they are in another bucket.
   The bar shows those ticks, no matter what other symbols did, and is weighed by what was
   paid in them, or by the last price if nothing changed hands.
   */
  lemma CompletedBarShowsTicks(ticks: seq<Tick>, t: Tick, timeframe: int)
    requires 0 < timeframe
    ensures
      var ts, before := Current(ticks, t.symbol, timeframe), Streamed(ticks, timeframe).done;
      var after := Streamed(ticks + [t], timeframe).done;
      if ts != [] && BucketStart(ts[0].ts, timeframe) != BucketStart(t.ts, timeframe)
      then
        && |after| == |before| + 1 && after[..|before|] == before
        && var bar := after[|before|];
           && bar.symbol == t.symbol && bar.timeframe == timeframe && Shows(bar.candle, ts, timeframe)
           && (if TotalSize(ts) > 0.0 then bar.vwap * TotalSize(ts) == TotalValue(ts)
               else bar.vwap == PriceOf(ts[|ts| - 1]))
      else after == before
  {
    hide BucketStart, PriceOf, SizeOf, TotalSize, TotalValue, Current, Updated;
    var ts, st := Current(ticks, t.symbol, timeframe), Streamed(ticks, timeframe);
    assert (ticks + [t])[..|ticks|] == ticks;
    OpenBarShowsTicks(ticks, t.symbol, timeframe);
    ShowsTime(st, ts, t.symbol, timeframe);
    if t.symbol in st.open && st.open[t.symbol].volume > 0.0 {
      Arith.QuotientTimes(st.open[t.symbol].dollarVolume, st.open[t.symbol].volume);
    }
  }

  // ---- The volume-weighted price ----

  /** Traded value lies between the volume at one price and at another. */
  predicate ValueBetween(value: real, volume: real, low: real, high: real) {
    low * volume <= value <= high * volume
  }

  lemma WidenedStillBetween(value: real, volume: real, low: real, high: real, low': real, high': real)
    requires ValueBetween(value, volume, low, high) && 0.0 <= volume && low' <= low && high <= high'
    ensures ValueBetween(value, volume, low', high')
  {
    Arith.ScaleLe(low', low, volume);
    Arith.ScaleLe(high, high', volume);
  }

  lemma BetweenAdds(v1: real, n1: real, v2: real, n2: real, low: real, high: real)
    requires ValueBetween(v1, n1, low, high) && ValueBetween(v2, n2, low, high)
    ensures ValueBetween(v1 + v2, n1 + n2, low, high)
  {
    assert low * (n1 + n2) == low * n1 + low * n2;
    assert high * (n1 + n2) == high * n1 + high * n2;
  }

  lemma BetweenMeans(value: real, volume: real, low: real, high: real)
    requires ValueBetween(value, volume, low, high) && 0.0 < volume
    ensures low <= value / volume <= high
  {
    var v := value / volume;
    assert v * volume == value;
    assert (v - low) * volume >= 0.0 && (high - v) * volume >= 0.0;
  }

  predicate Weighed(b: OpenBar) {
    && 0.0 <= b.volume && b.low <= b.close <= b.high
    && ValueBetween(b.dollarVolume, b.volume, b.low, b.high)
  }

  lemma UpdateKeepsWeighed(b: OpenBar, price: real, size: real)
    requires Weighed(b) && 0.0 <= size
    ensures Weighed(Updated(b, price, size))
  {
    var low, high := MinR(b.low, price), MaxR(b.high, price);
    WidenedStillBetween(b.dollarVolume, b.volume, b.low, b.high, low, high);
    WidenedStillBetween(price * size, size, price, price, low, high);
    BetweenAdds(b.dollarVolume, b.volume, price * size, size, low, high);
    hide ValueBetween;
  }

  predicate Plausible(e: BarEvent) {
    e.candle.low <= e.vwap <= e.candle.high
  }

  lemma FinalizedIsPlausible(s: Symbol, b: OpenBar, timeframe: int)
    requires Weighed(b)
    ensures Plausible(Finalized(s, b, timeframe))
  {
    if b.volume > 0.0 {
      BetweenMeans(b.dollarVolume, b.volume, b.low, b.high);
    }
  }

  predicate PlausibleStream(st: Stream) {
    && (forall s :: s in st.open ==> Weighed(st.open[s]))
    && forall e :: e in st.done ==> Plausible(e)
  }

  /** In every bar of every stream the volume-weighted price lies between low and high. */
  lemma {:induction false} VwapInRange(ticks: seq<Tick>, timeframe: int)
    requires 0 < timeframe
    ensures PlausibleStream(Streamed(ticks, timeframe))
  {
    if ticks != [] {
      var init, t := ticks[..|ticks| - 1], ticks[|ticks| - 1];
      var before := Streamed(init, timeframe);
      VwapInRange(init, timeframe);
      assert t.symbol in before.open ==> Weighed(before.open[t.symbol]);
      var start := BucketStart(t.ts, timeframe);
      assert Weighed(Opened(start, PriceOf(t)));
      hide Weighed, Plausible, BucketStart, Updated, Finalized;
      UpdateKeepsWeighed(Opened(start, PriceOf(t)), PriceOf(t), SizeOf(t));
      if t.symbol in before.open {
        UpdateKeepsWeighed(before.open[t.symbol], PriceOf(t), SizeOf(t));
        FinalizedIsPlausible(t.symbol, before.open[t.symbol], timeframe);
      }
    }
  }
}
