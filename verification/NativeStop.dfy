/** Exchange precision: lots, and the price of the native stop order. */
module NativeStop {
  import opened Core
  import opened Arith
  import opened Monitor

  datatype Filters = Filters(tickSize: real, stepSize: real, quantityUnit: real, priceUnit: real)

  /** Rounding to the nearest integer, ties to even. */
  function Nearest(x: real): int {
    var whole := x.Floor;
    var part := x - whole as real;
    if part < 0.5 || (part == 0.5 && whole % 2 == 0) then whole else whole + 1
  }

  /** Rounding to a decimal precision, given as its unit (0.01 for two places). */
  function RoundTo(x: real, unit: real): real
    requires 0.0 < unit
  {
    Nearest(x / unit) as real * unit
  }

  /** So many whole units. */
  function Times(k: int, unit: real): real {
    Scale(k as real, unit)
  }

  ghost predicate MultipleOf(x: real, unit: real) {
    exists k :: x == Times(k, unit)
  }

  ghost predicate Consistent(f: Filters) {
    && 0.0 < f.quantityUnit && 0.0 < f.priceUnit
    && 0.0 < f.stepSize && MultipleOf(f.stepSize, f.quantityUnit)
    && 0.0 < f.tickSize && MultipleOf(f.tickSize, f.priceUnit)
  }

  function LotsToQuantity(f: Filters, lots: int): real
    requires 0.0 < f.quantityUnit
  {
    RoundTo(Times(lots, f.stepSize), f.quantityUnit)
  }

  function QuantityToLots(f: Filters, quantity: real): int {
    if f.stepSize <= 0.0 then Nearest(quantity) else Nearest(quantity / f.stepSize)
  }

  /** The price that would lose exactly `maxLoss` on `quantity`. */
  function RawStop(isLong: bool, entry: real, quantity: real, maxLoss: real): real
    requires 0.0 < quantity
  {
    if isLong then entry - maxLoss / quantity else entry + maxLoss / quantity
  }

  /** Rounded up for longs and down for shorts; no order without a positive price. */
  function StopPrice(f: Filters, isLong: bool, entry: real, quantity: real, maxLoss: real): Option<real>
    requires 0.0 < f.priceUnit && 0.0 < quantity
  {
    var raw := RawStop(isLong, entry, quantity, maxLoss);
    var price :=
      if f.tickSize > 0.0 then
        var steps := if isLong then Ceiling(raw / f.tickSize) else (raw / f.tickSize).Floor;
        RoundTo(Times(steps, f.tickSize), f.priceUnit)
      else RoundTo(raw, f.priceUnit);
    if price <= 0.0 then None else Some(price)
  }

  /** What a position has gained at a price. */
  function Gain(isLong: bool, entry: real, quantity: real, price: real): real {
    (if isLong then price - entry else entry - price) * quantity
  }

  lemma RoundOfMultiple(x: real, unit: real)
    requires 0.0 < unit && MultipleOf(x, unit)
    ensures RoundTo(x, unit) == x
  {
    var k :| x == Times(k, unit);
    assert x / unit == k as real;
    assert (k as real).Floor == k;
  }

  lemma MultiplesScale(n: int, x: real, unit: real)
    requires MultipleOf(x, unit)
    ensures MultipleOf(Times(n, x), unit)
  {
    var k :| x == Times(k, unit);
    assert Times(n, x) == Times(n * k, unit);
  }

  lemma Divides(n: int, unit: real)
    requires unit != 0.0
    ensures Times(n, unit) / unit == n as real
  {
  }

  lemma NearestOfInteger(n: int)
    ensures Nearest(n as real) == n
  {
    assert (n as real).Floor == n;
  }

  /** Converting lots to an exchange quantity and back loses nothing. */
  lemma LotsRoundTrip(f: Filters, lots: int)
    requires Consistent(f)
    ensures QuantityToLots(f, LotsToQuantity(f, lots)) == lots
  {
    hide RoundTo, Nearest, MultipleOf, Times;
    MultiplesScale(lots, f.stepSize, f.quantityUnit);
    RoundOfMultiple(Times(lots, f.stepSize), f.quantityUnit);
    Divides(lots, f.stepSize);
    NearestOfInteger(lots);
  }

  lemma NearestIsNearest(x: real)
    ensures x - 0.5 <= Nearest(x) as real <= x + 0.5
    ensures x - x.Floor as real == 0.5 ==> Nearest(x) % 2 == 0
  {
  }

  /** Rounding moves a price or a quantity by at most half its precision. */
  lemma RoundIsClose(x: real, unit: real)
    requires 0.0 < unit
    ensures x - unit / 2.0 <= RoundTo(x, unit) <= x + unit / 2.0
  {
    var q := x / unit;
    NearestIsNearest(q);
    hide Nearest;
    ScaleQuotient(x, unit);
    ScaleGrows(q - 0.5, Nearest(q) as real, unit);
    ScaleGrows(Nearest(q) as real, q + 0.5, unit);
    Distribute(q, 0.5, unit);
  }

  /** Any quantity is given in the lots that come closest to it. */
  lemma LotsAreClosest(f: Filters, quantity: real)
    requires 0.0 < f.stepSize
    ensures
      var lots := Times(QuantityToLots(f, quantity), f.stepSize);
      quantity - f.stepSize / 2.0 <= lots <= quantity + f.stepSize / 2.0
  {
    RoundIsClose(quantity, f.stepSize);
  }

  /** Without a tick size the stop is the break-even price, rounded to the price precision. */
  lemma UntickedStop(f: Filters, isLong: bool, entry: real, quantity: real, maxLoss: real)
    requires 0.0 < f.priceUnit && f.tickSize <= 0.0 && 0.0 < quantity
    requires StopPrice(f, isLong, entry, quantity, maxLoss).Some?
    ensures
      var raw := if isLong then entry - maxLoss / quantity else entry + maxLoss / quantity;
      var stop := StopPrice(f, isLong, entry, quantity, maxLoss).value;
      0.0 < stop && raw - f.priceUnit / 2.0 <= stop <= raw + f.priceUnit / 2.0
  {
    RoundIsClose(RawStop(isLong, entry, quantity, maxLoss), f.priceUnit);
    hide RoundTo;
  }

  lemma TickBelow(raw: real, tick: real)
    requires 0.0 < tick
    ensures raw - tick < Times((raw / tick).Floor, tick) <= raw
  {
    hide Scale;
    var q := raw / tick;
    ScaleQuotient(raw, tick);
    ScaleStep(q.Floor as real, q, tick);
  }

  lemma TickAbove(raw: real, tick: real)
    requires 0.0 < tick
    ensures raw <= Times(Ceiling(raw / tick), tick) < raw + tick
  {
    hide Scale;
    var q := raw / tick;
    var n := (-q).Floor as real;
    assert Ceiling(q) as real == -n;
    ScaleQuotient(raw, tick);
    ScaleNegates(q, tick);
    ScaleNegates(n, tick);
    ScaleStep(n, -q, tick);
  }

  /** The stop price is the last tick before the loss would exceed the limit. */
  lemma StopIsOneTickTight(f: Filters, isLong: bool, entry: real, quantity: real, maxLoss: real)
    requires Consistent(f) && 0.0 < quantity
    requires StopPrice(f, isLong, entry, quantity, maxLoss).Some?
    ensures
      var raw := RawStop(isLong, entry, quantity, maxLoss);
      var stop := StopPrice(f, isLong, entry, quantity, maxLoss).value;
      if isLong then raw <= stop < raw + f.tickSize else raw - f.tickSize < stop <= raw
  {
    hide RoundTo, MultipleOf, RawStop, Times;
    var raw := RawStop(isLong, entry, quantity, maxLoss);
    var steps := if isLong then Ceiling(raw / f.tickSize) else (raw / f.tickSize).Floor;
    MultiplesScale(steps, f.tickSize, f.priceUnit);
    RoundOfMultiple(Times(steps, f.tickSize), f.priceUnit);
    hide Ceiling;
    TickBelow(raw, f.tickSize);
    TickAbove(raw, f.tickSize);
  }

  lemma StepsBelow(raw: real, tick: real)
    requires 0.0 < tick
    ensures Ceiling(raw / tick) <= 0 <==> raw <= 0.0
    ensures (raw / tick).Floor <= 0 <==> raw < tick
  {
    var q := raw / tick;
    ScaleQuotient(raw, tick);
    assert Scale(0.0, tick) == 0.0 && Scale(1.0, tick) == tick;
    hide Scale;
    if q <= 0.0 { ScaleGrows(q, 0.0, tick); } else { ScaleGrows(0.0, q, tick); }
    if q < 1.0 { ScaleGrows(q, 1.0, tick); } else { ScaleGrows(1.0, q, tick); }
  }

  /** No stop is placed exactly when no tick on the safe side is a positive price. */
  lemma NoStopIff(f: Filters, isLong: bool, entry: real, quantity: real, maxLoss: real)
    requires Consistent(f) && 0.0 < quantity
    ensures
      var perUnit := maxLoss / quantity;
      StopPrice(f, isLong, entry, quantity, maxLoss).None?
      <==> if isLong then entry - perUnit <= 0.0 else entry + perUnit < f.tickSize
  {
    hide RoundTo, MultipleOf, Times, Ceiling;
    var raw := RawStop(isLong, entry, quantity, maxLoss);
    var steps := if isLong then Ceiling(raw / f.tickSize) else (raw / f.tickSize).Floor;
    MultiplesScale(steps, f.tickSize, f.priceUnit);
    RoundOfMultiple(Times(steps, f.tickSize), f.priceUnit);
    StepsBelow(raw, f.tickSize);
    TimesSign(steps, f.tickSize);
  }

  lemma TimesSign(k: int, unit: real)
    requires 0.0 < unit
    ensures Times(k, unit) <= 0.0 <==> k <= 0
  {
    assert Scale(0.0, unit) == 0.0;
    hide Scale;
    if k <= 0 { ScaleGrows(k as real, 0.0, unit); } else { ScaleGrows(0.0, k as real, unit); }
  }

  /** The loss at the native stop never exceeds the limit, and falls short by less than a tick. */
  lemma NativeLossWithinLimit(f: Filters, isLong: bool, entry: real, quantity: real, maxLoss: real)
    requires Consistent(f) && 0.0 < quantity
    requires StopPrice(f, isLong, entry, quantity, maxLoss).Some?
    ensures
      var loss := -Gain(isLong, entry, quantity, StopPrice(f, isLong, entry, quantity, maxLoss).value);
      maxLoss - f.tickSize * quantity < loss <= maxLoss
  {
    StopIsOneTickTight(f, isLong, entry, quantity, maxLoss);
    var stop := StopPrice(f, isLong, entry, quantity, maxLoss).value;
    var fall := if isLong then entry - stop else stop - entry;
    LossAt(isLong, entry, quantity, stop);
    LossBetween(fall, quantity, maxLoss, f.tickSize);
    hide Gain, StopPrice, Consistent;
  }

  lemma LossAt(isLong: bool, entry: real, quantity: real, price: real)
    ensures -Gain(isLong, entry, quantity, price) == (if isLong then entry - price else price - entry) * quantity
  {
  }

  lemma LossBetween(fall: real, quantity: real, maxLoss: real, tick: real)
    requires 0.0 < quantity && maxLoss / quantity - tick < fall <= maxLoss / quantity
    ensures maxLoss - tick * quantity < fall * quantity <= maxLoss
  {
    var room := maxLoss / quantity;
    QuotientTimes(maxLoss, quantity);
    ScaleLe(fall, room, quantity);
    ScaleLt(room - tick, fall, quantity);
    Distribute(room, tick, quantity);
  }

  /** The mark price at which the exchange's stop order triggers. */
  predicate Reached(isLong: bool, stop: real, mark: real) {
    if isLong then mark <= stop else stop <= mark
  }

  /**
   Backstop before trigger: whenever the monitor's own stop-loss test holds for a
   position whose size and entry have not changed, the mark price has already
   reached the native stop.
   */
  lemma NativeStopComesFirst(f: Filters, p: Params, d: PositionDetail, isLong: bool, quantity: real, mark: real,
                             maxLoss: real, roi: real, peak: real)
    requires Consistent(f) && 0.0 < quantity && Usable(p)
    requires StopPrice(f, isLong, d.entryPrice, quantity, maxLoss).Some?
    requires d.unrealizedPnl == Gain(isLong, d.entryPrice, quantity, mark)
    requires ExitReason(p, d.unrealizedPnl, roi, maxLoss, peak) == Some(StopLoss)
    ensures Reached(isLong, StopPrice(f, isLong, d.entryPrice, quantity, maxLoss).value, mark)
  {
    StopIsOneTickTight(f, isLong, d.entryPrice, quantity, maxLoss);
    LossAt(isLong, d.entryPrice, quantity, mark);
    LossReaches(if isLong then d.entryPrice - mark else mark - d.entryPrice, quantity, maxLoss);
    hide StopPrice, Consistent, Gain;
  }

  lemma LossReaches(fall: real, quantity: real, maxLoss: real)
    requires 0.0 < quantity && maxLoss <= fall * quantity
    ensures maxLoss / quantity <= fall
  {
    QuotientTimes(maxLoss, quantity);
    UnscaleLe(maxLoss / quantity, fall, quantity);
  }
}
