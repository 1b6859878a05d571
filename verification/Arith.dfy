/** Small facts about products and quotients of reals, kept apart from everything else. */
module Arith {

  function Ceiling(x: real): int {
    -((-x).Floor)
  }

  lemma ProductSign(x: real, u: real)
    requires 0.0 <= x && 0.0 < u
    ensures 0.0 <= x * u && (0.0 < x ==> 0.0 < x * u)
  {
  }

  lemma ScaleLe(x: real, y: real, u: real)
    requires x <= y && 0.0 <= u
    ensures x * u <= y * u
  {
  }

  lemma ScaleLt(x: real, y: real, u: real)
    requires x < y && 0.0 < u
    ensures x * u < y * u
  {
  }

  lemma UnscaleLe(x: real, y: real, u: real)
    requires x * u <= y * u && 0.0 < u
    ensures x <= y
  {
    if y < x {
      ScaleLt(y, x, u);
    }
  }

  lemma UnscaleEq(x: real, y: real, u: real)
    requires x * u == y * u && 0.0 < u
    ensures x == y
  {
    UnscaleLe(x, y, u);
    UnscaleLe(y, x, u);
  }

  lemma QuotientTimes(x: real, d: real)
    requires d != 0.0
    ensures x / d * d == x
  {
  }

  lemma Distribute(x: real, y: real, u: real)
    ensures (x - y) * u == x * u - y * u
    ensures (x + y) * u == x * u + y * u
  {
  }

  lemma Exchange(x: real, y: real, u: real)
    ensures x * y * u == (x * u) * y
  {
  }

  /** A product with a name, so that it can be hidden. */
  function Scale(x: real, unit: real): real {
    x * unit
  }

  lemma ScaleGrows(x: real, y: real, unit: real)
    requires x <= y && 0.0 < unit
    ensures Scale(x, unit) <= Scale(y, unit) && (x < y ==> Scale(x, unit) < Scale(y, unit))
  {
    ProductSign(y - x, unit);
    Distribute(y, x, unit);
  }

  lemma ScaleStep(n: real, q: real, tick: real)
    requires n <= q < n + 1.0 && 0.0 < tick
    ensures Scale(q, tick) - tick < Scale(n, tick) <= Scale(q, tick)
  {
    ScaleGrows(n, q, tick);
    ScaleGrows(q, n + 1.0, tick);
    Distribute(n, 1.0, tick);
  }

  lemma ScaleNegates(q: real, tick: real)
    ensures Scale(-q, tick) == -Scale(q, tick)
  {
  }

  lemma ScaleQuotient(raw: real, tick: real)
    requires tick != 0.0
    ensures Scale(raw / tick, tick) == raw
  {
  }

  lemma FloorOfQuotient(x: real, q: int, unit: real)
    requires 0.0 < unit && Scale(q as real, unit) <= x < Scale((q + 1) as real, unit)
    ensures (x / unit).Floor == q
  {
    ScaleQuotient(x, unit);
    var y := x / unit;
    hide Scale;
    if y < q as real {
      ScaleGrows(y, q as real, unit);
    } else if (q + 1) as real <= y {
      ScaleGrows((q + 1) as real, y, unit);
    }
  }
}
