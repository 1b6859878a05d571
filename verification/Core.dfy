/** Vocabulary shared by every component: sides, options, and finite sums. */
module Core {

  datatype Option<+T> = None | Some(value: T)

  // Tickers and order ids are opaque tokens to this system: they are compared,
  // used as keys, and (tickers only) sorted.
  type Symbol = nat
  type OrderId = nat

  datatype Side = Buy | Sell {
    function Sign(): int {
      if Buy? then 1 else -1
    }
  }

  /** A quantity as a position change: positive when bought, negative when sold. */
  function Signed(side: Side, n: int): int {
    if side.Buy? then n else -n
  }

  function Abs(x: int): nat {
    if x < 0 then -x else x
  }

  function Max(x: int, y: int): int {
    if x < y then y else x
  }

  function Min(x: int, y: int): int {
    if x < y then x else y
  }

  function MaxR(x: real, y: real): real {
    if x < y then y else x
  }

  function MinR(x: real, y: real): real {
    if y < x then y else x
  }

  /** The sum of all values of a map, whatever the order they are visited in. */
  ghost function SumValues<K>(m: map<K, real>): real {
    if m == map[] then 0.0 else
      var k :| k in m;
      m[k] + SumValues(m - {k})
  }

  lemma {:induction false} SumValuesRemove<K>(m: map<K, real>, k: K)
    requires k in m
    ensures SumValues(m) == m[k] + SumValues(m - {k})
    decreases |m|
  {
    var j :| j in m && SumValues(m) == m[j] + SumValues(m - {j});
    if j != k {
      SumValuesRemove(m - {j}, k);
      SumValuesRemove(m - {k}, j);
      assert (m - {j}) - {k} == (m - {k}) - {j};
    }
  }
}
