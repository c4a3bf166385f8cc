/** Values shared by every part of the exchange model. */
module Common {

  datatype Option<+T> = None | Some(value: T)

  datatype Side = Bid | Ask

  function Opposite(side: Side): Side {
    if side == Bid then Ask else Bid
  }

  /** The range of the C++ `int` that carries prices and quantities. */
  const MAX_INT := 0x7fff_ffff
  const MIN_INT := -0x8000_0000

  /** Sentinel limits that stand for "any price" in a market order. */
  const MARKET_BID_ORDER_PRICE := MAX_INT
  const MARKET_ASK_ORDER_PRICE := MIN_INT

  type Int32 = x: int | MIN_INT <= x <= MAX_INT

  const TWO_32 := 0x1_0000_0000

  /** What 32 bits keep of an integer, in two's complement. */
  function Wrap32(x: int): (r: Int32)
    ensures (x - r) % TWO_32 == 0
  {
    var low := x % TWO_32;
    if low > MAX_INT then low - TWO_32 else low
  }

  predicate Fits32(x: int) {
    MIN_INT <= x <= MAX_INT
  }

  lemma WrapKeepsIff(x: int)
    ensures Wrap32(x) == x <==> Fits32(x)
  {
  }

  lemma WrapEqualIff(x: int, y: int)
    ensures Wrap32(x) == Wrap32(y) <==> (x - y) % TWO_32 == 0
  {
  }

  lemma WrapSum(a: int, b: int)
    ensures Wrap32(a + Wrap32(b)) == Wrap32(a + b)
  {
    WrapEqualIff(a + Wrap32(b), a + b);
    assert (a + Wrap32(b)) - (a + b) == -(b - Wrap32(b));
  }

  /** Amounts are integers without a bound, or the 32 bits the code keeps of them. */
  datatype Width = Exact | Bits32

  function Keep(w: Width, x: int): int {
    if w.Exact? then x else Wrap32(x)
  }

  predicate Fits(w: Width, x: int) {
    w.Exact? || Fits32(x)
  }

  /** What is lost of an amount. */
  function Lost(w: Width, x: int): int {
    x - Keep(w, x)
  }

  lemma KeepIff(w: Width, x: int)
    ensures Keep(w, x) == x <==> Fits(w, x)
    ensures x >= 0 ==> Lost(w, x) >= 0
  {
  }

  /** A resting order. */
  datatype Order = Order(id: int, price: int, qty: int, side: Side, trader: string)

  /** An execution; its opaque id and timestamp are not modelled. */
  datatype Trade = Trade(
    ticker: string,
    price: int,
    qty: int,
    takerId: string,
    makerId: string,
    takerOrder: int,
    makerOrder: int,
    takerIsBuyer: bool)

  function Notional(t: Trade): int {
    t.price * t.qty
  }

  /** The sum of all values of a finite map. */
  ghost function SumMap<K>(m: map<K, int>): int {
    if m.Keys == {} then 0
    else
      var k :| k in m.Keys;
      m[k] + SumMap(m - {k})
  }

  /** Any key may be taken out first. */
  lemma {:induction false} SumMapRemove<K>(m: map<K, int>, k: K)
    requires k in m
    ensures SumMap(m) == m[k] + SumMap(m - {k})
    decreases |m.Keys|
  {
    var j :| j in m.Keys && SumMap(m) == m[j] + SumMap(m - {j});
    if j != k {
      assert |(m - {j}).Keys| < |m.Keys| by { assert (m - {j}).Keys == m.Keys - {j}; }
      assert |(m - {k}).Keys| < |m.Keys| by { assert (m - {k}).Keys == m.Keys - {k}; }
      SumMapRemove(m - {j}, k);
      SumMapRemove(m - {k}, j);
      assert m - {j} - {k} == m - {k} - {j};
    }
  }

  /** Updating one key moves the sum by the change of that key. */
  lemma SumMapUpdate<K>(m: map<K, int>, k: K, v: int)
    ensures SumMap(m[k := v]) == SumMap(m) + v - (if k in m then m[k] else 0)
  {
    var n := m[k := v];
    SumMapRemove(n, k);
    if k in m {
      SumMapRemove(m, k);
      assert n - {k} == m - {k};
    } else {
      assert n - {k} == m;
    }
  }

  /** A map of non-negative values dominates each of its values. */
  lemma {:induction false} SumMapNonNegative<K>(m: map<K, int>)
    requires forall k :: k in m ==> m[k] >= 0
    ensures SumMap(m) >= 0
    ensures forall k :: k in m ==> m[k] <= SumMap(m)
    decreases |m.Keys|
  {
    forall k | k in m
      ensures SumMap(m - {k}) >= 0 && SumMap(m) == m[k] + SumMap(m - {k})
    {
      SumMapRemove(m, k);
      assert |(m - {k}).Keys| < |m.Keys| by { assert (m - {k}).Keys == m.Keys - {k}; }
      SumMapNonNegative(m - {k});
    }
  }
}
