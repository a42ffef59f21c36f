/** Quotients and products of reals, one fact at a time. */
module Reals {
  import opened Arith

  function Ratio(n: int, d: int): real
    requires d != 0
  {
    n as real / d as real
  }

  lemma RatioScaled(z: int, d: int)
    requires d != 0
    ensures d as real * Ratio(z, d) == z as real
  {}

  lemma RealMonotone(k: real, x: real, y: real)
    requires k >= 0.0 && x <= y
    ensures k * x <= k * y
  {}

  lemma StrictlyMonotone(k: real, x: real, y: real)
    requires k > 0.0 && x < y
    ensures k * x < k * y
  {}

  /** A quotient and the integer it rounds down to. */
  lemma RatioBetween(z: int, d: int, q: int)
    requires d > 0 && d * q <= z < d * q + d
    ensures q as real <= Ratio(z, d) < q as real + 1.0
  {
    hide Ratio;
    var r, e, n := Ratio(z, d), d as real, q as real;
    RatioScaled(z, d);
    assert (d * q) as real == e * n;
    assert e * (n + 1.0) == e * n + e;
    if r < n { StrictlyMonotone(e, r, n); }
    if r >= n + 1.0 { RealMonotone(e, n + 1.0, r); }
  }

  lemma FloorOf(n: nat, d: nat)
    requires d > 0
    ensures (n / d) as real <= Ratio(n, d) < (n / d) as real + 1.0
  {
    DivMod(n, d);
    RatioBetween(n, d, n / d);
  }

  /** A quotient of reals, named so that a proof can hold it as one term. */
  function Over(n: real, d: real): real
    requires d != 0.0
  {
    n / d
  }

  lemma Cancel(n: real, d: real)
    requires d != 0.0
    ensures Over(n, d) * d == n
  {}

  /** The only number that times d is n. */
  lemma OverIs(q: real, n: real, d: real)
    requires d != 0.0 && q * d == n
    ensures Over(n, d) == q
  {
    Cancel(n, d);
    hide Over;
    var r := Over(n, d) - q;
    assert r * d == Over(n, d) * d - q * d;
    if r != 0.0 { NonZero(r, d); }
  }

  lemma NonZero(x: real, y: real)
    requires x != 0.0 && y != 0.0
    ensures x * y != 0.0
  {}

  lemma OverAdds(x: real, y: real, d: real)
    requires d != 0.0
    ensures Over(x + y, d) == Over(x, d) + Over(y, d) && Over(x - y, d) == Over(x, d) - Over(y, d)
  {
    Cancel(x, d);
    Cancel(y, d);
    hide Over;
    var a, b := Over(x, d), Over(y, d);
    assert (a + b) * d == a * d + b * d && (a - b) * d == a * d - b * d;
    OverIs(a + b, x + y, d);
    OverIs(a - b, x - y, d);
  }

  lemma OverTimes(k: real, x: real, d: real)
    requires d != 0.0
    ensures Over(k * x, d) == k * Over(x, d) && Over(x * k, d) == k * Over(x, d)
  {
    Cancel(x, d);
    hide Over;
    assert k * Over(x, d) * d == k * (Over(x, d) * d);
    OverIs(k * Over(x, d), k * x, d);
    assert x * k == k * x;
  }

  lemma OverMonotone(x: real, y: real, d: real)
    requires d > 0.0 && x <= y
    ensures Over(x, d) <= Over(y, d)
  {
    Cancel(x, d);
    Cancel(y, d);
    var a, b := Over(x, d), Over(y, d);
    hide Over;
    if a > b { StrictlyMonotone(d, b, a); }
  }

  lemma OverSign(x: real, d: real)
    requires d > 0.0 && x >= 0.0
    ensures Over(x, d) >= 0.0
  {
    OverMonotone(0.0, x, d);
    OverIs(0.0, 0.0, d);
  }

  lemma RatioIsOver(n: int, d: int)
    requires d != 0
    ensures Ratio(n, d) == Over(n as real, d as real)
  {}

  /** A product, named for the same reason. */
  function Mul(x: real, y: real): real { x * y }

  lemma MulOfInts(a: int, b: int)
    ensures (a * b) as real == Mul(a as real, b as real)
  {}

  lemma MulUnit(x: real)
    ensures Mul(1.0, x) == x && Mul(x, 1.0) == x
  {}

  lemma MulAdds(x: real, y: real, z: real)
    ensures Mul(x + y, z) == Mul(x, z) + Mul(y, z) && Mul(z, x + y) == Mul(z, x) + Mul(z, y)
    ensures Mul(x - y, z) == Mul(x, z) - Mul(y, z) && Mul(z, x - y) == Mul(z, x) - Mul(z, y)
  {}

  lemma MulCommutes(x: real, y: real)
    ensures Mul(x, y) == Mul(y, x)
  {}

  lemma MulMonotoneReal(k: real, x: real, y: real)
    requires k >= 0.0 && x <= y
    ensures Mul(k, x) <= Mul(k, y)
  {}

  lemma MulSign(x: real, y: real)
    ensures x >= 0.0 && y >= 0.0 ==> Mul(x, y) >= 0.0
    ensures Mul(-x, y) == -Mul(x, y) && Mul(x, -y) == -Mul(x, y)
  {}

  lemma OverMul(x: real, y: real, d: real)
    requires d != 0.0
    ensures Over(Mul(x, y), d) == Mul(Over(x, d), y)
  {
    OverTimes(y, x, d);
    assert Mul(x, y) == y * x;
    hide Over;
  }
}
