/** Integer arithmetic as the engine performs it: division that truncates toward zero,
    the two `mulDiv` roundings, ceiling division, and (magnitude, sign) pairs. */
module Arith {

  function Abs(x: int): (r: nat)
    ensures r == x || r == -x
  {
    if x >= 0 then x else -x
  }

  function Max(x: int, y: int): int { if x >= y then x else y }

  /** Signed division, truncating toward zero. */
  function TruncDiv(a: int, b: int): int
    requires b != 0
  {
    if (a >= 0) == (b > 0) then Abs(a) / Abs(b) else -(Abs(a) / Abs(b))
  }

  /** The remainder that goes with TruncDiv; it takes the sign of the dividend. */
  function TruncMod(a: int, b: int): int
    requires b != 0
  {
    a - b * TruncDiv(a, b)
  }

  lemma MdIsNat(a: nat, b: nat, c: nat)
    requires c > 0
    ensures a * b >= 0 && a * b / c >= 0
  {
    MulMonotone(a, 0, b);
    DivMod(a * b, c);
  }

  /** a*b/c on unsigned values. */
  function Md(a: nat, b: nat, c: nat): nat
    requires c > 0
  {
    MdIsNat(a, b, c);
    a * b / c
  }

  /** a*b/c rounded up. */
  function MdCeil(a: nat, b: nat, c: nat): nat
    requires c > 0
  {
    MdIsNat(a, b, c);
    if a * b % c != 0 then a * b / c + 1 else a * b / c
  }

  /** Ceiling division that adds one only when there is a remainder and the operands share a sign. */
  function DivCeil(a: int, b: int): int
    requires b != 0
  {
    if TruncMod(a, b) != 0 && (a < 0) == (b < 0) then TruncDiv(a, b) + 1 else TruncDiv(a, b)
  }

  /** Reduce a by b: what is left of each. */
  function ReduceValue(a: nat, b: nat): (nat, nat)
  {
    if a < b then (0, b - a) else (a - b, 0)
  }

  function DiffAbs(x: nat, y: nat): nat
  {
    if x >= y then x - y else y - x
  }

  lemma MulMonotone(k: int, x: int, y: int)
    requires x <= y && k >= 0
    ensures k * x <= k * y
  {
  }

  /** Quotient and remainder recompose. */
  lemma DivMod(n: int, d: int)
    requires d > 0
    ensures d * (n / d) + n % d == n
    ensures 0 <= n % d < d
    ensures d * (n / d) <= n < d * (n / d) + d
    ensures n >= 0 ==> n / d >= 0
  {
  }

  lemma SplitUnique(d: int, q1: int, r1: int, q2: int, r2: int)
    requires 0 <= r1 < d && 0 <= r2 < d && d * q1 + r1 == d * q2 + r2
    ensures q1 == q2 && r1 == r2
  {
    if q1 > q2 {
      MulMonotone(d, 1, q1 - q2);
    } else if q1 < q2 {
      MulMonotone(d, 1, q2 - q1);
    }
  }

  /** The quotient is the only integer whose multiple leaves a remainder below the divisor. */
  lemma QuotientUnique(n: int, d: int, q: int, r: int)
    requires 0 <= r < d && n == d * q + r
    ensures n / d == q && n % d == r
  {
    DivMod(n, d);
    SplitUnique(d, n / d, n % d, q, r);
  }

  lemma DivMonotone(a: int, b: int, d: int)
    requires d > 0 && a <= b
    ensures a / d <= b / d
  {
    DivMod(a, d);
    DivMod(b, d);
    if a / d >= b / d + 1 {
      MulMonotone(d, b / d + 1, a / d);
    }
  }

  /** A product over its own factor. */
  lemma DivCancel(k: int, d: int)
    requires d > 0
    ensures d * k / d == k && k * d / d == k && 0 / d == 0
  {
    QuotientUnique(d * k, d, k, 0);
    QuotientUnique(0, d, 0, 0);
  }

  /** Two floors against one: the parts lose at most one unit. */
  lemma FloorSplit(a: nat, b: nat, n: nat)
    requires n > 0
    ensures a / n + b / n <= (a + b) / n <= a / n + b / n + 1
  {
    DivMod(a, n);
    DivMod(b, n);
    var r := a % n + b % n;
    if r >= n {
      assert n * (a / n + b / n + 1) == n * (a / n) + n * (b / n) + n;
      QuotientUnique(a + b, n, a / n + b / n + 1, r - n);
    } else {
      assert n * (a / n + b / n) == n * (a / n) + n * (b / n);
      QuotientUnique(a + b, n, a / n + b / n, r);
    }
  }

  /** Truncation never leaves the value by a whole unit, and never moves away from zero. */
  lemma TruncDivBounds(n: int, d: int)
    requires d > 0
    ensures n >= 0 ==> TruncDiv(n, d) >= 0 && d * TruncDiv(n, d) <= n < d * TruncDiv(n, d) + d
    ensures n <= 0 ==> TruncDiv(n, d) <= 0 && d * TruncDiv(n, d) - d < n <= d * TruncDiv(n, d)
  {
    DivMod(Abs(n), d);
    DivCancel(0, d);
  }

  /** A (magnitude, sign) pair. The sign of a zero magnitude carries no meaning. */
  datatype Signed = Signed(mag: nat, pos: bool) {
    function Val(): int { if pos then mag as int else -(mag as int) }
    function Neg(): Signed { Signed(mag, !pos) }
  }

  const ZERO_SIGNED := Signed(0, false)

  /** Sum of two pairs, with the sign the engine gives a zero result. */
  function SignedSum(x: Signed, y: Signed): (z: Signed)
    ensures z.Val() == x.Val() + y.Val()
  {
    Signed(if x.pos == y.pos then x.mag + y.mag else if x.mag > y.mag then x.mag - y.mag else y.mag - x.mag,
           if x.pos == y.pos then x.pos else (x.mag > y.mag) == x.pos)
  }

  lemma SumValue(x: Signed, y: Signed)
    ensures SignedSum(x, y).Val() == x.Val() + y.Val()
  {}

  lemma SameValue(x: Signed, y: Signed)
    requires x.Val() == y.Val()
    ensures x.mag == y.mag
    ensures x.mag != 0 ==> x.pos == y.pos
  {
  }

  datatype Result<+T> = Ok(value: T) | Err(code: string) {
    predicate IsFailure() { Err? }
    function PropagateFailure<U>(): Result<U> requires Err? { Err(code) }
    function Extract(): T requires Ok? { value }
  }

  /** a*b/c, reverting on a zero divisor. */
  function MdR(a: nat, b: nat, c: nat): Result<nat>
  {
    if c == 0 then Err("DIV0") else Ok(Md(a, b, c))
  }

  function DivR(a: nat, c: nat): Result<nat>
  {
    if c == 0 then Err("DIV0") else
      DivMod(a, c);
      Ok(a / c)
  }

  /** x - y on unsigned values, reverting on underflow. */
  function SubR(x: nat, y: nat): Result<nat>
  {
    if x < y then Err("UNDERFLOW") else Ok(x - y)
  }
}
