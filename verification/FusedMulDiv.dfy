/** The overflow-safe signed mul-div, and the recovery of an LP balance from its snapshot. */
module FusedMulDiv {
  import opened Arith

  /** One product split against the divisor: its sign, and the quotient and remainder of its magnitude. */
  datatype Parts = Parts(positive: bool, quotient: nat, remainder: nat) {
    /** The signed product, from its parts. */
    function Product(d: int): int {
      if positive then d * quotient + remainder else -(d * quotient + remainder)
    }
  }

  function MulDivParts(value: int, multiplier: int, absDenominator: nat): (p: Parts)
    requires absDenominator > 0
    ensures p.remainder < absDenominator
    ensures p.Product(absDenominator) == value * multiplier
  {
    AbsProduct(value, multiplier);
    var n := Abs(value) * Abs(multiplier);
    DivMod(n, absDenominator);
    Parts((value >= 0) == (multiplier >= 0), n / absDenominator, n % absDenominator)
  }

  lemma AbsProduct(a: int, b: int)
    ensures Abs(a) * Abs(b) >= 0
    ensures a * b == if (a >= 0) == (b >= 0) then Abs(a) * Abs(b) else -(Abs(a) * Abs(b))
  {
    MulMonotone(Abs(a), 0, Abs(b));
  }

  function SubQuotientRemainder(lq: nat, lr: nat, sq: nat, sr: nat): Result<nat>
  {
    if lr >= sr then SubR(lq, sq)
    else if lq == sq then Ok(0)
    else if lq >= sq + 1 then Ok(lq - sq - 1) else Err("UNDERFLOW")
  }

  /** value*multiplier/denominator, magnitude floored and sign reapplied. */
  function MulDivSigned(value: int, multiplier: int, denominator: int): (r: Result<int>)
    ensures r == if denominator == 0 then Err("M0") else Ok(TruncDiv(value * multiplier, denominator))
  {
    if denominator == 0 then Err("M0")
    else
      AbsProduct(value, multiplier);
      var q := Abs(value) * Abs(multiplier) / Abs(denominator);
      var positive := ((value >= 0) == (multiplier >= 0)) == (denominator >= 0);
      DivCancel(0, Abs(denominator));
      Ok(if positive then q else -q)
  }

  /** first*firstMul + second*secondMul over denominator, from quotients and remainders alone. */
  function SumMulDivSigned(v1: int, m1: int, v2: int, m2: int, denominator: int): (r: Result<int>)
  {
    if denominator == 0 then Err("M0")
    else FuseParts(MulDivParts(v1, m1, Abs(denominator)), MulDivParts(v2, m2, Abs(denominator)), denominator)
  }

  /** Carry when the signed parts agree, borrow from the larger when they do not. */
  function FuseParts(p1: Parts, p2: Parts, denominator: int): Result<int>
  {
    var s1, s2 := p1.positive == (denominator > 0), p2.positive == (denominator > 0);
    if s1 == s2 then
      var q := p1.quotient + p2.quotient + (if p1.remainder + p2.remainder >= Abs(denominator) then 1 else 0);
      Ok(ApplySign(s1, q))
    else if p1.quotient == p2.quotient && p1.remainder == p2.remainder then Ok(0)
    else if p1.quotient > p2.quotient || (p1.quotient == p2.quotient && p1.remainder > p2.remainder) then
      var q :- SubQuotientRemainder(p1.quotient, p1.remainder, p2.quotient, p2.remainder);
      Ok(ApplySign(s1, q))
    else
      var q :- SubQuotientRemainder(p2.quotient, p2.remainder, p1.quotient, p1.remainder);
      Ok(ApplySign(s2, q))
  }

  function ApplySign(positive: bool, magnitude: nat): int
  {
    if positive then magnitude else 0 - magnitude
  }

  /** Truncated division, named by its sign and by a quotient and remainder of the magnitude. */
  lemma TruncDivBySplit(n: int, denominator: int, positive: bool, q: nat, r: nat)
    requires denominator != 0 && r < Abs(denominator)
    requires n == if positive == (denominator > 0) then Abs(denominator) * q + r else -(Abs(denominator) * q + r)
    ensures TruncDiv(n, denominator) == ApplySign(positive, q)
  {
    var d := Abs(denominator);
    MulMonotone(d, 0, q);
    assert Abs(n) == d * q + r;
    QuotientUnique(Abs(n), d, q, r);
    if n == 0 && q >= 1 { MulMonotone(d, 1, q); }
  }

  lemma CarryIsExact(n: int, denominator: int, positive: bool, q1: nat, r1: nat, q2: nat, r2: nat)
    requires denominator != 0 && r1 < Abs(denominator) && r2 < Abs(denominator)
    requires var m := Abs(denominator) * q1 + r1 + (Abs(denominator) * q2 + r2);
             n == if positive == (denominator > 0) then m else -m
    ensures TruncDiv(n, denominator)
            == ApplySign(positive, q1 + q2 + (if r1 + r2 >= Abs(denominator) then 1 else 0))
  {
    var d := Abs(denominator);
    if r1 + r2 >= d {
      assert d * (q1 + q2 + 1) == d * q1 + d * q2 + d;
      TruncDivBySplit(n, denominator, positive, q1 + q2 + 1, r1 + r2 - d);
    } else {
      assert d * (q1 + q2) == d * q1 + d * q2;
      TruncDivBySplit(n, denominator, positive, q1 + q2, r1 + r2);
    }
  }

  lemma BorrowIsExact(n: int, denominator: int, positive: bool, lq: nat, lr: nat, sq: nat, sr: nat)
    requires denominator != 0 && lr < Abs(denominator) && sr < Abs(denominator)
    requires lq > sq || (lq == sq && lr > sr)
    requires var m := Abs(denominator) * lq + lr - (Abs(denominator) * sq + sr);
             n == if positive == (denominator > 0) then m else -m
    ensures var r := SubQuotientRemainder(lq, lr, sq, sr);
            r.Ok? && TruncDiv(n, denominator) == ApplySign(positive, r.value)
  {
    var d := Abs(denominator);
    if lr >= sr {
      assert d * (lq - sq) == d * lq - d * sq;
      TruncDivBySplit(n, denominator, positive, lq - sq, lr - sr);
    } else {
      assert d * (lq - sq - 1) == d * lq - d * sq - d;
      TruncDivBySplit(n, denominator, positive, lq - sq - 1, lr - sr + d);
    }
  }

  /** The fused mul-div is exact for every sign pattern, though it only carries or borrows
      between separate quotients and remainders; it fails only on a zero denominator. */
  lemma FusedMulDivIsExact(v1: int, m1: int, v2: int, m2: int, denominator: int)
    ensures SumMulDivSigned(v1, m1, v2, m2, denominator)
            == if denominator == 0 then Err("M0") else Ok(TruncDiv(v1 * m1 + v2 * m2, denominator))
  {
    if denominator != 0 {
      var d := Abs(denominator);
      var p1, p2 := MulDivParts(v1, m1, d), MulDivParts(v2, m2, d);
      FusedPartsAreExact(p1, p2, v1 * m1 + v2 * m2, denominator);
    }
  }

  lemma FusedPartsAreExact(p1: Parts, p2: Parts, n: int, denominator: int)
    requires denominator != 0 && p1.remainder < Abs(denominator) && p2.remainder < Abs(denominator)
    requires n == p1.Product(Abs(denominator)) + p2.Product(Abs(denominator))
    ensures FuseParts(p1, p2, denominator) == Ok(TruncDiv(n, denominator))
  {
    var s1, s2 := p1.positive == (denominator > 0), p2.positive == (denominator > 0);
    var q1, q2, r1, r2 := p1.quotient, p2.quotient, p1.remainder, p2.remainder;
    if s1 == s2 {
      CarryIsExact(n, denominator, s1, q1, r1, q2, r2);
    } else if q1 == q2 && r1 == r2 {
      TruncDivBySplit(n, denominator, true, 0, 0);
    } else if q1 > q2 || (q1 == q2 && r1 > r2) {
      BorrowIsExact(n, denominator, s1, q1, r1, q2, r2);
    } else {
      BorrowIsExact(n, denominator, s2, q2, r2, q1, r1);
    }
  }

  lemma FusedEquals(v1: int, m1: int, v2: int, m2: int, denominator: int, n: int)
    requires denominator != 0 && v1 * m1 + v2 * m2 == n
    ensures SumMulDivSigned(v1, m1, v2, m2, denominator) == Ok(TruncDiv(n, denominator))
  {
    FusedMulDivIsExact(v1, m1, v2, m2, denominator);
  }

  /** A 2x2 fixed-point matrix, row-major. Row 0 is the stable row, row 1 the asset row. */
  datatype Mat = Mat(m00: int, m01: int, m10: int, m11: int) {
    function RawDet(): int { m00 * m11 - m10 * m01 }
  }

  const Q80: int := 0x1_0000_0000_0000_0000_0000

  /** The determinant at matrix scale, required positive. */
  function PositiveDeterminantFixed(s: Mat, scale: int): Result<int>
  {
    var det :- SumMulDivSigned(s.m00, s.m11, -s.m10, s.m01, scale);
    if det > 0 then Ok(det) else Err("MDET")
  }

  /** LP balance M(t) * adj(M(t0)) * v / det(M(t0)), on the raw path up to Q80 and on the reduced path above it. */
  function RecoverLpBalance(cur: Mat, snap: Mat, p: nat, q: nat, scale: int): Result<(int, int)>
  {
    if scale <= Q80 then
      var u0 := snap.m11 * p - snap.m01 * q;
      var u1 := -snap.m10 * p + snap.m00 * q;
      var z0 := cur.m00 * u0 + cur.m01 * u1;
      var z1 := cur.m10 * u0 + cur.m11 * u1;
      var det := snap.RawDet();
      if det <= 0 then Err("MDET")
      else
        Ok((MulDivSigned(z0, 1, det).value, MulDivSigned(z1, 1, det).value))
    else
      var n00 :- SumMulDivSigned(cur.m00, snap.m11, -cur.m01, snap.m10, scale);
      var n01 :- SumMulDivSigned(-cur.m00, snap.m01, cur.m01, snap.m00, scale);
      var n10 :- SumMulDivSigned(cur.m10, snap.m11, -cur.m11, snap.m10, scale);
      var n11 :- SumMulDivSigned(-cur.m10, snap.m01, cur.m11, snap.m00, scale);
      var det :- PositiveDeterminantFixed(snap, scale);
      var stable :- SumMulDivSigned(n00, p, n01, q, det);
      var asset :- SumMulDivSigned(n10, p, n11, q, det);
      Ok((stable, asset))
  }

  /** Funding owed: (delta G) * adj(M(t0)) * v / det(M(t0)), brought back from matrix and G scale. */
  function RecoverFundingStar(dg0: int, dg1: int, snap: Mat, p: nat, q: nat, scale: int, gScale: nat): Result<int>
  {
    if scale <= Q80 then
      var u0 := snap.m11 * p - snap.m01 * q;
      var u1 := -snap.m10 * p + snap.m00 * q;
      var z := dg0 * u0 + dg1 * u1;
      var det := snap.RawDet();
      if det <= 0 then Err("MDET") else MulDivSigned(z, scale, det * gScale)
    else
      var w0 :- SumMulDivSigned(dg0, snap.m11, -dg1, snap.m10, scale);
      var w1 :- SumMulDivSigned(-dg0, snap.m01, dg1, snap.m00, scale);
      var z := w0 * p + w1 * q;
      var det :- PositiveDeterminantFixed(snap, scale);
      MulDivSigned(z, scale, det * gScale)
  }

  lemma TruncDivExactMultiple(k: nat, d: int)
    requires d > 0
    ensures TruncDiv(d * k, d) == k && TruncDiv(0, d) == 0
  {
    MulMonotone(d, 0, k);
    DivCancel(k, d);
  }

  /** Recovery against the snapshot's own matrix returns the initial balances exactly, on both
      paths; it succeeds exactly when the determinant the path looks at is positive. */
  lemma RecoveryAtSnapshotIsExact(snap: Mat, p: nat, q: nat, scale: int)
    requires scale > 0
    ensures var det := if scale <= Q80 then snap.RawDet() else TruncDiv(snap.RawDet(), scale);
            RecoverLpBalance(snap, snap, p, q, scale) == if det > 0 then Ok((p as int, q as int)) else Err("MDET")
  {
    if scale <= Q80 {
      RawPathIsExact(snap, p, q, scale);
    } else {
      ReducedPathIsExact(snap, p, q, scale);
    }
  }

  lemma RawPathIsExact(snap: Mat, p: nat, q: nat, scale: int)
    requires 0 < scale <= Q80
    ensures RecoverLpBalance(snap, snap, p, q, scale)
            == if snap.RawDet() > 0 then Ok((p as int, q as int)) else Err("MDET")
  {
    var a, b, c, d := snap.m00, snap.m01, snap.m10, snap.m11;
    var raw := snap.RawDet();
    OwnMatrixStable(a, b, c, d, p, q);
    OwnMatrixAsset(a, b, c, d, p, q);
    if raw > 0 {
      TruncDivExactMultiple(p, raw);
      TruncDivExactMultiple(q, raw);
      assert (raw * p) * 1 == raw * p && (raw * q) * 1 == raw * q;
    }
  }

  lemma ReducedPathIsExact(snap: Mat, p: nat, q: nat, scale: int)
    requires scale > Q80
    ensures var det := TruncDiv(snap.RawDet(), scale);
            RecoverLpBalance(snap, snap, p, q, scale) == if det > 0 then Ok((p as int, q as int)) else Err("MDET")
  {
    hide SumMulDivSigned;
    var a, b, c, d := snap.m00, snap.m01, snap.m10, snap.m11;
    var raw := snap.RawDet();
    var det := TruncDiv(raw, scale);
    FusedEquals(a, d, -b, c, scale, raw);
    FusedEquals(-a, b, b, a, scale, 0);
    FusedEquals(c, d, -d, c, scale, 0);
    FusedEquals(-c, b, d, a, scale, raw);
    FusedEquals(a, d, -c, b, scale, raw);
    DivCancel(0, scale);
    if det > 0 {
      FusedEquals(det, p, 0, q, det, det * p);
      FusedEquals(0, p, det, q, det, det * q);
      TruncDivExactMultiple(p, det);
      TruncDivExactMultiple(q, det);
    }
  }

  lemma OwnMatrixStable(a: int, b: int, c: int, d: int, p: int, q: int)
    ensures a * (d * p - b * q) + b * (-c * p + a * q) == (a * d - c * b) * p
  {
    assert a * (d * p) == (a * d) * p && a * (b * q) == (a * b) * q;
    assert b * (-c * p) == -(c * b) * p && b * (a * q) == (a * b) * q;
  }

  lemma OwnMatrixAsset(a: int, b: int, c: int, d: int, p: int, q: int)
    ensures c * (d * p - b * q) + d * (-c * p + a * q) == (a * d - c * b) * q
  {
    assert c * (d * p) == (c * d) * p && c * (b * q) == (c * b) * q;
    assert d * (-c * p) == -(c * d) * p && d * (a * q) == (a * d) * q;
  }
}
