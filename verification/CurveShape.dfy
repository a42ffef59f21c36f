/** The AMM curve over the reals: the coefficients of the four cubics with their fixed-point
    scales removed, the invariant they all come from, and where their roots lie. */
module CurveShape {
  import opened Reals

  datatype Cubic = Cubic(a: real, b: real, c: real, d: real) {
    function At(x: real): real { a * x * x * x + b * x * x + c * x + d }
  }

  /** Oracle price p, pool anchors x0 (asset) and y0 (stable), curve parameters A and B. */
  datatype Pool = Pool(p: real, x0: real, y0: real, A: real, B: real) {
    predicate Valid() { p > 0.0 && x0 > 0.0 && y0 > 0.0 && A >= 0.0 && B >= 0.0 }

    /** Pool value in stable, at the oracle price. */
    function Value(): (v: real)
      requires Valid()
      ensures v > 0.0
    {
      Times(p, x0) + y0
    }

    /** The curve parameter A per unit of pool value, the only place where A enters. */
    function W(): (w: real)
      requires Valid()
      ensures w >= 0.0 && (w > 0.0 <==> A > 0.0)
    {
      PositiveRatio(A, Value());
      A / Value()
    }
  }

  /** A product of positive reals, named so that its sign is known. */
  function Times(x: real, y: real): (r: real)
    requires x > 0.0 && y > 0.0
    ensures r > 0.0
  {
    x * y
  }

  lemma PositiveRatio(a: real, v: real)
    requires a >= 0.0 && v > 0.0
    ensures a / v >= 0.0 && (a / v > 0.0 <==> a > 0.0)
  {}

  function Square(x: real): real { x * x }

  lemma SquarePositive(x: real)
    requires x != 0.0
    ensures Square(x) > 0.0
  {
    var s := if x > 0.0 then Times(x, x) else Times(-x, -x);
  }

  lemma SquareNonNegative(x: real)
    ensures Square(x) >= 0.0
  {
    if x != 0.0 { SquarePositive(x); }
  }

  // ----- The four cubics -----

  /** Direct long: the cubic in the new asset amount x, for dy stable paid in. */
  function DirectLong(k: Pool, dy: real): Cubic
    requires k.Valid()
  {
    LongCubic(k.W(), k.p, k.x0, k.B, dy)
  }

  function LongCubic(w: real, p: real, x0: real, B: real, dy: real): Cubic
    requires x0 > 0.0
  {
    var lam := p * x0 + dy;
    Cubic(lam * lam * lam / Times(x0, x0), LongB(w, p, x0, B, lam), LongC(w, p, x0, B, lam, dy), LongD(p, x0, B))
  }

  function LongB(w: real, p: real, x0: real, B: real, lam: real): real
  {
    w * lam * (x0 * x0 * (p * p * p)) - lam * lam * p * (2.0 * B + 3.0)
  }

  function LongC(w: real, p: real, x0: real, B: real, lam: real, dy: real): real
  {
    var c2 := x0 * x0 * p * p * (B + 1.0) * ((B + 1.0) + 2.0);
    var c1 := w * (x0 * x0) * p * p * (dy - p * x0);
    lam * (c1 + c2)
  }

  function LongD(p: real, x0: real, B: real): real
  {
    -(x0 * x0 * p * p * p * x0 * x0 * (B + 1.0) * (B + 1.0))
  }

  /** Direct short: the cubic in the new stable amount y, for dx asset paid in. */
  function DirectShort(k: Pool, dx: real): Cubic
    requires k.Valid()
  {
    ShortCubic(k.W(), k.p, k.y0, k.B, dx)
  }

  function ShortCubic(w: real, p: real, y0: real, B: real, dx: real): Cubic
    requires y0 > 0.0
  {
    var lam := p * dx + y0;
    Cubic(lam * lam * lam / Times(y0, y0), ShortB(w, y0, B, lam), ShortC(w, p * dx, y0, B, lam), ShortD(y0, B))
  }

  function ShortB(w: real, y0: real, B: real, lam: real): real
  {
    w * (y0 * y0) * lam - lam * lam * (2.0 * B + 3.0)
  }

  function ShortC(w: real, pdx: real, y0: real, B: real, lam: real): real
  {
    var part := y0 * y0 * (B + 1.0);
    var c2 := part * (B + 1.0) + 2.0 * part;
    var c1 := w * (y0 * y0) * (pdx - y0);
    lam * (c1 + c2)
  }

  function ShortD(y0: real, B: real): real
  {
    -(y0 * y0 * (y0 * y0) * (B + 1.0) * (B + 1.0))
  }

  /** Inverse long: the cubic in the new stable amount y, once the new asset amount is x. */
  function InverseLong(k: Pool, x: real): Cubic
    requires k.Valid()
  {
    InverseLongCubic(LongWeight(k.W(), k.p, k.x0), k.p, k.x0, k.B, LongLambda(k, x), LongK(k), x)
  }

  function LongLambda(k: Pool, x: real): real { -(k.p * (k.x0 - x) + k.y0) }
  function LongK(k: Pool): real { k.p * k.x0 - k.y0 }

  function InverseLongCubic(A': real, p: real, x0: real, B: real, lam: real, k: real, x: real): Cubic
    requires x0 > 0.0
  {
    var x2 := Times(x0, x0);
    Cubic(x * x * x / Times(x2, x2),
          InverseLongB(A', p, x0, B, k, x), InverseLongC(A', p, x0, B, lam, k, x),
          InverseLongD(A', p, x0, B, lam, k, x))
  }

  function InverseLongB(A': real, p: real, x0: real, B: real, k: real, x: real): real
    requires x0 > 0.0
  {
    var t := k * x - LongAnchor(p, x0);
    Terms(A' * x + 2.0 * x * x * x * k + t * x * x, 0.0, 2.0 * x * x * p * (B + 1.0), Times(x0, x0))
  }

  function InverseLongC(A': real, p: real, x0: real, B: real, lam: real, k: real, x: real): real
    requires x0 > 0.0
  {
    var t := k * x - LongAnchor(p, x0);
    Terms(A' * x * (k + lam) + k * k * x * x * x + 2.0 * t * k * x * x,
          (B + 1.0) * (B + 1.0) * p * p * x,
          2.0 * x * x * (B + 1.0) * p * k + 2.0 * x * (B + 1.0) * t * p, Times(x0, x0))
  }

  function InverseLongD(A': real, p: real, x0: real, B: real, lam: real, k: real, x: real): real
    requires x0 > 0.0
  {
    var t := k * x - LongAnchor(p, x0);
    Terms(x * A' * k * lam + t * k * k * x * x,
          t * (B + 1.0) * (B + 1.0) * p * p,
          2.0 * t * x * (B + 1.0) * p * k, Times(x0, x0))
  }

  /** A coefficient's terms, grouped by what they are divided by: the anchor to the fourth, nothing, the anchor
      squared. */
  function Terms(overFourth: real, whole: real, overSquare: real, square: real): real
    requires square > 0.0
  {
    overFourth / Times(square, square) + whole - overSquare / square
  }

  /** Inverse short: the cubic in the new asset amount x, once the new stable amount is y. */
  function InverseShort(k: Pool, y: real): Cubic
    requires k.Valid()
  {
    InverseShortCubic(ShortWeight(k.W(), k.y0), k.p, k.y0, k.B, ShortLambda(k, y), ShortK(k), y)
  }

  function ShortLambda(k: Pool, y: real): real { y - k.y0 - k.p * k.x0 }
  function ShortK(k: Pool): real { k.y0 - k.p * k.x0 }

  function InverseShortCubic(A': real, p: real, y0: real, B: real, lam: real, k: real, y: real): Cubic
    requires y0 > 0.0 && p > 0.0
  {
    var y2, p2 := Times(y0, y0), Times(p, p);
    Cubic(Over(y * y * y, Times(y2, y2)),
          Over(InverseShortB(A', y0, B, k, y), p),
          Over(InverseShortC(A', y0, B, lam, k, y), p2),
          Over(InverseShortD(A', y0, B, lam, k, y), Times(p2, p)))
  }

  function InverseShortB(A': real, y0: real, B: real, k: real, y: real): real
    requires y0 > 0.0
  {
    var t := k * y - ShortAnchor(y0);
    Terms(A' * y + 2.0 * y * y * y * k + t * y * y, 0.0, 2.0 * y * y * (B + 1.0), Times(y0, y0))
  }

  function InverseShortC(A': real, y0: real, B: real, lam: real, k: real, y: real): real
    requires y0 > 0.0
  {
    var t := k * y - ShortAnchor(y0);
    Terms(A' * y * (k + lam) + k * k * y * y * y + 2.0 * t * k * y * y,
          (B + 1.0) * (B + 1.0) * y,
          2.0 * y * y * (B + 1.0) * k + 2.0 * y * (B + 1.0) * t, Times(y0, y0))
  }

  function InverseShortD(A': real, y0: real, B: real, lam: real, k: real, y: real): real
    requires y0 > 0.0
  {
    var t := k * y - ShortAnchor(y0);
    Terms(y * A' * k * lam + t * k * k * y * y,
          t * (B + 1.0) * (B + 1.0),
          2.0 * t * y * (B + 1.0) * k, Times(y0, y0))
  }

  // ----- The invariant cleared of denominators -----

  /** K*sum*z + (z - P)*((B+1)P - z)^2: sum is the constant-sum side, z the product side, P the product at the
      anchor. */
  function Form(K: real, B: real, sum: real, z: real, P: real): real
  {
    K * sum * z + (z - P) * Square((B + 1.0) * P - z)
  }

  /** A' of a long, A*p^2*x0^4 over the pool value, and its product side at the anchor. */
  function LongWeight(w: real, p: real, x0: real): real { w * LongScale(p, x0) }
  function LongScale(p: real, x0: real): real { p * p * (x0 * x0 * x0 * x0) }
  function LongAnchor(p: real, x0: real): real { p * x0 * x0 }

  /** A' of a short, A*y0^4 over the pool value, and its product side at the anchor. */
  function ShortWeight(w: real, y0: real): real { w * ShortScale(y0) }
  function ShortScale(y0: real): real { y0 * y0 * y0 * y0 }
  function ShortAnchor(y0: real): real { y0 * y0 }

  /** p(x - x0) + (y - y0), zero on the constant-sum line. */
  function SumSide(k: Pool, x: real, y: real): real { k.p * (x - k.x0) + (y - k.y0) }

  /** The constant-product side, shifted along the stable axis for longs and along the asset axis for shorts. */
  function LongProduct(k: Pool, x: real, y: real): real { (y - k.y0 + k.p * k.x0) * x }
  function ShortProduct(k: Pool, x: real, y: real): real { (k.p * (x - k.x0) + k.y0) * y }

  function LongForm(k: Pool, x: real, y: real): real
    requires k.Valid()
  {
    Form(LongWeight(k.W(), k.p, k.x0), k.B, SumSide(k, x, y), LongProduct(k, x, y), LongAnchor(k.p, k.x0))
  }

  function ShortForm(k: Pool, x: real, y: real): real
    requires k.Valid()
  {
    Form(ShortWeight(k.W(), k.y0), k.B, SumSide(k, x, y), ShortProduct(k, x, y), ShortAnchor(k.y0))
  }

  lemma ScaleCubic(q: Cubic, x: real, s: real, r: Cubic)
    requires q.a * s == r.a && q.b * s == r.b && q.c * s == r.c && q.d * s == r.d
    ensures q.At(x) * s == r.At(x)
  {
    assert q.At(x) * s == (q.a * s) * x * x * x + (q.b * s) * x * x + (q.c * s) * x + q.d * s;
  }

  /** The form as a cubic in x, when the product side is lam*x and the sum side is slope*x + offset. */
  function FormAsCubic(K: real, B: real, lam: real, slope: real, offset: real, P: real): Cubic
  {
    Cubic(lam * lam * lam, FormB(K, B, lam, slope, P), FormC(K, B, lam, offset, P), FormD(B, P))
  }

  function FormB(K: real, B: real, lam: real, slope: real, P: real): real
  {
    K * slope * lam - (2.0 * B + 3.0) * P * lam * lam
  }

  function FormC(K: real, B: real, lam: real, offset: real, P: real): real
  {
    lam * (K * offset + (B + 1.0) * (B + 3.0) * P * P)
  }

  function FormD(B: real, P: real): real { -((B + 1.0) * (B + 1.0) * P * P * P) }

  lemma FormExpansion(K: real, B: real, lam: real, slope: real, offset: real, P: real, x: real, sum: real, z: real)
    requires sum == slope * x + offset && z == lam * x
    ensures FormAsCubic(K, B, lam, slope, offset, P).At(x) == Form(K, B, sum, z, P)
  {
    FormPolynomial(K, B, lam, slope, offset, P, x);
    SameForm(K, B, P, sum, z, slope * x + offset, lam * x);
  }

  lemma FormPolynomial(K: real, B: real, lam: real, slope: real, offset: real, P: real, x: real)
    ensures FormAsCubic(K, B, lam, slope, offset, P).At(x) == Form(K, B, slope * x + offset, lam * x, P)
  {}

  lemma SameForm(K: real, B: real, P: real, sum1: real, z1: real, sum2: real, z2: real)
    requires sum1 == sum2 && z1 == z2
    ensures Form(K, B, sum1, z1, P) == Form(K, B, sum2, z2, P)
  {}

  // ----- Direct cubics are the form -----

  lemma SquareQuotient(n: real, x: real)
    requires x > 0.0
    ensures n / Times(x, x) * (x * x) == n
  {
    assert n / Times(x, x) * Times(x, x) == n;
  }

  lemma LongCoefficients(w: real, p: real, x0: real, B: real, l: real, dy: real)
    ensures LongB(w, p, x0, B, l) * (x0 * x0) == FormB(LongWeight(w, p, x0), B, l, p, LongAnchor(p, x0))
    ensures LongC(w, p, x0, B, l, dy) * (x0 * x0) == FormC(LongWeight(w, p, x0), B, l, dy - p * x0, LongAnchor(p, x0))
    ensures LongD(p, x0, B) * (x0 * x0) == FormD(B, LongAnchor(p, x0))
  {
    LongCoefficientB(w, p, x0, B, l);
    LongCoefficientC(w, p, x0, B, l, dy);
    LongCoefficientD(p, x0, B);
    hide LongB, LongC, LongD, FormB, FormC, FormD, LongWeight, LongAnchor;
  }

  lemma LongCoefficientB(w: real, p: real, x0: real, B: real, l: real)
    ensures LongB(w, p, x0, B, l) * (x0 * x0) == FormB(LongWeight(w, p, x0), B, l, p, LongAnchor(p, x0))
  {}

  lemma LongCoefficientC(w: real, p: real, x0: real, B: real, l: real, dy: real)
    ensures LongC(w, p, x0, B, l, dy) * (x0 * x0) == FormC(LongWeight(w, p, x0), B, l, dy - p * x0, LongAnchor(p, x0))
  {}

  lemma LongCoefficientD(p: real, x0: real, B: real)
    ensures LongD(p, x0, B) * (x0 * x0) == FormD(B, LongAnchor(p, x0))
  {}

  lemma LongCubicIsForm(w: real, p: real, x0: real, B: real, dy: real, x: real, sum: real, z: real)
    requires x0 > 0.0 && sum == p * x + (dy - p * x0) && z == (p * x0 + dy) * x
    ensures LongCubic(w, p, x0, B, dy).At(x) * (x0 * x0)
            == Form(LongWeight(w, p, x0), B, sum, z, LongAnchor(p, x0))
  {
    hide LongB, LongC, LongD, FormB, FormC, FormD, LongWeight, LongAnchor, Form;
    var l := p * x0 + dy;
    SquareQuotient(l * l * l, x0);
    LongCoefficients(w, p, x0, B, l, dy);
    ScaleCubic(LongCubic(w, p, x0, B, dy), x, x0 * x0,
               FormAsCubic(LongWeight(w, p, x0), B, l, p, dy - p * x0, LongAnchor(p, x0)));
    FormExpansion(LongWeight(w, p, x0), B, l, p, dy - p * x0, LongAnchor(p, x0), x, sum, z);
  }

  lemma ShortCoefficients(w: real, pdx: real, y0: real, B: real, l: real)
    ensures ShortB(w, y0, B, l) * (y0 * y0) == FormB(ShortWeight(w, y0), B, l, 1.0, ShortAnchor(y0))
    ensures ShortC(w, pdx, y0, B, l) * (y0 * y0) == FormC(ShortWeight(w, y0), B, l, pdx - y0, ShortAnchor(y0))
    ensures ShortD(y0, B) * (y0 * y0) == FormD(B, ShortAnchor(y0))
  {
    ShortCoefficientB(w, y0, B, l);
    ShortCoefficientC(w, pdx, y0, B, l);
    ShortCoefficientD(y0, B);
    hide ShortB, ShortC, ShortD, FormB, FormC, FormD, ShortWeight, ShortAnchor;
  }

  lemma ShortCoefficientB(w: real, y0: real, B: real, l: real)
    ensures ShortB(w, y0, B, l) * (y0 * y0) == FormB(ShortWeight(w, y0), B, l, 1.0, ShortAnchor(y0))
  {}

  lemma ShortCoefficientD(y0: real, B: real)
    ensures ShortD(y0, B) * (y0 * y0) == FormD(B, ShortAnchor(y0))
  {}

  lemma ShortCoefficientC(w: real, pdx: real, y0: real, B: real, l: real)
    ensures ShortC(w, pdx, y0, B, l) * (y0 * y0) == FormC(ShortWeight(w, y0), B, l, pdx - y0, ShortAnchor(y0))
  {}

  lemma ShortCubicIsForm(w: real, p: real, y0: real, B: real, dx: real, y: real, sum: real, z: real)
    requires y0 > 0.0 && sum == 1.0 * y + (p * dx - y0) && z == (p * dx + y0) * y
    ensures ShortCubic(w, p, y0, B, dx).At(y) * (y0 * y0)
            == Form(ShortWeight(w, y0), B, sum, z, ShortAnchor(y0))
  {
    hide ShortB, ShortC, ShortD, FormB, FormC, FormD, ShortWeight, ShortAnchor, Form;
    var pdx, l := p * dx, p * dx + y0;
    SquareQuotient(l * l * l, y0);
    ShortCoefficients(w, pdx, y0, B, l);
    ScaleCubic(ShortCubic(w, p, y0, B, dx), y, y0 * y0,
               FormAsCubic(ShortWeight(w, y0), B, l, 1.0, pdx - y0, ShortAnchor(y0)));
    FormExpansion(ShortWeight(w, y0), B, l, 1.0, pdx - y0, ShortAnchor(y0), y, sum, z);
  }

  lemma DirectArguments(k: Pool, dx: real, dy: real, x: real, y: real)
    ensures SumSide(k, x, k.y0 + dy) == k.p * x + (dy - k.p * k.x0)
    ensures LongProduct(k, x, k.y0 + dy) == (k.p * k.x0 + dy) * x
    ensures SumSide(k, k.x0 + dx, y) == 1.0 * y + (k.p * dx - k.y0)
    ensures ShortProduct(k, k.x0 + dx, y) == (k.p * dx + k.y0) * y
  {}

  /** The direct long cubic is the form at (x, y0 + dy), up to x0^2. */
  lemma DirectLongIsForm(k: Pool, dy: real, x: real)
    requires k.Valid()
    ensures DirectLong(k, dy).At(x) * Square(k.x0) == LongForm(k, x, k.y0 + dy)
  {
    hide Cubic.At, LongCubic, LongWeight, LongAnchor, Form, SumSide, LongProduct;
    var y := k.y0 + dy;
    DirectArguments(k, 0.0, dy, x, 0.0);
    LongCubicIsForm(k.W(), k.p, k.x0, k.B, dy, x, SumSide(k, x, y), LongProduct(k, x, y));
  }

  /** The direct short cubic is the form at (x0 + dx, y), up to y0^2. */
  lemma DirectShortIsForm(k: Pool, dx: real, y: real)
    requires k.Valid()
    ensures DirectShort(k, dx).At(y) * Square(k.y0) == ShortForm(k, k.x0 + dx, y)
  {
    hide Cubic.At, ShortCubic, ShortWeight, ShortAnchor, Form, SumSide, ShortProduct;
    var x := k.x0 + dx;
    DirectArguments(k, dx, 0.0, 0.0, y);
    ShortCubicIsForm(k.W(), k.p, k.y0, k.B, dx, y, SumSide(k, x, y), ShortProduct(k, x, y));
  }

  // ----- Inverse cubics are the same form -----

  // The coefficients of the form as a cubic in w, when the product side is (s*w + k)*v and the sum side s*w + lam.

  function InverseB(K: real, B: real, v: real, s: real, k: real, P: real): real
  {
    s * s * (K * v + v * v * (k * v - P - 2.0 * ((B + 1.0) * P - k * v)))
  }

  function InverseC(K: real, B: real, v: real, s: real, k: real, lam: real, P: real): real
  {
    var T, G := k * v - P, (B + 1.0) * P - k * v;
    s * (K * v * (k + lam) + G * G * v - 2.0 * G * T * v)
  }

  function InverseD(K: real, B: real, v: real, k: real, lam: real, P: real): real
  {
    var T, G := k * v - P, (B + 1.0) * P - k * v;
    K * v * k * lam + T * G * G
  }

  function FormAsInverseCubic(K: real, B: real, v: real, s: real, k: real, lam: real, P: real): Cubic
  {
    Cubic(s * s * s * (v * v * v), InverseB(K, B, v, s, k, P), InverseC(K, B, v, s, k, lam, P),
          InverseD(K, B, v, k, lam, P))
  }

  lemma InverseFormPolynomial(K: real, B: real, v: real, s: real, k: real, lam: real, P: real, w: real)
    ensures FormAsInverseCubic(K, B, v, s, k, lam, P).At(w) == Form(K, B, s * w + lam, (s * w + k) * v, P)
  {}

  lemma InverseFormExpansion(K: real, B: real, v: real, s: real, k: real, lam: real, P: real, w: real, sum: real,
                             z: real)
    requires sum == s * w + lam && z == (s * w + k) * v
    ensures FormAsInverseCubic(K, B, v, s, k, lam, P).At(w) == Form(K, B, sum, z, P)
  {
    InverseFormPolynomial(K, B, v, s, k, lam, P, w);
    SameForm(K, B, P, sum, z, s * w + lam, (s * w + k) * v);
  }

  lemma ClearTerms(n4: real, n0: real, n2: real, x: real)
    requires x > 0.0
    ensures Terms(n4, n0, n2, Times(x, x)) * Fourth(x) == n4 + n0 * (x * x * (x * x)) - n2 * (x * x)
  {
    var s := Times(x, x);
    var s4 := Times(s, s);
    assert n4 / s4 * s4 == n4;
    assert n2 / s * s == n2;
    assert n2 / s * (s * s) == (n2 / s * s) * s;
  }

  function Fourth(x: real): real { x * x * (x * x) }

  lemma FourthQuotient(n: real, x: real)
    requires x > 0.0
    ensures n / Times(Times(x, x), Times(x, x)) * Fourth(x) == n
  {
    var x2 := Times(x, x);
    assert n / Times(x2, x2) * Times(x2, x2) == n;
  }

  lemma InverseLongPolynomialB(K: real, p: real, x0: real, B: real, l: real, k: real, x: real)
    ensures var t := k * x - LongAnchor(p, x0);
            K * x + 2.0 * x * x * x * k + t * x * x + 0.0 * (x0 * x0 * (x0 * x0))
                - (2.0 * x * x * p * (B + 1.0)) * (x0 * x0)
            == InverseB(K, B, x, 1.0, k, LongAnchor(p, x0))
  {}

  lemma InverseLongCoefficientB(K: real, p: real, x0: real, B: real, l: real, k: real, x: real)
    requires x0 > 0.0
    ensures InverseLongB(K, p, x0, B, k, x) * Fourth(x0) == InverseB(K, B, x, 1.0, k, LongAnchor(p, x0))
  {
    hide InverseB, InverseC, InverseD;
    var t := k * x - LongAnchor(p, x0);
    InverseLongPolynomialB(K, p, x0, B, l, k, x);
    ClearTerms(K * x + 2.0 * x * x * x * k + t * x * x, 0.0, 2.0 * x * x * p * (B + 1.0), x0);
  }

  lemma InverseLongPolynomialC(K: real, p: real, x0: real, B: real, l: real, k: real, x: real)
    ensures var t := k * x - LongAnchor(p, x0);
            K * x * (k + l) + k * k * x * x * x + 2.0 * t * k * x * x
                + (B + 1.0) * (B + 1.0) * p * p * x * (x0 * x0 * (x0 * x0))
                    - (2.0 * x * x * (B + 1.0) * p * k + 2.0 * x * (B + 1.0) * t * p) * (x0 * x0)
            == InverseC(K, B, x, 1.0, k, l, LongAnchor(p, x0))
  {}

  lemma InverseLongCoefficientC(K: real, p: real, x0: real, B: real, l: real, k: real, x: real)
    requires x0 > 0.0
    ensures InverseLongC(K, p, x0, B, l, k, x) * Fourth(x0)
            == InverseC(K, B, x, 1.0, k, l, LongAnchor(p, x0))
  {
    hide InverseB, InverseC, InverseD;
    var t := k * x - LongAnchor(p, x0);
    InverseLongPolynomialC(K, p, x0, B, l, k, x);
    ClearTerms(K * x * (k + l) + k * k * x * x * x + 2.0 * t * k * x * x, (B + 1.0) * (B + 1.0) * p * p * x,
               2.0 * x * x * (B + 1.0) * p * k + 2.0 * x * (B + 1.0) * t * p, x0);
  }

  lemma InverseLongPolynomialD(K: real, p: real, x0: real, B: real, l: real, k: real, x: real)
    ensures var t := k * x - LongAnchor(p, x0);
            x * K * k * l + t * k * k * x * x + t * (B + 1.0) * (B + 1.0) * p * p * (x0 * x0 * (x0 * x0))
                - (2.0 * t * x * (B + 1.0) * p * k) * (x0 * x0)
            == InverseD(K, B, x, k, l, LongAnchor(p, x0))
  {}

  lemma InverseLongCoefficientD(K: real, p: real, x0: real, B: real, l: real, k: real, x: real)
    requires x0 > 0.0
    ensures InverseLongD(K, p, x0, B, l, k, x) * Fourth(x0)
            == InverseD(K, B, x, k, l, LongAnchor(p, x0))
  {
    hide InverseB, InverseC, InverseD;
    var t := k * x - LongAnchor(p, x0);
    InverseLongPolynomialD(K, p, x0, B, l, k, x);
    ClearTerms(x * K * k * l + t * k * k * x * x, t * (B + 1.0) * (B + 1.0) * p * p, 2.0 * t * x * (B + 1.0) * p * k,
               x0);
  }

  lemma InverseShortPolynomialB(K: real, y0: real, B: real, l: real, k: real, y: real)
    ensures var t := k * y - ShortAnchor(y0);
            K * y + 2.0 * y * y * y * k + t * y * y + 0.0 * (y0 * y0 * (y0 * y0))
                - (2.0 * y * y * (B + 1.0)) * (y0 * y0)
            == InverseB(K, B, y, 1.0, k, ShortAnchor(y0))
  {}

  lemma InverseShortCoefficientB(K: real, y0: real, B: real, l: real, k: real, y: real)
    requires y0 > 0.0
    ensures InverseShortB(K, y0, B, k, y) * Fourth(y0) == InverseB(K, B, y, 1.0, k, ShortAnchor(y0))
  {
    hide InverseB, InverseC, InverseD;
    var t := k * y - ShortAnchor(y0);
    InverseShortPolynomialB(K, y0, B, l, k, y);
    ClearTerms(K * y + 2.0 * y * y * y * k + t * y * y, 0.0, 2.0 * y * y * (B + 1.0), y0);
  }

  lemma InverseShortPolynomialC(K: real, y0: real, B: real, l: real, k: real, y: real)
    ensures var t := k * y - ShortAnchor(y0);
            K * y * (k + l) + k * k * y * y * y + 2.0 * t * k * y * y
                + (B + 1.0) * (B + 1.0) * y * (y0 * y0 * (y0 * y0))
                    - (2.0 * y * y * (B + 1.0) * k + 2.0 * y * (B + 1.0) * t) * (y0 * y0)
            == InverseC(K, B, y, 1.0, k, l, ShortAnchor(y0))
  {}

  lemma InverseShortCoefficientC(K: real, y0: real, B: real, l: real, k: real, y: real)
    requires y0 > 0.0
    ensures InverseShortC(K, y0, B, l, k, y) * Fourth(y0) == InverseC(K, B, y, 1.0, k, l, ShortAnchor(y0))
  {
    hide InverseB, InverseC, InverseD;
    var t := k * y - ShortAnchor(y0);
    InverseShortPolynomialC(K, y0, B, l, k, y);
    ClearTerms(K * y * (k + l) + k * k * y * y * y + 2.0 * t * k * y * y, (B + 1.0) * (B + 1.0) * y,
               2.0 * y * y * (B + 1.0) * k + 2.0 * y * (B + 1.0) * t, y0);
  }

  lemma InverseShortPolynomialD(K: real, y0: real, B: real, l: real, k: real, y: real)
    ensures var t := k * y - ShortAnchor(y0);
            y * K * k * l + t * k * k * y * y + t * (B + 1.0) * (B + 1.0) * (y0 * y0 * (y0 * y0))
                - (2.0 * t * y * (B + 1.0) * k) * (y0 * y0)
            == InverseD(K, B, y, k, l, ShortAnchor(y0))
  {}

  lemma InverseShortCoefficientD(K: real, y0: real, B: real, l: real, k: real, y: real)
    requires y0 > 0.0
    ensures InverseShortD(K, y0, B, l, k, y) * Fourth(y0) == InverseD(K, B, y, k, l, ShortAnchor(y0))
  {
    hide InverseB, InverseC, InverseD;
    var t := k * y - ShortAnchor(y0);
    InverseShortPolynomialD(K, y0, B, l, k, y);
    ClearTerms(y * K * k * l + t * k * k * y * y, t * (B + 1.0) * (B + 1.0), 2.0 * t * y * (B + 1.0) * k, y0);
  }

  lemma InverseLongCubicIsForm(K: real, p: real, x0: real, B: real, l: real, k: real, x: real, y: real, sum: real,
                               z: real)
    requires x0 > 0.0 && sum == 1.0 * y + l && z == (1.0 * y + k) * x
    ensures InverseLongCubic(K, p, x0, B, l, k, x).At(y) * Fourth(x0) == Form(K, B, sum, z, LongAnchor(p, x0))
  {
    hide InverseLongB, InverseLongC, InverseLongD, LongAnchor, Fourth, Form;
    InverseFormExpansion(K, B, x, 1.0, k, l, LongAnchor(p, x0), y, sum, z);
    InverseLongCubicScaled(K, p, x0, B, l, k, x, y);
  }

  lemma InverseLongCubicScaled(K: real, p: real, x0: real, B: real, l: real, k: real, x: real, y: real)
    requires x0 > 0.0
    ensures InverseLongCubic(K, p, x0, B, l, k, x).At(y) * Fourth(x0)
            == FormAsInverseCubic(K, B, x, 1.0, k, l, LongAnchor(p, x0)).At(y)
  {
    hide InverseLongB, InverseLongC, InverseLongD, LongAnchor, Fourth, InverseB, InverseC, InverseD;
    FourthQuotient(x * x * x, x0);
    InverseLongCoefficientB(K, p, x0, B, l, k, x);
    InverseLongCoefficientC(K, p, x0, B, l, k, x);
    InverseLongCoefficientD(K, p, x0, B, l, k, x);
    ScaleCubic(InverseLongCubic(K, p, x0, B, l, k, x), y, Fourth(x0),
               FormAsInverseCubic(K, B, x, 1.0, k, l, LongAnchor(p, x0)));
  }

  /** What the inverse short cubic is scaled by: y0^4 * p^3. */
  function ShortFactor(y0: real, p: real): real { Fourth(y0) * (p * p * p) }

  /** Clearing one, two and three factors of p. */
  lemma PriceQuotients(n: real, y0: real, r: real, p: real)
    requires p > 0.0 && n * Fourth(y0) == r
    ensures Over(n, p) * ShortFactor(y0, p) == p * p * r
    ensures Over(n, Times(p, p)) * ShortFactor(y0, p) == p * r
    ensures Over(n, Times(Times(p, p), p)) * ShortFactor(y0, p) == r
  {
    hide Fourth, Over;
    PriceQuotient(n, Fourth(y0), r, p, p * p, p);
    PriceQuotient(n, Fourth(y0), r, Times(p, p), p, p);
    PriceQuotient(n, Fourth(y0), r, Times(Times(p, p), p), 1.0, p);
  }

  lemma PriceQuotient(n: real, F: real, r: real, d: real, rest: real, p: real)
    requires d > 0.0 && n * F == r && p * p * p == d * rest
    ensures Over(n, d) * (F * (p * p * p)) == rest * r
  {
    hide Over;
    var q := Over(n, d);
    Cancel(n, d);
    calc {
      q * (F * (p * p * p));
      q * (F * (d * rest));
      { Regroup(q, F, d, rest); }
      (q * d) * F * rest;
      n * F * rest;
      rest * r;
    }
  }

  lemma Regroup(q: real, F: real, d: real, rest: real)
    ensures q * (F * (d * rest)) == (q * d) * F * rest
  {}

  lemma InverseShortCubicScaled(K: real, p: real, y0: real, B: real, l: real, k: real, x: real, y: real)
    requires y0 > 0.0 && p > 0.0
    ensures InverseShortCubic(K, p, y0, B, l, k, y).At(x) * ShortFactor(y0, p)
            == FormAsInverseCubic(K, B, y, p, k, l, ShortAnchor(y0)).At(x)
  {
    hide InverseShortB, InverseShortC, InverseShortD, ShortAnchor, ShortFactor, InverseB, InverseC, InverseD,
         FormAsInverseCubic, Over;
    var P := ShortAnchor(y0);
    SlopeFactors(K, B, y, p, k, l, P);
    CubeQuotient(y, y0, p);
    InverseShortCoefficientB(K, y0, B, l, k, y);
    PriceQuotients(InverseShortB(K, y0, B, k, y), y0, InverseB(K, B, y, 1.0, k, P), p);
    InverseShortCoefficientC(K, y0, B, l, k, y);
    PriceQuotients(InverseShortC(K, y0, B, l, k, y), y0, InverseC(K, B, y, 1.0, k, l, P), p);
    InverseShortCoefficientD(K, y0, B, l, k, y);
    PriceQuotients(InverseShortD(K, y0, B, l, k, y), y0, InverseD(K, B, y, k, l, P), p);
    ScaleCubic(InverseShortCubic(K, p, y0, B, l, k, y), x, ShortFactor(y0, p), FormAsInverseCubic(K, B, y, p, k, l, P));
  }

  lemma CubeQuotient(y: real, y0: real, p: real)
    requires y0 > 0.0
    ensures Over(y * y * y, Times(Times(y0, y0), Times(y0, y0))) * ShortFactor(y0, p) == (y * y * y) * (p * p * p)
  {
    hide Fourth, Over;
    var n, d := y * y * y, Times(Times(y0, y0), Times(y0, y0));
    Cancel(n, d);
    FourthIsTimes(y0);
    Shift(Over(n, d), Fourth(y0), p * p * p);
  }

  lemma FourthIsTimes(x: real)
    requires x > 0.0
    ensures Fourth(x) == Times(Times(x, x), Times(x, x))
  {}

  lemma Shift(q: real, f: real, c: real)
    ensures q * (f * c) == (q * f) * c
  {}

  lemma SlopeFactors(K: real, B: real, v: real, p: real, k: real, l: real, P: real)
    ensures var r := FormAsInverseCubic(K, B, v, p, k, l, P);
            && r.a == (v * v * v) * (p * p * p) && r.b == p * p * InverseB(K, B, v, 1.0, k, P)
            && r.c == p * InverseC(K, B, v, 1.0, k, l, P) && r.d == InverseD(K, B, v, k, l, P)
  {
    SlopeB(K, B, v, p, k, P);
    SlopeC(K, B, v, p, k, l, P);
    hide InverseB, InverseC, InverseD;
  }

  lemma SlopeB(K: real, B: real, v: real, p: real, k: real, P: real)
    ensures InverseB(K, B, v, p, k, P) == p * p * InverseB(K, B, v, 1.0, k, P)
  {}

  lemma SlopeC(K: real, B: real, v: real, p: real, k: real, l: real, P: real)
    ensures InverseC(K, B, v, p, k, l, P) == p * InverseC(K, B, v, 1.0, k, l, P)
  {}

  lemma InverseShortCubicIsForm(K: real, p: real, y0: real, B: real, l: real, k: real, x: real, y: real, sum: real,
                                z: real)
    requires y0 > 0.0 && p > 0.0 && sum == p * x + l && z == (p * x + k) * y
    ensures InverseShortCubic(K, p, y0, B, l, k, y).At(x) * ShortFactor(y0, p) == Form(K, B, sum, z, ShortAnchor(y0))
  {
    hide InverseShortCubic, ShortFactor, ShortAnchor, Form, FormAsInverseCubic, Cubic.At;
    InverseFormExpansion(K, B, y, p, k, l, ShortAnchor(y0), x, sum, z);
    InverseShortCubicScaled(K, p, y0, B, l, k, x, y);
  }

  lemma InverseArguments(k: Pool, x: real, y: real)
    ensures SumSide(k, x, y) == 1.0 * y + LongLambda(k, x) && LongProduct(k, x, y) == (1.0 * y + LongK(k)) * x
    ensures SumSide(k, x, y) == k.p * x + ShortLambda(k, y) && ShortProduct(k, x, y) == (k.p * x + ShortK(k)) * y
  {}

  /** The inverse long cubic at asset amount x is the same form, up to x0^4. */
  lemma InverseLongIsForm(k: Pool, x: real, y: real)
    requires k.Valid()
    ensures InverseLong(k, x).At(y) * Fourth(k.x0) == LongForm(k, x, y)
  {
    hide Cubic.At, InverseLongCubic, LongWeight, LongAnchor, Form, SumSide, LongProduct, LongLambda, LongK, Fourth;
    InverseArguments(k, x, y);
    InverseLongCubicIsForm(LongWeight(k.W(), k.p, k.x0), k.p, k.x0, k.B, LongLambda(k, x), LongK(k), x, y,
                           SumSide(k, x, y), LongProduct(k, x, y));
  }

  /** The inverse short cubic at stable amount y is the same form, up to y0^4*p^3. */
  lemma InverseShortIsForm(k: Pool, x: real, y: real)
    requires k.Valid()
    ensures InverseShort(k, y).At(x) * ShortFactor(k.y0, k.p) == ShortForm(k, x, y)
  {
    hide Cubic.At, InverseShortCubic, ShortWeight, ShortAnchor, Form, SumSide, ShortProduct, ShortLambda, ShortK,
         ShortFactor;
    InverseArguments(k, x, y);
    InverseShortCubicIsForm(ShortWeight(k.W(), k.y0), k.p, k.y0, k.B, ShortLambda(k, y), ShortK(k), x, y,
                            SumSide(k, x, y), ShortProduct(k, x, y));
  }

  lemma ScaledRoot(v: real, s: real, w: real)
    requires s > 0.0 && v * s == w
    ensures v == 0.0 <==> w == 0.0
  {}

  lemma FactorsPositive(k: Pool)
    requires k.Valid()
    ensures Square(k.x0) > 0.0 && Square(k.y0) > 0.0 && Fourth(k.x0) > 0.0 && ShortFactor(k.y0, k.p) > 0.0
  {
    var x2, y2, p2 := Times(k.x0, k.x0), Times(k.y0, k.y0), Times(k.p, k.p);
    var x4, y4, p3 := Times(x2, x2), Times(y2, y2), Times(p2, k.p);
    var f := Times(y4, p3);
  }

  /** Direct and inverse long cubics have the same solutions: x solves the direct cubic for the stable
      amount y exactly when y solves the inverse cubic for the asset amount x; they differ by a positive factor. */
  lemma DirectInverseLong(k: Pool, x: real, y: real)
    requires k.Valid()
    ensures DirectLong(k, y - k.y0).At(x) * Square(k.x0) == InverseLong(k, x).At(y) * Fourth(k.x0)
    ensures DirectLong(k, y - k.y0).At(x) == 0.0 <==> InverseLong(k, x).At(y) == 0.0
  {
    hide Cubic.At, DirectLong, InverseLong, LongForm, Square, Fourth;
    var dy := y - k.y0;
    assert k.y0 + dy == y;
    DirectLongIsForm(k, dy, x);
    InverseLongIsForm(k, x, y);
    FactorsPositive(k);
    ScaledRoot(DirectLong(k, dy).At(x), Square(k.x0), LongForm(k, x, y));
    ScaledRoot(InverseLong(k, x).At(y), Fourth(k.x0), LongForm(k, x, y));
  }

  /** The same for shorts. */
  lemma DirectInverseShort(k: Pool, x: real, y: real)
    requires k.Valid()
    ensures DirectShort(k, x - k.x0).At(y) * Square(k.y0) == InverseShort(k, y).At(x) * ShortFactor(k.y0, k.p)
    ensures DirectShort(k, x - k.x0).At(y) == 0.0 <==> InverseShort(k, y).At(x) == 0.0
  {
    hide Cubic.At, DirectShort, InverseShort, ShortForm, Square, ShortFactor;
    var dx := x - k.x0;
    assert k.x0 + dx == x;
    DirectShortIsForm(k, dx, y);
    InverseShortIsForm(k, x, y);
    FactorsPositive(k);
    ScaledRoot(DirectShort(k, dx).At(y), Square(k.y0), ShortForm(k, x, y));
    ScaledRoot(InverseShort(k, y).At(x), ShortFactor(k.y0, k.p), ShortForm(k, x, y));
  }

  // ----- The AMM invariant itself -----

  /** A(x,y)*S + P': the curve weight m*A/q^2 on the dimensionless sum side, plus 1 - P/z on the product side. */
  function Invariant(A: real, m: real, value: real, B: real, sum: real, z: real, P: real): real
    requires value > 0.0 && z != 0.0 && (B + 1.0) * P - z != 0.0
  {
    var q := (B + 1.0) * P - z;
    A * m / q / q * (sum / value) + (1.0 - P / z)
  }

  lemma InvariantIsForm(A: real, m: real, value: real, K: real, B: real, sum: real, z: real, P: real)
    requires value > 0.0 && z != 0.0 && (B + 1.0) * P - z != 0.0
    requires K == A / value * m
    ensures Invariant(A, m, value, B, sum, z, P) == 0.0 <==> Form(K, B, sum, z, P) == 0.0
  {
    var q := (B + 1.0) * P - z;
    var r1 := Over(A * m, q);
    var w, r2, s1, p1 := Over(A, value), Over(r1, q), Over(sum, value), Over(P, z);
    assert Invariant(A, m, value, B, sum, z, P) == r2 * s1 + (1.0 - p1) && K == w * m;
    hide Over, Invariant, Form, Square;
    Cancel(A, value);
    Cancel(A * m, q);
    Cancel(r1, q);
    Cancel(sum, value);
    Cancel(P, z);
    ClearInvariant(A, m, value, w, sum, s1, q, r1, r2, P, p1, z);
    FormAt(K, w, m, B, sum, z, P, q);
    SquarePositive(q);
    NonZeroFactor(r2 * s1 + (1.0 - p1), z, Square(q));
  }

  lemma FormAt(K: real, w: real, m: real, B: real, sum: real, z: real, P: real, q: real)
    requires K == w * m && q == (B + 1.0) * P - z
    ensures Form(K, B, sum, z, P) == w * m * sum * z + (z - P) * Square(q)
  {}

  lemma ClearInvariant(A: real, m: real, v: real, w: real, sum: real, s: real, q: real, r1: real, r2: real, P: real,
                       p1: real, z: real)
    requires v > 0.0 && w * v == A && r1 * q == A * m && r2 * q == r1 && s * v == sum && p1 * z == P
    ensures (r2 * s + (1.0 - p1)) * (z * Square(q)) == w * m * sum * z + (z - P) * Square(q)
  {
    hide Square;
    var sq := Square(q);
    WeightTerm(A, m, v, w, sum, s, q, r1, r2, z);
    RatioTerm(P, p1, z, sq);
    assert (r2 * s + (1.0 - p1)) * (z * sq) == r2 * s * (z * sq) + (1.0 - p1) * (z * sq);
  }

  lemma WeightTerm(A: real, m: real, v: real, w: real, sum: real, s: real, q: real, r1: real, r2: real, z: real)
    requires w * v == A && r1 * q == A * m && r2 * q == r1 && s * v == sum
    ensures r2 * s * (z * Square(q)) == w * m * sum * z
  {
    calc {
      r2 * s * (z * Square(q));
      (r2 * q) * q * (s * z);
      (A * m) * (s * z);
      ((w * v) * m) * (s * z);
      w * m * (s * v) * z;
      w * m * sum * z;
    }
  }

  lemma RatioTerm(P: real, p1: real, z: real, sq: real)
    requires p1 * z == P
    ensures (1.0 - p1) * (z * sq) == (z - P) * sq
  {
    assert (1.0 - p1) * (z * sq) == (z - p1 * z) * sq;
  }

  lemma NonZeroFactor(i: real, z: real, s: real)
    requires z != 0.0 && s > 0.0
    ensures i == 0.0 <==> i * (z * s) == 0.0
  {
    if i != 0.0 {
      NonZero(z, s);
      NonZero(i, z * s);
    }
  }

  /** Where neither of its denominators vanishes, the long invariant at (x, y) is zero exactly on the direct cubic's
      solutions. */
  lemma DirectLongIsInvariant(k: Pool, x: real, y: real)
    requires k.Valid()
    requires LongProduct(k, x, y) != 0.0 && (k.B + 1.0) * LongAnchor(k.p, k.x0) - LongProduct(k, x, y) != 0.0
    ensures Invariant(k.A, LongScale(k.p, k.x0), k.Value(), k.B,
                      SumSide(k, x, y), LongProduct(k, x, y), LongAnchor(k.p, k.x0)) == 0.0
            <==> DirectLong(k, y - k.y0).At(x) == 0.0
  {
    hide Cubic.At, DirectLong, Form, Invariant, Square, SumSide, LongProduct, LongAnchor, LongScale, Pool.Value;
    var dy := y - k.y0;
    assert k.y0 + dy == y;
    DirectLongIsForm(k, dy, x);
    FactorsPositive(k);
    ScaledRoot(DirectLong(k, dy).At(x), Square(k.x0), LongForm(k, x, y));
    InvariantIsForm(k.A, LongScale(k.p, k.x0), k.Value(), LongWeight(k.W(), k.p, k.x0), k.B,
                    SumSide(k, x, y), LongProduct(k, x, y), LongAnchor(k.p, k.x0));
  }

  /** The same for shorts. */
  lemma DirectShortIsInvariant(k: Pool, x: real, y: real)
    requires k.Valid()
    requires ShortProduct(k, x, y) != 0.0 && (k.B + 1.0) * ShortAnchor(k.y0) - ShortProduct(k, x, y) != 0.0
    ensures Invariant(k.A, ShortScale(k.y0), k.Value(), k.B,
                      SumSide(k, x, y), ShortProduct(k, x, y), ShortAnchor(k.y0)) == 0.0
            <==> DirectShort(k, x - k.x0).At(y) == 0.0
  {
    hide Cubic.At, DirectShort, Form, Invariant, Square, SumSide, ShortProduct, ShortAnchor, ShortScale, Pool.Value;
    var dx := x - k.x0;
    assert k.x0 + dx == x;
    DirectShortIsForm(k, dx, y);
    FactorsPositive(k);
    ScaledRoot(DirectShort(k, dx).At(y), Square(k.y0), ShortForm(k, x, y));
    InvariantIsForm(k.A, ShortScale(k.y0), k.Value(), ShortWeight(k.W(), k.y0), k.B,
                    SumSide(k, x, y), ShortProduct(k, x, y), ShortAnchor(k.y0));
  }

  // ----- Where the roots lie -----

  lemma SignProducts(x: real, y: real)
    ensures x >= 0.0 && y >= 0.0 ==> x * y >= 0.0
    ensures x <= 0.0 && y >= 0.0 ==> x * y <= 0.0
    ensures x < 0.0 && y > 0.0 ==> x * y < 0.0
    ensures x > 0.0 && y > 0.0 ==> x * y > 0.0
  {}

  lemma FormNegative(K: real, B: real, sum: real, z: real, P: real)
    requires K >= 0.0 && B >= 0.0 && P > 0.0 && z > 0.0 && sum <= 0.0 && z < P
    ensures Form(K, B, sum, z, P) < 0.0
  {
    var q, first := (B + 1.0) * P - z, K * sum * z;
    assert Form(K, B, sum, z, P) == first + (z - P) * Square(q);
    assert q == B * P + P - z;
    hide Form, Square;
    SignProducts(B, P);
    SquarePositive(q);
    SignProducts(z - P, Square(q));
    SignProducts(sum, K);
    SignProducts(sum * K, z);
    assert first == sum * K * z;
  }

  lemma FormPositive(K: real, B: real, sum: real, z: real, P: real)
    requires K > 0.0 && z > 0.0 && sum > 0.0 && z >= P
    ensures Form(K, B, sum, z, P) > 0.0
  {
    SquareNonNegative((B + 1.0) * P - z);
    SignProducts(z - P, Square((B + 1.0) * P - z));
    var t := Times(Times(K, sum), z);
    assert t == K * sum * z;
  }

  /** With weight on the sum side, a zero of the form is strictly above the constant-sum line and strictly below the
      constant-product point. */
  lemma RootStrictlyBetween(K: real, B: real, sum: real, z: real, P: real)
    requires K > 0.0 && B >= 0.0 && P > 0.0 && z > 0.0
    requires sum <= 0.0 ==> z < P
    requires Form(K, B, sum, z, P) == 0.0
    ensures sum > 0.0 && z < P
  {
    if sum <= 0.0 {
      FormNegative(K, B, sum, z, P);
    } else if z >= P {
      FormPositive(K, B, sum, z, P);
    }
  }

  /** Without weight and with B = 0 the only zero is the constant-product point. */
  lemma PlainRoot(sum: real, z: real, P: real)
    requires Form(0.0, 0.0, sum, z, P) == 0.0
    ensures z == P
  {
    if z != P {
      SquarePositive((0.0 + 1.0) * P - z);
      NonZero(z - P, Square((0.0 + 1.0) * P - z));
    }
  }

  /** With weight on the sum side, or with B = 0, every zero is above the constant-sum line and at most the
      constant-product point. */
  lemma ZeroBetween(K: real, B: real, sum: real, z: real, P: real)
    requires K >= 0.0 && B >= 0.0 && P > 0.0 && z > 0.0 && (K > 0.0 || B == 0.0)
    requires sum <= 0.0 ==> z < P
    requires Form(K, B, sum, z, P) == 0.0
    ensures sum > 0.0 && z <= P
  {
    hide Form;
    if K > 0.0 {
      RootStrictlyBetween(K, B, sum, z, P);
    } else {
      PlainRoot(sum, z, P);
    }
  }

  /** Without weight, (B+1)P is a zero too. */
  lemma DoubleRoot(K: real, B: real, sum: real, z: real, P: real)
    requires K == 0.0 && z == (B + 1.0) * P
    ensures Form(K, B, sum, z, P) == 0.0
  {
    assert Square((B + 1.0) * P - z) == 0.0;
  }

  lemma Monotone(k: real, x: real, y: real)
    requires k > 0.0
    ensures k * x < k * y <==> x < y
    ensures k * x <= k * y <==> x <= y
  {}

  /** Below the constant-sum line the product side is below its anchor: u is the input's worth, a the anchor's, b what
      is left. */
  lemma BelowSumLine(a: real, u: real, b: real)
    requires a > 0.0 && u > 0.0 && b <= a - u
    ensures (a + u) * b < a * a
  {
    Monotone(a + u, b, a - u);
    assert (a + u) * (a - u) == a * a - u * u;
    var uu := Times(u, u);
  }

  /** What the form says at a point of a long: the two sides, named. */
  lemma LongSides(k: Pool, dy: real, x: real)
    requires k.Valid() && dy > 0.0 && x > 0.0
    ensures var y := k.y0 + dy;
            && LongProduct(k, x, y) > 0.0 && LongAnchor(k.p, k.x0) > 0.0
            && (SumSide(k, x, y) <= 0.0 ==> LongProduct(k, x, y) < LongAnchor(k.p, k.x0))
            && (SumSide(k, x, y) > 0.0 <==> k.x0 - dy / k.p < x)
            && LongProduct(k, x, y) == (k.p * k.x0 + dy) * x
  {
    var p, x0, y := k.p, k.x0, k.y0 + dy;
    assert LongProduct(k, x, y) == (p * x0 + dy) * x && SumSide(k, x, y) == p * (x - x0) + dy;
    hide LongProduct, SumSide;
    LongProductPositive(p, x0, dy, x);
    SumLine(p, x0, dy, x);
    if SumSide(k, x, y) <= 0.0 { LongBelowAnchor(p, x0, dy, x); }
  }

  lemma LongProductPositive(p: real, x0: real, dy: real, x: real)
    requires p > 0.0 && x0 > 0.0 && dy > 0.0 && x > 0.0
    ensures (p * x0 + dy) * x > 0.0 && LongAnchor(p, x0) > 0.0
  {
    var px0 := Times(p, x0);
    var z, anchor := Times(px0 + dy, x), Times(px0, x0);
  }

  /** Above the constant-sum line, said of x. */
  lemma SumLine(p: real, x0: real, dy: real, x: real)
    requires p > 0.0
    ensures p * (x - x0) + dy > 0.0 <==> x0 - dy / p < x
  {
    var u := dy / p;
    assert p * u == dy;
    assert p * (x - (x0 - u)) == p * (x - x0) + p * u;
    Monotone(p, 0.0, x - (x0 - u));
  }

  lemma LongBelowAnchor(p: real, x0: real, dy: real, x: real)
    requires p > 0.0 && x0 > 0.0 && dy > 0.0 && p * (x - x0) + dy <= 0.0
    ensures (p * x0 + dy) * x < LongAnchor(p, x0)
  {
    var px0, z, anchor := Times(p, x0), (p * x0 + dy) * x, LongAnchor(p, x0);
    BelowSumLine(px0, dy, p * x);
    assert p * z == (px0 + dy) * (p * x);
    assert p * anchor == px0 * px0;
    hide LongAnchor;
    Monotone(p, z, anchor);
  }

  lemma ShortSides(k: Pool, dx: real, y: real)
    requires k.Valid() && dx > 0.0 && y > 0.0
    ensures var x := k.x0 + dx;
            && ShortProduct(k, x, y) > 0.0 && ShortAnchor(k.y0) > 0.0
            && (SumSide(k, x, y) <= 0.0 ==> ShortProduct(k, x, y) < ShortAnchor(k.y0))
            && (SumSide(k, x, y) > 0.0 <==> k.y0 - k.p * dx < y)
            && ShortProduct(k, x, y) == (k.p * dx + k.y0) * y
  {
    var x := k.x0 + dx;
    var u := Times(k.p, dx);
    var z := Times(u + k.y0, y);
    var anchor := Times(k.y0, k.y0);
    DirectArguments(k, dx, 0.0, 0.0, y);
    if SumSide(k, x, y) <= 0.0 {
      BelowSumLine(k.y0, u, y);
    }
  }

  lemma WeightsSigned(k: Pool)
    requires k.Valid()
    ensures LongWeight(k.W(), k.p, k.x0) >= 0.0 && (LongWeight(k.W(), k.p, k.x0) > 0.0 <==> k.A > 0.0)
    ensures ShortWeight(k.W(), k.y0) >= 0.0 && (ShortWeight(k.W(), k.y0) > 0.0 <==> k.A > 0.0)
  {
    var x2, y2 := Times(k.x0, k.x0), Times(k.y0, k.y0);
    var ls, ss := Times(Times(k.p, k.p), Times(x2, x2)), Times(y2, y2);
    assert ls == LongScale(k.p, k.x0) && ss == ShortScale(k.y0);
    if k.A > 0.0 {
      var l, s := Times(k.W(), ls), Times(k.W(), ss);
    }
  }

  /** The exact curve never pays better than spot: every positive root of the long cubic leaves
      the pool strictly more asset than paying dy at the oracle price would, for all A, B >= 0. */
  lemma LongNeverBeatsSpot(k: Pool, dy: real, x: real)
    requires k.Valid() && dy > 0.0 && x > 0.0 && DirectLong(k, dy).At(x) == 0.0
    ensures k.x0 - x < dy / k.p
  {
    hide Cubic.At, DirectLong, Form, Square, SumSide, LongProduct, LongAnchor, LongWeight;
    var y := k.y0 + dy;
    DirectLongIsForm(k, dy, x);
    LongSides(k, dy, x);
    WeightsSigned(k);
    if SumSide(k, x, y) <= 0.0 {
      FormNegative(LongWeight(k.W(), k.p, k.x0), k.B, SumSide(k, x, y), LongProduct(k, x, y), LongAnchor(k.p, k.x0));
    }
  }

  lemma ShortNeverBeatsSpot(k: Pool, dx: real, y: real)
    requires k.Valid() && dx > 0.0 && y > 0.0 && DirectShort(k, dx).At(y) == 0.0
    ensures k.y0 - y < k.p * dx
  {
    hide Cubic.At, DirectShort, Form, Square, SumSide, ShortProduct, ShortAnchor, ShortWeight;
    var x := k.x0 + dx;
    DirectShortIsForm(k, dx, y);
    ShortSides(k, dx, y);
    WeightsSigned(k);
    if SumSide(k, x, y) <= 0.0 {
      FormNegative(ShortWeight(k.W(), k.y0), k.B, SumSide(k, x, y), ShortProduct(k, x, y), ShortAnchor(k.y0));
    }
  }

  /** A root of the long cubic is between the constant-sum and the constant-product point. */
  predicate LongBetween(k: Pool, dy: real, x: real)
    requires k.Valid() && dy > 0.0
  {
    k.x0 - dy / k.p <= x && (k.p * k.x0 + dy) * x <= LongAnchor(k.p, k.x0)
  }

  predicate ShortBetween(k: Pool, dx: real, y: real)
    requires k.Valid() && dx > 0.0
  {
    k.y0 - k.p * dx <= y && (k.p * dx + k.y0) * y <= ShortAnchor(k.y0)
  }

  lemma LongBetweenBySides(k: Pool, dy: real, x: real)
    requires k.Valid() && dy > 0.0 && x > 0.0
    requires SumSide(k, x, k.y0 + dy) > 0.0 && LongProduct(k, x, k.y0 + dy) <= LongAnchor(k.p, k.x0)
    ensures LongBetween(k, dy, x)
  {
    LongSides(k, dy, x);
    hide SumSide, LongProduct, LongAnchor;
  }

  lemma LongRootBetween(k: Pool, dy: real, x: real)
    requires k.Valid() && dy > 0.0 && x > 0.0 && DirectLong(k, dy).At(x) == 0.0
    requires k.A > 0.0 || k.B == 0.0
    ensures LongBetween(k, dy, x)
  {
    hide Cubic.At, DirectLong, Form, Square, SumSide, LongProduct, LongAnchor, LongWeight, LongBetween;
    var y := k.y0 + dy;
    DirectLongIsForm(k, dy, x);
    LongSides(k, dy, x);
    WeightsSigned(k);
    ZeroBetween(LongWeight(k.W(), k.p, k.x0), k.B, SumSide(k, x, y), LongProduct(k, x, y), LongAnchor(k.p, k.x0));
    LongBetweenBySides(k, dy, x);
  }

  lemma ShortBetweenBySides(k: Pool, dx: real, y: real)
    requires k.Valid() && dx > 0.0 && y > 0.0
    requires SumSide(k, k.x0 + dx, y) > 0.0 && ShortProduct(k, k.x0 + dx, y) <= ShortAnchor(k.y0)
    ensures ShortBetween(k, dx, y)
  {
    ShortSides(k, dx, y);
    hide SumSide, ShortProduct, ShortAnchor;
  }

  lemma ShortRootBetween(k: Pool, dx: real, y: real)
    requires k.Valid() && dx > 0.0 && y > 0.0 && DirectShort(k, dx).At(y) == 0.0
    requires k.A > 0.0 || k.B == 0.0
    ensures ShortBetween(k, dx, y)
  {
    hide Cubic.At, DirectShort, Form, Square, SumSide, ShortProduct, ShortAnchor, ShortWeight, ShortBetween;
    var x := k.x0 + dx;
    DirectShortIsForm(k, dx, y);
    ShortSides(k, dx, y);
    WeightsSigned(k);
    ZeroBetween(ShortWeight(k.W(), k.y0), k.B, SumSide(k, x, y), ShortProduct(k, x, y), ShortAnchor(k.y0));
    ShortBetweenBySides(k, dx, y);
  }

  /** Where lam times a point is (B+1)P, and so beyond P. */
  lemma StrayPoint(lam: real, B: real, P: real) returns (x: real)
    requires lam > 0.0 && B > 0.0 && P > 0.0
    ensures x > 0.0 && lam * x == (B + 1.0) * P && lam * x > P
  {
    var stray, extra := Times(B + 1.0, P), Times(B, P);
    assert stray == extra + P;
    PositiveQuotient(stray, lam);
    x := stray / lam;
  }

  /** With A = 0 and B > 0 the cubic has a stray root: the double root at (B+1) times the constant-product point. */
  lemma LongStrayRoot(k: Pool, dy: real) returns (x: real)
    requires k.Valid() && dy > 0.0 && k.A == 0.0 && k.B > 0.0
    ensures x > 0.0 && DirectLong(k, dy).At(x) == 0.0 && !LongBetween(k, dy, x)
  {
    hide Cubic.At, DirectLong, Form, Square, SumSide, LongProduct, LongAnchor, LongWeight;
    var P, lam := LongAnchor(k.p, k.x0), Times(k.p, k.x0) + dy;
    LongSides(k, dy, 1.0);
    x := StrayPoint(lam, k.B, P);
    assert !LongBetween(k, dy, x);
    hide LongBetween;
    LongSides(k, dy, x);
    WeightsSigned(k);
    DoubleRoot(LongWeight(k.W(), k.p, k.x0), k.B, SumSide(k, x, k.y0 + dy), LongProduct(k, x, k.y0 + dy), P);
    DirectLongIsForm(k, dy, x);
    FactorsPositive(k);
    ScaledRoot(DirectLong(k, dy).At(x), Square(k.x0), LongForm(k, x, k.y0 + dy));
  }

  lemma ShortStrayRoot(k: Pool, dx: real) returns (y: real)
    requires k.Valid() && dx > 0.0 && k.A == 0.0 && k.B > 0.0
    ensures y > 0.0 && DirectShort(k, dx).At(y) == 0.0 && !ShortBetween(k, dx, y)
  {
    hide Cubic.At, DirectShort, Form, Square, SumSide, ShortProduct, ShortAnchor, ShortWeight;
    var P, x, lam := ShortAnchor(k.y0), k.x0 + dx, Times(k.p, dx) + k.y0;
    ShortSides(k, dx, 1.0);
    y := StrayPoint(lam, k.B, P);
    assert !ShortBetween(k, dx, y);
    hide ShortBetween;
    ShortSides(k, dx, y);
    WeightsSigned(k);
    DoubleRoot(ShortWeight(k.W(), k.y0), k.B, SumSide(k, x, y), ShortProduct(k, x, y), P);
    DirectShortIsForm(k, dx, y);
    FactorsPositive(k);
    ScaledRoot(DirectShort(k, dx).At(y), Square(k.y0), ShortForm(k, x, y));
  }

  lemma PositiveQuotient(n: real, d: real)
    requires n > 0.0 && d > 0.0
    ensures n / d > 0.0 && d * (n / d) == n
  {}

  /** Every positive root of the long cubic lies between the constant-sum and the constant-product
      point, for every trade size, exactly when A > 0 or B = 0. */
  lemma LongRootsBetweenIff(k: Pool, dy: real)
    requires k.Valid() && dy > 0.0
    ensures (forall x :: x > 0.0 && DirectLong(k, dy).At(x) == 0.0 ==> LongBetween(k, dy, x))
            <==> (k.A > 0.0 || k.B == 0.0)
  {
    hide Cubic.At, DirectLong, LongBetween;
    if k.A > 0.0 || k.B == 0.0 {
      forall x | x > 0.0 && DirectLong(k, dy).At(x) == 0.0 ensures LongBetween(k, dy, x) {
        LongRootBetween(k, dy, x);
      }
    } else {
      var x := LongStrayRoot(k, dy);
    }
  }

  lemma ShortRootsBetweenIff(k: Pool, dx: real)
    requires k.Valid() && dx > 0.0
    ensures (forall y :: y > 0.0 && DirectShort(k, dx).At(y) == 0.0 ==> ShortBetween(k, dx, y))
            <==> (k.A > 0.0 || k.B == 0.0)
  {
    hide Cubic.At, DirectShort, ShortBetween;
    if k.A > 0.0 || k.B == 0.0 {
      forall y | y > 0.0 && DirectShort(k, dx).At(y) == 0.0 ensures ShortBetween(k, dx, y) {
        ShortRootBetween(k, dx, y);
      }
    } else {
      var y := ShortStrayRoot(k, dx);
    }
  }
}
