/** The accounting scheme in exact arithmetic. A naive ledger updates every account at every trade, fee and funding
    tick; the index updates one matrix and one row per epoch and keeps a snapshot per account. They agree on every
    run. */
module ExactLedger {

  // ----- Vectors, matrices and the steps of the pool -----

  /** A stable and an asset amount, or a row of the funding accumulator. */
  datatype Vec = Vec(y: real, x: real)

  datatype Matrix = Matrix(m00: real, m01: real, m10: real, m11: real)

  const UNIT := Matrix(1.0, 0.0, 0.0, 1.0)

  function Det(m: Matrix): real { m.m00 * m.m11 - m.m10 * m.m01 }

  /** One row of a matrix against a vector. */
  function Row(p: real, q: real, v: Vec): real { p * v.y + q * v.x }

  function Times(m: Matrix, v: Vec): Vec { Vec(Row(m.m00, m.m01, v), Row(m.m10, m.m11, v)) }

  function Dot(g: Vec, v: Vec): real { g.y * v.y + g.x * v.x }

  function Minus(g: Vec, h: Vec): Vec { Vec(g.y - h.y, g.x - h.x) }

  /** adj(m) * v / det(m). */
  function Unwind(m: Matrix, v: Vec): Vec
    requires Det(m) > 0.0
  {
    Vec((m.m11 * v.y - m.m01 * v.x) / Det(m), (m.m00 * v.x - m.m10 * v.y) / Det(m))
  }

  lemma AdjugateRow(a: real, b: real, c: real, d: real, p: real, q: real, det: real, w0: real, w1: real)
    requires det == a * d - c * b && det > 0.0
    requires w0 * det == d * p - b * q && w1 * det == a * q - c * p
    ensures a * w0 + b * w1 == p && c * w0 + d * w1 == q
  {
    assert (a * w0 + b * w1) * det == a * (w0 * det) + b * (w1 * det);
    assert a * (d * p - b * q) + b * (a * q - c * p) == p * (a * d - c * b);
    Cancel(a * w0 + b * w1, p, det);
    assert (c * w0 + d * w1) * det == c * (w0 * det) + d * (w1 * det);
    assert c * (d * p - b * q) + d * (a * q - c * p) == q * (a * d - c * b);
    Cancel(c * w0 + d * w1, q, det);
  }

  lemma Cancel(x: real, y: real, k: real)
    requires k > 0.0 && x * k == y * k
    ensures x == y
  {
    assert (x - y) * k == 0.0;
  }

  lemma Quotient(n: real, d: real)
    requires d > 0.0
    ensures n / d * d == n
  {}

  lemma UnwindInverts(m: Matrix, v: Vec)
    requires Det(m) > 0.0
    ensures Times(m, Unwind(m, v)) == v
  {
    var w := Unwind(m, v);
    Quotient(m.m11 * v.y - m.m01 * v.x, Det(m));
    Quotient(m.m00 * v.x - m.m10 * v.y, Det(m));
    AdjugateRow(m.m00, m.m01, m.m10, m.m11, v.y, v.x, Det(m), w.y, w.x);
  }

  datatype Step = LongStep(aX: real, aY: real) | ShortStep(aX: real, aY: real) | FeeStep(aX: real, aY: real)

  /** A share of an amount, by name: where it is linear it can be used as such. */
  function Scale(k: real, x: real): real { k * x }

  /** What one step does to a pair of balances. */
  function StepVec(v: Vec, s: Step): Vec
  {
    match s
    case LongStep(aX, aY) => Vec(v.y + Scale(aY, v.x), v.x - Scale(aX, v.x))
    case ShortStep(aX, aY) => Vec(v.y - Scale(aY, v.y), v.x + Scale(aX, v.y))
    case FeeStep(aX, aY) => Vec(v.y + Scale(aY, v.x) + Scale(aX, v.y), v.x)
  }

  /** What one step does to an epoch matrix. */
  function StepMatrix(m: Matrix, s: Step): Matrix
  {
    match s
    case LongStep(aX, aY) =>
      Matrix(m.m00 + Scale(aY, m.m10), m.m01 + Scale(aY, m.m11), m.m10 - Scale(aX, m.m10), m.m11 - Scale(aX, m.m11))
    case ShortStep(aX, aY) =>
      Matrix(m.m00 - Scale(aY, m.m00), m.m01 - Scale(aY, m.m01), m.m10 + Scale(aX, m.m00), m.m11 + Scale(aX, m.m01))
    case FeeStep(aX, aY) =>
      Matrix(m.m00 + Scale(aY, m.m10) + Scale(aX, m.m00), m.m01 + Scale(aY, m.m11) + Scale(aX, m.m01), m.m10, m.m11)
  }

  predicate StepOk(s: Step)
  {
    match s
    case LongStep(aX, _) => aX < 1.0
    case ShortStep(_, aY) => aY < 1.0
    case FeeStep(aX, _) => aX >= 0.0
  }

  lemma RowArithmetic(p: real, q: real, k: real, r: real, s: real, v: real, w: real)
    ensures (p + k * r) * v + (q + k * s) * w == (p * v + q * w) + k * (r * v + s * w)
    ensures (p - k * r) * v + (q - k * s) * w == (p * v + q * w) - k * (r * v + s * w)
  {
    assert (k * r) * v == k * (r * v) && (k * s) * w == k * (s * w);
  }

  /** A row plus, or minus, a multiple of another row. */
  lemma RowStep(p: real, q: real, k: real, r: real, s: real, w: Vec, p': real, q': real)
    ensures p' == p + Scale(k, r) && q' == q + Scale(k, s) ==> Row(p', q', w) == Row(p, q, w) + Scale(k, Row(r, s, w))
    ensures p' == p - Scale(k, r) && q' == q - Scale(k, s) ==> Row(p', q', w) == Row(p, q, w) - Scale(k, Row(r, s, w))
  {
    RowArithmetic(p, q, k, r, s, w.y, w.x);
  }

  lemma LongCommutes(m: Matrix, w: Vec, aX: real, aY: real)
    ensures Times(StepMatrix(m, LongStep(aX, aY)), w) == StepVec(Times(m, w), LongStep(aX, aY))
  {
    hide Row, Scale;
    var n := StepMatrix(m, LongStep(aX, aY));
    RowStep(m.m00, m.m01, aY, m.m10, m.m11, w, n.m00, n.m01);
    RowStep(m.m10, m.m11, aX, m.m10, m.m11, w, n.m10, n.m11);
  }

  lemma ShortCommutes(m: Matrix, w: Vec, aX: real, aY: real)
    ensures Times(StepMatrix(m, ShortStep(aX, aY)), w) == StepVec(Times(m, w), ShortStep(aX, aY))
  {
    hide Row, Scale;
    var n := StepMatrix(m, ShortStep(aX, aY));
    RowStep(m.m00, m.m01, aY, m.m00, m.m01, w, n.m00, n.m01);
    RowStep(m.m10, m.m11, aX, m.m00, m.m01, w, n.m10, n.m11);
  }

  lemma FeeCommutes(m: Matrix, w: Vec, aX: real, aY: real)
    ensures Times(StepMatrix(m, FeeStep(aX, aY)), w) == StepVec(Times(m, w), FeeStep(aX, aY))
  {
    hide Row, Scale;
    var n := StepMatrix(m, FeeStep(aX, aY));
    var p, q := m.m00 + Scale(aY, m.m10), m.m01 + Scale(aY, m.m11);
    RowStep(m.m00, m.m01, aY, m.m10, m.m11, w, p, q);
    RowStep(p, q, aX, m.m00, m.m01, w, n.m00, n.m01);
  }

  /** Stepping the matrix and stepping the balance it recovers are the same thing. */
  lemma StepCommutes(m: Matrix, w: Vec, s: Step)
    ensures Times(StepMatrix(m, s), w) == StepVec(Times(m, w), s)
  {
    hide Times, StepMatrix, StepVec;
    match s
    case LongStep(aX, aY) => LongCommutes(m, w, aX, aY);
    case ShortStep(aX, aY) => ShortCommutes(m, w, aX, aY);
    case FeeStep(aX, aY) => FeeCommutes(m, w, aX, aY);
  }

  lemma ProductPositive(x: real, y: real)
    requires x > 0.0 && y > 0.0
    ensures x * y > 0.0
  {}

  lemma ScaledPositive(k: real, n: real, r: real)
    requires k > 0.0 && n > 0.0 && r == k * n
    ensures r > 0.0
  {
    ProductPositive(k, n);
  }

  lemma SameProduct(x: real, y: real, x': real, y': real)
    requires x == x' && y == y'
    ensures x * y == x' * y'
  {}

  lemma LongCross(a: real, b: real, c: real, d: real, u: real, v: real)
    ensures (a + v * c) * (d - u * d) - (c - u * c) * (b + v * d) == (1.0 - u) * (a * d - c * b)
  {
    assert (a + v * c) * (d - u * d) == a * d - u * (a * d) + v * (c * d) - u * v * (c * d);
    assert (c - u * c) * (b + v * d) == c * b + v * (c * d) - u * (c * b) - u * v * (c * d);
  }

  lemma ShortCross(a: real, b: real, c: real, d: real, u: real, v: real)
    ensures (a - v * a) * (d + u * b) - (c + u * a) * (b - v * b) == (1.0 - v) * (a * d - c * b)
  {
    assert (a - v * a) * (d + u * b) == a * d + u * (a * b) - v * (a * d) - u * v * (a * b);
    assert (c + u * a) * (b - v * b) == c * b - v * (c * b) + u * (a * b) - u * v * (a * b);
  }

  lemma FeeCross(a: real, b: real, c: real, d: real, u: real, v: real)
    ensures (a + v * c + u * a) * d - c * (b + v * d + u * b) == (1.0 + u) * (a * d - c * b)
  {
    assert (a + v * c + u * a) * d == a * d + v * (c * d) + u * (a * d);
    assert c * (b + v * d + u * b) == c * b + v * (c * d) + u * (c * b);
  }

  lemma LongDet(m: Matrix, n: Matrix, u: real, v: real)
    requires n == StepMatrix(m, LongStep(u, v)) && u < 1.0 && Det(m) > 0.0
    ensures Det(n) > 0.0
  {
    LongCross(m.m00, m.m01, m.m10, m.m11, u, v);
    SameProduct(n.m00, n.m11, m.m00 + v * m.m10, m.m11 - u * m.m11);
    SameProduct(n.m10, n.m01, m.m10 - u * m.m10, m.m01 + v * m.m11);
    SameProduct(1.0 - u, Det(m), 1.0 - u, m.m00 * m.m11 - m.m10 * m.m01);
    ScaledPositive(1.0 - u, Det(m), Det(n));
  }

  lemma ShortDet(m: Matrix, n: Matrix, u: real, v: real)
    requires n == StepMatrix(m, ShortStep(u, v)) && v < 1.0 && Det(m) > 0.0
    ensures Det(n) > 0.0
  {
    ShortCross(m.m00, m.m01, m.m10, m.m11, u, v);
    SameProduct(n.m00, n.m11, m.m00 - v * m.m00, m.m11 + u * m.m01);
    SameProduct(n.m10, n.m01, m.m10 + u * m.m00, m.m01 - v * m.m01);
    SameProduct(1.0 - v, Det(m), 1.0 - v, m.m00 * m.m11 - m.m10 * m.m01);
    ScaledPositive(1.0 - v, Det(m), Det(n));
  }

  lemma FeeDet(m: Matrix, n: Matrix, u: real, v: real)
    requires n == StepMatrix(m, FeeStep(u, v)) && u >= 0.0 && Det(m) > 0.0
    ensures Det(n) > 0.0
  {
    FeeCross(m.m00, m.m01, m.m10, m.m11, u, v);
    SameProduct(n.m00, n.m11, m.m00 + v * m.m10 + u * m.m00, m.m11);
    SameProduct(n.m10, n.m01, m.m10, m.m01 + v * m.m11 + u * m.m01);
    SameProduct(1.0 + u, Det(m), 1.0 + u, m.m00 * m.m11 - m.m10 * m.m01);
    ScaledPositive(1.0 + u, Det(m), Det(n));
  }

  /** A pool that is not emptied keeps every matrix invertible. */
  lemma StepKeepsDet(m: Matrix, s: Step)
    requires Det(m) > 0.0 && StepOk(s)
    ensures Det(StepMatrix(m, s)) > 0.0
  {
    hide Det, StepMatrix;
    match s
    case LongStep(aX, aY) => LongDet(m, StepMatrix(m, s), aX, aY);
    case ShortStep(aX, aY) => ShortDet(m, StepMatrix(m, s), aX, aY);
    case FeeStep(aX, aY) => FeeDet(m, StepMatrix(m, s), aX, aY);
  }

  // ----- The two ledgers -----

  /** An account of the naive ledger: LP balances, net trader asset less LP asset debt, and the funding charged so
      far. */
  datatype Account = Account(v: Vec, net: real, accrued: real)

  datatype Naive = Naive(pool: Vec, accounts: seq<Account>)

  /** What the engine stores for an account: the epoch its snapshot was taken in, that epoch's matrix and row at the
      time, the balances then, the cumulative rate last stamped, the net asset and the funding already settled. */
  datatype Holding = Holding(epoch: nat, m0: Invertible, v0: Vec, g0: Vec, rate0: real, net: real, stored: real)

  datatype EpochRow = EpochRow(m: Invertible, g: Vec)

  type Invertible = m: Matrix | Det(m) > 0.0 witness UNIT

  datatype Storage = Storage(pool: Vec, rate: real, epochs: seq<EpochRow>, holdings: seq<Holding>)

  predicate StorageOk(i: Storage)
  {
    && |i.epochs| > 0 && forall k :: 0 <= k < |i.holdings| ==> i.holdings[k].epoch < |i.epochs|
  }

  type Index = i: Storage | StorageOk(i) witness Storage(Vec(0.0, 0.0), 0.0, [EpochRow(UNIT, Vec(0.0, 0.0))], [])

  const NOTHING := Vec(0.0, 0.0)

  /** An LP balance, recovered from its snapshot in its own epoch. */
  function Recovered(e: EpochRow, h: Holding): Vec { Times(e.m, Unwind(h.m0, h.v0)) }

  /** Funding accrued: settled, plus the row moved since the snapshot, plus the rate moved on the net asset. */
  function Owed(e: EpochRow, h: Holding, rate: real): real
  {
    h.stored + Dot(Minus(e.g, h.g0), Unwind(h.m0, h.v0)) + h.net * (rate - h.rate0)
  }

  function Balance(i: Index, k: nat): Vec
    requires k < |i.holdings|
  {
    Recovered(i.epochs[i.holdings[k].epoch], i.holdings[k])
  }

  function Accrued(i: Index, k: nat): real
    requires k < |i.holdings|
  {
    Owed(i.epochs[i.holdings[k].epoch], i.holdings[k], i.rate)
  }

  // ----- Operations -----

  datatype Op =
    | Long(user: nat, paid: real, out: real)
    | Short(user: nat, size: real, out: real)
    | Fee(stablePart: real, assetPart: real)
    | Tick(delta: real)
    | Deposit(user: nat, amount: Vec)
    | Withdraw(user: nat, amount: Vec)
    | Refresh(user: nat)
    | Transfer(user: nat, liquidator: nat, handed: real)
    | Roll

  /** Whether a pool operation goes through: it never takes a whole side of the pool. */
  predicate PoolAllows(pool: Vec, op: Op)
  {
    match op
    case Long(_, _, out) => 0.0 <= out < pool.x
    case Short(_, _, out) => 0.0 <= out < pool.y
    case Fee(s, a) => s >= 0.0 && a >= 0.0 && pool.y > 0.0 && pool.x > 0.0
    case _ => false
  }

  /** The coefficients of a pool operation, as shares of the side that gives. */
  function StepOf(pool: Vec, op: Op): (s: Step)
    requires PoolAllows(pool, op)
    ensures StepOk(s)
  {
    match op
    case Long(_, paid, out) => ShareBelowOne(out, pool.x); LongStep(out / pool.x, paid / pool.x)
    case Short(_, size, out) => ShareBelowOne(out, pool.y); ShortStep(size / pool.y, out / pool.y)
    case Fee(s, a) => ShareBelowOne(s, pool.y); FeeStep(s / pool.y, a / pool.x)
  }

  lemma ShareBelowOne(part: real, whole: real)
    requires part >= 0.0 && whole > 0.0
    ensures part / whole >= 0.0 && (part < whole ==> part / whole < 1.0)
  {
    Quotient(part, whole);
    if part < whole && part / whole >= 1.0 {
      ScaleUp(part / whole, whole);
    }
    NonNegativeFactor(part / whole, whole);
  }

  lemma NonNegativeFactor(k: real, n: real)
    requires k * n >= 0.0 && n > 0.0
    ensures k >= 0.0
  {
    if k < 0.0 { ProductPositive(-k, n); }
  }

  lemma ScaleUp(k: real, n: real)
    requires k >= 1.0 && n > 0.0
    ensures k * n >= n
  {}

  /** What a pool operation does to the pool itself. */
  function PoolAfter(pool: Vec, op: Op): Vec
    requires PoolAllows(pool, op)
  {
    match op
    case Long(_, paid, out) => Vec(pool.y + paid, pool.x - out)
    case Short(_, size, out) => Vec(pool.y - out, pool.x + size)
    case Fee(s, a) => Vec(pool.y + s + a, pool.x)
  }

  /** The user a pool operation belongs to gains this net asset. */
  function NetGain(op: Op): real
  {
    match op
    case Long(_, _, out) => out
    case Short(_, size, _) => -size
    case _ => 0.0
  }

  predicate Covers(v: Vec, w: Vec) { 0.0 <= w.y <= v.y && 0.0 <= w.x <= v.x }

  function Plus(v: Vec, w: Vec): Vec { Vec(v.y + w.y, v.x + w.x) }

  // ----- The naive ledger: every account at every step -----

  function FanAccounts(accounts: seq<Account>, s: Step): seq<Account>
  {
    seq(|accounts|, k requires 0 <= k < |accounts| => accounts[k].(v := StepVec(accounts[k].v, s)))
  }

  function ChargeAccounts(accounts: seq<Account>, delta: real): seq<Account>
  {
    seq(|accounts|, k requires 0 <= k < |accounts| => Charge(accounts[k], delta))
  }

  /** One tick charged to one account: the rate increment on everything it holds of the asset. */
  function Charge(a: Account, delta: real): Account { a.(accrued := a.accrued + (a.v.x + a.net) * delta) }

  function AddNet(accounts: seq<Account>, u: nat, d: real): seq<Account>
    requires u < |accounts|
  {
    accounts[u := accounts[u].(net := accounts[u].net + d)]
  }

  /** Liquidity in (or, negated, out): the balance moves one way and the debt that funds it the other. */
  function MoveLiquidity(n: Naive, u: nat, amount: Vec): Naive
    requires u < |n.accounts|
  {
    var a := n.accounts[u];
    Naive(Plus(n.pool, amount), n.accounts[u := Account(Plus(a.v, amount), a.net - amount.x, a.accrued)])
  }

  function Negate(v: Vec): Vec { Vec(-v.y, -v.x) }

  function NaiveStep(n: Naive, op: Op): Naive
  {
    match op
    case Long(u, _, _) => if u < |n.accounts| && PoolAllows(n.pool, op) then
      Naive(PoolAfter(n.pool, op), AddNet(FanAccounts(n.accounts, StepOf(n.pool, op)), u, NetGain(op))) else n
    case Short(u, _, _) => if u < |n.accounts| && PoolAllows(n.pool, op) then
      Naive(PoolAfter(n.pool, op), AddNet(FanAccounts(n.accounts, StepOf(n.pool, op)), u, NetGain(op))) else n
    case Fee(_, _) => if PoolAllows(n.pool, op)
        then Naive(PoolAfter(n.pool, op), FanAccounts(n.accounts, StepOf(n.pool, op))) else n
    case Tick(d) => n.(accounts := ChargeAccounts(n.accounts, d))
    case Deposit(u, a) => if u < |n.accounts| && Covers(a, NOTHING) then MoveLiquidity(n, u, a) else n
    case Withdraw(u, a) => if u < |n.accounts| && Covers(n.accounts[u].v, a) then MoveLiquidity(n, u, Negate(a)) else n
    case Refresh(_) => n
    case Transfer(u, l, d) => if u < |n.accounts| && l < |n.accounts| && u != l then
      n.(accounts := AddNet(AddNet(n.accounts, u, -d), l, d)) else n
    case Roll => n
  }

  // ----- The index: one matrix and one row per epoch -----

  function StepEpoch(e: EpochRow, s: Step): EpochRow
    requires StepOk(s)
  {
    StepKeepsDet(e.m, s);
    EpochRow(StepMatrix(e.m, s), e.g)
  }

  function FanEpochs(epochs: seq<EpochRow>, s: Step): seq<EpochRow>
    requires StepOk(s)
  {
    seq(|epochs|, k requires 0 <= k < |epochs| => StepEpoch(epochs[k], s))
  }

  /** The row of an epoch moves by the rate increment times the asset row of its matrix. */
  function AccrueEpoch(e: EpochRow, delta: real): EpochRow
  {
    e.(g := Vec(e.g.y + delta * e.m.m10, e.g.x + delta * e.m.m11))
  }

  function AccrueEpochs(epochs: seq<EpochRow>, delta: real): seq<EpochRow>
  {
    seq(|epochs|, k requires 0 <= k < |epochs| => AccrueEpoch(epochs[k], delta))
  }

  /** A trade settles its user's funding and re-baselines the row and the rate; the matrix snapshot stays. */
  function SettleHolding(i: Index, u: nat): Index
    requires u < |i.holdings|
  {
    var h := i.holdings[u];
    i.(holdings := i.holdings[u := h.(stored := Accrued(i, u), g0 := i.epochs[h.epoch].g, rate0 := i.rate)])
  }

  /** Settle, and snapshot the account anew in the current epoch with balances v. */
  function Resnap(i: Index, u: nat, v: Vec): Index
    requires u < |i.holdings|
  {
    var last := |i.epochs| - 1;
    i.(holdings := i.holdings[u := Holding(last, i.epochs[last].m, v, i.epochs[last].g, i.rate, i.holdings[u].net,
                                           Accrued(i, u))])
  }

  function GainNet(i: Index, u: nat, d: real): Index
    requires u < |i.holdings|
  {
    i.(holdings := i.holdings[u := i.holdings[u].(net := i.holdings[u].net + d)])
  }

  function FanIndex(i: Index, op: Op): Index
    requires PoolAllows(i.pool, op)
  {
    Storage(PoolAfter(i.pool, op), i.rate, FanEpochs(i.epochs, StepOf(i.pool, op)), i.holdings)
  }

  function MoveIndex(i: Index, u: nat, amount: Vec): Index
    requires u < |i.holdings|
  {
    GainNet(Resnap(i, u, Plus(Balance(i, u), amount)), u, -amount.x).(pool := Plus(i.pool, amount))
  }

  function RefreshIndex(i: Index, u: nat): Index
    requires u < |i.holdings|
  {
    Resnap(i, u, Balance(i, u))
  }

  function TradeIndex(i: Index, u: nat, op: Op): Index
    requires u < |i.holdings| && PoolAllows(i.pool, op)
  {
    FanIndex(GainNet(SettleHolding(i, u), u, NetGain(op)), op)
  }

  function IndexStep(i: Index, op: Op): Index
  {
    match op
    case Long(u, _, _) => if u < |i.holdings| && PoolAllows(i.pool, op) then TradeIndex(i, u, op) else i
    case Short(u, _, _) => if u < |i.holdings| && PoolAllows(i.pool, op) then TradeIndex(i, u, op) else i
    case Fee(_, _) => if PoolAllows(i.pool, op) then FanIndex(i, op) else i
    case Tick(d) => Storage(i.pool, i.rate + d, AccrueEpochs(i.epochs, d), i.holdings)
    case Deposit(u, a) => if u < |i.holdings| && Covers(a, NOTHING) then MoveIndex(i, u, a) else i
    case Withdraw(u, a) => if u < |i.holdings| && Covers(Balance(i, u), a) then MoveIndex(i, u, Negate(a)) else i
    case Refresh(u) => if u < |i.holdings| then RefreshIndex(i, u) else i
    case Transfer(u, l, d) => if u < |i.holdings| && l < |i.holdings| && u != l then
      GainNet(GainNet(RefreshIndex(RefreshIndex(i, l), u), u, -d), l, d) else i
    case Roll => i.(epochs := i.epochs + [EpochRow(UNIT, NOTHING)])
  }

  function NaiveRun(n: Naive, ops: seq<Op>): Naive
  {
    if ops == [] then n else NaiveStep(NaiveRun(n, ops[..|ops| - 1]), ops[|ops| - 1])
  }

  function IndexRun(i: Index, ops: seq<Op>): Index
  {
    if ops == [] then i else IndexStep(IndexRun(i, ops[..|ops| - 1]), ops[|ops| - 1])
  }

  function EmptyNaive(users: nat): Naive { Naive(NOTHING, seq(users, _ => Account(NOTHING, 0.0, 0.0))) }

  function EmptyIndex(users: nat): Index
  {
    Storage(NOTHING, 0.0, [EpochRow(UNIT, NOTHING)], seq(users, _ => Holding(0, UNIT, NOTHING, NOTHING, 0.0, 0.0, 0.0)))
  }
}
