/** What each engine operation does to the storage, as functions of the storage value. */
module EngineSpec {
  import opened Arith
  import opened FusedMulDiv
  import opened EngineState

  // ----- Epochs -----

  /** Determinant of an epoch's matrix at matrix scale; zero when uninitialised. */
  function EpochDeterminant(e: Epoch): Result<int>
  {
    if e.m.m00 == 0 then Ok(0)
    else SumMulDivSigned(e.m.m00, e.m.m11, -e.m.m10, e.m.m01, M_DECIMALS)
  }

  function InitializeEpoch(e: Epochs, id: nat): Epochs
  {
    e.Put(id, Epoch(IDENTITY, 0, 0, e.At(id).lpCount))
  }

  function IncrementLpCount(e: Epochs, id: nat): Epochs
  {
    e.Put(id, e.At(id).(lpCount := e.At(id).lpCount + 1))
  }

  function DecrementLpCount(e: Epochs, id: nat): Result<Epochs>
  {
    if e.At(id).lpCount == 0 then Err("UNDERFLOW")
    else Ok(e.Put(id, e.At(id).(lpCount := e.At(id).lpCount - 1)))
  }

  /** Advance the oldest pointer past drained or uninitialised epochs below current, freeing the drained ones. */
  function Retire(e: Epochs): Epochs
    decreases e.current - e.oldest
  {
    if e.oldest >= e.current then e
    else
      var o := e.At(e.oldest);
      if o.m.m00 != 0 && o.lpCount != 0 then e
      else
        var freed := if o.m.m00 != 0 then e.Put(e.oldest, EMPTY_EPOCH) else e;
        Retire(freed.(oldest := e.oldest + 1))
  }

  const DET_THRESHOLD: int := M_DECIMALS / DET_DENOMINATOR

  /** How many epochs the roll counts as active: a drained current epoch is discounted. */
  function ActiveWindow(e: Epochs): int
  {
    e.current + 1 - e.oldest - (if e.At(e.current).lpCount == 0 then 1 else 0)
  }

  function Roll(e: Epochs): Result<Epochs>
  {
    var det :- EpochDeterminant(e.At(e.current));
    if det > DET_THRESHOLD then Ok(e)
    else if ActiveWindow(e) >= MAX_ACTIVE_EPOCHS then Err("LECAP")
    else Ok(Retire(InitializeEpoch(e.(current := e.current + 1), e.current + 1)))
  }

  datatype UpdateKind = LongUpdate | ShortUpdate | FeeUpdate

  /** One matrix under a trade or fee update with coefficients aX, aY at matrix scale. */
  function StepMatrix(m: Mat, aX: int, aY: int, kind: UpdateKind): Mat
  {
    match kind
    case LongUpdate =>
      Mat(m.m00 + TruncDiv(aY * m.m10, M_DECIMALS), m.m01 + TruncDiv(aY * m.m11, M_DECIMALS),
          m.m10 - DivCeil(aX * m.m10, M_DECIMALS), m.m11 - DivCeil(aX * m.m11, M_DECIMALS))
    case ShortUpdate =>
      Mat(m.m00 - DivCeil(aY * m.m00, M_DECIMALS), m.m01 - DivCeil(aY * m.m01, M_DECIMALS),
          m.m10 + TruncDiv(aX * m.m00, M_DECIMALS), m.m11 + TruncDiv(aX * m.m01, M_DECIMALS))
    case FeeUpdate =>
      Mat(m.m00 + TruncDiv(aY * m.m10 + aX * m.m00, M_DECIMALS), m.m01 + TruncDiv(aY * m.m11 + aX * m.m01, M_DECIMALS),
          m.m10, m.m11)
  }

  /** The fan-out over the window: every live epoch takes the step, nothing else changes. */
  function ApplyMatrixUpdate(e: Epochs, aX: int, aY: int, kind: UpdateKind): Epochs
  {
    e.(slots := map id | id in e.slots ::
      if e.InWindow(id) && e.Live(id) then e.slots[id].(m := StepMatrix(e.slots[id].m, aX, aY, kind)) else e.slots[id])
  }

  /** b * M[1] / D, the pending funding of one matrix entry. */
  function PendingG(b: int, entry: int): int { TruncDiv(b * entry, M_DECIMALS) }

  function AccrueEpoch(e: Epoch, b: int): Epoch
  {
    e.(g0 := e.g0 + PendingG(b, e.m.m10), g1 := e.g1 + PendingG(b, e.m.m11))
  }

  function AccrueAll(e: Epochs, b: int): Epochs
  {
    e.(slots := map id | id in e.slots ::
      if e.InWindow(id) && e.Live(id) then AccrueEpoch(e.slots[id], b) else e.slots[id])
  }

  // ----- Funding -----

  /** The funding rate accrued between `timestamp` and now. */
  function FundingRate(env: Env, s: State, price: nat, timestamp: nat): Result<Signed>
  {
    if timestamp > env.now then Err("F1")
    else if s.pool.asset + s.pool.stable == 0 then Ok(Signed(0, true))
    else
      var priceO := Md(price, WAD, ORACLE_DECIMALS);
      var raw := Md(s.exposure.mag, priceO, WAD) * 100_000 * WAD;
      var denom := env.cfg.fundingC * (Md(s.pool.asset, priceO, WAD) + s.pool.stable);
      var coeff :- DivR(raw, denom);
      var newRate :- MdR(coeff, env.now - timestamp, env.cfg.fundingInterval);
      Ok(Signed(Md(priceO, newRate, WAD), s.exposure.pos))
  }

  /** A rate difference at G scale, signed. */
  function FundingB(delta: Signed): int
  {
    var b: int := Md(delta.mag, G_DECIMALS, WAD);
    if delta.pos then b else -b
  }

  /** Settle global funding once per block: the rate, and the funding row of every live epoch. */
  function UpdateFG(env: Env, s: State, price: nat): Result<State>
  {
    if s.lastOp == env.now then Ok(s)
    else
      var newRate :- FundingRate(env, s, price, s.lastOp);
      Ok(s.(rate := SignedSum(s.rate, newRate), ep := AccrueAll(s.ep, FundingB(newRate)), lastOp := env.now))
  }

  /** What the LP part of a user owes: the G row moved since the snapshot, plus what `b` would still add, recovered. */
  function LpFunding(s: State, user: Address, b: int): Result<int>
  {
    var lp, e := s.Lp(user), s.ep.At(s.EpochOf(user));
    if lp.initialStable == 0 && lp.initialAsset == 0 then Ok(0)
    else
      RecoverFundingStar(e.g0 - lp.g0 + PendingG(b, e.m.m10), e.g1 - lp.g1 + PendingG(b, e.m.m11),
                         lp.snap, lp.initialStable, lp.initialAsset, M_DECIMALS, G_DECIMALS)
  }

  function FromInt(v: int): Signed { Signed(Abs(v), v >= 0) }

  /** What the trader part owes: net asset times the rate moved since it was last stamped. */
  function TraderFunding(s: State, user: Address, rate: Signed): Signed
  {
    var p, lp := s.Pos(user), s.Lp(user);
    var delta := SignedSum(rate, p.initialFundingRate.Neg());
    var exposure := SignedSum(Signed(p.balanceAsset, true), Signed(p.debtAsset + lp.debtAsset, false));
    Signed(Md(exposure.mag, delta.mag, WAD), delta.pos == exposure.pos)
  }

  /** The funding fee a user has accrued and not settled, valued at cumulative rate `rate`. */
  function FundingFeeWith(s: State, user: Address, rate: Signed): Result<Signed>
  {
    var star :- LpFunding(s, user, FundingB(SignedSum(rate, s.rate.Neg())));
    Ok(SignedSum(FromInt(star), TraderFunding(s, user, rate)))
  }

  function FundingFee(s: State, user: Address): Result<Signed> { FundingFeeWith(s, user, s.rate) }

  /** Re-baseline an LP's funding row against its own epoch; nothing for a pure trader. */
  function RefreshFundingSnapshot(s: State, user: Address): State
  {
    if !s.Active(user) then s
    else
      var e := s.ep.At(s.EpochOf(user));
      s.SetLp(user, s.Lp(user).(g0 := e.g0, g1 := e.g1))
  }

  /** Add a fee to the position's settled funding. */
  function CreditFunding(s: State, user: Address, fee: Signed): State
  {
    s.SetPos(user, s.Pos(user).(fundingFee := SignedSum(s.Pos(user).fundingFee, fee)))
  }

  // ----- LP balances and snapshots -----

  function Clamp(v: int, cap: nat): nat
  {
    if v <= 0 then 0 else if v > cap then cap else v
  }

  /** An LP's balance: recovered from its snapshot in its own epoch, clamped to the pool. */
  function LpBalance(s: State, user: Address): Result<(nat, nat)>
  {
    var lp, e := s.Lp(user), s.ep.At(s.EpochOf(user));
    if lp.snap.m00 == 0 || e.m.m00 == 0 then Ok((0, 0))
    else
      var v :- RecoverLpBalance(e.m, lp.snap, lp.initialStable, lp.initialAsset, M_DECIMALS);
      Ok((Clamp(v.0, s.pool.stable), Clamp(v.1, s.pool.asset)))
  }

  function StampRate(s: State, user: Address): State
  {
    s.SetPos(user, s.Pos(user).(initialFundingRate := s.rate))
  }

  /** Drop an LP's snapshot and release its epoch. */
  function ExitSnapshot(s: State, user: Address): Result<State>
  {
    var ep :- if s.Active(user) then DecrementLpCount(s.ep, s.EpochOf(user)) else Ok(s.ep);
    var lp := s.Lp(user).(initialStable := 0, initialAsset := 0, snap := ZERO_MAT, g0 := 0, g1 := 0);
    Ok(s.(ep := Retire(ep)).SetLp(user, lp).SetEpochOf(user, 0))
  }

  /** Move an LP's reference to the current epoch. */
  function MoveReference(e: Epochs, hadActive: bool, oldId: nat): Result<Epochs>
  {
    if !hadActive then Ok(IncrementLpCount(e, e.current))
    else if oldId != e.current then
      var released :- DecrementLpCount(e, oldId);
      Ok(IncrementLpCount(released, e.current))
    else Ok(e)
  }

  /** Snapshot an LP in the current epoch, rolling first when the current matrix has decayed. */
  function EnterSnapshot(s: State, user: Address, stable: nat, asset: nat): Result<State>
  {
    var rolled :- Roll(s.ep);
    var moved :- MoveReference(rolled, s.Active(user), s.EpochOf(user));
    var e := moved.At(moved.current);
    var lp := s.Lp(user).(initialStable := stable, initialAsset := asset, snap := e.m, g0 := e.g0, g1 := e.g1);
    Ok(s.(ep := Retire(moved)).SetLp(user, lp).SetEpochOf(user, moved.current))
  }

  function UpdateSnapshots(s: State, user: Address, stable: nat, asset: nat): Result<State>
  {
    var t := StampRate(s, user);
    if stable == 0 && asset == 0 then ExitSnapshot(t, user) else EnterSnapshot(t, user, stable, asset)
  }

  /** Crystallise accrued funding and migrate the LP snapshot to the current epoch. */
  function SettleAndSnapshot(s: State, user: Address): Result<State>
  {
    var balance :- LpBalance(s, user);
    var fee :- FundingFee(s, user);
    UpdateSnapshots(CreditFunding(s, user, fee), user, balance.0, balance.1)
  }
}
