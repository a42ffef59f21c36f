/** What an epoch whose corner decayed to zero costs the LPs pinned to it, and a run of calls that reaches one on the
    engine's own curve: five large shorts drain the stable side while three LPs stay in their first epoch. */
module DecayedEpoch {
  import opened Arith
  import opened FusedMulDiv
  import opened EngineState
  import opened EngineSpec
  import opened EngineOps
  import opened Pinning
  import opened Settlement
  import opened Refresh
  import opened IntegerCurve
  import opened DecayTrace

  // ----- What it costs -----

  /** An LP pinned to a decayed epoch reads a zero balance: nothing it asks for can be withdrawn, and settling it clears
      its snapshot while the pool keeps what the snapshot stood for. */
  lemma DecayedEpochStrandsLp(env: Env, s: State, user: Address, stable: nat, asset: nat, price: nat, maxFee: nat)
    requires !EpochUsable(s, user)
    ensures LpBalance(s, user) == Ok((0, 0))
    ensures stable > 0 || asset > 0 ==> RemoveLiquidityCore(env, s, stable, asset, user, price, maxFee) == Err("L5")
    ensures SettleAndSnapshot(s, user).Ok? ==>
              var t := SettleAndSnapshot(s, user).value;
              t.pool == s.pool && !t.Active(user) && LpBalance(t, user) == Ok((0, 0))
  {
    hide FundingFee, Retire, RecoverLpBalance;
  }

  // ----- The calls -----

  const LP1: Address := 1
  const LP2: Address := 2
  const LP3: Address := 3
  const LP4: Address := 4
  const LP5: Address := 5
  const TRADER: Address := 6
  const PRICE: nat := ORACLE_DECIMALS
  const NOW: nat := 1_750_000_000
  const COLLATERAL: nat := 10 * SIZE

  /** No fees and no limits; shorts are priced by the engine's own curve, the other two solvers are whatever c holds. */
  function QuietEnv(c: Curve, now: nat): Env
  {
    var cfg: Config := Parameters(0, 0, 0, 0, 0, 0, 1_000_000, 86_400, 0, 0, 0, 0, 0, 0, 0, 0, 1, 0, 0, 0, 0);
    Env(cfg, now, c.(short := ShortReturn))
  }

  function Tick(c: Curve): Call { Call(QuietEnv(c, NOW), UpdateFGOp(PRICE)) }

  function Deposit(c: Curve, user: Address, amount: nat): Call
  {
    Call(QuietEnv(c, NOW), AddLiquidityOp(user, amount, 0, 0, PRICE, COLLATERAL))
  }

  function ShortArgs(): TradeArgs { TradeArgs(TRADER, false, SIZE, 0, 0, ZERO_ADDRESS, PRICE) }
  function Short(c: Curve): Call { Call(QuietEnv(c, NOW), TradeOp(ShortArgs(), COLLATERAL)) }

  /** In one block: a tick, then five times a deposit and a short. */
  function DecayCalls(c: Curve): seq<Call>
  {
    [Tick(c), Deposit(c, LP1, FIRST_DEPOSIT), Short(c), Deposit(c, LP2, LATER_DEPOSIT), Short(c),
     Deposit(c, LP3, LATER_DEPOSIT), Short(c), Deposit(c, LP4, LATER_DEPOSIT), Short(c),
     Deposit(c, LP5, LATER_DEPOSIT), Short(c)]
  }

  // ----- One deposit, one short -----

  /** What stays true throughout: nothing accrues, and the trader is plainly short. */
  predicate Quiet(s: State, shorted: nat)
  {
    && s.lastOp == NOW && s.rate.mag == 0 && s.exposure.Val() == -(shorted as int)
    && var p := s.Pos(TRADER);
    && p.balanceAsset == 0 && p.debtAsset == shorted && p.debtStable == 0 && p.fundingFee.mag == 0
       && p.initialFundingRate.mag == 0
    && s.Lp(TRADER) == EMPTY_LP
  }

  predicate OpenForShorts(w: Window)
  {
    w.lastUpdate == NOW && !w.lastDirection && w.lastPrice == PRICE && w.dx0 == 0 && w.dy0 == 0
  }

  lemma MdSame(x: nat, d: nat)
    requires d > 0
    ensures Md(x, d, d) == x && Md(0, x, d) == 0 && Md(x, 0, d) == 0
  {
    DivCancel(x, d);
    DivCancel(0, d);
  }

  /** Nothing accrues for a user without LP balances and without rate movement. */
  lemma NoFunding(s: State, user: Address, rate: Signed)
    requires s.Lp(user).initialStable == 0 && s.Lp(user).initialAsset == 0
    requires (rate.mag == 0 && s.Pos(user).initialFundingRate.mag == 0)
             || (s.Pos(user).balanceAsset == 0 && s.Pos(user).debtAsset == 0 && s.Lp(user).debtAsset == 0)
    ensures FundingFeeWith(s, user, rate).Ok? && FundingFeeWith(s, user, rate).value.mag == 0
  {
    var p, lp := s.Pos(user), s.Lp(user);
    var delta := SignedSum(rate, p.initialFundingRate.Neg());
    var exposure := SignedSum(Signed(p.balanceAsset, true), Signed(p.debtAsset + lp.debtAsset, false));
    if delta.mag != 0 { assert exposure.mag == 0; }
    MdZero(exposure.mag, delta.mag, WAD);
  }

  /** In the block funding was settled in, the rate is still nothing. */
  lemma QuietRate(c: Curve, s: State)
    requires s.lastOp == NOW
    ensures FundingRate(QuietEnv(c, NOW), s, PRICE, s.lastOp).Ok?
            && FundingRate(QuietEnv(c, NOW), s, PRICE, s.lastOp).value.mag == 0
  {
    var env, price0 := QuietEnv(c, NOW), Md(PRICE, WAD, ORACLE_DECIMALS);
    hide Md;
    if s.pool.asset + s.pool.stable != 0 {
      DivCancel(WAD, ORACLE_DECIMALS);
      MdSame(s.pool.asset, WAD);
      assert price0 == WAD by { hide *; MdSame(WAD, ORACLE_DECIMALS); PriceAtScale(); }
      SettledRateIsZero(env, s, PRICE);
    }
  }

  lemma PriceAtScale()
    ensures Md(PRICE, WAD, ORACLE_DECIMALS) == WAD
  {
    DivCancel(WAD, ORACLE_DECIMALS);
  }

  /** A position that holds nothing and has nothing accrued. */
  predicate Unstamped(p: Position)
  {
    && p == EMPTY_POSITION.(fundingFee := p.fundingFee, initialFundingRate := p.initialFundingRate)
    && p.fundingFee.mag == 0 && p.initialFundingRate.mag == 0
  }

  /** An LP as it stands right after its deposit of `amount` stable. */
  predicate JustDeposited(t: State, user: Address, amount: nat)
  {
    && t.lastOp == NOW && t.rate.mag == 0 && amount <= t.pool.stable
    && var lp, e, p := t.Lp(user), t.ep.At(t.EpochOf(user)), t.Pos(user);
    && lp == LpPosition(amount, 0, amount, 0, e.m, e.g0, e.g1) && e.m.RawDet() > 0 && e.m.m00 != 0
    && Unstamped(p)
  }

  lemma DepositorOwesNothing(t: State, user: Address, amount: nat, rate: Signed)
    requires JustDeposited(t, user, amount) && rate.mag == 0
    ensures LpBalance(t, user) == Ok((amount, 0))
    ensures FundingFeeWith(t, user, rate).Ok? && FundingFeeWith(t, user, rate).value.mag == 0
  {
    hide LpFunding, Md, FundingB;
    OwnSnapshotValue(t, user);
    FundingBByValue(SignedSum(rate, t.rate.Neg()), ZERO_SIGNED);
    MdZero(0, SignedSum(rate, t.Pos(user).initialFundingRate.Neg()).mag, WAD);
  }

  lemma DepositorIsSolvent(c: Curve, t: State, user: Address, amount: nat)
    requires JustDeposited(t, user, amount)
    ensures RequireSolvent(QuietEnv(c, NOW), t, user, PRICE, COLLATERAL) == Ok(t)
  {
    hide FundingRate, FundingFeeWith, LpBalance, Md;
    QuietRate(c, t);
    var rate := SignedSum(t.rate, FundingRate(QuietEnv(c, NOW), t, PRICE, t.lastOp).value);
    DepositorOwesNothing(t, user, amount, rate);
  }

  /** The epochs after a newcomer joined the current one of `rolled`. */
  function JoinedEpochs(rolled: Epochs): Epochs { Retire(IncrementLpCount(rolled, rolled.current)) }

  function JoinedLp(e: Epoch, amount: nat): LpPosition { LpPosition(amount, 0, amount, 0, e.m, e.g0, e.g1) }

  predicate Newcomer(s: State, user: Address)
  {
    s.lastOp == NOW && s.rate.mag == 0 && s.Lp(user) == EMPTY_LP && s.Pos(user) == EMPTY_POSITION
  }

  lemma NewcomerEnters(s: State, user: Address, amount: nat, rolled: Epochs)
    requires amount > 0 && s.Lp(user) == EMPTY_LP.(debtStable := amount) && Roll(s.ep) == Ok(rolled)
    ensures UpdateSnapshots(s, user, amount, 0)
            == Ok(StampRate(s, user).(ep := JoinedEpochs(rolled)).SetLp(user,
                                                                        JoinedLp(rolled.At(rolled.current), amount))
                  .SetEpochOf(user, rolled.current))
  {
    hide Roll, Retire;
  }

  lemma EmptyBalance(s: State, user: Address)
    requires s.Lp(user).snap.m00 == 0
    ensures LpBalance(s, user) == Ok((0, 0))
  {}

  lemma NothingToShare(s: State)
    ensures DistributeFee(s, 0, PRICE) == s
  {}

  /** The newcomer's deposit up to the checks made after it. */
  lemma NewcomerJoins(c: Curve, s: State, user: Address, amount: nat, rolled: Epochs)
    requires amount > 0 && Newcomer(s, user) && Roll(s.ep) == Ok(rolled)
    ensures var r := AddLiquidityCore(QuietEnv(c, NOW), s, amount, 0, 0, PRICE, user);
            r.Ok? && var t, p := r.value, r.value.Pos(user);
            && t == s.(pool := Pool(s.pool.stable + amount, s.pool.asset), ep := JoinedEpochs(rolled),
                       lps := s.lps[user := JoinedLp(rolled.At(rolled.current), amount)],
                           lpEpoch := s.lpEpoch[user := rolled.current],
                       positions := s.positions[user := p])
            && Unstamped(p)
  {
    hide FundingRate, FundingFeeWith, LpBalance, UpdateSnapshots, Roll, JoinedEpochs, JoinedLp, DistributeFee;
    QuietRate(c, s);
    var rate := SignedSum(s.rate, FundingRate(QuietEnv(c, NOW), s, PRICE, s.lastOp).value);
    NoFunding(s, user, rate);
    var credited := CreditFunding(s, user, FundingFeeWith(s, user, rate).value);
    var indebted := credited.SetLp(user, EMPTY_LP.(debtStable := amount));
    EmptyBalance(indebted, user);
    NothingToShare(indebted);
    var grown := indebted.(pool := Pool(s.pool.stable + amount, s.pool.asset));
    NewcomerEnters(grown, user, amount, rolled);
    var t := UpdateSnapshots(grown, user, amount, 0).value;
    assert t.lps == s.lps[user := JoinedLp(rolled.At(rolled.current), amount)];
    assert t.positions == s.positions[user := t.Pos(user)];
  }

  /** A deposit of stable by a newcomer: it joins the current epoch, or the next when the current one has decayed. */
  lemma NewcomerDeposits(c: Curve, s: State, user: Address, amount: nat, shorted: nat, rolled: Epochs)
    requires 0 < amount <= COLLATERAL && Newcomer(s, user) && Quiet(s, shorted) && user != TRADER
             && Roll(s.ep) == Ok(rolled)
    requires var e := rolled.At(rolled.current);
             && e.m.m00 != 0 && e.m.RawDet() > 0
             && JoinedEpochs(rolled).At(rolled.current) == e.(lpCount := e.lpCount + 1)
    ensures var call := Deposit(c, user, amount);
            var r := Apply(call.env, s, call.op);
            r.Ok? && var t := r.value;
            && Quiet(t, shorted) && t.pool == Pool(s.pool.stable + amount, s.pool.asset) && t.ep == JoinedEpochs(rolled)
            && t.lps == s.lps[user := JoinedLp(rolled.At(rolled.current), amount)]
               && t.lpEpoch == s.lpEpoch[user := rolled.current]
            && (forall u: Address :: u != user ==> t.Pos(u) == s.Pos(u)) && Unstamped(t.Pos(user))
            && t.window == s.window.(lastUpdate := NOW, lastPrice := PRICE, dx0 := 0, dy0 := 0)
  {
    hide FundingRate, FundingFeeWith, LpBalance, AddLiquidityCore, RequireSolvent, Roll, JoinedEpochs;
    NewcomerJoins(c, s, user, amount, rolled);
    var t := AddLiquidityCore(QuietEnv(c, NOW), s, amount, 0, 0, PRICE, user).value;
    MdZero(amount, 0, LIQUIDITY_FEE_DECIMALS);
    var reset := ResetWindow(QuietEnv(c, NOW), t, PRICE);
    DepositorIsSolvent(c, reset, user, amount);
  }

  /** The short's quote: what the curve answers, no fee. */
  lemma ShortQuoted(c: Curve, s: State, out: nat)
    requires s.lastOp == NOW && OpenForShorts(s.window) && s.pool.stable <= SIZE && out <= SIZE
    requires ShortReturn(SIZE, PRICE, 0, s.pool.stable, s.pool.asset) == Ok(out)
    ensures ShortQuote(QuietEnv(c, NOW), s, ShortArgs(), s.window)
            == Ok(Quote(out, 0, out, s.window.(dx0 := SIZE, dy0 := out)))
  {
    hide ShortReturn;
    MdSame(SIZE, ORACLE_DECIMALS);
    MdZero(out, 0, WAD);
    MdZero(0, 0, FEE_FRACTIONS);
    hide Md;
  }

  /** The trader's side of the short: nothing accrues. */
  lemma ShortSettled(s: State, shorted: nat, out: nat)
    requires Quiet(s, shorted)
    ensures var r := SettleTrader(s, ShortArgs(), out);
            r.Ok? && var t := r.value;
            && Quiet(t, shorted + SIZE) && t.pool == s.pool && t.ep == s.ep && t.lps == s.lps
               && t.lpEpoch == s.lpEpoch
            && t.window == s.window && t.insurance == s.insurance
            && t.Pos(TRADER).balanceStable == s.Pos(TRADER).balanceStable + out
            && (forall u: Address :: u != TRADER ==> t.Pos(u) == s.Pos(u))
  {
    hide FundingFeeWith;
    NoFunding(s, TRADER, s.rate);
  }

  /** The short moves every live epoch by the same two coefficients, and the pool by the same two amounts. */
  lemma ShortMoves(c: Curve, s: State, out: nat, w: Window)
    requires out < s.pool.stable
    ensures var stable := s.pool.stable;
            MovePool(QuietEnv(c, NOW), s, ShortArgs(), Quote(out, 0, out, w))
            == Ok(s.(ep := ApplyMatrixUpdate(s.ep, Md(SIZE, M_DECIMALS, stable), Md(out, M_DECIMALS, stable),
                                             ShortUpdate),
                     pool := Pool(stable - out, s.pool.asset + SIZE)))
  {
    MdZero(0, 0, FEE_FRACTIONS);
    hide Md, ApplyMatrixUpdate;
  }

  lemma NothingToPay(c: Curve, s: State)
    ensures var t := PayFees(QuietEnv(c, NOW), s, ShortArgs(), 0);
            t == s.(insurance := t.insurance, positions := t.positions) && forall u: Address :: t.Pos(u) == s.Pos(u)
  {
    MdZero(0, FEE_FRACTIONS, FEE_FRACTIONS);
  }

  /** The collateral covers the whole short, so the margin is positive. */
  lemma ShortHasMargin(c: Curve, s: State, shorted: nat)
    requires Quiet(s, shorted) && 0 < shorted <= 5 * SIZE
    ensures var r := CalcMr(QuietEnv(c, NOW), s, TRADER, PRICE, COLLATERAL); r.Ok? && r.value > 0
  {
    hide FundingFeeWith, LpBalance;
    EmptyBalance(s, TRADER);
    NoFunding(s, TRADER, s.rate);
    MdSame(PNL_DUST, ORACLE_DECIMALS);
    MdSame(shorted, ORACLE_DECIMALS);
    var p := s.Pos(TRADER);
    var fee := SignedSum(p.fundingFee, FundingFeeWith(s, TRADER, s.rate).value);
    assert fee.mag == 0;
    var pnl := CalcPnl(QuietEnv(c, NOW), s.pool, p.balanceStable, 0, 0, shorted, fee, PRICE, true);
    hide Md;
    assert pnl.Ok? && pnl.value.Val() >= -(shorted as int);
    var total := SignedSum(Signed(COLLATERAL, true), pnl.value);
    assert total.Val() >= 5 * SIZE && total.mag >= 5 * SIZE;
    QuotientPositive(total.mag, shorted);
  }

  lemma QuotientPositive(x: nat, d: nat)
    requires 0 < d <= x
    ensures Md(x, MMR_DECIMALS, d) > 0
  {
    MulMonotone(MMR_DECIMALS, d, x);
    DivMonotone(d * MMR_DECIMALS, x * MMR_DECIMALS, d);
    DivCancel(MMR_DECIMALS, d);
  }

  /** A short on the engine's curve that leaves at least the T3 floor. */
  lemma ShortDrains(c: Curve, s: State, shorted: nat, left: nat)
    requires Quiet(s, shorted) && OpenForShorts(s.window) && shorted <= 4 * SIZE
    requires WAD <= left < s.pool.stable <= SIZE
    requires ShortReturn(SIZE, PRICE, 0, s.pool.stable, s.pool.asset) == Ok(s.pool.stable - left)
    ensures var r := Apply(Short(c).env, s, Short(c).op);
            r.Ok? && var t := r.value;
            && Quiet(t, shorted + SIZE) && t.pool == Pool(left, s.pool.asset + SIZE)
            && t.ep == DrainEpochs(s.ep, s.pool.stable, left)
            && t.lps == s.lps && t.lpEpoch == s.lpEpoch && !t.window.lastDirection
            && (forall u: Address :: u != TRADER ==> t.Pos(u) == s.Pos(u))
  {
    hide ShortReturn, ShortQuote, SettleTrader, MovePool, PayFees, CalcMr, ApplyMatrixUpdate;
    var out := s.pool.stable - left;
    ShortQuoted(c, s, out);
    var q := Quote(out, 0, out, s.window.(dx0 := SIZE, dy0 := out));
    var funded := s.(window := q.window);
    ShortSettled(funded, shorted, out);
    var settled := SettleTrader(funded, ShortArgs(), out).value;
    ShortMoves(c, settled, out, q.window);
    var moved := MovePool(QuietEnv(c, NOW), settled, ShortArgs(), q).value;
    NothingToPay(c, moved);
    var paid := PayFees(QuietEnv(c, NOW), moved, ShortArgs(), 0);
    MdSame(paid.pool.asset, ORACLE_DECIMALS);
    ShortHasMargin(c, paid, shorted + SIZE);
    forall u: Address | u != TRADER ensures paid.Pos(u) == s.Pos(u) {
      assert moved.Pos(u) == settled.Pos(u) == funded.Pos(u);
    }
    assert Trade(QuietEnv(c, NOW), s, ShortArgs(), COLLATERAL) == Ok(paid);
  }

  /** What the short does to the epochs: the shares of the stable side it adds and takes, fanned out. */
  function DrainEpochs(e: Epochs, stable: nat, left: nat): Epochs
    requires left < stable
  {
    ApplyMatrixUpdate(e, Md(SIZE, M_DECIMALS, stable), Md(stable - left, M_DECIMALS, stable), ShortUpdate)
  }

  // ----- The matrices of the run -----

  // Epoch 0's matrix after each short, and epoch 1's after the fourth and the fifth.
  const DRAINED_1 := Mat(1_457_831_157_033_110_965, 0, 1_208_925_819_614_629_174_706_176_000, M_DECIMALS)
  const DRAINED_2 := Mat(25_963_606_485_650, 0, 1_208_954_975_534_593_383_148_751_178, M_DECIMALS)
  const DRAINED_3 := Mat(590_052_552, 0, 1_208_954_976_053_856_264_697_305_890, M_DECIMALS)
  const DRAINED_4 := Mat(15_059, 0, 1_208_954_976_053_868_065_480_154_871, M_DECIMALS)
  const DRAINED_5 := Mat(0, 0, 1_208_954_976_053_868_065_781_327_184, M_DECIMALS)
  const NEXT_4 := Mat(30_854_632_961_455_395_351, 0, 24_177_966_910_648_326_141_978_095_192, M_DECIMALS)
  const NEXT_5 := Mat(846_473_120_678_384, 0, 24_178_583_987_557_941_872_097_599_607, M_DECIMALS)

  function Drain(m: Mat, stable: nat, left: nat): Mat
    requires left < stable
  {
    StepMatrix(m, Md(SIZE, M_DECIMALS, stable), Md(stable - left, M_DECIMALS, stable), ShortUpdate)
  }

  /** `q` is n/d rounded up, said without division. */
  predicate IsCeiling(n: int, d: int, q: int) { d > 0 && n > 0 && d * (q - 1) < n <= d * q }

  lemma CeilingIs(n: int, d: int, q: int)
    requires IsCeiling(n, d, q)
    ensures DivCeil(n, d) == q
  {
    if n == d * q { QuotientIs(n, d, q); } else { QuotientIs(n, d, q - 1); }
  }

  /** A short moves a matrix with an empty corner above the diagonal by the quotients named. */
  lemma DrainIs(m00: nat, m10: nat, stable: nat, left: nat, aX: nat, aY: nat, lost: nat, gained: nat)
    requires left < stable && IsQuotient(SIZE * M_DECIMALS, stable, aX)
    requires IsQuotient((stable - left) * M_DECIMALS, stable, aY)
    requires IsCeiling(aY * m00, M_DECIMALS, lost) && IsQuotient(aX * m00, M_DECIMALS, gained)
    ensures Drain(Mat(m00, 0, m10, M_DECIMALS), stable, left) == Mat(m00 - lost, 0, m10 + gained, M_DECIMALS)
  {
    QuotientIs(SIZE * M_DECIMALS, stable, aX);
    QuotientIs((stable - left) * M_DECIMALS, stable, aY);
    CeilingIs(aY * m00, M_DECIMALS, lost);
    QuotientIs(aX * m00, M_DECIMALS, gained);
    DivCancel(0, M_DECIMALS);
    assert Md(SIZE, M_DECIMALS, stable) == aX && Md(stable - left, M_DECIMALS, stable) == aY;
    hide Md, IsQuotient, IsCeiling;
  }

  lemma MatricesDrain()
    ensures Drain(IDENTITY, STABLE_1, LEFT_1) == DRAINED_1
    ensures Drain(DRAINED_1, STABLE_2, LEFT_2) == DRAINED_2
    ensures Drain(DRAINED_2, STABLE_3, LEFT_3) == DRAINED_3
    ensures Drain(DRAINED_3, STABLE_4, LEFT_4) == DRAINED_4
    ensures Drain(DRAINED_4, STABLE_5, LEFT_5) == DRAINED_5
    ensures Drain(IDENTITY, STABLE_4, LEFT_4) == NEXT_4
    ensures Drain(NEXT_4, STABLE_5, LEFT_5) == NEXT_5
  {
    hide Drain;
    DrainIs(1_208_925_819_614_629_174_706_176, 0, STABLE_1, LEFT_1, 1_208_925_819_614_629_174_706_176_000,
            1_208_924_361_783_472_141_595_211, 1_208_924_361_783_472_141_595_211,
                1_208_925_819_614_629_174_706_176_000);
    DrainIs(1_457_831_157_033_110_965, 1_208_925_819_614_629_174_706_176_000, STABLE_2, LEFT_2,
            24_177_933_273_893_299_325_272_220_355, 1_208_904_288_949_641_401_871_584, 1_457_805_193_426_625_315,
                29_155_919_964_208_442_575_178);
    DrainIs(25_963_606_485_650, 1_208_954_975_534_593_383_148_751_178, STABLE_3, LEFT_3,
            24_178_085_776_276_733_414_818_366_296, 1_208_898_345_397_346_056_601_237, 25_963_016_433_098,
                519_262_881_548_554_712);
    DrainIs(590_052_552, 1_208_954_976_053_856_264_697_305_890, STABLE_4, LEFT_4,
            24_177_966_910_648_326_141_978_095_192, 1_208_894_964_981_667_719_310_825, 590_037_493, 11_800_782_848_981);
    DrainIs(15_059, 1_208_954_976_053_868_065_480_154_871, STABLE_5, LEFT_5, 24_177_899_301_358_941_832_379_302_072,
            1_208_892_653_664_722_195_171_162, 15_059, 301_172_313);
    DrainIs(1_208_925_819_614_629_174_706_176, 0, STABLE_4, LEFT_4, 24_177_966_910_648_326_141_978_095_192,
            1_208_894_964_981_667_719_310_825, 1_208_894_964_981_667_719_310_825,
                24_177_966_910_648_326_141_978_095_192);
    DrainIs(30_854_632_961_455_395_351, 24_177_966_910_648_326_141_978_095_192, STABLE_5, LEFT_5,
            24_177_899_301_358_941_832_379_302_072, 1_208_892_653_664_722_195_171_162, 30_853_786_488_334_716_967,
                617_076_909_615_730_119_504_415);
  }

  /** The state after the first k calls. */
  function After(calls: seq<Call>, k: nat): State
    requires k <= |calls|
  {
    Run(INITIAL_STATE, calls[..k])
  }

  lemma OneMore(calls: seq<Call>, k: nat)
    requires k < |calls|
    ensures After(calls, k + 1) == Step(calls[k].env, After(calls, k), calls[k].op)
  {
    hide Step;
    var more := calls[..k + 1];
    assert more[..|more| - 1] == calls[..k];
  }

  /** Epoch 0 alone. */
  function OneEpoch(m: Mat, count: nat): Epochs { Epochs(map[0 := Epoch(m, 0, 0, count)], 0, 0) }

  function TwoEpochs(m: Mat, count: nat, next: Mat, nextCount: nat): Epochs
  {
    Epochs(map[0 := Epoch(m, 0, 0, count), 1 := Epoch(next, 0, 0, nextCount)], 1, 0)
  }

  lemma DrainOne(m: Mat, count: nat, stable: nat, left: nat)
    requires m.m00 != 0 && left < stable
    ensures DrainEpochs(OneEpoch(m, count), stable, left) == OneEpoch(Drain(m, stable, left), count)
  {
    hide Md, StepMatrix;
    var r := DrainEpochs(OneEpoch(m, count), stable, left);
    assert r.slots == OneEpoch(Drain(m, stable, left), count).slots;
  }

  lemma DrainTwo(m: Mat, count: nat, next: Mat, nextCount: nat, stable: nat, left: nat)
    requires m.m00 != 0 && count > 0 && next.m00 != 0 && left < stable
    ensures DrainEpochs(TwoEpochs(m, count, next, nextCount), stable, left)
            == TwoEpochs(Drain(m, stable, left), count, Drain(next, stable, left), nextCount)
  {
    hide Md, StepMatrix;
    var r := DrainEpochs(TwoEpochs(m, count, next, nextCount), stable, left);
    assert r.slots == TwoEpochs(Drain(m, stable, left), count, Drain(next, stable, left), nextCount).slots;
  }

  /** A matrix with an empty corner above the diagonal: its determinant is the product of the diagonal, at scale its
      first entry. */
  lemma LowerDeterminant(e: Epoch)
    requires e.m.m00 > 0 && e.m.m01 == 0 && e.m.m11 == M_DECIMALS
    ensures EpochDeterminant(e) == Ok(e.m.m00) && e.m.RawDet() > 0
  {
    hide SumMulDivSigned;
    FusedMulDivIsExact(e.m.m00, M_DECIMALS, -e.m.m10, 0, M_DECIMALS);
    DivCancel(e.m.m00, M_DECIMALS);
    MulMonotone(M_DECIMALS, 1, e.m.m00);
  }

  /** While the first entry is above the threshold a newcomer joins epoch 0. */
  lemma JoinsFirst(m: Mat, count: nat)
    requires m.m00 > DET_THRESHOLD && m.m01 == 0 && m.m11 == M_DECIMALS
    ensures Roll(OneEpoch(m, count)) == Ok(OneEpoch(m, count))
    ensures JoinedEpochs(OneEpoch(m, count)) == OneEpoch(m, count + 1)
  {
    hide EpochDeterminant;
    LowerDeterminant(Epoch(m, 0, 0, count));
  }

  /** Below it the newcomer opens epoch 1, and epoch 0 stays for those pinned to it. */
  lemma OpensSecond(m: Mat, count: nat)
    requires 0 < m.m00 <= DET_THRESHOLD && m.m01 == 0 && m.m11 == M_DECIMALS && count > 0
    ensures Roll(OneEpoch(m, count)) == Ok(TwoEpochs(m, count, IDENTITY, 0))
    ensures JoinedEpochs(TwoEpochs(m, count, IDENTITY, 0)) == TwoEpochs(m, count, IDENTITY, 1)
  {
    hide EpochDeterminant;
    LowerDeterminant(Epoch(m, 0, 0, count));
  }

  /** A newcomer that finds epoch 1 undecayed joins it. */
  lemma JoinsSecond(m: Mat, count: nat, next: Mat, nextCount: nat)
    requires m.m00 != 0 && count > 0 && next.m00 > DET_THRESHOLD && next.m01 == 0 && next.m11 == M_DECIMALS
    ensures var e := TwoEpochs(m, count, next, nextCount);
            Roll(e) == Ok(e) && JoinedEpochs(e) == TwoEpochs(m, count, next, nextCount + 1)
  {
    hide EpochDeterminant;
    LowerDeterminant(Epoch(next, 0, 0, nextCount));
  }

  predicate IsLp(u: Address) { LP1 <= u <= LP5 }

  /** Where the run stands: what was shorted, the pool, the epochs, and which LPs have joined. */
  ghost predicate Stage(s: State, shorted: nat, pool: Pool, ep: Epochs, lps: map<Address, LpPosition>,
                        joined: map<Address, nat>)
  {
    && Quiet(s, shorted) && s.pool == pool && s.ep == ep && s.lps == lps && s.lpEpoch == joined
    && !s.window.lastDirection
    && (forall u :: IsLp(u) ==> Unstamped(s.Pos(u)) && (u !in lps ==> s.Pos(u) == EMPTY_POSITION))
  }

  lemma StageNewcomer(s: State, user: Address, shorted: nat, pool: Pool, ep: Epochs, lps: map<Address, LpPosition>,
                      joined: map<Address, nat>)
    requires Stage(s, shorted, pool, ep, lps, joined) && IsLp(user) && user !in lps
    ensures Newcomer(s, user) && user != TRADER
  {}

  /** One round: a newcomer deposits, then the trader shorts. */
  lemma Round(c: Curve, s: State, user: Address, amount: nat, shorted: nat, pool: Pool, ep: Epochs,
              lps: map<Address, LpPosition>, joined: map<Address, nat>, rolled: Epochs, left: nat)
    requires Stage(s, shorted, pool, ep, lps, joined) && IsLp(user) && user !in lps && 0 < amount <= COLLATERAL
    requires Roll(ep) == Ok(rolled) && shorted <= 4 * SIZE
    requires var e := rolled.At(rolled.current);
             && e.m.m00 != 0 && e.m.RawDet() > 0
             && JoinedEpochs(rolled).At(rolled.current) == e.(lpCount := e.lpCount + 1)
    requires WAD <= left < pool.stable + amount <= SIZE
    requires ShortReturn(SIZE, PRICE, 0, pool.stable + amount, pool.asset) == Ok(pool.stable + amount - left)
    ensures var d := Step(Deposit(c, user, amount).env, s, Deposit(c, user, amount).op);
            Stage(Step(Short(c).env, d, Short(c).op), shorted + SIZE, Pool(left, pool.asset + SIZE),
                  DrainEpochs(JoinedEpochs(rolled), pool.stable + amount, left),
                  lps[user := JoinedLp(rolled.At(rolled.current), amount)], joined[user := rolled.current])
  {
    hide Roll, JoinedEpochs, DrainEpochs, Apply, Run, Deposit, Short, JoinedLp, Quiet, Unstamped, ShortReturn;
    assert Newcomer(s, user) && user != TRADER by { hide *; StageNewcomer(s, user, shorted, pool, ep, lps, joined); }
    NewcomerDeposits(c, s, user, amount, shorted, rolled);
    var d := Step(Deposit(c, user, amount).env, s, Deposit(c, user, amount).op);
    ShortDrains(c, d, shorted, left);
    var t := Step(Short(c).env, d, Short(c).op);
    forall u | IsLp(u) ensures t.Pos(u) == d.Pos(u) && (u != user ==> d.Pos(u) == s.Pos(u)) {
      assert u != TRADER;
    }
  }

  lemma TwoMore(calls: seq<Call>, k: nat)
    requires k + 2 <= |calls|
    ensures After(calls, k + 2) == Step(calls[k + 1].env, Step(calls[k].env, After(calls, k), calls[k].op),
                                        calls[k + 1].op)
  {
    hide Step;
    OneMore(calls, k);
    OneMore(calls, k + 1);
  }

  function JoinedAt(m: Mat, amount: nat): LpPosition { LpPosition(amount, 0, amount, 0, m, 0, 0) }

  lemma NothingAccrues(e: Epochs)
    ensures AccrueAll(e, 0) == e
  {
    hide PendingG;
    forall id | id in e.slots ensures AccrueAll(e, 0).slots[id] == e.slots[id] {
      PendingZero(e.slots[id].m.m10);
      PendingZero(e.slots[id].m.m11);
    }
    assert AccrueAll(e, 0).slots == e.slots;
  }

  /** On an empty pool a tick only stamps the block. */
  lemma TickOnEmptyPool(c: Curve, s: State)
    requires s.pool == Pool(0, 0) && s.lastOp < NOW
    ensures UpdateFG(QuietEnv(c, NOW), s, PRICE) == Ok(s.(rate := SignedSum(s.rate, Signed(0, true)), lastOp := NOW))
  {
    FundingBByValue(Signed(0, true), Signed(0, true));
    NothingAccrues(s.ep);
    hide AccrueAll, FundingB;
  }

  lemma TickedStage(t: State)
    requires t == INITIAL_STATE.(rate := SignedSum(ZERO_SIGNED, Signed(0, true)), lastOp := NOW)
    ensures Stage(t, 0, Pool(0, 0), OneEpoch(IDENTITY, 0), map[], map[])
  {}

  lemma FirstTick(c: Curve, s: State)
    requires s == INITIAL_STATE
    ensures Stage(Step(Tick(c).env, s, Tick(c).op), 0, Pool(0, 0), OneEpoch(IDENTITY, 0), map[], map[])
  {
    hide Stage, UpdateFG;
    TickOnEmptyPool(c, s);
    TickedStage(Step(Tick(c).env, s, Tick(c).op));
  }

  // The LPs that have joined after each round, and the epochs they joined.
  const LPS_1 := map[LP1 := JoinedAt(IDENTITY, FIRST_DEPOSIT)]
  const LPS_2 := LPS_1[LP2 := JoinedAt(DRAINED_1, LATER_DEPOSIT)]
  const LPS_3 := LPS_2[LP3 := JoinedAt(DRAINED_2, LATER_DEPOSIT)]
  const LPS_4 := LPS_3[LP4 := JoinedAt(IDENTITY, LATER_DEPOSIT)]
  const LPS_5 := LPS_4[LP5 := JoinedAt(NEXT_4, LATER_DEPOSIT)]
  const EPOCHS_1: map<Address, nat> := map[LP1 := 0]
  const EPOCHS_2 := EPOCHS_1[LP2 := 0]
  const EPOCHS_3 := EPOCHS_2[LP3 := 0]
  const EPOCHS_4 := EPOCHS_3[LP4 := 1]
  const EPOCHS_5 := EPOCHS_4[LP5 := 1]

  /** The state after the tick and k rounds. */
  function Rounds(calls: seq<Call>, k: nat): State
    requires 2 * k + 1 <= |calls|
  {
    After(calls, 2 * k + 1)
  }

  lemma RoundIsTwoCalls(c: Curve, calls: seq<Call>, k: nat, user: Address, amount: nat)
    requires 2 * k + 3 <= |calls| && calls[2 * k + 1] == Deposit(c, user, amount) && calls[2 * k + 2] == Short(c)
    ensures var d := Step(Deposit(c, user, amount).env, Rounds(calls, k), Deposit(c, user, amount).op);
            Rounds(calls, k + 1) == Step(Short(c).env, d, Short(c).op)
  {
    hide Step, After;
    TwoMore(calls, 2 * k + 1);
  }

  lemma Opening(c: Curve, calls: seq<Call>)
    requires |calls| >= 1 && calls[0] == Tick(c)
    ensures Stage(Rounds(calls, 0), 0, Pool(0, 0), OneEpoch(IDENTITY, 0), map[], map[])
  {
    hide Stage, Step, Tick;
    OneMore(calls, 0);
    FirstTick(c, After(calls, 0));
  }

  lemma FirstRound(c: Curve, calls: seq<Call>)
    requires calls == DecayCalls(c)
    ensures Stage(Rounds(calls, 1), SIZE, Pool(LEFT_1, SIZE), OneEpoch(DRAINED_1, 1), LPS_1, EPOCHS_1)
  {
    hide Stage, Roll, JoinedEpochs, Rounds, Drain, DrainEpochs, Step, Deposit, Short, ShortReturn;
    Opening(c, calls);
    JoinsFirst(IDENTITY, 0);
    FirstShort();
    MatricesDrain();
    DrainOne(IDENTITY, 1, STABLE_1, LEFT_1);
    Round(c, Rounds(calls, 0), LP1, FIRST_DEPOSIT, 0, Pool(0, 0), OneEpoch(IDENTITY, 0), map[], map[],
          OneEpoch(IDENTITY, 0), LEFT_1);
    RoundIsTwoCalls(c, calls, 0, LP1, FIRST_DEPOSIT);
  }

  /** The second LP still joins epoch 0. */
  lemma SecondRound(c: Curve, calls: seq<Call>)
    requires calls == DecayCalls(c)
    ensures Stage(Rounds(calls, 2), 2 * SIZE, Pool(LEFT_2, 2 * SIZE), OneEpoch(DRAINED_2, 2), LPS_2, EPOCHS_2)
  {
    hide Stage, Roll, JoinedEpochs, Rounds, Drain, DrainEpochs, Step, Deposit, Short, ShortReturn;
    FirstRound(c, calls);
    JoinsFirst(DRAINED_1, 1);
    SecondShort();
    MatricesDrain();
    DrainOne(DRAINED_1, 2, STABLE_2, LEFT_2);
    Round(c, Rounds(calls, 1), LP2, LATER_DEPOSIT, 1 * SIZE, Pool(LEFT_1, 1 * SIZE), OneEpoch(DRAINED_1, 1), LPS_1,
          EPOCHS_1, OneEpoch(DRAINED_1, 1), LEFT_2);
    RoundIsTwoCalls(c, calls, 1, LP2, LATER_DEPOSIT);
  }

  /** And so does the third. */
  lemma ThirdRound(c: Curve, calls: seq<Call>)
    requires calls == DecayCalls(c)
    ensures Stage(Rounds(calls, 3), 3 * SIZE, Pool(LEFT_3, 3 * SIZE), OneEpoch(DRAINED_3, 3), LPS_3, EPOCHS_3)
  {
    hide Stage, Roll, JoinedEpochs, Rounds, Drain, DrainEpochs, Step, Deposit, Short, ShortReturn;
    SecondRound(c, calls);
    JoinsFirst(DRAINED_2, 2);
    ThirdShort();
    MatricesDrain();
    DrainOne(DRAINED_2, 3, STABLE_3, LEFT_3);
    Round(c, Rounds(calls, 2), LP3, LATER_DEPOSIT, 2 * SIZE, Pool(LEFT_2, 2 * SIZE), OneEpoch(DRAINED_2, 2), LPS_2,
          EPOCHS_2, OneEpoch(DRAINED_2, 2), LEFT_3);
    RoundIsTwoCalls(c, calls, 2, LP3, LATER_DEPOSIT);
  }

  /** The fourth LP finds epoch 0 below the threshold and opens epoch 1. */
  lemma FourthRound(c: Curve, calls: seq<Call>)
    requires calls == DecayCalls(c)
    ensures Stage(Rounds(calls, 4), 4 * SIZE, Pool(LEFT_4, 4 * SIZE), TwoEpochs(DRAINED_4, 3, NEXT_4, 1), LPS_4,
                  EPOCHS_4)
  {
    hide Stage, Roll, JoinedEpochs, Rounds, Drain, DrainEpochs, Step, Deposit, Short, ShortReturn;
    ThirdRound(c, calls);
    OpensSecond(DRAINED_3, 3);
    FourthShort();
    MatricesDrain();
    DrainTwo(DRAINED_3, 3, IDENTITY, 1, STABLE_4, LEFT_4);
    Round(c, Rounds(calls, 3), LP4, LATER_DEPOSIT, 3 * SIZE, Pool(LEFT_3, 3 * SIZE), OneEpoch(DRAINED_3, 3), LPS_3,
          EPOCHS_3, TwoEpochs(DRAINED_3, 3, IDENTITY, 0), LEFT_4);
    RoundIsTwoCalls(c, calls, 3, LP4, LATER_DEPOSIT);
  }

  const FINAL_EPOCHS := TwoEpochs(DRAINED_5, 3, NEXT_5, 2)

  ghost predicate Final(s: State)
  {
    Stage(s, 5 * SIZE, Pool(LEFT_5, 5 * SIZE), FINAL_EPOCHS, LPS_5, EPOCHS_5)
  }

  /** The fifth joins epoch 1, and the short after it takes the corner of epoch 0 to zero. */
  lemma FifthRound(c: Curve, calls: seq<Call>)
    requires calls == DecayCalls(c)
    ensures Final(Rounds(calls, 5))
  {
    hide Stage, Roll, JoinedEpochs, Rounds, Drain, DrainEpochs, Step, Deposit, Short, ShortReturn;
    FourthRound(c, calls);
    JoinsSecond(DRAINED_4, 3, NEXT_4, 1);
    FifthShort();
    MatricesDrain();
    DrainTwo(DRAINED_4, 3, NEXT_4, 2, STABLE_5, LEFT_5);
    Round(c, Rounds(calls, 4), LP5, LATER_DEPOSIT, 4 * SIZE, Pool(LEFT_4, 4 * SIZE), TwoEpochs(DRAINED_4, 3, NEXT_4, 1),
          LPS_4,
          EPOCHS_4, TwoEpochs(DRAINED_4, 3, NEXT_4, 1), LEFT_5);
    RoundIsTwoCalls(c, calls, 4, LP5, LATER_DEPOSIT);
  }

  lemma WholeRun(c: Curve, calls: seq<Call>)
    requires calls == DecayCalls(c)
    ensures Final(Run(INITIAL_STATE, calls))
  {
    hide Run, Final;
    FifthRound(c, calls);
    assert calls[..11] == calls;
  }

  // ----- What the run costs -----

  /** What a stable deposit of p recovers when neither matrix mixes stable into row 0, by the quotients named. */
  lemma RecoveredIs(cur: Mat, snap: Mat, p: nat, stable: int, asset: int)
    requires cur.m01 == 0 && snap.m01 == 0 && cur.m11 == M_DECIMALS && snap.m11 == M_DECIMALS && snap.m00 > 0
    requires IsQuotient(cur.m00 * (M_DECIMALS * p), snap.m00 * M_DECIMALS, stable)
    requires IsQuotient(cur.m10 * (M_DECIMALS * p) + M_DECIMALS * (-snap.m10 * p), snap.m00 * M_DECIMALS, asset)
    ensures RecoverLpBalance(cur, snap, p, 0, M_DECIMALS) == Ok((stable, asset))
  {
    QuotientIs(cur.m00 * (M_DECIMALS * p), snap.m00 * M_DECIMALS, stable);
    QuotientIs(cur.m10 * (M_DECIMALS * p) + M_DECIMALS * (-snap.m10 * p), snap.m00 * M_DECIMALS, asset);
    MulMonotone(M_DECIMALS, 1, snap.m00);
    hide IsQuotient, TruncDiv;
  }

  // What the three LPs pinned to epoch 0 recover without the decay test, and what the other two read.
  const SHARE_1: nat := 2_000_048_235_282_538_982_103_089_415
  const SHARE_2: nat := 1_999_987_385_248_953_080_788_751_723
  const SHARE_3: nat := 2_000_009_832_684_752_085_540_434_932
  const BALANCE_4: (nat, nat) := (70_018_615_447_241, 2_000_005_591_349_300_482_754_435_994)
  const BALANCE_5: (nat, nat) := (2_743_423_075_995_833_684, 1_999_948_955_434_350_937_048_548_817)

  lemma RecoveredShares()
    ensures RecoverLpBalance(DRAINED_5, IDENTITY, FIRST_DEPOSIT, 0, M_DECIMALS) == Ok((0, SHARE_1))
    ensures RecoverLpBalance(DRAINED_5, DRAINED_1, LATER_DEPOSIT, 0, M_DECIMALS) == Ok((0, SHARE_2))
    ensures RecoverLpBalance(DRAINED_5, DRAINED_2, LATER_DEPOSIT, 0, M_DECIMALS) == Ok((0, SHARE_3))
    ensures RecoverLpBalance(NEXT_5, IDENTITY, LATER_DEPOSIT, 0, M_DECIMALS) == Ok((BALANCE_4.0, BALANCE_4.1))
    ensures RecoverLpBalance(NEXT_5, NEXT_4, LATER_DEPOSIT, 0, M_DECIMALS) == Ok((BALANCE_5.0, BALANCE_5.1))
  {
    hide RecoverLpBalance;
    RecoveredIs(DRAINED_5, IDENTITY, FIRST_DEPOSIT, 0, SHARE_1);
    RecoveredIs(DRAINED_5, DRAINED_1, LATER_DEPOSIT, 0, SHARE_2);
    RecoveredIs(DRAINED_5, DRAINED_2, LATER_DEPOSIT, 0, SHARE_3);
    RecoveredIs(NEXT_5, IDENTITY, LATER_DEPOSIT, BALANCE_4.0, BALANCE_4.1);
    RecoveredIs(NEXT_5, NEXT_4, LATER_DEPOSIT, BALANCE_5.0, BALANCE_5.1);
  }

  lemma FinalFacts(s: State)
    requires Final(s)
    ensures s.lastOp == NOW && s.rate.mag == 0 && s.exposure.Val() == -(5 * SIZE as int) && Unstamped(s.Pos(LP1))
    ensures s.pool == Pool(LEFT_5, 5 * SIZE) && s.ep == FINAL_EPOCHS && s.lps == LPS_5 && s.lpEpoch == EPOCHS_5
  {
    hide Quiet, Unstamped;
    assert Quiet(s, 5 * SIZE) && Unstamped(s.Pos(LP1)) by { assert IsLp(LP1); }
    QuietFacts(s, 5 * SIZE);
  }

  lemma QuietFacts(s: State, shorted: nat)
    requires Quiet(s, shorted)
    ensures s.lastOp == NOW && s.rate.mag == 0 && s.exposure.Val() == -(shorted as int)
  {}

  /** Who has joined what. */
  lemma FinalLps(s: State)
    requires s.lps == LPS_5 && s.lpEpoch == EPOCHS_5
    ensures s.Lp(LP1) == JoinedAt(IDENTITY, FIRST_DEPOSIT) && s.EpochOf(LP1) == 0
    ensures s.Lp(LP2) == JoinedAt(DRAINED_1, LATER_DEPOSIT) && s.EpochOf(LP2) == 0
    ensures s.Lp(LP3) == JoinedAt(DRAINED_2, LATER_DEPOSIT) && s.EpochOf(LP3) == 0
    ensures s.Lp(LP4) == JoinedAt(IDENTITY, LATER_DEPOSIT) && s.EpochOf(LP4) == 1
    ensures s.Lp(LP5) == JoinedAt(NEXT_4, LATER_DEPOSIT) && s.EpochOf(LP5) == 1
    ensures forall u: Address :: !IsLp(u) ==> s.Lp(u) == EMPTY_LP
  {
    hide JoinedAt;
  }

  predicate InFirstEpoch(u: Address) { u == LP1 || u == LP2 || u == LP3 }

  /** Eleven calls in one block, from the initial state and on the engine's own curve for shorts, decay the epoch three
      LPs are pinned to. The pool then holds 1e28 asset, of which the two other LPs read two fifths and nobody reads the
      rest, though each of the three recovers about a fifth of it without the decay test. */
  lemma DecayedEpochIsReachable(c: Curve)
    ensures var s := Run(INITIAL_STATE, DecayCalls(c));
            && s.pool == Pool(LEFT_5, 5 * SIZE)
            && (forall u: Address :: InFirstEpoch(u) ==> u in Pinned(s, 0) && !EpochUsable(s, u))
            && LpBalance(s, LP4) == Ok(BALANCE_4) && LpBalance(s, LP5) == Ok(BALANCE_5)
            && (forall u: Address :: u != LP4 && u != LP5 ==> LpBalance(s, u) == Ok((0, 0)))
            && var m := s.ep.At(0).m;
            && RecoverLpBalance(m, s.Lp(LP1).snap, FIRST_DEPOSIT, 0, M_DECIMALS) == Ok((0, SHARE_1))
            && RecoverLpBalance(m, s.Lp(LP2).snap, LATER_DEPOSIT, 0, M_DECIMALS) == Ok((0, SHARE_2))
            && RecoverLpBalance(m, s.Lp(LP3).snap, LATER_DEPOSIT, 0, M_DECIMALS) == Ok((0, SHARE_3))
  {
    hide Run, Final, RecoverLpBalance, EpochUsable;
    WholeRun(c, DecayCalls(c));
    var s := Run(INITIAL_STATE, DecayCalls(c));
    FinalFacts(s);
    FinalLps(s);
    RecoveredShares();
    FinalReadings(s);
  }

  lemma FinalReadings(s: State)
    requires s.pool == Pool(LEFT_5, 5 * SIZE) && s.ep == FINAL_EPOCHS && s.lps == LPS_5 && s.lpEpoch == EPOCHS_5
    ensures s.ep.At(0) == Epoch(DRAINED_5, 0, 0, 3)
    ensures forall u: Address :: InFirstEpoch(u) ==> u in Pinned(s, 0) && !EpochUsable(s, u)
    ensures LpBalance(s, LP4) == Ok(BALANCE_4) && LpBalance(s, LP5) == Ok(BALANCE_5)
    ensures forall u: Address :: u != LP4 && u != LP5 ==> LpBalance(s, u) == Ok((0, 0))
  {
    hide RecoverLpBalance;
    FinalLps(s);
    RecoveredShares();
    assert s.ep.At(0) == Epoch(DRAINED_5, 0, 0, 3) && s.ep.At(1) == Epoch(NEXT_5, 0, 0, 2);
    forall u: Address | u != LP4 && u != LP5 ensures LpBalance(s, u) == Ok((0, 0)) {
      if !IsLp(u) { assert s.Lp(u) == EMPTY_LP; }
    }
  }

  // ----- One day later -----

  const DAY_RATE: nat := 99_999_999_972_565_069
  const LP1_DAY: nat := 200_004_823_473_382_712_878_660_718
  const DAY_TICK: int := -(DAY_RATE * 1_000_000)

  lemma DayAccrued(c: Curve, s: State)
    requires s.lastOp == NOW && s.pool == Pool(LEFT_5, 5 * SIZE) && s.exposure.Val() == -(5 * SIZE as int)
    ensures FundingRate(QuietEnv(c, NOW + 86_400), s, PRICE, s.lastOp) == Ok(Signed(DAY_RATE, false))
    ensures FundingB(Signed(DAY_RATE, false)) == DAY_TICK
  {
    PriceAtScale();
    DayRate();
    DivCancel(DAY_RATE * 1_000_000, WAD);
  }

  lemma DayRate()
    ensures 5 * SIZE * 100_000 * WAD / (1_000_000 * (5 * SIZE + LEFT_5)) == DAY_RATE
  {
  }

  /** The LP part of LP1's funding for one day, as a preview adds it. */
  lemma DayForLp1(s: State)
    requires s.ep == FINAL_EPOCHS && s.Lp(LP1) == JoinedAt(IDENTITY, FIRST_DEPOSIT) && s.EpochOf(LP1) == 0
    ensures LpFunding(s, LP1, DAY_TICK) == Ok(-(LP1_DAY as int))
    ensures LpFunding(s, LP1, 0) == Ok(0)
  {
    hide RecoverFundingStar, PendingG;
    DayPending();
    DayRecovered();
    PendingZero(DRAINED_5.m10);
    PendingZero(M_DECIMALS);
    NoFundingYet(IDENTITY, FIRST_DEPOSIT, 0);
    assert s.ep.At(0) == Epoch(DRAINED_5, 0, 0, 3);
  }

  const DAY_ROW: int := -100_002_411_736_691_356_439_330_359

  /** What the day adds to epoch 0's funding row. */
  lemma DayPending()
    ensures PendingG(DAY_TICK, DRAINED_5.m10) == DAY_ROW && PendingG(DAY_TICK, M_DECIMALS) == DAY_TICK
  {
    QuotientIs(DAY_TICK * DRAINED_5.m10, M_DECIMALS, DAY_ROW);
    QuotientIs(DAY_TICK * M_DECIMALS, M_DECIMALS, DAY_TICK);
    hide TruncDiv;
  }

  lemma DayRecovered()
    ensures RecoverFundingStar(DAY_ROW, DAY_TICK, IDENTITY, FIRST_DEPOSIT, 0, M_DECIMALS, G_DECIMALS)
            == Ok(-(LP1_DAY as int))
  {
    QuotientIs(DAY_ROW * (M_DECIMALS * FIRST_DEPOSIT) * M_DECIMALS, M_DECIMALS * M_DECIMALS * G_DECIMALS,
               -(LP1_DAY as int));
    hide TruncDiv;
  }

  lemma UnstampedTrades(s: State, user: Address, rate: Signed)
    requires Unstamped(s.Pos(user)) && s.Lp(user).debtAsset == 0
    ensures TraderFunding(s, user, rate).mag == 0 && s.Pos(user).fundingFee.mag == 0
  {
    MdZero(0, SignedSum(rate, s.Pos(user).initialFundingRate.Neg()).mag, WAD);
  }

  /** A user without asset and without settled funding owes its LP part alone. */
  lemma OnlyLpPart(env: Env, s: State, user: Address, price: nat, tick: Signed, star: int)
    requires FundingRate(env, s, price, s.lastOp) == Ok(tick) && LpFunding(s, user, FundingB(tick)) == Ok(star)
    requires Unstamped(s.Pos(user)) && s.Lp(user).debtAsset == 0
    ensures FundingAt(env, s, user, price).Ok? && FundingAt(env, s, user, price).value.Val() == star
  {
    hide FundingRate, LpFunding, TraderFunding, FundingB, Md;
    var rate := SignedSum(s.rate, tick);
    FundingBByValue(SignedSum(rate, s.rate.Neg()), tick);
    UnstampedTrades(s, user, rate);
  }

  /** One day later the first LP is shown a funding receipt of 2.0e26 there, and settling the tick writes it nothing. */
  lemma DecayedEpochExample(c: Curve)
    ensures var s, env := Run(INITIAL_STATE, DecayCalls(c)), QuietEnv(c, NOW + 86_400);
            var t := UpdateFG(env, s, PRICE);
            && FundingAt(env, s, LP1, PRICE).Ok? && FundingAt(env, s, LP1, PRICE).value.Val() == -(LP1_DAY as int)
            && t.Ok? && FundingAt(env, t.value, LP1, PRICE).Ok? && FundingAt(env, t.value, LP1, PRICE).value.Val() == 0
  {
    hide Run, Final, EpochUsable, FundingRate, LpFunding, FundingB, FundingAt, Unstamped, AccrueAll, SignedSum,
         LpBalance;
    WholeRun(c, DecayCalls(c));
    var s, env := Run(INITIAL_STATE, DecayCalls(c)), QuietEnv(c, NOW + 86_400);
    FinalFacts(s);
    FinalLps(s);
    FinalReadings(s);
    assert InFirstEpoch(LP1);
    DayAccrued(c, s);
    DayForLp1(s);
    OnlyLpPart(env, s, LP1, PRICE, Signed(DAY_RATE, false), -(LP1_DAY as int));
    DecayedEpochDropsTick(env, s, LP1, PRICE);
  }
}
