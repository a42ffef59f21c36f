/** Conservation: where the asset and the stable value of the engine go in every operation and on every run. */
module Ledger {
  import opened Arith
  import opened FusedMulDiv
  import opened EngineState
  import opened EngineSpec
  import opened EngineOps
  import opened MapSum

  // ----- The books -----

  function AssetNet(p: Position): int { p.balanceAsset as int - p.debtAsset as int }
  function StableNet(p: Position): int { p.balanceStable as int - p.debtStable as int }
  function LpAssetDebt(l: LpPosition): int { l.debtAsset }
  function LpStableDebt(l: LpPosition): int { l.debtStable }

  ghost function NetAsset(s: State): int { SumOf(s.positions, AssetNet) }
  ghost function NetStable(s: State): int { SumOf(s.positions, StableNet) }
  ghost function AssetOwed(s: State): int { SumOf(s.lps, LpAssetDebt) }
  ghost function StableOwed(s: State): int { SumOf(s.lps, LpStableDebt) }

  /** Pool asset plus every trader's net asset, less what LPs owe. */
  ghost function AssetTotal(s: State): int { s.pool.asset + NetAsset(s) - AssetOwed(s) }

  /** How far the recorded exposure is from the sum it stands for. */
  ghost function ExposureGap(s: State): int { s.exposure.Val() - NetAsset(s) }

  /** Pool stable plus every trader's net stable, less what LPs owe, plus the insurance fund. */
  ghost function StableTotal(s: State): int { s.pool.stable + NetStable(s) - StableOwed(s) + s.insurance.Val() }

  /** All three books are `da`, `dg`, `ds` higher in t than in s. */
  ghost predicate Books(s: State, t: State, da: int, dg: int, ds: int)
  {
    AssetTotal(t) == AssetTotal(s) + da && ExposureGap(t) == ExposureGap(s) + dg
        && StableTotal(t) == StableTotal(s) + ds
  }

  lemma PosSums(s: State, u: Address, p: Position)
    ensures var t := s.SetPos(u, p);
            && NetAsset(t) == NetAsset(s) - AssetNet(s.Pos(u)) + AssetNet(p)
            && NetStable(t) == NetStable(s) - StableNet(s.Pos(u)) + StableNet(p)
  {
    SumUpdate(s.positions, AssetNet, u, p);
    SumUpdate(s.positions, StableNet, u, p);
  }

  lemma LpSums(s: State, u: Address, l: LpPosition)
    ensures var t := s.SetLp(u, l);
            && AssetOwed(t) == AssetOwed(s) - s.Lp(u).debtAsset + l.debtAsset
            && StableOwed(t) == StableOwed(s) - s.Lp(u).debtStable + l.debtStable
  {
    SumUpdate(s.lps, LpAssetDebt, u, l);
    SumUpdate(s.lps, LpStableDebt, u, l);
  }

  /** Writing one position. */
  lemma PosBooks(s: State, u: Address, p: Position)
    ensures Books(s, s.SetPos(u, p), AssetNet(p) - AssetNet(s.Pos(u)), AssetNet(s.Pos(u)) - AssetNet(p),
                  StableNet(p) - StableNet(s.Pos(u)))
  {
    PosSums(s, u, p);
  }

  /** Writing one LP record. */
  lemma LpBooks(s: State, u: Address, l: LpPosition)
    ensures Books(s, s.SetLp(u, l), s.Lp(u).debtAsset - l.debtAsset, 0, s.Lp(u).debtStable - l.debtStable)
  {
    LpSums(s, u, l);
  }

  lemma EmptyBooks(s: State)
    requires s.positions == map[] && s.lps == map[] && s.pool == Pool(0, 0) && s.exposure.mag == 0
             && s.insurance.mag == 0
    ensures AssetTotal(s) == 0 && ExposureGap(s) == 0 && StableTotal(s) == 0
  {
    SumEmpty<Address, Position>(AssetNet);
    SumEmpty<Address, Position>(StableNet);
    SumEmpty<Address, LpPosition>(LpAssetDebt);
    SumEmpty<Address, LpPosition>(LpStableDebt);
  }

  lemma SameNets(s: State, user: Address, p: Position)
    requires AssetNet(p) == AssetNet(s.Pos(user)) && StableNet(p) == StableNet(s.Pos(user))
    ensures Books(s, s.SetPos(user, p), 0, 0, 0)
  {
    hide SumOf;
    PosBooks(s, user, p);
  }

  // ----- Steps that move no value -----

  lemma TickBooks(env: Env, s: State, price: nat)
    requires UpdateFG(env, s, price).Ok?
    ensures var t := UpdateFG(env, s, price).value;
            Books(s, t, 0, 0, 0) && t.pool == s.pool && t.positions == s.positions && t.lps == s.lps
                && t.window == s.window
  {
    hide FundingRate, FundingB, AccrueAll, SignedSum;
  }

  lemma CreditBooks(s: State, user: Address, fee: Signed)
    ensures Books(s, CreditFunding(s, user, fee), 0, 0, 0)
  {
    hide SumOf, SignedSum, Books;
    var p := s.Pos(user);
    SameNets(s, user, p.(fundingFee := SignedSum(p.fundingFee, fee)));
  }

  lemma StampBooks(s: State, user: Address)
    ensures Books(s, StampRate(s, user), 0, 0, 0)
  {
    hide SumOf, Books;
    SameNets(s, user, s.Pos(user).(initialFundingRate := s.rate));
  }

  lemma SnapshotBooks(s: State, user: Address, stable: nat, asset: nat)
    requires UpdateSnapshots(s, user, stable, asset).Ok?
    ensures var t := UpdateSnapshots(s, user, stable, asset).value;
            && Books(s, t, 0, 0, 0) && t.pool == s.pool && t.exposure == s.exposure && t.insurance == s.insurance
            && t.positions == StampRate(s, user).positions
            && t.Lp(user).debtStable == s.Lp(user).debtStable && t.Lp(user).debtAsset == s.Lp(user).debtAsset
  {
    hide Retire, Roll, MoveReference, DecrementLpCount, SumOf;
    var u := StampRate(s, user);
    StampBooks(s, user);
    var t := UpdateSnapshots(s, user, stable, asset).value;
    LpBooks(u, user, t.Lp(user));
    assert t.lps == u.lps[user := t.Lp(user)];
  }

  lemma SettleBooks(s: State, user: Address)
    requires SettleAndSnapshot(s, user).Ok?
    ensures Books(s, SettleAndSnapshot(s, user).value, 0, 0, 0)
  {
    hide UpdateSnapshots, LpBalance, FundingFee, CreditFunding, SumOf;
    var balance, fee := LpBalance(s, user).value, FundingFee(s, user).value;
    CreditBooks(s, user, fee);
    SnapshotBooks(CreditFunding(s, user, fee), user, balance.0, balance.1);
  }

  /** Books compose. */
  lemma Chain(s: State, t: State, u: State, a1: int, g1: int, s1: int, a2: int, g2: int, s2: int)
    requires Books(s, t, a1, g1, s1) && Books(t, u, a2, g2, s2)
    ensures Books(s, u, a1 + a2, g1 + g2, s1 + s2)
  {
    hide AssetTotal, ExposureGap, StableTotal;
  }

  // ----- Trades -----

  lemma RefreshBooks(s: State, user: Address)
    ensures Books(s, RefreshFundingSnapshot(s, user), 0, 0, 0)
  {
    hide SumOf;
    if s.Active(user) {
      var e := s.ep.At(s.EpochOf(user));
      LpBooks(s, user, s.Lp(user).(g0 := e.g0, g1 := e.g1));
    }
  }

  lemma TradedNets(p: Position, direction: bool, size: nat, tradeReturn: nat)
    ensures var q := TradedPosition(p, direction, size, tradeReturn);
            && AssetNet(q) == AssetNet(p) + (if direction then tradeReturn else -(size as int))
            && StableNet(q) == StableNet(p) + (if direction then -(size as int) else tradeReturn)
  {}

  lemma TraderBooks(s: State, t: TradeArgs, tradeReturn: nat)
    requires SettleTrader(s, t, tradeReturn).Ok?
    ensures var change: int := if t.direction then tradeReturn else -(t.size as int);
            var r := SettleTrader(s, t, tradeReturn).value;
            && Books(s, r, change, 0, if t.direction then -(t.size as int) else tradeReturn)
            && r.pool == s.pool && r.insurance == s.insurance
  {
    hide SumOf, FundingFee, TradedPosition, SignedSum, RefreshFundingSnapshot, CreditFunding, StampRate, AssetNet,
         StableNet;
    var fee := FundingFee(s, t.user).value;
    var s1 := RefreshFundingSnapshot(s, t.user);
    RefreshBooks(s, t.user);
    var s2 := CreditFunding(s1, t.user, fee);
    CreditBooks(s1, t.user, fee);
    var s3 := StampRate(s2, t.user);
    StampBooks(s2, t.user);
    OnlyUserRecords(s, t.user, fee);
    var change := if t.direction then Signed(tradeReturn, true) else Signed(t.size, false);
    var q := TradedPosition(s3.Pos(t.user), t.direction, t.size, tradeReturn);
    TradedNets(s3.Pos(t.user), t.direction, t.size, tradeReturn);
    PosBooks(s3, t.user, q);
    assert SettleTrader(s, t, tradeReturn).value == s3.SetPos(t.user, q).(exposure := SignedSum(s.exposure, change));
  }

  lemma OnlyUserRecords(s: State, user: Address, fee: Signed)
    ensures var r := StampRate(CreditFunding(RefreshFundingSnapshot(s, user), user, fee), user);
            r == s.(lps := r.lps, positions := r.positions)
  {}

  lemma PoolBooks(env: Env, s: State, t: TradeArgs, q: Quote)
    requires MovePool(env, s, t, q).Ok?
    ensures var r := MovePool(env, s, t, q).value;
            && r == s.(ep := r.ep, pool := r.pool)
            && (t.direction ==> Books(s, r, -(q.tradeReturn as int), 0, LongPoolInput(env, t, q.fee).value))
            && (!t.direction ==> Books(s, r, t.size, 0, -(ShortPoolOutput(env, q).value as int)))
  {
    hide SumOf, Md, ApplyMatrixUpdate, LongPoolInput, ShortPoolOutput;
  }

  lemma StableCredit(s: State, user: Address, amount: nat)
    ensures Books(s, CreditStable(s, user, amount), 0, 0, amount)
  {
    hide SumOf;
    var p := s.Pos(user);
    PosBooks(s, user, p.(balanceStable := p.balanceStable + amount));
  }

  lemma InsuranceBooks(s: State, i: Signed)
    ensures Books(s, s.(insurance := i), 0, 0, i.Val() - s.insurance.Val())
  {
    hide SumOf;
  }

  /** A protocol fee goes to the insurance fund and the protocol address, to the last unit. */
  lemma ProtocolFeeBooks(s: State, cap: nat, fee: nat, protocol: Address)
    ensures Books(s, AssignProtocolFee(s, cap, fee, protocol), 0, 0, fee)
  {
    hide SumOf, CreditStable, Books;
    var full := Signed(cap, true);
    InsuranceBooks(s, full);
    if s.insurance.pos {
      if s.insurance.mag < cap {
        var capLeft := cap - s.insurance.mag;
        if fee <= capLeft {
          InsuranceBooks(s, Signed(s.insurance.mag + fee, true));
        } else {
          StableCredit(s.(insurance := full), protocol, fee - capLeft);
          Chain(s, s.(insurance := full), AssignProtocolFee(s, cap, fee, protocol), 0, 0, capLeft, 0, 0, fee - capLeft);
        }
      } else {
        StableCredit(s, protocol, fee);
      }
    } else {
      var capacity := cap + s.insurance.mag;
      if fee <= capacity {
        InsuranceBooks(s, SignedSum(s.insurance, Signed(fee, true)));
      } else {
        StableCredit(s.(insurance := full), protocol, fee - capacity);
        Chain(s, s.(insurance := full), AssignProtocolFee(s, cap, fee, protocol), 0, 0, capacity, 0, 0, fee - capacity);
      }
    }
  }

  /** The insurance fund is filled first: the protocol address receives nothing until the fund is at its cap, and a fee
      never lifts the fund above its cap. */
  lemma FundFillsFirst(s: State, cap: nat, fee: nat, protocol: Address)
    ensures var r := AssignProtocolFee(s, cap, fee, protocol);
            && (r.Pos(protocol).balanceStable == s.Pos(protocol).balanceStable || r.insurance.Val() >= cap)
            && s.insurance.Val() <= r.insurance.Val() <= Max(cap, s.insurance.Val())
  {
    hide SumOf;
  }

  /** The protocol's part of a trading fee. */
  function ProtocolPart(env: Env, fee: nat): nat { Md(fee, FEE_FRACTIONS - env.cfg.feeLp - env.cfg.feeFrontend,
                                                      FEE_FRACTIONS) }

  lemma FeesBooks(env: Env, s: State, t: TradeArgs, fee: nat)
    ensures Books(s, PayFees(env, s, t, fee), 0, 0,
                  ProtocolPart(env, fee) + (if t.frontend != ZERO_ADDRESS then FrontendPart(env, fee) else 0))
  {
    hide SumOf, Md, AssignProtocolFee, CreditStable, FrontendPart, Books;
    var protocolFee := ProtocolPart(env, fee);
    var r := AssignProtocolFee(s, env.cfg.insuranceFundCap, protocolFee, env.cfg.feeProtocolAddr);
    ProtocolFeeBooks(s, env.cfg.insuranceFundCap, protocolFee, env.cfg.feeProtocolAddr);
    if t.frontend != ZERO_ADDRESS {
      StableCredit(r, t.frontend, FrontendPart(env, fee));
      Chain(s, r, PayFees(env, s, t, fee), 0, 0, protocolFee, 0, 0, FrontendPart(env, fee));
    }
  }

  // ----- What the truncated fee splits lose -----

  lemma TwoWaySplit(fee: nat, x: nat, y: nat)
    ensures Md(fee, x, FEE_FRACTIONS) + Md(fee, y, FEE_FRACTIONS) <= Md(fee, x + y, FEE_FRACTIONS)
            <= Md(fee, x, FEE_FRACTIONS) + Md(fee, y, FEE_FRACTIONS) + 1
  {
    MulMonotone(fee, 0, x);
    MulMonotone(fee, 0, y);
    assert fee * (x + y) == fee * x + fee * y;
    FloorSplit(fee * x, fee * y, FEE_FRACTIONS);
  }

  lemma WholeFee(fee: nat)
    ensures Md(fee, FEE_FRACTIONS, FEE_FRACTIONS) == fee
  {
    DivCancel(fee, FEE_FRACTIONS);
  }

  /** What a trade adds to the stable total: nothing, or minus one unit for a long and at most two for a short. */
  function TradeStableChange(env: Env, t: TradeArgs, q: Quote): int
    requires if t.direction then LongPoolInput(env, t, q.fee).Ok? else ShortPoolOutput(env, q).Ok?
  {
    (if t.direction then LongPoolInput(env, t, q.fee).value - t.size else q.tradeReturn - ShortPoolOutput(env, q).value)
    + ProtocolPart(env, q.fee) + (if t.frontend != ZERO_ADDRESS then FrontendPart(env, q.fee) else 0)
  }

  lemma LongSplitLoss(env: Env, t: TradeArgs, q: Quote)
    requires t.direction && LongPoolInput(env, t, q.fee).Ok?
    ensures -1 <= TradeStableChange(env, t, q) <= 0
  {
    hide Md;
    TwoWaySplit(q.fee, env.cfg.feeFrontend, FEE_FRACTIONS - env.cfg.feeLp - env.cfg.feeFrontend);
  }

  lemma ShortSplitLoss(env: Env, t: TradeArgs, q: Quote)
    requires !t.direction && ShortPoolOutput(env, q).Ok?
    requires q.tradeReturn == q.total - q.fee + (if t.frontend == ZERO_ADDRESS then FrontendPart(env, q.fee) else 0)
    ensures -2 <= TradeStableChange(env, t, q) <= 0
  {
    hide Md;
    TwoWaySplit(q.fee, env.cfg.feeFrontend, FEE_FRACTIONS - env.cfg.feeLp - env.cfg.feeFrontend);
    TwoWaySplit(q.fee, env.cfg.feeLp, FEE_FRACTIONS - env.cfg.feeLp);
    WholeFee(q.fee);
  }

  /** A trade keeps the asset total and the exposure gap exactly; the stable total never rises, and falls by at
      most one unit in a long and two in a short. */
  lemma TradeBooks(env: Env, s: State, t: TradeArgs)
    requires ExecuteTrade(env, s, t).Ok?
    ensures var r := ExecuteTrade(env, s, t).value.0;
            && AssetTotal(r) == AssetTotal(s) && ExposureGap(r) == ExposureGap(s)
            && StableTotal(s) - (if t.direction then 1 else 2) <= StableTotal(r) <= StableTotal(s)
  {
    hide SumOf, OpenWindow, LongQuote, ShortQuote, UpdateFG, SettleTrader, MovePool, PayFees, PoolDeepEnough,
         LongPoolInput, ShortPoolOutput,
         ProtocolPart, FrontendPart, Md, TradeStableChange;
    var w := OpenWindow(env, s, t.direction, t.price);
    var q := (if t.direction then LongQuote(env, s, t, w) else ShortQuote(env, s, t, w)).value;
    var s1 := s.(window := q.window);
    TickBooks(env, s1, t.price);
    var s2 := UpdateFG(env, s1, t.price).value;
    TraderBooks(s2, t, q.tradeReturn);
    var s3 := SettleTrader(s2, t, q.tradeReturn).value;
    PoolBooks(env, s3, t, q);
    var s4 := MovePool(env, s3, t, q).value;
    FeesBooks(env, s4, t, q.fee);
    MoveNeedsParts(env, s3, t, q);
    StableChangeIs(env, t, q);
    if t.direction {
      LongSplitLoss(env, t, q);
    } else {
      ShortQuoteReturn(env, s, t, w);
      ShortSplitLoss(env, t, q);
    }
  }

  lemma MoveNeedsParts(env: Env, s: State, t: TradeArgs, q: Quote)
    requires MovePool(env, s, t, q).Ok?
    ensures if t.direction then LongPoolInput(env, t, q.fee).Ok? else ShortPoolOutput(env, q).Ok?
  {
    hide LongPoolInput, ShortPoolOutput;
  }

  lemma StableChangeIs(env: Env, t: TradeArgs, q: Quote)
    requires if t.direction then LongPoolInput(env, t, q.fee).Ok? else ShortPoolOutput(env, q).Ok?
    ensures TradeStableChange(env, t, q)
            == (if t.direction then LongPoolInput(env, t, q.fee).value - t.size
                else q.tradeReturn - ShortPoolOutput(env, q).value)
               + ProtocolPart(env, q.fee) + (if t.frontend != ZERO_ADDRESS then FrontendPart(env, q.fee) else 0)
  {
    hide LongPoolInput, ShortPoolOutput, ProtocolPart, FrontendPart;
  }

  lemma ShortQuoteReturn(env: Env, s: State, t: TradeArgs, w: Window)
    requires ShortQuote(env, s, t, w).Ok?
    ensures var q := ShortQuote(env, s, t, w).value;
            q.tradeReturn == q.total - q.fee + (if t.frontend == ZERO_ADDRESS then FrontendPart(env, q.fee) else 0)
  {
    hide Md, ShortGuess, TradeFee, FrontendPart, CalcEma, MdR;
  }

  // ----- Liquidity -----

  predicate TwoSided(pool: Pool) { pool.stable != 0 && pool.asset != 0 }

  lemma DistributeBooks(s: State, fee: nat, price: nat)
    ensures var r := DistributeFee(s, fee, price);
            && r == s.(ep := r.ep, pool := r.pool) && r.pool.asset == s.pool.asset
            && r.pool.stable == s.pool.stable + (if TwoSided(s.pool) then fee else 0)
            && Books(s, r, 0, 0, if TwoSided(s.pool) then fee else 0)
  {
    hide SumOf, Md, ApplyMatrixUpdate;
  }

  lemma ExposureValues(e: Signed, amount: nat)
    ensures RaiseExposure(e, amount).Val() == e.Val() + amount
    ensures LowerExposure(e, amount).Val() == e.Val() - amount
  {}

  lemma ExposureBooks(s: State, e: Signed)
    ensures Books(s, s.(exposure := e), 0, e.Val() - s.exposure.Val(), 0)
  {
    hide SumOf;
  }

  lemma PosCredit(s: State, user: Address, owed: nat, rs: nat, ra: nat)
    ensures var p := s.Pos(user);
            var q := p.(debtStable := p.debtStable + owed, balanceStable := p.balanceStable + rs,
                        balanceAsset := p.balanceAsset + ra);
            Books(s, s.SetPos(user, q), ra, -(ra as int), rs - owed)
  {
    hide SumOf, Books;
    var p := s.Pos(user);
    var q := p.(debtStable := p.debtStable + owed, balanceStable := p.balanceStable + rs,
                balanceAsset := p.balanceAsset + ra);
    PosBooks(s, user, q);
    assert AssetNet(q) - AssetNet(p) == ra && StableNet(q) - StableNet(p) == rs - owed;
  }

  lemma ReduceValueNets(a: nat, b: nat)
    ensures var (x, y) := ReduceValue(a, b); x - y == a - b
  {}

  /** Repaying LP debt and crediting the rest: the pulled asset and stable come back to the user, less what it owes. */
  lemma WithdrawalBooks(s: State, user: Address, stable: nat, asset: nat, owed: nat)
    ensures Books(s, CreditWithdrawal(s, user, stable, asset, owed), asset, 0, stable - owed)
  {
    hide SumOf, RaiseExposure, Books, ReduceValue;
    var lp := s.Lp(user);
    var (rs, ds) := ReduceValue(stable, lp.debtStable);
    var (ra, da) := ReduceValue(asset, lp.debtAsset);
    ReduceValueNets(stable, lp.debtStable);
    ReduceValueNets(asset, lp.debtAsset);
    var lp' := lp.(debtStable := ds, debtAsset := da);
    var s1 := s.SetLp(user, lp');
    LpBooks(s, user, lp');
    PosCredit(s1, user, owed, rs, ra);
    var p := s1.Pos(user);
    var s2 := s1.SetPos(user, p.(debtStable := p.debtStable + owed, balanceStable := p.balanceStable + rs,
                                 balanceAsset := p.balanceAsset + ra));
    Chain(s, s1, s2, lp.debtAsset - da, 0, lp.debtStable - ds, ra, -(ra as int), rs - owed);
    ExposureValues(s.exposure, ra);
    var e := RaiseExposure(s.exposure, ra);
    ExposureBooks(s2, e);
    Chain(s, s2, s2.(exposure := e), asset, -(ra as int), stable - owed, 0, ra, 0);
  }

  /** What a withdrawal loses: its own fee, when it leaves a one-sided pool and so nobody to receive it. */
  function RemovalLoss(env: Env, s: State, stable: nat, asset: nat, user: Address, price: nat, maxFee: nat): nat
  {
    var r := RemoveLiquidityCore(env, s, stable, asset, user, price, maxFee);
    if r.Ok? && (s.pool.stable == stable || s.pool.asset == asset) then r.value.1 else 0
  }

  /** A withdrawal keeps the asset total and the exposure gap exactly. It keeps the stable total when its fee is zero or
      the pool it leaves is two-sided, and otherwise loses exactly its own fee. */
  lemma RemoveBooks(env: Env, s: State, stable: nat, asset: nat, user: Address, price: nat, maxFee: nat)
    requires RemoveLiquidityCore(env, s, stable, asset, user, price, maxFee).Ok?
    ensures Books(s, RemoveLiquidityCore(env, s, stable, asset, user, price, maxFee).value.0, 0, 0,
                  -(RemovalLoss(env, s, stable, asset, user, price, maxFee) as int))
  {
    hide SumOf, LpBalance, UpdateFG, FundingFee, CreditFunding, UpdateSnapshots, RemovalFee, Md, DistributeFee,
         CreditWithdrawal,
         StampRate;
    var balance, s1 := LpBalance(s, user).value, UpdateFG(env, s, price).value;
    TickBooks(env, s, price);
    var owes := FundingFee(s1, user).value;
    var s2 := CreditFunding(s1, user, owes);
    CreditBooks(s1, user, owes);
    CreditKeepsPool(s1, user, owes);
    SnapshotBooks(s2, user, balance.0 - stable, balance.1 - asset);
    var s3 := UpdateSnapshots(s2, user, balance.0 - stable, balance.1 - asset).value;
    var fee := Md(stable + Md(asset, price, ORACLE_DECIMALS), RemovalFee(env.cfg, stable, asset, s3.pool, price).value,
                  LIQUIDITY_FEE_DECIMALS);
    var s4 := s3.(pool := Pool(s3.pool.stable - stable, s3.pool.asset - asset));
    DistributeBooks(s4, fee, price);
    var (left, owed) := TakeFee(stable, fee);
    WithdrawalBooks(DistributeFee(s4, fee, price), user, left, asset, owed);
  }

  /** Taking the whole asset side out of a stable-heavy pool that keeps 10 WAD of stable loses the ceiling rate on the
      withdrawn value. */
  lemma OneSidedExitLosesCeiling(env: Env, s: State, stable: nat, asset: nat, user: Address, price: nat, maxFee: nat)
    requires RemoveLiquidityCore(env, s, stable, asset, user, price, maxFee).Ok?
    requires 0 < asset == s.pool.asset && stable + 10 * WAD <= s.pool.stable
    requires Md(s.pool.stable, WAD, s.pool.asset) > Md(price, WAD, ORACLE_DECIMALS)
    ensures var r := RemoveLiquidityCore(env, s, stable, asset, user, price, maxFee).value.0;
            && r.pool == Pool(s.pool.stable - stable, 0)
            && StableTotal(r) == StableTotal(s)
                                 - Md(stable + Md(asset, price, ORACLE_DECIMALS), env.cfg.liquidityMaxFee,
                                      LIQUIDITY_FEE_DECIMALS)
  {
    hide SumOf, LpBalance, UpdateFG, FundingFee, CreditFunding, UpdateSnapshots, StampRate, StableTotal, AssetTotal,
         ExposureGap,
         TakeFromPool;
    RemoveBooks(env, s, stable, asset, user, price, maxFee);
    var balance, s1 := LpBalance(s, user).value, UpdateFG(env, s, price).value;
    TickBooks(env, s, price);
    var s2 := CreditFunding(s1, user, FundingFee(s1, user).value);
    CreditKeepsPool(s1, user, FundingFee(s1, user).value);
    SnapshotBooks(s2, user, balance.0 - stable, balance.1 - asset);
    var s3 := UpdateSnapshots(s2, user, balance.0 - stable, balance.1 - asset).value;
    CeilingRate(env, s3, stable, asset, user, price, maxFee);
  }

  lemma CeilingRate(env: Env, s: State, stable: nat, asset: nat, user: Address, price: nat, maxFee: nat)
    requires TakeFromPool(env, s, stable, asset, user, price, maxFee).Ok?
    requires 0 < asset == s.pool.asset && stable + 10 * WAD <= s.pool.stable
    requires Md(s.pool.stable, WAD, s.pool.asset) > Md(price, WAD, ORACLE_DECIMALS)
    ensures var r := TakeFromPool(env, s, stable, asset, user, price, maxFee).value;
            && r.0.pool == Pool(s.pool.stable - stable, 0)
            && r.1 == Md(stable + Md(asset, price, ORACLE_DECIMALS), env.cfg.liquidityMaxFee, LIQUIDITY_FEE_DECIMALS)
  {
    hide Md, CreditWithdrawal;
    assert RemovalFee(env.cfg, stable, asset, s.pool, price) == Ok(env.cfg.liquidityMaxFee);
    var fee := Md(stable + Md(asset, price, ORACLE_DECIMALS), env.cfg.liquidityMaxFee, LIQUIDITY_FEE_DECIMALS);
    var (left, owed) := TakeFee(stable, fee);
    WithdrawalKeepsPool(s.(pool := Pool(s.pool.stable - stable, 0)), user, left, asset, owed);
  }

  lemma WithdrawalKeepsPool(s: State, user: Address, stable: nat, asset: nat, owed: nat)
    ensures CreditWithdrawal(s, user, stable, asset, owed).pool == s.pool
  {}

  lemma CreditKeepsPool(s: State, user: Address, fee: Signed)
    ensures CreditFunding(s, user, fee).pool == s.pool
  {}

  lemma BalanceWithinPool(s: State, user: Address)
    requires LpBalance(s, user).Ok?
    ensures LpBalance(s, user).value.0 <= s.pool.stable && LpBalance(s, user).value.1 <= s.pool.asset
  {
    hide RecoverLpBalance;
  }

  /** A deposit keeps all three books exactly, when its fee is zero or the pool it meets is two-sided. */
  lemma AddBooks(env: Env, s: State, stable: nat, asset: nat, fee: nat, price: nat, user: Address)
    requires AddLiquidityCore(env, s, stable, asset, fee, price, user).Ok?
    ensures Books(s, AddLiquidityCore(env, s, stable, asset, fee, price, user).value, 0, 0, if TwoSided(s.pool) then 0
                  else -(fee as int))
  {
    hide SumOf, LpBalance, UpdateFG, FundingRate, FundingFeeWith, CreditFunding, UpdateSnapshots, DistributeFee,
         SignedSum, Books, StampRate;
    var owes := FundingFeeWith(s, user, SignedSum(s.rate, FundingRate(env, s, price, s.lastOp).value)).value;
    var s1 := CreditFunding(s, user, owes);
    CreditBooks(s, user, owes);
    CreditKeepsPool(s, user, owes);
    TickBooks(env, s1, price);
    var s2 := UpdateFG(env, s1, price).value;
    Chain(s, s1, s2, 0, 0, 0, 0, 0, 0);
    var (left, owed) := TakeFee(stable, fee);
    var lp := s2.Lp(user);
    var lp' := lp.(debtStable := lp.debtStable + stable + owed, debtAsset := lp.debtAsset + asset);
    var s3 := s2.SetLp(user, lp');
    LpBooks(s2, user, lp');
    Chain(s, s2, s3, 0, 0, 0, -(asset as int), 0, -(stable + owed));
    DistributeBooks(s3, fee, price);
    var s4 := DistributeFee(s3, fee, price);
    var shared := if TwoSided(s.pool) then fee else 0;
    Chain(s, s3, s4, -(asset as int), 0, -(stable + owed), 0, 0, shared);
    BalanceWithinPool(s4, user);
    var held := LpBalance(s4, user).value;
    var stableLeft := if s4.pool != Pool(0, 0) then s4.pool.stable - held.0 else 0;
    var assetLeft := if s4.pool != Pool(0, 0) then s4.pool.asset - held.1 else 0;
    var s5 := s4.(pool := Pool(stableLeft + (left + held.0), assetLeft + (asset + held.1)));
    PoolSet(s4, s5.pool);
    Chain(s, s4, s5, -(asset as int), 0, -(stable + owed) + shared, asset, 0, left);
    SnapshotBooks(s5, user, left + held.0, asset + held.1);
    Chain(s, s5, UpdateSnapshots(s5, user, left + held.0, asset + held.1).value, 0, 0, shared - fee, 0, 0, 0);
  }

  lemma PoolSet(s: State, pool: Pool)
    ensures Books(s, s.(pool := pool), pool.asset - s.pool.asset, 0, pool.stable - s.pool.stable)
  {
    hide SumOf;
  }

  lemma DepositFeeNeedsTwoSides(cfg: Config, stable: nat, asset: nat, pool: Pool, price: nat)
    ensures !TwoSided(pool) ==> DepositFee(cfg, stable, asset, pool, price) == Ok(0)
  {
    hide FeeCurve, Md, MdR;
  }

  /** Writing a position whose nets are known. */
  lemma NetBooks(s: State, user: Address, q: Position, da: int, ds: int)
    requires AssetNet(q) == AssetNet(s.Pos(user)) + da && StableNet(q) == StableNet(s.Pos(user)) + ds
    ensures Books(s, s.SetPos(user, q), da, -da, ds)
  {
    hide SumOf;
    PosBooks(s, user, q);
  }

  lemma WindowBooks(s: State, w: Window)
    ensures Books(s, s.(window := w), 0, 0, 0)
  {
    hide SumOf;
  }
}
