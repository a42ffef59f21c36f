/** Crediting keeps accrued funding: whatever a user owes before a trade, a deposit, a withdrawal or a liquidation, the
    same is owed after it, by that user and by everybody else. */
module FundingKept {
  import opened Arith
  import opened FusedMulDiv
  import opened EngineState
  import opened EngineSpec
  import opened EngineOps
  import opened Pinning
  import opened Settlement
  import opened Refresh
  import opened LiquidityBalances
  import opened LedgerRuns
  import opened Accounts
  import opened Liquidations

  // ----- What is owed once the block is settled -----

  /** Settled and accrued funding together, at the stored rate. */
  function Owed(s: State, user: Address): Result<int>
  {
    var fee :- FundingFee(s, user);
    Ok(s.Pos(user).fundingFee.Val() + fee.Val())
  }

  /** Nothing has accrued since the user was last stamped. */
  predicate Flushed(s: State, user: Address)
  {
    LpFunding(s, user, 0) == Ok(0) && s.Pos(user).initialFundingRate.Val() == s.rate.Val()
  }

  lemma StoredRateAddsNothing(s: State, user: Address)
    ensures FundingFee(s, user).Ok? <==> LpFunding(s, user, 0).Ok?
    ensures FundingFee(s, user).Ok? ==>
              FundingFee(s, user).value.Val() == LpFunding(s, user, 0).value + TraderFunding(s, user, s.rate).Val()
  {
    hide LpFunding, TraderFunding, FundingB;
    FundingBByValue(SignedSum(s.rate, s.rate.Neg()), ZERO_SIGNED);
  }

  lemma FlushedOwesItsFee(s: State, user: Address)
    requires Flushed(s, user)
    ensures Owed(s, user) == Ok(s.Pos(user).fundingFee.Val())
  {
    hide LpFunding, TraderFunding, FundingFee;
    StoredRateAddsNothing(s, user);
    TraderFundingByValue(s, user, s.rate, s.rate);
  }

  /** In a settled block the previewed funding is what is owed. */
  lemma OwedIsFundingAt(env: Env, s: State, user: Address, price: nat)
    requires s.lastOp == env.now && FundingRate(env, s, price, s.lastOp).Ok?
    ensures FundingAt(env, s, user, price).Ok? <==> Owed(s, user).Ok?
    ensures Owed(s, user).Ok? ==> FundingAt(env, s, user, price).value.Val() == Owed(s, user).value
  {
    hide FundingRate, FundingFeeWith, SignedSum;
    SettledRateIsZero(env, s, price);
    var rate := SignedSum(s.rate, FundingRate(env, s, price, s.lastOp).value);
    assert rate.Val() == s.rate.Val() by { SumValue(s.rate, FundingRate(env, s, price, s.lastOp).value); }
    FundingFeeByValue(s, user, rate, s.rate);
    if FundingFeeWith(s, user, rate).Ok? { SumValue(s.Pos(user).fundingFee, FundingFeeWith(s, user, rate).value); }
  }

  // ----- Frames -----

  /** The part of a position funding is computed from. */
  function FundedPart(p: Position): (nat, nat, Signed, Signed)
  {
    (p.balanceAsset, p.debtAsset, p.fundingFee, p.initialFundingRate)
  }

  /** Nothing a user's funding is computed from has moved. */
  predicate SameFunding(s: State, t: State, user: Address)
  {
    && t.rate == s.rate && FundedPart(t.Pos(user)) == FundedPart(s.Pos(user))
    && t.Lp(user).debtAsset == s.Lp(user).debtAsset && LpFunding(t, user, 0) == LpFunding(s, user, 0)
  }

  lemma SameFundingOwed(s: State, t: State, user: Address)
    requires SameFunding(s, t, user)
    ensures Owed(t, user) == Owed(s, user) && Flushed(t, user) == Flushed(s, user)
  {
    hide LpFunding, TraderFunding, FundingFee;
    StoredRateAddsNothing(s, user);
    StoredRateAddsNothing(t, user);
    TraderFundingFrame(s, t, user, s.rate);
    LpFundingDecidesFailure(s, t, user);
  }

  lemma LpFundingDecidesFailure(s: State, t: State, user: Address)
    requires LpFunding(t, user, 0) == LpFunding(s, user, 0)
    ensures FundingFee(s, user).Err? ==> FundingFee(t, user) == FundingFee(s, user)
  {
    hide LpFunding, TraderFunding, FundingB, SignedSum;
    FundingBOfNothing(s.rate);
    FundingBOfNothing(t.rate);
  }

  lemma FundingBOfNothing(r: Signed)
    ensures FundingB(SignedSum(r, r.Neg())) == 0
  {
    FundingBByValue(SignedSum(r, r.Neg()), ZERO_SIGNED);
  }

  /** A flushed user may trade asset: what it owes is its settled fee. */
  lemma FlushedOwed(s: State, t: State, user: Address)
    requires Flushed(s, user) && t.rate == s.rate && LpFunding(t, user, 0) == LpFunding(s, user, 0)
    requires t.Pos(user).fundingFee == s.Pos(user).fundingFee
    requires t.Pos(user).initialFundingRate == s.Pos(user).initialFundingRate
    ensures Flushed(t, user) && Owed(t, user) == Owed(s, user)
  {
    hide LpFunding, FundingFee;
    FlushedOwesItsFee(s, user);
    FlushedOwesItsFee(t, user);
  }

  /** The LP part reads the row and the record, no matrix once the rate is settled. */
  lemma LpFundingFrame(s: State, t: State, user: Address)
    requires Shape(t.Lp(user)) == Shape(s.Lp(user)) && t.Lp(user).g0 == s.Lp(user).g0 && t.Lp(user).g1 == s.Lp(user).g1
    requires var e, f := s.ep.At(s.EpochOf(user)), t.ep.At(t.EpochOf(user)); f.g0 == e.g0 && f.g1 == e.g1
    ensures LpFunding(t, user, 0) == LpFunding(s, user, 0)
  {
    hide RecoverFundingStar, PendingG;
    var e, f := s.ep.At(s.EpochOf(user)), t.ep.At(t.EpochOf(user));
    PendingZero(e.m.m10);
    PendingZero(e.m.m11);
    PendingZero(f.m.m10);
    PendingZero(f.m.m11);
  }

  // ----- Snapshots -----

  lemma CreditedFee(s: State, user: Address, fee: Signed)
    ensures var t := CreditFunding(s, user, fee);
            && t == s.(positions := t.positions)
            && t.Pos(user) == s.Pos(user).(fundingFee := SignedSum(s.Pos(user).fundingFee, fee))
            && forall v: Address :: v != user ==> t.Pos(v) == s.Pos(v)
  {
    hide SignedSum;
  }

  /** A snapshot taken: the user owes its settled fee and nothing else, and nobody else is touched. */
  lemma SnapshotFlushes(s: State, user: Address, stable: nat, asset: nat, other: Address)
    requires Inv(s) && UpdateSnapshots(s, user, stable, asset).Ok?
    ensures var t := UpdateSnapshots(s, user, stable, asset).value;
            && Inv(t) && Flushed(t, user) && t.Pos(user).fundingFee == s.Pos(user).fundingFee
            && (other != user ==> SameFunding(s, t, other))
  {
    hide UpdateSnapshots, Inv, LpFunding;
    SnapshotKeepsInv(s, user, stable, asset);
    SnapshotFrame(s, user, stable, asset);
    FreshSnapshot(s, user, stable, asset);
    StampedPosition(s, user);
    FreshIsFlushed(UpdateSnapshots(s, user, stable, asset).value, user, stable, asset);
    if other != user { OtherKeepsFunding(s, user, stable, asset, other); }
  }

  /** A fee credited and a snapshot taken: the user owes its settled fee and nothing else, and nobody else is
      touched. */
  lemma CreditedSnapshot(s: State, user: Address, fee: Signed, stable: nat, asset: nat, other: Address)
    requires Inv(s) && UpdateSnapshots(CreditFunding(s, user, fee), user, stable, asset).Ok?
    ensures var t := UpdateSnapshots(CreditFunding(s, user, fee), user, stable, asset).value;
            && Inv(t) && Flushed(t, user) && t.Pos(user).fundingFee.Val() == s.Pos(user).fundingFee.Val() + fee.Val()
            && (other != user ==> SameFunding(s, t, other))
  {
    hide UpdateSnapshots, CreditFunding, SignedSum, Inv, LpFunding;
    var credited := CreditFunding(s, user, fee);
    CreditKeepsInv(s, user, fee);
    CreditedFee(s, user, fee);
    SumValue(s.Pos(user).fundingFee, fee);
    SnapshotFlushes(credited, user, stable, asset, other);
    if other != user {
      assert credited.Lp(other) == s.Lp(other) && credited.EpochOf(other) == s.EpochOf(other);
      LpFundingFrame(s, credited, other);
    }
  }

  lemma StampedPosition(s: State, user: Address)
    ensures var t := StampRate(s, user);
            && t.Pos(user) == s.Pos(user).(initialFundingRate := s.rate)
            && forall v: Address :: v != user ==> t.Pos(v) == s.Pos(v)
  {}

  lemma FreshIsFlushed(t: State, user: Address, stable: nat, asset: nat)
    requires Inv(t)
    requires var lp, e := t.Lp(user), t.ep.At(t.EpochOf(user));
             && lp.initialStable == stable && lp.initialAsset == asset
             && (stable != 0 || asset != 0 ==>
                 lp.snap == e.m && lp.g0 == e.g0 && lp.g1 == e.g1 && lp.snap.m00 != 0 && lp.snap.RawDet() > 0)
    ensures LpFunding(t, user, 0) == Ok(0)
  {
    hide Inv;
    if stable != 0 || asset != 0 {
      hide LpFunding;
      OwnSnapshotValue(t, user);
    }
  }

  lemma OtherKeepsFunding(s: State, user: Address, stable: nat, asset: nat, other: Address)
    requires Inv(s) && UpdateSnapshots(s, user, stable, asset).Ok? && other != user
    ensures SameFunding(s, UpdateSnapshots(s, user, stable, asset).value, other)
  {
    hide UpdateSnapshots, Inv, SignedSum;
    SnapshotFrame(s, user, stable, asset);
    var t := UpdateSnapshots(s, user, stable, asset).value;
    StampedPosition(s, user);
    SnapshotIsOk(s, other);
    if s.Active(other) {
      OthersKeepSlot(s, user, stable, asset, other);
      hide LpFunding;
      LpFundingFrame(s, t, other);
    }
  }

  // ----- Trades -----

  /** Settling a trader: what it owed is what it owes, and nobody else is touched. */
  lemma TraderKeepsOwed(s: State, t: TradeArgs, tradeReturn: nat, user: Address)
    requires Inv(s) && SettleTrader(s, t, tradeReturn).Ok?
    ensures Owed(SettleTrader(s, t, tradeReturn).value, user) == Owed(s, user)
  {
    hide FundingFee, TradedPosition, SignedSum, LpFunding, Inv;
    var r := SettleTrader(s, t, tradeReturn).value;
    if user == t.user {
      TraderFlushed(s, t, tradeReturn);
      FlushedOwesItsFee(r, user);
      SumValue(s.Pos(user).fundingFee, FundingFee(s, user).value);
    } else {
      LpFundingFrame(s, r, user);
      SameFundingOwed(s, r, user);
    }
  }

  lemma TradedFunding(p: Position, direction: bool, size: nat, tradeReturn: nat)
    ensures var q := TradedPosition(p, direction, size, tradeReturn);
            q.fundingFee == p.fundingFee && q.initialFundingRate == p.initialFundingRate
  {}

  lemma TraderFlushed(s: State, t: TradeArgs, tradeReturn: nat)
    requires Inv(s) && SettleTrader(s, t, tradeReturn).Ok?
    ensures var r := SettleTrader(s, t, tradeReturn).value;
            && Flushed(r, t.user)
            && r.Pos(t.user).fundingFee == SignedSum(s.Pos(t.user).fundingFee, FundingFee(s, t.user).value)
  {
    hide FundingFee, TradedPosition, SignedSum, LpFunding, Inv;
    var r := SettleTrader(s, t, tradeReturn).value;
    var settled := StampRate(CreditFunding(RefreshFundingSnapshot(s, t.user), t.user, FundingFee(s, t.user).value),
                             t.user);
    TradedFunding(settled.Pos(t.user), t.direction, t.size, tradeReturn);
    RefreshedRow(s, t.user, r);
  }

  /** An LP re-baselined against its own row owes nothing; a trader never does on that side. */
  lemma RefreshedRow(s: State, user: Address, r: State)
    requires Inv(s) && r.ep == s.ep && r.EpochOf(user) == s.EpochOf(user)
    requires r.Lp(user) == RefreshFundingSnapshot(s, user).Lp(user)
    ensures LpFunding(r, user, 0) == Ok(0)
  {
    hide RecoverFundingStar, PendingG, Inv;
    SnapshotIsOk(s, user);
    var e, lp := s.ep.At(s.EpochOf(user)), r.Lp(user);
    PendingZero(e.m.m10);
    PendingZero(e.m.m11);
    if s.Active(user) { NoFundingYet(lp.snap, lp.initialStable, lp.initialAsset); }
  }

  /** A pool move and the fees after it touch no funding. */
  lemma MoveKeepsFunding(env: Env, s: State, t: TradeArgs, q: Quote, user: Address)
    requires MovePool(env, s, t, q).Ok?
    ensures SameFunding(s, PayFees(env, MovePool(env, s, t, q).value, t, q.fee), user)
  {
    hide Md, MdR, LongPoolInput, ShortPoolOutput, StepMatrix, SignedSum;
    var moved := MovePool(env, s, t, q).value;
    var r := PayFees(env, moved, t, q.fee);
    var id := s.EpochOf(user);
    assert moved.ep.At(id).g0 == s.ep.At(id).g0 && moved.ep.At(id).g1 == s.ep.At(id).g1;
    FeesKeepFunded(env, moved, t, q.fee, user);
    hide LpFunding, ApplyMatrixUpdate;
    LpFundingFrame(s, r, user);
  }

  lemma CreditKeepsFunded(s: State, receiver: Address, amount: nat, user: Address)
    ensures FundedPart(CreditStable(s, receiver, amount).Pos(user)) == FundedPart(s.Pos(user))
  {}

  lemma AssignKeepsFunded(s: State, cap: nat, fee: nat, protocol: Address, user: Address)
    ensures FundedPart(AssignProtocolFee(s, cap, fee, protocol).Pos(user)) == FundedPart(s.Pos(user))
  {
    hide CreditStable, FundedPart, SignedSum;
    forall t: State, amount: nat | t.positions == s.positions
      ensures FundedPart(CreditStable(t, protocol, amount).Pos(user)) == FundedPart(s.Pos(user))
    {
      CreditKeepsFunded(t, protocol, amount, user);
      assert t.Pos(user) == s.Pos(user);
    }
  }

  lemma FeesKeepFunded(env: Env, s: State, t: TradeArgs, fee: nat, user: Address)
    ensures FundedPart(PayFees(env, s, t, fee).Pos(user)) == FundedPart(s.Pos(user))
  {
    hide Md, AssignProtocolFee, CreditStable, FundedPart;
    var protocolFee := Md(fee, FEE_FRACTIONS - env.cfg.feeLp - env.cfg.feeFrontend, FEE_FRACTIONS);
    var r := AssignProtocolFee(s, env.cfg.insuranceFundCap, protocolFee, env.cfg.feeProtocolAddr);
    AssignKeepsFunded(s, env.cfg.insuranceFundCap, protocolFee, env.cfg.feeProtocolAddr, user);
    CreditKeepsFunded(r, t.frontend, FrontendPart(env, fee), user);
  }

  /** The tick of this block and nothing else: what was previewed is owed. */
  lemma TickOwes(env: Env, s: State, user: Address, price: nat)
    requires Inv(s) && EpochUsable(s, user) && UpdateFG(env, s, price).Ok? && FundingAt(env, s, user, price).Ok?
    ensures var t := UpdateFG(env, s, price).value;
            FundingRate(env, t, price, t.lastOp).Ok? && Owed(t, user) == Ok(FundingAt(env, s, user, price).value.Val())
  {
    hide FundingRate, FundingFeeWith, AccrueAll, FundingB, SignedSum, Inv, EpochUsable;
    var t := UpdateFG(env, s, price).value;
    FeePreviewEqualsSettlement(env, s, user, price);
    OwedIsFundingAt(env, t, user, price);
  }

  /** A rate that computes for one pool computes for every other that holds value, and for an empty one. */
  lemma RateComputesAfter(env: Env, s: State, t: State, price: nat)
    requires FundingRate(env, s, price, s.lastOp).Ok? && (s.pool.stable > 0 || s.pool.asset > 0)
    requires t.lastOp == env.now && t.pool.stable > 0
    ensures FundingRate(env, t, price, t.lastOp).Ok?
  {
    var priceO := Md(price, WAD, ORACLE_DECIMALS);
    hide Md;
    var d := Md(s.pool.asset, priceO, WAD) + s.pool.stable;
    var e := Md(t.pool.asset, priceO, WAD) + t.pool.stable;
    assert env.cfg.fundingC > 0;
    MulMonotone(env.cfg.fundingC, 1, e);
  }

  /** A trade forgives nobody's funding and charges nobody twice: in every reachable state each user on a usable epoch
      is owed after it, at its price and block, exactly what it was before. */
  lemma TradeKeepsFunding(calls: seq<Call>, env: Env, t: TradeArgs, user: Address)
    requires var s := Run(INITIAL_STATE, calls);
             ExecuteTrade(env, s, t).Ok? && EpochUsable(s, user) && FundingAt(env, s, user, t.price).Ok?
    ensures var s := Run(INITIAL_STATE, calls);
            var r := ExecuteTrade(env, s, t).value.0;
            && FundingAt(env, r, user, t.price).Ok?
            && FundingAt(env, r, user, t.price).value.Val() == FundingAt(env, s, user, t.price).value.Val()
  {
    hide Run, ExecuteTrade, Inv, EpochUsable, FundingAt;
    EveryRunIsOk(calls);
    TradeKeepsFundingFrom(env, Run(INITIAL_STATE, calls), t, user);
  }

  lemma TradeKeepsFundingFrom(env: Env, s: State, t: TradeArgs, user: Address)
    requires Inv(s) && ExecuteTrade(env, s, t).Ok? && EpochUsable(s, user) && FundingAt(env, s, user, t.price).Ok?
    ensures var r := ExecuteTrade(env, s, t).value.0;
            && FundingAt(env, r, user, t.price).Ok?
            && FundingAt(env, r, user, t.price).value.Val() == FundingAt(env, s, user, t.price).value.Val()
  {
    hide TradeQuote, UpdateFG, SettleTrader, MovePool, PayFees, FundingRate, FundingFeeWith, LpFunding, Inv,
         EpochUsable,
         SignedSum, Md;
    var q := TradeQuote(env, s, t).value;
    var start := s.(window := q.window);
    PositionsKeepInv(s, start);
    WindowFrame(env, s, q.window, user, t.price);
    FundingKeepsInv(env, start, t.price);
    TickOwes(env, start, user, t.price);
    var funded := UpdateFG(env, start, t.price).value;
    TickKeepsBalances(env, start, t.price, user);
    TraderKeepsOwed(funded, t, q.tradeReturn, user);
    var settled := SettleTrader(funded, t, q.tradeReturn).value;
    TraderFrame(funded, t, q.tradeReturn);
    MoveKeepsFunding(env, settled, t, q, user);
    var r := PayFees(env, MovePool(env, settled, t, q).value, t, q.fee);
    SameFundingOwed(settled, r, user);
    MoveFrame(env, settled, t, q);
    RateComputesAfter(env, start, r, t.price);
    OwedIsFundingAt(env, r, user, t.price);
  }

  lemma WindowFrame(env: Env, s: State, w: Window, user: Address, price: nat)
    ensures FundingAt(env, s.(window := w), user, price) == FundingAt(env, s, user, price)
    ensures EpochUsable(s.(window := w), user) == EpochUsable(s, user)
  {
    hide RecoverFundingStar, PendingG, SignedSum, FundingB, Md;
    var t := s.(window := w);
    assert FundingRate(env, t, price, t.lastOp) == FundingRate(env, s, price, s.lastOp);
    hide FundingRate;
    forall rate: Signed ensures FundingFeeWith(t, user, rate) == FundingFeeWith(s, user, rate) {
      TraderFundingFrame(s, t, user, rate);
      assert LpFunding(t, user, FundingB(SignedSum(rate, t.rate.Neg())))
          == LpFunding(s, user, FundingB(SignedSum(rate, s.rate.Neg())));
    }
  }

  lemma TraderFrame(s: State, t: TradeArgs, tradeReturn: nat)
    requires SettleTrader(s, t, tradeReturn).Ok?
    ensures var r := SettleTrader(s, t, tradeReturn).value; r.lastOp == s.lastOp && r.pool == s.pool
  {
    hide FundingFee, TradedPosition, SignedSum;
  }

  lemma MoveFrame(env: Env, s: State, t: TradeArgs, q: Quote)
    requires MovePool(env, s, t, q).Ok?
    ensures var r := PayFees(env, MovePool(env, s, t, q).value, t, q.fee); r.lastOp == s.lastOp
  {
    hide Md, MdR, LongPoolInput, ShortPoolOutput, ApplyMatrixUpdate, AssignProtocolFee, CreditStable;
  }

  // ----- Deposits and withdrawals -----

  /** Sharing a fee moves matrices and the pool, no row. */
  lemma FeeKeepsRows(s: State, fee: nat, price: nat, id: nat)
    ensures var t := DistributeFee(s, fee, price);
            && t == s.(pool := t.pool, ep := t.ep) && t.ep.At(id).g0 == s.ep.At(id).g0
               && t.ep.At(id).g1 == s.ep.At(id).g1
  {
    hide Md, StepMatrix;
  }

  /** Crediting one user leaves what everybody else is shown. */
  lemma CreditSparesOthers(env: Env, s: State, user: Address, fee: Signed, other: Address, price: nat)
    requires other != user
    ensures FundingAt(env, CreditFunding(s, user, fee), other, price) == FundingAt(env, s, other, price)
  {
    hide FundingRate, RecoverFundingStar, PendingG, SignedSum, FundingB, TraderFunding;
    var t := CreditFunding(s, user, fee);
    CreditedFee(s, user, fee);
    RateFrame(env, s, t, price);
    forall rate: Signed ensures TraderFunding(t, other, rate) == TraderFunding(s, other, rate) {
      TraderFundingFrame(s, t, other, rate);
    }
  }

  /** A deposit keeps what everybody is owed: the depositor in any epoch, the others on a usable one. */
  lemma DepositKeepsFunding(calls: seq<Call>, env: Env, stable: nat, asset: nat, fee: nat, price: nat, user: Address,
                            other: Address)
    requires var s := Run(INITIAL_STATE, calls);
             && AddLiquidityCore(env, s, stable, asset, fee, price, user).Ok?
             && (other == user || EpochUsable(s, other)) && FundingAt(env, s, other, price).Ok?
    ensures var s := Run(INITIAL_STATE, calls);
            var r := AddLiquidityCore(env, s, stable, asset, fee, price, user).value;
            FundingRate(env, r, price, r.lastOp).Ok? ==>
              && FundingAt(env, r, other, price).Ok?
              && FundingAt(env, r, other, price).value.Val() == FundingAt(env, s, other, price).value.Val()
  {
    hide Run, AddLiquidityCore, Inv, EpochUsable, FundingAt, FundingRate;
    EveryRunIsOk(calls);
    DepositKeepsFundingFrom(env, Run(INITIAL_STATE, calls), stable, asset, fee, price, user, other);
  }

  lemma DepositKeepsFundingFrom(env: Env, s: State, stable: nat, asset: nat, fee: nat, price: nat, user: Address,
                                other: Address)
    requires Inv(s) && AddLiquidityCore(env, s, stable, asset, fee, price, user).Ok?
    requires (other == user || EpochUsable(s, other)) && FundingAt(env, s, other, price).Ok?
    ensures var r := AddLiquidityCore(env, s, stable, asset, fee, price, user).value;
            FundingRate(env, r, price, r.lastOp).Ok? ==>
              && FundingAt(env, r, other, price).Ok?
              && FundingAt(env, r, other, price).value.Val() == FundingAt(env, s, other, price).value.Val()
  {
    hide UpdateFG, FundingRate, FundingFeeWith, CreditFunding, DistributeFee, RejoinPool, SignedSum, Inv, EpochUsable,
         LpFunding;
    var owes := FundingFeeWith(s, user, SignedSum(s.rate, FundingRate(env, s, price, s.lastOp).value)).value;
    var credited := CreditFunding(s, user, owes);
    CreditedFee(s, user, owes);
    SumValue(s.Pos(user).fundingFee, owes);
    CreditKeepsInv(s, user, owes);
    FundingKeepsInv(env, credited, price);
    var funded := UpdateFG(env, credited, price).value;
    TickKeepsBalances(env, credited, price, user);
    var (left, owed) := TakeFee(stable, fee);
    var lp := funded.Lp(user);
    DebtKeepsInv(funded, user, lp.debtStable + stable + owed, lp.debtAsset + asset);
    var indebted := funded.SetLp(user, lp.(debtStable := lp.debtStable + stable + owed,
                                           debtAsset := lp.debtAsset + asset));
    RejoinFlushes(indebted, fee, price, user, left, asset, other);
    var r := AddLiquidityCore(env, s, stable, asset, fee, price, user).value;
    if other == user {
      FlushedOwesItsFee(r, user);
      SumValue(s.Pos(user).fundingFee, owes);
    } else {
      CreditSparesOthers(env, s, user, owes, other, price);
      UsableFrame(s, credited, other);
      TickOwes(env, credited, other, price);
      LpFundingFrame(funded, indebted, other);
      SameFundingOwed(funded, indebted, other);
      SameFundingOwed(indebted, r, other);
    }
    if FundingRate(env, r, price, r.lastOp).Ok? { OwedIsFundingAt(env, r, other, price); }
  }

  lemma UsableFrame(s: State, t: State, user: Address)
    requires t.ep == s.ep && t.lps == s.lps && t.lpEpoch == s.lpEpoch
    ensures EpochUsable(t, user) == EpochUsable(s, user)
  {}

  lemma RejoinFlushes(s: State, fee: nat, price: nat, user: Address, stable: nat, asset: nat, other: Address)
    requires Inv(s) && RejoinPool(DistributeFee(s, fee, price), user, stable, asset).Ok?
    ensures var r := RejoinPool(DistributeFee(s, fee, price), user, stable, asset).value;
            && Flushed(r, user) && r.Pos(user).fundingFee == s.Pos(user).fundingFee && r.lastOp == s.lastOp
            && (other != user ==> SameFunding(s, r, other))
  {
    hide LpBalance, UpdateSnapshots, DistributeFee, LpFunding, Inv;
    FeeKeepsInv(s, fee, price);
    FeeKeepsRows(s, fee, price, s.EpochOf(other));
    var shared := DistributeFee(s, fee, price);
    var held := LpBalance(shared, user).value;
    var stableLeft := if shared.pool != Pool(0, 0) then shared.pool.stable - held.0 else 0;
    var assetLeft := if shared.pool != Pool(0, 0) then shared.pool.asset - held.1 else 0;
    var pool := Pool(stableLeft + (stable + held.0), assetLeft + (asset + held.1));
    PoolMoveKeepsPins(shared, pool);
    var grown := shared.(pool := pool);
    SnapshotFlushes(grown, user, stable + held.0, asset + held.1, other);
    SnapshotFrame(grown, user, stable + held.0, asset + held.1);
    LpFundingFrame(s, grown, other);
  }

  /** A withdrawal keeps what everybody on a usable epoch is owed. */
  lemma WithdrawalKeepsFunding(calls: seq<Call>, env: Env, stable: nat, asset: nat, user: Address, price: nat,
                               maxFee: nat, other: Address)
    requires var s := Run(INITIAL_STATE, calls);
             && RemoveLiquidityCore(env, s, stable, asset, user, price, maxFee).Ok?
             && EpochUsable(s, other) && FundingAt(env, s, other, price).Ok?
    ensures var s := Run(INITIAL_STATE, calls);
            var r := RemoveLiquidityCore(env, s, stable, asset, user, price, maxFee).value.0;
            FundingRate(env, r, price, r.lastOp).Ok? ==>
              && FundingAt(env, r, other, price).Ok?
              && FundingAt(env, r, other, price).value.Val() == FundingAt(env, s, other, price).value.Val()
  {
    hide Run, RemoveLiquidityCore, Inv, EpochUsable, FundingAt, FundingRate;
    EveryRunIsOk(calls);
    WithdrawalKeepsFundingFrom(env, Run(INITIAL_STATE, calls), stable, asset, user, price, maxFee, other);
  }

  lemma WithdrawalKeepsFundingFrom(env: Env, s: State, stable: nat, asset: nat, user: Address, price: nat, maxFee: nat,
                                   other: Address)
    requires Inv(s) && RemoveLiquidityCore(env, s, stable, asset, user, price, maxFee).Ok?
    requires EpochUsable(s, other) && FundingAt(env, s, other, price).Ok?
    ensures var r := RemoveLiquidityCore(env, s, stable, asset, user, price, maxFee).value.0;
            FundingRate(env, r, price, r.lastOp).Ok? ==>
              && FundingAt(env, r, other, price).Ok?
              && FundingAt(env, r, other, price).value.Val() == FundingAt(env, s, other, price).value.Val()
  {
    hide UpdateFG, FundingRate, FundingAt, RemoveLiquidityCore, Inv, EpochUsable, Owed;
    WithdrawalKeepsOwed(env, s, stable, asset, user, price, maxFee, other);
    TickOwes(env, s, other, price);
    TickKeepsBalances(env, s, price, user);
    var r := RemoveLiquidityCore(env, s, stable, asset, user, price, maxFee).value.0;
    if FundingRate(env, r, price, r.lastOp).Ok? { OwedIsFundingAt(env, r, other, price); }
  }

  /** From the tick on, a withdrawal moves nobody's funding; the LP ends flushed, and whoever was stays so. */
  lemma WithdrawalKeepsOwed(env: Env, s: State, stable: nat, asset: nat, user: Address, price: nat, maxFee: nat,
                            other: Address)
    requires Inv(s) && RemoveLiquidityCore(env, s, stable, asset, user, price, maxFee).Ok?
    ensures UpdateFG(env, s, price).Ok?
    ensures var funded := UpdateFG(env, s, price).value;
            var r := RemoveLiquidityCore(env, s, stable, asset, user, price, maxFee).value.0;
            && Owed(r, other) == Owed(funded, other) && Flushed(r, user)
               && (Flushed(funded, other) ==> Flushed(r, other))
            && r.lastOp == funded.lastOp && r.rate == funded.rate
  {
    hide UpdateFG, FundingRate, FundingFee, LpBalance, CreditFunding, UpdateSnapshots, TakeFromPool, Inv, LpFunding;
    FundingKeepsInv(env, s, price);
    var balance, funded := LpBalance(s, user).value, UpdateFG(env, s, price).value;
    var owes := FundingFee(funded, user).value;
    CreditedSnapshot(funded, user, owes, balance.0 - stable, balance.1 - asset, other);
    SnapshotFrame(CreditFunding(funded, user, owes), user, balance.0 - stable, balance.1 - asset);
    CreditedFee(funded, user, owes);
    var moved := UpdateSnapshots(CreditFunding(funded, user, owes), user, balance.0 - stable, balance.1 - asset).value;
    TakingKeepsFunding(env, moved, stable, asset, user, price, maxFee, user);
    TakingKeepsFunding(env, moved, stable, asset, user, price, maxFee, other);
    var r := TakeFromPool(env, moved, stable, asset, user, price, maxFee).value.0;
    FlushedOwed(moved, r, user);
    FlushedOwesItsFee(moved, user);
    if other != user {
      SameFundingOwed(funded, moved, other);
      SameFundingOwed(moved, r, other);
    }
  }

  /** Taking amounts out of the pool moves the LP's trader balances, and nobody's funding. */
  lemma TakingKeepsFunding(env: Env, s: State, stable: nat, asset: nat, user: Address, price: nat, maxFee: nat,
                           other: Address)
    requires TakeFromPool(env, s, stable, asset, user, price, maxFee).Ok?
    ensures var r := TakeFromPool(env, s, stable, asset, user, price, maxFee).value.0;
            && r.rate == s.rate && r.lastOp == s.lastOp && LpFunding(r, other, 0) == LpFunding(s, other, 0)
            && r.Pos(other).fundingFee == s.Pos(other).fundingFee
            && r.Pos(other).initialFundingRate == s.Pos(other).initialFundingRate
            && (other != user ==> SameFunding(s, r, other))
  {
    hide RemovalFee, Md, DistributeFee, RaiseExposure, ReduceValue, LpFunding;
    var pulled := s.(pool := Pool(s.pool.stable - stable, s.pool.asset - asset));
    var fee := TakeFromPool(env, s, stable, asset, user, price, maxFee).value.1;
    FeeKeepsRows(pulled, fee, price, s.EpochOf(other));
    LpFundingFrame(s, TakeFromPool(env, s, stable, asset, user, price, maxFee).value.0, other);
  }

  // ----- Liquidations -----

  lemma SettleKeepsOwed(s: State, user: Address, other: Address)
    requires Inv(s) && SettleAndSnapshot(s, user).Ok?
    ensures var t := SettleAndSnapshot(s, user).value;
            && Inv(t) && Owed(t, other) == Owed(s, other) && Flushed(t, user)
            && (Flushed(s, other) ==> Flushed(t, other)) && t.lastOp == s.lastOp && t.rate == s.rate
  {
    hide UpdateSnapshots, FundingFee, LpBalance, CreditFunding, LpFunding, Inv;
    SettledFeeExists(s, user);
    SettleFrame(s, user);
    var balance, fee := LpBalance(s, user).value, FundingFee(s, user).value;
    CreditedSnapshot(s, user, fee, balance.0, balance.1, other);
    var t := SettleAndSnapshot(s, user).value;
    FlushedOwesItsFee(t, user);
    if other != user { SameFundingOwed(s, t, other); }
  }

  /** Owed stays, and whoever was flushed stays flushed. */
  predicate KeepsOwed(s: State, t: State, user: Address)
  {
    && Owed(t, user) == Owed(s, user) && (Flushed(s, user) ==> Flushed(t, user)) && t.lastOp == s.lastOp
    && t.rate == s.rate
  }

  lemma KeepsOwedChains(s: State, t: State, r: State, user: Address)
    requires KeepsOwed(s, t, user) && KeepsOwed(t, r, user)
    ensures KeepsOwed(s, r, user)
  {}

  lemma PullKeepsOwed(env: Env, s: State, user: Address, size: nat, fraction: nat, long: bool, balance: (nat, nat),
                      price: nat, other: Address)
    requires Inv(s) && s.lastOp == env.now && PullLiquidity(env, s, user, size, fraction, long, balance, price).Ok?
    ensures KeepsOwed(s, PullLiquidity(env, s, user, size, fraction, long, balance, price).value, other)
  {
    hide RemoveLiquidityCore, LiquidityToPull, Inv, Owed, Flushed;
    if balance.0 != 0 || balance.1 != 0 {
      var pull := LiquidityToPull(s, user, size, fraction, long, balance).value;
      if pull.0 != 0 || pull.1 != 0 {
        WithdrawalKeepsOwed(env, s, pull.0, pull.1, user, price, 0, other);
      }
    }
  }

  lemma TransferKeepsOwed(s: State, r: State, user: Address, liquidator: Address, asset: int, stable: int, share: nat,
                          cap: nat, other: Address)
    requires Transferred(s, r, user, liquidator, asset, stable, share, cap)
    requires other != user && other != liquidator ==> r.Pos(other) == s.Pos(other)
    requires other == user || other == liquidator ==> Flushed(s, other)
    ensures KeepsOwed(s, r, other)
  {
    hide Moves, Filled, LpFunding, FundingFee;
    LpFundingFrame(s, r, other);
    if other == user || other == liquidator { FlushedOwed(s, r, other); } else { SameFundingOwed(s, r, other); }
  }

  lemma StampKeepsOwed(s: State, user: Address, other: Address)
    requires Flushed(s, user)
    ensures KeepsOwed(s, StampRate(s, user), other)
  {
    hide LpFunding, FundingFee;
    var t := StampRate(s, user);
    LpFundingFrame(s, t, other);
    if other == user {
      FlushedOwesItsFee(s, user);
      FlushedOwesItsFee(t, user);
    } else {
      SameFundingOwed(s, t, other);
    }
  }

  /** A liquidation keeps what everybody on a usable epoch is owed, the two sides included. */
  lemma LiquidationKeepsFunding(calls: seq<Call>, env: Env, liquidator: Address, user: Address, size: nat, price: nat,
                                collateral: nat, other: Address)
    requires var s := Run(INITIAL_STATE, calls);
             && LiquidateTransfer(env, s, liquidator, user, size, price, collateral).Ok?
             && EpochUsable(s, other) && FundingAt(env, s, other, price).Ok?
    ensures var s := Run(INITIAL_STATE, calls);
            var r := LiquidateTransfer(env, s, liquidator, user, size, price, collateral).value.0;
            FundingRate(env, r, price, r.lastOp).Ok? ==>
              && FundingAt(env, r, other, price).Ok?
              && FundingAt(env, r, other, price).value.Val() == FundingAt(env, s, other, price).value.Val()
  {
    hide Run, LiquidateTransfer, Inv, EpochUsable, FundingAt, FundingRate, Owed, HandsOver, BothSettled, UpdateFG;
    EveryRunIsOk(calls);
    var s := Run(INITIAL_STATE, calls);
    var margin, fraction, discount := TransferPhases(env, s, liquidator, user, size, price, collateral);
    var ready := BothSettled(env, s, liquidator, user, price).value;
    TickOwes(env, s, other, price);
    TickKeepsBalances(env, s, price, user);
    BothSettledOwed(env, s, liquidator, user, price, other);
    var r := LiquidateTransfer(env, s, liquidator, user, size, price, collateral).value;
    HandOverKeepsOwed(env, ready, r, liquidator, user, size, price, collateral,
                      Sides(ready, user).0 > Sides(ready, user).1, fraction, discount, other);
    if FundingRate(env, r.0, price, r.0.lastOp).Ok? { OwedIsFundingAt(env, r.0, other, price); }
  }

  lemma BothSettledOwed(env: Env, s: State, liquidator: Address, user: Address, price: nat, other: Address)
    requires Inv(s) && BothSettled(env, s, liquidator, user, price).Ok?
    ensures UpdateFG(env, s, price).Ok?
    ensures var funded, t := UpdateFG(env, s, price).value, BothSettled(env, s, liquidator, user, price).value;
            && Inv(t) && t.lastOp == funded.lastOp && Owed(t, other) == Owed(funded, other)
            && Flushed(t, user) && Flushed(t, liquidator)
  {
    hide UpdateFG, SettleAndSnapshot, Inv, Owed, Flushed;
    FundingKeepsInv(env, s, price);
    var funded := UpdateFG(env, s, price).value;
    SettleKeepsOwed(funded, liquidator, other);
    var settled := SettleAndSnapshot(funded, liquidator).value;
    SettleKeepsOwed(settled, user, other);
    SettleKeepsOwed(settled, user, liquidator);
  }

  lemma HandOverKeepsOwed(env: Env, ready: State, r: (State, nat), liquidator: Address, user: Address, size: nat,
                          price: nat, collateral: nat, long: bool, fraction: nat, discount: nat, other: Address)
    requires Inv(ready) && ready.lastOp == env.now && user != liquidator
    requires Flushed(ready, user) && Flushed(ready, liquidator)
    requires HandsOver(env, ready, r, liquidator, user, size, price, collateral, long, fraction, discount)
    ensures Owed(r.0, other) == Owed(ready, other) && r.0.lastOp == ready.lastOp
  {
    hide LpBalance, PullLiquidity, LiquidatePosition, StampRate, Transferred, Inv, Owed, Flushed, IsPart, LongValue,
         ShortValue;
    var balance := LpBalance(ready, user).value;
    PullKeepsOwed(env, ready, user, size, fraction, long, balance, price, other);
    PullKeepsOwed(env, ready, user, size, fraction, long, balance, price, user);
    PullKeepsOwed(env, ready, user, size, fraction, long, balance, price, liquidator);
    var pulled := PullLiquidity(env, ready, user, size, fraction, long, balance, price).value;
    var value, dy, share :=
      LiquidatePositionAccounts(env, pulled, size, user, discount, long, liquidator, price, collateral, other);
    var moved := LiquidatePosition(env, pulled, size, user, discount, long, liquidator, price, collateral).value;
    var asset, stable := if long then -(size as int) else size, if long then dy else -(dy as int);
    var cap := env.cfg.insuranceFundCap;
    TransferKeepsOwed(pulled, moved, user, liquidator, asset, stable, share, cap, other);
    TransferKeepsOwed(pulled, moved, user, liquidator, asset, stable, share, cap, user);
    TransferKeepsOwed(pulled, moved, user, liquidator, asset, stable, share, cap, liquidator);
    StampKeepsOwed(moved, user, other);
    StampKeepsOwed(moved, user, liquidator);
    StampKeepsOwed(StampRate(moved, user), liquidator, other);
  }
}
