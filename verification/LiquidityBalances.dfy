/** What a deposit and a withdrawal do to the balance the LP can recover. */
module LiquidityBalances {
  import opened Arith
  import opened FusedMulDiv
  import opened EngineState
  import opened EngineSpec
  import opened EngineOps
  import opened MatrixRounding
  import opened Pinning
  import opened Refresh
  import Ledger

  // ----- What a balance reads -----

  ghost predicate SameTable(e: Epochs, f: Epochs)
  {
    && f.current == e.current && f.oldest == e.oldest
    && forall id: nat :: f.At(id).m == e.At(id).m && f.At(id).lpCount == e.At(id).lpCount
  }

  /** Two states that recover the same balances: pool, matrices and snapshots agree. */
  ghost predicate SameBalances(s: State, t: State)
  {
    t.pool == s.pool && SameTable(s.ep, t.ep) && SameSnapshots(s, t)
  }

  lemma BalanceFrame(s: State, t: State, user: Address)
    requires SameBalances(s, t)
    ensures LpBalance(t, user) == LpBalance(s, user)
  {
    hide RecoverLpBalance, Clamp;
    assert Shape(t.Lp(user)) == Shape(s.Lp(user)) && t.EpochOf(user) == s.EpochOf(user);
    var id := s.EpochOf(user);
    assert t.ep.At(id).m == s.ep.At(id).m;
  }

  lemma UpdatedAt(e: Epochs, aX: int, aY: int, kind: UpdateKind, id: nat)
    ensures ApplyMatrixUpdate(e, aX, aY, kind).At(id)
            == (if e.InWindow(id) && e.Live(id) then e.At(id).(m := StepMatrix(e.At(id).m, aX, aY, kind)) else e.At(id))
  {
    hide StepMatrix;
  }

  lemma UpdateKeepsSameTable(e: Epochs, f: Epochs, aX: int, aY: int, kind: UpdateKind)
    requires SameTable(e, f)
    ensures SameTable(ApplyMatrixUpdate(e, aX, aY, kind), ApplyMatrixUpdate(f, aX, aY, kind))
  {
    hide StepMatrix;
    var e', f' := ApplyMatrixUpdate(e, aX, aY, kind), ApplyMatrixUpdate(f, aX, aY, kind);
    forall id: nat ensures f'.At(id).m == e'.At(id).m && f'.At(id).lpCount == e'.At(id).lpCount {
      UpdatedAt(e, aX, aY, kind, id);
      UpdatedAt(f, aX, aY, kind, id);
      assert f.At(id).m == e.At(id).m && f.At(id).lpCount == e.At(id).lpCount;
    }
  }

  /** The same new pool, and tables that still agree. */
  lemma MovedAlike(s: State, t: State, e: Epochs, f: Epochs, pool: Pool)
    requires SameBalances(s, t) && SameTable(e, f)
    ensures SameBalances(s.(ep := e, pool := pool), t.(ep := f, pool := pool))
  {
    hide SameTable;
    forall u: Address ensures Shape(t.(ep := f, pool := pool).Lp(u)) == Shape(s.(ep := e, pool := pool).Lp(u)) {
      assert Shape(t.Lp(u)) == Shape(s.Lp(u));
    }
    forall u: Address ensures t.(ep := f, pool := pool).EpochOf(u) == s.(ep := e, pool := pool).EpochOf(u) {
      assert t.EpochOf(u) == s.EpochOf(u);
    }
  }

  lemma FeeKeepsSameBalances(s: State, t: State, fee: nat, price: nat)
    requires SameBalances(s, t)
    ensures SameBalances(DistributeFee(s, fee, price), DistributeFee(t, fee, price))
  {
    hide Md, ApplyMatrixUpdate, SameTable, SameSnapshots;
    var total := s.pool.stable + Md(s.pool.asset, price, ORACLE_DECIMALS);
    if fee > 0 && s.pool.asset != 0 && s.pool.stable != 0 && total > 0 {
      FeeShare(fee, s.pool.stable, total);
      var feeStable := Md(fee, s.pool.stable, total);
      var aX, aY := Md(feeStable, M_DECIMALS, s.pool.stable), Md(fee - feeStable, M_DECIMALS, s.pool.asset);
      UpdateKeepsSameTable(s.ep, t.ep, aX, aY, FeeUpdate);
      MovedAlike(s, t, ApplyMatrixUpdate(s.ep, aX, aY, FeeUpdate), ApplyMatrixUpdate(t.ep, aX, aY, FeeUpdate),
                 s.pool.(stable := s.pool.stable + fee));
    }
  }

  lemma AccrualKeepsTable(e: Epochs, b: int)
    ensures SameTable(e, AccrueAll(e, b))
  {
    hide PendingG;
  }

  lemma TickKeepsSameBalances(env: Env, s: State, price: nat)
    requires UpdateFG(env, s, price).Ok?
    ensures SameBalances(s, UpdateFG(env, s, price).value)
  {
    hide FundingRate, FundingB, AccrueAll, SignedSum, SameTable;
    TableIsItself(s.ep);
    if s.lastOp != env.now {
      AccrualKeepsTable(s.ep, FundingB(FundingRate(env, s, price, s.lastOp).value));
    }
  }

  lemma TableIsItself(e: Epochs)
    ensures SameTable(e, e)
  {}

  lemma SameBalancesChains(s: State, t: State, u: State)
    requires SameBalances(s, t) && SameBalances(t, u)
    ensures SameBalances(s, u)
  {
    forall id: nat ensures u.ep.At(id).m == s.ep.At(id).m && u.ep.At(id).lpCount == s.ep.At(id).lpCount {
      assert t.ep.At(id).m == s.ep.At(id).m && t.ep.At(id).lpCount == s.ep.At(id).lpCount;
      assert u.ep.At(id).m == t.ep.At(id).m && u.ep.At(id).lpCount == t.ep.At(id).lpCount;
    }
    forall a: Address ensures Shape(u.Lp(a)) == Shape(s.Lp(a)) && u.EpochOf(a) == s.EpochOf(a) {
      assert Shape(t.Lp(a)) == Shape(s.Lp(a)) && Shape(u.Lp(a)) == Shape(t.Lp(a));
      assert t.EpochOf(a) == s.EpochOf(a) && u.EpochOf(a) == t.EpochOf(a);
    }
  }

  lemma DebtKeepsSameBalances(s: State, user: Address, stable: nat, asset: nat)
    ensures SameBalances(s, s.SetLp(user, s.Lp(user).(debtStable := stable, debtAsset := asset)))
  {}

  lemma PositionsKeepSameBalances(s: State, t: State)
    requires t.pool == s.pool && t.ep == s.ep && t.lps == s.lps && t.lpEpoch == s.lpEpoch
    ensures SameBalances(s, t)
  {}

  // ----- Deposits -----

  /** A snapshot just taken recovers the balances it was given, when the pool holds them. */
  lemma SnapshotRecovers(s: State, user: Address, stable: nat, asset: nat)
    requires Inv(s) && UpdateSnapshots(s, user, stable, asset).Ok? && stable <= s.pool.stable && asset <= s.pool.asset
    ensures LpBalance(UpdateSnapshots(s, user, stable, asset).value, user) == Ok((stable, asset))
  {
    hide UpdateSnapshots, Inv, RecoverLpBalance;
    FreshSnapshot(s, user, stable, asset);
    SnapshotFrame(s, user, stable, asset);
    if stable != 0 || asset != 0 {
      OwnSnapshotValue(UpdateSnapshots(s, user, stable, asset).value, user);
    }
  }

  lemma PoolMoveKeepsPins(s: State, pool: Pool)
    requires Inv(s)
    ensures Inv(s.(pool := pool))
  {
    FrameKeepsInv(s, s.(pool := pool));
  }

  lemma RejoinedBalance(s: State, user: Address, stable: nat, asset: nat)
    requires Inv(s) && RejoinPool(s, user, stable, asset).Ok?
    ensures LpBalance(s, user).Ok?
    ensures var held := LpBalance(s, user).value;
            LpBalance(RejoinPool(s, user, stable, asset).value, user) == Ok((held.0 + stable, held.1 + asset))
  {
    hide LpBalance, UpdateSnapshots, Inv;
    var held := LpBalance(s, user).value;
    Ledger.BalanceWithinPool(s, user);
    var stableLeft := if s.pool != Pool(0, 0) then s.pool.stable - held.0 else 0;
    var assetLeft := if s.pool != Pool(0, 0) then s.pool.asset - held.1 else 0;
    var pool := Pool(stableLeft + (stable + held.0), assetLeft + (asset + held.1));
    PoolMoveKeepsPins(s, pool);
    SnapshotRecovers(s.(pool := pool), user, stable + held.0, asset + held.1);
  }

  /** After a deposit the LP recovers exactly what it held once the deposit's fee was shared out, plus the deposit, less
      the part of the fee the deposit paid: folding the old balance back in loses nothing. */
  lemma DepositIsCredited(env: Env, s: State, stable: nat, asset: nat, fee: nat, price: nat, user: Address)
    requires Inv(s) && AddLiquidityCore(env, s, stable, asset, fee, price, user).Ok?
    ensures LpBalance(DistributeFee(s, fee, price), user).Ok?
    ensures var held := LpBalance(DistributeFee(s, fee, price), user).value;
            LpBalance(AddLiquidityCore(env, s, stable, asset, fee, price, user).value, user)
            == Ok((held.0 + TakeFee(stable, fee).0, held.1 + asset))
  {
    hide LpBalance, UpdateFG, FundingRate, FundingFeeWith, CreditFunding, DistributeFee, SignedSum, Inv, SameBalances,
         RejoinPool;
    var owes := FundingFeeWith(s, user, SignedSum(s.rate, FundingRate(env, s, price, s.lastOp).value)).value;
    var s1 := CreditFunding(s, user, owes);
    CreditKeepsInv(s, user, owes);
    CreditFrame(s, user, owes);
    PositionsKeepSameBalances(s, s1);
    FundingKeepsInv(env, s1, price);
    TickKeepsSameBalances(env, s1, price);
    var s2 := UpdateFG(env, s1, price).value;
    SameBalancesChains(s, s1, s2);
    var (left, owed) := TakeFee(stable, fee);
    var lp := s2.Lp(user);
    var s3 := s2.SetLp(user, lp.(debtStable := lp.debtStable + stable + owed, debtAsset := lp.debtAsset + asset));
    DebtKeepsSameBalances(s2, user, lp.debtStable + stable + owed, lp.debtAsset + asset);
    SameBalancesChains(s, s2, s3);
    DebtKeepsInv(s2, user, lp.debtStable + stable + owed, lp.debtAsset + asset);
    FeeKeepsSameBalances(s, s3, fee, price);
    FeeKeepsInv(s3, fee, price);
    BalanceFrame(DistributeFee(s, fee, price), DistributeFee(s3, fee, price), user);
    RejoinedBalance(DistributeFee(s3, fee, price), user, left, asset);
  }

  lemma CreditFrame(s: State, user: Address, fee: Signed)
    ensures var t := CreditFunding(s, user, fee);
            t.pool == s.pool && t.ep == s.ep && t.lps == s.lps
            && t.lpEpoch == s.lpEpoch
  {
    hide SignedSum;
  }

  lemma DebtKeepsInv(s: State, user: Address, stable: nat, asset: nat)
    requires Inv(s)
    ensures Inv(s.SetLp(user, s.Lp(user).(debtStable := stable, debtAsset := asset)))
  {
    FrameKeepsInv(s, s.SetLp(user, s.Lp(user).(debtStable := stable, debtAsset := asset)));
  }

  // ----- Withdrawals -----

  /** The asset part of a recovered balance reads row 1 of the current matrix alone. */
  lemma AssetRowDecides(cur: Mat, next: Mat, snap: Mat, p: nat, q: nat)
    requires next.m10 == cur.m10 && next.m11 == cur.m11
    ensures var r, t := RecoverLpBalance(cur, snap, p, q, M_DECIMALS), RecoverLpBalance(next, snap, p, q, M_DECIMALS);
            if r.Ok? then t.Ok? && t.value.1 == r.value.1 else t.Err?
  {}

  /** A fee step never takes a live corner to zero and leaves row 1 alone. */
  lemma FeeStepKeepsCorner(m: Mat, aX: nat, aY: nat)
    requires Woven(m) && m.m00 != 0
    ensures var r := StepMatrix(m, aX, aY, FeeUpdate); r.m00 != 0 && r.m10 == m.m10 && r.m11 == m.m11
  {
    var steps :| AllOk(steps) && m == RunMatrix(steps);
    RunNeverFavoursLps(steps);
    StepRoundsAgainstLps(MatrixStep(aX, aY, FeeUpdate), m);
    hide RunMatrix;
    MulMonotone(aX, 0, m.m00);
    MulMonotone(aY, 0, m.m10);
    TruncDivBounds(aY * m.m10 + aX * m.m00, M_DECIMALS);
  }

  /** Sharing out a fee changes no LP's asset balance. */
  lemma FeeKeepsAssetBalance(s: State, fee: nat, price: nat, user: Address)
    requires Inv(s) && LpBalance(s, user).Ok?
    ensures LpBalance(DistributeFee(s, fee, price), user).Ok?
    ensures LpBalance(DistributeFee(s, fee, price), user).value.1 == LpBalance(s, user).value.1
  {
    hide Md, StepMatrix, ApplyMatrixUpdate, RecoverLpBalance, Woven;
    var total := s.pool.stable + Md(s.pool.asset, price, ORACLE_DECIMALS);
    if fee > 0 && s.pool.asset != 0 && s.pool.stable != 0 && total > 0 {
      FeeShare(fee, s.pool.stable, total);
      var feeStable := Md(fee, s.pool.stable, total);
      var aX, aY := Md(feeStable, M_DECIMALS, s.pool.stable), Md(fee - feeStable, M_DECIMALS, s.pool.asset);
      var lp, id := s.Lp(user), s.EpochOf(user);
      UpdatedAt(s.ep, aX, aY, FeeUpdate, id);
      var m := s.ep.At(id).m;
      assert Woven(m);
      if m.m00 != 0 { FeeStepKeepsCorner(m, aX, aY); }
      AssetRowDecides(m, ApplyMatrixUpdate(s.ep, aX, aY, FeeUpdate).At(id).m, lp.snap, lp.initialStable,
                      lp.initialAsset);
    }
  }

  /** After a withdrawal the LP recovers its old balance less what it withdrew, as the withdrawal's own fee shared out
      over that rest leaves it: exactly the rest on the asset side, and exactly the rest on both sides when no fee was
      charged. `before` is the state with the LP's new snapshot and the amounts out of the pool. */
  lemma WithdrawalIsDebited(env: Env, s: State, stable: nat, asset: nat, user: Address, price: nat, maxFee: nat)
      returns (before: State)
    requires Inv(s) && RemoveLiquidityCore(env, s, stable, asset, user, price, maxFee).Ok?
    ensures LpBalance(s, user).Ok? && stable <= LpBalance(s, user).value.0 && asset <= LpBalance(s, user).value.1
    ensures var balance, r := LpBalance(s, user).value,
            RemoveLiquidityCore(env, s, stable, asset, user, price, maxFee).value;
            && before.pool.stable + stable == s.pool.stable && before.pool.asset + asset == s.pool.asset
            && LpBalance(before, user) == Ok((balance.0 - stable, balance.1 - asset))
            && LpBalance(r.0, user) == LpBalance(DistributeFee(before, r.1, price), user)
            && LpBalance(r.0, user).Ok? && LpBalance(r.0, user).value.1 == balance.1 - asset
            && (r.1 == 0 ==> LpBalance(r.0, user) == Ok((balance.0 - stable, balance.1 - asset)))
  {
    hide LpBalance, UpdateFG, FundingFee, CreditFunding, UpdateSnapshots, TakeFromPool, Inv, DistributeFee;
    var balance, s1 := LpBalance(s, user).value, UpdateFG(env, s, price).value;
    FundingKeepsInv(env, s, price);
    FeeAndPool(env, s, price, user);
    var owes := FundingFee(s1, user).value;
    var s2 := CreditFunding(s1, user, owes);
    CreditKeepsInv(s1, user, owes);
    CreditFrame(s1, user, owes);
    Ledger.BalanceWithinPool(s, user);
    var rest := (balance.0 - stable, balance.1 - asset);
    SnapshotKeepsInv(s2, user, rest.0, rest.1);
    SnapshotRecoversInto(s2, user, rest.0, rest.1, stable, asset);
    var s3 := UpdateSnapshots(s2, user, rest.0, rest.1).value;
    before := s3.(pool := Pool(s.pool.stable - stable, s.pool.asset - asset));
    var fee := TakeFromPool(env, s3, stable, asset, user, price, maxFee).value.1;
    TakingSharesFee(env, s3, stable, asset, user, price, maxFee);
    PoolMoveKeepsPins(s3, before.pool);
    FeeKeepsAssetBalance(before, fee, price, user);
    if fee == 0 { NoFeeNothingShared(before, price); }
  }

  lemma NoFeeNothingShared(s: State, price: nat)
    ensures DistributeFee(s, 0, price) == s
  {}

  lemma FeeAndPool(env: Env, s: State, price: nat, user: Address)
    requires UpdateFG(env, s, price).Ok?
    ensures UpdateFG(env, s, price).value.pool == s.pool
  {
    hide FundingRate, FundingB, AccrueAll, SignedSum;
  }

  /** A fresh snapshot recovers its balances on any pool that still holds them. */
  lemma SnapshotRecoversInto(s: State, user: Address, stable: nat, asset: nat, outStable: nat, outAsset: nat)
    requires Inv(s) && UpdateSnapshots(s, user, stable, asset).Ok?
    requires stable + outStable <= s.pool.stable && asset + outAsset <= s.pool.asset
    ensures var t := UpdateSnapshots(s, user, stable, asset).value;
            && t.pool == s.pool
            && LpBalance(t.(pool := Pool(s.pool.stable - outStable, s.pool.asset - outAsset)), user)
               == Ok((stable, asset))
  {
    hide UpdateSnapshots, Inv, RecoverLpBalance;
    FreshSnapshot(s, user, stable, asset);
    SnapshotFrame(s, user, stable, asset);
    var t := UpdateSnapshots(s, user, stable, asset).value;
    if stable != 0 || asset != 0 {
      OwnSnapshotValue(t.(pool := Pool(s.pool.stable - outStable, s.pool.asset - outAsset)), user);
    }
  }

  /** Taking amounts out of the pool leaves the balances that sharing the fee over what remains leaves. */
  lemma TakingSharesFee(env: Env, s: State, stable: nat, asset: nat, user: Address, price: nat, maxFee: nat)
    requires TakeFromPool(env, s, stable, asset, user, price, maxFee).Ok?
    ensures stable <= s.pool.stable && asset <= s.pool.asset
    ensures var r := TakeFromPool(env, s, stable, asset, user, price, maxFee).value;
            LpBalance(r.0, user)
            == LpBalance(DistributeFee(s.(pool := Pool(s.pool.stable - stable, s.pool.asset - asset)), r.1, price),
                         user)
  {
    hide LpBalance, RemovalFee, Md, CreditWithdrawal, SameBalances, DistributeFee;
    var fee := TakeFromPool(env, s, stable, asset, user, price, maxFee).value.1;
    var shared := DistributeFee(s.(pool := Pool(s.pool.stable - stable, s.pool.asset - asset)), fee, price);
    var (left, owed) := TakeFee(stable, fee);
    WithdrawalFrame(env, shared, user, left, asset, owed, price);
    BalanceFrame(shared, ResetWindow(env, CreditWithdrawal(shared, user, left, asset, owed), price), user);
  }

  lemma WithdrawalFrame(env: Env, s: State, user: Address, stable: nat, asset: nat, owed: nat, price: nat)
    ensures SameBalances(s, ResetWindow(env, CreditWithdrawal(s, user, stable, asset, owed), price))
  {
    hide RaiseExposure, ReduceValue;
  }

  // ----- Who is paid first -----

  /** A withdrawal repays LP debt before it credits a balance, on each side. */
  lemma RepaysBeforeCrediting(s: State, user: Address, stable: nat, asset: nat, owed: nat)
    ensures var t := CreditWithdrawal(s, user, stable, asset, owed);
            && (t.Lp(user).debtStable == 0 || t.Pos(user).balanceStable == s.Pos(user).balanceStable)
            && (t.Lp(user).debtAsset == 0 || t.Pos(user).balanceAsset == s.Pos(user).balanceAsset)
  {
    hide RaiseExposure;
  }

  /** Paying uses the balance before it borrows, and receiving repays debt before it credits: the four primitives, a
      trade and a realised profit alike. */
  lemma NettingOrder(p: Position, amount: nat, direction: bool, tradeReturn: nat, pnl: Signed)
    ensures var q := DebitStable(p, amount); q.balanceStable == 0 || q.debtStable == p.debtStable
    ensures var q := DebitAsset(p, amount); q.balanceAsset == 0 || q.debtAsset == p.debtAsset
    ensures var q := CreditStableViaDebt(p, amount); q.debtStable == 0 || q.balanceStable == p.balanceStable
    ensures var q := CreditAssetViaDebt(p, amount); q.debtAsset == 0 || q.balanceAsset == p.balanceAsset
    ensures var q := TradedPosition(p, true, amount, tradeReturn); q.balanceStable == 0 || q.debtStable == p.debtStable
    ensures var q := TradedPosition(p, false, amount, tradeReturn); q.balanceAsset == 0 || q.debtAsset == p.debtAsset
    ensures var q := TakePnl(p, pnl);
            if pnl.pos then q.balanceStable == 0 || q.debtStable == p.debtStable
                else q.debtStable == 0 || q.balanceStable == p.balanceStable
  {}
}
