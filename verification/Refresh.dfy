/** Refreshing one LP's snapshot moves nobody's value, and realising a profit settles it completely. */
module Refresh {
  import opened Arith
  import opened FusedMulDiv
  import opened EngineState
  import opened EngineSpec
  import opened EngineOps
  import opened Pinning
  import opened Settlement

  /** With a sound snapshot the balance is always recoverable: MDET is never raised. */
  lemma BalanceNeverFails(s: State, user: Address)
    requires SnapshotOk(s.Lp(user))
    ensures LpBalance(s, user).Ok?
  {
    hide TruncDiv;
  }

  // ----- Everybody else -----

  /** The slot an LP reads is the same up to its count. */
  predicate SameSlot(e: Epoch, f: Epoch) { e.m == f.m && e.g0 == f.g0 && e.g1 == f.g1 }

  lemma OthersKeepSlot(s: State, user: Address, stable: nat, asset: nat, other: Address)
    requires Inv(s) && UpdateSnapshots(s, user, stable, asset).Ok? && other != user && s.Active(other)
    ensures SameSlot(s.ep.At(s.EpochOf(other)), UpdateSnapshots(s, user, stable, asset).value.ep.At(s.EpochOf(other)))
  {
    hide Retire, Roll, MoveReference, WindowOk, Inv;
    var u := StampRate(s, user);
    var id := s.EpochOf(other);
    SameInv(s, u);
    OtherHoldsReference(u, user, other);
    OwnReference(u, user);
    SnapshotIsOk(u, user);
    if stable == 0 && asset == 0 {
      var ep := if u.Active(user) then DecrementLpCount(u.ep, u.EpochOf(user)).value else u.ep;
      ReferenceKeepsWindow(u.ep, u.EpochOf(user));
      RetireFreesOnlyDrained(ep);
      assert ep.At(id).lpCount != 0 && SameSlot(u.ep.At(id), ep.At(id));
    } else {
      RollKeepsWindow(u.ep);
      var rolled := Roll(u.ep).value;
      assert rolled.At(id) == u.ep.At(id);
      assert u.Active(user) ==> rolled.At(u.EpochOf(user)) == u.ep.At(u.EpochOf(user));
      MoveReferenceEffect(rolled, u.Active(user), u.EpochOf(user));
      var moved := MoveReference(rolled, u.Active(user), u.EpochOf(user)).value;
      assert moved.At(id) == rolled.At(id).(lpCount := moved.At(id).lpCount);
      RetireFreesOnlyDrained(moved);
      assert moved.At(id).lpCount != 0;
    }
  }

  lemma SameInv(s: State, t: State)
    requires Inv(s) && t.ep == s.ep && t.lps == s.lps && t.lpEpoch == s.lpEpoch
    ensures Inv(t) && WindowOk(s.ep)
  {
    PositionsKeepInv(s, t);
  }

  lemma OwnReference(s: State, user: Address)
    requires Inv(s)
    ensures s.Active(user) ==> s.ep.At(s.EpochOf(user)).lpCount > 0
  {
    if s.Active(user) { PinnedIsReferenced(s, user); }
  }

  /** Another LP's epoch is referenced even without this user's own reference. */
  lemma OtherHoldsReference(s: State, user: Address, other: Address)
    requires Inv(s) && other != user && s.Active(other)
    ensures s.ep.At(s.EpochOf(other)).lpCount > Reference(s, user, s.EpochOf(other))
  {
    var id := s.EpochOf(other);
    var pinned := Pinned(s, id);
    assert |pinned| <= s.ep.At(id).lpCount;
    assert other in pinned;
    if Reference(s, user, id) == 1 {
      assert {user, other} <= pinned;
      SubsetSize({user, other}, pinned);
    } else {
      SubsetSize({other}, pinned);
    }
  }

  /** What taking a snapshot leaves alone: everything but the epochs, this user's snapshot and its stamped rate. */
  lemma SnapshotFrame(s: State, user: Address, stable: nat, asset: nat)
    requires UpdateSnapshots(s, user, stable, asset).Ok?
    ensures var t := UpdateSnapshots(s, user, stable, asset).value;
            && t == StampRate(s, user).(ep := t.ep, lps := t.lps, lpEpoch := t.lpEpoch)
            && (forall v: Address :: v != user ==> t.Lp(v) == s.Lp(v) && t.EpochOf(v) == s.EpochOf(v))
            && t.Lp(user).debtStable == s.Lp(user).debtStable && t.Lp(user).debtAsset == s.Lp(user).debtAsset
  {
    hide Retire, Roll, MoveReference;
  }

  lemma SettleFrame(s: State, user: Address)
    requires SettleAndSnapshot(s, user).Ok?
    ensures var t := SettleAndSnapshot(s, user).value;
            && t.pool == s.pool && t.rate == s.rate && t.lastOp == s.lastOp && t.exposure == s.exposure
            && t.window == s.window && t.insurance == s.insurance
            && (forall v: Address :: v != user ==>
                t.Lp(v) == s.Lp(v) && t.EpochOf(v) == s.EpochOf(v)
                && t.Pos(v) == s.Pos(v))
            && t.Lp(user).debtStable == s.Lp(user).debtStable && t.Lp(user).debtAsset == s.Lp(user).debtAsset
            && t.Pos(user) == s.Pos(user).(initialFundingRate := s.rate,
                                           fundingFee := SignedSum(s.Pos(user).fundingFee, FundingFee(s, user).value))
  {
    hide UpdateSnapshots, LpBalance, FundingFee, SignedSum;
    var balance, fee := LpBalance(s, user).value, FundingFee(s, user).value;
    SnapshotFrame(CreditFunding(s, user, fee), user, balance.0, balance.1);
  }

  /** For everybody else nothing they read has moved. */
  lemma OthersUntouched(env: Env, s: State, user: Address, other: Address, price: nat)
    requires Inv(s) && SettleAndSnapshot(s, user).Ok? && other != user
    ensures var t := SettleAndSnapshot(s, user).value;
            && LpBalance(t, other) == LpBalance(s, other)
            && FundingAt(env, t, other, price) == FundingAt(env, s, other, price)
  {
    hide UpdateSnapshots, FundingRate, FundingFee, SignedSum, FundingB, Inv, RecoverLpBalance, RecoverFundingStar,
         TraderFunding, PendingG;
    SettleFrame(s, user);
    SnapshotIsOk(s, other);
    var t := SettleAndSnapshot(s, user).value;
    RateFrame(env, s, t, price);
    if s.Active(other) {
      var balance, fee := LpBalance(s, user).value, FundingFee(s, user).value;
      var credited := CreditFunding(s, user, fee);
      SameInv(s, credited);
      OthersKeepSlot(credited, user, balance.0, balance.1, other);
    }
    forall rate: Signed ensures TraderFunding(t, other, rate) == TraderFunding(s, other, rate) {
      TraderFundingFrame(s, t, other, rate);
    }
  }

  lemma RateFrame(env: Env, s: State, t: State, price: nat)
    requires t.pool == s.pool && t.exposure == s.exposure && t.lastOp == s.lastOp
    ensures FundingRate(env, t, price, t.lastOp) == FundingRate(env, s, price, s.lastOp)
  {}

  // ----- The user itself -----

  /** A fresh snapshot is its epoch's own matrix and funding row. */
  lemma FreshSnapshot(s: State, user: Address, stable: nat, asset: nat)
    requires Inv(s) && UpdateSnapshots(s, user, stable, asset).Ok?
    ensures var t := UpdateSnapshots(s, user, stable, asset).value;
            var lp, e := t.Lp(user), t.ep.At(t.EpochOf(user));
            && lp.initialStable == stable && lp.initialAsset == asset
            && (stable != 0 || asset != 0 ==>
                lp.snap == e.m && lp.g0 == e.g0 && lp.g1 == e.g1 && lp.snap.m00 != 0
                && lp.snap.RawDet() > 0)
            && (stable == 0 && asset == 0 ==> lp.snap.m00 == 0)
  {
    hide Retire, Roll, MoveReference, WindowOk, Inv;
    var u := StampRate(s, user);
    SameInv(s, u);
    OwnReference(u, user);
    if stable != 0 || asset != 0 {
      RollKeepsWindow(u.ep);
      var rolled := Roll(u.ep).value;
      assert u.Active(user) ==> rolled.At(u.EpochOf(user)) == u.ep.At(u.EpochOf(user));
      MoveReferenceEffect(rolled, u.Active(user), u.EpochOf(user));
      var moved := MoveReference(rolled, u.Active(user), u.EpochOf(user)).value;
      assert moved.At(moved.current) == rolled.At(moved.current).(lpCount := moved.At(moved.current).lpCount);
      RetireFreesOnlyDrained(moved);
    }
  }

  /** A snapshot that is its epoch's own matrix and row recovers its initial balances, and owes nothing. */
  lemma OwnSnapshotValue(t: State, user: Address)
    requires var lp, e := t.Lp(user), t.ep.At(t.EpochOf(user));
             lp.snap == e.m && lp.g0 == e.g0 && lp.g1 == e.g1 && lp.snap.m00 != 0 && lp.snap.RawDet() > 0
    ensures LpBalance(t, user) == Ok((Clamp(t.Lp(user).initialStable, t.pool.stable),
                                      Clamp(t.Lp(user).initialAsset, t.pool.asset)))
    ensures LpFunding(t, user, 0) == Ok(0)
  {
    hide RecoverLpBalance, RecoverFundingStar, PendingG, Clamp;
    var lp := t.Lp(user);
    RawPathIsExact(lp.snap, lp.initialStable, lp.initialAsset, M_DECIMALS);
    PendingZero(lp.snap.m10);
    PendingZero(lp.snap.m11);
    NoFundingYet(lp.snap, lp.initialStable, lp.initialAsset);
  }

  /** The refreshed snapshot recovers the balance it was taken from, exactly. */
  lemma OwnBalanceKept(s: State, user: Address)
    requires Inv(s) && SettleAndSnapshot(s, user).Ok?
    ensures var t := SettleAndSnapshot(s, user).value;
            && LpBalance(t, user) == LpBalance(s, user)
            && LpFunding(t, user, 0) == Ok(0)
  {
    hide UpdateSnapshots, FundingFee, CreditFunding, Clamp, Inv;
    SettledFeeExists(s, user);
    var balance, fee := LpBalance(s, user).value, FundingFee(s, user).value;
    CreditKeepsInv(s, user, fee);
    FreshSnapshot(CreditFunding(s, user, fee), user, balance.0, balance.1);
    SettleFrame(s, user);
    BalanceIsClamped(s, user);
    if balance.0 != 0 || balance.1 != 0 {
      OwnSnapshotValue(SettleAndSnapshot(s, user).value, user);
    }
  }

  lemma BalanceIsClamped(s: State, user: Address)
    requires LpBalance(s, user).Ok?
    ensures var b := LpBalance(s, user).value; Clamp(b.0, s.pool.stable) == b.0 && Clamp(b.1, s.pool.asset) == b.1
  {
    hide RecoverLpBalance;
  }

  lemma NoFundingYet(m: Mat, p: nat, q: nat)
    requires m.RawDet() > 0
    ensures RecoverFundingStar(0, 0, m, p, q, M_DECIMALS, G_DECIMALS) == Ok(0)
  {
    MulMonotone(G_DECIMALS, 1, m.RawDet());
    var d := m.RawDet() * G_DECIMALS;
    assert d == G_DECIMALS * m.RawDet() >= 1;
    DivCancel(0, d);
    assert 0 * M_DECIMALS == 0;
  }

  /** A rate just settled owes nothing more on a position just stamped with it. */
  lemma OwnFundingKept(env: Env, s: State, user: Address, price: nat)
    requires Inv(s) && SettleAndSnapshot(s, user).Ok? && s.lastOp == env.now
    ensures var t := SettleAndSnapshot(s, user).value;
            Agree(FundingAt(env, s, user, price), FundingAt(env, t, user, price))
  {
    hide SettleAndSnapshot, FundingRate, LpFunding, TraderFunding, SignedSum, FundingB, Inv;
    var t := SettleAndSnapshot(s, user).value;
    SettleFrame(s, user);
    RateFrame(env, s, t, price);
    OwnBalanceKept(s, user);
    if FundingRate(env, s, price, s.lastOp).Ok? {
      SettledRateIsZero(env, s, price);
      var rate := SignedSum(s.rate, FundingRate(env, s, price, s.lastOp).value);
      FundingFeeByValue(s, user, rate, s.rate);
      FundingBByValue(SignedSum(rate, t.rate.Neg()), SignedSum(rate, t.rate.Neg()));
      TraderFundingByValue(t, user, rate, rate);
      SettledFeeExists(s, user);
    }
  }

  lemma SettledFeeExists(s: State, user: Address)
    requires SettleAndSnapshot(s, user).Ok?
    ensures FundingFee(s, user).Ok? && LpBalance(s, user).Ok?
  {
    hide UpdateSnapshots, FundingFeeWith, LpBalance;
  }

  /** Refreshing a snapshot is neutral, exactly in integers: once the tick of this block is settled, settling one user,
      even when it rolls, migrates or retires epochs, changes no user's LP balance and no user's signed profit, on the
      curve or at spot; and no user's balance can then fail to be recovered. */
  lemma RefreshIsNeutral(calls: seq<Call>, env: Env, user: Address, other: Address, price: nat, spotFallback: bool)
    requires var s := Run(INITIAL_STATE, calls); s.lastOp == env.now && SettleAndSnapshot(s, user).Ok?
    ensures var s := Run(INITIAL_STATE, calls);
            var t := SettleAndSnapshot(s, user).value;
            && LpBalance(t, other) == LpBalance(s, other)
            && Agree(CalcPnlUserInternal(env, s, other, price, spotFallback),
                     CalcPnlUserInternal(env, t, other, price, spotFallback))
            && (t.Active(user) ==> t.Lp(user).snap.RawDet() > 0) && LpBalance(t, other).Ok?
  {
    hide Run, Inv, SettleAndSnapshot, LpBalance, CalcPnlUserInternal;
    EveryRunIsOk(calls);
    RefreshIsNeutralFrom(env, Run(INITIAL_STATE, calls), user, other, price, spotFallback);
  }

  lemma RefreshIsNeutralFrom(env: Env, s: State, user: Address, other: Address, price: nat, spotFallback: bool)
    requires Inv(s) && s.lastOp == env.now && SettleAndSnapshot(s, user).Ok?
    ensures var t := SettleAndSnapshot(s, user).value;
            && LpBalance(t, other) == LpBalance(s, other)
            && Agree(CalcPnlUserInternal(env, s, other, price, spotFallback),
                     CalcPnlUserInternal(env, t, other, price, spotFallback))
            && (t.Active(user) ==> t.Lp(user).snap.RawDet() > 0) && LpBalance(t, other).Ok?
  {
    hide Inv, SettleAndSnapshot, LpBalance, FundingAt, CalcPnlUserInternal;
    var t := SettleAndSnapshot(s, user).value;
    SettleFrame(s, user);
    if other == user {
      OwnBalanceKept(s, user);
      OwnFundingKept(env, s, user, price);
    } else {
      OthersUntouched(env, s, user, other, price);
    }
    PnlFrame(env, s, t, other, price, spotFallback);
    SettleKeepsInv(s, user);
    SnapshotIsOk(t, user);
    SnapshotIsOk(t, other);
    BalanceNeverFails(t, other);
  }

  // ----- Realising a profit -----

  /** Moving k out of the stable side lowers the profit by exactly k. */
  lemma PnlShift(env: Env, pool: Pool, bs: nat, ba: nat, ds: nat, da: nat, bs': nat, ds': nat, k: int, fee: Signed,
                 price: nat, useSpot: bool)
    requires bs' - ds' == bs - ds - k && CalcPnl(env, pool, bs, ba, ds, da, fee, price, useSpot).Ok?
    ensures var r := CalcPnl(env, pool, bs', ba, ds', da, fee, price, useSpot);
            r.Ok? && r.value.Val() == CalcPnl(env, pool, bs, ba, ds, da, fee, price, useSpot).value.Val() - k
  {
    hide AssetValue, SignedSum;
  }

  lemma TakePnlEffect(p: Position, pnl: Signed)
    ensures var q := TakePnl(p, pnl);
            && q.balanceStable - q.debtStable == p.balanceStable - p.debtStable - pnl.Val()
            && q == p.(balanceStable := q.balanceStable, debtStable := q.debtStable)
  {}

  /** Replacing the stable side of one position changes nothing else anyone reads. */
  lemma StableSideFrame(env: Env, s: State, user: Address, q: Position, other: Address, price: nat)
    requires var p := s.Pos(user); q == p.(balanceStable := q.balanceStable, debtStable := q.debtStable)
    ensures var t := s.SetPos(user, q);
            LpBalance(t, other) == LpBalance(s, other) && FundingAt(env, t, other, price)
                == FundingAt(env, s, other, price)
  {
    hide FundingRate, SignedSum, FundingB, RecoverLpBalance, RecoverFundingStar, TraderFunding, PendingG;
    var t := s.SetPos(user, q);
    RateFrame(env, s, t, price);
    forall rate: Signed ensures TraderFunding(t, other, rate) == TraderFunding(s, other, rate) {
      TraderFundingFrame(s, t, other, rate);
    }
  }

  lemma TakingPnlZeroesIt(env: Env, s: State, user: Address, price: nat, pnl: Signed)
    requires CalcPnlUser(env, s, user, price).Ok? && CalcPnlUser(env, s, user, price).value.Val() == pnl.Val()
    ensures var t := s.SetPos(user, TakePnl(s.Pos(user), pnl));
            CalcPnlUser(env, t, user, price).Ok? && CalcPnlUser(env, t, user, price).value.Val() == 0
  {
    hide LpBalance, FundingAt, CalcPnl, TakePnl;
    var p, lp := s.Pos(user), s.Lp(user);
    var q := TakePnl(p, pnl);
    var t := s.SetPos(user, q);
    TakePnlEffect(p, pnl);
    StableSideFrame(env, s, user, q, user, price);
    var balance, fee := LpBalance(s, user).value, FundingAt(env, s, user, price).value;
    PnlShift(env, s.pool, p.balanceStable + balance.0, p.balanceAsset + balance.1, p.debtStable + lp.debtStable,
             p.debtAsset + lp.debtAsset,
             q.balanceStable + balance.0, q.debtStable + lp.debtStable, pnl.Val(), fee, price, false);
  }

  lemma TickKeepsBalances(env: Env, s: State, price: nat, other: Address)
    requires UpdateFG(env, s, price).Ok?
    ensures var t := UpdateFG(env, s, price).value;
            t.lastOp == env.now && LpBalance(t, other) == LpBalance(s, other) && t.Pos(other) == s.Pos(other)
                && t.pool == s.pool
  {
    hide FundingRate, SignedSum, FundingB, AccrueAll, LpBalance;
    if s.lastOp != env.now {
      MatricesUnmoved(s, UpdateFG(env, s, price).value, other, FundingB(FundingRate(env, s, price, s.lastOp).value));
    }
  }

  /** Realising settles completely: in every reachable state, once it succeeds, the user's profit at the same price and
      block is exactly zero, whether trader, LP or both, while every LP balance and the user's asset position are what
      they were, and nobody else's profit has moved since the tick of this block was settled. */
  lemma RealizeSettlesCompletely(calls: seq<Call>, env: Env, user: Address, other: Address, price: nat, collateral: nat)
    requires RealizePnl(env, Run(INITIAL_STATE, calls), user, price, collateral).Ok?
    ensures var s := Run(INITIAL_STATE, calls);
            var t := RealizePnl(env, s, user, price, collateral).value.0;
            && CalcPnlUser(env, t, user, price).Ok? && CalcPnlUser(env, t, user, price).value.Val() == 0
            && LpBalance(t, other) == LpBalance(s, other)
            && t.Pos(user).balanceAsset == s.Pos(user).balanceAsset && t.Pos(user).debtAsset == s.Pos(user).debtAsset
            && (other != user ==> Agree(CalcPnlUser(env, UpdateFG(env, s, price).value, other, price),
                                        CalcPnlUser(env, t, other, price)))
  {
    hide Run, Inv, UpdateFG, CalcPnlUserInternal, SettleAndSnapshot, LpBalance, TakePnl, FundingAt;
    EveryRunIsOk(calls);
    var s := Run(INITIAL_STATE, calls);
    var funded := UpdateFG(env, s, price).value;
    FundingKeepsInv(env, s, price);
    TickKeepsBalances(env, s, price, other);
    TickKeepsBalances(env, s, price, user);
    var settled := SettleAndSnapshot(funded, user).value;
    RefreshIsNeutralFrom(env, funded, user, user, price, false);
    RefreshIsNeutralFrom(env, funded, user, other, price, false);
    SettleFrame(funded, user);
    var pnl := RealizePnl(env, s, user, price, collateral).value.1;
    var q := TakePnl(settled.Pos(user), pnl);
    TakePnlEffect(settled.Pos(user), pnl);
    StableSideFrame(env, settled, user, q, other, price);
    TakingPnlZeroesIt(env, settled, user, price, pnl);
    if other != user {
      AgreeSelf(FundingAt(env, settled, other, price));
      PnlFrame(env, settled, settled.SetPos(user, q), other, price, false);
    }
  }

  lemma AgreeSelf(r: Result<Signed>)
    ensures Agree(r, r)
  {}
}
