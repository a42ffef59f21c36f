/** Who pays whom: what every operation does to each account, where the ledger modules only follow the totals. */
module Accounts {
  import opened Arith
  import opened EngineState
  import opened EngineSpec
  import opened EngineOps
  import opened Ledger

  /** One account's net asset and net stable move by these amounts. */
  predicate Moves(p: Position, q: Position, asset: int, stable: int)
  {
    AssetNet(q) == AssetNet(p) + asset && StableNet(q) == StableNet(p) + stable
  }

  /** The funding fields of a position are left alone. */
  predicate SameFee(p: Position, q: Position)
  {
    q.fundingFee == p.fundingFee && q.initialFundingRate == p.initialFundingRate
  }

  /** Writing one position touches that account alone. */
  lemma WriteAccount(s: State, u: Address, p: Position, v: Address)
    ensures s.SetPos(u, p).Pos(v) == if v == u then p else s.Pos(v)
  {}

  lemma CreditAccount(s: State, u: Address, amount: nat, v: Address)
    ensures var r := CreditStable(s, u, amount);
            && r == s.(positions := r.positions) && SameFee(s.Pos(v), r.Pos(v))
            && (if v == u then Moves(s.Pos(v), r.Pos(v), 0, amount) else r.Pos(v) == s.Pos(v))
  {}

  // ----- Protocol fees -----

  /** What a fund of this value holds after a fee: filled up to the cap, never lowered, never lifted above it. */
  function Filled(fund: int, fee: nat, cap: nat): int
  {
    if fund >= cap then fund else if fund + fee <= cap then fund + fee else cap
  }

  /** What is left for the protocol address. */
  function Overflow(fund: int, fee: nat, cap: nat): int { fee - (Filled(fund, fee, cap) - fund) }

  /** A protocol fee fills the fund first; the protocol address gets the rest, and nobody else anything. */
  lemma ProtocolFeeAccounts(s: State, cap: nat, fee: nat, protocol: Address, v: Address)
    ensures var r := AssignProtocolFee(s, cap, fee, protocol);
            && r.insurance.Val() == Filled(s.insurance.Val(), fee, cap) && SameFee(s.Pos(v), r.Pos(v))
            && (if v == protocol then Moves(s.Pos(v), r.Pos(v), 0, Overflow(s.insurance.Val(), fee, cap))
                else r.Pos(v) == s.Pos(v))
  {
    hide CreditStable, Moves, SameFee, State.Pos;
    var i := s.insurance;
    assert Moves(s.Pos(v), s.Pos(v), 0, 0) && SameFee(s.Pos(v), s.Pos(v)) by { hide *; SamePosition(s.Pos(v)); }
    var rest := Overflow(i.Val(), fee, cap);
    assert rest >= 0;
    CreditAccount(s, protocol, rest, v);
    CreditAccount(s.(insurance := Signed(cap, true)), protocol, rest, v);
    SamePositions(s, s.(insurance := Signed(cap, true)), v);
    var r := AssignProtocolFee(s, cap, fee, protocol);
    if r.positions == s.positions { SamePositions(s, r, v); }
  }

  lemma SamePosition(p: Position)
    ensures Moves(p, p, 0, 0) && SameFee(p, p)
  {}

  lemma SamePositions(s: State, t: State, v: Address)
    requires t.positions == s.positions
    ensures t.Pos(v) == s.Pos(v)
  {}

  // ----- Liquidation transfers -----

  lemma LongSeller(p: Position, amount: nat, dy: nat)
    requires p.balanceAsset >= amount
    ensures var q := CreditStableViaDebt(p.(balanceAsset := p.balanceAsset - amount), dy);
            Moves(p, q, -(amount as int), dy) && SameFee(p, q)
  {}

  lemma LongBuyer(p: Position, amount: nat, dy: nat, share: nat)
    ensures var q := DebitStable(DebitStable(p.(balanceAsset := p.balanceAsset + amount), dy), share);
            Moves(p, q, amount, -(dy + share as int)) && SameFee(p, q)
  {}

  lemma ShortSeller(p: Position, amount: nat, dy: nat)
    ensures var q := CreditAssetViaDebt(DebitStable(p, dy), amount);
            Moves(p, q, amount, -(dy as int)) && SameFee(p, q)
  {}

  lemma ShortBuyer(p: Position, amount: nat, dy: nat, share: nat)
    ensures var q := DebitStable(DebitAsset(p.(balanceStable := p.balanceStable + dy), amount), share);
            Moves(p, q, -(amount as int), dy - share) && SameFee(p, q)
  {}

  /** What a transfer does to every account: the liquidated user gives `asset` for `stable`, the liquidator takes the
      other side and pays the insurance share, of which only what the fund cannot hold comes back to it. */
  predicate Transferred(s: State, r: State, user: Address, liquidator: Address, asset: int, stable: int, share: nat,
                        cap: nat)
  {
    && r == s.(insurance := r.insurance, positions := r.positions)
    && r.insurance.Val() == Filled(s.insurance.Val(), share, cap)
    && Moves(s.Pos(user), r.Pos(user), asset, stable) && SameFee(s.Pos(user), r.Pos(user))
    && Moves(s.Pos(liquidator), r.Pos(liquidator), -asset, -stable - share + Overflow(s.insurance.Val(), share, cap))
    && SameFee(s.Pos(liquidator), r.Pos(liquidator))
  }

  lemma TransferLongAccounts(env: Env, s: State, user: Address, liquidator: Address, amount: nat, dy: nat, share: nat,
                             v: Address)
    requires user != liquidator && TransferLong(env, s, user, liquidator, amount, dy, share).Ok?
    ensures var r := TransferLong(env, s, user, liquidator, amount, dy, share).value;
            && Transferred(s, r, user, liquidator, -(amount as int), dy, share, env.cfg.insuranceFundCap)
            && (v != user && v != liquidator ==> r.Pos(v) == s.Pos(v))
  {
    hide AssignProtocolFee, DebitStable, CreditStableViaDebt, Filled, Moves, SameFee;
    var p, l := s.Pos(user), s.Pos(liquidator);
    LongSeller(p, amount, dy);
    LongBuyer(l, amount, dy, share);
    var bought := l.(balanceAsset := l.balanceAsset + amount);
    var s5 := s.SetPos(user, p.(balanceAsset := p.balanceAsset - amount)).SetPos(liquidator, bought)
               .SetPos(liquidator, DebitStable(bought, dy))
               .SetPos(user, CreditStableViaDebt(p.(balanceAsset := p.balanceAsset - amount), dy))
               .SetPos(liquidator, DebitStable(DebitStable(bought, dy), share));
    PaidShare(s, s5, user, liquidator, share, env.cfg.insuranceFundCap, -(amount as int), dy, v);
  }

  /** Once both sides have moved, the share goes to the fund and its overflow back to the liquidator. */
  lemma PaidShare(s: State, t: State, user: Address, liquidator: Address, share: nat, cap: nat, asset: int, stable: int,
                  v: Address)
    requires user != liquidator && t == s.(positions := t.positions)
    requires Moves(s.Pos(user), t.Pos(user), asset, stable) && SameFee(s.Pos(user), t.Pos(user))
    requires Moves(s.Pos(liquidator), t.Pos(liquidator), -asset, -stable - share)
             && SameFee(s.Pos(liquidator), t.Pos(liquidator))
    requires v != user && v != liquidator ==> t.Pos(v) == s.Pos(v)
    ensures var r := AssignProtocolFee(t, cap, share, liquidator);
            && Transferred(s, r, user, liquidator, asset, stable, share, cap)
            && (v != user && v != liquidator ==> r.Pos(v) == s.Pos(v))
  {
    ProtocolFeeAccounts(t, cap, share, liquidator, user);
    ProtocolFeeAccounts(t, cap, share, liquidator, liquidator);
    ProtocolFeeAccounts(t, cap, share, liquidator, v);
    OnlyFundAndPositions(t, cap, share, liquidator);
    hide AssignProtocolFee, Filled, State.Pos;
  }

  lemma OnlyFundAndPositions(s: State, cap: nat, fee: nat, protocol: Address)
    ensures var r := AssignProtocolFee(s, cap, fee, protocol);
            r == s.(insurance := r.insurance, positions := r.positions)
  {}

  lemma TransferShortAccounts(env: Env, s: State, user: Address, liquidator: Address, amount: nat, dy: nat, share: nat,
                              v: Address)
    requires user != liquidator
    ensures var r := TransferShort(env, s, user, liquidator, amount, dy, share);
            && Transferred(s, r, user, liquidator, amount, -(dy as int), share, env.cfg.insuranceFundCap)
            && (v != user && v != liquidator ==> r.Pos(v) == s.Pos(v))
  {
    hide AssignProtocolFee, DebitStable, DebitAsset, CreditAssetViaDebt, Filled, Moves, SameFee;
    var p, l := s.Pos(user), s.Pos(liquidator);
    ShortSeller(p, amount, dy);
    ShortBuyer(l, amount, dy, share);
    var paid := l.(balanceStable := l.balanceStable + dy);
    var s5 := s.SetPos(user, DebitStable(p, dy)).SetPos(liquidator, paid).SetPos(liquidator, DebitAsset(paid, amount))
               .SetPos(user, CreditAssetViaDebt(DebitStable(p, dy), amount))
               .SetPos(liquidator, DebitStable(DebitAsset(paid, amount), share));
    PaidShare(s, s5, user, liquidator, share, env.cfg.insuranceFundCap, amount, -(dy as int), v);
  }

  // ----- At which price -----

  /** A curve answer so far from the price, per unit and in 1e8ths, that the engine takes spot instead. */
  predicate SlipsBeyond(answer: nat, amount: nat, price: nat, bound: nat)
    requires amount > 0 && price > 0
  {
    Md(DiffAbs(Md(answer, ORACLE_DECIMALS, amount), price), ORACLE_DECIMALS, price) > bound
  }

  /** The value a net long changes hands at: what selling it returns, or spot when that slips beyond the threshold. */
  predicate LongValue(env: Env, s: State, amount: nat, price: nat, value: nat)
  {
    && amount > 0 && price > 0
    && var answer := env.curve.short(amount, price, s.pool.stable, s.pool.stable, s.pool.asset);
    && answer.Ok?
    && value == if SlipsBeyond(answer.value, amount, price, env.cfg.slipLiquidationTh * s.window.avgSlippageS)
                then Md(amount, price, ORACLE_DECIMALS) else answer.value
  }

  /** The value a net short changes hands at: what buying it back costs; spot when the pool does not hold it, when that
      cost over spot would leave the user's loss above its collateral, or when it slips beyond the threshold. */
  predicate ShortValue(env: Env, s: State, user: Address, amount: nat, price: nat, collateral: nat, value: nat)
  {
    var spot := Md(amount, price, ORACLE_DECIMALS);
    if amount > s.pool.asset then value == spot
    else
      && amount > 0 && price > 0
      && var cost, profit := env.curve.exactInLong(amount, price, s.pool.stable, s.pool.stable, s.pool.asset),
                             CalcPnlUserInternal(env, s, user, price, true);
      && cost.Ok? && profit.Ok? && spot <= cost.value
      && value == if profit.value.Val() - (cost.value - spot) < -(collateral as int)
                     || SlipsBeyond(cost.value, amount, price, env.cfg.slipLiquidationTh * s.window.avgSlippageL)
                  then spot else cost.value
  }

  lemma LongValueIs(env: Env, s: State, amount: nat, price: nat)
    requires LongTransferValue(env, s, amount, price).Ok?
    ensures LongValue(env, s, amount, price, LongTransferValue(env, s, amount, price).value)
  {
    hide Md;
  }

  lemma ShortValueIs(env: Env, s: State, user: Address, amount: nat, price: nat, collateral: nat)
    requires ShortTransferValue(env, s, user, amount, price, collateral).Ok?
    ensures ShortValue(env, s, user, amount, price, collateral,
                       ShortTransferValue(env, s, user, amount, price, collateral).value)
  {
    hide Md, CalcPnlUserInternal;
  }

  /** `part` is whole * rate / 1e6, rounded down. */
  predicate IsPart(part: nat, whole: nat, rate: nat)
  {
    part * LIQUIDATION_DECIMALS <= whole * rate < part * LIQUIDATION_DECIMALS + LIQUIDATION_DECIMALS
  }

  lemma PartIs(whole: nat, rate: nat)
    ensures IsPart(Md(rate, whole, LIQUIDATION_DECIMALS), whole, rate)
  {
    DivMod(rate * whole, LIQUIDATION_DECIMALS);
  }

  /** A liquidation transfer, account by account. On a long the user hands over exactly the amount for `dy`, the value
      less the discount, and on a short it is relieved of exactly the amount for the value plus the discount; the
      liquidator takes the other side, so it never does worse than the value but for the share it pays the insurance
      fund; and nobody else's account moves. */
  lemma LiquidatePositionAccounts(env: Env, s: State, amount: nat, user: Address, discount: nat, direction: bool,
                                  liquidator: Address, price: nat, collateral: nat, v: Address)
    returns (value: nat, dy: nat, share: nat)
    requires user != liquidator
    requires LiquidatePosition(env, s, amount, user, discount, direction, liquidator, price, collateral).Ok?
    ensures env.cfg.insFundFraction > 0 && IsPart(share, value, discount / env.cfg.insFundFraction)
    ensures if direction then discount <= LIQUIDATION_DECIMALS && LongValue(env, s, amount, price, value)
            else ShortValue(env, s, user, amount, price, collateral, value)
    ensures IsPart(dy, value, if direction then LIQUIDATION_DECIMALS - discount else LIQUIDATION_DECIMALS + discount)
    ensures var r := LiquidatePosition(env, s, amount, user, discount, direction, liquidator, price, collateral).value;
            && Transferred(s, r, user, liquidator, if direction then -(amount as int) else amount,
                           if direction then dy else -(dy as int), share, env.cfg.insuranceFundCap)
            && (v != user && v != liquidator ==> r.Pos(v) == s.Pos(v))
  {
    hide TransferLong, TransferShort, LongTransferValue, ShortTransferValue, Md, Transferred, IsPart, LongValue,
         ShortValue;
    var part := DivR(discount, env.cfg.insFundFraction).value;
    if direction {
      LongValueIs(env, s, amount, price);
      value := LongTransferValue(env, s, amount, price).value;
      var keep := LIQUIDATION_DECIMALS - discount;
      dy, share := Md(keep, value, LIQUIDATION_DECIMALS), Md(part, value, LIQUIDATION_DECIMALS);
      PartIs(value, keep);
      TransferLongAccounts(env, s, user, liquidator, amount, dy, share, v);
    } else {
      ShortValueIs(env, s, user, amount, price, collateral);
      value := ShortTransferValue(env, s, user, amount, price, collateral).value;
      var keep := LIQUIDATION_DECIMALS + discount;
      dy, share := Md(keep, value, LIQUIDATION_DECIMALS), Md(part, value, LIQUIDATION_DECIMALS);
      PartIs(value, keep);
      TransferShortAccounts(env, s, user, liquidator, amount, dy, share, v);
    }
    PartIs(value, part);
  }

  // ----- Deposits and withdrawals -----

  /** A user's asset and stable outside the pool, trader and LP debts together, move by these amounts. */
  predicate OutsideMoves(s: State, t: State, u: Address, asset: int, stable: int)
  {
    && AssetNet(t.Pos(u)) - t.Lp(u).debtAsset == AssetNet(s.Pos(u)) - s.Lp(u).debtAsset + asset
    && StableNet(t.Pos(u)) - t.Lp(u).debtStable == StableNet(s.Pos(u)) - s.Lp(u).debtStable + stable
  }

  predicate SameAverages(v: Window, w: Window) { v.avgSlippageL == w.avgSlippageL && v.avgSlippageS == w.avgSlippageS }

  /** Nothing a user holds or owes outside the pool has moved. */
  predicate SameOutside(s: State, t: State, u: Address)
  {
    && Moves(s.Pos(u), t.Pos(u), 0, 0) && t.Lp(u).debtAsset == s.Lp(u).debtAsset
    && t.Lp(u).debtStable == s.Lp(u).debtStable
  }

  lemma SameOutsideChains(s: State, t: State, r: State, u: Address, asset: int, stable: int)
    requires SameOutside(s, t, u)
    ensures OutsideMoves(t, r, u, asset, stable) ==> OutsideMoves(s, r, u, asset, stable)
    ensures SameOutside(t, r, u) ==> SameOutside(s, r, u)
  {
    hide State.Pos, State.Lp, AssetNet, StableNet;
  }

  lemma OutsideChains(s: State, t: State, r: State, u: Address, asset: int, stable: int)
    requires OutsideMoves(s, t, u, asset, stable) && SameOutside(t, r, u)
    ensures OutsideMoves(s, r, u, asset, stable)
  {
    hide State.Pos, State.Lp, AssetNet, StableNet;
  }

  lemma SameRecords(s: State, t: State, u: Address)
    requires t.positions == s.positions && t.lps == s.lps
    ensures SameOutside(s, t, u) && t.Pos(u) == s.Pos(u) && t.Lp(u) == s.Lp(u)
  {}

  lemma TickOutside(env: Env, s: State, price: nat, u: Address)
    requires UpdateFG(env, s, price).Ok?
    ensures var t := UpdateFG(env, s, price).value;
            && SameOutside(s, t, u) && t.pool == s.pool && t.insurance == s.insurance && t.positions == s.positions
            && t.lps == s.lps && t.exposure == s.exposure && t.window == s.window
  {
    hide FundingRate, FundingB, AccrueAll, SignedSum;
  }

  /** Writing a position with the same nets moves nobody. */
  lemma WriteOutside(s: State, user: Address, p: Position, u: Address)
    requires Moves(s.Pos(user), p, 0, 0)
    ensures SameOutside(s, s.SetPos(user, p), u)
  {
    hide Moves;
    WriteAccount(s, user, p, u);
    if u != user { SamePosition(s.Pos(u)); }
    assert s.SetPos(user, p).Lp(u) == s.Lp(u);
  }

  lemma FeeFields(p: Position, fee: Signed, rate: Signed)
    ensures Moves(p, p.(fundingFee := fee), 0, 0) && Moves(p, p.(initialFundingRate := rate), 0, 0)
  {}

  lemma CreditOutside(s: State, user: Address, fee: Signed, u: Address)
    ensures var t := CreditFunding(s, user, fee);
            SameOutside(s, t, u) && t == s.(positions := t.positions) && (u != user ==> t.Pos(u) == s.Pos(u))
  {
    hide SignedSum, SameOutside, Moves;
    var p := s.Pos(user);
    FeeFields(p, SignedSum(p.fundingFee, fee), s.rate);
    WriteOutside(s, user, p.(fundingFee := SignedSum(p.fundingFee, fee)), u);
  }

  lemma StampOutside(s: State, user: Address, u: Address)
    ensures var t := StampRate(s, user);
            SameOutside(s, t, u) && t == s.(positions := t.positions) && (u != user ==> t.Pos(u) == s.Pos(u))
  {
    hide SameOutside, Moves;
    var p := s.Pos(user);
    FeeFields(p, p.fundingFee, s.rate);
    WriteOutside(s, user, p.(initialFundingRate := s.rate), u);
  }

  /** Replacing a record without its debts moves nobody. */
  lemma RecordOutside(s: State, t: State, user: Address, l: LpPosition, u: Address)
    requires t.positions == s.positions && t.lps == s.lps[user := l]
    requires l.debtAsset == s.Lp(user).debtAsset && l.debtStable == s.Lp(user).debtStable
    ensures SameOutside(s, t, u) && t.Pos(u) == s.Pos(u)
  {
    assert t.Lp(u) == if u == user then l else s.Lp(u);
    assert t.Pos(u) == s.Pos(u);
    hide State.Pos, State.Lp;
    SamePosition(s.Pos(u));
  }

  lemma SnapshotRecord(s: State, user: Address, stable: nat, asset: nat)
    requires UpdateSnapshots(s, user, stable, asset).Ok?
    ensures var t, u := UpdateSnapshots(s, user, stable, asset).value, StampRate(s, user);
            && t == u.(ep := t.ep, lps := t.lps, lpEpoch := t.lpEpoch) && t.lps == u.lps[user := t.Lp(user)]
            && t.Lp(user).debtStable == s.Lp(user).debtStable && t.Lp(user).debtAsset == s.Lp(user).debtAsset
  {
    hide Retire, Roll, MoveReference, DecrementLpCount;
  }

  lemma SnapshotOutside(s: State, user: Address, stable: nat, asset: nat, u: Address)
    requires UpdateSnapshots(s, user, stable, asset).Ok?
    ensures var t := UpdateSnapshots(s, user, stable, asset).value;
            && SameOutside(s, t, u) && t.pool == s.pool && t.insurance == s.insurance && t.exposure == s.exposure
            && t.window == s.window && (u != user ==> t.Pos(u) == s.Pos(u))
  {
    hide UpdateSnapshots, StampRate, SameOutside;
    SnapshotRecord(s, user, stable, asset);
    StampOutside(s, user, u);
    var t, stamped := UpdateSnapshots(s, user, stable, asset).value, StampRate(s, user);
    RecordOutside(stamped, t, user, t.Lp(user), u);
    SameOutsideChains(s, stamped, t, u, 0, 0);
  }

  lemma ShareOutside(s: State, fee: nat, price: nat, u: Address)
    ensures var t := DistributeFee(s, fee, price);
            && t == s.(pool := t.pool, ep := t.ep) && SameOutside(s, t, u) && t.Pos(u) == s.Pos(u)
            && t.pool == Pool(s.pool.stable + (if TwoSided(s.pool) then fee else 0), s.pool.asset)
  {
    hide Md, ApplyMatrixUpdate;
  }

  /** Repaying debts out of a withdrawal and crediting the rest: debts and credits together are the withdrawal. */
  lemma RepaidNets(p: Position, lp: LpPosition, stable: nat, asset: nat, owed: nat)
    ensures var (rs, ds) := ReduceValue(stable, lp.debtStable);
            var (ra, da) := ReduceValue(asset, lp.debtAsset);
            var q := p.(debtStable := p.debtStable + owed, balanceStable := p.balanceStable + rs,
                        balanceAsset := p.balanceAsset + ra);
            && AssetNet(q) - da == AssetNet(p) - lp.debtAsset + asset
            && StableNet(q) - ds == StableNet(p) - lp.debtStable + stable - owed
  {}

  lemma CreditedAccount(s: State, user: Address, stable: nat, asset: nat, owed: nat, u: Address)
    ensures var t := CreditWithdrawal(s, user, stable, asset, owed);
            && t.pool == s.pool && t.insurance == s.insurance && t.window == s.window
            && (if u == user then OutsideMoves(s, t, u, asset, stable - owed)
                else t.Pos(u) == s.Pos(u) && SameOutside(s, t, u))
  {
    hide RaiseExposure, ReduceValue;
    var t := CreditWithdrawal(s, user, stable, asset, owed);
    RepaidNets(s.Pos(user), s.Lp(user), stable, asset, owed);
    if u != user {
      assert t.Lp(u) == s.Lp(u) && t.Pos(u) == s.Pos(u);
      hide State.Pos, State.Lp;
      SamePosition(s.Pos(u));
    }
  }

  /** A withdrawal, account by account: the LP's holdings outside the pool rise by exactly what it takes less its fee,
      the pool falls by what is taken and keeps the fee when two-sided, and nobody else's account moves. */
  lemma WithdrawalAccounts(env: Env, s: State, stable: nat, asset: nat, user: Address, price: nat, maxFee: nat,
                           v: Address)
    requires RemoveLiquidityCore(env, s, stable, asset, user, price, maxFee).Ok?
    ensures stable <= s.pool.stable && asset <= s.pool.asset
    ensures var r, fee := RemoveLiquidityCore(env, s, stable, asset, user, price, maxFee).value.0,
                          RemoveLiquidityCore(env, s, stable, asset, user, price, maxFee).value.1;
            var rest := Pool(s.pool.stable - stable, s.pool.asset - asset);
            && r.pool == Pool(rest.stable + (if TwoSided(rest) then fee else 0), rest.asset)
               && r.insurance == s.insurance
            && SameAverages(s.window, r.window)
            && (maxFee != 0 ==> fee <= maxFee)
            && (if v == user then OutsideMoves(s, r, v, asset, stable - fee)
                else r.Pos(v) == s.Pos(v) && SameOutside(s, r, v))
  {
    hide LpBalance, UpdateFG, FundingFee, CreditFunding, UpdateSnapshots, TakeFromPool, OutsideMoves, SameOutside;
    var balance, s1 := LpBalance(s, user).value, UpdateFG(env, s, price).value;
    TickOutside(env, s, price, v);
    var owes := FundingFee(s1, user).value;
    var s2 := CreditFunding(s1, user, owes);
    CreditOutside(s1, user, owes, v);
    SnapshotOutside(s2, user, balance.0 - stable, balance.1 - asset, v);
    var s3 := UpdateSnapshots(s2, user, balance.0 - stable, balance.1 - asset).value;
    TakingAccounts(env, s3, stable, asset, user, price, maxFee, v);
    var r := TakeFromPool(env, s3, stable, asset, user, price, maxFee).value;
    SameOutsideChains(s, s1, s2, v, 0, 0);
    SameOutsideChains(s, s2, s3, v, 0, 0);
    SameOutsideChains(s, s3, r.0, v, asset, stable - r.1);
    SamePositions(s, s1, v);
  }

  lemma TakingAccounts(env: Env, s: State, stable: nat, asset: nat, user: Address, price: nat, maxFee: nat, v: Address)
    requires TakeFromPool(env, s, stable, asset, user, price, maxFee).Ok?
    ensures stable <= s.pool.stable && asset <= s.pool.asset
    ensures var r := TakeFromPool(env, s, stable, asset, user, price, maxFee).value;
            var rest := Pool(s.pool.stable - stable, s.pool.asset - asset);
            && r.0.pool == Pool(rest.stable + (if TwoSided(rest) then r.1 else 0), rest.asset)
            && r.0.insurance == s.insurance && (maxFee != 0 ==> r.1 <= maxFee) && SameAverages(s.window, r.0.window)
            && (if v == user then OutsideMoves(s, r.0, v, asset, stable - r.1)
                else r.0.Pos(v) == s.Pos(v) && SameOutside(s, r.0, v))
  {
    hide RemovalFee, Md, DistributeFee, CreditWithdrawal, TwoSided, OutsideMoves, SameOutside, State.Pos, State.Lp;
    var pulled := s.(pool := Pool(s.pool.stable - stable, s.pool.asset - asset));
    var fee := TakeFromPool(env, s, stable, asset, user, price, maxFee).value.1;
    SameRecords(s, pulled, v);
    ShareOutside(pulled, fee, price, v);
    var shared := DistributeFee(pulled, fee, price);
    var (left, owed) := TakeFee(stable, fee);
    CreditedAccount(shared, user, left, asset, owed, v);
    var paid := CreditWithdrawal(shared, user, left, asset, owed);
    var r := ResetWindow(env, paid, price);
    SameRecords(paid, r, v);
    SameOutsideChains(s, pulled, shared, v, 0, 0);
    if v == user {
      assert left - owed == stable - fee;
      SameOutsideChains(s, shared, paid, v, asset, stable - fee);
      OutsideChains(s, paid, r, v, asset, stable - fee);
    } else {
      SameOutsideChains(s, shared, paid, v, 0, 0);
      SameOutsideChains(s, paid, r, v, 0, 0);
    }
  }

  /** LP debt taken on, and nothing else outside the pool. */
  predicate Indebted(s: State, t: State, u: Address, asset: int, stable: int)
  {
    && Moves(s.Pos(u), t.Pos(u), 0, 0) && t.Lp(u).debtAsset == s.Lp(u).debtAsset + asset
    && t.Lp(u).debtStable == s.Lp(u).debtStable + stable
  }

  lemma IndebtedBetween(s: State, t: State, r: State, w: State, u: Address, asset: int, stable: int)
    requires SameOutside(s, t, u) && Indebted(t, r, u, asset, stable) && SameOutside(r, w, u)
    ensures Indebted(s, w, u, asset, stable)
  {
    hide State.Pos, State.Lp, AssetNet, StableNet;
  }

  lemma TakesOnDebt(s: State, user: Address, stable: nat, asset: nat, v: Address)
    ensures var lp := s.Lp(user);
            var t := s.SetLp(user, lp.(debtStable := lp.debtStable + stable, debtAsset := lp.debtAsset + asset));
            Indebted(s, t, v, if v == user then asset else 0, if v == user then stable else 0)
  {}

  /** A deposit, account by account: the depositor takes on debt for exactly what it puts in, plus the part of its fee
      the stable it puts in does not cover; its positions and everybody else's accounts do not move. */
  lemma DepositAccounts(env: Env, s: State, stable: nat, asset: nat, fee: nat, price: nat, user: Address, v: Address)
    requires AddLiquidityCore(env, s, stable, asset, fee, price, user).Ok?
    ensures var r := AddLiquidityCore(env, s, stable, asset, fee, price, user).value;
            && r.insurance == s.insurance
            && Indebted(s, r, v, if v == user then asset else 0,
                        if v == user then if fee > stable then fee else stable else 0)
  {
    hide LpBalance, UpdateFG, FundingRate, FundingFeeWith, CreditFunding, DistributeFee, RejoinPool, SignedSum,
         SameOutside, Indebted, State.Pos;
    var owes := FundingFeeWith(s, user, SignedSum(s.rate, FundingRate(env, s, price, s.lastOp).value)).value;
    var s1 := CreditFunding(s, user, owes);
    CreditOutside(s, user, owes, v);
    TickOutside(env, s1, price, v);
    var s2 := UpdateFG(env, s1, price).value;
    SameOutsideChains(s, s1, s2, v, 0, 0);
    var (left, owed) := TakeFee(stable, fee);
    assert stable + owed == if fee > stable then fee else stable;
    TakesOnDebt(s2, user, stable + owed, asset, v);
    var lp := s2.Lp(user);
    var s3 := s2.SetLp(user, lp.(debtStable := lp.debtStable + stable + owed, debtAsset := lp.debtAsset + asset));
    ShareOutside(s3, fee, price, v);
    var s4 := DistributeFee(s3, fee, price);
    RejoinOutside(s4, user, left, asset, v);
    var r := RejoinPool(s4, user, left, asset).value;
    SameOutsideChains(s3, s4, r, v, 0, 0);
    IndebtedBetween(s, s2, s3, r, v, if v == user then asset else 0, if v == user then stable + owed else 0);
  }

  lemma RejoinOutside(s: State, user: Address, stable: nat, asset: nat, v: Address)
    requires RejoinPool(s, user, stable, asset).Ok?
    ensures var r := RejoinPool(s, user, stable, asset).value; SameOutside(s, r, v) && r.insurance == s.insurance
  {
    hide LpBalance, UpdateSnapshots, SameOutside, State.Pos, State.Lp;
    var held := LpBalance(s, user).value;
    BalanceWithinPool(s, user);
    var stableLeft := if s.pool != Pool(0, 0) then s.pool.stable - held.0 else 0;
    var assetLeft := if s.pool != Pool(0, 0) then s.pool.asset - held.1 else 0;
    var grown := s.(pool := Pool(stableLeft + (stable + held.0), assetLeft + (asset + held.1)));
    SameRecords(s, grown, v);
    SnapshotOutside(grown, user, stable + held.0, asset + held.1, v);
    SameOutsideChains(s, grown, UpdateSnapshots(grown, user, stable + held.0, asset + held.1).value, v, 0, 0);
  }
}
