/** The engine's storage as an object, and its operations as the methods that write it. Every method is proved against
    the function of EngineSpec or EngineOps that says what the operation does to the storage value. */
module Engine {
  import opened Arith
  import opened EngineState
  import opened EngineSpec
  import opened EngineOps

  /** The matrix update done on the window's epochs below `bound`. */
  function UpdatedBelow(e: Epochs, bound: nat, aX: int, aY: int, kind: UpdateKind): Epochs
  {
    e.(slots := map id | id in e.slots ::
      if e.oldest <= id < bound && e.Live(id) then e.slots[id].(m := StepMatrix(e.slots[id].m, aX, aY, kind))
          else e.slots[id])
  }

  /** The funding accrual done on the window's epochs below `bound`. */
  function AccruedBelow(e: Epochs, bound: nat, b: int): Epochs
  {
    e.(slots := map id | id in e.slots ::
      if e.oldest <= id < bound && e.Live(id) then AccrueEpoch(e.slots[id], b) else e.slots[id])
  }

  /** One more epoch of the matrix fan-out. */
  lemma UpdateNext(e: Epochs, id: nat, aX: int, aY: int, kind: UpdateKind)
    requires e.oldest <= id
    ensures var done := UpdatedBelow(e, id, aX, aY, kind);
            && done.At(id) == e.At(id) && done.current == e.current && done.oldest == e.oldest
            && UpdatedBelow(e, id + 1, aX, aY, kind)
               == (if e.Live(id) then done.Put(id, e.At(id).(m := StepMatrix(e.At(id).m, aX, aY, kind))) else done)
  {
    hide StepMatrix;
    var done, next := UpdatedBelow(e, id, aX, aY, kind), UpdatedBelow(e, id + 1, aX, aY, kind);
    if e.Live(id) {
      assert next.slots == done.slots[id := e.At(id).(m := StepMatrix(e.At(id).m, aX, aY, kind))];
    } else {
      assert next.slots == done.slots;
    }
  }

  lemma UpdateStart(e: Epochs, aX: int, aY: int, kind: UpdateKind)
    ensures UpdatedBelow(e, e.oldest, aX, aY, kind) == e
    ensures UpdatedBelow(e, Max(e.oldest, e.current + 1), aX, aY, kind) == ApplyMatrixUpdate(e, aX, aY, kind)
  {
    hide StepMatrix;
    assert UpdatedBelow(e, e.oldest, aX, aY, kind).slots == e.slots;
    assert UpdatedBelow(e, Max(e.oldest, e.current + 1), aX, aY, kind).slots
        == ApplyMatrixUpdate(e, aX, aY, kind).slots;
  }

  /** One more epoch of the funding fan-out. */
  lemma AccrueNext(e: Epochs, id: nat, b: int)
    requires e.oldest <= id
    ensures var done := AccruedBelow(e, id, b);
            && done.At(id) == e.At(id) && done.current == e.current && done.oldest == e.oldest
            && AccruedBelow(e, id + 1, b) == (if e.Live(id) then done.Put(id, AccrueEpoch(e.At(id), b)) else done)
  {
    hide AccrueEpoch;
    var done, next := AccruedBelow(e, id, b), AccruedBelow(e, id + 1, b);
    if e.Live(id) {
      assert next.slots == done.slots[id := AccrueEpoch(e.At(id), b)];
    } else {
      assert next.slots == done.slots;
    }
  }

  lemma AccrueStart(e: Epochs, b: int)
    ensures AccruedBelow(e, e.oldest, b) == e
    ensures AccruedBelow(e, Max(e.oldest, e.current + 1), b) == AccrueAll(e, b)
  {
    hide AccrueEpoch;
    assert AccruedBelow(e, e.oldest, b).slots == e.slots;
    assert AccruedBelow(e, Max(e.oldest, e.current + 1), b).slots == AccrueAll(e, b).slots;
  }

  lemma DecrementKeepsCurrent(e: Epochs, id: nat)
    ensures DecrementLpCount(e, id).Ok? ==> DecrementLpCount(e, id).value.current == e.current
  {}

  lemma WritesCollapse<K, V>(m: map<K, V>, k: K, v: V, w: V)
    ensures m[k := v][k := w] == m[k := w]
  {}

  /** A quote depends on the pool, the block of the last operation and the window it is given, and on nothing else. */
  lemma QuoteReadsPool(env: Env, s: State, r: State, t: TradeArgs, w: Window)
    requires r.pool == s.pool && r.lastOp == s.lastOp
    ensures LongQuote(env, r, t, w) == LongQuote(env, s, t, w) && ShortQuote(env, r, t, w) == ShortQuote(env, s, t, w)
  {
    hide Md, MdR, TradeFee, LongGuess, ShortGuess, LongInput, CalcEma, FrontendPart;
  }

  class PerpEngine {
    var globalLiquidityStable: nat
    var globalLiquidityAsset: nat
    var fundingRate: Signed
    var lastOperationTimestamp: nat
    var totalTraderExposure: Signed
    var insuranceFund: Signed

    var lastCurveUpdate: nat
    var lastTradeDirection: bool
    var lastValidatedPrice: nat
    var dx0: nat
    var dy0: nat
    var avgSlippageL: nat
    var avgSlippageS: nat

    var liquidityEpochs: map<nat, Epoch>
    var currentLiquidityEpoch: nat
    var oldestActiveLiquidityEpoch: nat

    var liquidityPosition: map<Address, LpPosition>
    var liquidityPositionEpoch: map<Address, nat>
    var traderPosition: map<Address, Position>

    // ----- The abstract value -----

    function CurrentWindow(): Window
      reads this
    {
      Window(lastCurveUpdate, lastTradeDirection, lastValidatedPrice, dx0, dy0, avgSlippageL, avgSlippageS)
    }

    function EpochTable(): Epochs
      reads this
    {
      Epochs(liquidityEpochs, currentLiquidityEpoch, oldestActiveLiquidityEpoch)
    }

    /** The whole storage as one value. */
    function Model(): State
      reads this
    {
      State(Pool(globalLiquidityStable, globalLiquidityAsset), fundingRate, lastOperationTimestamp, totalTraderExposure,
            CurrentWindow(),
            insuranceFund, EpochTable(), liquidityPosition, liquidityPositionEpoch, traderPosition)
    }

    constructor ()
      ensures Model() == INITIAL_STATE
    {
      globalLiquidityStable, globalLiquidityAsset := 0, 0;
      fundingRate, lastOperationTimestamp, totalTraderExposure := ZERO_SIGNED, 0, ZERO_SIGNED;
      insuranceFund := Signed(0, true);
      lastCurveUpdate, lastTradeDirection, lastValidatedPrice, dx0, dy0, avgSlippageL, avgSlippageS := 0, false, 0, 0,
          0, 0, 0;
      liquidityEpochs, currentLiquidityEpoch, oldestActiveLiquidityEpoch := map[0 := Epoch(IDENTITY, 0, 0, 0)], 0, 0;
      liquidityPosition, liquidityPositionEpoch, traderPosition := map[], map[], map[];
    }

    method SetAnchors(x: nat, y: nat)
      modifies `dx0, `dy0
      ensures dx0 == x && dy0 == y
      ensures CurrentWindow() == old(CurrentWindow()).(dx0 := x, dy0 := y)
    {
      dx0, dy0 := x, y;
    }

    method SetWindow(w: Window)
      modifies `lastCurveUpdate, `lastTradeDirection, `lastValidatedPrice, `dx0, `dy0, `avgSlippageL, `avgSlippageS
      ensures CurrentWindow() == w
    {
      hide Model;
      lastCurveUpdate, lastTradeDirection, lastValidatedPrice := w.lastUpdate, w.lastDirection, w.lastPrice;
      dx0, dy0, avgSlippageL, avgSlippageS := w.dx0, w.dy0, w.avgSlippageL, w.avgSlippageS;
    }

    method RestoreScalars(s: State)
      modifies `globalLiquidityStable, `globalLiquidityAsset, `fundingRate, `lastOperationTimestamp,
               `totalTraderExposure, `insuranceFund
      ensures Pool(globalLiquidityStable, globalLiquidityAsset) == s.pool && fundingRate == s.rate
              && lastOperationTimestamp == s.lastOp
      ensures totalTraderExposure == s.exposure && insuranceFund == s.insurance
    {
      hide Model, CurrentWindow, EpochTable;
      globalLiquidityStable, globalLiquidityAsset := s.pool.stable, s.pool.asset;
      fundingRate, lastOperationTimestamp, totalTraderExposure, insuranceFund := s.rate, s.lastOp, s.exposure,
          s.insurance;
    }

    method RestoreTables(s: State)
      modifies `liquidityEpochs, `currentLiquidityEpoch, `oldestActiveLiquidityEpoch, `liquidityPosition,
               `liquidityPositionEpoch, `traderPosition
      ensures EpochTable() == s.ep && liquidityPosition == s.lps && liquidityPositionEpoch == s.lpEpoch
              && traderPosition == s.positions
    {
      hide Model, CurrentWindow;
      liquidityEpochs, currentLiquidityEpoch, oldestActiveLiquidityEpoch := s.ep.slots, s.ep.current, s.ep.oldest;
      liquidityPosition, liquidityPositionEpoch, traderPosition := s.lps, s.lpEpoch, s.positions;
    }

    /** Undo a reverted call. */
    method Restore(s: State)
      modifies this
      ensures Model() == s
    {
      RestoreScalars(s);
      RestoreTables(s);
      SetWindow(s.window);
    }

    method SetPosition(user: Address, p: Position)
      modifies this`traderPosition
      ensures Model() == old(Model()).SetPos(user, p)
    {
      traderPosition := traderPosition[user := p];
    }

    method SetEpoch(id: nat, e: Epoch)
      modifies this`liquidityEpochs
      ensures Model() == old(Model()).(ep := old(EpochTable()).Put(id, e))
    {
      liquidityEpochs := liquidityEpochs[id := e];
    }

    // ----- Epochs -----

    method InitializeLiquidityEpoch(id: nat)
      modifies this
      ensures Model() == old(Model()).(ep := InitializeEpoch(old(EpochTable()), id))
    {
      SetEpoch(id, EpochTable().At(id).(m := IDENTITY, g0 := 0, g1 := 0));
    }

    method IncrementActiveLpCount(id: nat)
      modifies this
      ensures Model() == old(Model()).(ep := IncrementLpCount(old(EpochTable()), id))
    {
      var e := EpochTable().At(id);
      SetEpoch(id, e.(lpCount := e.lpCount + 1));
    }

    method DecrementActiveLpCount(id: nat) returns (r: Result<()>)
      modifies this
      ensures r.Err? ==> DecrementLpCount(old(EpochTable()), id) == Err(r.code)
      ensures r.Ok? ==> DecrementLpCount(old(EpochTable()), id).Ok?
                        && Model() == old(Model()).(ep := DecrementLpCount(old(EpochTable()), id).value)
    {
      var e := EpochTable().At(id);
      var count :- SubR(e.lpCount, 1);
      SetEpoch(id, e.(lpCount := count));
      r := Ok(());
    }

    /** Advance the oldest pointer past drained or uninitialised epochs, freeing the drained ones. */
    method RetireInactiveLiquidityEpochs()
      modifies this
      ensures Model() == old(Model()).(ep := Retire(old(EpochTable())))
    {
      while oldestActiveLiquidityEpoch < currentLiquidityEpoch
        invariant Model() == old(Model()).(ep := EpochTable())
        invariant currentLiquidityEpoch == old(currentLiquidityEpoch)
        invariant Retire(EpochTable()) == Retire(old(EpochTable()))
        decreases currentLiquidityEpoch - oldestActiveLiquidityEpoch
      {
        var oldest := EpochTable().At(oldestActiveLiquidityEpoch);
        if oldest.m.m00 != 0 && oldest.lpCount != 0 {
          return;
        }
        if oldest.m.m00 != 0 {
          SetEpoch(oldestActiveLiquidityEpoch, EMPTY_EPOCH);
        }
        oldestActiveLiquidityEpoch := oldestActiveLiquidityEpoch + 1;
      }
    }

    method RollLiquidityEpochIfNeeded() returns (r: Result<()>)
      modifies this
      ensures r.Err? ==> Roll(old(EpochTable())) == Err(r.code)
      ensures r.Ok? ==> Roll(old(EpochTable())).Ok? && Model() == old(Model()).(ep := Roll(old(EpochTable())).value)
    {
      hide Retire;
      var previous := currentLiquidityEpoch;
      var determinant :- EpochDeterminant(EpochTable().At(previous));
      if determinant > DET_THRESHOLD {
        return Ok(());
      }
      var activeWindow: int := previous + 1 - oldestActiveLiquidityEpoch;
      if EpochTable().At(previous).lpCount == 0 {
        activeWindow := activeWindow - 1;
      }
      if activeWindow >= MAX_ACTIVE_EPOCHS {
        return Err("LECAP");
      }
      currentLiquidityEpoch := previous + 1;
      InitializeLiquidityEpoch(currentLiquidityEpoch);
      RetireInactiveLiquidityEpochs();
      r := Ok(());
    }

    /** Re-baseline an LP's funding row against its own epoch. */
    method RefreshLpFundingSnapshot(user: Address)
      modifies this
      ensures Model() == RefreshFundingSnapshot(old(Model()), user)
    {
      if !Model().Active(user) {
        return;
      }
      var e := EpochTable().At(Model().EpochOf(user));
      liquidityPosition := liquidityPosition[user := Model().Lp(user).(g0 := e.g0, g1 := e.g1)];
    }

    /** Fan a trade or a fee out over every live epoch of the window. */
    method ApplyLiquidityMatrixUpdate(aX: int, aY: int, kind: UpdateKind)
      modifies this
      ensures Model() == old(Model()).(ep := ApplyMatrixUpdate(old(EpochTable()), aX, aY, kind))
    {
      hide StepMatrix, UpdatedBelow, ApplyMatrixUpdate;
      ghost var before := EpochTable();
      UpdateStart(before, aX, aY, kind);
      var id := oldestActiveLiquidityEpoch;
      while id <= currentLiquidityEpoch
        invariant before.oldest <= id <= Max(before.oldest, before.current + 1)
        invariant currentLiquidityEpoch == before.current
        invariant Model() == old(Model()).(ep := UpdatedBelow(before, id, aX, aY, kind))
        decreases currentLiquidityEpoch + 1 - id
      {
        UpdateNext(before, id, aX, aY, kind);
        var e := EpochTable().At(id);
        if !(e.m.m00 == 0 || (id != currentLiquidityEpoch && e.lpCount == 0)) {
          SetEpoch(id, e.(m := StepMatrix(e.m, aX, aY, kind)));
        }
        id := id + 1;
      }
    }

    // ----- Funding -----

    method AccrueFundingRow(b: int)
      modifies this
      ensures Model() == old(Model()).(ep := AccrueAll(old(EpochTable()), b))
    {
      hide PendingG, AccruedBelow, AccrueAll;
      ghost var before := EpochTable();
      AccrueStart(before, b);
      var id := oldestActiveLiquidityEpoch;
      while id <= currentLiquidityEpoch
        invariant before.oldest <= id <= Max(before.oldest, before.current + 1)
        invariant currentLiquidityEpoch == before.current
        invariant Model() == old(Model()).(ep := AccruedBelow(before, id, b))
        decreases currentLiquidityEpoch + 1 - id
      {
        AccrueNext(before, id, b);
        var e := EpochTable().At(id);
        if !(e.m.m00 == 0 || (id != currentLiquidityEpoch && e.lpCount == 0)) {
          SetEpoch(id, e.(g0 := e.g0 + PendingG(b, e.m.m10), g1 := e.g1 + PendingG(b, e.m.m11)));
        }
        id := id + 1;
      }
    }

    /** Settle global funding, once per block. */
    method UpdateFg(env: Env, price: nat) returns (r: Result<()>)
      modifies this
      ensures r.Err? ==> UpdateFG(env, old(Model()), price) == Err(r.code)
      ensures r.Ok? ==> UpdateFG(env, old(Model()), price) == Ok(Model())
    {
      hide FundingRate, FundingB, AccrueAll, SignedSum;
      if lastOperationTimestamp == env.now {
        return Ok(());
      }
      var newRate :- FundingRate(env, Model(), price, lastOperationTimestamp);
      fundingRate := SignedSum(fundingRate, newRate);
      AccrueFundingRow(FundingB(newRate));
      lastOperationTimestamp := env.now;
      r := Ok(());
    }

    // ----- Snapshots -----

    method StampInitialRate(user: Address)
      modifies `traderPosition
      ensures Model() == StampRate(old(Model()), user)
    {
      SetPosition(user, Model().Pos(user).(initialFundingRate := fundingRate));
    }

    method CreditFundingFee(user: Address, fee: Signed)
      modifies `traderPosition
      ensures Model() == CreditFunding(old(Model()), user, fee)
    {
      var p := Model().Pos(user);
      SetPosition(user, p.(fundingFee := SignedSum(p.fundingFee, fee)));
    }

    method SetSnapshot(user: Address, l: LpPosition, epoch: nat)
      modifies `liquidityPosition, `liquidityPositionEpoch
      ensures Model() == old(Model()).SetLp(user, l).SetEpochOf(user, epoch)
    {
      liquidityPosition := liquidityPosition[user := l];
      liquidityPositionEpoch := liquidityPositionEpoch[user := epoch];
    }

    /** Full exit: release the epoch, drop the snapshot, retire drained epochs. */
    method DropSnapshot(user: Address) returns (r: Result<()>)
      modifies this
      ensures r.Err? ==> ExitSnapshot(old(Model()), user) == Err(r.code)
      ensures r.Ok? ==> ExitSnapshot(old(Model()), user) == Ok(Model())
    {
      hide Retire, DecrementLpCount;
      if Model().Active(user) {
        var _ :- DecrementActiveLpCount(Model().EpochOf(user));
      }
      SetSnapshot(user, Model().Lp(user).(initialStable := 0, initialAsset := 0, snap := ZERO_MAT, g0 := 0, g1 := 0),
                  0);
      RetireInactiveLiquidityEpochs();
      r := Ok(());
    }

    method MoveEpochReference(hadActive: bool, oldEpoch: nat) returns (r: Result<()>)
      modifies this
      ensures r.Err? ==> MoveReference(old(EpochTable()), hadActive, oldEpoch) == Err(r.code)
      ensures r.Ok? ==> MoveReference(old(EpochTable()), hadActive, oldEpoch).Ok?
                        && Model() == old(Model()).(ep := MoveReference(old(EpochTable()), hadActive, oldEpoch).value)
    {
      hide DecrementLpCount, IncrementLpCount;
      DecrementKeepsCurrent(EpochTable(), oldEpoch);
      if !hadActive {
        IncrementActiveLpCount(currentLiquidityEpoch);
      } else if oldEpoch != currentLiquidityEpoch {
        var _ :- DecrementActiveLpCount(oldEpoch);
        IncrementActiveLpCount(currentLiquidityEpoch);
      }
      r := Ok(());
    }

    /** Attach an LP to the current epoch, rolling first when its matrix has decayed. */
    method TakeSnapshot(user: Address, stable: nat, asset: nat) returns (r: Result<()>)
      modifies this
      ensures r.Err? ==> EnterSnapshot(old(Model()), user, stable, asset) == Err(r.code)
      ensures r.Ok? ==> EnterSnapshot(old(Model()), user, stable, asset) == Ok(Model())
    {
      hide Retire, Roll, MoveReference;
      var hadActive, oldEpoch := Model().Active(user), Model().EpochOf(user);
      var _ :- RollLiquidityEpochIfNeeded();
      var _ :- MoveEpochReference(hadActive, oldEpoch);
      var e := EpochTable().At(currentLiquidityEpoch);
      SetSnapshot(user, Model().Lp(user).(initialStable := stable, initialAsset := asset, snap := e.m, g0 := e.g0,
                                          g1 := e.g1),
                  currentLiquidityEpoch);
      RetireInactiveLiquidityEpochs();
      r := Ok(());
    }

    method UpdateSnapshots(user: Address, stable: nat, asset: nat) returns (r: Result<()>)
      modifies this
      ensures r.Err? ==> EngineSpec.UpdateSnapshots(old(Model()), user, stable, asset) == Err(r.code)
      ensures r.Ok? ==> EngineSpec.UpdateSnapshots(old(Model()), user, stable, asset) == Ok(Model())
    {
      hide ExitSnapshot, EnterSnapshot, StampRate;
      StampInitialRate(user);
      if stable == 0 && asset == 0 {
        r := DropSnapshot(user);
      } else {
        r := TakeSnapshot(user, stable, asset);
      }
    }

    method SettleFundingAndUpdateSnapshots(user: Address) returns (r: Result<()>)
      modifies this
      ensures r.Err? ==> SettleAndSnapshot(old(Model()), user) == Err(r.code)
      ensures r.Ok? ==> SettleAndSnapshot(old(Model()), user) == Ok(Model())
    {
      hide LpBalance, FundingFee, CreditFunding, EngineSpec.UpdateSnapshots;
      var balance :- LpBalance(Model(), user);
      var fee :- FundingFee(Model(), user);
      CreditFundingFee(user, fee);
      r := UpdateSnapshots(user, balance.0, balance.1);
    }

    // ----- Liquidity -----

    method DistributeLiquidityFee(fee: nat, price: nat)
      modifies this
      ensures Model() == DistributeFee(old(Model()), fee, price)
    {
      hide ApplyMatrixUpdate, Md;
      var stable, asset := globalLiquidityStable, globalLiquidityAsset;
      var total := stable + Md(asset, price, ORACLE_DECIMALS);
      if fee > 0 && asset != 0 && stable != 0 && total > 0 {
        FeeShare(fee, stable, total);
        var feeStable := Md(fee, stable, total);
        var aX := Md(feeStable, M_DECIMALS, stable);
        var aY := Md(fee - feeStable, M_DECIMALS, asset);
        ApplyLiquidityMatrixUpdate(aX, aY, FeeUpdate);
        globalLiquidityStable := stable + fee;
      }
    }

    method ChargeStableDebt(user: Address, owed: nat)
      modifies `traderPosition
      ensures var p := old(Model()).Pos(user);
              Model() == old(Model()).SetPos(user, p.(debtStable := p.debtStable + owed))
    {
      SetPosition(user, Model().Pos(user).(debtStable := Model().Pos(user).debtStable + owed));
    }

    method RaiseTraderExposure(amount: nat)
      modifies `totalTraderExposure
      ensures Model() == old(Model()).(exposure := RaiseExposure(old(totalTraderExposure), amount))
    {
      if amount > 0 {
        if totalTraderExposure.pos {
          totalTraderExposure := Signed(totalTraderExposure.mag + amount, true);
        } else {
          totalTraderExposure := Signed(DiffAbs(totalTraderExposure.mag, amount), totalTraderExposure.mag < amount);
        }
      }
    }

    method SetLpDebts(user: Address, stable: nat, asset: nat)
      modifies `liquidityPosition
      ensures Model() == old(Model()).SetLp(user, old(Model()).Lp(user).(debtStable := stable, debtAsset := asset))
    {
      liquidityPosition := liquidityPosition[user := Model().Lp(user).(debtStable := stable, debtAsset := asset)];
    }

    method CreditBalances(user: Address, stable: nat, asset: nat)
      modifies `traderPosition
      ensures var p := old(Model()).Pos(user);
              Model() == old(Model()).SetPos(user, p.(balanceStable := p.balanceStable + stable,
                                                      balanceAsset := p.balanceAsset + asset))
    {
      var p := Model().Pos(user);
      SetPosition(user, p.(balanceStable := p.balanceStable + stable, balanceAsset := p.balanceAsset + asset));
    }

    /** Charge what the fee left owed, repay LP debts out of the withdrawal, credit the rest, and raise the exposure by
        it. */
    method RepayAndCredit(user: Address, stable: nat, asset: nat, owed: nat)
      modifies `traderPosition, `liquidityPosition, `totalTraderExposure
      ensures Model() == CreditWithdrawal(old(Model()), user, stable, asset, owed)
    {
      hide RaiseExposure, ReduceValue;
      ghost var s := Model();
      ChargeStableDebt(user, owed);
      var lp := Model().Lp(user);
      var (restStable, debtStable) := ReduceValue(stable, lp.debtStable);
      var (restAsset, debtAsset) := ReduceValue(asset, lp.debtAsset);
      SetLpDebts(user, debtStable, debtAsset);
      CreditBalances(user, restStable, restAsset);
      RaiseTraderExposure(restAsset);
      WritesCollapse(s.positions, user, s.Pos(user).(debtStable := s.Pos(user).debtStable + owed), Model().Pos(user));
    }

    method ResetCurveWindow(env: Env, price: nat)
      modifies `lastCurveUpdate, `lastValidatedPrice, `dx0, `dy0
      ensures Model() == ResetWindow(env, old(Model()), price)
    {
      lastCurveUpdate := env.now;
      lastValidatedPrice := price;
      SetAnchors(0, 0);
    }

    method SetPool(stable: nat, asset: nat)
      modifies `globalLiquidityStable, `globalLiquidityAsset
      ensures Model() == old(Model()).(pool := Pool(stable, asset))
    {
      globalLiquidityStable, globalLiquidityAsset := stable, asset;
    }

    method WithdrawFromPool(env: Env, stable: nat, asset: nat, user: Address, price: nat, maxFee: nat)
        returns (r: Result<nat>)
      modifies this
      ensures r.Err? ==> TakeFromPool(env, old(Model()), stable, asset, user, price, maxFee) == Err(r.code)
      ensures r.Ok? ==> TakeFromPool(env, old(Model()), stable, asset, user, price, maxFee) == Ok((Model(), r.value))
    {
      hide RemovalFee, Md, DistributeFee, CreditWithdrawal, ResetWindow;
      var rate :- RemovalFee(env.cfg, stable, asset, Pool(globalLiquidityStable, globalLiquidityAsset), price);
      var fee := Md(stable + Md(asset, price, ORACLE_DECIMALS), rate, LIQUIDITY_FEE_DECIMALS);
      if maxFee < fee && maxFee != 0 {
        return Err("L6");
      }
      if globalLiquidityStable < stable || globalLiquidityAsset < asset {
        return Err("RLA");
      }
      SetPool(globalLiquidityStable - stable, globalLiquidityAsset - asset);
      DistributeLiquidityFee(fee, price);
      var (left, owed) := TakeFee(stable, fee);
      RepayAndCredit(user, left, asset, owed);
      ResetCurveWindow(env, price);
      r := Ok(fee);
    }

    /** Pull liquidity out of an LP's position; returns the fee charged. */
    method RemoveLiquidity(env: Env, stable: nat, asset: nat, user: Address, price: nat, maxFee: nat)
        returns (r: Result<nat>)
      modifies this
      ensures r.Err? ==> RemoveLiquidityCore(env, old(Model()), stable, asset, user, price, maxFee) == Err(r.code)
      ensures r.Ok? ==>
                RemoveLiquidityCore(env, old(Model()), stable, asset, user, price, maxFee)
                == Ok((Model(), r.value))
    {
      hide LpBalance, UpdateFG, FundingFee, CreditFunding, EngineSpec.UpdateSnapshots, TakeFromPool, Model;
      var balance :- LpBalance(Model(), user);
      if balance.0 < stable || balance.1 < asset {
        return Err("L5");
      }
      var _ :- UpdateFg(env, price);
      var owes :- FundingFee(Model(), user);
      CreditFundingFee(user, owes);
      var _ :- UpdateSnapshots(user, balance.0 - stable, balance.1 - asset);
      r := WithdrawFromPool(env, stable, asset, user, price, maxFee);
    }

    method RejoinLiquidity(user: Address, stable: nat, asset: nat) returns (r: Result<()>)
      modifies this
      ensures r.Err? ==> RejoinPool(old(Model()), user, stable, asset) == Err(r.code)
      ensures r.Ok? ==> RejoinPool(old(Model()), user, stable, asset) == Ok(Model())
    {
      hide LpBalance, EngineSpec.UpdateSnapshots;
      var held :- LpBalance(Model(), user);
      var stableLeft, assetLeft := 0, 0;
      if globalLiquidityAsset != 0 || globalLiquidityStable != 0 {
        stableLeft :- SubR(globalLiquidityStable, held.0);
        assetLeft :- SubR(globalLiquidityAsset, held.1);
      }
      SetPool(stableLeft + (stable + held.0), assetLeft + (asset + held.1));
      r := UpdateSnapshots(user, stable + held.0, asset + held.1);
    }

    /** Fold a deposit, and the LP's existing balance re-added, into the pool. */
    method AddLiquidity(env: Env, stable: nat, asset: nat, fee: nat, price: nat, user: Address) returns (r: Result<()>)
      modifies this
      ensures r.Err? ==> AddLiquidityCore(env, old(Model()), stable, asset, fee, price, user) == Err(r.code)
      ensures r.Ok? ==> AddLiquidityCore(env, old(Model()), stable, asset, fee, price, user) == Ok(Model())
    {
      hide LpBalance, UpdateFG, FundingRate, FundingFeeWith, CreditFunding, DistributeFee, SignedSum, RejoinPool;
      var newRate :- FundingRate(env, Model(), price, lastOperationTimestamp);
      var owes :- FundingFeeWith(Model(), user, SignedSum(fundingRate, newRate));
      CreditFundingFee(user, owes);
      var _ :- UpdateFg(env, price);
      var (left, owed) := TakeFee(stable, fee);
      BorrowLiquidity(user, stable, asset, owed);
      DistributeLiquidityFee(fee, price);
      r := RejoinLiquidity(user, left, asset);
    }

    /** LP debt grows by the deposit, and by the part of the fee the deposit could not pay. */
    method BorrowLiquidity(user: Address, stable: nat, asset: nat, owed: nat)
      modifies `liquidityPosition
      ensures var lp := old(Model()).Lp(user);
              Model() == old(Model()).SetLp(user, lp.(debtStable := lp.debtStable + stable + owed,
                                                      debtAsset := lp.debtAsset + asset))
    {
      var lp := Model().Lp(user);
      liquidityPosition := liquidityPosition[user := lp.(debtStable := lp.debtStable + stable + owed,
                                                         debtAsset := lp.debtAsset + asset)];
    }

    // ----- Trade -----

    method SetInsurance(fund: Signed)
      modifies `insuranceFund
      ensures Model() == old(Model()).(insurance := fund)
    {
      insuranceFund := fund;
    }

    method CreditStableBalance(user: Address, amount: nat)
      modifies `traderPosition
      ensures Model() == CreditStable(old(Model()), user, amount)
    {
      var p := Model().Pos(user);
      SetPosition(user, p.(balanceStable := p.balanceStable + amount));
    }

    /** A protocol fee fills the insurance fund up to its cap; the rest goes to the protocol address. */
    method AssignProtocolFeeFillingInsurance(cap: nat, fee: nat, protocol: Address)
      modifies `insuranceFund, `traderPosition
      ensures Model() == AssignProtocolFee(old(Model()), cap, fee, protocol)
    {
      hide CreditStable, SignedSum;
      if insuranceFund.pos {
        if insuranceFund.mag < cap {
          var capLeft := cap - insuranceFund.mag;
          if fee <= capLeft {
            SetInsurance(Signed(insuranceFund.mag + fee, true));
            return;
          }
          SetInsurance(Signed(cap, true));
          CreditStableBalance(protocol, fee - capLeft);
          return;
        }
        CreditStableBalance(protocol, fee);
        return;
      }
      var capacity := cap + insuranceFund.mag;
      if fee <= capacity {
        SetInsurance(SignedSum(insuranceFund, Signed(fee, true)));
        return;
      }
      SetInsurance(Signed(cap, true));
      CreditStableBalance(protocol, fee - capacity);
    }

    /** Start a window now, with empty anchors. */
    method StartWindow(now: nat, direction: bool, price: nat)
      modifies `lastCurveUpdate, `lastTradeDirection, `lastValidatedPrice, `dx0, `dy0
      ensures var w := old(CurrentWindow());
              CurrentWindow()
              == w.(lastUpdate := now, lastDirection := direction, lastPrice := price, dx0 := 0, dy0 := 0)
    {
      lastCurveUpdate, lastTradeDirection, lastValidatedPrice := now, direction, price;
      SetAnchors(0, 0);
    }

    /** Reset the curve window when it has expired, turned, or seen another price. */
    method OpenCurveWindow(env: Env, direction: bool, price: nat)
      modifies `lastCurveUpdate, `lastTradeDirection, `lastValidatedPrice, `dx0, `dy0
      ensures Model() == old(Model()).(window := OpenWindow(env, old(Model()), direction, price))
    {
      if env.now > lastCurveUpdate + env.cfg.curveUpdateInterval || lastTradeDirection != direction
          || lastValidatedPrice != price {
        StartWindow(env.now, direction, price);
      }
    }

    method UpdateAverageL(env: Env, paid: nat, price: nat) returns (r: Result<()>)
      modifies `avgSlippageL
      ensures r.Err? ==> CalcEma(paid, price, old(avgSlippageL), env.cfg.emaParam) == Err(r.code)
      ensures r.Ok? ==> CalcEma(paid, price, old(avgSlippageL), env.cfg.emaParam) == Ok(avgSlippageL)
    {
      var average :- CalcEma(paid, price, avgSlippageL, env.cfg.emaParam);
      avgSlippageL := average;
      r := Ok(());
    }

    method UpdateAverageS(env: Env, paid: nat, price: nat) returns (r: Result<()>)
      modifies `avgSlippageS
      ensures r.Err? ==> CalcEma(paid, price, old(avgSlippageS), env.cfg.emaParam) == Err(r.code)
      ensures r.Ok? ==> CalcEma(paid, price, old(avgSlippageS), env.cfg.emaParam) == Ok(avgSlippageS)
    {
      var average :- CalcEma(paid, price, avgSlippageS, env.cfg.emaParam);
      avgSlippageS := average;
      r := Ok(());
    }

    /** Run a long through the curve and advance the window; returns what it yields. */
    method SwapLong(env: Env, t: TradeArgs, guess: nat, fee: nat) returns (r: Result<nat>)
      requires fee <= t.size
      modifies `dx0, `dy0, `avgSlippageL
      ensures r.Err? ==> LongCurve(env, old(Model()), t, old(CurrentWindow()), guess, fee) == Err(r.code)
      ensures r.Ok? ==>
                LongCurve(env, old(Model()), t, old(CurrentWindow()), guess, fee)
                == Ok(Quote(r.value, fee, 0, CurrentWindow()))
    {
      hide CalcEma, LongInput;
      var input :- LongInput(env, t, fee);
      var stableAnchor :- SubR(globalLiquidityStable, dy0);
      var out :- env.curve.long(input + dy0, t.price, guess, stableAnchor, globalLiquidityAsset + dx0);
      var tradeReturn :- SubR(out, dx0);
      if lastOperationTimestamp != env.now {
        var paid :- MdR(t.size - fee, ORACLE_DECIMALS, tradeReturn);
        var _ :- UpdateAverageL(env, paid, t.price);
      }
      SetAnchors(dx0 + tradeReturn, dy0 + input);
      r := Ok(tradeReturn);
    }

    /** Price a long, T4 included; returns its return and its fee. */
    method PriceLong(env: Env, t: TradeArgs) returns (r: Result<(nat, nat)>)
      modifies `dx0, `dy0, `avgSlippageL
      ensures r.Err? ==> LongQuote(env, old(Model()), t, old(CurrentWindow())) == Err(r.code)
      ensures r.Ok? ==>
                LongQuote(env, old(Model()), t, old(CurrentWindow()))
                == Ok(Quote(r.value.0, r.value.1, 0, CurrentWindow()))
    {
      hide LongCurve, LongGuess, TradeFee;
      var zeroSlippage :- MdR(t.size, ORACLE_DECIMALS, t.price);
      var guess := LongGuess(t, globalLiquidityAsset, zeroSlippage);
      var fee := TradeFee(env, t.size);
      var tradeReturn := 0;
      if t.size > fee {
        tradeReturn :- SwapLong(env, t, guess, fee);
      } else {
        fee := t.size;
      }
      if !(t.minReturn <= tradeReturn <= zeroSlippage) {
        return Err("T4");
      }
      r := Ok((tradeReturn, fee));
    }

    /** Run a short through the curve and advance the window; returns the curve's output before fees. */
    method SwapShort(env: Env, t: TradeArgs, guess: nat) returns (r: Result<nat>)
      modifies `dx0, `dy0, `avgSlippageS
      ensures r.Err? ==> ShortCurve(env, old(Model()), t, old(CurrentWindow()), guess) == Err(r.code)
      ensures r.Ok? ==> ShortCurve(env, old(Model()), t, old(CurrentWindow()), guess) == Ok((r.value, CurrentWindow()))
    {
      hide CalcEma;
      var assetAnchor :- SubR(globalLiquidityAsset, dx0);
      var out :- env.curve.short(t.size + dx0, t.price, guess + dy0, globalLiquidityStable + dy0, assetAnchor);
      var total :- SubR(out, dy0);
      if lastOperationTimestamp != env.now {
        var paid :- MdR(total, ORACLE_DECIMALS, t.size);
        var _ :- UpdateAverageS(env, paid, t.price);
      }
      SetAnchors(dx0 + t.size, dy0 + total);
      r := Ok(total);
    }

    /** Price a short, T4 included; returns its return, its fee and the curve's output. */
    method PriceShort(env: Env, t: TradeArgs) returns (r: Result<(nat, nat, nat)>)
      modifies `dx0, `dy0, `avgSlippageS
      ensures r.Err? ==> ShortQuote(env, old(Model()), t, old(CurrentWindow())) == Err(r.code)
      ensures r.Ok? ==>
                ShortQuote(env, old(Model()), t, old(CurrentWindow()))
                == Ok(Quote(r.value.0, r.value.1, r.value.2, CurrentWindow()))
    {
      hide ShortCurve, ShortGuess, TradeFee, FrontendPart, Md;
      var zeroSlippage := Md(t.size, t.price, ORACLE_DECIMALS);
      var total :- SwapShort(env, t, ShortGuess(t, globalLiquidityStable, zeroSlippage));
      var fee := TradeFee(env, total);
      var tradeReturn := 0;
      if fee < total {
        tradeReturn := total - fee;
      } else {
        fee := total;
      }
      if t.frontend == ZERO_ADDRESS {
        tradeReturn := tradeReturn + FrontendPart(env, fee);
      }
      if !(t.minReturn <= tradeReturn <= zeroSlippage) {
        return Err("T4");
      }
      r := Ok((tradeReturn, fee, total));
    }

    method SetExposure(exposure: Signed)
      modifies `totalTraderExposure
      ensures Model() == old(Model()).(exposure := exposure)
    {
      totalTraderExposure := exposure;
    }

    /** Funding, exposure and position of the trader. */
    method SettleTraderPosition(t: TradeArgs, tradeReturn: nat) returns (r: Result<()>)
      modifies this
      ensures r.Err? ==> SettleTrader(old(Model()), t, tradeReturn) == Err(r.code)
      ensures r.Ok? ==> SettleTrader(old(Model()), t, tradeReturn) == Ok(Model())
    {
      hide FundingFee, SignedSum, TradedPosition, RefreshFundingSnapshot, CreditFunding, StampRate;
      ghost var s := Model();
      var fee :- FundingFee(Model(), t.user);
      var exposure := SignedSum(totalTraderExposure, if t.direction then Signed(tradeReturn, true)
                                else Signed(t.size, false));
      RefreshLpFundingSnapshot(t.user);
      CreditFundingFee(t.user, fee);
      StampInitialRate(t.user);
      SetExposure(exposure);
      SetPosition(t.user, TradedPosition(Model().Pos(t.user), t.direction, t.size, tradeReturn));
      r := Ok(());
    }

    /** Fan the trade out over the epoch matrices, and move the pool. */
    method MoveTradedPool(env: Env, t: TradeArgs, q: Quote) returns (r: Result<()>)
      modifies this
      ensures r.Err? ==> MovePool(env, old(Model()), t, q) == Err(r.code)
      ensures r.Ok? ==> MovePool(env, old(Model()), t, q) == Ok(Model())
    {
      hide LongPoolInput, ShortPoolOutput, ApplyMatrixUpdate;
      var stable, asset := globalLiquidityStable, globalLiquidityAsset;
      if t.direction {
        var paid :- LongPoolInput(env, t, q.fee);
        var aY :- MdR(paid, M_DECIMALS, asset);
        var aX :- MdR(q.tradeReturn, M_DECIMALS, asset);
        ApplyLiquidityMatrixUpdate(aX, aY, LongUpdate);
        var assetLeft :- SubR(asset, q.tradeReturn);
        SetPool(stable + paid, assetLeft);
      } else {
        var net :- ShortPoolOutput(env, q);
        var aX :- MdR(t.size, M_DECIMALS, stable);
        var aY :- MdR(net, M_DECIMALS, stable);
        ApplyLiquidityMatrixUpdate(aX, aY, ShortUpdate);
        var stableLeft :- SubR(stable, net);
        SetPool(stableLeft, asset + t.size);
      }
      r := Ok(());
    }

    method PayTradingFees(env: Env, t: TradeArgs, fee: nat)
      modifies `insuranceFund, `traderPosition
      ensures Model() == PayFees(env, old(Model()), t, fee)
    {
      hide Md, AssignProtocolFee, CreditStable, FrontendPart;
      var protocolFee := Md(fee, FEE_FRACTIONS - env.cfg.feeLp - env.cfg.feeFrontend, FEE_FRACTIONS);
      AssignProtocolFeeFillingInsurance(env.cfg.insuranceFundCap, protocolFee, env.cfg.feeProtocolAddr);
      if t.frontend != ZERO_ADDRESS {
        CreditStableBalance(t.frontend, FrontendPart(env, fee));
      }
    }

    /** Price a trade in either direction, writing the window it leaves. */
    method PriceTrade(env: Env, t: TradeArgs) returns (r: Result<Quote>)
      modifies `lastCurveUpdate, `lastTradeDirection, `lastValidatedPrice, `dx0, `dy0, `avgSlippageL, `avgSlippageS
      ensures r.Err? ==> TradeQuote(env, old(Model()), t) == Err(r.code)
      ensures r.Ok? ==>
                TradeQuote(env, old(Model()), t) == Ok(r.value)
                && Model() == old(Model()).(window := r.value.window)
    {
      hide OpenWindow, LongQuote, ShortQuote;
      ghost var s := Model();
      OpenCurveWindow(env, t.direction, t.price);
      QuoteReadsPool(env, s, Model(), t, CurrentWindow());
      if t.direction {
        var priced :- PriceLong(env, t);
        r := Ok(Quote(priced.0, priced.1, 0, CurrentWindow()));
      } else {
        var priced :- PriceShort(env, t);
        r := Ok(Quote(priced.0, priced.1, priced.2, CurrentWindow()));
      }
    }

    method ExecuteTrade(env: Env, t: TradeArgs) returns (r: Result<nat>)
      modifies this
      ensures r.Err? ==> EngineOps.ExecuteTrade(env, old(Model()), t) == Err(r.code)
      ensures r.Ok? ==> EngineOps.ExecuteTrade(env, old(Model()), t) == Ok((Model(), r.value))
    {
      hide TradeQuote, UpdateFG, SettleTrader, MovePool, PayFees, PoolDeepEnough;
      var stable, asset := globalLiquidityStable, globalLiquidityAsset;
      var q :- PriceTrade(env, t);
      if !(if t.direction then q.tradeReturn < asset else q.tradeReturn < stable) {
        return Err("T5");
      }
      var _ :- UpdateFg(env, t.price);
      var _ :- SettleTraderPosition(t, q.tradeReturn);
      var _ :- MoveTradedPool(env, t, q);
      PayTradingFees(env, t, q.fee);
      if !PoolDeepEnough(Pool(globalLiquidityStable, globalLiquidityAsset), t.price) {
        return Err("T3");
      }
      r := Ok(q.tradeReturn);
    }

    /** The trade entry point: minimum size, the trade, then the trader's margin. */
    method TradeImpl(env: Env, t: TradeArgs, collateral: nat) returns (r: Result<()>)
      modifies this
      ensures r.Err? ==> Trade(env, old(Model()), t, collateral) == Err(r.code)
      ensures r.Ok? ==> Trade(env, old(Model()), t, collateral) == Ok(Model())
    {
      hide EngineOps.ExecuteTrade, CalcMr, Md;
      var worth := if t.direction then t.size else Md(t.size, t.price, ORACLE_DECIMALS);
      if worth < env.cfg.minimumTradeSize {
        return Err("T2");
      }
      var _ :- ExecuteTrade(env, t);
      var mr :- CalcMr(env, Model(), t.user, t.price, collateral);
      if !(mr > env.cfg.mmr) {
        return Err("T1");
      }
      r := Ok(());
    }

    // ----- Liquidity entry points -----

    method AddLiquidityOuter(env: Env, stable: nat, asset: nat, maxFee: nat, user: Address, price: nat, collateral: nat)
        returns (r: Result<()>)
      modifies this
      ensures r.Err? ==>
                EngineOps.AddLiquidity(env, old(Model()), stable, asset, maxFee, user, price, collateral)
                == Err(r.code)
      ensures r.Ok? ==>
                EngineOps.AddLiquidity(env, old(Model()), stable, asset, maxFee, user, price, collateral)
                == Ok(Model())
    {
      hide MinimumMove, DepositFee, Md, AddLiquidityCore, ResetWindow, RequireSolvent;
      if !MinimumMove(env, stable, asset, price) {
        return Err("L1");
      }
      var rate :- DepositFee(env.cfg, stable, asset, Pool(globalLiquidityStable, globalLiquidityAsset), price);
      var fee := Md(stable + Md(asset, price, ORACLE_DECIMALS), rate, LIQUIDITY_FEE_DECIMALS);
      if fee > maxFee && maxFee != 0 {
        return Err("L2");
      }
      var _ :- AddLiquidity(env, stable, asset, fee, price, user);
      ResetCurveWindow(env, price);
      var _ :- RequireSolvent(env, Model(), user, price, collateral);
      var debtStable := Model().Lp(user).debtStable + Model().Pos(user).debtStable;
      var debtAsset := Model().Lp(user).debtAsset + Model().Pos(user).debtAsset;
      if !(debtStable + Md(debtAsset, price, ORACLE_DECIMALS) <= collateral * env.cfg.maxLpLeverage) {
        return Err("L3");
      }
      r := Ok(());
    }

    method RemoveLiquidityOuter(env: Env, stable: nat, asset: nat, user: Address, price: nat, maxFee: nat,
                                collateral: nat) returns (r: Result<()>)
      modifies this
      ensures r.Err? ==>
                EngineOps.RemoveLiquidity(env, old(Model()), stable, asset, user, price, maxFee, collateral)
                == Err(r.code)
      ensures r.Ok? ==>
                EngineOps.RemoveLiquidity(env, old(Model()), stable, asset, user, price, maxFee, collateral)
                == Ok(Model())
    {
      hide MinimumMove, RemoveLiquidityCore, RequireSolvent;
      if !MinimumMove(env, stable, asset, price) {
        return Err("L4");
      }
      var _ :- RemoveLiquidity(env, stable, asset, user, price, maxFee);
      var _ :- RequireSolvent(env, Model(), user, price, collateral);
      r := Ok(());
    }

    // ----- Close -----

    method ClearLiquidityPosition(user: Address)
      modifies `liquidityPosition
      ensures Model() == old(Model()).SetLp(user, EMPTY_LP)
    {
      liquidityPosition := liquidityPosition[user := EMPTY_LP];
    }

    method LowerTraderExposure(amount: nat)
      modifies `totalTraderExposure
      ensures Model() == old(Model()).(exposure := LowerExposure(old(totalTraderExposure), amount))
    {
      if amount > 0 {
        if !totalTraderExposure.pos {
          totalTraderExposure := Signed(totalTraderExposure.mag + amount, false);
        } else {
          totalTraderExposure := Signed(DiffAbs(totalTraderExposure.mag, amount), totalTraderExposure.mag > amount);
        }
      }
    }

    /** Withdraw everything, and turn what LP debt remains into trader debt. */
    method CloseLiquidity(env: Env, user: Address, price: nat, maxLiqFee: nat) returns (r: Result<()>)
      modifies this
      ensures r.Err? ==> CloseLp(env, old(Model()), user, price, maxLiqFee) == Err(r.code)
      ensures r.Ok? ==> CloseLp(env, old(Model()), user, price, maxLiqFee) == Ok(Model())
    {
      hide LpBalance, RemoveLiquidityCore, LowerExposure;
      var balance :- LpBalance(Model(), user);
      var lp := Model().Lp(user);
      if balance.0 != 0 || balance.1 != 0 || lp.debtAsset != 0 || lp.debtStable != 0 {
        var _ :- RemoveLiquidity(env, balance.0, balance.1, user, price, maxLiqFee);
        var rest, p := Model().Lp(user), Model().Pos(user);
        SetPosition(user, p.(debtAsset := p.debtAsset + rest.debtAsset, debtStable := p.debtStable + rest.debtStable));
        LowerTraderExposure(rest.debtAsset);
      }
      ClearLiquidityPosition(user);
      r := Ok(());
    }

    /** Sell a net long position. */
    method SellNetAsset(env: Env, user: Address, frontend: Address, price: nat, maxSlippage: nat)
        returns (r: Result<()>)
      requires Model().Pos(user).balanceAsset >= Model().Pos(user).debtAsset
      modifies this
      ensures r.Err? ==> SellAll(env, old(Model()), user, frontend, price, maxSlippage) == Err(r.code)
      ensures r.Ok? ==> SellAll(env, old(Model()), user, frontend, price, maxSlippage) == Ok(Model())
    {
      hide EngineOps.ExecuteTrade, Md;
      var p := Model().Pos(user);
      var size := p.balanceAsset - p.debtAsset;
      var keep :- SubR(BPS, maxSlippage);
      var minReturn := Md(Md(size, price, ORACLE_DECIMALS), keep, BPS);
      SetPosition(user, p.(balanceAsset := size, debtAsset := 0));
      var _ :- ExecuteTrade(env, TradeArgs(user, false, size, minReturn, globalLiquidityStable, frontend, price));
      r := Ok(());
    }

    /** Buy back a net short position, within the C0 bound. */
    method BuyBackNetAsset(env: Env, user: Address, frontend: Address, price: nat, maxSlippage: nat)
        returns (r: Result<()>)
      modifies this
      ensures r.Err? ==> BuyBack(env, old(Model()), user, frontend, price, maxSlippage) == Err(r.code)
      ensures r.Ok? ==> BuyBack(env, old(Model()), user, frontend, price, maxSlippage) == Ok(Model())
    {
      hide EngineOps.ExecuteTrade, Md, MdR, BuyBackInput, OpenWindow, CloseBound;
      var debt := Model().Pos(user).debtAsset;
      OpenCurveWindow(env, true, price);
      var needed :- BuyBackInput(env, Model(), debt, frontend, price);
      var keep :- SubR(BPS, maxSlippage);
      var worth :- MdR(needed, ORACLE_DECIMALS, price);
      var _ :- ExecuteTrade(env, TradeArgs(user, true, needed, Md(worth, keep, BPS), globalLiquidityAsset, frontend,
                                           price));
      var p := Model().Pos(user);
      if !(Md(DiffAbs(p.balanceAsset, p.debtAsset), price, ORACLE_DECIMALS) < CloseBound(Model().pool)) {
        return Err("C0");
      }
      r := Ok(());
    }

    /** Bring the net asset of a position to nothing, or to a residual too small to trade. */
    method FlattenPosition(env: Env, user: Address, frontend: Address, price: nat, maxSlippage: nat)
        returns (r: Result<()>)
      modifies this
      ensures r.Err? ==> Flatten(env, old(Model()), user, frontend, price, maxSlippage) == Err(r.code)
      ensures r.Ok? ==> Flatten(env, old(Model()), user, frontend, price, maxSlippage) == Ok(Model())
    {
      hide SellAll, BuyBack, Md;
      var p := Model().Pos(user);
      if Md(DiffAbs(p.balanceAsset, p.debtAsset), price, ORACLE_DECIMALS) < DUST {
        SetPosition(user, p.(balanceAsset := p.debtAsset));
        return Ok(());
      }
      if p.balanceAsset > p.debtAsset {
        var _ :- SellNetAsset(env, user, frontend, price, maxSlippage);
      } else {
        SetPosition(user, p.(debtAsset := p.debtAsset - p.balanceAsset, balanceAsset := 0));
      }
      if Model().Pos(user).debtAsset > 0 {
        var _ :- BuyBackNetAsset(env, user, frontend, price, maxSlippage);
      }
      r := Ok(());
    }

    /** Close a user out; returns the profit its collateral is settled with. */
    method CloseAndWithdrawInner(env: Env, user: Address, maxSlippage: nat, maxLiqFee: nat, frontend: Address,
                                 price: nat,
                                 collateral: nat, isSelfClose: bool) returns (r: Result<Signed>)
      modifies this
      ensures r.Err? ==> Close(env, old(Model()), user, maxSlippage, maxLiqFee, frontend, price, collateral,
                               isSelfClose) == Err(r.code)
      ensures r.Ok? ==> Close(env, old(Model()), user, maxSlippage, maxLiqFee, frontend, price, collateral, isSelfClose)
                        == Ok((Model(), r.value))
    {
      hide CloseLp, Flatten, CalcPnlUser, SignedSum;
      var _ :- CloseLiquidity(env, user, price, maxLiqFee);
      var _ :- FlattenPosition(env, user, frontend, price, maxSlippage);
      var pnl :- CalcPnlUser(env, Model(), user, price);
      if isSelfClose && !pnl.pos && !(pnl.mag < collateral) {
        return Err("C1");
      }
      SetPosition(user, EMPTY_POSITION);
      if collateral < pnl.mag && !pnl.pos {
        SetInsurance(SignedSum(insuranceFund, Signed(pnl.mag - collateral, false)));
      }
      r := Ok(pnl);
    }

    method AutoCloseWithPrice(env: Env, caller: Address, user: Address, maxSlippage: nat, maxLiqFee: nat,
                              frontend: Address,
                              price: nat, collateral: nat) returns (r: Result<Signed>)
      modifies this
      ensures r.Err? ==>
                AutoClose(env, old(Model()), caller, user, maxSlippage, maxLiqFee, frontend, price, collateral)
                == Err(r.code)
      ensures r.Ok? ==>
                AutoClose(env, old(Model()), caller, user, maxSlippage, maxLiqFee, frontend, price, collateral)
                == Ok((Model(), r.value))
    {
      hide Close, CreditStable;
      ChargeStableDebt(user, env.cfg.autoCloseFee);
      CreditStableBalance(caller, env.cfg.autoCloseFee);
      r := CloseAndWithdrawInner(env, user, maxSlippage, maxLiqFee, frontend, price, collateral, true);
    }

    method MovePnl(user: Address, pnl: Signed)
      modifies `traderPosition
      ensures Model() == old(Model()).SetPos(user, TakePnl(old(Model()).Pos(user), pnl))
    {
      var p := Model().Pos(user);
      if !pnl.pos {
        if pnl.mag < p.debtStable {
          SetPosition(user, p.(debtStable := p.debtStable - pnl.mag));
        } else {
          SetPosition(user, p.(balanceStable := p.balanceStable + (pnl.mag - p.debtStable), debtStable := 0));
        }
      } else if pnl.mag < p.balanceStable {
        SetPosition(user, p.(balanceStable := p.balanceStable - pnl.mag));
      } else {
        SetPosition(user, p.(debtStable := p.debtStable + (pnl.mag - p.balanceStable), balanceStable := 0));
      }
    }

    /** Settle a user's profit into collateral in place; returns the amount moved. */
    method RealizePnlOuter(env: Env, user: Address, price: nat, collateral: nat) returns (r: Result<Signed>)
      modifies this
      ensures r.Err? ==> RealizePnl(env, old(Model()), user, price, collateral) == Err(r.code)
      ensures r.Ok? ==> RealizePnl(env, old(Model()), user, price, collateral) == Ok((Model(), r.value))
    {
      hide UpdateFG, CalcPnlUser, SettleAndSnapshot, TakePnl;
      var _ :- UpdateFg(env, price);
      var pnl :- CalcPnlUser(env, Model(), user, price);
      if !(pnl.pos || pnl.mag < collateral) {
        return Err("R1");
      }
      var _ :- SettleFundingAndUpdateSnapshots(user);
      MovePnl(user, pnl);
      r := Ok(pnl);
    }

    method UpdateLpSnapshot(env: Env, user: Address, price: nat) returns (r: Result<()>)
      modifies this
      ensures r.Err? ==> EngineOps.UpdateLpSnapshot(env, old(Model()), user, price) == Err(r.code)
      ensures r.Ok? ==> EngineOps.UpdateLpSnapshot(env, old(Model()), user, price) == Ok(Model())
    {
      hide UpdateFG, SettleAndSnapshot;
      if !Model().Active(user) {
        return Err("LS0");
      }
      var _ :- UpdateFg(env, price);
      r := SettleFundingAndUpdateSnapshots(user);
    }

    // ----- Liquidation -----

    method DebitStableFrom(user: Address, amount: nat)
      modifies `traderPosition
      ensures Model() == old(Model()).SetPos(user, DebitStable(old(Model()).Pos(user), amount))
    {
      var p := Model().Pos(user);
      if p.balanceStable >= amount {
        SetPosition(user, p.(balanceStable := p.balanceStable - amount));
      } else {
        SetPosition(user, p.(debtStable := p.debtStable + (amount - p.balanceStable), balanceStable := 0));
      }
    }

    method CreditStableViaDebtTo(user: Address, amount: nat)
      modifies `traderPosition
      ensures Model() == old(Model()).SetPos(user, CreditStableViaDebt(old(Model()).Pos(user), amount))
    {
      var p := Model().Pos(user);
      if p.debtStable >= amount {
        SetPosition(user, p.(debtStable := p.debtStable - amount));
      } else {
        SetPosition(user, p.(balanceStable := p.balanceStable + (amount - p.debtStable), debtStable := 0));
      }
    }

    method DebitAssetFrom(user: Address, amount: nat)
      modifies `traderPosition
      ensures Model() == old(Model()).SetPos(user, DebitAsset(old(Model()).Pos(user), amount))
    {
      var p := Model().Pos(user);
      if p.balanceAsset >= amount {
        SetPosition(user, p.(balanceAsset := p.balanceAsset - amount));
      } else {
        SetPosition(user, p.(debtAsset := p.debtAsset + (amount - p.balanceAsset), balanceAsset := 0));
      }
    }

    method CreditAssetViaDebtTo(user: Address, amount: nat)
      modifies `traderPosition
      ensures Model() == old(Model()).SetPos(user, CreditAssetViaDebt(old(Model()).Pos(user), amount))
    {
      var p := Model().Pos(user);
      if p.debtAsset >= amount {
        SetPosition(user, p.(debtAsset := p.debtAsset - amount));
      } else {
        SetPosition(user, p.(balanceAsset := p.balanceAsset + (amount - p.debtAsset), debtAsset := 0));
      }
    }

    /** Hand `amount` of a net long position to the liquidator for dy, and pay the insurance share. */
    method HandOverLong(env: Env, user: Address, liquidator: Address, amount: nat, dy: nat, share: nat)
        returns (r: Result<()>)
      modifies `traderPosition, `insuranceFund
      ensures r.Err? ==> TransferLong(env, old(Model()), user, liquidator, amount, dy, share) == Err(r.code)
      ensures r.Ok? ==> TransferLong(env, old(Model()), user, liquidator, amount, dy, share) == Ok(Model())
    {
      hide DebitStable, CreditStableViaDebt, AssignProtocolFee;
      var p := Model().Pos(user);
      if !(p.balanceAsset >= amount) {
        return Err("LQ1");
      }
      SetPosition(user, p.(balanceAsset := p.balanceAsset - amount));
      var l := Model().Pos(liquidator);
      SetPosition(liquidator, l.(balanceAsset := l.balanceAsset + amount));
      DebitStableFrom(liquidator, dy);
      CreditStableViaDebtTo(user, dy);
      DebitStableFrom(liquidator, share);
      AssignProtocolFeeFillingInsurance(env.cfg.insuranceFundCap, share, liquidator);
      r := Ok(());
    }

    method HandOverShort(env: Env, user: Address, liquidator: Address, amount: nat, dy: nat, share: nat)
      modifies `traderPosition, `insuranceFund
      ensures Model() == TransferShort(env, old(Model()), user, liquidator, amount, dy, share)
    {
      hide DebitStable, CreditStable, DebitAsset, CreditAssetViaDebt, AssignProtocolFee;
      DebitStableFrom(user, dy);
      CreditStableBalance(liquidator, dy);
      DebitAssetFrom(liquidator, amount);
      CreditAssetViaDebtTo(user, amount);
      DebitStableFrom(liquidator, share);
      AssignProtocolFeeFillingInsurance(env.cfg.insuranceFundCap, share, liquidator);
    }

    /** Transfer part of a position to the liquidator at a discount. */
    method LiquidatePosition(env: Env, amount: nat, user: Address, discount: nat, direction: bool, liquidator: Address,
                             price: nat,
                             collateral: nat) returns (r: Result<()>)
      modifies `traderPosition, `insuranceFund
      ensures r.Err? ==> EngineOps.LiquidatePosition(env, old(Model()), amount, user, discount, direction, liquidator,
                                                     price, collateral) == Err(r.code)
      ensures r.Ok? ==> EngineOps.LiquidatePosition(env, old(Model()), amount, user, discount, direction, liquidator,
                                                    price, collateral) == Ok(Model())
    {
      hide LongTransferValue, ShortTransferValue, TransferLong, TransferShort, Md;
      var part :- DivR(discount, env.cfg.insFundFraction);
      if direction {
        var value :- LongTransferValue(env, Model(), amount, price);
        var keep :- SubR(LIQUIDATION_DECIMALS, discount);
        r := HandOverLong(env, user, liquidator, amount, Md(keep, value, LIQUIDATION_DECIMALS),
                          Md(part, value, LIQUIDATION_DECIMALS));
      } else {
        var value :- ShortTransferValue(env, Model(), user, amount, price, collateral);
        HandOverShort(env, user, liquidator, amount, Md(LIQUIDATION_DECIMALS + discount, value, LIQUIDATION_DECIMALS),
                      Md(part, value, LIQUIDATION_DECIMALS));
        r := Ok(());
      }
    }

    /** Pull the liquidity a liquidation needs out of the user's LP position. */
    method PullUserLiquidity(env: Env, user: Address, size: nat, fraction: nat, long: bool, balance: (nat, nat),
                             price: nat) returns (r: Result<()>)
      modifies this
      ensures r.Err? ==> PullLiquidity(env, old(Model()), user, size, fraction, long, balance, price) == Err(r.code)
      ensures r.Ok? ==> PullLiquidity(env, old(Model()), user, size, fraction, long, balance, price) == Ok(Model())
    {
      hide LiquidityToPull, RemoveLiquidityCore;
      if balance.0 != 0 || balance.1 != 0 {
        var pull :- LiquidityToPull(Model(), user, size, fraction, long, balance);
        if pull.0 != 0 || pull.1 != 0 {
          var _ :- RemoveLiquidity(env, pull.0, pull.1, user, price, 0);
        }
      }
      r := Ok(());
    }

    /** Funding, snapshots, liquidity, then the position; returns the fraction liquidated. */
    method TransferLiquidated(env: Env, liquidator: Address, user: Address, size: nat, price: nat, collateral: nat)
        returns (r: Result<nat>)
      modifies this
      ensures r.Err? ==> LiquidateTransfer(env, old(Model()), liquidator, user, size, price, collateral) == Err(r.code)
      ensures r.Ok? ==>
                LiquidateTransfer(env, old(Model()), liquidator, user, size, price, collateral)
                == Ok((Model(), r.value))
    {
      hide UpdateFG, CalcMr, CalcPnlUserInternal, SettleAndSnapshot, LpBalance, PullLiquidity, FractionAllowed,
           LiquidationDiscount,
           EngineOps.LiquidatePosition, StampRate, MdR;
      if user == liquidator {
        return Err("LQ0");
      }
      var _ :- UpdateFg(env, price);
      var marginRatio :- CalcMr(env, Model(), user, price, collateral);
      var _ :- CalcPnlUserInternal(env, Model(), user, price, true);
      var _ :- SettleFundingAndUpdateSnapshots(liquidator);
      var _ :- SettleFundingAndUpdateSnapshots(user);
      var balance :- LpBalance(Model(), user);
      var held := balance.1 + Model().Pos(user).balanceAsset;
      var owed := Model().Pos(user).debtAsset + Model().Lp(user).debtAsset;
      var fraction :- MdR(size, LIQUIDATION_DECIMALS, DiffAbs(held, owed));
      var _ :- PullUserLiquidity(env, user, size, fraction, held > owed, balance, price);
      if !FractionAllowed(env.cfg, marginRatio, fraction) {
        return Err("LQ1");
      }
      var discount :- LiquidationDiscount(env.cfg, marginRatio);
      var _ :- LiquidatePosition(env, size, user, discount, held > owed, liquidator, price, collateral);
      StampInitialRate(user);
      StampInitialRate(liquidator);
      r := Ok(fraction);
    }

    method LiquidateWithPrice(env: Env, liquidator: Address, user: Address, size: nat, price: nat, collateralUser: nat,
                              collateralLiquidator: nat) returns (r: Result<()>)
      modifies this
      ensures r.Err? ==> Liquidate(env, old(Model()), liquidator, user, size, price, collateralUser,
                                   collateralLiquidator) == Err(r.code)
      ensures r.Ok? ==> Liquidate(env, old(Model()), liquidator, user, size, price, collateralUser,
                                  collateralLiquidator) == Ok(Model())
    {
      hide LiquidateTransfer, CalcMr, CalcPnlUserInternal, Close;
      var fraction :- TransferLiquidated(env, liquidator, user, size, price, collateralUser);
      var mr :- CalcMr(env, Model(), liquidator, price, collateralLiquidator);
      if !(mr > env.cfg.mmr) {
        return Err("LQ2");
      }
      var _ :- CalcPnlUserInternal(env, Model(), user, price, true);
      if fraction == LIQUIDATION_DECIMALS {
        var _ :- CloseAndWithdrawInner(env, user, BPS, LIQUIDITY_FEE_DECIMALS, liquidator, price, collateralUser,
                                       false);
      }
      r := Ok(());
    }

    // ----- Transactions -----

    method Dispatch(env: Env, op: Op) returns (r: Result<()>)
      modifies this
      ensures r.Err? ==> Apply(env, old(Model()), op) == Err(r.code)
      ensures r.Ok? ==> Apply(env, old(Model()), op) == Ok(Model())
    {
      hide Trade, EngineOps.AddLiquidity, EngineOps.RemoveLiquidity, Close, AutoClose, RealizePnl, Liquidate,
           EngineOps.UpdateLpSnapshot, UpdateFG,
           Model;
      match op
      case TradeOp(t, c) => r := TradeImpl(env, t, c);
      case AddLiquidityOp(u, x, y, m, p, c) => r := AddLiquidityOuter(env, x, y, m, u, p, c);
      case RemoveLiquidityOp(u, x, y, m, p, c) => r := RemoveLiquidityOuter(env, x, y, u, p, m, c);
      case CloseOp(u, sl, lf, f, p, c) =>
        var _ :- CloseAndWithdrawInner(env, u, sl, lf, f, p, c, true);
        r := Ok(());
      case AutoCloseOp(a, u, sl, lf, f, p, c) =>
        var _ :- AutoCloseWithPrice(env, a, u, sl, lf, f, p, c);
        r := Ok(());
      case RealizePnlOp(u, p, c) =>
        var _ :- RealizePnlOuter(env, u, p, c);
        r := Ok(());
      case LiquidateOp(l, u, n, p, cu, cl) => r := LiquidateWithPrice(env, l, u, n, p, cu, cl);
      case UpdateLpSnapshotOp(u, p) => r := UpdateLpSnapshot(env, u, p);
      case UpdateFGOp(p) => r := UpdateFg(env, p);
    }

    /** One transaction: the call runs in place, and a revert restores what it had written. */
    method Transact(env: Env, op: Op) returns (r: Result<()>)
      modifies this
      ensures Model() == Step(env, old(Model()), op)
      ensures r.Ok? <==> Apply(env, old(Model()), op).Ok?
    {
      hide Apply, Model;
      var saved := Model();
      r := Dispatch(env, op);
      if r.Err? {
        Restore(saved);
      }
    }
  }
}
