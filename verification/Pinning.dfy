/** Epoch pinning: no epoch an LP's snapshot refers to is ever freed, the window of epochs stays bounded,
    and the integer matrices stay non-negative, in every reachable state. */
module Pinning {
  import opened Arith
  import opened FusedMulDiv
  import opened EngineState
  import opened EngineSpec
  import opened EngineOps
  import opened MatrixRounding

  // ----- The invariant -----

  /** The LPs whose live snapshot was taken in an epoch. */
  function Pinned(s: State, id: nat): set<Address>
  {
    set u | u in s.lps && s.Active(u) && s.EpochOf(u) == id
  }

  function Span(e: Epochs): int { e.current - e.oldest + 1 }

  /** Initialised epochs lie in the window, nothing is referenced past it, and the window is bounded:
      at most 9 pointers wide, and at 9 the epoch just below current is unreferenced. */
  ghost predicate WindowOk(e: Epochs)
  {
    && e.oldest <= e.current
    && (forall id: nat :: e.At(id).m.m00 != 0 ==> e.InWindow(id))
    && (forall id: nat :: id > e.current ==> e.At(id).lpCount == 0)
    && (forall id: nat :: Woven(e.At(id).m))
    && Span(e) <= MAX_ACTIVE_EPOCHS + 1
    && (Span(e) == MAX_ACTIVE_EPOCHS + 1 ==> e.At(e.current - 1).lpCount == 0)
  }

  /** A snapshot is either empty or has balances, a non-zero corner and a positive determinant. */
  predicate SnapshotOk(l: LpPosition)
  {
    && (l.snap.m00 != 0 <==> (l.initialStable != 0 || l.initialAsset != 0))
    && (l.snap.m00 != 0 ==> l.snap.RawDet() > 0)
  }

  ghost predicate Inv(s: State)
  {
    && WindowOk(s.ep)
    && (forall u :: SnapshotOk(s.Lp(u)))
    && (forall id: nat :: |Pinned(s, id)| <= s.ep.At(id).lpCount)
  }

  lemma InitialStateOk()
    ensures Inv(INITIAL_STATE)
  {
    IdentityIsWoven();
    forall id ensures |Pinned(INITIAL_STATE, id)| <= INITIAL_STATE.ep.At(id).lpCount {
      assert Pinned(INITIAL_STATE, id) == {};
    }
  }

  // ----- Epoch transformations -----

  /** Every reference count is the same, and a referenced epoch is untouched up to its matrix and funding row. */
  ghost predicate SameCounts(e: Epochs, f: Epochs) { forall id: nat :: f.At(id).lpCount == e.At(id).lpCount }

  lemma {:induction false} RetireFreesOnlyDrained(e: Epochs)
    requires WindowOk(e)
    ensures var r := Retire(e);
            && WindowOk(r) && r.current == e.current && SameCounts(e, r) && e.oldest <= r.oldest
            && (forall id: nat :: e.At(id).lpCount != 0 || id == e.current ==> r.At(id) == e.At(id))
            && (forall id: nat :: r.InWindow(id) || e.At(id).m.m00 == 0 ==> r.At(id) == e.At(id))
            && (r.oldest == r.current || (r.At(r.oldest).m.m00 != 0 && r.At(r.oldest).lpCount != 0))
    decreases e.current - e.oldest
  {
    assert Woven(ZERO_MAT);
    hide Woven;
    if e.oldest < e.current {
      var o := e.At(e.oldest);
      if o.m.m00 == 0 || o.lpCount == 0 {
        var freed := (if o.m.m00 != 0 then e.Put(e.oldest, EMPTY_EPOCH) else e).(oldest := e.oldest + 1);
        assert forall id: nat :: freed.At(id) == if id == e.oldest && o.m.m00 != 0 then EMPTY_EPOCH else e.At(id);
        RetireFreesOnlyDrained(freed);
      }
    }
  }

  lemma DeterminantNeverFails(e: Epoch)
    ensures EpochDeterminant(e).Ok?
    ensures EpochDeterminant(e).value > DET_THRESHOLD ==> e.m.m00 != 0 && e.m.RawDet() > 0
  {
    hide SumMulDivSigned;
    if e.m.m00 != 0 {
      FusedMulDivIsExact(e.m.m00, e.m.m11, -e.m.m10, e.m.m01, M_DECIMALS);
      assert e.m.m00 * e.m.m11 + -e.m.m10 * e.m.m01 == e.m.RawDet();
      TruncDivBounds(e.m.RawDet(), M_DECIMALS);
    }
  }

  /** A roll keeps every count and every referenced epoch, and ends on an epoch whose determinant is positive. */
  lemma RollKeepsWindow(e: Epochs)
    requires WindowOk(e)
    ensures Roll(e).Err? ==> Roll(e).code == "LECAP"
    ensures Roll(e).Ok? ==>
              var r := Roll(e).value;
              && WindowOk(r) && SameCounts(e, r) && e.current <= r.current <= e.current + 1
              && (forall id: nat :: e.At(id).lpCount != 0 ==> r.At(id) == e.At(id))
              && r.At(r.current).m.m00 != 0 && r.At(r.current).m.RawDet() > 0
  {
    hide EpochDeterminant, Woven;
    DeterminantNeverFails(e.At(e.current));
    if EpochDeterminant(e.At(e.current)).value <= DET_THRESHOLD && ActiveWindow(e) < MAX_ACTIVE_EPOCHS {
      assert e.At(e.current + 1).lpCount == 0;
      var next := InitializeEpoch(e.(current := e.current + 1), e.current + 1);
      assert forall id: nat :: next.At(id) == if id == next.current then Epoch(IDENTITY, 0, 0, 0) else e.At(id);
      IdentityIsWoven();
      RetireFreesOnlyDrained(next);
    }
  }

  lemma ReferenceKeepsWindow(e: Epochs, id: nat)
    requires WindowOk(e)
    ensures WindowOk(IncrementLpCount(e, e.current))
    ensures DecrementLpCount(e, id).Ok? ==> WindowOk(DecrementLpCount(e, id).value)
  {
    hide Woven;
    var up := IncrementLpCount(e, e.current);
    assert forall i: nat :: up.At(i) == if i == e.current then e.At(i).(lpCount := e.At(i).lpCount + 1) else e.At(i);
    if DecrementLpCount(e, id).Ok? {
      var down := DecrementLpCount(e, id).value;
      assert forall i: nat :: down.At(i) == if i == id then e.At(i).(lpCount := e.At(i).lpCount - 1) else e.At(i);
    }
  }

  // ----- Snapshots -----

  /** The part of an LP record the pinning reads. */
  function Shape(l: LpPosition): (Mat, nat, nat) { (l.snap, l.initialStable, l.initialAsset) }

  /** Same snapshots, same epochs of LPs: only debts and funding rows may differ. */
  ghost predicate SameSnapshots(s: State, t: State)
  {
    forall u: Address :: Shape(t.Lp(u)) == Shape(s.Lp(u)) && t.EpochOf(u) == s.EpochOf(u)
  }

  lemma SamePinned(s: State, t: State)
    requires SameSnapshots(s, t)
    ensures forall u: Address :: t.Active(u) == s.Active(u)
    ensures forall id: nat :: Pinned(t, id) == Pinned(s, id)
  {
    forall u: Address ensures t.Active(u) == s.Active(u) {
      assert Shape(t.Lp(u)) == Shape(s.Lp(u));
    }
    forall id: nat ensures Pinned(t, id) == Pinned(s, id) {
      forall u ensures u in Pinned(t, id) <==> u in Pinned(s, id) {
        assert t.Active(u) == s.Active(u) && t.EpochOf(u) == s.EpochOf(u);
      }
    }
  }

  /** Whatever keeps snapshots and reference counts keeps the invariant, given a sound window. */
  lemma FrameKeepsInv(s: State, t: State)
    requires Inv(s) && SameSnapshots(s, t) && WindowOk(t.ep) && SameCounts(s.ep, t.ep)
    ensures Inv(t)
  {
    SamePinned(s, t);
    forall u: Address ensures SnapshotOk(t.Lp(u)) {
      assert Shape(t.Lp(u)) == Shape(s.Lp(u));
      assert SnapshotOk(s.Lp(u));
    }
  }

  /** How many of its references to an epoch a user accounts for. */
  function Reference(s: State, user: Address, id: nat): nat
  {
    if s.Active(user) && s.EpochOf(user) == id then 1 else 0
  }

  /** Every snapshot but one user's is the same. */
  ghost predicate SameOthers(s: State, t: State, user: Address)
  {
    forall u: Address :: u != user ==> Shape(t.Lp(u)) == Shape(s.Lp(u)) && t.EpochOf(u) == s.EpochOf(u)
  }

  lemma SizeBeside(before: set<Address>, after: set<Address>, user: Address)
    requires before - {user} == after - {user}
    ensures |after| == |before| - (if user in before then 1 else 0) + (if user in after then 1 else 0)
  {
    var rest := before - {user};
    assert before == if user in before then rest + {user} else rest;
    assert after == if user in after then rest + {user} else rest;
  }

  lemma PinnedIff(s: State, id: nat, user: Address)
    ensures Reference(s, user, id) == if user in Pinned(s, id) then 1 else 0
  {}

  lemma ReferenceFrame(s: State, t: State, u: Address, id: nat)
    requires Shape(t.Lp(u)) == Shape(s.Lp(u)) && t.EpochOf(u) == s.EpochOf(u)
    ensures Reference(t, u, id) == Reference(s, u, id)
  {}

  /** When one user's snapshot is replaced, its epochs' pinned sets change by that user alone. */
  lemma PinnedChange(s: State, t: State, user: Address, id: nat)
    requires SameOthers(s, t, user)
    ensures |Pinned(t, id)| == |Pinned(s, id)| - Reference(s, user, id) + Reference(t, user, id)
  {
    var before, after := Pinned(s, id), Pinned(t, id);
    hide Pinned, Reference, Shape;
    forall u ensures u in after - {user} <==> u in before - {user} {
      PinnedIff(s, id, u);
      PinnedIff(t, id, u);
      if u != user { ReferenceFrame(s, t, u, id); }
    }
    PinnedIff(s, id, user);
    PinnedIff(t, id, user);
    SizeBeside(before, after, user);
  }

  /** Replacing one user's snapshot keeps the invariant when the counts follow the references. */
  lemma ReplaceKeepsInv(s: State, t: State, user: Address)
    requires Inv(s) && SameOthers(s, t, user) && WindowOk(t.ep) && SnapshotOk(t.Lp(user))
    requires forall id: nat ::
             t.ep.At(id).lpCount == s.ep.At(id).lpCount - Reference(s, user, id)
             + Reference(t, user, id)
    ensures Inv(t)
  {
    hide WindowOk;
    forall u: Address ensures SnapshotOk(t.Lp(u)) {
      assert u != user ==> Shape(t.Lp(u)) == Shape(s.Lp(u));
      assert SnapshotOk(s.Lp(u));
    }
    forall id: nat ensures |Pinned(t, id)| <= t.ep.At(id).lpCount {
      PinnedChange(s, t, user, id);
      assert |Pinned(s, id)| <= s.ep.At(id).lpCount;
      assert t.ep.At(id).lpCount == s.ep.At(id).lpCount - Reference(s, user, id) + Reference(t, user, id);
    }
  }

  /** A pinned epoch is referenced, so releasing it cannot underflow. */
  lemma PinnedIsReferenced(s: State, user: Address)
    requires Inv(s) && s.Active(user)
    ensures s.ep.At(s.EpochOf(user)).lpCount > 0
  {
    assert user in Pinned(s, s.EpochOf(user));
    assert |Pinned(s, s.EpochOf(user))| <= s.ep.At(s.EpochOf(user)).lpCount;
  }

  lemma InvWindow(s: State)
    requires Inv(s)
    ensures WindowOk(s.ep)
  {}

  lemma ReleaseEffect(e: Epochs, active: bool, id: nat)
    requires WindowOk(e) && (active ==> e.At(id).lpCount > 0)
    ensures var r := if active then DecrementLpCount(e, id) else Ok(e);
            && r.Ok? && WindowOk(r.value)
            && (forall i: nat :: r.value.At(i).lpCount == e.At(i).lpCount - (if active && i == id then 1 else 0))
  {
    hide WindowOk;
    ReferenceKeepsWindow(e, id);
  }

  lemma ExitKeepsInv(s: State, user: Address)
    requires Inv(s)
    ensures ExitSnapshot(s, user).Ok? && Inv(ExitSnapshot(s, user).value)
  {
    hide Retire, WindowOk, Inv, DecrementLpCount;
    InvWindow(s);
    if s.Active(user) { PinnedIsReferenced(s, user); }
    ReleaseEffect(s.ep, s.Active(user), s.EpochOf(user));
    var ep := if s.Active(user) then DecrementLpCount(s.ep, s.EpochOf(user)).value else s.ep;
    RetireFreesOnlyDrained(ep);
    CountsFollow(s, s.ep, ep, ExitSnapshot(s, user).value, user);
  }

  /** Moving a reference touches no matrix or funding row, only the two counts. */
  lemma MoveReferenceEffect(e: Epochs, hadActive: bool, id: nat)
    requires WindowOk(e) && (hadActive ==> e.At(id).lpCount > 0)
    ensures var r := MoveReference(e, hadActive, id);
            && r.Ok? && WindowOk(r.value) && r.value.current == e.current
            && (forall i: nat :: r.value.At(i) == e.At(i).(lpCount := r.value.At(i).lpCount))
            && (forall i: nat :: r.value.At(i).lpCount
                                 == e.At(i).lpCount - (if hadActive && i == id then 1 else 0)
                                     + (if i == e.current then 1 else 0))
  {
    ReferenceKeepsWindow(e, id);
    if hadActive && id != e.current {
      var released := DecrementLpCount(e, id).value;
      assert forall i: nat :: released.At(i) == if i == id then e.At(i).(lpCount := e.At(i).lpCount - 1) else e.At(i);
      ReferenceKeepsWindow(released, id);
    }
  }

  /** The epochs an entering LP goes through: rolled, its reference moved to current, then retired. */
  lemma EnterWindow(e: Epochs, rolled: Epochs, active: bool, id: nat)
    requires WindowOk(e) && Roll(e) == Ok(rolled) && (active ==> e.At(id).lpCount > 0)
    ensures SameCounts(e, rolled)
    ensures var moved := MoveReference(rolled, active, id);
            && moved.Ok? && WindowOk(Retire(moved.value)) && SameCounts(moved.value, Retire(moved.value))
            && (forall i: nat :: moved.value.At(i).lpCount
                                 == rolled.At(i).lpCount - (if active && i == id then 1 else 0)
                                     + (if i == moved.value.current then 1 else 0))
            && moved.value.At(moved.value.current).m.m00 != 0 && moved.value.At(moved.value.current).m.RawDet() > 0
  {
    hide Retire, Roll, MoveReference, WindowOk;
    RollKeepsWindow(e);
    assert rolled.At(id).lpCount == e.At(id).lpCount;
    MoveReferenceEffect(rolled, active, id);
    var moved := MoveReference(rolled, active, id).value;
    assert moved.At(moved.current).m == rolled.At(moved.current).m;
    RetireFreesOnlyDrained(moved);
  }

  lemma EnterKeepsInv(s: State, user: Address, stable: nat, asset: nat)
    requires Inv(s) && (stable != 0 || asset != 0)
    ensures var r := EnterSnapshot(s, user, stable, asset);
            if r.Ok? then Inv(r.value) else r.code == "LECAP"
  {
    hide Retire, Roll, MoveReference, WindowOk, Inv;
    InvWindow(s);
    RollKeepsWindow(s.ep);
    if Roll(s.ep).Ok? {
      if s.Active(user) { PinnedIsReferenced(s, user); }
      EnterWindow(s.ep, Roll(s.ep).value, s.Active(user), s.EpochOf(user));
      var moved := MoveReference(Roll(s.ep).value, s.Active(user), s.EpochOf(user)).value;
      EnteredKeepsInv(s, Roll(s.ep).value, moved, EnterSnapshot(s, user, stable, asset).value, user, stable, asset);
    }
  }

  lemma EnteredKeepsInv(s: State, rolled: Epochs, moved: Epochs, t: State, user: Address, stable: nat, asset: nat)
    requires Inv(s) && (stable != 0 || asset != 0)
    requires WindowOk(Retire(moved)) && SameCounts(s.ep, rolled) && SameCounts(moved, Retire(moved))
    requires forall i: nat :: moved.At(i).lpCount == rolled.At(i).lpCount
               - (if s.Active(user) && i == s.EpochOf(user) then 1 else 0) + (if i == moved.current then 1 else 0)
    requires var m := moved.At(moved.current).m; m.m00 != 0 && m.RawDet() > 0
    requires var e := moved.At(moved.current);
             var lp := s.Lp(user).(initialStable := stable, initialAsset := asset, snap := e.m, g0 := e.g0, g1 := e.g1);
             t == s.(ep := Retire(moved)).SetLp(user, lp).SetEpochOf(user, moved.current)
    ensures Inv(t)
  {
    hide Retire, WindowOk, Inv, SameCounts;
    CountsFollow(s, rolled, moved, t, user);
  }

  /** The counts of t are those of s less the reference the user had, plus the one it has. */
  lemma CountsFollow(s: State, rolled: Epochs, moved: Epochs, t: State, user: Address)
    requires Inv(s) && SameOthers(s, t, user) && WindowOk(t.ep) && SnapshotOk(t.Lp(user))
    requires SameCounts(s.ep, rolled) && SameCounts(moved, t.ep)
    requires forall i: nat :: moved.At(i).lpCount == rolled.At(i).lpCount
               - (if s.Active(user) && i == s.EpochOf(user) then 1 else 0)
               + (if t.Active(user) && i == t.EpochOf(user) then 1 else 0)
    ensures Inv(t)
  {
    hide WindowOk, Inv;
    forall i: nat ensures t.ep.At(i).lpCount == s.ep.At(i).lpCount - Reference(s, user, i) + Reference(t, user, i) {
      assert t.ep.At(i).lpCount == moved.At(i).lpCount;
      assert rolled.At(i).lpCount == s.ep.At(i).lpCount;
    }
    ReplaceKeepsInv(s, t, user);
  }

  /** Taking or dropping a snapshot keeps the invariant; it can fail only because the window is full. */
  lemma SnapshotKeepsInv(s: State, user: Address, stable: nat, asset: nat)
    requires Inv(s)
    ensures var r := UpdateSnapshots(s, user, stable, asset);
            if r.Ok? then Inv(r.value) else r.code == "LECAP"
  {
    hide ExitSnapshot, EnterSnapshot;
    var t := StampRate(s, user);
    FrameKeepsInv(s, t);
    if stable == 0 && asset == 0 { ExitKeepsInv(t, user); } else { EnterKeepsInv(t, user, stable, asset); }
  }

  // ----- Fan-outs -----

  /** A fan-out touches only live epochs, and never a count or a pointer. */
  lemma MatrixUpdateKeepsWindow(e: Epochs, st: MatrixStep)
    requires WindowOk(e) && st.Ok()
    ensures var r := ApplyMatrixUpdate(e, st.aX, st.aY, st.kind); WindowOk(r) && SameCounts(e, r)
  {
    hide StepMatrix, Woven;
    var r := ApplyMatrixUpdate(e, st.aX, st.aY, st.kind);
    forall id: nat
      ensures r.At(id).lpCount == e.At(id).lpCount && Woven(r.At(id).m)
      ensures r.At(id).m.m00 != 0 ==> e.InWindow(id)
    {
      assert Woven(e.At(id).m) && (e.At(id).m.m00 != 0 ==> e.InWindow(id));
      if e.Live(id) { StepIsWoven(st, e.At(id).m); }
    }
  }

  lemma AccrualKeepsWindow(e: Epochs, b: int)
    requires WindowOk(e)
    ensures WindowOk(AccrueAll(e, b)) && SameCounts(e, AccrueAll(e, b))
  {
    var r := AccrueAll(e, b);
    forall id: nat ensures r.At(id).lpCount == e.At(id).lpCount && r.At(id).m == e.At(id).m {
    }
  }

  lemma FundingKeepsInv(env: Env, s: State, price: nat)
    requires Inv(s) && UpdateFG(env, s, price).Ok?
    ensures Inv(UpdateFG(env, s, price).value)
  {
    hide FundingRate, AccrueAll, FundingB;
    if s.lastOp != env.now {
      AccrualKeepsWindow(s.ep, FundingB(FundingRate(env, s, price, s.lastOp).value));
      FrameKeepsInv(s, UpdateFG(env, s, price).value);
    }
  }

  lemma SettleKeepsInv(s: State, user: Address)
    requires Inv(s) && SettleAndSnapshot(s, user).Ok?
    ensures Inv(SettleAndSnapshot(s, user).value)
  {
    hide LpBalance, FundingFee, UpdateSnapshots, CreditFunding;
    var balance, fee := LpBalance(s, user).value, FundingFee(s, user).value;
    CreditKeepsInv(s, user, fee);
    SnapshotKeepsInv(CreditFunding(s, user, fee), user, balance.0, balance.1);
  }

  lemma CreditKeepsInv(s: State, user: Address, fee: Signed)
    requires Inv(s)
    ensures Inv(CreditFunding(s, user, fee))
  {
    FrameKeepsInv(s, CreditFunding(s, user, fee));
  }

  // ----- Trades -----

  lemma TraderKeepsInv(s: State, t: TradeArgs, tradeReturn: nat)
    requires Inv(s) && SettleTrader(s, t, tradeReturn).Ok?
    ensures Inv(SettleTrader(s, t, tradeReturn).value)
  {
    hide FundingFee, TradedPosition, SignedSum;
    FrameKeepsInv(s, SettleTrader(s, t, tradeReturn).value);
  }

  lemma CoefficientWithinScale(amount: nat, pool: nat)
    requires 0 < pool && amount <= pool
    ensures Md(amount, M_DECIMALS, pool) <= M_DECIMALS
  {
    MulMonotone(M_DECIMALS, amount, pool);
    DivMonotone(amount * M_DECIMALS, M_DECIMALS * pool, pool);
    DivCancel(M_DECIMALS, pool);
  }

  /** A trade's matrix coefficients never exceed the scale on the side it drains, since the pool subtraction would
      revert. */
  lemma PoolMoveKeepsInv(env: Env, s: State, t: TradeArgs, q: Quote)
    requires Inv(s) && MovePool(env, s, t, q).Ok?
    ensures Inv(MovePool(env, s, t, q).value)
  {
    hide Md, ApplyMatrixUpdate, LongPoolInput, ShortPoolOutput;
    var r := MovePool(env, s, t, q).value;
    if t.direction {
      var aX := Md(q.tradeReturn, M_DECIMALS, s.pool.asset);
      var aY := Md(LongPoolInput(env, t, q.fee).value, M_DECIMALS, s.pool.asset);
      CoefficientWithinScale(q.tradeReturn, s.pool.asset);
      MatrixUpdateKeepsWindow(s.ep, MatrixStep(aX, aY, LongUpdate));
    } else {
      var net := ShortPoolOutput(env, q).value;
      CoefficientWithinScale(net, s.pool.stable);
      MatrixUpdateKeepsWindow(s.ep, MatrixStep(Md(t.size, M_DECIMALS, s.pool.stable),
                                               Md(net, M_DECIMALS, s.pool.stable), ShortUpdate));
    }
    FrameKeepsInv(s, r);
  }

  lemma ExecuteTradeKeepsInv(env: Env, s: State, t: TradeArgs)
    requires Inv(s) && ExecuteTrade(env, s, t).Ok?
    ensures Inv(ExecuteTrade(env, s, t).value.0)
  {
    hide OpenWindow, LongQuote, ShortQuote, UpdateFG, SettleTrader, MovePool, PayFees, PoolDeepEnough;
    var w := OpenWindow(env, s, t.direction, t.price);
    var q := (if t.direction then LongQuote(env, s, t, w) else ShortQuote(env, s, t, w)).value;
    var s1 := s.(window := q.window);
    FrameKeepsInv(s, s1);
    FundingKeepsInv(env, s1, t.price);
    var s2 := UpdateFG(env, s1, t.price).value;
    TraderKeepsInv(s2, t, q.tradeReturn);
    var s3 := SettleTrader(s2, t, q.tradeReturn).value;
    PoolMoveKeepsInv(env, s3, t, q);
    var s4 := MovePool(env, s3, t, q).value;
    FrameKeepsInv(s4, PayFees(env, s4, t, q.fee));
  }

  // ----- Liquidity, closing, realising, liquidating -----

  lemma FeeKeepsInv(s: State, fee: nat, price: nat)
    requires Inv(s)
    ensures Inv(DistributeFee(s, fee, price))
  {
    hide Md, ApplyMatrixUpdate;
    var total := s.pool.stable + Md(s.pool.asset, price, ORACLE_DECIMALS);
    if fee > 0 && s.pool.asset != 0 && s.pool.stable != 0 && total > 0 {
      FeeShare(fee, s.pool.stable, total);
      var feeStable := Md(fee, s.pool.stable, total);
      MatrixUpdateKeepsWindow(s.ep, MatrixStep(Md(feeStable, M_DECIMALS, s.pool.stable),
                                               Md(fee - feeStable, M_DECIMALS, s.pool.asset), FeeUpdate));
      FrameKeepsInv(s, DistributeFee(s, fee, price));
    }
  }

  lemma WithdrawalKeepsInv(s: State, user: Address, stable: nat, asset: nat, owed: nat)
    requires Inv(s)
    ensures Inv(CreditWithdrawal(s, user, stable, asset, owed))
  {
    FrameKeepsInv(s, CreditWithdrawal(s, user, stable, asset, owed));
  }

  lemma RemoveKeepsInv(env: Env, s: State, stable: nat, asset: nat, user: Address, price: nat, maxFee: nat)
    requires Inv(s) && RemoveLiquidityCore(env, s, stable, asset, user, price, maxFee).Ok?
    ensures Inv(RemoveLiquidityCore(env, s, stable, asset, user, price, maxFee).value.0)
  {
    hide LpBalance, UpdateFG, FundingFee, CreditFunding, UpdateSnapshots, RemovalFee, Md, DistributeFee,
         CreditWithdrawal;
    var balance, s1 := LpBalance(s, user).value, UpdateFG(env, s, price).value;
    FundingKeepsInv(env, s, price);
    var s2 := CreditFunding(s1, user, FundingFee(s1, user).value);
    CreditKeepsInv(s1, user, FundingFee(s1, user).value);
    SnapshotKeepsInv(s2, user, balance.0 - stable, balance.1 - asset);
    var s3 := UpdateSnapshots(s2, user, balance.0 - stable, balance.1 - asset).value;
    var fee := Md(stable + Md(asset, price, ORACLE_DECIMALS), RemovalFee(env.cfg, stable, asset, s3.pool, price).value,
                  LIQUIDITY_FEE_DECIMALS);
    var s4 := s3.(pool := Pool(s3.pool.stable - stable, s3.pool.asset - asset));
    FrameKeepsInv(s3, s4);
    FeeKeepsInv(s4, fee, price);
    var (left, owed) := TakeFee(stable, fee);
    var s5 := CreditWithdrawal(DistributeFee(s4, fee, price), user, left, asset, owed);
    WithdrawalKeepsInv(DistributeFee(s4, fee, price), user, left, asset, owed);
    FrameKeepsInv(s5, ResetWindow(env, s5, price));
  }

  lemma AddKeepsInv(env: Env, s: State, stable: nat, asset: nat, fee: nat, price: nat, user: Address)
    requires Inv(s) && AddLiquidityCore(env, s, stable, asset, fee, price, user).Ok?
    ensures Inv(AddLiquidityCore(env, s, stable, asset, fee, price, user).value)
  {
    hide LpBalance, UpdateFG, FundingRate, FundingFeeWith, CreditFunding, UpdateSnapshots, DistributeFee, SignedSum;
    var owes := FundingFeeWith(s, user, SignedSum(s.rate, FundingRate(env, s, price, s.lastOp).value)).value;
    var s1 := CreditFunding(s, user, owes);
    CreditKeepsInv(s, user, owes);
    FundingKeepsInv(env, s1, price);
    var s2 := UpdateFG(env, s1, price).value;
    var (left, owed) := TakeFee(stable, fee);
    var lp := s2.Lp(user);
    var s3 := s2.SetLp(user, lp.(debtStable := lp.debtStable + stable + owed, debtAsset := lp.debtAsset + asset));
    FrameKeepsInv(s2, s3);
    FeeKeepsInv(s3, fee, price);
    var s4 := DistributeFee(s3, fee, price);
    var held := LpBalance(s4, user).value;
    var stableLeft := if s4.pool != Pool(0, 0) then s4.pool.stable - held.0 else 0;
    var assetLeft := if s4.pool != Pool(0, 0) then s4.pool.asset - held.1 else 0;
    var s5 := s4.(pool := Pool(stableLeft + (left + held.0), assetLeft + (asset + held.1)));
    FrameKeepsInv(s4, s5);
    SnapshotKeepsInv(s5, user, left + held.0, asset + held.1);
  }

  /** Clearing a position drops its snapshot without releasing its epoch: the count may then exceed the pinned LPs,
      never fall short. */
  lemma ClearKeepsInv(s: State, user: Address)
    requires Inv(s)
    ensures Inv(s.SetLp(user, EMPTY_LP))
  {
    var t := s.SetLp(user, EMPTY_LP);
    forall id: nat ensures |Pinned(t, id)| <= t.ep.At(id).lpCount {
      PinnedChange(s, t, user, id);
      assert |Pinned(s, id)| <= s.ep.At(id).lpCount;
    }
    forall u: Address ensures SnapshotOk(t.Lp(u)) {
      assert SnapshotOk(s.Lp(u));
    }
  }

  lemma CloseLpKeepsInv(env: Env, s: State, user: Address, price: nat, maxLiqFee: nat)
    requires Inv(s) && CloseLp(env, s, user, price, maxLiqFee).Ok?
    ensures Inv(CloseLp(env, s, user, price, maxLiqFee).value)
  {
    hide LpBalance, RemoveLiquidityCore, Inv;
    var balance := LpBalance(s, user).value;
    var lp := s.Lp(user);
    if balance.0 == 0 && balance.1 == 0 && lp.debtAsset == 0 && lp.debtStable == 0 {
      ClearKeepsInv(s, user);
    } else {
      RemoveKeepsInv(env, s, balance.0, balance.1, user, price, maxLiqFee);
      var r := RemoveLiquidityCore(env, s, balance.0, balance.1, user, price, maxLiqFee).value.0;
      var rest, p := r.Lp(user), r.Pos(user);
      var t := r.SetPos(user, p.(debtAsset := p.debtAsset + rest.debtAsset,
                                 debtStable := p.debtStable + rest.debtStable))
                .(exposure := LowerExposure(r.exposure, rest.debtAsset));
      PositionsKeepInv(r, t);
      ClearKeepsInv(t, user);
    }
  }

  /** Positions, exposure, window and insurance are none of the pinning's business. */
  lemma PositionsKeepInv(s: State, t: State)
    requires Inv(s) && t.ep == s.ep && t.lps == s.lps && t.lpEpoch == s.lpEpoch
    ensures Inv(t)
  {
    FrameKeepsInv(s, t);
  }

  lemma FlattenKeepsInv(env: Env, s: State, user: Address, frontend: Address, price: nat, maxSlippage: nat)
    requires Inv(s) && Flatten(env, s, user, frontend, price, maxSlippage).Ok?
    ensures Inv(Flatten(env, s, user, frontend, price, maxSlippage).value)
  {
    hide Inv, SellAll, BuyBack, Md;
    var p := s.Pos(user);
    if Md(DiffAbs(p.balanceAsset, p.debtAsset), price, ORACLE_DECIMALS) < DUST {
      PositionsKeepInv(s, s.SetPos(user, p.(balanceAsset := p.debtAsset)));
    } else {
      var sold := if p.balanceAsset > p.debtAsset then SellAll(env, s, user, frontend, price, maxSlippage).value
                  else s.SetPos(user, p.(debtAsset := p.debtAsset - p.balanceAsset, balanceAsset := 0));
      if p.balanceAsset > p.debtAsset {
        SellAllKeepsInv(env, s, user, frontend, price, maxSlippage);
      } else {
        PositionsKeepInv(s, sold);
      }
      if sold.Pos(user).debtAsset > 0 {
        BuyBackKeepsInv(env, sold, user, frontend, price, maxSlippage);
      }
    }
  }

  lemma SellAllKeepsInv(env: Env, s: State, user: Address, frontend: Address, price: nat, maxSlippage: nat)
    requires Inv(s) && s.Pos(user).balanceAsset >= s.Pos(user).debtAsset
             && SellAll(env, s, user, frontend, price, maxSlippage).Ok?
    ensures Inv(SellAll(env, s, user, frontend, price, maxSlippage).value)
  {
    hide Inv, ExecuteTrade, Md;
    var p := s.Pos(user);
    var size := p.balanceAsset - p.debtAsset;
    var netted := s.SetPos(user, p.(balanceAsset := size, debtAsset := 0));
    PositionsKeepInv(s, netted);
    var minReturn := Md(Md(size, price, ORACLE_DECIMALS), BPS - maxSlippage, BPS);
    ExecuteTradeKeepsInv(env, netted, TradeArgs(user, false, size, minReturn, s.pool.stable, frontend, price));
  }

  lemma BuyBackKeepsInv(env: Env, s: State, user: Address, frontend: Address, price: nat, maxSlippage: nat)
    requires Inv(s) && BuyBack(env, s, user, frontend, price, maxSlippage).Ok?
    ensures Inv(BuyBack(env, s, user, frontend, price, maxSlippage).value)
  {
    hide Inv, ExecuteTrade, Md, BuyBackInput, OpenWindow;
    var turned := s.(window := OpenWindow(env, s, true, price));
    PositionsKeepInv(s, turned);
    var needed := BuyBackInput(env, turned, s.Pos(user).debtAsset, frontend, price).value;
    var minReturn := Md(Md(needed, ORACLE_DECIMALS, price), BPS - maxSlippage, BPS);
    ExecuteTradeKeepsInv(env, turned, TradeArgs(user, true, needed, minReturn, s.pool.asset, frontend, price));
  }

  lemma CloseKeepsInv(env: Env, s: State, user: Address, maxSlippage: nat, maxLiqFee: nat, frontend: Address,
                      price: nat,
                      collateral: nat, isSelfClose: bool)
    requires Inv(s) && Close(env, s, user, maxSlippage, maxLiqFee, frontend, price, collateral, isSelfClose).Ok?
    ensures Inv(Close(env, s, user, maxSlippage, maxLiqFee, frontend, price, collateral, isSelfClose).value.0)
  {
    hide Inv, CloseLp, Flatten, CalcPnlUser;
    CloseLpKeepsInv(env, s, user, price, maxLiqFee);
    var exited := CloseLp(env, s, user, price, maxLiqFee).value;
    FlattenKeepsInv(env, exited, user, frontend, price, maxSlippage);
    PositionsKeepInv(Flatten(env, exited, user, frontend, price, maxSlippage).value,
                     Close(env, s, user, maxSlippage, maxLiqFee, frontend, price, collateral, isSelfClose).value.0);
  }

  lemma PullKeepsInv(env: Env, s: State, user: Address, size: nat, fraction: nat, long: bool, balance: (nat, nat),
                     price: nat)
    requires Inv(s) && PullLiquidity(env, s, user, size, fraction, long, balance, price).Ok?
    ensures Inv(PullLiquidity(env, s, user, size, fraction, long, balance, price).value)
  {
    hide Inv, RemoveLiquidityCore, LiquidityToPull;
    if balance.0 != 0 || balance.1 != 0 {
      var pull := LiquidityToPull(s, user, size, fraction, long, balance).value;
      if pull.0 != 0 || pull.1 != 0 {
        RemoveKeepsInv(env, s, pull.0, pull.1, user, price, 0);
      }
    }
  }

  lemma LiquidateTransferKeepsInv(env: Env, s: State, liquidator: Address, user: Address, size: nat, price: nat,
                                  collateral: nat)
    requires Inv(s) && LiquidateTransfer(env, s, liquidator, user, size, price, collateral).Ok?
    ensures Inv(LiquidateTransfer(env, s, liquidator, user, size, price, collateral).value.0)
  {
    hide Inv, UpdateFG, CalcMr, CalcPnlUserInternal, SettleAndSnapshot, LpBalance, PullLiquidity, LiquidatePosition,
         LiquidationDiscount,
         FractionAllowed, MdR;
    FundingKeepsInv(env, s, price);
    var s1 := UpdateFG(env, s, price).value;
    SettleKeepsInv(s1, liquidator);
    var s2 := SettleAndSnapshot(s1, liquidator).value;
    SettleKeepsInv(s2, user);
    var s3 := SettleAndSnapshot(s2, user).value;
    var balance := LpBalance(s3, user).value;
    var held, owed := balance.1 + s3.Pos(user).balanceAsset, s3.Pos(user).debtAsset + s3.Lp(user).debtAsset;
    var fraction := MdR(size, LIQUIDATION_DECIMALS, DiffAbs(held, owed)).value;
    PullKeepsInv(env, s3, user, size, fraction, held > owed, balance, price);
    var s4 := PullLiquidity(env, s3, user, size, fraction, held > owed, balance, price).value;
    PositionsKeepInv(s4, LiquidateTransfer(env, s, liquidator, user, size, price, collateral).value.0);
  }

  lemma LiquidateKeepsInv(env: Env, s: State, liquidator: Address, user: Address, size: nat, price: nat, cu: nat,
                          cl: nat)
    requires Inv(s) && Liquidate(env, s, liquidator, user, size, price, cu, cl).Ok?
    ensures Inv(Liquidate(env, s, liquidator, user, size, price, cu, cl).value)
  {
    hide Inv, LiquidateTransfer, CalcMr, CalcPnlUserInternal, Close;
    LiquidateTransferKeepsInv(env, s, liquidator, user, size, price, cu);
    var r := LiquidateTransfer(env, s, liquidator, user, size, price, cu).value;
    if r.1 == LIQUIDATION_DECIMALS {
      CloseKeepsInv(env, r.0, user, BPS, LIQUIDITY_FEE_DECIMALS, liquidator, price, cu, false);
    }
  }

  // ----- Every run -----

  /** Every entry point keeps the invariant. */
  lemma ApplyKeepsInv(env: Env, s: State, op: Op)
    requires Inv(s) && Apply(env, s, op).Ok?
    ensures Inv(Apply(env, s, op).value)
  {
    hide Inv, ExecuteTrade, CalcMr, RemoveLiquidityCore, AddLiquidityCore, RequireSolvent, DepositFee, Md, Close,
         CalcPnlUser,
         UpdateFG, SettleAndSnapshot, Liquidate, LiquidateTransfer;
    match op
    case TradeOp(t, c) =>
      ExecuteTradeKeepsInv(env, s, t);
    case AddLiquidityOp(u, x, y, m, p, c) =>
      var fee := Md(x + Md(y, p, ORACLE_DECIMALS), DepositFee(env.cfg, x, y, s.pool, p).value, LIQUIDITY_FEE_DECIMALS);
      AddKeepsInv(env, s, x, y, fee, p, u);
      var added := AddLiquidityCore(env, s, x, y, fee, p, u).value;
      PositionsKeepInv(added, ResetWindow(env, added, p));
    case RemoveLiquidityOp(u, x, y, m, p, c) =>
      RemoveKeepsInv(env, s, x, y, u, p, m);
    case CloseOp(u, sl, lf, f, p, c) =>
      CloseKeepsInv(env, s, u, sl, lf, f, p, c, true);
    case AutoCloseOp(a, u, sl, lf, f, p, c) =>
      var moved := MoveAutoCloseFee(env, s, a, u);
      PositionsKeepInv(s, moved);
      CloseKeepsInv(env, moved, u, sl, lf, f, p, c, true);
    case RealizePnlOp(u, p, c) =>
      FundingKeepsInv(env, s, p);
      SettleKeepsInv(UpdateFG(env, s, p).value, u);
      PositionsKeepInv(SettleAndSnapshot(UpdateFG(env, s, p).value, u).value, Apply(env, s, op).value);
    case LiquidateOp(l, u, n, p, cu, cl) =>
      LiquidateKeepsInv(env, s, l, u, n, p, cu, cl);
    case UpdateLpSnapshotOp(u, p) =>
      FundingKeepsInv(env, s, p);
      SettleKeepsInv(UpdateFG(env, s, p).value, u);
    case UpdateFGOp(p) =>
      FundingKeepsInv(env, s, p);
  }

  /** The invariant holds after every run from the initial state, whatever calls succeed or revert. */
  lemma {:induction false} EveryRunIsOk(calls: seq<Call>)
    ensures Inv(Run(INITIAL_STATE, calls))
  {
    hide Inv, Apply;
    if calls == [] {
      InitialStateOk();
    } else {
      var last := |calls| - 1;
      EveryRunIsOk(calls[..last]);
      var s := Run(INITIAL_STATE, calls[..last]);
      if Apply(calls[last].env, s, calls[last].op).Ok? {
        ApplyKeepsInv(calls[last].env, s, calls[last].op);
      }
    }
  }

  /** In every reachable state: an epoch's count covers the LPs pinned to it; a pinned epoch is never freed by
      a retire or a roll; while initialised it lies in the window; and re-snapshotting anyone, to any balances, can
      only fail because the window is full, so a release never underflows. */
  lemma PinnedEpochsAreSafe(calls: seq<Call>, id: nat, user: Address, stable: nat, asset: nat)
    ensures var s := Run(INITIAL_STATE, calls);
            && |Pinned(s, id)| <= s.ep.At(id).lpCount
            && (s.ep.At(id).m.m00 != 0 ==> s.ep.InWindow(id))
            && (user in Pinned(s, id) ==>
                  && Retire(s.ep).At(id) == s.ep.At(id)
                  && (Roll(s.ep).Ok? ==> Roll(s.ep).value.At(id) == s.ep.At(id)))
            && (UpdateSnapshots(s, user, stable, asset).Ok? || UpdateSnapshots(s, user, stable, asset) == Err("LECAP"))
  {
    hide Run, Retire, Roll, UpdateSnapshots;
    EveryRunIsOk(calls);
    var s := Run(INITIAL_STATE, calls);
    RetireFreesOnlyDrained(s.ep);
    RollKeepsWindow(s.ep);
    SnapshotKeepsInv(s, user, stable, asset);
    assert |Pinned(s, id)| <= s.ep.At(id).lpCount;
    if user in Pinned(s, id) {
      PinnedIsReferenced(s, user);
    }
  }

  /** In every reachable state every epoch's matrix is either empty, or exactly what a run of trades and fees makes of
      the identity: it has no negative entry and is below the unrounded product of that run in every entry. */
  lemma ReachableMatricesBelowExact(calls: seq<Call>, id: nat)
    ensures var m := Run(INITIAL_STATE, calls).ep.At(id).m;
            && NonNegativeMat(m)
            && (m != ZERO_MAT ==> exists steps :: AllOk(steps) && m == RunMatrix(steps) && Below(m, ExactRun(steps)))
  {
    hide Run, RunMatrix, ExactRun, Below;
    EveryRunIsOk(calls);
    var m := Run(INITIAL_STATE, calls).ep.At(id).m;
    assert Woven(m);
    if m != ZERO_MAT {
      var steps :| AllOk(steps) && m == RunMatrix(steps);
      RunNeverFavoursLps(steps);
    }
  }

  /** When a close clears a live snapshot whose balances and debts are all zero, the epoch keeps a reference no LP
      holds. */
  lemma ClearingLeavesReference(env: Env, s: State, user: Address, price: nat, maxLiqFee: nat)
    requires s.Active(user) && LpBalance(s, user) == Ok((0, 0)) && s.Lp(user).debtAsset == 0
             && s.Lp(user).debtStable == 0
    ensures var id := s.EpochOf(user);
            var r := CloseLp(env, s, user, price, maxLiqFee);
            && r.Ok? && r.value.ep == s.ep && |Pinned(r.value, id)| == |Pinned(s, id)| - 1
  {
    hide LpBalance, RemoveLiquidityCore;
    PinnedChange(s, s.SetLp(user, EMPTY_LP), user, s.EpochOf(user));
  }

  // ----- The window -----

  /** The epochs the fan-out loops act on. */
  function LiveSet(e: Epochs): set<nat>
  {
    set id | id in e.slots && e.InWindow(id) && e.Live(id)
  }

  function Range(lo: nat, hi: nat): (r: set<nat>)
    requires lo <= hi
    ensures |r| == hi - lo
    ensures forall x: nat :: x in r <==> lo <= x < hi
    decreases hi - lo
  {
    if lo == hi then {} else {lo} + Range(lo + 1, hi)
  }

  lemma SubsetSize<T>(a: set<T>, b: set<T>)
    requires a <= b
    ensures |a| <= |b|
  {
    assert b == a + (b - a);
  }

  lemma WindowSize(e: Epochs)
    requires WindowOk(e)
    ensures |LiveSet(e)| <= MAX_ACTIVE_EPOCHS
  {
    hide Woven;
    var window := Range(e.oldest, e.current + 1);
    if Span(e) == MAX_ACTIVE_EPOCHS + 1 {
      var below := e.current - 1;
      assert below !in LiveSet(e);
      SubsetSize(LiveSet(e), window - {below});
      assert |window - {below}| == |window| - 1;
    } else {
      SubsetSize(LiveSet(e), window);
    }
  }

  /** In every reachable state at most 8 epochs are live, though the pointers may span 9; at 9 the epoch just below
      current is unreferenced. */
  lemma WindowIsBounded(calls: seq<Call>)
    ensures var e := Run(INITIAL_STATE, calls).ep;
            && |LiveSet(e)| <= MAX_ACTIVE_EPOCHS
            && 1 <= Span(e) <= MAX_ACTIVE_EPOCHS + 1
            && (Span(e) == MAX_ACTIVE_EPOCHS + 1 ==> e.At(e.current - 1).lpCount == 0)
  {
    hide Run, LiveSet;
    EveryRunIsOk(calls);
    WindowSize(Run(INITIAL_STATE, calls).ep);
  }
}
