/** The integer accounting against the exact scheme: what the LPs can claim together follows the pool through every
    trade, up to a slack that only their snapshots decide. */
module ClaimDrift {
  import opened Arith
  import opened Reals
  import opened FusedMulDiv
  import opened EngineState
  import opened EngineSpec
  import opened EngineOps
  import opened MatrixRounding
  import opened Pinning
  import opened Settlement
  import opened Coefficients
  import opened LiquidityBalances

  /** A stable and an asset amount, without rounding. */
  datatype Pair = Pair(stable: real, asset: real)

  const NIL := Pair(0.0, 0.0)

  function Plus(a: Pair, b: Pair): Pair { Pair(a.stable + b.stable, a.asset + b.asset) }
  function Minus(a: Pair, b: Pair): Pair { Pair(a.stable - b.stable, a.asset - b.asset) }

  /** How far apart two amounts are. */
  function Apart(x: real, y: real): real { if x >= y then x - y else y - x }

  // ----- Claims -----

  /** The snapshot's adjugate times its initial balances. */
  function Unwound(l: LpPosition): (int, int)
  {
    var m, p, q := l.snap, l.initialStable, l.initialAsset;
    (m.m11 * p - m.m01 * q, -m.m10 * p + m.m00 * q)
  }

  /** A row of a matrix applied to a vector. */
  function Row(a: int, b: int, u: (int, int)): int { a * u.0 + b * u.1 }

  /** What an LP with this record recovers from this matrix, before it is truncated and clamped to the pool. */
  function Recovers(l: LpPosition, m: Mat): Pair
  {
    if l.snap.RawDet() <= 0 then NIL
    else
      var u, det := Unwound(l), l.snap.RawDet();
      Pair(Ratio(Row(m.m00, m.m01, u), det), Ratio(Row(m.m10, m.m11, u), det))
  }

  function Claim(s: State, user: Address): Pair { Recovers(s.Lp(user), s.ep.At(s.EpochOf(user)).m) }

  /** What one matrix step may cost or give an LP: one unit of matrix scale on each entry, unwound. */
  function RecordSlack(l: LpPosition): real
  {
    if l.snap.RawDet() <= 0 then 0.0 else Ratio(Abs(Unwound(l).0) + Abs(Unwound(l).1), l.snap.RawDet())
  }

  function Slack(s: State, user: Address): real { RecordSlack(s.Lp(user)) }

  // ----- One row of one step -----

  /** Two amounts weighted by coefficients at matrix scale. */
  function Blend(own: int, other: int, x: real, y: real): real { Frac(own) * x + Frac(other) * y }

  /** The exact step on a pair. */
  function Moved(f: RowFactors, v: Pair): Pair
  {
    Pair(Blend(f.own0, f.other0, v.stable, v.asset), Blend(f.own1, f.other1, v.asset, v.stable))
  }

  lemma ProductWithin(e: int, u: int)
    requires 0 <= e < D
    ensures Abs(e * u) <= D * Abs(u)
  {
    MulMonotone(Abs(u), e, D);
    assert Abs(e * u) == e * Abs(u);
  }

  /** A row rounded down moves its product with a vector by less than one unit of scale on each coordinate. */
  lemma RowWithin(own: int, other: int, a: int, b: int, c: int, d: int, a': int, b': int, u: (int, int))
    requires RoundsDown(a', own * a + other * c) && RoundsDown(b', own * b + other * d)
    ensures Abs(D * Row(a', b', u) - (own * Row(a, b, u) + other * Row(c, d, u))) <= D * (Abs(u.0) + Abs(u.1))
  {
    var ea, eb := own * a + other * c - D * a', own * b + other * d - D * b';
    ProductWithin(ea, u.0);
    ProductWithin(eb, u.1);
    RowError(own, other, a, b, c, d, a', b', u.0, u.1);
    assert D * (Abs(u.0) + Abs(u.1)) == D * Abs(u.0) + D * Abs(u.1);
  }

  lemma RowError(own: int, other: int, a: int, b: int, c: int, d: int, a': int, b': int, x: int, y: int)
    ensures own * (a * x + b * y) + other * (c * x + d * y) - D * (a' * x + b' * y)
            == (own * a + other * c - D * a') * x + (own * b + other * d - D * b') * y
  {
    calc {
      (own * a + other * c - D * a') * x + (own * b + other * d - D * b') * y;
      { Spread(own * a, other * c, D * a', x); Spread(own * b, other * d, D * b', y); }
      own * a * x + other * c * x - D * a' * x + (own * b * y + other * d * y - D * b' * y);
      own * (a * x) + own * (b * y) + (other * (c * x) + other * (d * y)) - (D * (a' * x) + D * (b' * y));
      own * (a * x + b * y) + other * (c * x + d * y) - D * (a' * x + b' * y);
    }
  }

  lemma Spread(p: int, q: int, r: int, x: int)
    ensures (p + q - r) * x == p * x + q * x - r * x
  {}

  /** The same bound between quotients by det. */
  lemma QuotientWithin(own: int, other: int, z: int, w: int, z': int, bound: int, det: int)
    requires det > 0 && Abs(D * z' - (own * z + other * w)) <= D * bound
    ensures Apart(Ratio(z', det), Blend(own, other, Ratio(z, det), Ratio(w, det))) <= Ratio(bound, det)
  {
  }

  // ----- One LP, one step -----

  /** Both amounts within e of each other. */
  predicate Within(a: Pair, b: Pair, e: real)
  {
    Apart(a.stable, b.stable) <= e && Apart(a.asset, b.asset) <= e
  }

  /** Pinned, with a sound snapshot, to an epoch the fan-out reaches. */
  predicate Tracked(s: State, user: Address)
  {
    s.Lp(user).snap.RawDet() > 0 && s.ep.InWindow(s.EpochOf(user)) && s.ep.Live(s.EpochOf(user))
  }

  lemma MatrixClaim(l: LpPosition, m: Mat, r: Mat, st: MatrixStep)
    requires st.Ok() && NonNegativeMat(m) && r == StepMatrix(m, st.aX, st.aY, st.kind) && l.snap.RawDet() > 0
    ensures Within(Recovers(l, r), Moved(Factors(st), Recovers(l, m)), RecordSlack(l))
  {
    hide StepMatrix, RoundsDown, Row, Frac, Unwound, Factors, Apart, Blend, Mat.RawDet, Ratio;
    StepRoundsAgainstLps(st, m);
    var u, det, f := Unwound(l), l.snap.RawDet(), Factors(st);
    RowWithin(f.own0, f.other0, m.m00, m.m01, m.m10, m.m11, r.m00, r.m01, u);
    RowWithin(f.own1, f.other1, m.m10, m.m11, m.m00, m.m01, r.m10, r.m11, u);
    var z, w := Row(m.m00, m.m01, u), Row(m.m10, m.m11, u);
    QuotientWithin(f.own0, f.other0, z, w, Row(r.m00, r.m01, u), Abs(u.0) + Abs(u.1), det);
    QuotientWithin(f.own1, f.other1, w, z, Row(r.m10, r.m11, u), Abs(u.0) + Abs(u.1), det);
  }

  lemma ReachedMatrix(e: Epochs, id: nat)
    requires WindowOk(e) && e.Live(id)
    ensures NonNegativeMat(e.At(id).m)
  {
    hide RunMatrix, Below, ExactRun;
    assert Woven(e.At(id).m);
    var steps :| AllOk(steps) && e.At(id).m == RunMatrix(steps);
    RunNeverFavoursLps(steps);
  }

  /** A fan-out moves a tracked claim as the exact step would, up to the LP's slack. */
  lemma ClaimSteps(s: State, t: State, user: Address, st: MatrixStep)
    requires WindowOk(s.ep) && st.Ok() && Tracked(s, user)
    requires t.ep == ApplyMatrixUpdate(s.ep, st.aX, st.aY, st.kind) && t.lps == s.lps && t.lpEpoch == s.lpEpoch
    ensures Within(Claim(t, user), Moved(Factors(st), Claim(s, user)), Slack(s, user))
  {
    hide StepMatrix, ApplyMatrixUpdate, Recovers, RecordSlack, Factors, Moved, Within, WindowOk;
    var id := s.EpochOf(user);
    ReachedMatrix(s.ep, id);
    UpdatedAt(s.ep, st.aX, st.aY, st.kind, id);
    MatrixClaim(s.Lp(user), s.ep.At(id).m, t.ep.At(id).m, st);
  }

  // ----- All of them -----

  function Total(s: State, users: seq<Address>): Pair
  {
    if users == [] then NIL else Plus(Claim(s, users[0]), Total(s, users[1..]))
  }

  function TotalSlack(s: State, users: seq<Address>): real
  {
    if users == [] then 0.0 else Slack(s, users[0]) + TotalSlack(s, users[1..])
  }

  lemma MovedAdds(f: RowFactors, a: Pair, b: Pair)
    ensures Moved(f, Plus(a, b)) == Plus(Moved(f, a), Moved(f, b))
            && Moved(f, Minus(a, b)) == Minus(Moved(f, a), Moved(f, b))
    ensures Moved(f, NIL) == NIL
  {}

  lemma WithinAdds(a: Pair, b: Pair, e: real, a': Pair, b': Pair, e': real)
    requires Within(a, b, e) && Within(a', b', e')
    ensures Within(Plus(a, a'), Plus(b, b'), e + e') && Within(Minus(a, a'), Minus(b, b'), e + e')
  {}

  lemma {:induction false} TotalSteps(s: State, t: State, users: seq<Address>, st: MatrixStep)
    requires WindowOk(s.ep) && st.Ok() && forall u :: u in users ==> Tracked(s, u)
    requires t.ep == ApplyMatrixUpdate(s.ep, st.aX, st.aY, st.kind) && t.lps == s.lps && t.lpEpoch == s.lpEpoch
    ensures Within(Total(t, users), Moved(Factors(st), Total(s, users)), TotalSlack(s, users))
  {
    hide ApplyMatrixUpdate, Claim, Slack, Moved, Factors, Plus, Tracked, WindowOk;
    MovedAdds(Factors(st), NIL, NIL);
    if users != [] {
      ClaimSteps(s, t, users[0], st);
      TotalSteps(s, t, users[1..], st);
      MovedAdds(Factors(st), Claim(s, users[0]), Total(s, users[1..]));
      WithinAdds(Claim(t, users[0]), Moved(Factors(st), Claim(s, users[0])), Slack(s, users[0]),
                 Total(t, users[1..]), Moved(Factors(st), Total(s, users[1..])), TotalSlack(s, users[1..]));
    } else {
      hide Within;
      assert Within(NIL, NIL, 0.0) by { hide *; NilWithin(); }
    }
  }

  lemma NilWithin()
    ensures Within(NIL, NIL, 0.0)
  {}

  // ----- The pool -----

  function PoolPair(pool: Pool): Pair { Pair(pool.stable as real, pool.asset as real) }

  /** The part of a unit of scale that a floored share leaves behind. */
  lemma ShareWithin(a: int, part: int, whole: nat)
    requires IsShare(a, part, whole)
    ensures 0.0 <= part as real - Frac(a) * whole as real <= Ratio(whole, D)
  {
  }

  lemma BlendOf(a: int, x: real, y: real)
    ensures Blend(D, a, x, y) == x + Frac(a) * y
    ensures Blend(D - a, 0, x, y) == x - Frac(a) * x
  {
    assert Frac(D) == 1.0 && Frac(0) == 0.0 && Frac(D - a) == 1.0 - Frac(a);
    hide Frac;
  }

  /** The side a trade takes from, whose size sets what flooring its shares can leave. */
  function GivingSide(pool: Pool, direction: bool): nat { if direction then pool.asset else pool.stable }

  function TradeStep(direction: bool, aX: nat, aY: nat): MatrixStep
  {
    MatrixStep(aX, aY, if direction then LongUpdate else ShortUpdate)
  }

  /** The pool moves as the exact step would, up to the floor of the shares. */
  lemma PoolSteps(pool: Pool, r: Pool, direction: bool, aX: nat, aY: nat)
    requires direction ==>
               IsShare(aX, pool.asset - r.asset, pool.asset) && IsShare(aY, r.stable - pool.stable, pool.asset)
    requires !direction ==>
               IsShare(aX, r.asset - pool.asset, pool.stable) && IsShare(aY, pool.stable - r.stable, pool.stable)
    ensures Within(PoolPair(r), Moved(Factors(TradeStep(direction, aX, aY)), PoolPair(pool)),
                   Ratio(GivingSide(pool, direction), D))
  {
    hide Frac, Blend, IsShare, Ratio;
    if direction { LongPool(pool, r, aX, aY); } else { ShortPool(pool, r, aX, aY); }
  }

  lemma LongPool(pool: Pool, r: Pool, aX: nat, aY: nat)
    requires IsShare(aX, pool.asset - r.asset, pool.asset) && IsShare(aY, r.stable - pool.stable, pool.asset)
    ensures Apart(r.stable as real, Blend(D, aY, pool.stable as real, pool.asset as real)) <= Ratio(pool.asset, D)
    ensures Apart(r.asset as real, Blend(D - aX, 0, pool.asset as real, pool.stable as real)) <= Ratio(pool.asset, D)
  {
    hide Frac, Blend, IsShare, Ratio;
    ShareWithin(aX, pool.asset - r.asset, pool.asset);
    ShareWithin(aY, r.stable - pool.stable, pool.asset);
    BlendOf(aY, pool.stable as real, pool.asset as real);
    BlendOf(aX, pool.asset as real, pool.stable as real);
  }

  lemma ShortPool(pool: Pool, r: Pool, aX: nat, aY: nat)
    requires IsShare(aX, r.asset - pool.asset, pool.stable) && IsShare(aY, pool.stable - r.stable, pool.stable)
    ensures Apart(r.stable as real, Blend(D - aY, 0, pool.stable as real, pool.asset as real)) <= Ratio(pool.stable, D)
    ensures Apart(r.asset as real, Blend(D, aX, pool.asset as real, pool.stable as real)) <= Ratio(pool.stable, D)
  {
    hide Frac, Blend, IsShare, Ratio;
    ShareWithin(aX, r.asset - pool.asset, pool.stable);
    ShareWithin(aY, pool.stable - r.stable, pool.stable);
    BlendOf(aX, pool.asset as real, pool.stable as real);
    BlendOf(aY, pool.stable as real, pool.asset as real);
  }

  // ----- A trade -----

  /** What the listed LPs can claim beyond the pool. */
  function Excess(s: State, users: seq<Address>): Pair { Minus(Total(s, users), PoolPair(s.pool)) }

  lemma ClaimFrame(s: State, t: State, user: Address)
    requires Shape(t.Lp(user)) == Shape(s.Lp(user)) && t.EpochOf(user) == s.EpochOf(user)
    requires SameTable(s.ep, t.ep)
    ensures Claim(t, user) == Claim(s, user) && Slack(t, user) == Slack(s, user)
            && (Tracked(s, user) ==> Tracked(t, user))
  {
    assert t.ep.At(s.EpochOf(user)).m == s.ep.At(s.EpochOf(user)).m;
    hide Row;
  }

  lemma {:induction false} TotalFrame(s: State, t: State, users: seq<Address>)
    requires SameSnapshots(s, t) && SameTable(s.ep, t.ep)
    ensures Total(t, users) == Total(s, users) && TotalSlack(t, users) == TotalSlack(s, users)
    ensures (forall u :: u in users ==> Tracked(s, u)) ==> forall u :: u in users ==> Tracked(t, u)
  {
    hide Claim, Slack, Tracked, SameTable, Plus;
    forall u: Address ensures Claim(t, u) == Claim(s, u) && Slack(t, u) == Slack(s, u)
        && (Tracked(s, u) ==> Tracked(t, u)) {
      assert Shape(t.Lp(u)) == Shape(s.Lp(u)) && t.EpochOf(u) == s.EpochOf(u);
      ClaimFrame(s, t, u);
    }
    if users != [] { TotalFrame(s, t, users[1..]); }
  }

  /** A pool move keeps the listed LPs' claims with the pool: the excess steps exactly, up to the slacks. */
  lemma MoveDrift(env: Env, s: State, t: TradeArgs, q: Quote, users: seq<Address>) returns (st: MatrixStep)
    requires Inv(s) && MovePool(env, s, t, q).Ok? && forall u :: u in users ==> Tracked(s, u)
    ensures st.Ok() && MovePool(env, s, t, q).value.ep == ApplyMatrixUpdate(s.ep, st.aX, st.aY, st.kind)
    ensures Within(Excess(MovePool(env, s, t, q).value, users), Moved(Factors(st), Excess(s, users)),
                   TotalSlack(s, users) + Ratio(GivingSide(s.pool, t.direction), D))
  {
    hide Total, TotalSlack, Moved, Factors, Within, Tracked, IsShare, ApplyMatrixUpdate, Inv;
    var r := MovePool(env, s, t, q).value;
    var aX, aY := TradeCoefficientsAreShares(env, s, t, q);
    ShareFits(env, s, t, q, aX, aY);
    st := TradeStep(t.direction, aX, aY);
    InvWindow(s);
    PoolMoveFrame(env, s, t, q);
    TotalSteps(s, r, users, st);
    PoolSteps(s.pool, r.pool, t.direction, aX, aY);
    WithinAdds(Total(r, users), Moved(Factors(st), Total(s, users)), TotalSlack(s, users),
               PoolPair(r.pool), Moved(Factors(st), PoolPair(s.pool)), Ratio(GivingSide(s.pool, t.direction), D));
    MovedAdds(Factors(st), Total(s, users), PoolPair(s.pool));
  }

  lemma PoolMoveFrame(env: Env, s: State, t: TradeArgs, q: Quote)
    requires MovePool(env, s, t, q).Ok?
    ensures var r := MovePool(env, s, t, q).value; r.lps == s.lps && r.lpEpoch == s.lpEpoch
  {
    hide ApplyMatrixUpdate, MdR, LongPoolInput, ShortPoolOutput;
  }

  /** The shares of a move that went through never exceed the whole. */
  lemma ShareFits(env: Env, s: State, t: TradeArgs, q: Quote, aX: int, aY: int)
    requires MovePool(env, s, t, q).Ok?
    requires var r := MovePool(env, s, t, q).value;
             if t.direction then
               IsShare(aX, s.pool.asset - r.pool.asset, s.pool.asset)
               && IsShare(aY, r.pool.stable - s.pool.stable, s.pool.asset)
             else
               IsShare(aX, r.pool.asset - s.pool.asset, s.pool.stable)
               && IsShare(aY, s.pool.stable - r.pool.stable, s.pool.stable)
    ensures aX >= 0 && aY >= 0 && TradeStep(t.direction, aX, aY).Ok()
  {
    var r := MovePool(env, s, t, q).value;
    if t.direction { PartFits(aX, s.pool.asset - r.pool.asset, s.pool.asset); }
    else { PartFits(aY, s.pool.stable - r.pool.stable, s.pool.stable); }
  }

  lemma PartFits(a: int, part: int, whole: int)
    requires IsShare(a, part, whole) && part <= whole
    ensures a <= D
  {
    if a > D { MulMonotone(whole, D + 1, a); MulMonotone(D, part, whole); }
  }

  /** Up to its pool move a trade leaves every claim, matrix and the pool alone. */
  lemma BeforeTheMove(env: Env, s: State, t: TradeArgs) returns (before: State, q: Quote)
    requires Inv(s) && ExecuteTrade(env, s, t).Ok?
    ensures Inv(before) && SameBalances(s, before) && MovePool(env, before, t, q).Ok?
    ensures var moved, r := MovePool(env, before, t, q).value, ExecuteTrade(env, s, t).value.0;
            r.pool == moved.pool && r.ep == moved.ep && r.lps == moved.lps && r.lpEpoch == moved.lpEpoch
  {
    hide TradeQuote, UpdateFG, SettleTrader, MovePool, PayFees, PoolDeepEnough, Inv, SameBalances;
    q := TradeQuote(env, s, t).value;
    var s1 := s.(window := q.window);
    PositionsKeepSameBalances(s, s1);
    PositionsKeepInv(s, s1);
    FundingKeepsInv(env, s1, t.price);
    TickKeepsSameBalances(env, s1, t.price);
    var s2 := UpdateFG(env, s1, t.price).value;
    SameBalancesChains(s, s1, s2);
    before := SettleTrader(s2, t, q.tradeReturn).value;
    TraderKeepsInv(s2, t, q.tradeReturn);
    TraderKeepsBalances(s2, t, q.tradeReturn);
    SameBalancesChains(s, s2, before);
    FeesKeepStorage(env, MovePool(env, before, t, q).value, t, q.fee);
  }

  lemma TraderKeepsBalances(s: State, t: TradeArgs, tradeReturn: nat)
    requires SettleTrader(s, t, tradeReturn).Ok?
    ensures SameBalances(s, SettleTrader(s, t, tradeReturn).value)
  {
    hide FundingFee, TradedPosition, SignedSum, SameTable;
    TableIsItself(s.ep);
  }

  lemma FeesKeepStorage(env: Env, s: State, t: TradeArgs, fee: nat)
    ensures var r := PayFees(env, s, t, fee);
            r.pool == s.pool && r.ep == s.ep && r.lps == s.lps && r.lpEpoch == s.lpEpoch
  {}

  lemma UsableIsTracked(s: State, user: Address)
    requires Inv(s) && s.Active(user) && EpochUsable(s, user)
    ensures Tracked(s, user)
  {
    hide Inv, WindowOk;
    PinnedEpochIsLive(s, user);
    SnapshotIsOk(s, user);
  }

  /** In every reachable state, and for any list of LPs pinned to epochs that have not decayed: whatever a trade does,
      what they can claim beyond the pool moves exactly as a balance would under the trade's own step, up to the LPs'
      slacks and the floor of the giving side's shares. */
  lemma TradeDrift(calls: seq<Call>, env: Env, t: TradeArgs, users: seq<Address>) returns (st: MatrixStep)
    requires var s := Run(INITIAL_STATE, calls);
             ExecuteTrade(env, s, t).Ok? && forall u :: u in users ==> s.Active(u) && EpochUsable(s, u)
    ensures var s := Run(INITIAL_STATE, calls);
            var r := ExecuteTrade(env, s, t).value.0;
            && st.Ok() && SameTable(ApplyMatrixUpdate(s.ep, st.aX, st.aY, st.kind), r.ep)
            && Within(Excess(r, users), Moved(Factors(st), Excess(s, users)),
                      TotalSlack(s, users) + Ratio(GivingSide(s.pool, t.direction), D))
  {
    hide Run, ExecuteTrade, MovePool, ApplyMatrixUpdate, Inv, Total, TotalSlack, Moved, Factors, Within, Tracked,
         SameTable, SameSnapshots,
         EpochUsable;
    EveryRunIsOk(calls);
    var s := Run(INITIAL_STATE, calls);
    forall u | u in users ensures Tracked(s, u) { UsableIsTracked(s, u); }
    var before, q := BeforeTheMove(env, s, t);
    TotalFrame(s, before, users);
    st := MoveDrift(env, before, t, q, users);
    UpdateKeepsSameTable(s.ep, before.ep, st.aX, st.aY, st.kind);
    SameStorageSameClaims(MovePool(env, before, t, q).value, ExecuteTrade(env, s, t).value.0, users);
  }

  lemma SameStorageSameClaims(s: State, t: State, users: seq<Address>)
    requires t.ep == s.ep && t.lps == s.lps && t.lpEpoch == s.lpEpoch
    ensures Total(t, users) == Total(s, users)
  {
    TableIsItself(s.ep);
    TotalFrame(s, t, users);
  }

  /** The balance an LP reads is its claim, truncated and clamped to the pool. */
  lemma BalanceIsClaim(s: State, user: Address)
    requires Tracked(s, user) && s.Active(user)
    ensures LpBalance(s, user).Ok?
    ensures var b, c := LpBalance(s, user).value, Claim(s, user);
            && ReadsAs(b.0, c.stable, s.pool.stable) && ReadsAs(b.1, c.asset, s.pool.asset)
  {
    var l, m := s.Lp(user), s.ep.At(s.EpochOf(user)).m;
    RecoveryIsClaim(l, m);
    hide Row, Unwound, RecoverLpBalance, Clamp, TruncDiv, ReadsAs, Mat.RawDet, Ratio;
    var u, det := Unwound(l), l.snap.RawDet();
    ClampReads(Row(m.m00, m.m01, u), det, s.pool.stable);
    ClampReads(Row(m.m10, m.m11, u), det, s.pool.asset);
  }

  lemma RecoveryIsClaim(l: LpPosition, m: Mat)
    requires l.snap.RawDet() > 0
    ensures var u, det := Unwound(l), l.snap.RawDet();
            RecoverLpBalance(m, l.snap, l.initialStable, l.initialAsset, M_DECIMALS)
            == Ok((TruncDiv(Row(m.m00, m.m01, u), det), TruncDiv(Row(m.m10, m.m11, u), det)))
  {
    var u, det := Unwound(l), l.snap.RawDet();
    OneTimes(m.m00 * u.0 + m.m01 * u.1, det);
    OneTimes(m.m10 * u.0 + m.m11 * u.1, det);
    hide TruncDiv, MulDivSigned, SumMulDivSigned, PositiveDeterminantFixed, Mat.RawDet;
  }

  lemma OneTimes(z: int, det: int)
    requires det != 0
    ensures MulDivSigned(z, 1, det) == Ok(TruncDiv(z, det))
  {}

  /** `b` is `c` rounded down, or 0 when that is negative, or the cap when that is above it. */
  predicate ReadsAs(b: nat, c: real, cap: nat)
  {
    && b <= cap && (c <= 0.0 ==> b == 0) && (c > 0.0 ==> b as real <= c) && (b < cap ==> c < b as real + 1.0)
  }

  lemma RatioSign(z: int, det: int)
    requires det > 0
    ensures Ratio(z, det) > 0.0 <==> z > 0
  {
    RatioScaled(z, det);
  }

  lemma ClampReads(z: int, det: int, cap: nat)
    requires det > 0
    ensures ReadsAs(Clamp(TruncDiv(z, det), cap), Ratio(z, det), cap)
  {
    RatioSign(z, det);
    TruncDivBounds(z, det);
    if z >= 0 { RatioBetween(z, det, TruncDiv(z, det)); }
    hide TruncDiv, Ratio;
  }
}
