/** The exact index refines the naive ledger, and what follows for the pool and for funding. */
module ExactRefinement {
  import opened ExactLedger

  /** The index says about account k what the naive ledger says. */
  predicate Agrees(n: Naive, i: Index, k: nat)
    requires k < |n.accounts| && k < |i.holdings|
  {
    && Balance(i, k) == n.accounts[k].v && Accrued(i, k) == n.accounts[k].accrued
       && i.holdings[k].net == n.accounts[k].net
  }

  ghost predicate Matches(n: Naive, i: Index)
  {
    && n.pool == i.pool && |n.accounts| == |i.holdings|
    && forall k: nat :: k < |n.accounts| ==> Agrees(n, i, k)
  }

  // ----- One account -----

  lemma DotZero(v: Vec)
    ensures Dot(NOTHING, v) == 0.0
  {}

  /** Settling moves what is pending into the settled part and changes nothing else. */
  lemma SettledHolding(e: EpochRow, h: Holding, rate: real, d: real)
    ensures var h' := h.(stored := Owed(e, h, rate), g0 := e.g, rate0 := rate, net := h.net + d);
            Recovered(e, h') == Recovered(e, h) && Owed(e, h', rate) == Owed(e, h, rate)
  {
    hide Owed, Recovered, Dot;
    var h' := h.(stored := Owed(e, h, rate), g0 := e.g, rate0 := rate, net := h.net + d);
    NothingPending(e, h', rate);
    SameRecovered(e, h, h');
  }

  lemma SameRecovered(e: EpochRow, h: Holding, h': Holding)
    requires h.m0 == h'.m0 && h.v0 == h'.v0
    ensures Recovered(e, h') == Recovered(e, h)
  {
    hide Times, Unwind;
  }

  lemma NothingPending(e: EpochRow, h: Holding, rate: real)
    requires h.g0 == e.g && h.rate0 == rate
    ensures Owed(e, h, rate) == h.stored
  {
    hide Dot, Unwind;
    assert Minus(e.g, h.g0) == NOTHING;
    DotZero(Unwind(h.m0, h.v0));
  }

  /** A fresh snapshot recovers exactly the balances it was given. */
  lemma FreshSnapshot(e: EpochRow, h: Holding)
    requires h.m0 == e.m
    ensures Recovered(e, h) == h.v0
  {
    hide Times, Unwind;
    UnwindInverts(e.m, h.v0);
  }

  /** A step of the epoch matrix is a step of every balance pinned to it; the row is untouched. */
  lemma SteppedHolding(e: EpochRow, h: Holding, rate: real, s: Step)
    requires StepOk(s)
    ensures Recovered(StepEpoch(e, s), h) == StepVec(Recovered(e, h), s)
            && Owed(StepEpoch(e, s), h, rate) == Owed(e, h, rate)
  {
    hide Times, Unwind, StepMatrix, StepVec, Dot, StepOk;
    StepCommutes(e.m, Unwind(h.m0, h.v0), s);
  }

  lemma TickArithmetic(gy: real, gx: real, hy: real, hx: real, d: real, a: real, b: real, wy: real, wx: real)
    ensures ((gy + d * a) - hy) * wy + ((gx + d * b) - hx) * wx
            == ((gy - hy) * wy + (gx - hx) * wx) + (a * wy + b * wx) * d
  {
    assert ((gy + d * a) - hy) * wy == (gy - hy) * wy + (a * wy) * d;
    assert ((gx + d * b) - hx) * wx == (gx - hx) * wx + (b * wx) * d;
  }

  /** A tick of the row and of the rate charges an account exactly the increment times the asset it holds. */
  lemma TickedHolding(e: EpochRow, h: Holding, rate: real, d: real)
    ensures Recovered(AccrueEpoch(e, d), h) == Recovered(e, h)
    ensures Owed(AccrueEpoch(e, d), h, rate + d) == Charge(Account(Recovered(e, h), h.net, Owed(e, h, rate)), d).accrued
  {
    hide Unwind;
    var w := Unwind(h.m0, h.v0);
    TickArithmetic(e.g.y, e.g.x, h.g0.y, h.g0.x, d, e.m.m10, e.m.m11, w.y, w.x);
    NetArithmetic(h.net, rate - h.rate0, d, Recovered(e, h).x);
  }

  lemma NetArithmetic(net: real, r: real, d: real, x: real)
    ensures net * (r + d) + x * d == net * r + (x + net) * d
  {}

  // ----- Operations of the index, account by account -----

  /** Replacing one holding by one that recovers v, owes the same and holds d more. */
  lemma ReplaceMatches(n: Naive, i: Index, u: nat, h: Holding, v: Vec, d: real, pool: Vec)
    requires Matches(n, i) && u < |n.accounts| && h.epoch < |i.epochs|
    requires Recovered(i.epochs[h.epoch], h) == v && Owed(i.epochs[h.epoch], h, i.rate) == Accrued(i, u)
    requires h.net == i.holdings[u].net + d
    ensures Matches(Naive(pool, n.accounts[u := Account(v, n.accounts[u].net + d, n.accounts[u].accrued)]),
                    Storage(pool, i.rate, i.epochs, i.holdings[u := h]))
  {
    hide Recovered, Owed;
    var n' := Naive(pool, n.accounts[u := Account(v, n.accounts[u].net + d, n.accounts[u].accrued)]);
    var i': Index := Storage(pool, i.rate, i.epochs, i.holdings[u := h]);
    assert Agrees(n, i, u);
    forall k: nat | k < |n.accounts| ensures Agrees(n', i', k) {
      assert Agrees(n, i, k);
    }
  }

  lemma SettleMatches(n: Naive, i: Index, u: nat, d: real)
    requires Matches(n, i) && u < |n.accounts|
    ensures Matches(n.(accounts := AddNet(n.accounts, u, d)), GainNet(SettleHolding(i, u), u, d))
  {
    hide Recovered, Owed;
    var h, e := i.holdings[u], i.epochs[i.holdings[u].epoch];
    var h' := h.(stored := Accrued(i, u), g0 := e.g, rate0 := i.rate, net := h.net + d);
    SettledHolding(e, h, i.rate, d);
    assert Agrees(n, i, u);
    ReplaceMatches(n, i, u, h', n.accounts[u].v, d, n.pool);
    assert GainNet(SettleHolding(i, u), u, d).holdings == i.holdings[u := h'];
    assert AddNet(n.accounts, u, d) == n.accounts[u := Account(n.accounts[u].v, n.accounts[u].net + d,
                                                               n.accounts[u].accrued)];
  }

  /** A fresh snapshot with balances v, and d more of net asset. */
  lemma ResnapMatches(n: Naive, i: Index, u: nat, v: Vec, d: real, pool: Vec)
    requires Matches(n, i) && u < |n.accounts|
    ensures Matches(Naive(pool, n.accounts[u := Account(v, n.accounts[u].net + d, n.accounts[u].accrued)]),
                    GainNet(Resnap(i, u, v), u, d).(pool := pool))
  {
    hide Recovered, Owed;
    var last := |i.epochs| - 1;
    var e := i.epochs[last];
    var h' := Holding(last, e.m, v, e.g, i.rate, i.holdings[u].net + d, Accrued(i, u));
    FreshSnapshot(e, h');
    NothingPending(e, h', i.rate);
    ReplaceMatches(n, i, u, h', v, d, pool);
    assert GainNet(Resnap(i, u, v), u, d).holdings == i.holdings[u := h'];
  }

  lemma RefreshMatches(n: Naive, i: Index, u: nat)
    requires Matches(n, i) && u < |n.accounts|
    ensures Matches(n, RefreshIndex(i, u))
  {
    hide Recovered, Owed;
    assert Agrees(n, i, u);
    ResnapMatches(n, i, u, Balance(i, u), 0.0, n.pool);
    assert n.accounts[u := Account(n.accounts[u].v, n.accounts[u].net + 0.0, n.accounts[u].accrued)] == n.accounts;
    assert GainNet(Resnap(i, u, Balance(i, u)), u, 0.0).holdings == Resnap(i, u, Balance(i, u)).holdings;
  }

  /** A refreshed account has nothing pending, so its net asset can change without touching what it owes. */
  lemma GainMatches(n: Naive, i: Index, u: nat, d: real)
    requires Matches(n, i) && u < |n.accounts|
    requires i.holdings[u].rate0 == i.rate && i.holdings[u].g0 == i.epochs[i.holdings[u].epoch].g
    ensures Matches(n.(accounts := AddNet(n.accounts, u, d)), GainNet(i, u, d))
  {
    hide Recovered, Owed;
    var h, e := i.holdings[u], i.epochs[i.holdings[u].epoch];
    var h' := h.(net := h.net + d);
    SameRecovered(e, h, h');
    NothingPending(e, h, i.rate);
    NothingPending(e, h', i.rate);
    assert Agrees(n, i, u);
    ReplaceMatches(n, i, u, h', n.accounts[u].v, d, n.pool);
  }

  lemma TransferMatches(n: Naive, i: Index, u: nat, l: nat, d: real)
    requires Matches(n, i) && u < |n.accounts| && l < |n.accounts| && u != l
    ensures Matches(n.(accounts := AddNet(AddNet(n.accounts, u, -d), l, d)),
                    GainNet(GainNet(RefreshIndex(RefreshIndex(i, l), u), u, -d), l, d))
  {
    hide Recovered, Owed, Matches;
    MatchingSizes(n, i);
    RefreshMatches(n, i, l);
    var i1 := RefreshIndex(i, l);
    MatchingSizes(n, i1);
    RefreshMatches(n, i1, u);
    var i2 := RefreshIndex(i1, u);
    MatchingSizes(n, i2);
    GainMatches(n, i2, u, -d);
    GainMatches(n.(accounts := AddNet(n.accounts, u, -d)), GainNet(i2, u, -d), l, d);
  }

  lemma MatchingSizes(n: Naive, i: Index)
    requires Matches(n, i)
    ensures |n.accounts| == |i.holdings| && n.pool == i.pool
  {}

  /** The fan-out over the epochs is the fan-out over the accounts. */
  lemma FanMatches(n: Naive, i: Index, op: Op)
    requires Matches(n, i) && PoolAllows(n.pool, op)
    ensures Matches(Naive(PoolAfter(n.pool, op), FanAccounts(n.accounts, StepOf(n.pool, op))), FanIndex(i, op))
  {
    hide Recovered, Owed, StepOf, PoolAfter, PoolAllows, StepOk, StepEpoch, StepVec;
    var n', i' := Naive(PoolAfter(n.pool, op), FanAccounts(n.accounts, StepOf(n.pool, op))), FanIndex(i, op);
    forall k: nat | k < |n.accounts| ensures Agrees(n', i', k) {
      assert Agrees(n, i, k);
      var h := i.holdings[k];
      SteppedHolding(i.epochs[h.epoch], h, i.rate, StepOf(n.pool, op));
      assert i'.epochs[h.epoch] == StepEpoch(i.epochs[h.epoch], StepOf(i.pool, op));
    }
  }

  lemma TradeMatches(n: Naive, i: Index, u: nat, op: Op)
    requires Matches(n, i) && u < |n.accounts| && PoolAllows(n.pool, op)
    ensures Matches(Naive(PoolAfter(n.pool, op), AddNet(FanAccounts(n.accounts, StepOf(n.pool, op)), u, NetGain(op))),
                    TradeIndex(i, u, op))
  {
    hide Recovered, Owed, StepOf, PoolAfter, PoolAllows, StepOk, StepVec, FanIndex, NetGain;
    SettleMatches(n, i, u, NetGain(op));
    var n1 := n.(accounts := AddNet(n.accounts, u, NetGain(op)));
    FanMatches(n1, GainNet(SettleHolding(i, u), u, NetGain(op)), op);
    assert FanAccounts(n1.accounts, StepOf(n.pool, op))
        == AddNet(FanAccounts(n.accounts, StepOf(n.pool, op)), u, NetGain(op));
  }

  lemma ChargeKeeps(a: Account, d: real)
    ensures Charge(a, d).v == a.v && Charge(a, d).net == a.net
  {}

  /** A funding tick, written once per epoch, moves no balance and charges each account exactly the increment times the
      asset it holds then. */
  lemma TickChargesHoldings(i: Index, k: nat, d: real)
    requires k < |i.holdings|
    ensures Balance(IndexStep(i, Tick(d)), k) == Balance(i, k)
    ensures Accrued(IndexStep(i, Tick(d)), k)
            == Charge(Account(Balance(i, k), i.holdings[k].net, Accrued(i, k)), d).accrued
  {
    hide Recovered, Owed, Charge, AccrueEpoch;
    var h := i.holdings[k];
    TickedHolding(i.epochs[h.epoch], h, i.rate, d);
    assert IndexStep(i, Tick(d)).epochs[h.epoch] == AccrueEpoch(i.epochs[h.epoch], d);
  }

  lemma TickAgrees(n: Naive, i: Index, k: nat, d: real)
    requires k < |n.accounts| && k < |i.holdings| && Agrees(n, i, k)
    ensures Agrees(n.(accounts := ChargeAccounts(n.accounts, d)), IndexStep(i, Tick(d)), k)
  {
    hide Balance, Accrued, Charge;
    TickChargesHoldings(i, k, d);
    ChargeKeeps(n.accounts[k], d);
    assert n.accounts[k] == Account(Balance(i, k), i.holdings[k].net, Accrued(i, k));
    assert ChargeAccounts(n.accounts, d)[k] == Charge(n.accounts[k], d);
  }

  lemma TickMatches(n: Naive, i: Index, d: real)
    requires Matches(n, i)
    ensures Matches(n.(accounts := ChargeAccounts(n.accounts, d)), IndexStep(i, Tick(d)))
  {
    hide Recovered, Owed, AccrueEpoch;
    var n', i' := n.(accounts := ChargeAccounts(n.accounts, d)), IndexStep(i, Tick(d));
    forall k: nat | k < |n.accounts| ensures Agrees(n', i', k) {
      TickAgrees(n, i, k, d);
    }
  }

  lemma RollMatches(n: Naive, i: Index)
    requires Matches(n, i)
    ensures Matches(n, IndexStep(i, Roll))
  {
    hide Recovered, Owed;
    var i' := IndexStep(i, Roll);
    forall k: nat | k < |n.accounts| ensures Agrees(n, i', k) {
      assert Agrees(n, i, k);
      assert i'.epochs[i.holdings[k].epoch] == i.epochs[i.holdings[k].epoch];
    }
  }

  lemma LiquidityMatches(n: Naive, i: Index, u: nat, amount: Vec)
    requires Matches(n, i) && u < |n.accounts|
    ensures Matches(MoveLiquidity(n, u, amount), MoveIndex(i, u, amount))
  {
    hide Recovered, Owed;
    assert Agrees(n, i, u);
    var v := Plus(n.accounts[u].v, amount);
    ResnapMatches(n, i, u, v, -amount.x, Plus(n.pool, amount));
    assert n.accounts[u].net + -amount.x == n.accounts[u].net - amount.x;
  }

  // ----- Runs -----

  lemma StepMatches(n: Naive, i: Index, op: Op)
    requires Matches(n, i)
    ensures Matches(NaiveStep(n, op), IndexStep(i, op))
  {
    hide Matches, MoveIndex, TradeIndex, FanIndex, MoveLiquidity, RefreshIndex, GainNet, StepOf, PoolAfter, PoolAllows,
         NetGain, Covers,
         Balance, AccrueEpochs, ChargeAccounts, FanAccounts, AddNet, Negate;
    MatchingSizes(n, i);
    match op
    case Long(u, _, _) => if u < |n.accounts| && PoolAllows(n.pool, op) { TradeMatches(n, i, u, op); }
    case Short(u, _, _) => if u < |n.accounts| && PoolAllows(n.pool, op) { TradeMatches(n, i, u, op); }
    case Fee(_, _) => if PoolAllows(n.pool, op) { FanMatches(n, i, op); }
    case Tick(d) => TickMatches(n, i, d);
    case Deposit(u, a) => if u < |n.accounts| { LiquidityMatches(n, i, u, a); }
    case Withdraw(u, a) =>
      if u < |n.accounts| {
        SameBalance(n, i, u);
        LiquidityMatches(n, i, u, Negate(a));
      }
    case Refresh(u) => if u < |n.accounts| { RefreshMatches(n, i, u); }
    case Transfer(u, l, d) => if u < |n.accounts| && l < |n.accounts| && u != l { TransferMatches(n, i, u, l, d); }
    case Roll => RollMatches(n, i);
  }

  lemma SameBalance(n: Naive, i: Index, u: nat)
    requires Matches(n, i) && u < |n.accounts|
    ensures u < |i.holdings| && Balance(i, u) == n.accounts[u].v
  {
    hide Recovered;
    assert Agrees(n, i, u);
  }

  lemma EmptyAgrees(e: EpochRow, h: Holding)
    requires h.m0 == e.m && h.g0 == e.g && h.rate0 == 0.0 && h.stored == 0.0 && h.v0 == NOTHING
    ensures Recovered(e, h) == NOTHING && Owed(e, h, 0.0) == 0.0
  {
    hide Recovered, Owed;
    FreshSnapshot(e, h);
    NothingPending(e, h, 0.0);
  }

  lemma EmptyMatches(users: nat)
    ensures Matches(EmptyNaive(users), EmptyIndex(users))
  {
    hide Recovered, Owed;
    var n, i := EmptyNaive(users), EmptyIndex(users);
    forall k: nat | k < users ensures Agrees(n, i, k) {
      EmptyAgrees(i.epochs[0], i.holdings[k]);
    }
  }

  lemma {:induction false} RunMatches(users: nat, ops: seq<Op>)
    ensures Matches(NaiveRun(EmptyNaive(users), ops), IndexRun(EmptyIndex(users), ops))
  {
    hide Matches, NaiveStep, IndexStep;
    if ops == [] {
      EmptyMatches(users);
    } else {
      RunMatches(users, ops[..|ops| - 1]);
      StepMatches(NaiveRun(EmptyNaive(users), ops[..|ops| - 1]), IndexRun(EmptyIndex(users), ops[..|ops| - 1]),
                  ops[|ops| - 1]);
    }
  }

  // ----- Totals of the naive ledger -----

  function Held(accounts: seq<Account>): Vec
  {
    if accounts == [] then NOTHING else Plus(Held(accounts[..|accounts| - 1]), accounts[|accounts| - 1].v)
  }

  function NetTotal(accounts: seq<Account>): real
  {
    if accounts == [] then 0.0 else NetTotal(accounts[..|accounts| - 1]) + accounts[|accounts| - 1].net
  }

  function AccruedTotal(accounts: seq<Account>): real
  {
    if accounts == [] then 0.0 else AccruedTotal(accounts[..|accounts| - 1]) + accounts[|accounts| - 1].accrued
  }

  /** The LP balances are the pool on both sides, the asset held by all accounts is nothing in total, and so is all
      funding. */
  predicate Balanced(n: Naive)
  {
    && Held(n.accounts) == n.pool && Held(n.accounts).x + NetTotal(n.accounts) == 0.0 && AccruedTotal(n.accounts) == 0.0
  }

  lemma ScaleAdds(k: real, c: real, d: real, e: real)
    requires e == c + d
    ensures Scale(k, e) == Scale(k, c) + Scale(k, d)
  {
    Distribute(k, c, d);
  }

  /** A step is linear: it moves the sum of two pairs of balances as it moves each. */
  lemma StepVecAdds(v: Vec, w: Vec, sum: Vec, s: Step)
    requires sum == Plus(v, w)
    ensures StepVec(sum, s) == Plus(StepVec(v, s), StepVec(w, s))
  {
    hide Scale;
    ScaleAdds(s.aX, v.y, w.y, sum.y);
    ScaleAdds(s.aX, v.x, w.x, sum.x);
    ScaleAdds(s.aY, v.y, w.y, sum.y);
    ScaleAdds(s.aY, v.x, w.x, sum.x);
  }

  lemma Distribute(k: real, a: real, b: real)
    ensures k * (a + b) == k * a + k * b && (a + b) * k == a * k + b * k
  {}

  lemma NothingSteps(s: Step)
    ensures StepVec(NOTHING, s) == NOTHING
  {}

  lemma {:induction false} FanTotals(accounts: seq<Account>, s: Step)
    ensures var fanned := FanAccounts(accounts, s);
            && Held(fanned) == StepVec(Held(accounts), s) && NetTotal(fanned) == NetTotal(accounts)
            && AccruedTotal(fanned) == AccruedTotal(accounts)
  {
    hide StepVec;
    NothingSteps(s);
    if accounts != [] {
      var last := |accounts| - 1;
      FanTotals(accounts[..last], s);
      StepVecAdds(Held(accounts[..last]), accounts[last].v, Held(accounts), s);
      assert FanAccounts(accounts, s)[..last] == FanAccounts(accounts[..last], s);
    }
  }

  lemma {:induction false} ChargeTotals(accounts: seq<Account>, d: real)
    ensures var charged := ChargeAccounts(accounts, d);
            && Held(charged) == Held(accounts) && NetTotal(charged) == NetTotal(accounts)
            && AccruedTotal(charged) == AccruedTotal(accounts) + (Held(accounts).x + NetTotal(accounts)) * d
  {
    if accounts != [] {
      var last := |accounts| - 1;
      var a := accounts[last];
      ChargeTotals(accounts[..last], d);
      assert ChargeAccounts(accounts, d)[..last] == ChargeAccounts(accounts[..last], d);
      Distribute(d, Held(accounts[..last]).x + NetTotal(accounts[..last]), a.v.x + a.net);
    }
  }

  lemma {:induction false} ReplaceTotals(accounts: seq<Account>, u: nat, a: Account)
    requires u < |accounts|
    ensures var r := accounts[u := a];
            && Held(r) == Plus(Plus(Held(accounts), Negate(accounts[u].v)), a.v)
            && NetTotal(r) == NetTotal(accounts) - accounts[u].net + a.net
            && AccruedTotal(r) == AccruedTotal(accounts) - accounts[u].accrued + a.accrued
  {
    var last := |accounts| - 1;
    if u == last {
      assert accounts[u := a][..last] == accounts[..last];
    } else {
      ReplaceTotals(accounts[..last], u, a);
      assert accounts[u := a][..last] == accounts[..last][u := a];
    }
  }

  /** The pool moves as one account that owned all of it would. */
  lemma PoolMovesAsOne(pool: Vec, op: Op)
    requires PoolAllows(pool, op)
    ensures PoolAfter(pool, op) == StepVec(pool, StepOf(pool, op))
  {
    match op
    case Long(_, paid, out) => Quotient(paid, pool.x); Quotient(out, pool.x);
    case Short(_, size, out) => Quotient(size, pool.y); Quotient(out, pool.y);
    case Fee(s, a) => Quotient(s, pool.y); Quotient(a, pool.x);
  }

  lemma PoolOpBalanced(n: Naive, op: Op)
    requires Balanced(n) && PoolAllows(n.pool, op)
    ensures var fanned := FanAccounts(n.accounts, StepOf(n.pool, op));
            && Held(fanned) == PoolAfter(n.pool, op) && AccruedTotal(fanned) == 0.0
            && Held(fanned).x + NetTotal(fanned) + NetGain(op) == 0.0
  {
    hide Held, NetTotal, AccruedTotal, StepOf, StepVec;
    FanTotals(n.accounts, StepOf(n.pool, op));
    PoolMovesAsOne(n.pool, op);
  }

  lemma TradeBalanced(n: Naive, u: nat, op: Op)
    requires Balanced(n) && PoolAllows(n.pool, op) && u < |n.accounts|
    ensures Balanced(Naive(PoolAfter(n.pool, op), AddNet(FanAccounts(n.accounts, StepOf(n.pool, op)), u, NetGain(op))))
  {
    hide Held, NetTotal, AccruedTotal, StepOf, PoolAfter, NetGain, PoolAllows;
    PoolOpBalanced(n, op);
    var fanned := FanAccounts(n.accounts, StepOf(n.pool, op));
    ReplaceTotals(fanned, u, fanned[u].(net := fanned[u].net + NetGain(op)));
  }

  lemma StepBalanced(n: Naive, op: Op)
    requires Balanced(n)
    ensures Balanced(NaiveStep(n, op))
  {
    hide Held, NetTotal, AccruedTotal, StepOf, PoolAfter, PoolAllows, FanAccounts, ChargeAccounts;
    match op
    case Long(u, _, _) => if u < |n.accounts| && PoolAllows(n.pool, op) { TradeBalanced(n, u, op); }
    case Short(u, _, _) => if u < |n.accounts| && PoolAllows(n.pool, op) { TradeBalanced(n, u, op); }
    case Fee(_, _) => if PoolAllows(n.pool, op) { PoolOpBalanced(n, op); }
    case Tick(d) => ChargeTotals(n.accounts, d);
    case Deposit(u, a) =>
      if u < |n.accounts| { ReplaceTotals(n.accounts, u, MoveLiquidity(n, u, a).accounts[u]); }
    case Withdraw(u, a) =>
      if u < |n.accounts| { ReplaceTotals(n.accounts, u, MoveLiquidity(n, u, Negate(a)).accounts[u]); }
    case Refresh(_) =>
    case Transfer(u, l, d) =>
      if u < |n.accounts| && l < |n.accounts| && u != l {
        var once := AddNet(n.accounts, u, -d);
        ReplaceTotals(n.accounts, u, once[u]);
        ReplaceTotals(once, l, AddNet(once, l, d)[l]);
      }
    case Roll =>
  }

  lemma {:induction false} ZeroTotals(accounts: seq<Account>)
    requires forall k :: 0 <= k < |accounts| ==> accounts[k] == Account(NOTHING, 0.0, 0.0)
    ensures Held(accounts) == NOTHING && NetTotal(accounts) == 0.0 && AccruedTotal(accounts) == 0.0
  {
    if accounts != [] { ZeroTotals(accounts[..|accounts| - 1]); }
  }

  lemma EmptyTotals(users: nat)
    ensures Balanced(EmptyNaive(users))
  {
    hide Held, NetTotal, AccruedTotal;
    ZeroTotals(EmptyNaive(users).accounts);
  }

  lemma {:induction false} RunBalanced(users: nat, ops: seq<Op>)
    ensures Balanced(NaiveRun(EmptyNaive(users), ops))
  {
    hide Balanced, NaiveStep;
    if ops == [] {
      EmptyTotals(users);
    } else {
      RunBalanced(users, ops[..|ops| - 1]);
      StepBalanced(NaiveRun(EmptyNaive(users), ops[..|ops| - 1]), ops[|ops| - 1]);
    }
  }

  // ----- The results -----

  /** On every run, whatever the interleaving of trades, fees, ticks, deposits, withdrawals, refreshes, liquidation
      transfers and rolls, and whichever epoch an account is pinned to: the balance recovered from its snapshot is the
      step-by-step balance, and the funding read off the row and the rate is the sum of what every tick charged it. */
  lemma IndexRefinesLedger(users: nat, ops: seq<Op>, k: nat)
    requires k < users
    ensures var n, i := NaiveRun(EmptyNaive(users), ops), IndexRun(EmptyIndex(users), ops);
            && i.pool == n.pool && k < |n.accounts| && k < |i.holdings|
            && Balance(i, k) == n.accounts[k].v && Accrued(i, k) == n.accounts[k].accrued
  {
    hide Recovered, Owed, NaiveRun, IndexRun;
    RunMatches(users, ops);
    var n, i := NaiveRun(EmptyNaive(users), ops), IndexRun(EmptyIndex(users), ops);
    RunKeepsAccounts(users, ops);
    assert Agrees(n, i, k);
  }

  lemma StepKeepsAccounts(n: Naive, op: Op)
    ensures |NaiveStep(n, op).accounts| == |n.accounts|
  {
    hide PoolAfter, StepOf, PoolAllows, NetGain, Covers;
  }

  lemma {:induction false} RunKeepsAccounts(users: nat, ops: seq<Op>)
    ensures |NaiveRun(EmptyNaive(users), ops).accounts| == users
  {
    hide NaiveStep;
    if ops != [] {
      RunKeepsAccounts(users, ops[..|ops| - 1]);
      StepKeepsAccounts(NaiveRun(EmptyNaive(users), ops[..|ops| - 1]), ops[|ops| - 1]);
    }
  }

  /** What the index reads for all accounts together. */
  function BalanceTotal(i: Index, k: nat): Vec
    requires k <= |i.holdings|
  {
    if k == 0 then NOTHING else Plus(BalanceTotal(i, k - 1), Balance(i, k - 1))
  }

  /** What a tick of one unit would charge all accounts together. */
  function ChargeTotal(i: Index, k: nat): real
    requires k <= |i.holdings|
  {
    if k == 0 then 0.0 else ChargeTotal(i, k - 1) + (Balance(i, k - 1).x + i.holdings[k - 1].net)
  }

  function OwedTotal(i: Index, k: nat): real
    requires k <= |i.holdings|
  {
    if k == 0 then 0.0 else OwedTotal(i, k - 1) + Accrued(i, k - 1)
  }

  lemma {:induction false} TotalsMatch(n: Naive, i: Index, k: nat)
    requires Matches(n, i) && k <= |i.holdings|
    ensures var prefix := n.accounts[..k];
            && BalanceTotal(i, k) == Held(prefix) && ChargeTotal(i, k) == Held(prefix).x + NetTotal(prefix)
            && OwedTotal(i, k) == AccruedTotal(prefix)
  {
    hide Recovered, Owed;
    if k > 0 {
      TotalsMatch(n, i, k - 1);
      assert Agrees(n, i, k - 1);
      assert n.accounts[..k][..k - 1] == n.accounts[..k - 1];
    }
  }

  /** On every run the recovered LP balances add up to the pool, on both sides and exactly; a funding tick charges all
      accounts nothing in total; and so the funding accrued by all accounts is zero at all times. */
  lemma PoolAndFundingBalance(users: nat, ops: seq<Op>)
    ensures var i := IndexRun(EmptyIndex(users), ops);
            && BalanceTotal(i, |i.holdings|) == i.pool && ChargeTotal(i, |i.holdings|) == 0.0
               && OwedTotal(i, |i.holdings|) == 0.0
  {
    hide NaiveRun, IndexRun, Balance, Accrued, Held, NetTotal, AccruedTotal;
    RunMatches(users, ops);
    RunBalanced(users, ops);
    var n, i := NaiveRun(EmptyNaive(users), ops), IndexRun(EmptyIndex(users), ops);
    TotalsMatch(n, i, |i.holdings|);
    assert n.accounts[..|i.holdings|] == n.accounts;
  }
}
