# Denaria perpetual engine: a Dafny model

Denaria is a perpetual-futures engine. Traders swap a virtual stable for a virtual asset against one pool; liquidity providers own
shares of that pool without any per-provider write on a trade; funding flows between all of them; an insurance fund absorbs bad debt.
This project models the engine in two layers and proves what its accounting promises.

**Exact layer** (`CurveShape`, `ExactLedger`, `ExactRefinement`, over `real`). The curve's four cubics with their fixed-point scales
removed, and the accounting scheme without rounding: a naive ledger that writes every account at every step, and the index the engine
keeps instead, with one matrix and one funding row per epoch and one snapshot per account.

**Integer layer** (all other modules, over unbounded `int`). The storage is one value, `EngineState.State`. `EngineSpec` and `EngineOps`
say what each operation does to it, with Rust's truncating division, the engine's own ceiling division, its (magnitude, sign) pairs and
its revert codes. `Engine.PerpEngine` is the storage as an object: its methods write fields and maps in place in the order the
engine does, with its loops, and each is proved to leave exactly the storage value, or the revert, that the specification gives. `Transact` is a whole
transaction, a revert included, so whatever is proved of runs of the specification holds of runs of the object.

| file | content |
|---|---|
| `Arith.dfy`, `Reals.dfy`, `FusedMulDiv.dfy` | truncating and ceiling division, quotients of reals, signed pairs, the fused signed mul-div, adjugate recovery |
| `Newton.dfy` | the eight-branch cubic solver and the unbranched one the engine uses |
| `IntegerCurve.dfy` | both direct sides of the curve in the engine's own integers, and a way to check a solver run by its quotients |
| `Rounding.dfy`, `ShortRounding.dfy`, `LongRounding.dfy` | what the code's truncations can be away from the exact cubics, coefficient by coefficient, and what a root the solver stops at then solves |
| `CurveShape.dfy` | direct and inverse cubics, the invariant they come from, where their roots lie |
| `ExactLedger.dfy`, `ExactRefinement.dfy` | the index refines the naive ledger; LP balances are the pool; funding sums to zero |
| `EngineState.dfy`, `EngineSpec.dfy`, `EngineOps.dfy` | the storage value and every operation on it |
| `Engine.dfy` | the storage as an object and its methods |
| `MatrixRounding.dfy` | integer matrices against the exact product of the same coefficients |
| `Pinning.dfy` | the epoch invariant on every run, pinning safety, the window bound |
| `Settlement.dfy`, `Refresh.dfy` | previewed against settled funding, snapshot refresh, realised profit |
| `DecayTrace.dfy`, `DecayedEpoch.dfy` | a run of calls, priced by the engine's own curve, that decays an epoch three LPs are pinned to, and what it costs them |
| `ClaimDrift.dfy` | what the LPs can claim in integers against the pool, through every trade |
| `FundingTick.dfy`, `FundingKept.dfy` | what a tick moves and charges at every price; that no operation forgives or doubles accrued funding |
| `MapSum.dfy`, `Ledger.dfy`, `LedgerClose.dfy`, `LedgerRuns.dfy` | where asset and stable value go in total, in every operation and on every run |
| `Accounts.dfy`, `TradeAccounts.dfy`, `Closes.dfy`, `Liquidations.dfy` | who gains and who pays, account by account, in trades, fees, deposits, withdrawals, closes, realised profit and liquidations |
| `Equity.dfy` | profit and margin ratio as all a user holds less all it owes, and what the margin and solvency guards therefore leave |
| `Splitting.dfy` | consecutive trades in one curve window |
| `Coefficients.dfy`, `LiquidityBalances.dfy` | what the matrix coefficients are, what deposits and withdrawals do to a recovered balance, who is paid first |
| `Margin.dfy`, `FeeBounds.dfy` | what a margin ratio means, the liquidation discount, the slippage average, bounds and order of the liquidity fees, the buy-back gross-up |

## What the code does not meet, and exactly when it does

- Funding previewed for a user and funding settled for it are the same integer only while the user's epoch has a non-zero corner `m00`. An epoch
  whose corner has decayed to zero is skipped by the accrual loop and still read by the preview. `Settlement.DecayedEpochDropsTick` gives the
  exact difference, `Settlement.PreviewAgreesIff` the exact condition for funding and for profit, and `Settlement.DecayedTickMatters` when the
  difference is nothing and when it is not, in terms of the tick and row 1 of the epoch's matrix.
- Such an epoch is reachable on the engine's own curve. After a tick, five stable deposits (2e24, then 1e23 four times), each followed by a
  short of 2e27 at price 1, take epoch 0's corner to zero while three LPs are pinned to it: each short leaves between 1.7e18 and 2.8e18 stable,
  just above the T3 floor, and the roll tests the determinant only when somebody snapshots (`DecayedEpoch.DecayedEpochIsReachable`). The run has
  no fees, no limits beyond the code's guards, and a trader whose collateral covers the shorts. What each short pays is what
  `IntegerCurve.ShortReturn`, the code's integer coefficients and solver at its parameters A = 1 and B = 0.1, answers; `DecayTrace` checks
  every quotient of those five evaluations. The three LPs then read a balance
  of zero where their snapshots recover about 2e27 asset each, three fifths of the pool's asset is read by nobody, and they can withdraw nothing
  (`DecayedEpoch.DecayedEpochStrandsLp`). One day later a preview shows the first of them funding of 2.0e26 that settling does not write
  (`DecayedEpoch.DecayedEpochExample`).
- Roots of the direct cubics lie between the constant-sum and the constant-product point exactly when A > 0 or B = 0. With A = 0 and B > 0 the
  cubic has a second positive root below the constant-product point (`CurveShape.LongStrayRoot`, `CurveShape.ShortStrayRoot`). The engine's parameters
  have A > 0. That a root never pays better than spot holds for all A, B >= 0.
- The epoch pointers can span nine epochs; the bound of eight is on the epochs the fan-out loops act on. An epoch's count is at least
  the number of LPs pinned to it, and not claimed equal: a close that clears a live snapshot with nothing in it would leave the count above
  (`Pinning.ClearingLeavesReference`). No run that reaches such a snapshot is given.
- A withdrawal that leaves a one-sided pool charges a fee nobody receives: that fee is the only stable value an operation loses beyond the
  truncation of the fee splits (`Ledger.RemoveBooks`). Taking the whole asset side out of a stable-heavy pool loses it at the ceiling rate
  (`Ledger.OneSidedExitLosesCeiling`).

## Model

| member | source | states |
|---|---|---|
| `FusedMulDiv.FusedMulDivIsExact` | src/rust/CurveMath.rs:739-812 | the fused mul-div, which only carries or borrows between quotients and remainders, is (a*b + c*d)/D truncated toward zero for all signed inputs, and fails only on D = 0 |
| `FusedMulDiv.MulDivParts` | src/rust/CurveMath.rs:728-737 | the sign, quotient and remainder recompose to the exact signed product, with the remainder below the divisor |
| `FusedMulDiv.MulDivSigned` | src/rust/CurveMath.rs:715-726 | computed on magnitudes with the sign reapplied, it is truncated division for every sign pattern; zero denominator is M0 |
| `FusedMulDiv.RecoveryAtSnapshotIsExact` | src/rust/CurveMath.rs:833-880 | recovery against the snapshot's own matrix returns the initial balances exactly, on the Q80 and on the larger-scale path, and reverts MDET exactly when the determinant that path reads is not positive |
| `Arith.SignedSum` | src/rust/CurveMath.rs:945-958 | the value of the result is the sum of the values, whatever sign a zero carries |
| `Newton.EightBranchesAreOneStep` | src/rust/CurveMath.rs:95-190 | at a non-negative point all eight sign branches are one signed step x - trunc(f*1e18/f'), clamped at zero, except the two that revert NM1; iterates stay non-negative |
| `Newton.NewtonCubic` | src/rust/CurveMath.rs:139-199 | the 255-step loop returns what the step iterated to the stopping test returns, or NM1, NM2, or a division failure |
| `Newton.ReturnedValueIsNearlyARoot` | src/rust/CurveMath.rs:139-199 | a returned value is non-negative and one step of at most 1e10 from an iterate of the orbit, where abs(f)*1e18 < (1e10+1)*abs(f') unless the step was clamped |
| `Newton.NewtonCubicSigned` | src/rust/CurveMath.rs:201-230 | the same for the unbranched solver the curve functions call |
| `Newton.SignedReturnIsNearlyARoot` | src/rust/CurveMath.rs:201-230 | its returned value always satisfies the residual bound at the last iterate |
| `Newton.SolversSeeTheSameCubic` | src/rust/CurveMath.rs:139-230 | at a non-negative point both solvers compute the same value of the cubic, and slopes at most three units apart |
| `IntegerCurve.ShortAnswerIsNearlyARoot` | src/rust/CurveMath.rs:309-361 | whatever a short is answered leaves stable that is one step of at most 1e10 from an iterate of its integer cubic where abs(f)*1e18 < (1e10+1)*abs(f'); which cubic that is, `ShortRounding` says |
| `ShortRounding.ShortRoundsTheCurve` | src/rust/CurveMath.rs:309-361 | for every size, price and anchors the code does not revert on, each of the four integer coefficients of a short is the coefficient of the direct short cubic at A = 1, B = 0.1 in whole units, within what the code's own truncations can take |
| `ShortRounding.RealShortIsDirectShort` | whitepaper.tex:376-456 | that cubic is `CurveShape.DirectShort` of the pool, so its roots are the curve's |
| `ShortRounding.ShortAnswerSolvesTheCurve` | src/rust/CurveMath.rs:309-361 | whatever a short is answered leaves stable within 1e10 of a point where the real cubic is within (1e10+1)/1e18 of its slope from zero, give or take the truncations of one evaluation |
| `LongRounding.LongRoundsTheCurve` | src/rust/CurveMath.rs:236-302 | the same of the four coefficients of a long, through every scaled power of the price |
| `LongRounding.RealLongIsDirectLong` | whitepaper.tex:376-456 | the real cubic there is `CurveShape.DirectLong` of the pool |
| `LongRounding.LongAnswerSolvesTheCurve` | src/rust/CurveMath.rs:236-302 | whatever a long is answered leaves asset that nearly solves the real cubic, in the same sense |
| `Rounding.SmallResidual` | src/rust/CurveMath.rs:201-230 | where an integer cubic that stands for a real one is small against its slope, the real one is, up to the truncations of value and slope |
| `DecayTrace.FifthShort` | src/rust/CurveMath.rs:309-361 | the answer of the engine's curve to the last of five shorts, with every truncating division of the coefficients and of the six Newton iterations checked (the other four alike) |
| `CurveShape.DirectInverseLong` | src/rust/CurveMath.rs:236-448 | x solves the direct long cubic for y iff y solves the inverse long cubic for x; the two differ by a positive factor |
| `CurveShape.DirectInverseShort` | src/rust/CurveMath.rs:309-554 | the same for shorts |
| `CurveShape.DirectLongIsInvariant` | whitepaper.tex:376-456 | where no denominator vanishes, the direct long cubic's solutions are exactly the zeros of the AMM invariant |
| `CurveShape.DirectShortIsInvariant` | whitepaper.tex:376-456 | the same for shorts |
| `CurveShape.LongNeverBeatsSpot` | src/rust/CurveMath.rs:236-302 | for all p, x0, y0, size > 0 and A, B >= 0 every positive root of the long cubic pays less asset than the oracle price would |
| `CurveShape.ShortNeverBeatsSpot` | src/rust/CurveMath.rs:309-361 | the same for shorts |
| `CurveShape.LongRootsBetweenIff` | src/rust/CurveMath.rs:236-302 | every positive root lies between the constant-sum and the constant-product point iff A > 0 or B = 0 |
| `CurveShape.ShortRootsBetweenIff` | src/rust/CurveMath.rs:309-361 | the same for shorts |
| `CurveShape.LongStrayRoot` | src/rust/CurveMath.rs:236-302 | for A = 0 and B > 0, a positive root outside those bounds, for every pool and size |
| `CurveShape.ShortStrayRoot` | src/rust/CurveMath.rs:309-361 | the same for shorts |
| `ExactRefinement.IndexRefinesLedger` | perp-engine/src/internal_logic.rs:6-44 | on every run from an empty pool, for any interleaving of trades, fees, ticks, deposits, withdrawals, refreshes, transfers and rolls and whichever epoch an account is pinned to, M(t)*adj(M(t0))*v/det(M(t0)) is the step-by-step balance and the funding read off G, F and the snapshot is the sum of what each tick charged |
| `ExactRefinement.PoolAndFundingBalance` | whitepaper.tex:488-686 | on every run the recovered LP balances add up exactly to the pool on both sides, each tick charges all accounts nothing in total, and total accrued funding is zero |
| `ExactRefinement.StepMatches` | perp-engine/src/funding.rs:136-177 | every operation on the index mirrors the operation on the ledger, account by account |
| `ExactRefinement.SteppedHolding` | perp-engine/src/funding.rs:136-177 | a long, short or fee step of an epoch matrix is that step of every balance pinned to it |
| `ExactLedger.StepKeepsDet` | perp-engine/src/trade.rs:198-200 | steps that do not empty the pool keep every determinant positive |
| `ExactRefinement.FanTotals` | whitepaper.tex:1098-1191 | the fan-out moves the total of all accounts as it moves one account |
| `ExactRefinement.ChargeTotals` | whitepaper.tex:1317-1387 | a tick adds to total funding exactly the increment times the total asset held |
| `MatrixRounding.StepRoundsAgainstLps` | perp-engine/src/funding.rs:158-174 | one integer step keeps entries non-negative and rounds each entry of the exact product down by less than one unit |
| `MatrixRounding.RunNeverFavoursLps` | perp-engine/src/funding.rs:136-177 | from the identity, over every sequence of steps, the integer matrix has no negative entry and never exceeds the exact product of the same coefficients in any entry |
| `Pinning.ReachableMatricesBelowExact` | perp-engine/src/funding.rs:136-177 | in every reachable state every epoch's matrix is empty or is exactly what some such sequence makes of the identity, hence non-negative and below the unrounded product of that sequence in every entry |
| `ClaimDrift.TradeDrift` | perp-engine/src/trade.rs:258-280 | in every reachable state and for any list of LPs on undecayed epochs, what they can claim beyond the pool moves through a trade exactly as a balance does under the trade's own step, up to their slacks and the floor of the giving side's shares |
| `ClaimDrift.ClaimSteps` | perp-engine/src/funding.rs:136-177 | one integer fan-out moves an LP's claim as the exact step would, up to a slack its snapshot alone decides |
| `ClaimDrift.BalanceIsClaim` | perp-engine/src/internal_logic.rs:9-44 | the balance an LP reads is its exact claim on its epoch's matrix, rounded down and clamped to [0, pool] |
| `Pinning.EveryRunIsOk` | perp-engine/src/funding.rs:39-111 | the epoch invariant holds after every run of all operations, closes and liquidations included |
| `Pinning.PinnedEpochsAreSafe` | perp-engine/src/liquidity.rs:10-84 | in every reachable state a count covers the LPs pinned, no retire or roll frees a pinned epoch, an initialised epoch lies in the window, and taking or dropping any snapshot can only fail with LECAP, so no decrement underflows |
| `Pinning.WindowIsBounded` | perp-engine/src/funding.rs:86-111 | in every reachable state at most 8 epochs pass the fan-out test, the pointer span is at most 9, and at 9 the epoch below current is unreferenced |
| `Pinning.ClearingLeavesReference` | perp-engine/src/close.rs:27-52 | a close that clears a live snapshot with nothing in it drops one pinned LP and no count |
| `Pinning.RetireFreesOnlyDrained` | perp-engine/src/funding.rs:64-84 | retiring keeps every count and every referenced epoch and stops at a referenced epoch or at current |
| `Pinning.RollKeepsWindow` | perp-engine/src/funding.rs:86-111 | a roll keeps every referenced epoch and ends on an epoch with a positive determinant; its only failure is LECAP |
| `Pinning.ApplyKeepsInv` | perp-engine/src/lib.rs:188-229 | every operation that succeeds keeps the epoch invariant |
| `Settlement.PreviewEqualsSettlement` | perp-engine/src/internal_logic.rs:149-272 | in every reachable state writing the tick leaves each user's signed profit and margin ratio at that price and block unchanged, when the user's epoch has m00 != 0 |
| `Settlement.DecayedEpochDropsTick` | perp-engine/src/funding.rs:250-253 | on a decayed epoch settlement falls short of the preview by exactly the LP part of the tick |
| `Settlement.PreviewAgreesIff` | perp-engine/src/funding.rs:241-309 | in every reachable state previewed and settled funding are equal, and previewed and settled profit are, iff the epoch has not decayed or the LP part of the tick is nothing; the margin ratio is then unchanged too |
| `Settlement.DecayedTickMatters` | perp-engine/src/funding.rs:303-332 | that LP part is nothing when the tick times each entry of row 1 of the epoch's matrix is below the matrix scale, and something when the row it adds recovers at least two units |
| `FundingTick.TickMovesRate` | perp-engine/src/funding.rs:180-212 | a tick, for every price, exposure and pool: the cumulative rate moves in the direction of the exposure, not at all without exposure or pool, and by P * (abs(E)*P*1e5/(fundingC*V)) * elapsed/interval with P the price and V the pool's value at it, never more and less by at most the stated truncation |
| `FundingTick.TraderFundingIs` | perp-engine/src/funding.rs:276-340 | the trader part of a user's funding is its net asset, LP debt included, times the move of the rate since it was stamped, truncated once, with its sign |
| `FundingTick.TickChargesClaim` | perp-engine/src/funding.rs:241-264 | a rate move charges an LP its claimed asset times the move, up to the slack of its snapshot and two units |
| `FundingKept.TradeKeepsFunding` | perp-engine/src/trade.rs:207-230 | in every reachable state each user on an undecayed epoch, the trader and everybody else, is due after a trade, at its price and block, exactly the funding it was due before: none is forgiven, none is charged twice |
| `FundingKept.DepositKeepsFunding` | perp-engine/src/liquidity.rs:220-300 | the same of a deposit, for its LP even on a decayed epoch |
| `FundingKept.WithdrawalKeepsFunding` | perp-engine/src/liquidity.rs:105-212 | the same of a withdrawal |
| `FundingKept.LiquidationKeepsFunding` | perp-engine/src/liquidation.rs:52-149 | the same of a whole liquidation transfer, with its two settlements, its withdrawal and its two stamps |
| `DecayedEpoch.DecayedEpochIsReachable` | perp-engine/src/funding.rs:86-111 | eleven calls from initialisation, priced by the engine's own integer curve, reach a state with three LPs pinned to an epoch whose corner is zero: everybody but the fourth and fifth LP reads zero, those two read two fifths of the 1e28 asset in the pool, and each of the three recovers about a fifth of it without the decay test |
| `DecayedEpoch.DecayedEpochStrandsLp` | perp-engine/src/internal_logic.rs:9-44 | an LP pinned to a decayed epoch reads a zero balance, every withdrawal it asks for reverts L5, and settling it clears its snapshot while the pool keeps what it stood for |
| `DecayedEpoch.DecayedEpochExample` | perp-engine/src/funding.rs:250-253 | in that state, one day later, the preview shows the first LP a funding receipt of 2.0e26, the settlement 0 |
| `Refresh.RefreshIsNeutral` | perp-engine/src/internal_logic.rs:46-61 | once the tick is settled, refreshing one user, rolls and retires included, changes no user's LP balance or signed profit, stores a positive determinant, and leaves every balance recoverable |
| `Refresh.RealizeSettlesCompletely` | perp-engine/src/close.rs:253-297 | after realising, the user's profit at that price and block is exactly 0, all LP balances and its asset position are unchanged, and nobody else's profit moves |
| `LedgerRuns.AssetLedger` | perp-engine/src/trade.rs:209-280 | on every run pool asset plus recorded exposure is exactly the LPs' asset debt; pool asset plus net trader asset less LP debt is exactly minus the residuals closes dropped, and the exposure is ahead of net trader asset by the same amount |
| `LedgerRuns.ResidualIsBounded` | perp-engine/src/close.rs:54-132 | no transaction drops more than its close bound, and one that cannot end in a close drops nothing |
| `LedgerRuns.StableLedger` | perp-engine/src/trade.rs:258-289 | on every run stable value plus payouts to collateral never exceeds what closes settled (their funding and the worth of their residual), and falls short by at most one unit a long, two a short, and the fees of withdrawals that leave a one-sided pool |
| `LedgerClose.DriftIsFunding` | perp-engine/src/internal_logic.rs:85-96 | the residual of a close is worth nothing while the pool holds up to 1e23 stable, so what such a close adds to the stable book is exactly minus the funding it settles, whatever the solver answers |
| `LedgerRuns.WithoutClosesExact` | perp-engine/src/trade.rs:209-289 | on runs without closes both asset books are exact and stable value plus payouts never rises |
| `LedgerRuns.StepAccounts` | perp-engine/src/lib.rs:339-460 | every transaction, reverted or not, moves the three books as its effect says |
| `LedgerClose.CloseBooks` | perp-engine/src/close.rs:13-153 | a close drops exactly its residual from the asset total and adds it to the exposure gap, the residual is within the dust or C0 bound, and stable value plus payout moves by exactly the funding settled and the worth of the residual, less at most the exit loss and two units |
| `Ledger.TradeBooks` | perp-engine/src/trade.rs:204-289 | a trade keeps the asset total and the exposure gap exactly and loses at most 1 stable unit (long) or 2 (short) |
| `Ledger.ProtocolFeeBooks` | perp-engine/src/trade.rs:26-60 | a protocol fee is split between insurance fund and protocol address to the last unit, whatever the fund's sign and cap |
| `Ledger.RemoveBooks` | perp-engine/src/liquidity.rs:109-212 | a withdrawal keeps both asset books exactly, and the stable total but for its own fee when it leaves a one-sided pool |
| `Ledger.OneSidedExitLosesCeiling` | src/rust/CurveMath.rs:1026-1080 | a withdrawal of the whole asset side of a stable-heavy pool that keeps 10 units of stable lowers the stable total by exactly the ceiling rate on the value withdrawn |
| `LedgerRuns.DepositBooks` | perp-engine/src/liquidity.rs:302-393 | a deposit through the entry point keeps all three books exactly |
| `LedgerRuns.LiquidatePositionBooks` | perp-engine/src/liquidation.rs:282-362 | a liquidation transfer keeps all three books exactly, on either side, at any discount and at either valuation; who pays whom is `Accounts.LiquidatePositionAccounts` |
| `LedgerRuns.LiquidateTransferBooks` | perp-engine/src/liquidation.rs:52-149 | the whole liquidation before its close keeps the asset books exactly and loses at most the loss of the withdrawal it makes |
| `LedgerRuns.RealizeBooks` | perp-engine/src/close.rs:253-297 | realising moves exactly the realised amount from the stable total to collateral |
| `LedgerRuns.AutoCloseFeeBooks` | perp-engine/src/auto_close.rs:117-127 | the auto-close fee is conserved, even when user and caller are one account |
| `Accounts.ProtocolFeeAccounts` | perp-engine/src/trade.rs:26-60 | a protocol fee fills the fund to its cap and never lowers it, the protocol address gains exactly the rest, and nobody else's account moves |
| `Accounts.LiquidatePositionAccounts` | perp-engine/src/liquidation.rs:282-362 | on a long the user gives exactly the amount for the value less the discount, on a short it is relieved of it for the value plus the discount; the liquidator takes the other side and pays the insurance share the fund can hold; nobody else moves; and the value is spot or the solver's answer, each with its exact condition |
| `Liquidations.LiquidationAccounts` | perp-engine/src/liquidation.rs:52-149 | the same in every reachable state for the whole transfer: the fraction is that of the net asset, allowed at the user's margin ratio, at the discount of that ratio, on top of the liquidity pulled out for it |
| `Accounts.DepositAccounts` | perp-engine/src/liquidity.rs:220-300 | a depositor takes on debt for exactly what it puts in, or for its fee where that is more than its stable; nothing else of anybody's moves |
| `Accounts.WithdrawalAccounts` | perp-engine/src/liquidity.rs:105-212 | an LP's holdings outside the pool rise by exactly what it takes less its fee, the fee is within the maximum it set, and nobody else's account moves |
| `TradeAccounts.TradeMovesAccounts` | perp-engine/src/trade.rs:62-299 | the trader gives what it puts in for exactly what the trade returns; the fee is the proportional and flat part, at most the whole; the protocol's part fills the fund and then goes to the protocol, the frontend's to the frontend, whoever coincides; nobody else's account moves |
| `Closes.FlattenFloor` | perp-engine/src/close.rs:54-132 | a close forgets dust at no price, sells a long whole for no less than the caller's slippage leaves of its spot worth, and buys back a short for no more than it pays and no less asset than that slippage leaves of what spot would give |
| `Closes.CloseSettles` | perp-engine/src/close.rs:13-153 | a close turns all a user holds and owes, less the exit fee, into one position, trades it away at that floor or better, settles what it is worth and leaves no position and no LP record; the fund pays exactly the shortfall beyond the collateral, and nothing at all when the user closes itself |
| `Closes.AutoCloseFeeAccounts` | perp-engine/src/auto_close.rs:117-127 | the fee moves from the user to the caller and from nobody when they are one |
| `Closes.RealizeAccounts` | perp-engine/src/close.rs:253-297 | realising takes exactly the profit it reports out of the user's stable, a loss only below the collateral, and moves no asset and no other account |
| `Equity.ProfitIsEquity` | perp-engine/src/internal_logic.rs:67-109 | profit is LP balance plus trader balances less trader debts less LP debts less the funding due, the net asset valued at nothing within dust, at what selling it returns, or at what buying it back costs |
| `Equity.RatioIsEquity` | perp-engine/src/internal_logic.rs:149-204 | the margin ratio of a user is collateral plus that equity, at spot, over the value of its net asset, rounded down; 0 when it is negative |
| `Equity.TradeLeavesMargin` | perp-engine/src/trade.rs:362-401 | a trade that went through leaves its trader's equity, collateral included, above the maintenance ratio of its position |
| `Equity.OnlyUnderMarginIsLiquidated` | perp-engine/src/liquidation.rs:52-149 | a user liquidated in a reachable state was, once the tick is settled, in bad debt or at or below that ratio |
| `Equity.LiquidatorKeepsMargin` | perp-engine/src/liquidation.rs:151-163 | the liquidator is above that ratio with what it took over |
| `Equity.DepositLeavesLeverage` | perp-engine/src/liquidity.rs:302-393 | a deposit leaves its LP solvent against its collateral, and owing no more than the collateral times the leverage allowed |
| `Equity.WithdrawalLeavesSolvent` | perp-engine/src/liquidity.rs:395-453 | a withdrawal leaves its LP solvent against its collateral |
| `Splitting.SplittingGainsNothing` | perp-engine/src/trade.rs:93-181 | without fees and with a curve that ignores its guess, any number of same-direction trades at one price in one window, by any users, return in total exactly what one trade of the summed size returns on the opening pool, and leave the same pool |
| `Splitting.AnchorsOverRun` | perp-engine/src/trade.rs:118-280 | with fees, over any number of trades larger than their fee, the asset anchor is constant and the stable anchor grows by exactly the LP fees kept in the pool |
| `Splitting.AnchorsUnderFees` | perp-engine/src/trade.rs:263-280 | the same for one trade |
| `Coefficients.TradeCoefficientsAreShares` | perp-engine/src/trade.rs:263-280 | the coefficients a trade fans out are, rounded down at matrix scale, the shares of the giving side by which it moves the pool |
| `Coefficients.FeeCoefficientsAreShares` | perp-engine/src/liquidity.rs:89-103 | a liquidity fee is split by the value of the two sides, and each part fans out as its share of the side it is split by |
| `LiquidityBalances.DepositIsCredited` | perp-engine/src/liquidity.rs:247-290 | after a deposit the LP recovers exactly what it held once the fee was shared out, plus the deposit net of the fee it paid |
| `LiquidityBalances.WithdrawalIsDebited` | perp-engine/src/liquidity.rs:117-156 | after a withdrawal the LP recovers what it could before less what it withdrew, as sharing the withdrawal's own fee over that rest leaves it: exactly the rest on the asset side always, and on both sides when no fee is charged |
| `LiquidityBalances.FeeKeepsAssetBalance` | perp-engine/src/liquidity.rs:86-103 | sharing out a liquidity fee changes no LP's recovered asset balance, whatever epoch it is pinned to |
| `LiquidityBalances.RepaysBeforeCrediting` | perp-engine/src/liquidity.rs:170-188 | a withdrawal credits a balance only once the LP debt of that side is gone |
| `LiquidityBalances.NettingOrder` | perp-engine/src/liquidation.rs:364-416 | paying borrows only once the balance is gone and receiving credits only once the debt is gone, in the four primitives, in trades and in realised profit |
| `Splitting.TradeIsGuarded` | perp-engine/src/trade.rs:149-297 | whatever the solver answers, an executed trade pays at least the minimum asked, never better than the oracle price, never a whole side, and leaves at least one unit of stable value on each side |
| `Ledger.FundFillsFirst` | perp-engine/src/trade.rs:26-60 | the protocol address receives nothing until the insurance fund is at its cap, and a fee never lifts the fund above it |
| `Margin.MarginRatioMeans` | perp-engine/src/internal_logic.rs:113-142 | the ratio is collateral plus profit at spot over position value, rounded down; 0 in bad debt, the whole for a solvent user with no net asset |
| `Margin.DiscountGrowsAsMarginFalls` | perp-engine/src/liquidation.rs:261-273 | a discount exists exactly up to the maintenance ratio, save at ratio 0 when half of that ratio rounds to 0, and never falls as the margin ratio falls, across the break at half of it |
| `Margin.DiscountIs` | perp-engine/src/liquidation.rs:261-273 | the discount is the configured one at half the maintenance ratio, rising linearly to twice it at ratio 0, and half of it at that ratio, rising linearly to the configured one; within one unit and a 1e10th part, and never above |
| `Margin.EmaStaysBetween` | src/rust/CurveMath.rs:977-989 | the slippage average stays between its old value and the slippage observed, but for one unit |
| `FeeBounds.LiquidityFeesWithinMax` | src/rust/CurveMath.rs:1026-1169 | neither liquidity fee exceeds the configured ceiling, for any pool, price and amounts |
| `FeeBounds.DepositFeeFloorAndOrder` | src/rust/CurveMath.rs:1113-1169 | a deposit into a two-sided pool is charged at least the least fee but for truncation, and one that does not rebalance no less than another that leaves the pool closer to parity |
| `FeeBounds.RemovalFeeFloorAndOrder` | src/rust/CurveMath.rs:1026-1080 | a withdrawal is free exactly in the waived cases, is charged at least the least fee but for truncation otherwise, and the same order holds |
| `FeeBounds.BuyBackCoversNeed` | perp-engine/src/close.rs:101-114 | the grossed-up buy-back puts at least the needed amount into the curve after the trade's own fee, and exactly that amount when nothing is rebated |
| `Engine.PerpEngine.constructor` | perp-engine/src/config.rs:14-60 | the storage after initialisation: epoch 0 is the identity, the fund's sign is positive, all else is zero |
| `Engine.PerpEngine.InitializeLiquidityEpoch` | perp-engine/src/funding.rs:25-36 | resets matrix and row of one epoch, keeps its count, touches nothing else |
| `Engine.PerpEngine.IncrementActiveLpCount` | perp-engine/src/funding.rs:38-43 | one count up, nothing else |
| `Engine.PerpEngine.DecrementActiveLpCount` | perp-engine/src/funding.rs:45-50 | one count down, or a revert at zero |
| `Engine.PerpEngine.RetireInactiveLiquidityEpochs` | perp-engine/src/funding.rs:64-84 | the loop, with a terminating measure, leaves the window `Retire` describes |
| `Engine.PerpEngine.RollLiquidityEpochIfNeeded` | perp-engine/src/funding.rs:86-111 | rolls exactly when the determinant is at or below 2^80/1e12, reverts LECAP on a full window |
| `Engine.PerpEngine.RefreshLpFundingSnapshot` | perp-engine/src/funding.rs:120-134 | re-baselines the row of a live LP against its own epoch, leaves a trader alone |
| `Engine.PerpEngine.ApplyLiquidityMatrixUpdate` | perp-engine/src/funding.rs:136-177 | the loop over the window steps every live epoch and no other |
| `Engine.PerpEngine.AccrueFundingRow` | perp-engine/src/funding.rs:241-264 | the loop over the window accrues every live epoch's row and no other |
| `Engine.PerpEngine.UpdateFg` | perp-engine/src/funding.rs:214-268 | settles rate and rows once per block and stamps the block; idempotent within it; by how much, `FundingTick` says |
| `Engine.PerpEngine.UpdateSnapshots` | perp-engine/src/liquidity.rs:6-84 | stamps the rate and drops or takes the LP snapshot, moving its reference |
| `Engine.PerpEngine.TakeSnapshot` | perp-engine/src/liquidity.rs:48-83 | rolls first, moves the reference, captures the current epoch, retires drained epochs |
| `Engine.PerpEngine.DropSnapshot` | perp-engine/src/liquidity.rs:27-46 | releases the epoch of a live LP, clears the snapshot, retires drained epochs |
| `Engine.PerpEngine.SettleFundingAndUpdateSnapshots` | perp-engine/src/internal_logic.rs:46-61 | credits the accrued fee, then re-snapshots at the recovered balance |
| `Engine.PerpEngine.DistributeLiquidityFee` | perp-engine/src/liquidity.rs:86-103 | shares a fee through row 0 of the live matrices; a one-sided pool takes nothing |
| `Engine.PerpEngine.RemoveLiquidity` | perp-engine/src/liquidity.rs:105-212 | the withdrawal, with L5, L6 and RLA, and the fee it charged |
| `Engine.PerpEngine.WithdrawFromPool` | perp-engine/src/liquidity.rs:137-203 | its second half: fee, pool, fee distribution, debts, balances, exposure, window |
| `Engine.PerpEngine.RepayAndCredit` | perp-engine/src/liquidity.rs:160-197 | LP debts are repaid before balances are credited, and the exposure rises by the asset credited |
| `Engine.PerpEngine.AddLiquidity` | perp-engine/src/liquidity.rs:220-300 | the deposit: funding settled on the old pool, debts, fee, old balance folded in, new snapshot |
| `Engine.PerpEngine.AddLiquidityOuter` | perp-engine/src/liquidity.rs:302-393 | the deposit entry point with L1, L2, C1 and L3 |
| `Engine.PerpEngine.RemoveLiquidityOuter` | perp-engine/src/liquidity.rs:395-453 | the withdrawal entry point with L4 and C1 |
| `Engine.PerpEngine.AssignProtocolFeeFillingInsurance` | perp-engine/src/trade.rs:26-60 | the three ways a protocol fee meets the fund |
| `Engine.PerpEngine.OpenCurveWindow` | perp-engine/src/trade.rs:93-102 | resets the window exactly when it expired, turned, or saw another price |
| `Engine.PerpEngine.PriceLong` | perp-engine/src/trade.rs:111-155 | return, fee and window of a long, rebate and T4 included |
| `Engine.PerpEngine.PriceShort` | perp-engine/src/trade.rs:156-196 | return, fee, curve output and window of a short, rebate and T4 included |
| `Engine.PerpEngine.SettleTraderPosition` | perp-engine/src/trade.rs:204-256 | funding, exposure, funding snapshot and position of the trader; `FundingKept.TradeKeepsFunding` is what the crediting is for |
| `Engine.PerpEngine.MoveTradedPool` | perp-engine/src/trade.rs:258-280 | coefficients, fan-out and pool of a trade |
| `Engine.PerpEngine.PayTradingFees` | perp-engine/src/trade.rs:282-289 | protocol fee and frontend fee |
| `Engine.PerpEngine.ExecuteTrade` | perp-engine/src/trade.rs:62-299 | a whole trade, with T4, T5 and T3, and what it returned; what it does to every account and to funding is `TradeAccounts.TradeMovesAccounts` and `FundingKept.TradeKeepsFunding` |
| `Engine.PerpEngine.TradeImpl` | perp-engine/src/trade.rs:362-401 | the trade entry point with T2 and T1; what T1 leaves is `Equity.TradeLeavesMargin` |
| `Engine.PerpEngine.CloseLiquidity` | perp-engine/src/close.rs:27-52 | withdraws everything, turns LP debt into trader debt, clears the record |
| `Engine.PerpEngine.SellNetAsset` | perp-engine/src/close.rs:59-71 | nets and sells a long |
| `Engine.PerpEngine.BuyBackNetAsset` | perp-engine/src/close.rs:78-131 | buys back a short by inverting the curve, within C0 |
| `Engine.PerpEngine.FlattenPosition` | perp-engine/src/close.rs:54-132 | dust is forgotten, anything else is traded to nothing or to a residual |
| `Engine.PerpEngine.CloseAndWithdrawInner` | perp-engine/src/close.rs:13-153 | a whole close, with C1 and the insurance fund taking what a loss leaves beyond the collateral |
| `Engine.PerpEngine.RealizePnlOuter` | perp-engine/src/close.rs:253-307 | realises a profit in place, with R1 |
| `Engine.PerpEngine.AutoCloseWithPrice` | perp-engine/src/auto_close.rs:117-151 | moves the fee, then closes under the self-close guard |
| `Engine.PerpEngine.DebitStableFrom` | perp-engine/src/liquidation.rs:364-376 | pays stable, overflowing into debt |
| `Engine.PerpEngine.CreditStableViaDebtTo` | perp-engine/src/liquidation.rs:378-390 | receives stable, repaying debt first |
| `Engine.PerpEngine.DebitAssetFrom` | perp-engine/src/liquidation.rs:392-403 | pays asset, overflowing into debt |
| `Engine.PerpEngine.CreditAssetViaDebtTo` | perp-engine/src/liquidation.rs:405-416 | receives asset, repaying debt first |
| `Engine.PerpEngine.LiquidatePosition` | perp-engine/src/liquidation.rs:282-362 | the transfer at a discount on either side, with the insurance share; what it does to every account is `Accounts.LiquidatePositionAccounts` |
| `Engine.PerpEngine.TransferLiquidated` | perp-engine/src/liquidation.rs:52-149 | funding, both snapshots, liquidity pulled, fraction limits, transfer, with LQ0 and LQ1 |
| `Engine.PerpEngine.LiquidateWithPrice` | perp-engine/src/liquidation.rs:52-174 | a whole liquidation, with LQ2 and the close of a full one |
| `Engine.PerpEngine.UpdateLpSnapshot` | perp-engine/src/lib.rs:739-766 | settles funding and refreshes a live LP, LS0 otherwise |
| `Engine.PerpEngine.Transact` | docs/ARCHITECTURE.md:64-83 | one transaction: the operation's effect, or the storage exactly as it was when it reverts |

## Left out

- The curve solver inside trades, closes and valuations is an arbitrary function of its inputs that may revert, limited only by the T4, T5, T3 and C0 checks around it, so what is proved holds of the engine's own. Its two direct sides are modelled in integers (`IntegerCurve.ShortReturn`, `IntegerCurve.LongReturn`) with their error against the exact cubics (`ShortRounding`, `LongRounding`); the integer coefficient chains of the two inverse functions, which closes and valuations of shorts call, are not.
- Newton's convergence within 255 steps is not claimed; non-convergence is the NM2 revert.
- Integers are unbounded. 256- and 512-bit wrapping, narrowing casts and the MOV reverts do not occur; unsigned underflow and division by zero are reverts.
- The vault and the oracle are calls into other contracts: collateral and price are inputs of each call, and the amount a call moves to collateral is its result. What the vault does with it, and the sweep of a liquidated user's collateral, are not modelled.
- Governance parameters are an input of each call, with fee_lp + fee_frontend at most the whole fee, as the initialiser and the setters require; the time-lock, roles, forwarder, pause and reentrancy guards, leverage check T0 and events are left out.
- Auto-close authorisation and thresholds are left out, so any call may close a user here under the self-close guard; the batch wrappers are folds over the per-user bodies.
- The exact layer has no epoch retirement, no clamp of balances to the pool and no funding-rate formula: a tick is any increment. A full exit is a snapshot of zero balances.
- `inverse_long_coefficients` divides one term by the oracle decimals where its siblings use the curve decimals; the two are 1e8 in the engine and are taken equal.
- Pinning.PinnedEpochsAreSafe: counts bound the pinned LPs from above and are not claimed equal to them, because a close can clear a snapshot without releasing its reference.
- Settlement.PreviewEqualsSettlement: stated for users whose epoch has not decayed, because it is false of the others; Settlement.PreviewAgreesIff gives the exact condition for the funding and the profit, and DecayedEpoch a reachable state where it fails.
- Settlement.DecayedTickMatters: between a row that rounds to nothing and one worth two units the truncation decides, and the condition of Settlement.PreviewAgreesIff has to be evaluated.
- Engine.PerpEngine.LiquidateWithPrice: the vault settlement of a full liquidation and the sweep of the user's collateral, calls into another contract, are not modelled.
- LedgerRuns.StableLedger: funding fees are not part of the stable total until a close or a realised profit settles them, because truncation keeps integer funding from summing to zero; a close's settled funding and the worth it gives its residual appear as its drift. The worth is a solver answer and unbounded on pools above 1e23 stable; below, LedgerClose.DriftIsFunding makes it nothing.
- FundingKept.DepositKeepsFunding: like FundingKept.WithdrawalKeepsFunding and FundingKept.LiquidationKeepsFunding, stated where the funding rate of the pool left behind computes; it divides by zero, and every preview reverts, only on a pool whose asset is worth less than one unit and that holds no stable.
- FeeBounds.DepositFeeFloorAndOrder: compares moves that do not rebalance the pool; a rebalancing one pays exactly the least fee, which the truncated fee curve can undercut by the stated amount.
- LedgerClose.CloseBooks: says how much stable value a close may lose and not which unit is lost where.
- Splitting.SplittingGainsNothing: compares successful trades; whether the single trade also passes the trader's margin check is not claimed.
- Liquidation's fraction is truncated, so a size slightly above the position passes the full-liquidation limit; no exact cap on the liquidated size is claimed.
- The remaining getters of the public interface, the matrix helpers no engine path calls, and the Solidity reference are not part of this model.
