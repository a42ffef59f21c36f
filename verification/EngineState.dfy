/** The storage of the engine as one value: pool, funding, curve window, insurance, epochs and positions. */
module EngineState {
  import opened Arith
  import opened FusedMulDiv

  type Address = nat

  const ZERO_ADDRESS: Address := 0
  const WAD: nat := 1_000_000_000_000_000_000
  const ORACLE_DECIMALS: nat := 100_000_000
  const FEE_FRACTIONS: nat := 1_000_000
  const LIQUIDITY_FEE_DECIMALS: nat := 10_000_000_000
  const LIQUIDATION_DECIMALS: nat := 1_000_000
  const MMR_DECIMALS: nat := 1_000_000
  const M_DECIMALS: nat := 0x1_0000_0000_0000_0000_0000
  const G_DECIMALS: nat := 1_000_000_000_000_000_000_000_000
  const DET_DENOMINATOR: nat := 1_000_000_000_000
  const MAX_ACTIVE_EPOCHS: nat := 8

  const ZERO_MAT := Mat(0, 0, 0, 0)
  const IDENTITY := Mat(M_DECIMALS, 0, 0, M_DECIMALS)

  /** A trader's virtual position. */
  datatype Position = Position(balanceStable: nat, balanceAsset: nat, debtStable: nat, debtAsset: nat,
                               fundingFee: Signed, initialFundingRate: Signed)

  const EMPTY_POSITION := Position(0, 0, 0, 0, ZERO_SIGNED, ZERO_SIGNED)

  /** An LP's debts and the snapshot its balance is recovered from. */
  datatype LpPosition = LpPosition(initialStable: nat, initialAsset: nat, debtStable: nat, debtAsset: nat,
                                   snap: Mat, g0: int, g1: int)

  const EMPTY_LP := LpPosition(0, 0, 0, 0, ZERO_MAT, 0, 0)

  /** One LP accounting epoch: its matrix, its funding row and how many LPs are pinned to it. */
  datatype Epoch = Epoch(m: Mat, g0: int, g1: int, lpCount: nat)

  const EMPTY_EPOCH := Epoch(ZERO_MAT, 0, 0, 0)

  /** The epoch slots with the two pointers that bound the window. */
  datatype Epochs = Epochs(slots: map<nat, Epoch>, current: nat, oldest: nat) {
    function At(id: nat): Epoch { if id in slots then slots[id] else EMPTY_EPOCH }
    function Put(id: nat, e: Epoch): Epochs { this.(slots := slots[id := e]) }
    predicate InWindow(id: nat) { oldest <= id <= current }
    /** The test the fan-out loops make: initialised, and current or still referenced. */
    predicate Live(id: nat) { At(id).m.m00 != 0 && (id == current || At(id).lpCount != 0) }
  }

  datatype Pool = Pool(stable: nat, asset: nat)

  /** The curve-update window: consecutive same-direction trades inside it share anchors. */
  datatype Window = Window(lastUpdate: nat, lastDirection: bool, lastPrice: nat, dx0: nat, dy0: nat,
                           avgSlippageL: nat, avgSlippageS: nat)

  datatype State = State(pool: Pool, rate: Signed, lastOp: nat, exposure: Signed, window: Window, insurance: Signed,
                         ep: Epochs, lps: map<Address, LpPosition>, lpEpoch: map<Address, nat>,
                         positions: map<Address, Position>) {
    function Pos(u: Address): Position { if u in positions then positions[u] else EMPTY_POSITION }
    function Lp(u: Address): LpPosition { if u in lps then lps[u] else EMPTY_LP }
    function EpochOf(u: Address): nat { if u in lpEpoch then lpEpoch[u] else 0 }
    function SetPos(u: Address, p: Position): State { this.(positions := positions[u := p]) }
    function SetLp(u: Address, l: LpPosition): State { this.(lps := lps[u := l]) }
    function SetEpochOf(u: Address, e: nat): State { this.(lpEpoch := lpEpoch[u := e]) }
    /** Whether the LP holds a live snapshot. */
    predicate Active(u: Address) { Lp(u).snap.m00 != 0 && (Lp(u).initialStable != 0 || Lp(u).initialAsset != 0) }
  }

  /** The engine after initialisation: epoch 0 is the identity, everything else is zero. */
  const INITIAL_STATE := State(
    Pool(0, 0), ZERO_SIGNED, 0, ZERO_SIGNED, Window(0, false, 0, 0, 0, 0, 0), Signed(0, true),
    Epochs(map[0 := Epoch(IDENTITY, 0, 0, 0)], 0, 0), map[], map[], map[])

  /** Governance parameters. The two fee fractions never exceed the whole fee. */
  datatype Parameters = Parameters(
    tradingFee: nat, flatTradingFee: nat, feeLp: nat, feeFrontend: nat, emaParam: nat, feeProtocolAddr: Address,
    fundingC: nat, fundingInterval: nat, curveUpdateInterval: nat, insuranceFundCap: nat, mmr: nat,
    liquidityMinFee: nat, liquidityMaxFee: nat, liquidityFeeK: nat, minimumTradeSize: nat,
    minimumLiquidityMovement: nat,
    maxLpLeverage: nat, liquidationDiscount: nat, insFundFraction: nat, slipLiquidationTh: nat, autoCloseFee: nat)

  type Config = c: Parameters | c.feeLp + c.feeFrontend <= FEE_FRACTIONS
    witness Parameters(0, 0, 0, 0, 0, 0, 0, 0, 0, 0, 0, 0, 0, 0, 0, 0, 0, 0, 0, 0, 0)

  /** The curve solver as the engine calls it: (input, price, guess, stable anchor, asset anchor) to an
      unsigned output or a revert. Nothing is assumed about it. */
  type Solver = (nat, nat, nat, nat, nat) -> Result<nat>
  datatype Curve = Curve(long: Solver, short: Solver, exactInLong: Solver)

  /** What a call sees besides storage: parameters, block time, and the solver. */
  datatype Env = Env(cfg: Config, now: nat, curve: Curve)
}
