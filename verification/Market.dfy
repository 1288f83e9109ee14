/** Bars, trades and settings of a backtest (packages/engine/quanta_engine/backtest/types.py and strategy.py). */
module Market {
  import opened Wrappers

  datatype Bar = Bar(time: int, open: real, high: real, low: real, close: real, volume: real)

  type Bars = seq<Bar>

  /** Bar times strictly increase. */
  predicate Increasing(bars: Bars) {
    forall i, j :: 0 <= i < j < |bars| ==> bars[i].time < bars[j].time
  }

  datatype Side = Long | Short

  datatype ExitReason = TakeProfit | StopLoss | OppositeSignal | TimeExit | Liquidation | EndOfData

  /** One row of the maintenance-margin ladder; no end stands for infinity. */
  datatype Tier = Tier(start: real, end: Option<real>, rate: real, amount: real)

  datatype FundingEvent = FundingEvent(time: int, rate: real)

  datatype Config = Config(
    initialCapital: real, marginPercent: real, leverage: real, cross: bool,
    makerFee: real, takerFee: real, slippageBps: real, applyFunding: bool,
    tiers: seq<Tier>, entryIsMaker: bool, exitIsMaker: bool)
  {
    /** What the constructor of the source insists on. */
    predicate Valid() {
      initialCapital > 0.0 && 0.0 < marginPercent <= 100.0 && leverage >= 1.0 && slippageBps >= 0.0
    }

    function EntryFeeRate(): real { if entryIsMaker then makerFee else takerFee }

    function ExitFeeRate(): real { if exitIsMaker then makerFee else takerFee }
  }

  datatype ExitRules = ExitRules(
    atrStopMultiple: Option<real>, atrLength: nat, takeProfitR: Option<real>, breakEvenAtR: Option<real>,
    trailingAtrMultiple: Option<real>, exitOnOpposite: bool, timeExitBars: Option<nat>)
  {
    predicate Valid() {
      && (atrStopMultiple.Some? ==> atrStopMultiple.value > 0.0)
      && (takeProfitR.Some? ==> takeProfitR.value > 0.0 && atrStopMultiple.Some?)
      && (breakEvenAtR.Some? ==> atrStopMultiple.Some?)
      && atrLength >= 1
      && (timeExitBars.Some? ==> timeExitBars.value >= 1)
    }
  }

  /** One round trip. A liquidation price of None is infinity. */
  datatype Trade = Trade(
    side: Side, entryIndex: nat, entryTime: int, entryPrice: real, quantity: real, margin: real, leverage: real,
    liquidation: Option<real>,
    exitIndex: int, exitTime: int, exitPrice: real, reason: ExitReason,
    grossPnl: real, entryFee: real, exitFee: real, fundingPaid: real, netPnl: real,
    runUp: real, drawdown: real, equityAfter: real)

  /** The state of the trade currently open. */
  datatype Position = Position(
    trade: Trade, stop: Option<real>, take: Option<real>, distance: real, armed: bool, nextFunding: int, peak: real)

  function Direction(side: Side): real {
    if side.Long? then 1.0 else -1.0
  }
}
