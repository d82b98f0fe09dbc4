/** Policy, telemetry, request and evidence types of the pre-trade risk engine (contracts/risk.py). */
module RiskContracts {
  import opened Contracts
  import opened InstrumentMaster
  import opened Orders
  import opened StreamHealth

  datatype KillSwitchState =
    | UnknownFailClosed | Clear | SoftLimited | PauseNewOrders | ReduceOnly | CancelOnly | HaltedState

  datatype LimitStatus = Pass | SoftBreach | HardBreach

  datatype DecisionStatus = Approved | ApprovedAfterCap | Rejected | NoTrade | CancelReduceOnlyApproved

  datatype LimitId =
    | RequiredState | ProductScope | KillSwitchLimit | VenueStatusLimit | PriceCollar | MaxNotional
    | InstrumentExposure | StrategyExposure | TotalSpotExposure | NoShortOrOversell | DailyAccountLoss
    | DailyStrategyLoss | MaxDrawdown | Participation | Spread | Volatility | DataFreshness | Idempotency
    | OrderThrottle | RejectBurst | EngineLatency | ModelDrift | TcaCostSlippage

  /** One soft and one hard reason per limit; two limits have a second hard reason. */
  datatype Reason = Passed | Soft(limit: LimitId) | Hard(limit: LimitId) | CashReserveHard | UnknownKillState

  datatype Evaluation = Evaluation(
    limitId: LimitId,
    status: LimitStatus,
    currentValue: real,
    softThreshold: Option<real>,
    hardThreshold: real,
    cappedValue: Option<real>,
    reason: Reason)

  datatype PolicyFields = RiskPolicy(
    paperNav: PositiveDecimal,
    orderNotionalSoftPct: PositiveDecimal, orderNotionalHardPct: PositiveDecimal,
    instrumentSoftPct: PositiveDecimal, instrumentHardPct: PositiveDecimal,
    strategySoftPct: PositiveDecimal, strategyHardPct: PositiveDecimal,
    totalSoftPct: PositiveDecimal, totalHardPct: PositiveDecimal,
    minCashReservePct: NonNegativeDecimal,
    priceCollarSoftBps: PositiveDecimal, priceCollarHardBps: PositiveDecimal,
    accountLossSoftPct: PositiveDecimal, accountLossHardPct: PositiveDecimal,
    strategyLossSoftPct: PositiveDecimal, strategyLossHardPct: PositiveDecimal,
    drawdownSoftPct: PositiveDecimal, drawdownHardPct: PositiveDecimal,
    volumeSoftPct: PositiveDecimal, volumeHardPct: PositiveDecimal,
    depthSoftPct: PositiveDecimal, depthHardPct: PositiveDecimal,
    spreadSoftBps: PositiveDecimal, spreadHardBps: PositiveDecimal,
    volatilitySoft: PositiveDecimal, volatilityHard: PositiveDecimal,
    tcaSoft: PositiveDecimal, tcaHard: PositiveDecimal)
  {
    /** Construction refuses a soft threshold above its hard one, and a fraction above one. */
    predicate Consistent() {
      && orderNotionalHardPct <= 1.0 && instrumentHardPct <= 1.0 && strategyHardPct <= 1.0 && totalHardPct <= 1.0
      && minCashReservePct <= 1.0 && accountLossHardPct <= 1.0 && strategyLossHardPct <= 1.0 && drawdownHardPct <= 1.0
      && volumeHardPct <= 1.0 && depthHardPct <= 1.0
      && orderNotionalSoftPct <= orderNotionalHardPct && instrumentSoftPct <= instrumentHardPct
      && strategySoftPct <= strategyHardPct && totalSoftPct <= totalHardPct
      && priceCollarSoftBps <= priceCollarHardBps
      && accountLossSoftPct <= accountLossHardPct && strategyLossSoftPct <= strategyLossHardPct
      && drawdownSoftPct <= drawdownHardPct
      && volumeSoftPct <= volumeHardPct && depthSoftPct <= depthHardPct
      && spreadSoftBps <= spreadHardBps && volatilitySoft <= volatilityHard && tcaSoft <= tcaHard
    }
  }

  type RiskPolicy = p: PolicyFields | p.Consistent()
    witness RiskPolicy(1.0, 1.0, 1.0, 1.0, 1.0, 1.0, 1.0, 1.0, 1.0, 0.0, 1.0, 1.0, 1.0, 1.0,
                       1.0, 1.0, 1.0, 1.0, 1.0, 1.0, 1.0, 1.0, 1.0, 1.0, 1.0, 1.0, 1.0, 1.0)

  datatype PriceRisk = PriceRisk(referencePriceAvailable: bool, priceDeviationBps: NonNegativeDecimal)

  datatype LossRisk = LossRisk(dailyAccountPnl: real, dailyStrategyPnl: real, maxDrawdownPct: NonNegativeDecimal)

  datatype LiquidityRisk = LiquidityRisk(
    quoteVolume24h: Option<PositiveDecimal>,
    topOfBookDepth: Option<PositiveDecimal>,
    depthMetricRequired: bool,
    currentSpreadBps: Option<NonNegativeDecimal>,
    spreadCostModelEnvelopeBps: Option<NonNegativeDecimal>)

  datatype MarketRisk = MarketRisk(
    envelopeAvailable: bool, envelopeMultiplier: Option<NonNegativeDecimal>, shockActive: bool)

  datatype EngineLatencyRisk = EngineLatencyRisk(
    budgetMs: PositiveDecimal, riskToGatewayMs: NonNegativeDecimal, eventTimeValidityProven: bool)

  datatype ModelRisk = ModelRisk(sustainedDrift: bool, severeAnomaly: bool, calibratedOutputs: bool)

  datatype TcaRisk = TcaRisk(tcaAvailable: bool, fillQualityKnown: bool,
    costSlippageMultiplier: Option<NonNegativeDecimal>)

  datatype IdempotencyState = Received | Accepted | Placed | Reconciled | RejectedState | UnknownState
  {
    predicate IsUnresolved() {
      Received? || Accepted? || Placed? || UnknownState?
    }
  }

  /** An ideal content hash: the content itself, so equal hashes mean equal intents. */
  datatype IntentHash = IntentHash(content: OrderIntent)

  datatype IdempotencyRecord = IdempotencyRecord(
    idempotencyKey: CanonicalId,
    clientOrderId: CanonicalId,
    traceId: CanonicalId,
    orderIntentHash: IntentHash,
    state: IdempotencyState)

  datatype ThrottleFields = ThrottleWindow(observedIntentCount: nat, softLimit: nat, hardLimit: nat)

  /** Construction refuses a soft limit above the hard one, and limits of zero. */
  type ThrottleWindow = w: ThrottleFields | 0 < w.softLimit <= w.hardLimit witness ThrottleWindow(0, 1, 1)

  datatype RejectBurstFields = RejectBurstWindow(
    observedRejectCount: nat, softLimit: nat, hardLimit: nat, unknownStateRejectObserved: bool)

  type RejectBurstWindow = w: RejectBurstFields | 0 < w.softLimit <= w.hardLimit
    witness RejectBurstWindow(0, 1, 1, false)

  datatype RiskRequest = RiskRequest(
    traceId: CanonicalId,
    decisionTs: Timestamp,
    riskCheckTs: Timestamp,
    accountId: CanonicalId,
    intent: OrderIntent,
    idempotencyKey: CanonicalId,
    referencePrice: PositiveDecimal,
    accountEquity: PositiveDecimal,
    currentCash: NonNegativeDecimal,
    positionQuantity: NonNegativeDecimal,
    instrumentExposure: NonNegativeDecimal,
    strategyExposure: NonNegativeDecimal,
    totalExposure: NonNegativeDecimal,
    snapshot: Snapshot,
    killState: KillSwitchState,
    priceRisk: PriceRisk,
    lossRisk: LossRisk,
    liquidityRisk: LiquidityRisk,
    marketRisk: MarketRisk,
    engineLatency: EngineLatencyRisk,
    modelRisk: ModelRisk,
    tcaRisk: TcaRisk,
    dataHealthSignals: seq<DataHealthSignal>,
    idempotencyRecords: seq<IdempotencyRecord>,
    throttleWindows: seq<ThrottleWindow>,
    rejectBurstWindows: seq<RejectBurstWindow>)

  datatype OrderEffect = OrderEffect(
    proposedNotional: PositiveDecimal,
    resultingPosition: real,
    resultingPositionNotional: NonNegativeDecimal,
    resultingCash: real,
    resultingInstrumentExposure: NonNegativeDecimal,
    resultingStrategyExposure: NonNegativeDecimal,
    resultingTotalExposure: NonNegativeDecimal,
    cashReservePct: real,
    riskIncreasing: bool)

  datatype RiskEvent = RiskEvent(
    request: RiskRequest,
    effect: OrderEffect,
    evaluations: seq<Evaluation>,
    decision: DecisionStatus,
    approvedIntent: Option<OrderIntent>)
}
