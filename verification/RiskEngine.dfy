/** The pure pre-trade risk engine: limit evaluations, the decision, and soft capping (risk/engine.py). */
module RiskEngine {
  import opened Contracts
  import opened InstrumentMaster
  import opened Orders
  import opened StreamHealth
  import opened RiskContracts

  // ------------------------------------------------------------ metadata and order effect

  datatype MetadataView = MetadataView(
    venue: Option<Venue>,
    instrument: Option<Instrument>,
    account: Option<Account>,
    constraint: Option<InstrumentConstraint>)

  function ViewMetadata(r: RiskRequest): MetadataView {
    MetadataView(
      FindVenue(r.snapshot, r.intent.venueId),
      FirstMatch(r.snapshot.instruments,
                 (i: Instrument) => i.instrumentId == r.intent.instrumentId && i.venueId == r.intent.venueId),
      FirstMatch(r.snapshot.accounts,
                 (a: Account) => a.accountId == r.accountId && a.venueId == r.intent.venueId),
      TheActiveConstraint(r.snapshot, r.intent.instrumentId, r.snapshot.createdAt))
  }

  function Notional(r: RiskRequest): (n: PositiveDecimal) {
    r.intent.quantity * r.referencePrice
  }

  function BuildOrderEffect(r: RiskRequest): OrderEffect {
    var n: real := Notional(r);
    var buying := r.intent.side == Buy;
    var position := if buying then r.positionQuantity + r.intent.quantity else r.positionQuantity - r.intent.quantity;
    var cash := if buying then r.currentCash - n else r.currentCash + n;
    OrderEffect(
      n, position, Max(0.0, position * r.referencePrice), cash,
      if buying then r.instrumentExposure + n else Max(0.0, r.instrumentExposure - n),
      if buying then r.strategyExposure + n else Max(0.0, r.strategyExposure - n),
      if buying then r.totalExposure + n else Max(0.0, r.totalExposure - n),
      cash / r.accountEquity,
      buying || position < 0.0)
  }

  // ------------------------------------------------------------ building one evaluation

  function Passing(limit: LimitId, value: real, soft: Option<real>, hard: real): Evaluation {
    Evaluation(limit, Pass, value, soft, hard, None, Passed)
  }

  function SoftBreached(limit: LimitId, value: real, soft: Option<real>, hard: real, cap: Option<real>): Evaluation {
    Evaluation(limit, SoftBreach, value, soft, hard, cap, Soft(limit))
  }

  function HardBreached(limit: LimitId, value: real, soft: Option<real>, hard: real): Evaluation {
    Evaluation(limit, HardBreach, value, soft, hard, None, Hard(limit))
  }

  function Threshold(limit: LimitId, value: real, soft: real, hard: real): Evaluation {
    if value > hard then HardBreached(limit, value, Some(soft), hard)
    else if value > soft then SoftBreached(limit, value, Some(soft), hard, Some(soft))
    else Passing(limit, value, Some(soft), hard)
  }

  function NegativeLoss(limit: LimitId, value: real, soft: real, hard: real): Evaluation {
    if value <= hard then HardBreached(limit, value, Some(soft), hard)
    else if value <= soft then SoftBreached(limit, value, Some(soft), hard, None)
    else Passing(limit, value, Some(soft), hard)
  }

  function Satisfied(limit: LimitId, ok: bool): Evaluation {
    if ok then Passing(limit, 1.0, None, 1.0) else HardBreached(limit, 0.0, None, 1.0)
  }

  // ------------------------------------------------------------ limits that do not read the size of a buy

  function RequiredStateEvaluation(r: RiskRequest): Evaluation {
    var m := ViewMetadata(r);
    Satisfied(RequiredState,
      && m.venue.Some? && m.instrument.Some? && m.account.Some? && m.constraint.Some?
      && m.instrument.value.status == Trading && Market in m.instrument.value.supportedOrderTypes
      && m.account.value.status == AccountActive && PlaceOrders in m.account.value.permissions
      && r.killState != UnknownFailClosed)
  }

  function ProductScopeEvaluation(r: RiskRequest): Evaluation {
    var m := ViewMetadata(r);
    Satisfied(ProductScope,
      && m.instrument.Some? && m.account.Some? && m.instrument.value.instrumentType == Spot
      && (m.account.value.accountType == Simulation || m.account.value.accountType == Paper))
  }

  function Severity(s: KillSwitchState): nat {
    match s
    case Clear => 0
    case SoftLimited => 1
    case PauseNewOrders => 2
    case ReduceOnly => 3
    case CancelOnly => 4
    case HaltedState => 5
    case UnknownFailClosed => 6
  }

  function KillSwitchEvaluation(r: RiskRequest): Evaluation {
    var value := Severity(r.killState) as real;
    match r.killState
    case UnknownFailClosed => HardBreached(KillSwitchLimit, value, None, 0.0).(reason := UnknownKillState)
    case Clear => Passing(KillSwitchLimit, value, None, 0.0)
    case SoftLimited => SoftBreached(KillSwitchLimit, value, None, 0.0, None)
    case _ =>
      if (r.killState == PauseNewOrders || r.killState == ReduceOnly) && !BuildOrderEffect(r).riskIncreasing then
        Passing(KillSwitchLimit, value, None, 3.0)
      else
        HardBreached(KillSwitchLimit, value, None, 0.0)
  }

  function VenueStatusEvaluation(r: RiskRequest): Evaluation {
    var venue := ViewMetadata(r).venue;
    if venue.Some? && venue.value.status == VenueActive then Passing(VenueStatusLimit, 1.0, None, 1.0)
    else if venue.Some? && venue.value.status == VenueDegraded then SoftBreached(VenueStatusLimit, 0.5, None, 1.0, None)
    else HardBreached(VenueStatusLimit, 0.0, None, 1.0)
  }

  function PriceCollarEvaluation(r: RiskRequest, p: RiskPolicy): Evaluation {
    var value, soft, hard := r.priceRisk.priceDeviationBps, p.priceCollarSoftBps, p.priceCollarHardBps;
    if !r.priceRisk.referencePriceAvailable then HardBreached(PriceCollar, value, Some(soft), hard)
    else if value > hard || (r.intent.orderType == Market && value > soft)
      then HardBreached(PriceCollar, value, Some(soft), hard)
    else if value > soft then SoftBreached(PriceCollar, value, Some(soft), hard, None)
    else Passing(PriceCollar, value, Some(soft), hard)
  }

  function NoShortEvaluation(r: RiskRequest): Evaluation {
    var oversell := if r.intent.side == Sell then Max(0.0, r.intent.quantity - r.positionQuantity) else 0.0;
    if oversell > 0.0 then HardBreached(NoShortOrOversell, oversell, None, 0.0)
    else Passing(NoShortOrOversell, oversell, None, 0.0)
  }

  function SpreadEvaluation(r: RiskRequest, p: RiskPolicy): Evaluation {
    if r.liquidityRisk.currentSpreadBps.None? then HardBreached(Spread, 0.0, Some(p.spreadSoftBps), p.spreadHardBps)
    else
      var envelope := r.liquidityRisk.spreadCostModelEnvelopeBps;
      var hard := if envelope.Some? then Min(p.spreadHardBps, envelope.value) else p.spreadHardBps;
      Threshold(Spread, r.liquidityRisk.currentSpreadBps.value, p.spreadSoftBps, hard)
  }

  function VolatilityEvaluation(r: RiskRequest, p: RiskPolicy): Evaluation {
    var multiplier := r.marketRisk.envelopeMultiplier;
    var value := if multiplier.Some? then multiplier.value else 0.0;
    if !r.marketRisk.envelopeAvailable || multiplier.None? || r.marketRisk.shockActive then
      HardBreached(Volatility, value, Some(p.volatilitySoft), p.volatilityHard)
    else Threshold(Volatility, value, p.volatilitySoft, p.volatilityHard)
  }

  predicate BlocksInstrument(s: DataHealthSignal, instrumentId: CanonicalId) {
    s.blocksTrading && (s.blockedInstrumentId.None? || s.blockedInstrumentId.value == instrumentId)
  }

  function CountBlocking(signals: seq<DataHealthSignal>, instrumentId: CanonicalId): (n: nat)
    ensures n > 0 <==> exists s :: s in signals && BlocksInstrument(s, instrumentId)
  {
    if signals == [] then 0
    else CountBlocking(signals[1..], instrumentId) + if BlocksInstrument(signals[0], instrumentId) then 1 else 0
  }

  function DataFreshnessEvaluation(r: RiskRequest): Evaluation {
    var blocking := CountBlocking(r.dataHealthSignals, r.intent.instrumentId);
    if blocking > 0 then HardBreached(DataFreshness, blocking as real, None, 0.0)
    else Passing(DataFreshness, 0.0, None, 0.0)
  }

  function ThrottleEvaluation(w: ThrottleWindow): Evaluation {
    Threshold(OrderThrottle, (w.observedIntentCount + 1) as real, w.softLimit as real,
      w.hardLimit as real).(cappedValue := None)
  }

  /** One evaluation per window, in order; a pass when there is no window. */
  function ThrottleEvaluationsFor(windows: seq<ThrottleWindow>): seq<Evaluation> {
    if windows == [] then [Passing(OrderThrottle, 0.0, Some(0.0), 0.0)]
    else seq(|windows|, i requires 0 <= i < |windows| => ThrottleEvaluation(windows[i]))
  }

  function RejectBurstEvaluation(w: RejectBurstWindow): Evaluation {
    var value, soft, hard := w.observedRejectCount as real, w.softLimit as real, w.hardLimit as real;
    if w.unknownStateRejectObserved || value >= hard then HardBreached(RejectBurst, value, Some(soft), hard)
    else if value >= soft then SoftBreached(RejectBurst, value, Some(soft), hard, None)
    else Passing(RejectBurst, value, Some(soft), hard)
  }

  function RejectBurstEvaluationsFor(windows: seq<RejectBurstWindow>): seq<Evaluation> {
    if windows == [] then [Passing(RejectBurst, 0.0, None, 0.0)]
    else seq(|windows|, i requires 0 <= i < |windows| => RejectBurstEvaluation(windows[i]))
  }

  function EngineLatencyEvaluation(r: RiskRequest): Evaluation {
    var value := Max((r.riskCheckTs - r.decisionTs) as real, r.engineLatency.riskToGatewayMs);
    var hard := r.engineLatency.budgetMs;
    var soft := hard * 0.5;
    if !r.engineLatency.eventTimeValidityProven || value > hard
      then HardBreached(EngineLatency, value, Some(soft), hard)
    else if value > soft then SoftBreached(EngineLatency, value, Some(soft), hard, None)
    else Passing(EngineLatency, value, Some(soft), hard)
  }

  function ModelDriftEvaluation(r: RiskRequest): Evaluation {
    if r.modelRisk.severeAnomaly || !r.modelRisk.calibratedOutputs then HardBreached(ModelDrift, 1.0, Some(0.0), 0.0)
    else if r.modelRisk.sustainedDrift then SoftBreached(ModelDrift, 1.0, Some(0.0), 0.0, None)
    else Passing(ModelDrift, 0.0, Some(0.0), 0.0)
  }

  function TcaEvaluation(r: RiskRequest, p: RiskPolicy): Evaluation {
    var multiplier := r.tcaRisk.costSlippageMultiplier;
    var value := if multiplier.Some? then multiplier.value else 0.0;
    if !r.tcaRisk.tcaAvailable || !r.tcaRisk.fillQualityKnown || multiplier.None? then
      HardBreached(TcaCostSlippage, value, Some(p.tcaSoft), p.tcaHard)
    else Threshold(TcaCostSlippage, value, p.tcaSoft, p.tcaHard)
  }

  // ------------------------------------------------------------ limits that read the size

  /** A fraction of NAV, tightened by the account's own fraction when the account is known. */
  function NavLimit(p: RiskPolicy, pct: real, accountPct: Option<real>): real {
    Min(p.paperNav * pct, p.paperNav * if accountPct.Some? then accountPct.value else pct)
  }

  function AccountPct(r: RiskRequest, pick: AccountRiskLimits -> real): Option<real> {
    var account := ViewMetadata(r).account;
    if account.Some? then Some(pick(account.value.riskLimits)) else None
  }

  function OrderNotionalHard(r: RiskRequest, p: RiskPolicy): real {
    var base := NavLimit(p, p.orderNotionalHardPct, AccountPct(r, (l: AccountRiskLimits) => l.maxOrderNotionalPct));
    var constraint := ViewMetadata(r).constraint;
    if constraint.Some? && constraint.value.maxOrderNotional.Some?
      then Min(base, constraint.value.maxOrderNotional.value) else base
  }

  function InstrumentHard(r: RiskRequest, p: RiskPolicy): real {
    NavLimit(p, p.instrumentHardPct, AccountPct(r, (l: AccountRiskLimits) => l.maxInstrumentExposurePct))
  }

  function StrategyHard(r: RiskRequest, p: RiskPolicy): real {
    NavLimit(p, p.strategyHardPct, AccountPct(r, (l: AccountRiskLimits) => l.maxStrategyExposurePct))
  }

  function TotalHard(r: RiskRequest, p: RiskPolicy): real {
    NavLimit(p, p.totalHardPct, AccountPct(r, (l: AccountRiskLimits) => l.maxTotalSpotExposurePct))
  }

  function CashFloor(r: RiskRequest, p: RiskPolicy): real {
    var accountPct := AccountPct(r, (l: AccountRiskLimits) => l.minCashReservePct);
    Max(p.paperNav * p.minCashReservePct, p.paperNav * if accountPct.Some? then accountPct.value
      else p.minCashReservePct)
  }

  function OrderNotionalEvaluation(r: RiskRequest, p: RiskPolicy): Evaluation {
    var effect, hard, soft := BuildOrderEffect(r), OrderNotionalHard(r, p), p.paperNav * p.orderNotionalSoftPct;
    if !effect.riskIncreasing then Passing(MaxNotional, effect.proposedNotional, None, hard)
    else Threshold(MaxNotional, effect.proposedNotional, soft, hard)
  }

  function ExposureEvaluation(limit: LimitId, increasing: bool, value: real, soft: real, hard: real): Evaluation {
    if !increasing then Passing(limit, value, Some(soft), hard) else Threshold(limit, value, soft, hard)
  }

  function InstrumentExposureEvaluation(r: RiskRequest, p: RiskPolicy): Evaluation {
    var effect := BuildOrderEffect(r);
    ExposureEvaluation(InstrumentExposure, effect.riskIncreasing, effect.resultingInstrumentExposure,
                       p.paperNav * p.instrumentSoftPct, InstrumentHard(r, p))
  }

  function StrategyExposureEvaluation(r: RiskRequest, p: RiskPolicy): Evaluation {
    var effect := BuildOrderEffect(r);
    ExposureEvaluation(StrategyExposure, effect.riskIncreasing, effect.resultingStrategyExposure,
                       p.paperNav * p.strategySoftPct, StrategyHard(r, p))
  }

  function TotalExposureEvaluation(r: RiskRequest, p: RiskPolicy): Evaluation {
    var effect, soft := BuildOrderEffect(r), p.paperNav * p.totalSoftPct;
    if effect.riskIncreasing && effect.resultingCash < CashFloor(r, p) then
      HardBreached(TotalSpotExposure, effect.resultingCash, Some(soft), CashFloor(r, p)).(reason := CashReserveHard)
    else
      ExposureEvaluation(TotalSpotExposure, effect.riskIncreasing, effect.resultingTotalExposure, soft, TotalHard(r, p))
  }

  /** One participation metric: the order's share of it, and the notional the soft share allows. */
  datatype ParticipationCheck = ParticipationCheck(share: real, soft: real, hard: real, softCap: real)

  function CheckAgainst(n: real, metric: Option<PositiveDecimal>, soft: real, hard: real): seq<ParticipationCheck> {
    if metric.None? then [] else [ParticipationCheck(n / metric.value, soft, hard, metric.value * soft)]
  }

  function ParticipationChecks(r: RiskRequest, p: RiskPolicy): seq<ParticipationCheck> {
    CheckAgainst(Notional(r), r.liquidityRisk.quoteVolume24h, p.volumeSoftPct, p.volumeHardPct)
    + CheckAgainst(Notional(r), r.liquidityRisk.topOfBookDepth, p.depthSoftPct, p.depthHardPct)
  }

  /** The check with the greatest share, the earlier one on a tie. */
  function GreatestShare(checks: seq<ParticipationCheck>): (c: ParticipationCheck)
    requires checks != []
    ensures c in checks && forall d :: d in checks ==> d.share <= c.share
  {
    if |checks| == 1 then checks[0]
    else
      var rest := GreatestShare(checks[1..]);
      assert forall d :: d in checks ==> d == checks[0] || d in checks[1..];
      if rest.share > checks[0].share then rest else checks[0]
  }

  predicate SoftExceeded(c: ParticipationCheck) {
    c.share > c.soft
  }

  predicate HardExceeded(c: ParticipationCheck) {
    c.share > c.hard
  }

  function ParticipationEvaluation(r: RiskRequest, p: RiskPolicy): Evaluation {
    if r.liquidityRisk.depthMetricRequired && r.liquidityRisk.topOfBookDepth.None?
      then HardBreached(Participation, 1.0, None, 0.0)
    else
      var checks := ParticipationChecks(r, p);
      if checks == [] then Passing(Participation, 0.0, Some(p.volumeSoftPct), p.volumeHardPct)
      else
        var hard := FirstMatch(checks, HardExceeded);
        var soft := FirstMatch(checks, SoftExceeded);
        if hard.Some? then HardBreached(Participation, hard.value.share, Some(hard.value.soft), hard.value.hard)
        else if soft.Some? then
          SoftBreached(Participation, soft.value.share, Some(soft.value.soft), soft.value.hard,
            Some(soft.value.softCap))
        else
          var top := GreatestShare(checks);
          Passing(Participation, top.share, Some(top.soft), top.hard)
  }

  /** An unresolved record of the same key, client order, trace or content. */
  predicate Collides(r: RiskRequest, record: IdempotencyRecord) {
    && record.state.IsUnresolved()
    && (|| record.idempotencyKey == r.idempotencyKey
        || record.clientOrderId == r.intent.clientOrderId
        || record.traceId == r.traceId
        || record.orderIntentHash == IntentHash(r.intent))
  }

  function CountCollisions(r: RiskRequest, records: seq<IdempotencyRecord>): (n: nat)
    ensures n > 0 <==> exists record :: record in records && Collides(r, record)
  {
    if records == [] then 0
    else CountCollisions(r, records[1..]) + if Collides(r, records[0]) then 1 else 0
  }

  function IdempotencyEvaluation(r: RiskRequest): Evaluation {
    var n := CountCollisions(r, r.idempotencyRecords);
    if n > 0 then HardBreached(Idempotency, n as real, None, 0.0) else Passing(Idempotency, 0.0, None, 0.0)
  }

  // ------------------------------------------------------------ the decision

  /** The limits whose outcome cannot depend on the size of a buy. */
  function StateEvaluations(r: RiskRequest, p: RiskPolicy): seq<Evaluation> {
    [RequiredStateEvaluation(r), ProductScopeEvaluation(r), KillSwitchEvaluation(r), VenueStatusEvaluation(r),
      PriceCollarEvaluation(r, p)]
  }

  function SizedEvaluations(r: RiskRequest, p: RiskPolicy): seq<Evaluation> {
    [OrderNotionalEvaluation(r, p), InstrumentExposureEvaluation(r, p), StrategyExposureEvaluation(r, p),
      TotalExposureEvaluation(r, p)]
  }

  function LossEvaluations(r: RiskRequest, p: RiskPolicy): seq<Evaluation> {
    [NoShortEvaluation(r),
     NegativeLoss(DailyAccountLoss, r.lossRisk.dailyAccountPnl, -(p.paperNav * p.accountLossSoftPct),
       -(p.paperNav * p.accountLossHardPct)),
     NegativeLoss(DailyStrategyLoss, r.lossRisk.dailyStrategyPnl, -(p.paperNav * p.strategyLossSoftPct),
       -(p.paperNav * p.strategyLossHardPct)),
     Threshold(MaxDrawdown, r.lossRisk.maxDrawdownPct, p.drawdownSoftPct, p.drawdownHardPct)]
  }

  function MarketEvaluations(r: RiskRequest, p: RiskPolicy): seq<Evaluation> {
    [SpreadEvaluation(r, p), VolatilityEvaluation(r, p), DataFreshnessEvaluation(r)]
  }

  function OperationalEvaluations(r: RiskRequest, p: RiskPolicy): seq<Evaluation> {
    ThrottleEvaluationsFor(r.throttleWindows) + RejectBurstEvaluationsFor(r.rejectBurstWindows)
    + [EngineLatencyEvaluation(r), ModelDriftEvaluation(r), TcaEvaluation(r, p)]
  }

  /** All evaluations, in the order the evidence lists them. */
  function Evaluations(r: RiskRequest, p: RiskPolicy): seq<Evaluation> {
    StateEvaluations(r, p) + SizedEvaluations(r, p) + LossEvaluations(r, p) + [ParticipationEvaluation(r, p)]
    + MarketEvaluations(r, p) + [IdempotencyEvaluation(r)] + OperationalEvaluations(r, p)
  }

  predicate HasHardBreach(es: seq<Evaluation>) {
    exists e :: e in es && e.status == HardBreach
  }

  function SoftBreaches(es: seq<Evaluation>): (r: seq<Evaluation>)
    ensures forall e :: e in r <==> e in es && e.status == SoftBreach
  {
    if es == [] then []
    else
      var rest := SoftBreaches(es[1..]);
      if es[0].status == SoftBreach then [es[0]] + rest else rest
  }

  /** The extra notional a soft breach still allows; None when the limit cannot be met by shrinking the order. */
  function AllowedIncrement(r: RiskRequest, e: Evaluation): Option<real> {
    if e.status != SoftBreach || e.cappedValue.None? then None
    else if e.limitId == MaxNotional || e.limitId == Participation then e.cappedValue
    else if e.limitId == InstrumentExposure then Some(e.cappedValue.value - r.instrumentExposure)
    else if e.limitId == StrategyExposure then Some(e.cappedValue.value - r.strategyExposure)
    else if e.limitId == TotalSpotExposure && e.reason == Soft(TotalSpotExposure)
      then Some(e.cappedValue.value - r.totalExposure)
    else None
  }

  predicate AllCappable(r: RiskRequest, softs: seq<Evaluation>) {
    forall e :: e in softs ==> AllowedIncrement(r, e).Some?
  }

  /** The tightest allowed increment. */
  function TightestCap(r: RiskRequest, softs: seq<Evaluation>): (cap: real)
    requires softs != [] && AllCappable(r, softs)
    ensures exists e :: e in softs && AllowedIncrement(r, e) == Some(cap)
    ensures forall e :: e in softs ==> cap <= AllowedIncrement(r, e).value
  {
    hide AllowedIncrement;
    LastOrEarlier(softs);
    var last := |softs| - 1;
    if last == 0 then AllowedIncrement(r, softs[0]).value
    else Min(TightestCap(r, softs[..last]), AllowedIncrement(r, softs[last]).value)
  }

  /** The order that spends an allowed notional. */
  function ShrinkTo(r: RiskRequest, allowed: real): (DecisionStatus, Option<OrderIntent>) {
    if allowed <= 0.0 then (NoTrade, None)
    else if allowed >= Notional(r) then (Approved, Some(r.intent))
    else
      var capped := allowed / r.referencePrice;
      if capped <= 0.0 then (NoTrade, None) else (ApprovedAfterCap, Some(r.intent.(quantity := capped)))
  }

  /** Shrinks a risk-increasing buy to its tightest soft cap. */
  function CappedApproval(r: RiskRequest, es: seq<Evaluation>): (DecisionStatus, Option<OrderIntent>) {
    var softs := SoftBreaches(es);
    if softs == [] then (Approved, Some(r.intent))
    else if !AllCappable(r, softs) then (NoTrade, None)
    else ShrinkTo(r, TightestCap(r, softs))
  }

  function ApprovalFor(r: RiskRequest, effect: OrderEffect, es: seq<Evaluation>): (DecisionStatus, Option<OrderIntent>)
  {
    if r.intent.side != Buy || !effect.riskIncreasing then (Approved, Some(r.intent)) else CappedApproval(r, es)
  }

  function RiskCheck(r: RiskRequest, p: RiskPolicy): RiskEvent {
    var es := Evaluations(r, p);
    var (decision, approved) := if HasHardBreach(es) then (Rejected, None) else ApprovalFor(r, BuildOrderEffect(r), es);
    RiskEvent(r, BuildOrderEffect(r), es, decision, approved)
  }

  // ------------------------------------------------------------ the engine's own loops

  method ThrottleEvaluations(windows: seq<ThrottleWindow>) returns (es: seq<Evaluation>)
    ensures es == ThrottleEvaluationsFor(windows)
  {
    if windows == [] {
      return [Passing(OrderThrottle, 0.0, Some(0.0), 0.0)];
    }
    es := [];
    for i := 0 to |windows|
      invariant |es| == i && forall k :: 0 <= k < i ==> es[k] == ThrottleEvaluation(windows[k])
    {
      var projected, hard, soft := (windows[i].observedIntentCount + 1) as real, windows[i].hardLimit as real,
        windows[i].softLimit as real;
      if projected > hard {
        es := es + [HardBreached(OrderThrottle, projected, Some(soft), hard)];
      } else if projected > soft {
        es := es + [SoftBreached(OrderThrottle, projected, Some(soft), hard, None)];
      } else {
        es := es + [Passing(OrderThrottle, projected, Some(soft), hard)];
      }
    }
  }

  method RejectBurstEvaluations(windows: seq<RejectBurstWindow>) returns (es: seq<Evaluation>)
    ensures es == RejectBurstEvaluationsFor(windows)
  {
    if windows == [] {
      return [Passing(RejectBurst, 0.0, None, 0.0)];
    }
    es := [];
    for i := 0 to |windows|
      invariant |es| == i && forall k :: 0 <= k < i ==> es[k] == RejectBurstEvaluation(windows[k])
    {
      es := es + [RejectBurstEvaluation(windows[i])];
    }
  }

  method LiquidityParticipation(r: RiskRequest, p: RiskPolicy) returns (e: Evaluation)
    ensures e == ParticipationEvaluation(r, p)
  {
    if r.liquidityRisk.depthMetricRequired && r.liquidityRisk.topOfBookDepth.None? {
      return HardBreached(Participation, 1.0, None, 0.0);
    }
    var checks: seq<ParticipationCheck> := [];
    if r.liquidityRisk.quoteVolume24h.Some? {
      checks := checks + CheckAgainst(Notional(r), r.liquidityRisk.quoteVolume24h, p.volumeSoftPct, p.volumeHardPct);
    }
    if r.liquidityRisk.topOfBookDepth.Some? {
      checks := checks + CheckAgainst(Notional(r), r.liquidityRisk.topOfBookDepth, p.depthSoftPct, p.depthHardPct);
    }
    assert checks == ParticipationChecks(r, p);
    if checks == [] {
      return Passing(Participation, 0.0, Some(p.volumeSoftPct), p.volumeHardPct);
    }
    var hard := FirstMatch(checks, HardExceeded);
    if hard.Some? {
      return HardBreached(Participation, hard.value.share, Some(hard.value.soft), hard.value.hard);
    }
    var soft := FirstMatch(checks, SoftExceeded);
    if soft.Some? {
      return SoftBreached(Participation, soft.value.share, Some(soft.value.soft), soft.value.hard,
        Some(soft.value.softCap));
    }
    var top := GreatestShare(checks);
    return Passing(Participation, top.share, Some(top.soft), top.hard);
  }

  lemma CapOfOneMore(r: RiskRequest, softs: seq<Evaluation>, i: nat)
    requires i < |softs| && AllCappable(r, softs[..i]) && AllowedIncrement(r, softs[i]).Some?
    ensures AllCappable(r, softs[..i + 1])
    ensures TightestCap(r, softs[..i + 1])
      == if i == 0 then AllowedIncrement(r, softs[0]).value
        else Min(TightestCap(r, softs[..i]), AllowedIncrement(r, softs[i]).value)
  {
    assert softs[..i + 1][..i] == softs[..i];
    forall e | e in softs[..i + 1] ensures AllowedIncrement(r, e).Some? {
      assert e in softs[..i] || e == softs[i];
    }
  }

  /** Collects the caps of the soft breaches, giving up at the first that cannot be capped. */
  method CollectCaps(r: RiskRequest, softs: seq<Evaluation>) returns (cap: Option<real>)
    requires softs != []
    ensures cap.Some? <==> AllCappable(r, softs)
    ensures cap.Some? ==> cap.value == TightestCap(r, softs)
  {
    cap := None;
    for i := 0 to |softs|
      invariant AllCappable(r, softs[..i])
      invariant if i == 0 then cap.None? else cap == Some(TightestCap(r, softs[..i]))
    {
      var own := AllowedIncrement(r, softs[i]);
      assert softs[i] in softs;
      if own.None? {
        return None;
      }
      CapOfOneMore(r, softs, i);
      cap := Some(if cap.None? then own.value else Min(cap.value, own.value));
    }
    assert softs[..|softs|] == softs;
  }

  method ApprovalAfterSoftCaps(r: RiskRequest, effect: OrderEffect, es: seq<Evaluation>)
    returns (decision: DecisionStatus, approved: Option<OrderIntent>)
    ensures (decision, approved) == ApprovalFor(r, effect, es)
  {
    if r.intent.side != Buy || !effect.riskIncreasing {
      return Approved, Some(r.intent);
    }
    var softs := SoftBreaches(es);
    if softs == [] {
      return Approved, Some(r.intent);
    }
    var cap := CollectCaps(r, softs);
    if cap.None? || cap.value <= 0.0 {
      return NoTrade, None;
    }
    if cap.value >= Notional(r) {
      return Approved, Some(r.intent);
    }
    var capped := cap.value / r.referencePrice;
    if capped <= 0.0 {
      return NoTrade, None;
    }
    return ApprovedAfterCap, Some(r.intent.(quantity := capped));
  }

  method EvaluatePreTradeRisk(r: RiskRequest, p: RiskPolicy) returns (event: RiskEvent)
    ensures event == RiskCheck(r, p)
  {
    var effect := BuildOrderEffect(r);
    var participation := LiquidityParticipation(r, p);
    var throttles := ThrottleEvaluations(r.throttleWindows);
    var bursts := RejectBurstEvaluations(r.rejectBurstWindows);
    var es := StateEvaluations(r, p) + SizedEvaluations(r, p) + LossEvaluations(r, p) + [participation]
      + MarketEvaluations(r, p) + [IdempotencyEvaluation(r)]
      + (throttles + bursts + [EngineLatencyEvaluation(r), ModelDriftEvaluation(r), TcaEvaluation(r, p)]);
    var hard := exists e :: e in es && e.status == HardBreach;
    if hard {
      event := RiskEvent(r, effect, es, Rejected, None);
    } else {
      var decision, approved := ApprovalAfterSoftCaps(r, effect, es);
      event := RiskEvent(r, effect, es, decision, approved);
    }
  }
}
