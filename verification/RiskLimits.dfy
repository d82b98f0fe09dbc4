/** The hard and soft limits in plain terms, and the decisions they amount to. */
module RiskLimits {
  import opened Contracts
  import opened InstrumentMaster
  import opened Orders
  import opened RiskContracts
  import opened RiskEngine
  import opened RiskCapping

  predicate NoneHard(es: seq<Evaluation>) {
    forall e :: e in es ==> e.status != HardBreach
  }

  predicate IncreasesRisk(r: RiskRequest) {
    r.intent.side == Buy || r.intent.quantity > r.positionQuantity
  }

  // ------------------------------------------------------------ state: metadata, kill switch, venue, price

  /** What the request's metadata is: entries of the snapshot with the ids asked for, each absent only if no entry has
    * them; and the one constraint on the instrument whose window holds the snapshot's creation time. */
  lemma MetadataMeaning(r: RiskRequest)
    ensures var m, s := ViewMetadata(r), r.snapshot;
      && (m.venue.Some? ==> m.venue.value in s.venues && m.venue.value.venueId == r.intent.venueId)
      && (m.venue.None? ==> forall v :: v in s.venues ==> v.venueId != r.intent.venueId)
      && (m.instrument.Some? ==>
        && m.instrument.value in s.instruments && m.instrument.value.instrumentId == r.intent.instrumentId
        && m.instrument.value.venueId == r.intent.venueId)
      && (m.instrument.None? ==> forall i :: i in s.instruments ==>
        i.instrumentId != r.intent.instrumentId || i.venueId != r.intent.venueId)
      && (m.account.Some? ==>
        && m.account.value in s.accounts && m.account.value.accountId == r.accountId
        && m.account.value.venueId == r.intent.venueId)
      && (m.account.None? ==> forall a :: a in s.accounts ==>
        a.accountId != r.accountId || a.venueId != r.intent.venueId)
      && (m.constraint.Some? ==> m.constraint.value in s.constraints && Constrains(m.constraint.value, r))
      && (m.constraint.Some? ==> forall c :: c in s.constraints && Constrains(c, r) ==> c == m.constraint.value)
  {
    hide FirstMatch;
    var active := ActiveConstraints(r.snapshot.constraints, r.intent.instrumentId, r.snapshot.createdAt);
    if |active| == 1 {
      assert forall c :: c in active <==> c == active[0];
    }
  }

  predicate Constrains(c: InstrumentConstraint, r: RiskRequest) {
    && c.instrumentId == r.intent.instrumentId && c.window.effectiveFrom <= r.snapshot.createdAt
    && (c.window.effectiveTo.Some? ==> r.snapshot.createdAt < c.window.effectiveTo.value)
  }

  /** Known, in scope and tradable: spot instrument, simulated or paper account, one effective constraint. */
  predicate Orderable(r: RiskRequest) {
    var m := ViewMetadata(r);
    && m.venue.Some? && m.instrument.Some? && m.account.Some? && m.constraint.Some?
    && m.instrument.value.status == Trading && m.instrument.value.instrumentType == Spot
    && Market in m.instrument.value.supportedOrderTypes
    && m.account.value.status == AccountActive && PlaceOrders in m.account.value.permissions
    && (m.account.value.accountType == Simulation || m.account.value.accountType == Paper)
  }

  predicate StateHardOk(r: RiskRequest, p: RiskPolicy) {
    && Orderable(r)
    && (ViewMetadata(r).venue.value.status == VenueActive || ViewMetadata(r).venue.value.status == VenueDegraded)
    && (|| r.killState == Clear || r.killState == SoftLimited
        || ((r.killState == PauseNewOrders || r.killState == ReduceOnly) && !IncreasesRisk(r)))
    && r.priceRisk.referencePriceAvailable && r.priceRisk.priceDeviationBps <= p.priceCollarHardBps
    && (r.intent.orderType == Market ==> r.priceRisk.priceDeviationBps <= p.priceCollarSoftBps)
  }

  predicate StateSoftOk(r: RiskRequest, p: RiskPolicy) {
    && (ViewMetadata(r).venue.Some? ==> ViewMetadata(r).venue.value.status == VenueActive)
    && r.killState != SoftLimited && r.priceRisk.priceDeviationBps <= p.priceCollarSoftBps
  }

  lemma StateLimitsMeaning(r: RiskRequest, p: RiskPolicy)
    ensures NoneHard(StateEvaluations(r, p)) <==> StateHardOk(r, p)
    ensures AllPass(StateEvaluations(r, p)) <==> StateHardOk(r, p) && StateSoftOk(r, p)
  {
    hide ViewMetadata;
    var es := StateEvaluations(r, p);
    assert es[0] in es && es[1] in es && es[2] in es && es[3] in es && es[4] in es;
  }

  // ------------------------------------------------------------ sizes

  /** x is at most the policy's fraction of NAV and, where the account has its own, at most that fraction too. */
  predicate Under(x: real, p: RiskPolicy, policyPct: real, accountPct: Option<real>) {
    x <= p.paperNav * policyPct && (accountPct.Some? ==> x <= p.paperNav * accountPct.value)
  }

  predicate KeepsReserve(cash: real, p: RiskPolicy, accountPct: Option<real>) {
    cash >= p.paperNav * p.minCashReservePct && (accountPct.Some? ==> cash >= p.paperNav * accountPct.value)
  }

  /** The size limits on a buy of notional n, for an account's own limits or none, and for the instrument's
    * constraint. */
  predicate FitsSizes(r: RiskRequest, p: RiskPolicy, n: real, l: Option<AccountRiskLimits>,
                      c: Option<InstrumentConstraint>)
  {
    && Under(n, p, p.orderNotionalHardPct, if l.Some? then Some(l.value.maxOrderNotionalPct) else None)
    && (c.Some? && c.value.maxOrderNotional.Some? ==> n <= c.value.maxOrderNotional.value)
    && Under(r.instrumentExposure + n, p, p.instrumentHardPct,
      if l.Some? then Some(l.value.maxInstrumentExposurePct) else None)
    && Under(r.strategyExposure + n, p, p.strategyHardPct,
      if l.Some? then Some(l.value.maxStrategyExposurePct) else None)
    && Under(r.totalExposure + n, p, p.totalHardPct, if l.Some? then Some(l.value.maxTotalSpotExposurePct) else None)
    && KeepsReserve(r.currentCash - n, p, if l.Some? then Some(l.value.minCashReservePct) else None)
  }

  predicate SizesHardOk(r: RiskRequest, p: RiskPolicy) {
    var m := ViewMetadata(r);
    r.intent.side == Buy ==>
      FitsSizes(r, p, r.intent.quantity * r.referencePrice,
        if m.account.Some? then Some(m.account.value.riskLimits) else None, m.constraint)
  }

  /** The engine's folded limits say the same. */
  lemma FoldedLimitsMeaning(r: RiskRequest, p: RiskPolicy, n: real)
    ensures var m := ViewMetadata(r);
      (&& KeepsCash(r, p, n) && n <= OrderNotionalHard(r, p) && r.instrumentExposure + n <= InstrumentHard(r, p)
       && r.strategyExposure + n <= StrategyHard(r, p) && r.totalExposure + n <= TotalHard(r, p)) <==>
        FitsSizes(r, p, n, if m.account.Some? then Some(m.account.value.riskLimits) else None, m.constraint)
  {
    hide ViewMetadata, PolicyFields.Consistent, NavLimit, Under, KeepsReserve, CashFloor;
    NavLimitMeaning(p, p.orderNotionalHardPct, AccountPct(r, (l: AccountRiskLimits) => l.maxOrderNotionalPct), n);
    NavLimitMeaning(p, p.instrumentHardPct, AccountPct(r, (l: AccountRiskLimits) => l.maxInstrumentExposurePct),
      r.instrumentExposure + n);
    NavLimitMeaning(p, p.strategyHardPct, AccountPct(r, (l: AccountRiskLimits) => l.maxStrategyExposurePct),
      r.strategyExposure + n);
    NavLimitMeaning(p, p.totalHardPct, AccountPct(r, (l: AccountRiskLimits) => l.maxTotalSpotExposurePct),
      r.totalExposure + n);
    CashFloorMeaning(r, p, r.currentCash - n);
  }

  lemma NavLimitMeaning(p: RiskPolicy, pct: real, accountPct: Option<real>, x: real)
    ensures x <= NavLimit(p, pct, accountPct) <==> Under(x, p, pct, accountPct)
  {
  }

  lemma CashFloorMeaning(r: RiskRequest, p: RiskPolicy, cash: real)
    ensures var account := ViewMetadata(r).account;
      cash >= CashFloor(r, p) <==>
        KeepsReserve(cash, p, if account.Some? then Some(account.value.riskLimits.minCashReservePct) else None)
  {
    hide ViewMetadata, PolicyFields.Consistent;
  }

  predicate SizesSoftOk(r: RiskRequest, p: RiskPolicy) {
    FitsSoftSizes(r, p, r.intent.quantity * r.referencePrice)
  }

  predicate FitsSoftSizes(r: RiskRequest, p: RiskPolicy, n: real) {
    && n <= p.paperNav * p.orderNotionalSoftPct && r.instrumentExposure + n <= p.paperNav * p.instrumentSoftPct
    && r.strategyExposure + n <= p.paperNav * p.strategySoftPct && r.totalExposure + n <= p.paperNav * p.totalSoftPct
  }

  /** For a buy; a sell of held quantity passes whatever the limits say. */
  lemma SizedLimitsMeaning(r: RiskRequest, p: RiskPolicy)
    requires r.intent.side == Buy
    ensures NoneHard(SizedEvaluations(r, p)) <==> SizesHardOk(r, p)
    ensures AllPass(SizedEvaluations(r, p)) <==> SizesHardOk(r, p) && SizesSoftOk(r, p)
  {
    hide OrderNotionalHard, InstrumentHard, StrategyHard, TotalHard, CashFloor, Notional, SizedEvaluations;
    hide NoneHard, AllPass, PolicyFields.Consistent, FitsSizes;
    SizedByNotional(r, p);
    FoldedLimitsMeaning(r, p, Notional(r));
    NotionalIs(r);
    RoomStatuses(SizedEvaluations(r, p), Rooms(r, p), Notional(r), KeepsCash(r, p, Notional(r)));
  }

  lemma NotionalIs(r: RiskRequest)
    ensures Notional(r) == r.intent.quantity * r.referencePrice
  {
  }

  lemma RoomStatuses(es: seq<Evaluation>, rooms: seq<Room>, n: real, keeps: bool)
    requires |es| == |rooms| == 4 && forall k :: 0 <= k < 3 ==> es[k] == RoomEvaluation(rooms[k], n)
    requires if keeps then es[3] == RoomEvaluation(rooms[3], n) else es[3].status == HardBreach
    ensures NoneHard(es) <==>
      (&& keeps && rooms[0].used + n <= rooms[0].hard && rooms[1].used + n <= rooms[1].hard
       && rooms[2].used + n <= rooms[2].hard && rooms[3].used + n <= rooms[3].hard)
    ensures AllPass(es) <==>
      (&& NoneHard(es) && rooms[0].used + n <= rooms[0].soft && rooms[1].used + n <= rooms[1].soft
       && rooms[2].used + n <= rooms[2].soft && rooms[3].used + n <= rooms[3].soft)
  {
    hide RoomEvaluation;
    assert es[0] in es && es[1] in es && es[2] in es && es[3] in es;
    RoomStatus(rooms[0], n);
    RoomStatus(rooms[1], n);
    RoomStatus(rooms[2], n);
    RoomStatus(rooms[3], n);
  }

  lemma RoomStatus(m: Room, n: real)
    ensures RoomEvaluation(m, n).status != HardBreach <==> m.used + n <= m.hard
    ensures RoomEvaluation(m, n).status == Pass <==> m.used + n <= m.hard && m.used + n <= m.soft
  {
  }

  lemma HeldSellsPassSizes(r: RiskRequest, p: RiskPolicy)
    requires !IncreasesRisk(r)
    ensures AllPass(SizedEvaluations(r, p))
  {
    hide OrderNotionalHard, InstrumentHard, StrategyHard, TotalHard, CashFloor, Notional;
  }

  // ------------------------------------------------------------ losses and holdings

  predicate LossHardOk(r: RiskRequest, p: RiskPolicy) {
    && (r.intent.side == Sell ==> r.intent.quantity <= r.positionQuantity)
    && r.lossRisk.dailyAccountPnl > -(p.paperNav * p.accountLossHardPct)
    && r.lossRisk.dailyStrategyPnl > -(p.paperNav * p.strategyLossHardPct)
    && r.lossRisk.maxDrawdownPct <= p.drawdownHardPct
  }

  predicate LossSoftOk(r: RiskRequest, p: RiskPolicy) {
    && r.lossRisk.dailyAccountPnl > -(p.paperNav * p.accountLossSoftPct)
    && r.lossRisk.dailyStrategyPnl > -(p.paperNav * p.strategyLossSoftPct)
    && r.lossRisk.maxDrawdownPct <= p.drawdownSoftPct
  }

  lemma LossLimitsMeaning(r: RiskRequest, p: RiskPolicy)
    ensures NoneHard(LossEvaluations(r, p)) <==> LossHardOk(r, p)
    ensures AllPass(LossEvaluations(r, p)) <==> LossHardOk(r, p) && LossSoftOk(r, p)
  {
    var es := LossEvaluations(r, p);
    assert es[0] in es && es[1] in es && es[2] in es && es[3] in es;
  }

  // ------------------------------------------------------------ market, data, duplicates

  predicate MarketHardOk(r: RiskRequest, p: RiskPolicy) {
    && r.liquidityRisk.currentSpreadBps.Some? && r.liquidityRisk.currentSpreadBps.value <= p.spreadHardBps
    && (r.liquidityRisk.spreadCostModelEnvelopeBps.Some? ==>
      r.liquidityRisk.currentSpreadBps.value <= r.liquidityRisk.spreadCostModelEnvelopeBps.value)
    && r.marketRisk.envelopeAvailable && !r.marketRisk.shockActive
    && r.marketRisk.envelopeMultiplier.Some? && r.marketRisk.envelopeMultiplier.value <= p.volatilityHard
    && forall s :: s in r.dataHealthSignals && s.blocksTrading ==>
      s.blockedInstrumentId.Some? && s.blockedInstrumentId.value != r.intent.instrumentId
  }

  predicate MarketSoftOk(r: RiskRequest, p: RiskPolicy) {
    && (r.liquidityRisk.currentSpreadBps.Some? ==> r.liquidityRisk.currentSpreadBps.value <= p.spreadSoftBps)
    && (r.marketRisk.envelopeMultiplier.Some? ==> r.marketRisk.envelopeMultiplier.value <= p.volatilitySoft)
  }

  lemma MarketLimitsMeaning(r: RiskRequest, p: RiskPolicy)
    ensures NoneHard(MarketEvaluations(r, p)) <==> MarketHardOk(r, p)
    ensures AllPass(MarketEvaluations(r, p)) <==> MarketHardOk(r, p) && MarketSoftOk(r, p)
  {
    var es := MarketEvaluations(r, p);
    assert es[0] in es && es[1] in es && es[2] in es;
  }

  // ------------------------------------------------------------ operations

  predicate LatencyWithin(r: RiskRequest, limit: real) {
    (r.riskCheckTs - r.decisionTs) as real <= limit && r.engineLatency.riskToGatewayMs <= limit
  }

  predicate OperationsHardOk(r: RiskRequest, p: RiskPolicy) {
    && (forall k :: 0 <= k < |r.throttleWindows| ==>
      r.throttleWindows[k].observedIntentCount < r.throttleWindows[k].hardLimit)
    && (forall k :: 0 <= k < |r.rejectBurstWindows| ==>
      !r.rejectBurstWindows[k].unknownStateRejectObserved
      && r.rejectBurstWindows[k].observedRejectCount < r.rejectBurstWindows[k].hardLimit)
    && r.engineLatency.eventTimeValidityProven && LatencyWithin(r, r.engineLatency.budgetMs)
    && !r.modelRisk.severeAnomaly && r.modelRisk.calibratedOutputs
    && r.tcaRisk.tcaAvailable && r.tcaRisk.fillQualityKnown
    && r.tcaRisk.costSlippageMultiplier.Some? && r.tcaRisk.costSlippageMultiplier.value <= p.tcaHard
  }

  predicate OperationsSoftOk(r: RiskRequest, p: RiskPolicy) {
    && (forall k :: 0 <= k < |r.throttleWindows| ==>
      r.throttleWindows[k].observedIntentCount < r.throttleWindows[k].softLimit)
    && (forall k :: 0 <= k < |r.rejectBurstWindows| ==>
      r.rejectBurstWindows[k].observedRejectCount < r.rejectBurstWindows[k].softLimit)
    && LatencyWithin(r, r.engineLatency.budgetMs * 0.5) && !r.modelRisk.sustainedDrift
    && (r.tcaRisk.costSlippageMultiplier.Some? ==> r.tcaRisk.costSlippageMultiplier.value <= p.tcaSoft)
  }

  lemma ThrottleStatus(w: ThrottleWindow)
    ensures ThrottleEvaluation(w).status != HardBreach <==> w.observedIntentCount < w.hardLimit
    ensures ThrottleEvaluation(w).status == Pass <==>
      w.observedIntentCount < w.hardLimit && w.observedIntentCount < w.softLimit
  {
    assert (w.observedIntentCount + 1) as real <= w.hardLimit as real <==> w.observedIntentCount + 1 <= w.hardLimit;
    assert (w.observedIntentCount + 1) as real <= w.softLimit as real <==> w.observedIntentCount + 1 <= w.softLimit;
  }

  lemma ThrottlesMeaning(windows: seq<ThrottleWindow>)
    ensures var es := ThrottleEvaluationsFor(windows);
      && (NoneHard(es) <==> forall k :: 0 <= k < |windows| ==> windows[k].observedIntentCount < windows[k].hardLimit)
      && (AllPass(es) <==>
        NoneHard(es) && forall k :: 0 <= k < |windows| ==> windows[k].observedIntentCount < windows[k].softLimit)
  {
    hide ThrottleEvaluation;
    var es := ThrottleEvaluationsFor(windows);
    forall k | 0 <= k < |windows|
      ensures es[k] in es
      ensures es[k].status != HardBreach <==> windows[k].observedIntentCount < windows[k].hardLimit
      ensures es[k].status == Pass <==>
        (es[k].status != HardBreach && windows[k].observedIntentCount < windows[k].softLimit)
    {
      ThrottleStatus(windows[k]);
    }
  }

  lemma BurstStatus(w: RejectBurstWindow)
    ensures RejectBurstEvaluation(w).status != HardBreach <==>
      (!w.unknownStateRejectObserved && w.observedRejectCount < w.hardLimit)
    ensures RejectBurstEvaluation(w).status == Pass <==>
      (!w.unknownStateRejectObserved && w.observedRejectCount < w.hardLimit && w.observedRejectCount < w.softLimit)
  {
    assert w.observedRejectCount as real >= w.hardLimit as real <==> w.observedRejectCount >= w.hardLimit;
    assert w.observedRejectCount as real >= w.softLimit as real <==> w.observedRejectCount >= w.softLimit;
  }

  lemma BurstsMeaning(windows: seq<RejectBurstWindow>)
    ensures var es := RejectBurstEvaluationsFor(windows);
      && (NoneHard(es) <==> forall k :: 0 <= k < |windows| ==>
        !windows[k].unknownStateRejectObserved && windows[k].observedRejectCount < windows[k].hardLimit)
      && (AllPass(es) <==>
        NoneHard(es) && forall k :: 0 <= k < |windows| ==> windows[k].observedRejectCount < windows[k].softLimit)
  {
    hide RejectBurstEvaluation;
    var es := RejectBurstEvaluationsFor(windows);
    forall k | 0 <= k < |windows|
      ensures es[k] in es
      ensures es[k].status != HardBreach <==>
        (!windows[k].unknownStateRejectObserved && windows[k].observedRejectCount < windows[k].hardLimit)
      ensures es[k].status == Pass <==>
        (es[k].status != HardBreach && windows[k].observedRejectCount < windows[k].softLimit)
    {
      BurstStatus(windows[k]);
    }
  }

  lemma OperationalLimitsMeaning(r: RiskRequest, p: RiskPolicy)
    ensures NoneHard(OperationalEvaluations(r, p)) <==> OperationsHardOk(r, p)
    ensures AllPass(OperationalEvaluations(r, p)) <==> OperationsHardOk(r, p) && OperationsSoftOk(r, p)
  {
    hide ThrottleEvaluationsFor, RejectBurstEvaluationsFor;
    ThrottlesMeaning(r.throttleWindows);
    BurstsMeaning(r.rejectBurstWindows);
    var throttles, bursts := ThrottleEvaluationsFor(r.throttleWindows), RejectBurstEvaluationsFor(r.rejectBurstWindows);
    var rest := [EngineLatencyEvaluation(r), ModelDriftEvaluation(r), TcaEvaluation(r, p)];
    assert rest[0] in rest && rest[1] in rest && rest[2] in rest;
    assert forall e :: e in OperationalEvaluations(r, p) <==> e in throttles || e in bursts || e in rest;
  }

  // ------------------------------------------------------------ the decision

  /** An order still on its way has the request's key, client order, trace or content. */
  predicate RepeatsOrder(record: IdempotencyRecord, r: RiskRequest) {
    && record.state in {Received, Accepted, Placed, UnknownState}
    && (|| record.idempotencyKey == r.idempotencyKey || record.traceId == r.traceId
        || record.clientOrderId == r.intent.clientOrderId || record.orderIntentHash.content == r.intent)
  }

  /** The order's share of each metric supplied, and the metric that must be supplied. */
  predicate SharesHardOk(r: RiskRequest, p: RiskPolicy) {
    var n, l := r.intent.quantity * r.referencePrice, r.liquidityRisk;
    && (l.depthMetricRequired ==> l.topOfBookDepth.Some?)
    && (l.quoteVolume24h.Some? ==> n <= l.quoteVolume24h.value * p.volumeHardPct)
    && (l.topOfBookDepth.Some? ==> n <= l.topOfBookDepth.value * p.depthHardPct)
  }

  predicate SharesSoftOk(r: RiskRequest, p: RiskPolicy) {
    var n, l := r.intent.quantity * r.referencePrice, r.liquidityRisk;
    && (l.quoteVolume24h.Some? ==> n <= l.quoteVolume24h.value * p.volumeSoftPct)
    && (l.topOfBookDepth.Some? ==> n <= l.topOfBookDepth.value * p.depthSoftPct)
  }

  lemma SharesMeaning(r: RiskRequest, p: RiskPolicy)
    ensures SharesHardOk(r, p) <==> !DepthMissing(r) && FitsParticipationHard(r, p, Notional(r))
    ensures SharesSoftOk(r, p) <==> FitsParticipation(r, p, Notional(r))
  {
    hide PolicyFields.Consistent;
  }

  /** Every hard limit, in plain terms. */
  ghost predicate MeetsHardLimits(r: RiskRequest, p: RiskPolicy) {
    && StateHardOk(r, p) && SizesHardOk(r, p) && LossHardOk(r, p) && MarketHardOk(r, p) && OperationsHardOk(r, p)
    && SharesHardOk(r, p)
    && forall record :: record in r.idempotencyRecords ==> !RepeatsOrder(record, r)
  }

  /** Every soft limit, in plain terms; they bind buys only. */
  ghost predicate MeetsSoftLimits(r: RiskRequest, p: RiskPolicy) {
    && StateSoftOk(r, p) && SizesSoftOk(r, p) && LossSoftOk(r, p) && MarketSoftOk(r, p) && OperationsSoftOk(r, p)
    && SharesSoftOk(r, p)
  }

  lemma HardByKind(r: RiskRequest, p: RiskPolicy)
    ensures NoneHard(Evaluations(r, p)) <==>
      (&& NoneHard(StateEvaluations(r, p)) && NoneHard(SizedEvaluations(r, p)) && NoneHard(LossEvaluations(r, p))
       && NoneHard(MarketEvaluations(r, p)) && NoneHard(OperationalEvaluations(r, p))
       && ParticipationEvaluation(r, p).status != HardBreach && IdempotencyEvaluation(r).status != HardBreach)
  {
    hide StateEvaluations, SizedEvaluations, LossEvaluations, MarketEvaluations, OperationalEvaluations,
      ParticipationEvaluation, IdempotencyEvaluation, Evaluations;
    EvaluationsByKind(r, p);
  }

  lemma PassByKind(r: RiskRequest, p: RiskPolicy)
    ensures AllPass(Evaluations(r, p)) <==>
      (&& AllPass(StateEvaluations(r, p)) && AllPass(SizedEvaluations(r, p)) && AllPass(LossEvaluations(r, p))
       && AllPass(MarketEvaluations(r, p)) && AllPass(OperationalEvaluations(r, p))
       && ParticipationEvaluation(r, p).status == Pass && IdempotencyEvaluation(r).status == Pass)
  {
    hide StateEvaluations, SizedEvaluations, LossEvaluations, MarketEvaluations, OperationalEvaluations,
      ParticipationEvaluation, IdempotencyEvaluation, Evaluations;
    EvaluationsByKind(r, p);
  }

  lemma OversellIsHard(r: RiskRequest, p: RiskPolicy)
    requires r.intent.side == Sell && IncreasesRisk(r)
    ensures !LossHardOk(r, p) && !NoneHard(LossEvaluations(r, p))
  {
    LossLimitsMeaning(r, p);
  }

  lemma CollisionMeaning(r: RiskRequest)
    ensures IdempotencyEvaluation(r).status != HardBreach <==>
      forall record :: record in r.idempotencyRecords ==> !RepeatsOrder(record, r)
  {
    hide CountCollisions;
    forall record | record in r.idempotencyRecords ensures Collides(r, record) <==> RepeatsOrder(record, r) {
    }
  }

  /** No evaluation is a hard breach exactly when every hard limit is met. */
  lemma NoHardBreachIff(r: RiskRequest, p: RiskPolicy)
    ensures !HasHardBreach(Evaluations(r, p)) <==> MeetsHardLimits(r, p)
  {
    NoneHardIsNoHardBreach(Evaluations(r, p));
    hide NoneHard, HasHardBreach, AllPass, StateSoftOk, LossSoftOk, MarketSoftOk, OperationsSoftOk, FitsParticipation;
    hide StateEvaluations, SizedEvaluations, LossEvaluations, MarketEvaluations, OperationalEvaluations, Evaluations,
      Notional, StateHardOk, SizesHardOk, LossHardOk, MarketHardOk, OperationsHardOk, FitsParticipationHard,
      DepthMissing, ParticipationEvaluation;
    HardByKind(r, p);
    StateLimitsMeaning(r, p);
    LossLimitsMeaning(r, p);
    MarketLimitsMeaning(r, p);
    OperationalLimitsMeaning(r, p);
    ParticipationByNotional(r, p);
    SizesOrHoldings(r, p);
    SharesMeaning(r, p);
    CollisionMeaning(r);
  }

  lemma NoneHardIsNoHardBreach(es: seq<Evaluation>)
    ensures NoneHard(es) <==> !HasHardBreach(es)
  {
  }

  lemma SizesOrHoldings(r: RiskRequest, p: RiskPolicy)
    ensures (NoneHard(SizedEvaluations(r, p)) && LossHardOk(r, p)) <==> (SizesHardOk(r, p) && LossHardOk(r, p))
  {
    hide SizedEvaluations, OrderNotionalHard, InstrumentHard, StrategyHard, TotalHard, CashFloor, Notional,
      LossEvaluations;
    if r.intent.side == Buy {
      SizedLimitsMeaning(r, p);
    } else if IncreasesRisk(r) {
      OversellIsHard(r, p);
    } else {
      HeldSellsPassSizes(r, p);
    }
  }

  lemma HardBreachRejects(r: RiskRequest, p: RiskPolicy)
    ensures HasHardBreach(Evaluations(r, p)) ==> RiskCheck(r, p).decision == Rejected
    ensures !HasHardBreach(Evaluations(r, p)) ==> RiskCheck(r, p).decision != Rejected
  {
    hide Evaluations, HasHardBreach, BuildOrderEffect;
  }

  /** An order is rejected exactly when it breaks one of the hard limits. */
  lemma RejectedIffHardLimitBroken(r: RiskRequest, p: RiskPolicy)
    ensures RiskCheck(r, p).decision == Rejected <==> !MeetsHardLimits(r, p)
  {
    hide Evaluations, RiskCheck, MeetsHardLimits, HasHardBreach;
    NoHardBreachIff(r, p);
    HardBreachRejects(r, p);
  }

  /** A buy is approved as it stands exactly when it meets every hard and every soft limit. */
  lemma BuyApprovedIffAllLimitsMet(r: RiskRequest, p: RiskPolicy)
    requires r.intent.side == Buy
    ensures RiskCheck(r, p).decision == Approved <==> MeetsHardLimits(r, p) && MeetsSoftLimits(r, p)
  {
    BuyDecisionTable(r, p);
    EventListsEvaluations(r, p);
    SharesMeaning(r, p);
    CollisionMeaning(r);
    hide StateEvaluations, SizedEvaluations, LossEvaluations, MarketEvaluations, OperationalEvaluations, Evaluations,
      Notional, StateHardOk, SizesHardOk, LossHardOk, MarketHardOk, OperationsHardOk, StateSoftOk, SizesSoftOk,
      LossSoftOk, MarketSoftOk, OperationsSoftOk, FitsParticipation, FitsParticipationHard, DepthMissing,
      ParticipationEvaluation, RiskCheck, AllPass;
    PassByKind(r, p);
    StateLimitsMeaning(r, p);
    SizedLimitsMeaning(r, p);
    LossLimitsMeaning(r, p);
    MarketLimitsMeaning(r, p);
    OperationalLimitsMeaning(r, p);
    ParticipationByNotional(r, p);
  }

  lemma EventListsEvaluations(r: RiskRequest, p: RiskPolicy)
    ensures RiskCheck(r, p).evaluations == Evaluations(r, p)
  {
    hide Evaluations, HasHardBreach, BuildOrderEffect;
  }

  /** Every soft limit that shrinking the order cannot meet. */
  ghost predicate MeetsUnsizedSoftLimits(r: RiskRequest, p: RiskPolicy) {
    StateSoftOk(r, p) && LossSoftOk(r, p) && MarketSoftOk(r, p) && OperationsSoftOk(r, p)
  }

  /** Exposures are below their soft limits before the order. */
  predicate RoomLeft(r: RiskRequest, p: RiskPolicy) {
    && r.instrumentExposure < p.paperNav * p.instrumentSoftPct && r.strategyExposure < p.paperNav * p.strategySoftPct
    && r.totalExposure < p.paperNav * p.totalSoftPct
  }

  lemma RoomLeftMeaning(r: RiskRequest, p: RiskPolicy)
    ensures (forall m :: m in Rooms(r, p) ==> m.used < m.soft) <==> RoomLeft(r, p)
  {
    hide OrderNotionalHard, InstrumentHard, StrategyHard, TotalHard, PolicyFields.Consistent;
    var rooms := Rooms(r, p);
    assert rooms[0] in rooms && rooms[1] in rooms && rooms[2] in rooms && rooms[3] in rooms;
    assert p.paperNav * p.orderNotionalSoftPct > 0.0;
  }

  lemma UnsizedPassMeaning(r: RiskRequest, p: RiskPolicy)
    requires MeetsHardLimits(r, p)
    ensures AllPass(UnsizedEvaluations(r, p)) <==> MeetsUnsizedSoftLimits(r, p)
  {
    UnsizedByKind(r, p);
    hide StateEvaluations, LossEvaluations, MarketEvaluations, OperationalEvaluations, StateHardOk, LossHardOk,
      MarketHardOk, OperationsHardOk, StateSoftOk, LossSoftOk, MarketSoftOk, OperationsSoftOk, AllPass,
      UnsizedEvaluations, SizesHardOk;
    StateLimitsMeaning(r, p);
    LossLimitsMeaning(r, p);
    MarketLimitsMeaning(r, p);
    OperationalLimitsMeaning(r, p);
  }

  lemma UnsizedByKind(r: RiskRequest, p: RiskPolicy)
    ensures AllPass(UnsizedEvaluations(r, p)) <==>
      (AllPass(StateEvaluations(r, p)) && AllPass(LossEvaluations(r, p)) && AllPass(MarketEvaluations(r, p))
        && AllPass(OperationalEvaluations(r, p)))
  {
    hide StateEvaluations, LossEvaluations, MarketEvaluations, OperationalEvaluations;
    var a, b, c, d := StateEvaluations(r, p), LossEvaluations(r, p), MarketEvaluations(r, p),
      OperationalEvaluations(r, p);
    assert forall e :: e in UnsizedEvaluations(r, p) <==> e in a || e in b || e in c || e in d;
  }

  /** A buy is shrunk exactly when it meets every hard limit and every soft limit that size cannot mend, is too
    * large for a soft size limit or share, and every exposure has room left; everything else that is not rejected
    * or approved is no trade. */
  lemma BuyCappedIff(r: RiskRequest, p: RiskPolicy)
    requires r.intent.side == Buy
    ensures RiskCheck(r, p).decision == ApprovedAfterCap <==>
      (&& MeetsHardLimits(r, p) && MeetsUnsizedSoftLimits(r, p) && RoomLeft(r, p)
       && !(SizesSoftOk(r, p) && SharesSoftOk(r, p)))
  {
    BuyApprovedIffAllLimitsMet(r, p);
    NoHardBreachIff(r, p);
    BuyDecisionTable(r, p);
    EventListsEvaluations(r, p);
    AllPassIffNoBreach(Evaluations(r, p));
    CappedIffRoomLeft(r, p);
    RoomLeftMeaning(r, p);
    SharesMeaning(r, p);
    hide Evaluations, RiskCheck, MeetsHardLimits, SizesSoftOk, FitsParticipation, RoomLeft, Rooms, UnsizedEvaluations,
      SoftBreaches, AllPass, HasHardBreach, StateSoftOk, LossSoftOk, MarketSoftOk, OperationsSoftOk, Notional;
    if MeetsHardLimits(r, p) {
      UnsizedPassMeaning(r, p);
    }
  }

  /** A sell is approved as it stands exactly when it meets the hard limits; soft limits do not hold it back. */
  lemma SellApprovedIffHardLimitsMet(r: RiskRequest, p: RiskPolicy)
    requires r.intent.side == Sell
    ensures RiskCheck(r, p).approvedIntent == if MeetsHardLimits(r, p) then Some(r.intent) else None
    ensures RiskCheck(r, p).decision == if MeetsHardLimits(r, p) then Approved else Rejected
  {
    hide Evaluations, MeetsHardLimits, HasHardBreach, BuildOrderEffect;
    NoHardBreachIff(r, p);
  }

  // ------------------------------------------------------------ the evidence

  /** The limits that are evaluated once, in evidence order; throttles and reject bursts come between the two lists. */
  const FIRST_LIMITS := [
    RequiredState, ProductScope, KillSwitchLimit, VenueStatusLimit, PriceCollar, MaxNotional, InstrumentExposure,
    StrategyExposure, TotalSpotExposure, NoShortOrOversell, DailyAccountLoss, DailyStrategyLoss, MaxDrawdown,
    Participation, Spread, Volatility, DataFreshness, Idempotency]

  const LAST_LIMITS := [EngineLatency, ModelDrift, TcaCostSlippage]

  /** A pass says so, and a breach names its limit, but for a cash reserve and an unknown kill-switch state, which have
    * reasons of their own. */
  predicate ReasonFits(e: Evaluation) {
    match e.status
    case Pass => e.reason == Passed && e.cappedValue.None?
    case SoftBreach => e.reason == Soft(e.limitId)
    case HardBreach =>
      && e.cappedValue.None?
      && (|| e.reason == Hard(e.limitId) || (e.limitId == TotalSpotExposure && e.reason == CashReserveHard)
          || (e.limitId == KillSwitchLimit && e.reason == UnknownKillState))
  }

  lemma ReasonsOfState(r: RiskRequest, p: RiskPolicy)
    ensures forall e :: e in StateEvaluations(r, p) ==> ReasonFits(e)
    ensures KillSwitchEvaluation(r).reason == UnknownKillState <==> r.killState == UnknownFailClosed
  {
    hide ViewMetadata;
  }

  lemma ReasonsOfSizes(r: RiskRequest, p: RiskPolicy)
    ensures forall e :: e in SizedEvaluations(r, p) ==> ReasonFits(e)
    ensures TotalExposureEvaluation(r, p).reason == CashReserveHard <==>
      (IncreasesRisk(r) && BuildOrderEffect(r).resultingCash < CashFloor(r, p))
  {
    hide OrderNotionalHard, InstrumentHard, StrategyHard, TotalHard, CashFloor, Notional;
  }

  lemma ReasonsOfRest(r: RiskRequest, p: RiskPolicy)
    ensures forall e :: e in LossEvaluations(r, p) ==> ReasonFits(e)
    ensures forall e :: e in MarketEvaluations(r, p) ==> ReasonFits(e)
    ensures ReasonFits(ParticipationEvaluation(r, p)) && ReasonFits(IdempotencyEvaluation(r))
  {
  }

  lemma ReasonsOfOperations(r: RiskRequest, p: RiskPolicy)
    ensures forall e :: e in OperationalEvaluations(r, p) ==> ReasonFits(e)
  {
  }

  function LimitsOf(es: seq<Evaluation>): (r: seq<LimitId>)
    ensures |r| == |es| && forall i :: 0 <= i < |r| ==> r[i] == es[i].limitId
  {
    seq(|es|, i requires 0 <= i < |es| => es[i].limitId)
  }

  lemma LimitsOfConcat(a: seq<Evaluation>, b: seq<Evaluation>)
    ensures LimitsOf(a + b) == LimitsOf(a) + LimitsOf(b)
  {
  }

  function Copies(n: nat, limit: LimitId): seq<LimitId> {
    seq(n, _ => limit)
  }

  lemma LimitsOfKinds(r: RiskRequest, p: RiskPolicy)
    ensures LimitsOf(StateEvaluations(r, p))
      == [RequiredState, ProductScope, KillSwitchLimit, VenueStatusLimit, PriceCollar]
    ensures LimitsOf(LossEvaluations(r, p)) == [NoShortOrOversell, DailyAccountLoss, DailyStrategyLoss, MaxDrawdown]
    ensures LimitsOf(MarketEvaluations(r, p)) == [Spread, Volatility, DataFreshness]
  {
    hide ViewMetadata, PolicyFields.Consistent;
  }

  lemma LimitsOfSizes(r: RiskRequest, p: RiskPolicy)
    ensures LimitsOf(SizedEvaluations(r, p)) == [MaxNotional, InstrumentExposure, StrategyExposure, TotalSpotExposure]
    ensures LimitsOf([ParticipationEvaluation(r, p)]) == [Participation]
    ensures LimitsOf([IdempotencyEvaluation(r)]) == [Idempotency]
  {
    hide OrderNotionalHard, InstrumentHard, StrategyHard, TotalHard, CashFloor, Notional, PolicyFields.Consistent,
      ParticipationChecks;
  }

  function AtLeastOne(n: nat): nat {
    if n == 0 then 1 else n
  }

  lemma LimitsOfOperations(r: RiskRequest, p: RiskPolicy)
    ensures LimitsOf(OperationalEvaluations(r, p))
      == Copies(AtLeastOne(|r.throttleWindows|), OrderThrottle)
        + Copies(AtLeastOne(|r.rejectBurstWindows|), RejectBurst)
        + LAST_LIMITS
  {
    hide PolicyFields.Consistent;
    var throttles, bursts := ThrottleEvaluationsFor(r.throttleWindows), RejectBurstEvaluationsFor(r.rejectBurstWindows);
    var rest := [EngineLatencyEvaluation(r), ModelDriftEvaluation(r), TcaEvaluation(r, p)];
    LimitsOfConcat(throttles, bursts);
    LimitsOfConcat(throttles + bursts, rest);
    assert LimitsOf(throttles) == Copies(AtLeastOne(|r.throttleWindows|), OrderThrottle);
    assert LimitsOf(bursts) == Copies(AtLeastOne(|r.rejectBurstWindows|), RejectBurst);
    assert LimitsOf(rest) == LAST_LIMITS;
  }

  lemma LimitsOfAll(r: RiskRequest, p: RiskPolicy)
    ensures LimitsOf(Evaluations(r, p))
      == FIRST_LIMITS + Copies(AtLeastOne(|r.throttleWindows|), OrderThrottle)
        + Copies(AtLeastOne(|r.rejectBurstWindows|), RejectBurst) + LAST_LIMITS
  {
    hide StateEvaluations, SizedEvaluations, LossEvaluations, ParticipationEvaluation, MarketEvaluations,
      IdempotencyEvaluation, OperationalEvaluations, Copies, LimitsOf;
    LimitsOfKinds(r, p);
    LimitsOfSizes(r, p);
    LimitsOfOperations(r, p);
    var a, b := StateEvaluations(r, p) + SizedEvaluations(r, p), LossEvaluations(r, p);
    var c, d := [ParticipationEvaluation(r, p)], MarketEvaluations(r, p);
    var e, f := [IdempotencyEvaluation(r)], OperationalEvaluations(r, p);
    LimitsOfConcat(StateEvaluations(r, p), SizedEvaluations(r, p));
    LimitsOfConcat(a, b);
    LimitsOfConcat(a + b, c);
    LimitsOfConcat(a + b + c, d);
    LimitsOfConcat(a + b + c + d, e);
    LimitsOfConcat(a + b + c + d + e, f);
  }

  /** The evidence lists every limit in a fixed order, throttles and bursts once per window or once without any, with a
    * reason that fits its status. */
  lemma EvidenceMeaning(r: RiskRequest, p: RiskPolicy)
    ensures LimitsOf(RiskCheck(r, p).evaluations)
      == FIRST_LIMITS + Copies(AtLeastOne(|r.throttleWindows|), OrderThrottle)
        + Copies(AtLeastOne(|r.rejectBurstWindows|), RejectBurst) + LAST_LIMITS
    ensures forall e :: e in RiskCheck(r, p).evaluations ==> ReasonFits(e)
  {
    EventListsEvaluations(r, p);
    LimitsOfAll(r, p);
    ReasonsOfState(r, p);
    ReasonsOfSizes(r, p);
    ReasonsOfRest(r, p);
    ReasonsOfOperations(r, p);
    EvidenceByKind(r, p);
  }

  lemma EvidenceByKind(r: RiskRequest, p: RiskPolicy)
    requires forall e :: e in StateEvaluations(r, p) || e in SizedEvaluations(r, p) ==> ReasonFits(e)
    requires forall e :: e in LossEvaluations(r, p) || e in MarketEvaluations(r, p) ==> ReasonFits(e)
    requires forall e :: e in OperationalEvaluations(r, p) ==> ReasonFits(e)
    requires ReasonFits(ParticipationEvaluation(r, p)) && ReasonFits(IdempotencyEvaluation(r))
    ensures forall e :: e in Evaluations(r, p) ==> ReasonFits(e)
  {
    hide StateEvaluations, SizedEvaluations, LossEvaluations, ParticipationEvaluation, MarketEvaluations,
      IdempotencyEvaluation, OperationalEvaluations, ReasonFits;
  }

  /** The numbers reported explain the status: a soft breach lies beyond its soft threshold and within the hard one,
    * losses downwards and reject counts from the threshold on, and a value beyond the hard threshold is a hard
    * breach. */
  predicate NumbersExplain(e: Evaluation) {
    match e.limitId
    case DailyAccountLoss | DailyStrategyLoss =>
      && e.softThreshold.Some? && (e.status == HardBreach <==> e.currentValue <= e.hardThreshold)
      && (e.status == Pass <==> e.currentValue > e.hardThreshold && e.currentValue > e.softThreshold.value)
    case RejectBurst =>
      e.softThreshold.Some? ==>
        && (e.currentValue >= e.hardThreshold ==> e.status == HardBreach)
        && (e.status == Pass ==> e.currentValue < e.softThreshold.value)
        && (e.status == SoftBreach ==> e.softThreshold.value <= e.currentValue < e.hardThreshold)
    case MaxDrawdown | OrderThrottle =>
      && e.softThreshold.Some? && (e.status == HardBreach <==> e.currentValue > e.hardThreshold)
      && (e.status == SoftBreach <==> e.softThreshold.value < e.currentValue <= e.hardThreshold)
    case PriceCollar | Participation | Spread | Volatility | EngineLatency | TcaCostSlippage =>
      && (e.status == SoftBreach ==> e.softThreshold.Some? && e.softThreshold.value < e.currentValue <= e.hardThreshold)
      && (e.status == Pass ==> e.softThreshold.Some? && e.currentValue <= e.softThreshold.value)
    case MaxNotional | InstrumentExposure | StrategyExposure | TotalSpotExposure =>
      && (e.status == SoftBreach ==> e.softThreshold.Some? && e.softThreshold.value < e.currentValue <= e.hardThreshold)
      && (e.status == HardBreach ==>
        if e.reason == CashReserveHard then e.currentValue < e.hardThreshold else e.currentValue > e.hardThreshold)
    case RequiredState | ProductScope =>
      e.currentValue == if e.status == Pass then e.hardThreshold else 0.0
    case VenueStatusLimit =>
      && (e.status == Pass <==> e.currentValue == e.hardThreshold)
        && (e.status == HardBreach <==> e.currentValue == 0.0)
    case NoShortOrOversell | DataFreshness | Idempotency =>
      e.hardThreshold == 0.0 && (e.status == HardBreach <==> e.currentValue > 0.0)
    case KillSwitchLimit => e.currentValue == 0.0 ==> e.status == Pass
    case ModelDrift => e.currentValue == if e.status == Pass then 0.0 else 1.0
  }

  lemma StateNumbers(r: RiskRequest, p: RiskPolicy)
    ensures forall e :: e in StateEvaluations(r, p) ==> NumbersExplain(e)
  {
    hide ViewMetadata;
  }

  lemma SizeNumbers(r: RiskRequest, p: RiskPolicy)
    ensures forall e :: e in SizedEvaluations(r, p) ==> NumbersExplain(e)
  {
    hide OrderNotionalHard, InstrumentHard, StrategyHard, TotalHard, CashFloor, Notional;
  }

  lemma LossNumbers(r: RiskRequest, p: RiskPolicy)
    ensures forall e :: e in LossEvaluations(r, p) ==> NumbersExplain(e)
    ensures NumbersExplain(IdempotencyEvaluation(r))
  {
  }

  lemma MarketNumbers(r: RiskRequest, p: RiskPolicy)
    ensures forall e :: e in MarketEvaluations(r, p) ==> NumbersExplain(e)
  {
  }

  lemma ParticipationNumbers(r: RiskRequest, p: RiskPolicy)
    ensures NumbersExplain(ParticipationEvaluation(r, p))
  {
    hide ParticipationChecks;
  }

  lemma OperationalNumbers(r: RiskRequest, p: RiskPolicy)
    ensures forall e :: e in OperationalEvaluations(r, p) ==> NumbersExplain(e)
  {
    WindowNumbers(r);
    RestNumbers(r, p);
    hide NumbersExplain, ThrottleEvaluationsFor, RejectBurstEvaluationsFor, EngineLatencyEvaluation,
      ModelDriftEvaluation, TcaEvaluation;
  }

  lemma WindowNumbers(r: RiskRequest)
    ensures forall e :: e in ThrottleEvaluationsFor(r.throttleWindows) ==> NumbersExplain(e)
    ensures forall e :: e in RejectBurstEvaluationsFor(r.rejectBurstWindows) ==> NumbersExplain(e)
  {
  }

  lemma RestNumbers(r: RiskRequest, p: RiskPolicy)
    ensures NumbersExplain(EngineLatencyEvaluation(r)) && NumbersExplain(ModelDriftEvaluation(r))
    ensures NumbersExplain(TcaEvaluation(r, p))
  {
  }

  /** In the whole evidence the numbers explain the statuses. */
  lemma EvidenceNumbers(r: RiskRequest, p: RiskPolicy)
    ensures forall e :: e in RiskCheck(r, p).evaluations ==> NumbersExplain(e)
  {
    EventListsEvaluations(r, p);
    StateNumbers(r, p);
    SizeNumbers(r, p);
    LossNumbers(r, p);
    MarketNumbers(r, p);
    ParticipationNumbers(r, p);
    OperationalNumbers(r, p);
    hide StateEvaluations, SizedEvaluations, LossEvaluations, ParticipationEvaluation, MarketEvaluations,
      IdempotencyEvaluation, OperationalEvaluations, NumbersExplain, RiskCheck;
  }

  /** What a buy's size limits report: the order's notional and each exposure after it, or the cash left when that
    * is short of the reserve, against the policy's soft fraction of NAV. */
  lemma SizesReported(r: RiskRequest, p: RiskPolicy)
    requires r.intent.side == Buy
    ensures var e := OrderNotionalEvaluation(r, p);
      && e.currentValue == r.intent.quantity * r.referencePrice
      && e.softThreshold.Some? && e.softThreshold.value == p.paperNav * p.orderNotionalSoftPct
    ensures var e := InstrumentExposureEvaluation(r, p);
      && e.currentValue == r.instrumentExposure + r.intent.quantity * r.referencePrice
      && e.softThreshold.Some? && e.softThreshold.value == p.paperNav * p.instrumentSoftPct
    ensures var e := StrategyExposureEvaluation(r, p);
      && e.currentValue == r.strategyExposure + r.intent.quantity * r.referencePrice
      && e.softThreshold.Some? && e.softThreshold.value == p.paperNav * p.strategySoftPct
    ensures var e := TotalExposureEvaluation(r, p);
      && e.currentValue ==
        (if e.reason == CashReserveHard then r.currentCash else r.totalExposure)
        + (if e.reason == CashReserveHard then -1.0 else 1.0) * (r.intent.quantity * r.referencePrice)
      && e.softThreshold.Some? && e.softThreshold.value == p.paperNav * p.totalSoftPct
  {
    hide OrderNotionalHard, InstrumentHard, StrategyHard, TotalHard, CashFloor, PolicyFields.Consistent;
  }
}
