/** From risk decisions to lifecycle events: only approved intents are replayed, and each gets its own result back
  * (risk/replay.py, execution/gateway.py, contracts/execution.py). */
module Gateway {
  import opened Contracts
  import opened InstrumentMaster
  import opened Orders
  import opened RiskContracts
  import opened RiskEngine
  import opened ReplayInputs
  import opened ReplayEngine
  import opened ReplayAccounting

  predicate IsApproval(d: DecisionStatus) {
    d == Approved || d == ApprovedAfterCap || d == CancelReduceOnlyApproved
  }

  /** What constructing a risk event checks. */
  predicate EventAccepted(e: RiskEvent) {
    (HasHardBreach(e.evaluations) ==> e.decision == Rejected) && (IsApproval(e.decision) <==> e.approvedIntent.Some?)
  }

  lemma EngineEventsAreAccepted(r: RiskRequest, p: RiskPolicy)
    ensures EventAccepted(RiskCheck(r, p))
  {
    hide Evaluations, HasHardBreach, BuildOrderEffect;
  }

  predicate Forwarded(e: RiskEvent) {
    IsApproval(e.decision) && e.approvedIntent.Some?
  }

  function ForwardedEvents(events: seq<RiskEvent>): (r: seq<RiskEvent>)
    ensures |r| <= |events| && forall k :: 0 <= k < |r| ==> r[k].approvedIntent.Some? && Forwarded(r[k])
  {
    if events == [] then []
    else
      var last := events[|events| - 1];
      ForwardedEvents(events[..|events| - 1]) + if Forwarded(last) then [last] else []
  }

  function BlockedEvents(events: seq<RiskEvent>): (r: seq<RiskEvent>)
    ensures forall k :: 0 <= k < |r| ==> !Forwarded(r[k])
  {
    if events == [] then []
    else
      var last := events[|events| - 1];
      BlockedEvents(events[..|events| - 1]) + if Forwarded(last) then [] else [last]
  }

  function IntentsOf(events: seq<RiskEvent>): (r: seq<OrderIntent>)
    requires forall k :: 0 <= k < |events| ==> events[k].approvedIntent.Some?
    ensures |r| == |events| && forall k :: 0 <= k < |r| ==> r[k] == events[k].approvedIntent.value
  {
    if events == [] then [] else IntentsOf(events[..|events| - 1]) + [events[|events| - 1].approvedIntent.value]
  }

  /** The intents a replay gets to see. */
  function ApprovedIntents(events: seq<RiskEvent>): seq<OrderIntent> {
    IntentsOf(ForwardedEvents(events))
  }

  lemma {:induction false} ForwardedOrBlocked(events: seq<RiskEvent>)
    ensures multiset(ForwardedEvents(events)) + multiset(BlockedEvents(events)) == multiset(events)
  {
    hide Forwarded;
    if events != [] {
      var n := |events| - 1;
      ForwardedOrBlocked(events[..n]);
      assert events == events[..n] + [events[n]];
      SplitGrows(events[..n], ForwardedEvents(events[..n]), BlockedEvents(events[..n]), events[n],
                 events, ForwardedEvents(events), BlockedEvents(events));
    }
  }

  // ------------------------------------------------------------ the risk gate

  datatype GatedReplay = GatedReplay(approved: seq<RiskEvent>, blocked: seq<RiskEvent>, report: Option<Report>)

  /** Approved intents are replayed in event order; without any, nothing is replayed or even validated. */
  ghost function Gated(bars: seq<OHLCTVBar>, events: seq<RiskEvent>, costs: Option<ExecutionCostModel>,
                       snapshot: Option<Snapshot>,
                       account: Option<SimulatedAccountState>): Result<GatedReplay, ReplayError>
  {
    var approved, blocked := ForwardedEvents(events), BlockedEvents(events);
    if approved == [] then Ok(GatedReplay(approved, blocked, None))
    else
      match ReplayReport(bars, IntentsOf(approved), costs, snapshot, account)
      case Err(e) => Err(e)
      case Ok(report) => Ok(GatedReplay(approved, blocked, Some(report)))
  }

  method ReplayRiskApproved(bars: seq<OHLCTVBar>, events: seq<RiskEvent>, costs: Option<ExecutionCostModel>,
                            snapshot: Option<Snapshot>, account: Option<SimulatedAccountState>)
    returns (r: Result<GatedReplay, ReplayError>)
    ensures r.Ok? <==> Gated(bars, events, costs, snapshot, account).Ok?
    ensures r.Ok? ==> r == Gated(bars, events, costs, snapshot, account)
  {
    hide ReplayReport, ForwardedEvents, BlockedEvents, IntentsOf, Forwarded;
    NothingForwarded(events[..0]);
    var approved: seq<RiskEvent>, blocked: seq<RiskEvent>, intents: seq<OrderIntent> := [], [], [];
    for i := 0 to |events|
      invariant approved == ForwardedEvents(events[..i]) && blocked == BlockedEvents(events[..i])
      invariant forall k :: 0 <= k < |approved| ==> approved[k].approvedIntent.Some?
      invariant intents == IntentsOf(approved)
    {
      var e := events[i];
      OneMoreEvent(events, i);
      if Forwarded(e) {
        OneMoreIntent(approved, e);
        approved := approved + [e];
        intents := intents + [e.approvedIntent.value];
      } else {
        blocked := blocked + [e];
      }
    }
    assert events[..|events|] == events;
    if intents == [] {
      return Ok(GatedReplay(approved, blocked, None));
    }
    var report := ReplayMarketOrders(bars, intents, costs, snapshot, account);
    match report {
      case Err(e) => return Err(e);
      case Ok(value) => return Ok(GatedReplay(approved, blocked, Some(value)));
    }
  }

  lemma NothingForwarded(events: seq<RiskEvent>)
    requires events == []
    ensures ForwardedEvents(events) == [] && BlockedEvents(events) == [] && IntentsOf([]) == []
  {
  }

  lemma OneMoreEvent(events: seq<RiskEvent>, i: nat)
    requires i < |events|
    ensures Forwarded(events[i]) ==> events[i].approvedIntent.Some?
    ensures if Forwarded(events[i]) then
      ForwardedEvents(events[..i + 1]) == ForwardedEvents(events[..i]) + [events[i]]
        && BlockedEvents(events[..i + 1]) == BlockedEvents(events[..i])
      else
        ForwardedEvents(events[..i + 1]) == ForwardedEvents(events[..i])
          && BlockedEvents(events[..i + 1]) == BlockedEvents(events[..i]) + [events[i]]
  {
    assert events[..i + 1][..i] == events[..i];
  }

  lemma OneMoreIntent(events: seq<RiskEvent>, e: RiskEvent)
    requires (forall k :: 0 <= k < |events| ==> events[k].approvedIntent.Some?) && e.approvedIntent.Some?
    ensures IntentsOf(events + [e]) == IntentsOf(events) + [e.approvedIntent.value]
  {
    assert (events + [e])[..|events|] == events;
  }

  // ------------------------------------------------------------ pairing results with risk events

  /** An ideal risk-check id: the content itself. */
  datatype RiskCheckId = RiskCheckId(content: RiskEvent)

  /** The dictionary zipped from approved ids and results; a repeated id keeps the later result. */
  function ResultsByRiskId(approved: seq<RiskEvent>, results: seq<OrderResult>): map<RiskCheckId, OrderResult>
    requires |approved| == |results|
  {
    if approved == [] then map[]
    else
      var n := |approved| - 1;
      ResultsByRiskId(approved[..n], results[..n])[RiskCheckId(approved[n]) := results[n]]
  }

  function Lookup(m: map<RiskCheckId, OrderResult>, e: RiskEvent): Option<OrderResult> {
    if RiskCheckId(e) in m then Some(m[RiskCheckId(e)]) else None
  }

  ghost predicate DistinctEvents(events: seq<RiskEvent>) {
    forall i, j :: 0 <= i < j < |events| ==> events[i] != events[j]
  }

  lemma {:induction false} DictionaryHoldsEachResult(approved: seq<RiskEvent>, results: seq<OrderResult>, k: nat)
    requires |approved| == |results| && DistinctEvents(approved) && k < |approved|
    ensures Lookup(ResultsByRiskId(approved, results), approved[k]) == Some(results[k])
  {
    var n := |approved| - 1;
    if k < n {
      DictionaryHoldsEachResult(approved[..n], results[..n], k);
    }
  }

  lemma {:induction false} DictionaryHoldsOnlyApproved(approved: seq<RiskEvent>, results: seq<OrderResult>,
                                                       e: RiskEvent)
    requires |approved| == |results| && e !in approved
    ensures Lookup(ResultsByRiskId(approved, results), e) == None
  {
    if approved != [] {
      DictionaryHoldsOnlyApproved(approved[..|approved| - 1], results[..|approved| - 1], e);
    }
  }

  /** Rank of an event among the approved ones. */
  lemma {:induction false} ForwardedRank(events: seq<RiskEvent>, i: nat)
    requires i < |events| && Forwarded(events[i])
    ensures |ForwardedEvents(events[..i])| < |ForwardedEvents(events)|
    ensures ForwardedEvents(events)[|ForwardedEvents(events[..i])|] == events[i]
  {
    var n := |events| - 1;
    if i < n {
      ForwardedRank(events[..n], i);
      assert events[..n][..i] == events[..i];
    } else {
      assert events[..n] == events[..i];
    }
  }

  lemma AcceptedOrdersAreDistinctEvents(events: seq<RiskEvent>)
    requires IntentsOrdered(ApprovedIntents(events))
    ensures DistinctEvents(ForwardedEvents(events))
  {
    var approved, intents := ForwardedEvents(events), ApprovedIntents(events);
    forall i, j | 0 <= i < j < |approved| ensures approved[i] != approved[j] {
      assert intents[i].clientOrderId != intents[j].clientOrderId;
    }
  }

  /** What each event is given: the result at its own rank if it was approved, nothing otherwise. */
  function OwnResult(events: seq<RiskEvent>, results: seq<OrderResult>, i: nat): Option<OrderResult>
    requires i < |events| && |results| == |ForwardedEvents(events)|
  {
    if !Forwarded(events[i]) then None
    else
      ForwardedRank(events, i);
      Some(results[|ForwardedEvents(events[..i])|])
  }

  lemma DictionaryPairsOwnResults(events: seq<RiskEvent>, results: seq<OrderResult>, i: nat)
    requires i < |events| && |results| == |ForwardedEvents(events)|
    requires DistinctEvents(ForwardedEvents(events))
    ensures Lookup(ResultsByRiskId(ForwardedEvents(events), results), events[i]) == OwnResult(events, results, i)
  {
    if Forwarded(events[i]) {
      ForwardedRank(events, i);
      DictionaryHoldsEachResult(ForwardedEvents(events), results, |ForwardedEvents(events[..i])|);
    } else {
      DictionaryHoldsOnlyApproved(ForwardedEvents(events), results, events[i]);
    }
  }

  // ------------------------------------------------------------ lifecycle events

  datatype GatewayStatus = Blocked | GatewayRejected | GatewayUnfilled | GatewayPartiallyFilled | GatewayFilled

  function StatusOf(s: FillStatus): GatewayStatus {
    match s
    case Filled => GatewayFilled
    case PartiallyFilled => GatewayPartiallyFilled
    case Unfilled => GatewayUnfilled
    case RejectedFill => GatewayRejected
  }

  datatype LifecycleEvent = LifecycleEvent(
    riskCheckId: RiskCheckId,
    decision: DecisionStatus,
    clientOrderId: CanonicalId,
    instrumentId: CanonicalId,
    venueId: CanonicalId,
    side: OrderSide,
    requestedQuantity: PositiveDecimal,
    gatewayQuantity: PositiveDecimal,
    submittedAt: Timestamp,
    status: GatewayStatus,
    replayStatus: Option<FillStatus>,
    rejectReason: Option<RejectReason>,
    fillPrice: Option<real>,
    filledQuantity: real,
    remainingQuantity: real,
    fillEvent: Option<FillEvent>,
    costModel: Option<ExecutionCostModel>,
    arrivalReferencePrice: Option<real>,
    effectiveFillPrice: Option<real>,
    referenceNotional: real,
    effectiveNotional: real,
    feeCost: real,
    spreadCost: real,
    slippageCost: real,
    totalCost: real)
  {
    predicate IsFill() {
      status == GatewayFilled || status == GatewayPartiallyFilled
    }

    predicate CarriesNothing() {
      && fillPrice.None? && filledQuantity == 0.0 && remainingQuantity == gatewayQuantity
      && fillEvent.None? && arrivalReferencePrice.None? && effectiveFillPrice.None?
      && referenceNotional == 0.0 && effectiveNotional == 0.0
      && feeCost == 0.0 && spreadCost == 0.0 && slippageCost == 0.0 && totalCost == 0.0
    }

    predicate CarriesFill() {
      && rejectReason.None? && fillPrice.Some? && fillPrice.value > 0.0
      && (if status == GatewayFilled then filledQuantity == gatewayQuantity else 0.0 < filledQuantity < gatewayQuantity)
      && fillEvent.Some? && arrivalReferencePrice.Some? && effectiveFillPrice == fillPrice
      && referenceNotional == arrivalReferencePrice.value * filledQuantity
      && effectiveNotional == effectiveFillPrice.value * filledQuantity
    }

    /** What constructing a lifecycle event checks. */
    predicate Consistent() {
      && totalCost == feeCost + spreadCost + slippageCost && (totalCost > 0.0 ==> costModel.Some?)
      && remainingQuantity == gatewayQuantity - filledQuantity
      && if status == Blocked then
           !IsApproval(decision) && replayStatus.None? && rejectReason.None? && costModel.None? && CarriesNothing()
         else
           && IsApproval(decision) && replayStatus.Some? && status == StatusOf(replayStatus.value)
           && if IsFill() then CarriesFill() else rejectReason.Some? && CarriesNothing()
    }
  }

  function BlockedEvent(e: RiskEvent): LifecycleEvent {
    var intent := e.request.intent;
    LifecycleEvent(RiskCheckId(e), e.decision, intent.clientOrderId, intent.instrumentId, intent.venueId, intent.side,
      intent.quantity, intent.quantity, intent.submittedAt, Blocked, None, None, None, 0.0, intent.quantity, None, None,
      None, None, 0.0, 0.0, 0.0, 0.0, 0.0, 0.0)
  }

  function ReplayedEvent(e: RiskEvent, intent: OrderIntent, r: OrderResult): LifecycleEvent {
    LifecycleEvent(RiskCheckId(e), e.decision, intent.clientOrderId, intent.instrumentId, intent.venueId, intent.side,
      e.request.intent.quantity, intent.quantity, intent.submittedAt, StatusOf(r.status), Some(r.status), r.reason,
      r.fillPrice,
      r.filledQuantity, r.remainingQuantity, r.fillEvent, r.costModel, r.arrivalReferencePrice, r.effectiveFillPrice,
      r.referenceNotional, r.effectiveNotional, r.feeCost, r.spreadCost, r.slippageCost, r.totalCost)
  }

  function MakeLifecycleEvent(e: RiskEvent, result: Option<OrderResult>): LifecycleEvent
    requires result.Some? ==> e.approvedIntent.Some?
  {
    if result.None? then BlockedEvent(e) else ReplayedEvent(e, e.approvedIntent.value, result.value)
  }

  /** A lifecycle event never fails its own validator: blocked exactly when the risk decision was no approval. */
  lemma LifecycleIsConsistent(e: RiskEvent, result: Option<OrderResult>)
    requires EventAccepted(e) && (result.Some? <==> Forwarded(e))
    requires result.Some? ==> ResultOf(result.value, e.approvedIntent.value)
    ensures MakeLifecycleEvent(e, result).Consistent()
    ensures MakeLifecycleEvent(e, result).status == Blocked <==> !Forwarded(e)
    ensures result.Some? ==> MakeLifecycleEvent(e, result).clientOrderId == result.value.clientOrderId
  {
  }

  datatype GatewayReport = GatewayReport(events: seq<LifecycleEvent>, gated: GatedReplay)

  function ReplayResults(g: GatedReplay): seq<OrderResult> {
    if g.report.Some? then g.report.value.results else []
  }

  ghost function ContextOf(snapshot: Option<Snapshot>, account: Option<SimulatedAccountState>): Option<Context>
    requires snapshot.Some? <==> account.Some?
  {
    if account.Some? then Some(Context(snapshot.value, account.value.accountId)) else None
  }

  ghost function StartOf(account: Option<SimulatedAccountState>): Balances {
    if account.Some? then account.value.balances else map[]
  }

  /** What the gate returned, told as a run of the replay over the approved intents. */
  lemma GatedIsReplay(bars: seq<OHLCTVBar>, events: seq<RiskEvent>, costs: Option<ExecutionCostModel>,
                      snapshot: Option<Snapshot>, account: Option<SimulatedAccountState>)
    requires Gated(bars, events, costs, snapshot, account).Ok?
    ensures var g := Gated(bars, events, costs, snapshot, account).value;
      && (ForwardedEvents(events) == [] <==> g.report.None?)
      && |ReplayResults(g)| == |ForwardedEvents(events)|
      && DistinctEvents(ForwardedEvents(events))
      && (g.report.Some? ==>
        && (snapshot.Some? <==> account.Some?)
        && Replayed(ApprovedIntents(events), bars, costs, ContextOf(snapshot, account), StartOf(account)).Ok?
        && ReplayResults(g) == Replayed(ApprovedIntents(events), bars, costs, ContextOf(snapshot, account),
          StartOf(account)).value.results)
  {
    hide Replayed, BarsSafe, IntentsOrdered, IntentsOf;
    if ForwardedEvents(events) != [] {
      AcceptedOrdersAreDistinctEvents(events);
    }
  }

  /** Every approved event is paired with the result of its own approved intent; a blocked one with none. */
  lemma EachEventGetsItsOwnResult(bars: seq<OHLCTVBar>, events: seq<RiskEvent>, costs: Option<ExecutionCostModel>,
                                  snapshot: Option<Snapshot>, account: Option<SimulatedAccountState>, i: nat)
    requires Gated(bars, events, costs, snapshot, account).Ok? && i < |events|
    requires |ReplayResults(Gated(bars, events, costs, snapshot, account).value)| == |ForwardedEvents(events)|
    ensures var result := OwnResult(events, ReplayResults(Gated(bars, events, costs, snapshot, account).value), i);
      && (result.Some? <==> Forwarded(events[i]))
      && (result.Some? ==> ResultOf(result.value, events[i].approvedIntent.value))
  {
    hide Gated, Replayed, ResultOf, ForwardedEvents, BlockedEvents, IntentsOf;
    GatedIsReplay(bars, events, costs, snapshot, account);
    if Forwarded(events[i]) {
      ForwardedRank(events, i);
      ResultsMatchIntents(ApprovedIntents(events), bars, costs, ContextOf(snapshot, account), StartOf(account),
        |ForwardedEvents(events[..i])|);
    }
  }

  /** End to end: the account after the gateway is the starting account plus the flows of the replayed results. */
  lemma GatewayConservesBalances(bars: seq<OHLCTVBar>, events: seq<RiskEvent>, costs: Option<ExecutionCostModel>,
                                 snapshot: Snapshot, account: SimulatedAccountState, key: BalanceKey)
    requires Gated(bars, events, costs, Some(snapshot), Some(account)).Ok?
    requires ForwardedEvents(events) != []
    ensures var g := Gated(bars, events, costs, Some(snapshot), Some(account)).value;
      && g.report.Some? && g.report.value.finalAccount.Some?
      && NonNegative(g.report.value.finalAccount.value.balances)
      && Balance(g.report.value.finalAccount.value.balances, key)
        == Balance(account.balances, key) + NetFlow(g.report.value.results, snapshot, key)
  {
    hide Replayed, BarsSafe, IntentsOrdered, IntentsOf, NonNegative, NetFlow;
    RunConservesBalances(ApprovedIntents(events), bars, costs, Context(snapshot, account.accountId), account.balances,
      key);
  }

  /** Lifecycle events in event order. */
  function LifecycleEvents(events: seq<RiskEvent>, byId: map<RiskCheckId, OrderResult>): (r: seq<LifecycleEvent>)
    requires forall e :: e in events && Lookup(byId, e).Some? ==> e.approvedIntent.Some?
    ensures |r| == |events| && forall i :: 0 <= i < |r| ==>
      r[i] == MakeLifecycleEvent(events[i], Lookup(byId, events[i]))
  {
    if events == [] then []
    else
      var last := events[|events| - 1];
      LifecycleEvents(events[..|events| - 1], byId) + [MakeLifecycleEvent(last, Lookup(byId, last))]
  }

  /** What a gateway report promises about its risk events and their replay. */
  ghost predicate ReportsEveryEvent(events: seq<RiskEvent>, report: GatewayReport) {
    && |report.events| == |events| && |ReplayResults(report.gated)| == |ForwardedEvents(events)|
    && forall i :: 0 <= i < |events| ==>
      && (Forwarded(events[i]) ==>
        ResultOf(OwnResult(events, ReplayResults(report.gated), i).value, events[i].approvedIntent.value))
      && report.events[i] == MakeLifecycleEvent(events[i], OwnResult(events, ReplayResults(report.gated), i))
      && report.events[i].Consistent()
      && (report.events[i].status == Blocked <==> !Forwarded(events[i]))
  }

  /** The gateway fails exactly when the replay does; otherwise it reports every risk event, in order. */
  method RunRiskGatedGateway(bars: seq<OHLCTVBar>, events: seq<RiskEvent>, costs: Option<ExecutionCostModel>,
                             snapshot: Option<Snapshot>, account: Option<SimulatedAccountState>)
    returns (r: Result<GatewayReport, ReplayError>)
    requires forall e :: e in events ==> EventAccepted(e)
    ensures r.Ok? <==> Gated(bars, events, costs, snapshot, account).Ok?
    ensures r.Ok? ==>
      Ok(r.value.gated) == Gated(bars, events, costs, snapshot, account) && ReportsEveryEvent(events, r.value)
  {
    hide Gated, ResultOf, ForwardedEvents, ResultsByRiskId, EventAccepted, MakeLifecycleEvent,
      LifecycleEvent.Consistent;
    var gated := ReplayRiskApproved(bars, events, costs, snapshot, account);
    if gated.Err? {
      return Err(gated.error);
    }
    GatedIsReplay(bars, events, costs, snapshot, account);
    GatedKeepsApproved(bars, events, costs, snapshot, account);
    var results := ReplayResults(gated.value);
    var byId := ResultsByRiskId(gated.value.approved, results);
    forall i | 0 <= i < |events|
      ensures Lookup(byId, events[i]) == OwnResult(events, results, i)
      ensures Forwarded(events[i]) ==> ResultOf(OwnResult(events, results, i).value, events[i].approvedIntent.value)
      ensures MakeLifecycleEvent(events[i], OwnResult(events, results, i)).Consistent()
      ensures MakeLifecycleEvent(events[i], OwnResult(events, results, i)).status == Blocked <==> !Forwarded(events[i])
    {
      DictionaryPairsOwnResults(events, results, i);
      EachEventGetsItsOwnResult(bars, events, costs, snapshot, account, i);
      LifecycleIsConsistent(events[i], OwnResult(events, results, i));
    }
    r := Ok(GatewayReport(LifecycleEvents(events, byId), gated.value));
  }

  lemma GatedKeepsApproved(bars: seq<OHLCTVBar>, events: seq<RiskEvent>, costs: Option<ExecutionCostModel>,
                           snapshot: Option<Snapshot>, account: Option<SimulatedAccountState>)
    requires Gated(bars, events, costs, snapshot, account).Ok?
    ensures Gated(bars, events, costs, snapshot, account).value.approved == ForwardedEvents(events)
    ensures Gated(bars, events, costs, snapshot, account).value.blocked == BlockedEvents(events)
  {
    hide ReplayReport;
  }

  // ------------------------------------------------------------ what a lifecycle event says

  /** The order an event is about: the approved one, or for a blocked event the one that was checked. */
  ghost predicate SaysOrder(event: LifecycleEvent, e: RiskEvent, order: OrderIntent) {
    && event.riskCheckId.content == e && event.decision == e.decision
    && event.clientOrderId == order.clientOrderId && event.instrumentId == order.instrumentId
    && event.venueId == order.venueId && event.side == order.side && event.submittedAt == order.submittedAt
    && event.requestedQuantity == e.request.intent.quantity && event.gatewayQuantity == order.quantity
  }

  /** The outcome of its own replay, figure by figure. */
  ghost predicate SaysResult(event: LifecycleEvent, r: OrderResult) {
    && event.replayStatus == Some(r.status) && event.rejectReason == r.reason
    && (event.status == GatewayFilled <==> r.status == Filled)
    && (event.status == GatewayPartiallyFilled <==> r.status == PartiallyFilled)
    && (event.status == GatewayUnfilled <==> r.status == Unfilled)
    && (event.status == GatewayRejected <==> r.status == RejectedFill)
    && event.fillPrice == r.fillPrice && event.filledQuantity == r.filledQuantity
    && event.remainingQuantity == r.remainingQuantity && event.fillEvent == r.fillEvent
      && event.costModel == r.costModel
    && event.arrivalReferencePrice == r.arrivalReferencePrice && event.effectiveFillPrice == r.effectiveFillPrice
    && event.referenceNotional == r.referenceNotional && event.effectiveNotional == r.effectiveNotional
    && event.feeCost == r.feeCost && event.spreadCost == r.spreadCost && event.slippageCost == r.slippageCost
    && event.totalCost == r.totalCost
  }

  /** Event i of a report is about risk event i: one with an approval says the result whose rank among the approvals is
    * its own, any other says that it was blocked and carries nothing. */
  lemma EventMeaning(events: seq<RiskEvent>, report: GatewayReport, i: nat)
    requires ReportsEveryEvent(events, report) && i < |events|
    ensures var event, e := report.events[i], events[i];
      if e.decision in {Approved, ApprovedAfterCap, CancelReduceOnlyApproved} && e.approvedIntent.Some? then
        var k, results := |ForwardedEvents(events[..i])|, ReplayResults(report.gated);
        k < |results| && SaysOrder(event, e, e.approvedIntent.value) && SaysResult(event, results[k])
      else
        SaysOrder(event, e, e.request.intent) && event.status == Blocked && event.CarriesNothing()
  {
    hide ResultOf, LifecycleEvent.Consistent, ForwardedEvents;
    if Forwarded(events[i]) {
      ForwardedRank(events, i);
    }
  }
}
