/** Controls that no order can get past, whatever its size, and the request that needs two caps. */
module RiskControls {
  import opened Contracts
  import opened InstrumentMaster
  import opened Orders
  import opened StreamHealth
  import opened RiskContracts
  import opened RiskEngine
  import opened RiskCapping
  import opened RiskLimits
  import KillSwitch

  lemma KillSwitchIsListed(r: RiskRequest, p: RiskPolicy)
    ensures KillSwitchEvaluation(r) in Evaluations(r, p) && NoShortEvaluation(r) in Evaluations(r, p)
    ensures DataFreshnessEvaluation(r) in Evaluations(r, p)
  {
    assert KillSwitchEvaluation(r) in StateEvaluations(r, p);
    assert NoShortEvaluation(r) in LossEvaluations(r, p);
    assert DataFreshnessEvaluation(r) in MarketEvaluations(r, p);
  }

  /** Approval under each kill-switch state: nothing once cancelling, halted or unknown; only sells of held quantity
    * while paused or reducing; and, since its soft breach cannot be capped, no buy of any size while soft-limited. */
  lemma KillSwitchGatesApproval(r: RiskRequest, p: RiskPolicy)
    requires RiskCheck(r, p).approvedIntent.Some?
    ensures r.killState != CancelOnly && r.killState != HaltedState && r.killState != UnknownFailClosed
    ensures r.killState == PauseNewOrders || r.killState == ReduceOnly ==>
      r.intent.side == Sell && r.intent.quantity <= r.positionQuantity
    ensures r.killState == SoftLimited ==> r.intent.side == Sell
  {
    hide Evaluations, ViewMetadata, RiskCheck, SoftBreaches;
    KillSwitchIsListed(r, p);
    ApprovedHasNoHardBreach(r, p);
    if r.intent.side == Buy {
      BuyDecisionTable(r, p);
      ListsEvaluations(r, p);
      var softs := SoftBreaches(Evaluations(r, p));
      assert r.killState == SoftLimited ==> KillSwitchEvaluation(r) in softs;
    }
  }

  lemma ApprovedHasNoHardBreach(r: RiskRequest, p: RiskPolicy)
    requires RiskCheck(r, p).approvedIntent.Some?
    ensures !HasHardBreach(Evaluations(r, p))
  {
    hide Evaluations, HasHardBreach;
  }

  /** What a kill-switch state lets through: anything, only sells of held quantity, or nothing. */
  predicate Lets(state: KillSwitchState, r: RiskRequest) {
    || state == Clear || state == SoftLimited
    || ((state == PauseNewOrders || state == ReduceOnly)
        && r.intent.side == Sell && r.intent.quantity <= r.positionQuantity)
  }

  /** The kill-switch state takes part in a rejection only by what it lets through. */
  lemma RejectionByState(r: RiskRequest, p: RiskPolicy, state: KillSwitchState)
    ensures RiskCheck(r.(killState := state), p).decision != Rejected <==>
      Lets(state, r) && RiskCheck(r.(killState := Clear), p).decision != Rejected
  {
    hide RiskCheck;
    RejectedIffHardLimitBroken(r.(killState := state), p);
    RejectedIffHardLimitBroken(r.(killState := Clear), p);
    HardLimitsByState(r, p, state);
  }

  lemma HardLimitsByState(r: RiskRequest, p: RiskPolicy, state: KillSwitchState)
    ensures MeetsHardLimits(r.(killState := state), p) <==>
      Lets(state, r) && MeetsHardLimits(r.(killState := Clear), p)
  {
    hide PolicyFields.Consistent, Under, KeepsReserve, ViewMetadata, StateHardOk, MarketHardOk, SizesHardOk;
    var a, b := r.(killState := state), r.(killState := Clear);
    MetadataByState(r, state);
    MetadataByState(r, Clear);
    StateLimitsByState(r, p, state);
    MarketLimitsByState(r, p, state);
    SizesByState(r, p, state);
    assert OperationsHardOk(a, p) <==> OperationsHardOk(b, p);
    assert forall record :: record in r.idempotencyRecords ==> (RepeatsOrder(record, a) <==> RepeatsOrder(record, b));
  }

  lemma MetadataByState(r: RiskRequest, state: KillSwitchState)
    ensures ViewMetadata(r.(killState := state)) == ViewMetadata(r)
  {
    hide ActiveConstraints, FirstMatch;
  }

  lemma StateLimitsByState(r: RiskRequest, p: RiskPolicy, state: KillSwitchState)
    ensures StateHardOk(r.(killState := state), p) <==> Lets(state, r) && StateHardOk(r.(killState := Clear), p)
  {
    hide ViewMetadata, PolicyFields.Consistent;
    MetadataByState(r, state);
    MetadataByState(r, Clear);
    assert Orderable(r.(killState := state)) <==> Orderable(r.(killState := Clear));
  }

  lemma SizesByState(r: RiskRequest, p: RiskPolicy, state: KillSwitchState)
    ensures SizesHardOk(r.(killState := state), p) <==> SizesHardOk(r.(killState := Clear), p)
  {
    hide ViewMetadata, PolicyFields.Consistent, Under, KeepsReserve;
    MetadataByState(r, state);
    MetadataByState(r, Clear);
    assert r.(killState := state).intent.quantity * r.(killState := state).referencePrice
      == r.(killState := Clear).intent.quantity * r.(killState := Clear).referencePrice;
  }

  lemma MarketLimitsByState(r: RiskRequest, p: RiskPolicy, state: KillSwitchState)
    ensures MarketHardOk(r.(killState := state), p) <==> MarketHardOk(r.(killState := Clear), p)
  {
    hide PolicyFields.Consistent;
    var a, b := r.(killState := state), r.(killState := Clear);
    assert a.dataHealthSignals == b.dataHealthSignals == r.dataHealthSignals;
  }

  /** Checking an order under the reported state is checking it under every active record: it gets past the hard limits
    * exactly when some record is active and it gets past them under the state of each. */
  lemma SnapshotChecksEveryRecord(s: KillSwitch.KillSwitchSnapshot, known: set<KillSwitch.Record>,
                                  evaluated: set<KillSwitch.Scope>, r: RiskRequest, p: RiskPolicy)
    requires KillSwitch.IdsIdentify(known) && KillSwitch.Describes(s, known, evaluated)
    requires r.killState == s.activeState
    ensures RiskCheck(r, p).decision != Rejected <==>
      (&& (exists record :: KillSwitch.IsActive(record, known, evaluated))
       && forall record :: KillSwitch.IsActive(record, known, evaluated) ==>
         RiskCheck(r.(killState := record.newState), p).decision != Rejected)
  {
    hide RiskCheck;
    KillSwitch.SnapshotMeaning(s, known, evaluated);
    hide KillSwitch.Describes, KillSwitch.IsActive;
    assert r == r.(killState := s.activeState);
    RejectionByState(r, p, s.activeState);
    forall record | record in s.activeRecords
      ensures RiskCheck(r.(killState := record.newState), p).decision != Rejected <==>
        Lets(record.newState, r) && RiskCheck(r.(killState := Clear), p).decision != Rejected
    {
      RejectionByState(r, p, record.newState);
    }
    StateLetsIffRecordsDo(s.activeRecords, s.activeState, r);
    if s.activeRecords != [] {
      assert KillSwitch.IsActive(s.activeRecords[0], known, evaluated);
    }
  }

  lemma StateLetsIffRecordsDo(records: seq<KillSwitch.Record>, state: KillSwitchState, r: RiskRequest)
    requires KillSwitch.Decides(records, state)
    ensures Lets(state, r) <==> records != [] && forall record :: record in records ==> Lets(record.newState, r)
  {
    forall record | record in records ensures KillSwitch.SomeIn(records, record.newState) {
    }
    if records != [] {
      assert records[0] in records;
      assert KillSwitch.SomeIn(records, state);
    }
  }

  /** End to end: an event too old at its evaluation clock blocks every order on its instrument, and an instrument-less
    * stream's event blocks every order. */
  lemma StaleFeedRejects(policy: HealthPolicy, s: ScopeState, event: StreamEvent, at: Timestamp, r: RiskRequest,
                         p: RiskPolicy)
    requires at - event.envelope.eventTs > policy.maxEventAge
    requires GateSignal([Freshness], RecordFor(policy, s, event, at)) in r.dataHealthSignals
    requires ScopeFor(event).instrumentId.None? || ScopeFor(event).instrumentId == Some(r.intent.instrumentId)
    ensures RiskCheck(r, p).decision == Rejected && RiskCheck(r, p).approvedIntent.None?
  {
    hide Evaluations, ViewMetadata, RecordFor, GateSignal;
    KillSwitchIsListed(r, p);
    GateBlocksExactlyCriticalIssues([Freshness], policy, s, event, at);
    var signal := GateSignal([Freshness], RecordFor(policy, s, event, at));
    assert BlocksInstrument(signal, r.intent.instrumentId);
  }

  // ------------------------------------------------------------ a request that needs two caps

  const SAMPLE_SNAPSHOT := Snapshot(
    0,
    [Venue(1, VenueActive, {Market})],
    [Instrument(10, 1, 100, 101, Spot, Trading, {Market})],
    [Account(5, 1, AccountType.Paper, AccountActive, {PlaceOrders}, AccountRiskLimits(0.025, 0.25, 0.3, 0.6, 0.5))],
    [InstrumentConstraint(7, 10, 1.0, 1.0, 1.0, None, None, None, Window(0, None))])

  const SAMPLE_POLICY: RiskPolicy := RiskPolicy(
    1000.0, 1.0, 1.0, 1.0, 1.0, 1.0, 1.0, 1.0, 1.0, 0.5, 1.0, 1.0, 1.0, 1.0,
    1.0, 1.0, 1.0, 1.0, 0.5, 1.0, 0.5, 1.0, 1.0, 1.0, 1.0, 1.0, 1.0, 1.0)

  /** A buy of 10 at price 1: half the 24h volume allows 8, half the book depth allows 5, both hard shares allow 10. */
  const SAMPLE_REQUEST := RiskRequest(
    1, 0, 0, 5, OrderIntent(1, 1, 1, 10, 1, Buy, Market, 10.0, 0, None), 1, 1.0, 1000.0, 1000.0, 0.0, 0.0, 0.0, 0.0,
    SAMPLE_SNAPSHOT, Clear, PriceRisk(true, 0.0), LossRisk(0.0, 0.0, 0.0),
    LiquidityRisk(Some(16.0), Some(10.0), false, Some(0.0), None), MarketRisk(true, Some(1.0), false),
    EngineLatencyRisk(1.0, 0.0, true), ModelRisk(false, false, true), TcaRisk(true, true, Some(1.0)), [], [], [], [])

  /** The sample order under other idempotency records. */
  ghost predicate IsSample(r: RiskRequest) {
    r == SAMPLE_REQUEST.(idempotencyRecords := r.idempotencyRecords)
  }

  lemma SampleMetadata(r: RiskRequest)
    requires IsSample(r)
    ensures ViewMetadata(r) == MetadataView(
      Some(SAMPLE_SNAPSHOT.venues[0]), Some(SAMPLE_SNAPSHOT.instruments[0]), Some(SAMPLE_SNAPSHOT.accounts[0]),
      Some(SAMPLE_SNAPSHOT.constraints[0]))
  {
    var c := SAMPLE_SNAPSHOT.constraints;
    assert c[1..] == [];
    assert ActiveConstraints(c, 10, 0) == [c[0]];
  }

  lemma SampleState(r: RiskRequest)
    requires IsSample(r)
    ensures forall e :: e in StateEvaluations(r, SAMPLE_POLICY) ==> e.status == Pass
    ensures forall e :: e in LossEvaluations(r, SAMPLE_POLICY) ==> e.status == Pass
  {
    hide ViewMetadata;
    SampleMetadata(r);
  }

  lemma SampleMarket(r: RiskRequest)
    requires IsSample(r)
    ensures forall e :: e in MarketEvaluations(r, SAMPLE_POLICY) ==> e.status == Pass
  {
    hide ViewMetadata;
    SampleMetadata(r);
  }

  lemma SampleOperations(r: RiskRequest)
    requires IsSample(r)
    ensures forall e :: e in OperationalEvaluations(r, SAMPLE_POLICY) ==> e.status == Pass
  {
    hide ViewMetadata;
    SampleMetadata(r);
  }

  lemma SampleUnsized(r: RiskRequest)
    requires IsSample(r)
    ensures EvidenceOf(r, SAMPLE_POLICY).UnsizedPass()
  {
    hide ViewMetadata, SizedEvaluations, ParticipationEvaluation, IdempotencyEvaluation, Rooms, Evaluations, IsSample;
    hide StateEvaluations, LossEvaluations, MarketEvaluations, OperationalEvaluations;
    SampleState(r);
    SampleMarket(r);
    SampleOperations(r);
  }

  lemma SampleRooms(r: RiskRequest)
    requires IsSample(r)
    ensures var v := EvidenceOf(r, SAMPLE_POLICY);
      v.keepsCash && v.SoftRooms(v.n) && v.HardRooms(v.n) && v.n == 10.0
  {
    hide ViewMetadata, SizedEvaluations, ParticipationEvaluation, IdempotencyEvaluation, UnsizedEvaluations,
      Evaluations;
    SampleMetadata(r);
  }

  lemma SampleShares(r: RiskRequest)
    requires IsSample(r)
    ensures !DepthMissing(r) && FitsParticipationHard(r, SAMPLE_POLICY, 10.0)
    ensures !FitsParticipation(r, SAMPLE_POLICY, 10.0) && ParticipationCap(r, SAMPLE_POLICY, 10.0) == 8.0
    ensures DepthShare(r, SAMPLE_POLICY) == 5.0
  {
  }

  /** Unless a record collides at once, the sample is capped to its volume share of 8, which masks a depth share of
    * 5. */
  lemma SampleIsCapped(r: RiskRequest)
    requires IsSample(r) && !Collided(r)
    ensures RiskCheck(r, SAMPLE_POLICY).decision == ApprovedAfterCap
    ensures CapNotional(r, SAMPLE_POLICY) == 8.0 && DepthShare(r, SAMPLE_POLICY) == 5.0
    ensures VolumeMasksDepth(r, SAMPLE_POLICY)
  {
    var v := EvidenceOf(r, SAMPLE_POLICY);
    SampleUnsized(r);
    SampleRooms(r);
    SampleShares(r);
    SampleEvidenceIsCapped(r, SAMPLE_POLICY, v);
    SampleIsMasked(r);
  }

  lemma SampleIsMasked(r: RiskRequest)
    requires IsSample(r)
    ensures VolumeMasksDepth(r, SAMPLE_POLICY)
  {
    hide ViewMetadata;
    SampleMetadata(r);
  }

  lemma SampleEvidenceIsCapped(r: RiskRequest, p: RiskPolicy, v: BuyEvidence)
    requires r.intent.side == Buy && !Collided(r) && v == EvidenceOf(r, p) && v.n == 10.0
    requires v.UnsizedPass() && v.keepsCash && v.SoftRooms(v.n) && v.HardRooms(v.n)
    requires !DepthMissing(r) && FitsParticipationHard(r, p, 10.0) && !FitsParticipation(r, p, 10.0)
    requires ParticipationCap(r, p, 10.0) == 8.0
    ensures RiskCheck(r, p).decision == ApprovedAfterCap && CapNotional(r, p) == 8.0
  {
    hide Evaluations, UnsizedEvaluations, SizedEvaluations, ParticipationEvaluation, IdempotencyEvaluation, Rooms,
      BuildOrderEffect, Notional;
    hide BuyEvidence.Valid;
    EvidenceIsValid(r, p);
    OutcomeOfBuy(r, p);
    EvidenceReports(r, p);
    assert v.NoHard();
    ParticipationAloneIsCapped(r, v, v.n);
    TightestIsLeastRoom(r, v, v.partCap);
  }

  /** One cap does not always suffice: the sample is capped to volume first and must be capped again to book depth. */
  lemma SecondCapCanBeNeeded()
    ensures var r, p := SAMPLE_REQUEST, SAMPLE_POLICY;
      && RiskCheck(r, p).decision == ApprovedAfterCap && RiskCheck(r, p).approvedIntent.Some?
      && RiskCheck(Recheck(r, p), p).decision == ApprovedAfterCap
  {
    hide RiskCheck, CapNotional, VolumeMasksDepth;
    SampleIsCapped(SAMPLE_REQUEST);
    SecondCapNeededIff(SAMPLE_REQUEST, SAMPLE_POLICY);
  }

  /** A record of another order, still placed, that carries the hash of the sample order at this quantity. */
  function PlacedAt(quantity: PositiveDecimal): IdempotencyRecord {
    IdempotencyRecord(9, 9, 9, IntentHash(SAMPLE_REQUEST.intent.(quantity := quantity)), IdempotencyState.Placed)
  }

  function SampleBesides(record: IdempotencyRecord): RiskRequest {
    SAMPLE_REQUEST.(idempotencyRecords := [record])
  }

  lemma PlacedTakesHash(quantity: PositiveDecimal)
    requires quantity != 10.0
    ensures var r := SampleBesides(PlacedAt(quantity));
      IsSample(r) && !Collided(r) && forall n: real :: HashTakenAt(r, n) <==> n == quantity
  {
    var r := SampleBesides(PlacedAt(quantity));
    assert r.idempotencyRecords[0] == PlacedAt(quantity) && PlacedAt(quantity) in r.idempotencyRecords;
    forall n: real ensures HashTakenAt(r, n) <==> n == quantity {
      assert quantity * r.referencePrice == quantity;
    }
  }

  /** A capped order can be rejected when checked again: the record carries the hash of the sample at 8, its first
    * cap. */
  lemma CappedOrderCanBeRejected()
    ensures var r, p := SampleBesides(PlacedAt(8.0)), SAMPLE_POLICY;
      && RiskCheck(r, p).decision == ApprovedAfterCap && RiskCheck(r, p).approvedIntent.Some?
      && RiskCheck(Recheck(r, p), p).decision == Rejected && !SettlesWithinTwo(r, p)
  {
    hide RiskCheck, CapNotional, VolumeMasksDepth, HashTakenAt, SettlesWithinTwo, IsSample;
    var r, p := SampleBesides(PlacedAt(8.0)), SAMPLE_POLICY;
    PlacedTakesHash(8.0);
    SampleIsCapped(r);
    SecondCapNeededIff(r, p);
    TwoCapsSufficeIff(r, p);
  }

  /** So can one capped twice: here the record carries the hash of the sample at 5, its second cap. */
  lemma TwiceCappedOrderCanBeRejected()
    ensures var r, p := SampleBesides(PlacedAt(5.0)), SAMPLE_POLICY;
      && RiskCheck(r, p).decision == ApprovedAfterCap && RiskCheck(r, p).approvedIntent.Some?
      && RiskCheck(Recheck(r, p), p).decision == ApprovedAfterCap && !SettlesWithinTwo(r, p)
  {
    hide RiskCheck, CapNotional, VolumeMasksDepth, HashTakenAt, SettlesWithinTwo, IsSample, DepthShare;
    var r, p := SampleBesides(PlacedAt(5.0)), SAMPLE_POLICY;
    PlacedTakesHash(5.0);
    SampleIsCapped(r);
    SecondCapNeededIff(r, p);
    TwoCapsSufficeIff(r, p);
  }
}
