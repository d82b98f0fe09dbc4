/** Shrinking a buy to its soft limits: what the capped order satisfies when it is checked again. */
module RiskCapping {
  import opened Contracts
  import opened Orders
  import opened RiskContracts
  import opened RiskEngine

  function WithQuantity(r: RiskRequest, q: PositiveDecimal): RiskRequest {
    r.(intent := r.intent.(quantity := q))
  }

  // ------------------------------------------------------------ the evaluations of a buy, by notional

  function UnsizedEvaluations(r: RiskRequest, p: RiskPolicy): seq<Evaluation> {
    StateEvaluations(r, p) + LossEvaluations(r, p) + MarketEvaluations(r, p) + OperationalEvaluations(r, p)
  }

  lemma EvaluationsByKind(r: RiskRequest, p: RiskPolicy)
    ensures forall e :: e in Evaluations(r, p) <==>
      || e in UnsizedEvaluations(r, p) || e in SizedEvaluations(r, p)
      || e == ParticipationEvaluation(r, p) || e == IdempotencyEvaluation(r)
  {
  }

  /** The size of a buy reaches only the sized limits, participation, and the content hash. */
  lemma SizeReachesOnlySizedLimits(r: RiskRequest, p: RiskPolicy, q: PositiveDecimal)
    requires r.intent.side == Buy
    ensures UnsizedEvaluations(WithQuantity(r, q), p) == UnsizedEvaluations(r, p)
    ensures ViewMetadata(WithQuantity(r, q)) == ViewMetadata(r)
  {
    var r' := WithQuantity(r, q);
    assert ViewMetadata(r') == ViewMetadata(r);
    assert StateEvaluations(r', p) == StateEvaluations(r, p);
    assert LossEvaluations(r', p) == LossEvaluations(r, p);
    assert MarketEvaluations(r', p) == MarketEvaluations(r, p);
    assert OperationalEvaluations(r', p) == OperationalEvaluations(r, p);
  }

  predicate CappableLimit(limit: LimitId) {
    limit == MaxNotional || limit == Participation || limit == InstrumentExposure || limit == StrategyExposure
      || limit == TotalSpotExposure
  }

  lemma OperationalLimits(r: RiskRequest, p: RiskPolicy)
    ensures forall e :: e in OperationalEvaluations(r, p) ==> !CappableLimit(e.limitId)
  {
    var throttles, bursts := ThrottleEvaluationsFor(r.throttleWindows), RejectBurstEvaluationsFor(r.rejectBurstWindows);
    forall e | e in OperationalEvaluations(r, p) ensures !CappableLimit(e.limitId) {
      if e in throttles {
        var k :| 0 <= k < |throttles| && throttles[k] == e;
        assert e.limitId == OrderThrottle;
      } else if e in bursts {
        var k :| 0 <= k < |bursts| && bursts[k] == e;
        assert e.limitId == RejectBurst;
      }
    }
  }

  lemma StateLimits(r: RiskRequest, p: RiskPolicy)
    ensures forall e :: e in StateEvaluations(r, p) ==> !CappableLimit(e.limitId)
  {
  }

  lemma LossLimits(r: RiskRequest, p: RiskPolicy)
    ensures forall e :: e in LossEvaluations(r, p) ==> !CappableLimit(e.limitId)
  {
  }

  lemma MarketLimits(r: RiskRequest, p: RiskPolicy)
    ensures forall e :: e in MarketEvaluations(r, p) ==> !CappableLimit(e.limitId)
  {
  }

  lemma UnsizedIsNotCappable(r: RiskRequest, p: RiskPolicy)
    ensures forall e :: e in UnsizedEvaluations(r, p) ==> !CappableLimit(e.limitId)
  {
    StateLimits(r, p);
    LossLimits(r, p);
    MarketLimits(r, p);
    OperationalLimits(r, p);
  }

  /** Where a sized limit stands at a notional: its id, what is already used, and both thresholds. */
  datatype Room = Room(limit: LimitId, used: real, soft: real, hard: real)

  function Rooms(r: RiskRequest, p: RiskPolicy): seq<Room> {
    [Room(MaxNotional, 0.0, p.paperNav * p.orderNotionalSoftPct, OrderNotionalHard(r, p)),
     Room(InstrumentExposure, r.instrumentExposure, p.paperNav * p.instrumentSoftPct, InstrumentHard(r, p)),
     Room(StrategyExposure, r.strategyExposure, p.paperNav * p.strategySoftPct, StrategyHard(r, p)),
     Room(TotalSpotExposure, r.totalExposure, p.paperNav * p.totalSoftPct, TotalHard(r, p))]
  }

  function RoomEvaluation(m: Room, n: real): Evaluation {
    Threshold(m.limit, m.used + n, m.soft, m.hard)
  }

  /** A buy of notional n leaves at least the cash floor. */
  predicate KeepsCash(r: RiskRequest, p: RiskPolicy, n: real) {
    r.currentCash - n >= CashFloor(r, p)
  }

  lemma SizedByNotional(r: RiskRequest, p: RiskPolicy)
    requires r.intent.side == Buy
    ensures var es, rooms, n := SizedEvaluations(r, p), Rooms(r, p), Notional(r);
      && |es| == |rooms| == 4
      && (forall k :: 0 <= k < 3 ==> es[k] == RoomEvaluation(rooms[k], n))
      && (KeepsCash(r, p, n) ==> es[3] == RoomEvaluation(rooms[3], n))
      && (!KeepsCash(r, p, n) ==> es[3].status == HardBreach)
  {
  }

  lemma RoomsIgnoreSize(r: RiskRequest, p: RiskPolicy, q: PositiveDecimal)
    requires r.intent.side == Buy
    ensures Rooms(WithQuantity(r, q), p) == Rooms(r, p)
    ensures CashFloor(WithQuantity(r, q), p) == CashFloor(r, p)
  {
    hide ViewMetadata, UnsizedEvaluations, NavLimit;
    SizeReachesOnlySizedLimits(r, p, q);
  }

  // ------------------------------------------------------------ participation, by notional

  lemma ShareExceeds(n: real, metric: PositiveDecimal, pct: real)
    ensures n / metric > pct <==> n > metric * pct
  {
    assert n == (n / metric) * metric;
    if n / metric > pct {
      assert (n / metric) * metric > pct * metric;
    } else {
      assert (n / metric) * metric <= pct * metric;
    }
  }

  predicate Within(n: real, metric: Option<PositiveDecimal>, pct: real) {
    metric.Some? ==> n <= metric.value * pct
  }

  predicate FitsParticipation(r: RiskRequest, p: RiskPolicy, n: real) {
    Within(n, r.liquidityRisk.quoteVolume24h, p.volumeSoftPct)
      && Within(n, r.liquidityRisk.topOfBookDepth, p.depthSoftPct)
  }

  predicate FitsParticipationHard(r: RiskRequest, p: RiskPolicy, n: real) {
    Within(n, r.liquidityRisk.quoteVolume24h, p.volumeHardPct)
      && Within(n, r.liquidityRisk.topOfBookDepth, p.depthHardPct)
  }

  predicate DepthMissing(r: RiskRequest) {
    r.liquidityRisk.depthMetricRequired && r.liquidityRisk.topOfBookDepth.None?
  }

  /** The notional the first soft-breached metric allows: 24h volume is looked at before depth. */
  function ParticipationCap(r: RiskRequest, p: RiskPolicy, n: real): real
    requires !FitsParticipation(r, p, n)
  {
    if !Within(n, r.liquidityRisk.quoteVolume24h, p.volumeSoftPct)
      then r.liquidityRisk.quoteVolume24h.value * p.volumeSoftPct
    else r.liquidityRisk.topOfBookDepth.value * p.depthSoftPct
  }

  lemma CheckMeaning(n: real, metric: Option<PositiveDecimal>, soft: real, hard: real)
    ensures forall c :: c in CheckAgainst(n, metric, soft, hard) ==>
      && metric.Some? && c.softCap == metric.value * soft
      && (SoftExceeded(c) <==> !Within(n, metric, soft)) && (HardExceeded(c) <==> !Within(n, metric, hard))
    ensures metric.Some? ==> CheckAgainst(n, metric, soft, hard) != []
  {
    if metric.Some? {
      ShareExceeds(n, metric.value, soft);
      ShareExceeds(n, metric.value, hard);
    }
  }

  lemma ParticipationByNotional(r: RiskRequest, p: RiskPolicy)
    ensures var e, n := ParticipationEvaluation(r, p), Notional(r);
      && e.limitId == Participation
      && (e.status == HardBreach <==> DepthMissing(r) || !FitsParticipationHard(r, p, n))
      && (e.status == SoftBreach <==> !DepthMissing(r) && FitsParticipationHard(r, p, n) && !FitsParticipation(r, p, n))
      && (e.status == SoftBreach ==> e.cappedValue == Some(ParticipationCap(r, p, n)))
  {
    hide PolicyFields.Consistent;
    var n := Notional(r);
    var volume := CheckAgainst(n, r.liquidityRisk.quoteVolume24h, p.volumeSoftPct, p.volumeHardPct);
    var depth := CheckAgainst(n, r.liquidityRisk.topOfBookDepth, p.depthSoftPct, p.depthHardPct);
    CheckMeaning(n, r.liquidityRisk.quoteVolume24h, p.volumeSoftPct, p.volumeHardPct);
    CheckMeaning(n, r.liquidityRisk.topOfBookDepth, p.depthSoftPct, p.depthHardPct);
    var checks := ParticipationChecks(r, p);
    assert checks == volume + depth;
    assert forall c :: c in checks <==> c in volume || c in depth;
    assert volume != [] ==> volume[0] in checks;
    assert depth != [] ==> depth[0] in checks;
    assert volume != [] ==> volume[0] in volume;
    FirstMatchOfConcat(volume, depth, SoftExceeded);
    var first := FirstMatch(checks, SoftExceeded);
    if first.Some? {
      assert first == FirstMatch(volume, SoftExceeded) || first == FirstMatch(depth, SoftExceeded);
      assert first.value.softCap == ParticipationCap(r, p, n);
    }
  }

  // ------------------------------------------------------------ the evidence on a buy, reduced to notionals

  /** The evidence on a buy of notional n, sorted by what each evaluation reads. */
  datatype BuyEvidence = BuyEvidence(
    all: seq<Evaluation>, unsized: seq<Evaluation>, sized: seq<Evaluation>, part: Evaluation, idem: Evaluation,
    rooms: seq<Room>, n: real, keepsCash: bool, partFitsHard: bool, partFits: bool, partCap: real, collides: bool)
  {
    /** rooms are the four sized limits, used up by the exposures of r. */
    predicate RoomsMatch(r: RiskRequest) {
      && |rooms| == 4
      && rooms[0].limit == MaxNotional && rooms[0].used == 0.0
      && rooms[1].limit == InstrumentExposure && rooms[1].used == r.instrumentExposure
      && rooms[2].limit == StrategyExposure && rooms[2].used == r.strategyExposure
      && rooms[3].limit == TotalSpotExposure && rooms[3].used == r.totalExposure
    }

    predicate SizedMatch() {
      && |sized| == |rooms| == 4
      && (forall k :: 0 <= k < 3 ==> sized[k] == RoomEvaluation(rooms[k], n))
      && (keepsCash ==> sized[3] == RoomEvaluation(rooms[3], n))
      && (!keepsCash ==> sized[3].status == HardBreach)
    }

    predicate PartMatch() {
      && part.limitId == Participation
      && part.status == (if !partFitsHard then HardBreach else if partFits then Pass else SoftBreach)
      && (part.status == SoftBreach ==> part.cappedValue == Some(partCap) && partCap < n)
    }

    ghost predicate Valid(r: RiskRequest) {
      && (forall e :: e in all <==> e in unsized || e in sized || e == part || e == idem)
      && (forall e :: e in unsized ==> !CappableLimit(e.limitId))
      && RoomsMatch(r) && SizedMatch() && PartMatch()
      && idem.status == (if collides then HardBreach else Pass)
    }

    predicate UnsizedPass() {
      forall e :: e in unsized ==> e.status == Pass
    }

    predicate UnsizedHard() {
      exists e :: e in unsized && e.status == HardBreach
    }

    /** Notional x fits under every hard sized limit. */
    predicate HardRooms(x: real) {
      forall m :: m in rooms ==> m.used + x <= m.hard
    }

    /** Notional x fits under every soft sized limit. */
    predicate SoftRooms(x: real) {
      forall m :: m in rooms ==> m.used + x <= m.soft
    }

    predicate NoHard() {
      !UnsizedHard() && keepsCash && HardRooms(n) && partFitsHard && !collides
    }

    lemma SizedAt(k: nat)
      requires SizedMatch() && k < 4
      ensures sized[k] in sized && rooms[k] in rooms
      ensures k < 3 || keepsCash ==> sized[k] == RoomEvaluation(rooms[k], n)
    {
      if k == 3 {
      } else {
        assert 0 <= k < 3;
      }
    }

    lemma SizedHard()
      requires SizedMatch()
      ensures (exists e :: e in sized && e.status == HardBreach) <==> !(keepsCash && HardRooms(n))
    {
      if keepsCash && HardRooms(n) {
        forall e | e in sized ensures e.status != HardBreach {
          var k :| 0 <= k < 4 && sized[k] == e;
          SizedAt(k);
        }
      } else if !keepsCash {
        SizedAt(3);
      } else {
        var m :| m in rooms && m.used + n > m.hard;
        var k :| 0 <= k < 4 && rooms[k] == m;
        SizedAt(k);
      }
    }

    /** The hard side, limit by limit. */
    lemma HardMeaning(r: RiskRequest)
      requires Valid(r)
      ensures !HasHardBreach(all) <==> NoHard()
    {
      SizedHard();
      assert part in all && idem in all;
      if !NoHard() {
        assert HasHardBreach(all);
      }
    }

    /** Each sized limit is softly breached exactly when the notional exceeds its room, and allows that room. */
    lemma SizedSoft(r: RiskRequest, k: nat)
      requires Valid(r) && NoHard() && k < 4
      ensures rooms[k] in rooms && sized[k] in all
      ensures sized[k].status == if rooms[k].used + n > rooms[k].soft then SoftBreach else Pass
      ensures sized[k].status == SoftBreach ==> AllowedIncrement(r, sized[k]) == Some(rooms[k].soft - rooms[k].used)
    {
      SizedAt(k);
      hide AllowedIncrement;
      RoomCap(r, rooms, k, n);
    }

    static lemma RoomCap(r: RiskRequest, rooms: seq<Room>, k: nat, n: real)
      requires k < |rooms| == 4
      requires rooms[0].limit == MaxNotional && rooms[0].used == 0.0
      requires rooms[1].limit == InstrumentExposure && rooms[1].used == r.instrumentExposure
      requires rooms[2].limit == StrategyExposure && rooms[2].used == r.strategyExposure
      requires rooms[3].limit == TotalSpotExposure && rooms[3].used == r.totalExposure
      ensures var e := RoomEvaluation(rooms[k], n);
        e.status == SoftBreach ==> AllowedIncrement(r, e) == Some(rooms[k].soft - rooms[k].used)
    {
      if k == 0 {
      } else if k == 1 {
      } else if k == 2 {
      } else {
        assert k == 3;
      }
    }

    /** A soft breach either cannot be capped, or allows less than the order. */
    lemma SoftCap(r: RiskRequest, e: Evaluation)
      requires Valid(r) && NoHard() && e in all && e.status == SoftBreach
      ensures AllowedIncrement(r, e).Some? <==> e !in unsized
      ensures AllowedIncrement(r, e).Some? ==> AllowedIncrement(r, e).value < n
    {
      if e in sized {
        var k :| 0 <= k < 4 && sized[k] == e;
        SizedSoft(r, k);
      }
    }

    lemma NothingSoft(r: RiskRequest, e: Evaluation)
      requires Valid(r) && NoHard() && UnsizedPass() && SoftRooms(n) && partFits && e in all
      ensures e.status == Pass
    {
      if e in sized {
        var k :| 0 <= k < 4 && sized[k] == e;
        SizedSoft(r, k);
      }
    }

    lemma ExceededRoomIsSoft(r: RiskRequest, m: Room)
      requires Valid(r) && NoHard() && m in rooms && m.used + n > m.soft
      ensures exists e :: e in all && e.status == SoftBreach
    {
      var k :| 0 <= k < 4 && rooms[k] == m;
      SizedSoft(r, k);
      assert sized[k] in all;
    }

    /** Without a hard breach, no soft breach means every unsized limit passes and the notional fits every soft
      * limit. */
    lemma SoftMeaning(r: RiskRequest)
      requires Valid(r) && NoHard()
      ensures SoftBreaches(all) == [] <==> UnsizedPass() && SoftRooms(n) && partFits
    {
      hide AllowedIncrement, SoftBreaches, RoomEvaluation;
      var softs := SoftBreaches(all);
      assert softs != [] ==> softs[0] in softs;
      if UnsizedPass() && SoftRooms(n) && partFits {
        forall e | e in all ensures e.status == Pass {
          NothingSoft(r, e);
        }
      } else if m :| m in rooms && m.used + n > m.soft {
        ExceededRoomIsSoft(r, m);
      } else if e :| e in unsized && e.status != Pass {
        assert e in softs;
      } else {
        assert part in all && part in softs;
      }
    }

    lemma CappableMeaning(r: RiskRequest)
      requires Valid(r) && NoHard()
      ensures AllCappable(r, SoftBreaches(all)) <==> UnsizedPass()
    {
      hide SoftBreaches, AllowedIncrement;
      var softs := SoftBreaches(all);
      UnsizedAmongSoft(r);
      hide BuyEvidence.Valid, BuyEvidence.NoHard;
      forall e | e in softs ensures AllowedIncrement(r, e).Some? <==> e !in unsized {
        SoftCap(r, e);
      }
    }

    lemma UnsizedAmongSoft(r: RiskRequest)
      requires Valid(r) && NoHard()
      ensures UnsizedPass() <==> forall e :: e in SoftBreaches(all) ==> e !in unsized
    {
      hide SoftBreaches, BuyEvidence.RoomsMatch, BuyEvidence.SizedMatch, BuyEvidence.PartMatch;
      forall e | e in unsized ensures e in SoftBreaches(all) <==> e.status != Pass {
      }
    }

    /** The tightest cap fits every soft limit. */
    lemma TightestCapFits(r: RiskRequest)
      requires Valid(r) && NoHard() && SoftBreaches(all) != [] && AllCappable(r, SoftBreaches(all))
      ensures var x := TightestCap(r, SoftBreaches(all)); x < n && SoftRooms(x) && (!partFits ==> x <= partCap)
    {
      hide SoftBreaches, AllowedIncrement, RoomEvaluation;
      var softs := SoftBreaches(all);
      var x := TightestCap(r, softs);
      assert softs[0] in softs;
      SoftCap(r, softs[0]);
      forall m | m in rooms ensures m.used + x <= m.soft {
        if m.used + n > m.soft {
          var e := ExceededRoomCap(r, m);
          assert e in softs;
        }
      }
      if !partFits {
        PartCap(r);
        assert part in softs;
      }
    }

    /** The breach of an exceeded room allows what the room leaves. */
    lemma ExceededRoomCap(r: RiskRequest, m: Room) returns (e: Evaluation)
      requires Valid(r) && NoHard() && m in rooms && m.used + n > m.soft
      ensures e in all && e.status == SoftBreach && AllowedIncrement(r, e) == Some(m.soft - m.used)
    {
      hide AllowedIncrement, BuyEvidence.NoHard, BuyEvidence.PartMatch, RoomEvaluation;
      var k :| 0 <= k < 4 && rooms[k] == m;
      SizedSoft(r, k);
      e := sized[k];
    }

    lemma PartCap(r: RiskRequest)
      requires Valid(r) && NoHard() && !partFits
      ensures part in all && part.status == SoftBreach && AllowedIncrement(r, part) == Some(partCap)
    {
    }

    /** A cap is the room of a breached limit, or the participation cap. */
    lemma CapOfBreach(r: RiskRequest, e: Evaluation, x: real)
      requires Valid(r) && NoHard() && e in all && e.status == SoftBreach && AllowedIncrement(r, e) == Some(x)
      ensures (exists m :: m in rooms && m.used + n > m.soft && x == m.soft - m.used) || (!partFits && x == partCap)
    {
      SoftCap(r, e);
      if e in sized {
        var k :| 0 <= k < 4 && sized[k] == e;
        SizedSoft(r, k);
        assert rooms[k] in rooms && x == rooms[k].soft - rooms[k].used;
      }
    }

    /** The tightest cap is the room of a breached limit, so nothing larger fits that one. */
    lemma TightestCapIsAttained(r: RiskRequest)
      requires Valid(r) && NoHard() && SoftBreaches(all) != [] && AllCappable(r, SoftBreaches(all))
      ensures var x := TightestCap(r, SoftBreaches(all));
        (exists m :: m in rooms && m.used + n > m.soft && x == m.soft - m.used) || (!partFits && x == partCap)
    {
      hide SoftBreaches, BuyEvidence.Valid, BuyEvidence.NoHard, AllowedIncrement;
      var softs := SoftBreaches(all);
      var x := TightestCap(r, softs);
      var e :| e in softs && AllowedIncrement(r, e) == Some(x);
      CapOfBreach(r, e, x);
    }

    /** What the tightest cap fits, and that nothing larger does. */
    lemma TightestCapMeaning(r: RiskRequest)
      requires Valid(r) && NoHard() && UnsizedPass() && SoftBreaches(all) != []
      ensures AllCappable(r, SoftBreaches(all))
      ensures var x := TightestCap(r, SoftBreaches(all));
        && x < n && SoftRooms(x) && (!partFits ==> x <= partCap)
        && ((exists m :: m in rooms && m.used + n > m.soft && x == m.soft - m.used) || (!partFits && x == partCap))
    {
      CappableMeaning(r);
      TightestCapFits(r);
      TightestCapIsAttained(r);
    }

    /** Every breach is soft and cappable, and x is the tightest cap: positive and below the order. */
    ghost predicate CappedAt(r: RiskRequest, x: real) {
      && NoHard() && UnsizedPass()
      && SoftBreaches(all) != [] && AllCappable(r, SoftBreaches(all))
      && x == TightestCap(r, SoftBreaches(all)) && 0.0 < x < n
    }
  }

  /** The evidence of a request on a buy. */
  ghost function EvidenceOf(r: RiskRequest, p: RiskPolicy): BuyEvidence {
    var n := Notional(r);
    BuyEvidence(
      Evaluations(r, p), UnsizedEvaluations(r, p), SizedEvaluations(r, p), ParticipationEvaluation(r, p),
      IdempotencyEvaluation(r), Rooms(r, p), n, KeepsCash(r, p, n),
      !DepthMissing(r) && FitsParticipationHard(r, p, n), FitsParticipation(r, p, n),
      if FitsParticipation(r, p, n) then 0.0 else ParticipationCap(r, p, n), Collided(r))
  }

  predicate Collided(r: RiskRequest) {
    exists record :: record in r.idempotencyRecords && Collides(r, record)
  }

  lemma ParticipationCapIsBelow(r: RiskRequest, p: RiskPolicy, n: real)
    requires !FitsParticipation(r, p, n)
    ensures ParticipationCap(r, p, n) < n
  {
  }

  lemma KindsMatch(r: RiskRequest, p: RiskPolicy)
    ensures var v := EvidenceOf(r, p);
      && (forall e :: e in v.all <==> e in v.unsized || e in v.sized || e == v.part || e == v.idem)
      && (forall e :: e in v.unsized ==> !CappableLimit(e.limitId))
  {
    EvaluationsByKind(r, p);
    UnsizedIsNotCappable(r, p);
  }

  lemma SizesMatch(r: RiskRequest, p: RiskPolicy)
    requires r.intent.side == Buy
    ensures EvidenceOf(r, p).SizedMatch() && EvidenceOf(r, p).RoomsMatch(r)
  {
    SizedByNotional(r, p);
  }

  lemma SharesMatch(r: RiskRequest, p: RiskPolicy)
    ensures EvidenceOf(r, p).PartMatch()
  {
    hide Evaluations, UnsizedEvaluations, SizedEvaluations, ParticipationEvaluation, IdempotencyEvaluation, Rooms,
      Notional;
    ParticipationByNotional(r, p);
    if !FitsParticipation(r, p, Notional(r)) {
      ParticipationCapIsBelow(r, p, Notional(r));
    }
  }

  lemma EvidenceIsValid(r: RiskRequest, p: RiskPolicy)
    requires r.intent.side == Buy
    ensures EvidenceOf(r, p).Valid(r)
  {
    KindsMatch(r, p);
    SizesMatch(r, p);
    SharesMatch(r, p);
  }

  // ------------------------------------------------------------ decisions on abstract evidence

  /** What the engine decides on a buy, from its evidence alone. */
  function Outcome(r: RiskRequest, es: seq<Evaluation>): (DecisionStatus, Option<OrderIntent>) {
    if HasHardBreach(es) then (Rejected, None) else CappedApproval(r, es)
  }

  lemma OutcomeOfBuy(r: RiskRequest, p: RiskPolicy)
    requires r.intent.side == Buy
    ensures var event := RiskCheck(r, p);
      (event.decision, event.approvedIntent) == Outcome(r, Evaluations(r, p)) && event.evaluations == Evaluations(r, p)
  {
  }

  predicate AllPass(es: seq<Evaluation>) {
    forall e :: e in es ==> e.status == Pass
  }

  lemma AllPassIffNoBreach(es: seq<Evaluation>)
    ensures AllPass(es) <==> !HasHardBreach(es) && SoftBreaches(es) == []
  {
    var softs := SoftBreaches(es);
    assert softs != [] ==> softs[0] in softs;
    if !HasHardBreach(es) && softs == [] {
      forall e | e in es ensures e.status == Pass {
        assert e !in softs;
      }
    }
  }

  lemma PositiveQuotient(a: real, b: PositiveDecimal)
    requires a > 0.0
    ensures a / b > 0.0 && (a / b) * b == a
  {
  }

  /** Every soft breach can be capped to a positive notional. */
  predicate PositiveCaps(r: RiskRequest, softs: seq<Evaluation>) {
    forall e :: e in softs ==> AllowedIncrement(r, e).Some? && AllowedIncrement(r, e).value > 0.0
  }

  lemma CapIsPositive(r: RiskRequest, softs: seq<Evaluation>)
    requires softs != []
    ensures PositiveCaps(r, softs) <==> AllCappable(r, softs) && TightestCap(r, softs) > 0.0
  {
  }

  lemma DecisionWithoutBreach(r: RiskRequest, v: BuyEvidence)
    requires v.Valid(r) && v.NoHard() && SoftBreaches(v.all) == []
    ensures AllPass(v.all) && Outcome(r, v.all) == (Approved, Some(r.intent))
  {
    v.HardMeaning(r);
    AllPassIffNoBreach(v.all);
  }

  /** The same order at the quantity that costs x at the reference price. */
  predicate ShrunkTo(r: RiskRequest, intent: OrderIntent, x: real) {
    intent == r.intent.(quantity := intent.quantity) && Notional(r.(intent := intent)) == x
  }

  lemma ShrinkBelowOrder(r: RiskRequest, allowed: real)
    requires allowed < Notional(r)
    ensures var (decision, approved) := ShrinkTo(r, allowed);
      if allowed > 0.0 then decision == ApprovedAfterCap && approved.Some? && ShrunkTo(r, approved.value, allowed)
      else decision == NoTrade && approved == None
  {
    if allowed > 0.0 {
      PositiveQuotient(allowed, r.referencePrice);
    }
  }

  /** The capping rule once the cap is known to be below the order. */
  lemma ApprovalBelowOrder(r: RiskRequest, es: seq<Evaluation>)
    requires SoftBreaches(es) != []
    requires AllCappable(r, SoftBreaches(es)) ==> TightestCap(r, SoftBreaches(es)) < Notional(r)
    ensures var softs := SoftBreaches(es); var (decision, approved) := CappedApproval(r, es);
      if AllCappable(r, softs) && TightestCap(r, softs) > 0.0 then
        decision == ApprovedAfterCap && approved.Some? && ShrunkTo(r, approved.value, TightestCap(r, softs))
      else
        decision == NoTrade && approved == None
  {
    if AllCappable(r, SoftBreaches(es)) {
      ShrinkBelowOrder(r, TightestCap(r, SoftBreaches(es)));
    }
  }

  /** The capped decision; the branch that keeps the original order is never taken. */
  lemma DecisionWithBreach(r: RiskRequest, v: BuyEvidence)
    requires v.Valid(r) && v.NoHard() && v.n == Notional(r) && SoftBreaches(v.all) != []
    ensures var softs := SoftBreaches(v.all);
      && !AllPass(v.all) && !HasHardBreach(v.all)
      && Outcome(r, v.all) == CappedApproval(r, v.all)
      && (AllCappable(r, softs) <==> v.UnsizedPass())
      && (AllCappable(r, softs) ==> TightestCap(r, softs) < Notional(r))
  {
    v.HardMeaning(r);
    AllPassIffNoBreach(v.all);
    v.CappableMeaning(r);
    if AllCappable(r, SoftBreaches(v.all)) {
      CapIsBelowOrder(r, v);
    }
  }

  lemma CapIsBelowOrder(r: RiskRequest, v: BuyEvidence)
    requires v.Valid(r) && v.NoHard() && SoftBreaches(v.all) != [] && AllCappable(r, SoftBreaches(v.all))
    ensures TightestCap(r, SoftBreaches(v.all)) < v.n
  {
    v.CappableMeaning(r);
    v.TightestCapMeaning(r);
  }

  // ------------------------------------------------------------ main results

  /** A buy is approved unchanged exactly when every limit passes, rejected exactly on a hard breach, and capped exactly
    * when every breach is soft, cappable, and leaves a positive notional; everything else is no trade. */
  lemma BuyDecisionTable(r: RiskRequest, p: RiskPolicy)
    requires r.intent.side == Buy
    ensures var event := RiskCheck(r, p); var es, softs := event.evaluations, SoftBreaches(event.evaluations);
      && (event.decision == Rejected <==> HasHardBreach(es))
      && (event.decision == Approved <==> AllPass(es))
      && (event.decision == ApprovedAfterCap <==> !HasHardBreach(es) && softs != [] && PositiveCaps(r, softs))
      && (event.approvedIntent.Some? <==> event.decision == Approved || event.decision == ApprovedAfterCap)
      && (event.decision == Approved ==> event.approvedIntent == Some(r.intent))
  {
    hide Evaluations, UnsizedEvaluations, SizedEvaluations, ParticipationEvaluation, IdempotencyEvaluation, Rooms,
      BuildOrderEffect, Notional;
    hide BuyEvidence.Valid, BuyEvidence.CappedAt;
    OutcomeOfBuy(r, p);
    EvidenceIsValid(r, p);
    BuyOutcomeTable(r, EvidenceOf(r, p));
  }

  lemma BuyOutcomeTable(r: RiskRequest, v: BuyEvidence)
    requires v.Valid(r) && v.n == Notional(r)
    ensures var softs := SoftBreaches(v.all); var (decision, approved) := Outcome(r, v.all);
      && (decision == Rejected <==> HasHardBreach(v.all))
      && (decision == Approved <==> AllPass(v.all))
      && (decision == ApprovedAfterCap <==> !HasHardBreach(v.all) && softs != [] && PositiveCaps(r, softs))
      && (approved.Some? <==> decision == Approved || decision == ApprovedAfterCap)
      && (decision == Approved ==> approved == Some(r.intent))
  {
    v.HardMeaning(r);
    AllPassIffNoBreach(v.all);
    if v.NoHard() {
      if SoftBreaches(v.all) == [] {
        DecisionWithoutBreach(r, v);
      } else {
        DecisionWithBreach(r, v);
        ApprovalBelowOrder(r, v.all);
        CapIsPositive(r, SoftBreaches(v.all));
      }
    }
  }

  lemma OnlyBuysAreCapped(r: RiskRequest, p: RiskPolicy)
    requires RiskCheck(r, p).decision == ApprovedAfterCap
    ensures r.intent.side == Buy
  {
  }

  /** The evidence behind a capped order. */
  lemma CapFacts(r: RiskRequest, p: RiskPolicy, v: BuyEvidence)
    requires RiskCheck(r, p).decision == ApprovedAfterCap && v == EvidenceOf(r, p)
    ensures r.intent.side == Buy && v.Valid(r) && v.n == Notional(r)
    ensures v.CappedAt(r, TightestCap(r, SoftBreaches(v.all)))
    ensures var approved := RiskCheck(r, p).approvedIntent;
      approved.Some? && ShrunkTo(r, approved.value, TightestCap(r, SoftBreaches(v.all)))
  {
    hide Evaluations, UnsizedEvaluations, SizedEvaluations, ParticipationEvaluation, IdempotencyEvaluation, Rooms,
      BuildOrderEffect, Notional;
    hide BuyEvidence.Valid, BuyEvidence.CappedAt;
    OnlyBuysAreCapped(r, p);
    OutcomeOfBuy(r, p);
    EvidenceIsValid(r, p);
    CapFactsOfEvidence(r, v);
  }

  lemma CapFactsOfEvidence(r: RiskRequest, v: BuyEvidence)
    requires v.Valid(r) && v.n == Notional(r)
    requires Outcome(r, v.all).0 == ApprovedAfterCap
    ensures v.CappedAt(r, TightestCap(r, SoftBreaches(v.all)))
    ensures var approved := Outcome(r, v.all).1;
      approved.Some? && ShrunkTo(r, approved.value, TightestCap(r, SoftBreaches(v.all)))
  {
    v.HardMeaning(r);
    if SoftBreaches(v.all) == [] {
      DecisionWithoutBreach(r, v);
    } else {
      DecisionWithBreach(r, v);
      ApprovalBelowOrder(r, v.all);
    }
  }

  /** A capped order is the original buy at a strictly smaller, positive quantity. */
  lemma CappedOrderIsSmaller(r: RiskRequest, p: RiskPolicy)
    requires RiskCheck(r, p).decision == ApprovedAfterCap
    ensures r.intent.side == Buy && RiskCheck(r, p).approvedIntent.Some?
    ensures var approved := RiskCheck(r, p).approvedIntent.value;
      approved == r.intent.(quantity := approved.quantity) && 0.0 < approved.quantity < r.intent.quantity
  {
    var v := EvidenceOf(r, p);
    CapFacts(r, p, v);
    var approved := RiskCheck(r, p).approvedIntent.value;
    ShrunkIsSmaller(r, approved, TightestCap(r, SoftBreaches(v.all)));
  }

  lemma ShrunkIsSmaller(r: RiskRequest, intent: OrderIntent, x: real)
    requires ShrunkTo(r, intent, x) && x < Notional(r)
    ensures intent.quantity < r.intent.quantity
  {
    SmallerFactor(intent.quantity, r.intent.quantity, r.referencePrice);
  }

  lemma SmallerFactor(a: real, b: real, price: PositiveDecimal)
    ensures a * price < b * price <==> a < b
  {
    var d := b - a;
    assert b * price == a * price + d * price;
    if d > 0.0 {
      assert d * price > 0.0;
    } else {
      assert -d * price >= 0.0;
    }
  }

  // ------------------------------------------------------------ checking the capped order again

  /** The evidence v' of the same buy shrunk to notional x. */
  ghost predicate ShrunkEvidence(v: BuyEvidence, v': BuyEvidence, x: real) {
    && v'.n == x <= v.n && v'.unsized == v.unsized && v'.rooms == v.rooms
    && (v.keepsCash ==> v'.keepsCash) && (v.partFitsHard ==> v'.partFitsHard)
  }

  /** An unresolved record already carries the content hash of an intent. */
  predicate ReusesHash(r: RiskRequest, intent: OrderIntent) {
    exists record :: record in r.idempotencyRecords && record.state.IsUnresolved()
      && record.orderIntentHash == IntentHash(intent)
  }

  lemma CollisionOfResized(r: RiskRequest, q: PositiveDecimal)
    requires !Collided(r)
    ensures Collided(WithQuantity(r, q)) <==> ReusesHash(r, r.intent.(quantity := q))
  {
    var r' := WithQuantity(r, q);
    forall record | record in r.idempotencyRecords
      ensures Collides(r', record) <==>
        record.state.IsUnresolved() && record.orderIntentHash == IntentHash(r'.intent)
    {
      assert !Collides(r, record);
    }
  }

  lemma SmallerFitsHard(r: RiskRequest, p: RiskPolicy, n: real, x: real)
    requires x <= n
    ensures FitsParticipationHard(r, p, n) ==> FitsParticipationHard(r, p, x)
    ensures FitsParticipation(r, p, n) ==> FitsParticipation(r, p, x)
  {
  }

  lemma ResizedNotional(r: RiskRequest, q: PositiveDecimal)
    requires q <= r.intent.quantity
    ensures Notional(WithQuantity(r, q)) <= Notional(r)
  {
    NotionalShrinks(q, r.intent.quantity, r.referencePrice);
  }

  lemma ResizedCash(r: RiskRequest, p: RiskPolicy, q: PositiveDecimal, n: real, x: real)
    requires r.intent.side == Buy && x <= n
    ensures KeepsCash(r, p, n) ==> KeepsCash(WithQuantity(r, q), p, x)
  {
    RoomsIgnoreSize(r, p, q);
  }

  lemma ResizedShares(r: RiskRequest, p: RiskPolicy, q: PositiveDecimal, n: real, x: real)
    requires x <= n
    ensures var r' := WithQuantity(r, q);
      && DepthMissing(r') == DepthMissing(r)
      && (FitsParticipationHard(r, p, n) ==> FitsParticipationHard(r', p, x))
      && FitsParticipation(r', p, x) == FitsParticipation(r, p, x)
      && (!FitsParticipation(r, p, x) ==> ParticipationCap(r', p, x) == ParticipationCap(r, p, x))
  {
    SmallerFitsHard(r, p, n, x);
  }

  lemma ResizedEvidence(r: RiskRequest, p: RiskPolicy, q: PositiveDecimal, v: BuyEvidence, v': BuyEvidence)
    requires r.intent.side == Buy && q <= r.intent.quantity
    requires v == EvidenceOf(r, p) && v' == EvidenceOf(WithQuantity(r, q), p)
    ensures v'.Valid(WithQuantity(r, q)) && ShrunkEvidence(v, v', Notional(WithQuantity(r, q)))
    ensures v'.partFits == FitsParticipation(r, p, Notional(WithQuantity(r, q)))
    ensures !v'.partFits ==> v'.partCap == ParticipationCap(r, p, Notional(WithQuantity(r, q)))
    ensures v'.collides == Collided(WithQuantity(r, q))
  {
    hide Evaluations, UnsizedEvaluations, SizedEvaluations, ParticipationEvaluation, IdempotencyEvaluation, Rooms,
      BuildOrderEffect, Notional;
    hide BuyEvidence.Valid;
    EvidenceIsValid(WithQuantity(r, q), p);
    SizeReachesOnlySizedLimits(r, p, q);
    RoomsIgnoreSize(r, p, q);
    ResizedNotional(r, q);
    ResizedCash(r, p, q, Notional(r), Notional(WithQuantity(r, q)));
    ResizedShares(r, p, q, Notional(r), Notional(WithQuantity(r, q)));
  }

  lemma NotionalShrinks(a: real, b: real, price: PositiveDecimal)
    requires a <= b
    ensures a * price <= b * price
  {
  }

  /** What capping leaves for the second check, on evidence alone: nothing hard but a reused hash, nothing soft but
    * participation. */
  lemma CapLeavesOnlyParticipation(r: RiskRequest, v: BuyEvidence, r': RiskRequest, v': BuyEvidence, x: real)
    requires v.Valid(r) && v.CappedAt(r, x) && v'.Valid(r') && ShrunkEvidence(v, v', x)
    ensures v'.NoHard() <==> !v'.collides
    ensures v'.UnsizedPass() && v'.SoftRooms(x)
    ensures v'.NoHard() ==> (SoftBreaches(v'.all) == [] <==> v'.partFits)
    ensures !v.partFits ==> x <= v.partCap
  {
    v.TightestCapMeaning(r);
    assert v'.HardRooms(x);
    if v'.NoHard() {
      v'.SoftMeaning(r');
    }
  }

  /** When only participation is breached, the next cap is exactly the breached metric's own. */
  lemma ParticipationAloneIsCapped(r: RiskRequest, v: BuyEvidence, x: real)
    requires v.Valid(r) && v.NoHard() && v.UnsizedPass() && v.SoftRooms(v.n) && !v.partFits && v.n == Notional(r)
    requires v.partCap > 0.0
    ensures v.CappedAt(r, v.partCap) && Outcome(r, v.all).0 == ApprovedAfterCap
  {
    v.SoftMeaning(r);
    v.TightestCapMeaning(r);
    DecisionWithBreach(r, v);
    ApprovalBelowOrder(r, v.all);
  }

  lemma ParticipationCapIsPositive(r: RiskRequest, p: RiskPolicy, x: real)
    requires !FitsParticipation(r, p, x)
    ensures ParticipationCap(r, p, x) > 0.0
  {
  }

  /** After the first cap only book depth can be exceeded; once that is capped too, participation fits. */
  lemma DepthIsLast(r: RiskRequest, p: RiskPolicy, n: real, x: real)
    requires x <= n && (!FitsParticipation(r, p, n) ==> x <= ParticipationCap(r, p, n))
    ensures Within(x, r.liquidityRisk.quoteVolume24h, p.volumeSoftPct)
    ensures FitsParticipation(r, p, x) <==> Within(x, r.liquidityRisk.topOfBookDepth, p.depthSoftPct)
    ensures r.liquidityRisk.quoteVolume24h.None? ==> FitsParticipation(r, p, x)
    ensures !FitsParticipation(r, p, x) && ParticipationCap(r, p, x) <= x ==>
      FitsParticipation(r, p, ParticipationCap(r, p, x))
  {
  }

  /** The request with its approved order in place of the original. */
  function Recheck(r: RiskRequest, p: RiskPolicy): RiskRequest
    requires RiskCheck(r, p).approvedIntent.Some?
  {
    r.(intent := RiskCheck(r, p).approvedIntent.value)
  }

  /** What the evidence v of a request reports about participation and collisions. */
  predicate Reports(v: BuyEvidence, r: RiskRequest, p: RiskPolicy) {
    && v.n == Notional(r)
    && v.partFits == FitsParticipation(r, p, v.n)
    && (!v.partFits ==> v.partCap == ParticipationCap(r, p, v.n))
    && v.collides == Collided(r)
  }

  lemma EvidenceReports(r: RiskRequest, p: RiskPolicy)
    ensures Reports(EvidenceOf(r, p), r, p)
  {
  }

  /** x is at most what v still allows on participation. */
  lemma CapRespectsParticipation(r: RiskRequest, v: BuyEvidence, x: real)
    requires v.Valid(r) && v.CappedAt(r, x)
    ensures x <= v.n && !v.collides && (!v.partFits ==> x <= v.partCap)
  {
    v.TightestCapMeaning(r);
  }

  /** What the second look finds on participation, from the first look's report. */
  lemma DepthAtSecondLook(r: RiskRequest, p: RiskPolicy, v: BuyEvidence, v': BuyEvidence)
    requires Reports(v, r, p) && v'.n <= v.n && (!v.partFits ==> v'.n <= v.partCap)
    requires v'.partFits == FitsParticipation(r, p, v'.n)
      && (!v'.partFits ==> v'.partCap == ParticipationCap(r, p, v'.n))
    ensures v'.partFits <==> Within(v'.n, r.liquidityRisk.topOfBookDepth, p.depthSoftPct)
    ensures !v'.partFits ==> v'.partCap > 0.0 && r.liquidityRisk.quoteVolume24h.Some?
    ensures !v'.partFits ==> v'.partCap == r.liquidityRisk.topOfBookDepth.value * p.depthSoftPct
  {
    DepthIsLast(r, p, v.n, v'.n);
    if !v'.partFits {
      ParticipationCapIsPositive(r, p, v'.n);
    }
  }

  /** The order that capping hands on, as quantities. */
  lemma CappedQuantity(r: RiskRequest, p: RiskPolicy, q: real)
    requires RiskCheck(r, p).decision == ApprovedAfterCap && RiskCheck(r, p).approvedIntent.Some?
    requires q == RiskCheck(r, p).approvedIntent.value.quantity
    ensures r.intent.side == Buy && 0.0 < q < r.intent.quantity && Recheck(r, p) == WithQuantity(r, q)
  {
    hide Evaluations, UnsizedEvaluations, SizedEvaluations, ParticipationEvaluation, IdempotencyEvaluation, Rooms,
      BuildOrderEffect, Notional;
    hide BuyEvidence.Valid, BuyEvidence.CappedAt;
    CappedOrderIsSmaller(r, p);
  }

  /** The evidence v' of the same request at quantity q, read against the original. */
  ghost predicate Resized(r: RiskRequest, p: RiskPolicy, v: BuyEvidence, q: PositiveDecimal, v': BuyEvidence) {
    && v'.Valid(WithQuantity(r, q)) && ShrunkEvidence(v, v', Notional(WithQuantity(r, q)))
    && v'.partFits == FitsParticipation(r, p, v'.n) && (!v'.partFits ==> v'.partCap == ParticipationCap(r, p, v'.n))
    && v'.collides == Collided(WithQuantity(r, q)) && v'.n == Notional(WithQuantity(r, q))
  }

  /** The evidence at a quantity no larger than the original, and the decision it leads to. */
  lemma LookAt(r: RiskRequest, p: RiskPolicy, v: BuyEvidence, q: PositiveDecimal) returns (v': BuyEvidence)
    requires r.intent.side == Buy && q <= r.intent.quantity && v == EvidenceOf(r, p)
    ensures Resized(r, p, v, q, v') && v' == EvidenceOf(WithQuantity(r, q), p)
  {
    v' := EvidenceOf(WithQuantity(r, q), p);
    ResizedEvidence(r, p, q, v, v');
    EvidenceReports(WithQuantity(r, q), p);
  }

  /** The second look at a capped order, on evidence. */
  lemma SecondLookAt(r: RiskRequest, p: RiskPolicy, q: PositiveDecimal, x: real, v: BuyEvidence, v': BuyEvidence)
    requires v.Valid(r) && v.CappedAt(r, x) && Reports(v, r, p) && x == Notional(WithQuantity(r, q))
    requires Resized(r, p, v, q, v')
    ensures v'.NoHard() <==> !ReusesHash(r, r.intent.(quantity := q))
    ensures v'.UnsizedPass() && v'.SoftRooms(v'.n)
    ensures v'.NoHard() ==> (SoftBreaches(v'.all) == [] <==> v'.partFits)
    ensures v'.n <= v.n && (!v.partFits ==> v'.n <= v.partCap)
  {
    CapRespectsParticipation(r, v, x);
    CapLeavesOnlyParticipation(r, v, WithQuantity(r, q), v', x);
    CollisionOfResized(r, q);
  }

  /** The second look at a capped order. */
  lemma SecondLook(r: RiskRequest, p: RiskPolicy) returns (v': BuyEvidence)
    requires RiskCheck(r, p).decision == ApprovedAfterCap && RiskCheck(r, p).approvedIntent.Some?
    ensures var r' := Recheck(r, p);
      && r'.intent.side == Buy && v' == EvidenceOf(r', p) && v'.Valid(r') && v'.n == Notional(r')
      && (v'.NoHard() <==> !ReusesHash(r, r'.intent))
      && v'.UnsizedPass() && v'.SoftRooms(v'.n)
      && (v'.NoHard() ==> (SoftBreaches(v'.all) == [] <==> v'.partFits))
      && (v'.partFits <==> Within(v'.n, r.liquidityRisk.topOfBookDepth, p.depthSoftPct))
      && (!v'.partFits ==>
        && v'.partCap > 0.0 && r.liquidityRisk.quoteVolume24h.Some?
        && v'.partCap == r.liquidityRisk.topOfBookDepth.value * p.depthSoftPct)
  {
    hide Evaluations, UnsizedEvaluations, SizedEvaluations, ParticipationEvaluation, IdempotencyEvaluation, Rooms,
      BuildOrderEffect, Notional;
    hide BuyEvidence.Valid, BuyEvidence.CappedAt;
    var q := RiskCheck(r, p).approvedIntent.value.quantity;
    var v := EvidenceOf(r, p);
    CappedQuantity(r, p, q);
    CapFacts(r, p, v);
    v' := LookAt(r, p, v, q);
    EvidenceReports(r, p);
    SecondLookAt(r, p, q, TightestCap(r, SoftBreaches(v.all)), v, v');
    DepthAtSecondLook(r, p, v, v');
  }

  /** The least of a bound and the room every size limit leaves. */
  function LeastRoom(rooms: seq<Room>, bound: real): (x: real)
    ensures x <= bound && forall m :: m in rooms ==> x <= m.soft - m.used
    ensures x == bound || exists m :: m in rooms && x == m.soft - m.used
  {
    if rooms == [] then bound else Min(rooms[0].soft - rooms[0].used, LeastRoom(rooms[1..], bound))
  }

  /** The notional a capped order is left with: the least room, or the exceeded share when that is less. */
  function CapNotional(r: RiskRequest, p: RiskPolicy): real {
    var n := Notional(r);
    LeastRoom(Rooms(r, p), if FitsParticipation(r, p, n) then n else ParticipationCap(r, p, n))
  }

  lemma TightestIsLeastRoom(r: RiskRequest, v: BuyEvidence, x: real)
    requires v.Valid(r) && v.CappedAt(r, x)
    ensures x == LeastRoom(v.rooms, if v.partFits then v.n else v.partCap)
  {
    hide BuyEvidence.Valid, BuyEvidence.NoHard, BuyEvidence.UnsizedPass, TightestCap, AllCappable, SoftBreaches;
    v.TightestCapMeaning(r);
    IsLeastRoom(v.rooms, if v.partFits then v.n else v.partCap, x);
  }

  lemma IsLeastRoom(rooms: seq<Room>, bound: real, x: real)
    requires x <= bound && forall m :: m in rooms ==> m.used + x <= m.soft
    requires x == bound || exists m :: m in rooms && x == m.soft - m.used
    ensures x == LeastRoom(rooms, bound)
  {
    hide LeastRoom;
    var least := LeastRoom(rooms, bound);
    assert forall m :: m in rooms ==> x <= m.soft - m.used;
  }

  /** The notional of a capped order, told on the request alone. */
  lemma CappedToCapNotional(r: RiskRequest, p: RiskPolicy)
    requires RiskCheck(r, p).decision == ApprovedAfterCap
    ensures RiskCheck(r, p).approvedIntent.Some? && Notional(Recheck(r, p)) == CapNotional(r, p)
    ensures Recheck(r, p) == WithQuantity(r, Recheck(r, p).intent.quantity)
  {
    hide Evaluations, UnsizedEvaluations, SizedEvaluations, ParticipationEvaluation, IdempotencyEvaluation, Rooms,
      BuildOrderEffect, Notional;
    hide BuyEvidence.Valid, BuyEvidence.CappedAt;
    var v := EvidenceOf(r, p);
    CapFacts(r, p, v);
    EvidenceReports(r, p);
    TightestIsLeastRoom(r, v, TightestCap(r, SoftBreaches(v.all)));
    CappedQuantity(r, p, RiskCheck(r, p).approvedIntent.value.quantity);
  }

  /** An unresolved record carries the hash of the order at this notional. */
  ghost predicate HashTakenAt(r: RiskRequest, n: real) {
    exists record :: record in r.idempotencyRecords && record.state.IsUnresolved()
      && var taken := record.orderIntentHash.content;
        taken == r.intent.(quantity := taken.quantity) && taken.quantity * r.referencePrice == n
  }

  lemma SameNotionalSameQuantity(a: real, b: real, price: PositiveDecimal)
    ensures a * price == b * price <==> a == b
  {
    SmallerFactor(a, b, price);
    SmallerFactor(b, a, price);
  }

  lemma ReusedHashIsTaken(r: RiskRequest, q: PositiveDecimal)
    ensures ReusesHash(r, r.intent.(quantity := q)) <==> HashTakenAt(r, q * r.referencePrice)
  {
    forall record | record in r.idempotencyRecords
      ensures var taken := record.orderIntentHash.content;
        record.orderIntentHash == IntentHash(r.intent.(quantity := q)) <==>
          taken == r.intent.(quantity := taken.quantity) && taken.quantity * r.referencePrice == q * r.referencePrice
    {
      SameNotionalSameQuantity(record.orderIntentHash.content.quantity, q, r.referencePrice);
    }
  }

  lemma CapReusesHashIff(r: RiskRequest, p: RiskPolicy)
    requires RiskCheck(r, p).decision == ApprovedAfterCap && RiskCheck(r, p).approvedIntent.Some?
    ensures ReusesHash(r, RiskCheck(r, p).approvedIntent.value) <==> HashTakenAt(r, CapNotional(r, p))
  {
    hide RiskCheck, CapNotional, ReusesHash, HashTakenAt;
    CappedToCapNotional(r, p);
    var q := RiskCheck(r, p).approvedIntent.value.quantity;
    assert q * r.referencePrice == CapNotional(r, p);
    ReusedHashIsTaken(r, q);
  }

  /** Checked again, a capped order breaches a hard limit exactly when an unresolved record already carries the hash of
    * the order at the capped notional. */
  lemma CapKeepsHardLimits(r: RiskRequest, p: RiskPolicy)
    requires RiskCheck(r, p).decision == ApprovedAfterCap
    ensures RiskCheck(r, p).approvedIntent.Some?
    ensures HasHardBreach(Evaluations(Recheck(r, p), p)) <==> HashTakenAt(r, CapNotional(r, p))
  {
    hide Evaluations, UnsizedEvaluations, SizedEvaluations, ParticipationEvaluation, IdempotencyEvaluation, Rooms,
      BuildOrderEffect, Notional, HashTakenAt;
    hide BuyEvidence.Valid, BuyEvidence.CappedAt;
    CappedToCapNotional(r, p);
    CapReusesHashIff(r, p);
    var v' := SecondLook(r, p);
    v'.HardMeaning(Recheck(r, p));
  }

  /** Checked again under a fresh hash, a capped order is approved unchanged exactly when it fits the book-depth share:
    * the only soft limit one cap can leave breached, because participation reports one metric at a time. */
  lemma OneCapSufficesIffDepthFits(r: RiskRequest, p: RiskPolicy)
    requires RiskCheck(r, p).decision == ApprovedAfterCap && RiskCheck(r, p).approvedIntent.Some?
    requires !ReusesHash(r, RiskCheck(r, p).approvedIntent.value)
    ensures var again := RiskCheck(Recheck(r, p), p);
      if Within(Notional(Recheck(r, p)), r.liquidityRisk.topOfBookDepth, p.depthSoftPct)
      then again.decision == Approved && again.approvedIntent == RiskCheck(r, p).approvedIntent
      else again.decision == ApprovedAfterCap && r.liquidityRisk.quoteVolume24h.Some?
  {
    hide Evaluations, UnsizedEvaluations, SizedEvaluations, ParticipationEvaluation, IdempotencyEvaluation, Rooms,
      BuildOrderEffect, Notional;
    hide BuyEvidence.Valid, BuyEvidence.CappedAt;
    var r' := Recheck(r, p);
    var v' := SecondLook(r, p);
    OutcomeOfBuy(r', p);
    if v'.partFits {
      DecisionWithoutBreach(r', v');
    } else {
      ParticipationAloneIsCapped(r', v', v'.n);
    }
  }

  /** The notional a soft share of a metric allows, when the metric is supplied. */
  function ShareOf(metric: Option<PositiveDecimal>, pct: real): Option<real> {
    if metric.Some? then Some(metric.value * pct) else None
  }

  /** The order exceeds the volume share, the depth share is smaller still, and every size limit leaves more room
    * than it: volume is reported alone, so the first cap leaves depth exceeded. */
  predicate Masks(volume: Option<real>, depth: Option<real>, n: real, rooms: seq<Room>) {
    volume.Some? && depth.Some? && depth.value < volume.value < n && forall m :: m in rooms ==>
      m.soft - m.used > depth.value
  }

  predicate VolumeMasksDepth(r: RiskRequest, p: RiskPolicy) {
    Masks(ShareOf(r.liquidityRisk.quoteVolume24h, p.volumeSoftPct),
      ShareOf(r.liquidityRisk.topOfBookDepth, p.depthSoftPct),
      Notional(r), Rooms(r, p))
  }

  predicate FitsShares(volume: Option<real>, depth: Option<real>, n: real) {
    (volume.Some? ==> n <= volume.value) && (depth.Some? ==> n <= depth.value)
  }

  function FirstShare(volume: Option<real>, depth: Option<real>, n: real): real
    requires !FitsShares(volume, depth, n)
  {
    if volume.Some? && n > volume.value then volume.value else depth.value
  }

  /** Where the tightest cap x of a notional n stands against the depth share. */
  lemma CapAboveDepth(volume: Option<real>, depth: Option<real>, n: real, rooms: seq<Room>, x: real)
    requires x < n && (forall m :: m in rooms ==> m.used + x <= m.soft)
    requires !FitsShares(volume, depth, n) ==> x <= FirstShare(volume, depth, n)
    requires (exists m :: m in rooms && x == m.soft - m.used)
      || (!FitsShares(volume, depth, n) && x == FirstShare(volume, depth, n))
    ensures (depth.Some? && x > depth.value) <==> Masks(volume, depth, n, rooms)
  {
  }

  lemma SharesOfEvidence(r: RiskRequest, p: RiskPolicy, n: real)
    ensures var volume, depth := ShareOf(r.liquidityRisk.quoteVolume24h, p.volumeSoftPct),
      ShareOf(r.liquidityRisk.topOfBookDepth, p.depthSoftPct);
      && (FitsParticipation(r, p, n) <==> FitsShares(volume, depth, n))
      && (!FitsShares(volume, depth, n) ==> ParticipationCap(r, p, n) == FirstShare(volume, depth, n))
      && (Within(n, r.liquidityRisk.topOfBookDepth, p.depthSoftPct) <==> !(depth.Some? && n > depth.value))
  {
    hide PolicyFields.Consistent;
  }

  /** What a capped order meets when checked again, told on the request alone: rejected exactly when its hash is taken,
    * otherwise capped once more exactly when the volume share masks a smaller depth share, and else approved. */
  lemma SecondCapNeededIff(r: RiskRequest, p: RiskPolicy)
    requires RiskCheck(r, p).decision == ApprovedAfterCap
    ensures RiskCheck(r, p).approvedIntent.Some?
    ensures RiskCheck(Recheck(r, p), p).decision ==
      if HashTakenAt(r, CapNotional(r, p)) then Rejected
      else if VolumeMasksDepth(r, p) then ApprovedAfterCap
      else Approved
  {
    hide Evaluations, UnsizedEvaluations, SizedEvaluations, ParticipationEvaluation, IdempotencyEvaluation, Rooms,
      BuildOrderEffect, Notional, HashTakenAt, VolumeMasksDepth, CapNotional;
    hide BuyEvidence.Valid, BuyEvidence.CappedAt;
    var v := EvidenceOf(r, p);
    CapFacts(r, p, v);
    EvidenceReports(r, p);
    CapKeepsHardLimits(r, p);
    CapReusesHashIff(r, p);
    if !HashTakenAt(r, CapNotional(r, p)) {
      OneCapSufficesIffDepthFits(r, p);
      CapStandsByDepth(r, p, v, TightestCap(r, SoftBreaches(v.all)));
    }
  }

  lemma CapStandsByDepth(r: RiskRequest, p: RiskPolicy, v: BuyEvidence, x: real)
    requires v.Valid(r) && v.CappedAt(r, x) && Reports(v, r, p) && v.rooms == Rooms(r, p)
    ensures Within(x, r.liquidityRisk.topOfBookDepth, p.depthSoftPct) <==> !VolumeMasksDepth(r, p)
  {
    v.TightestCapMeaning(r);
    SharesOfEvidence(r, p, Notional(r));
    SharesOfEvidence(r, p, x);
    var volume, depth := ShareOf(r.liquidityRisk.quoteVolume24h, p.volumeSoftPct),
      ShareOf(r.liquidityRisk.topOfBookDepth, p.depthSoftPct);
    hide Rooms, Notional, BuyEvidence.Valid, BuyEvidence.NoHard, ShareOf, FitsParticipation, ParticipationCap,
      FitsShares, FirstShare, Within, PolicyFields.Consistent, TightestCap, AllCappable, SoftBreaches;
    CapAboveDepth(volume, depth, Notional(r), Rooms(r, p), x);
  }

  /** The tightest cap is positive exactly when every size limit has room left. */
  lemma PositiveCapIff(r: RiskRequest, p: RiskPolicy, v: BuyEvidence)
    requires v.Valid(r) && v.NoHard() && v.UnsizedPass() && SoftBreaches(v.all) != []
      && (!v.partFits ==> v.partCap > 0.0)
    ensures PositiveCaps(r, SoftBreaches(v.all)) <==> forall m :: m in v.rooms ==> m.used < m.soft
  {
    hide BuyEvidence.Valid;
    v.TightestCapMeaning(r);
    CapIsPositive(r, SoftBreaches(v.all));
  }

  /** A buy is capped exactly when nothing is hard, every unsized limit passes, some size or share is exceeded, and
    * every size limit has room left. */
  lemma CappedIffRoomLeft(r: RiskRequest, p: RiskPolicy)
    requires r.intent.side == Buy
    ensures RiskCheck(r, p).decision == ApprovedAfterCap <==>
      (&& !HasHardBreach(Evaluations(r, p)) && AllPass(UnsizedEvaluations(r, p))
       && SoftBreaches(Evaluations(r, p)) != [] && forall m :: m in Rooms(r, p) ==> m.used < m.soft)
  {
    hide Evaluations, UnsizedEvaluations, SizedEvaluations, ParticipationEvaluation, IdempotencyEvaluation, Rooms,
      BuildOrderEffect, Notional;
    hide BuyEvidence.Valid, BuyEvidence.CappedAt;
    var v := EvidenceOf(r, p);
    BuyDecisionTable(r, p);
    EvidenceIsValid(r, p);
    v.HardMeaning(r);
    ListsEvaluations(r, p);
    if v.NoHard() && SoftBreaches(v.all) != [] {
      CapIsPositive(r, SoftBreaches(v.all));
      v.CappableMeaning(r);
      if v.UnsizedPass() {
        ShareCapIsPositive(r, p);
        PositiveCapIff(r, p, v);
      }
    }
  }

  lemma ListsEvaluations(r: RiskRequest, p: RiskPolicy)
    ensures RiskCheck(r, p).evaluations == Evaluations(r, p)
  {
    hide Evaluations, HasHardBreach, BuildOrderEffect;
  }

  lemma ShareCapIsPositive(r: RiskRequest, p: RiskPolicy)
    ensures var v := EvidenceOf(r, p); !v.partFits ==> v.partCap > 0.0
  {
    hide Evaluations, UnsizedEvaluations, SizedEvaluations, ParticipationEvaluation, IdempotencyEvaluation, Rooms,
      Notional;
    var n := Notional(r);
    if !FitsParticipation(r, p, n) {
      ParticipationCapIsPositive(r, p, n);
    }
  }

  /** Each record carries the hash of an intent of its own client order. */
  predicate HashesMatchOrders(r: RiskRequest) {
    forall record :: record in r.idempotencyRecords ==>
      record.orderIntentHash.content.clientOrderId == record.clientOrderId
  }

  /** Then no resized order meets the hash of a record its original did not. */
  lemma OwnHashesAreFresh(r: RiskRequest, p: RiskPolicy, n: real)
    requires RiskCheck(r, p).decision == ApprovedAfterCap && HashesMatchOrders(r)
    ensures !HashTakenAt(r, n)
  {
    CapFacts(r, p, EvidenceOf(r, p));
    assert !Collided(r);
    forall record | record in r.idempotencyRecords && record.state.IsUnresolved()
      ensures var taken := record.orderIntentHash.content;
        !(taken == r.intent.(quantity := taken.quantity) && taken.quantity * r.referencePrice == n)
    {
      assert !Collides(r, record);
    }
  }

  /** Handing the capped order back in, again and again, comes to rest after at most two caps: on an order that is
    * approved as it stands. */
  ghost predicate SettlesWithinTwo(r: RiskRequest, p: RiskPolicy)
    requires RiskCheck(r, p).approvedIntent.Some?
  {
    var r1 := Recheck(r, p);
    var first := RiskCheck(r1, p);
    || (first.decision == Approved && first.approvedIntent == Some(r1.intent))
    || (first.decision == ApprovedAfterCap && first.approvedIntent.Some?
        && RiskCheck(Recheck(r1, p), p).decision == Approved
        && RiskCheck(Recheck(r1, p), p).approvedIntent == first.approvedIntent)
  }

  /** Two caps are enough exactly when no unresolved record carries the hash of the order at the first capped notional
    * nor, when the volume share masks the depth share, at the depth share: told on the request alone. */
  lemma TwoCapsSufficeIff(r: RiskRequest, p: RiskPolicy)
    requires RiskCheck(r, p).decision == ApprovedAfterCap
    ensures RiskCheck(r, p).approvedIntent.Some?
    ensures SettlesWithinTwo(r, p) <==>
      (&& !HashTakenAt(r, CapNotional(r, p))
       && (VolumeMasksDepth(r, p) ==> !HashTakenAt(r, DepthShare(r, p))))
  {
    hide RiskCheck, CapNotional, VolumeMasksDepth, HashTakenAt, DepthShare;
    SecondCapNeededIff(r, p);
    CappedToCapNotional(r, p);
    OnlyBuysAreCapped(r, p);
    var r1 := Recheck(r, p);
    ApprovedAsItStands(r1, p);
    if RiskCheck(r1, p).decision == ApprovedAfterCap {
      SecondCapNeededIff(r1, p);
      CappedToCapNotional(r1, p);
      SecondCapIsDepth(r, p);
      SameHashesTaken(r, r1.intent.quantity, DepthShare(r, p));
      ApprovedAsItStands(Recheck(r1, p), p);
    }
  }

  /** Two caps always come to rest when every record carries its own order's hash. */
  lemma TwoCapsSuffice(r: RiskRequest, p: RiskPolicy)
    requires RiskCheck(r, p).decision == ApprovedAfterCap && HashesMatchOrders(r)
    ensures RiskCheck(r, p).approvedIntent.Some? && SettlesWithinTwo(r, p)
  {
    hide RiskCheck, CapNotional, VolumeMasksDepth, HashTakenAt, DepthShare, SettlesWithinTwo;
    TwoCapsSufficeIff(r, p);
    OwnHashesAreFresh(r, p, CapNotional(r, p));
    OwnHashesAreFresh(r, p, DepthShare(r, p));
  }

  function DepthShare(r: RiskRequest, p: RiskPolicy): real {
    var share := ShareOf(r.liquidityRisk.topOfBookDepth, p.depthSoftPct);
    if share.Some? then share.value else 0.0
  }

  lemma ApprovedAsItStands(r: RiskRequest, p: RiskPolicy)
    requires r.intent.side == Buy
    ensures RiskCheck(r, p).decision == Approved ==> RiskCheck(r, p).approvedIntent == Some(r.intent)
  {
    hide RiskCheck, Evaluations, UnsizedEvaluations;
    BuyDecisionTable(r, p);
  }

  lemma SameHashesTaken(r: RiskRequest, q: PositiveDecimal, n: real)
    ensures HashTakenAt(WithQuantity(r, q), n) <==> HashTakenAt(r, n)
  {
    forall taken: OrderIntent
      ensures taken == WithQuantity(r, q).intent.(quantity := taken.quantity)
        <==> taken == r.intent.(quantity := taken.quantity)
    {
    }
  }

  /** The second cap is the depth share, and leaves nothing masked. */
  lemma SecondCapIsDepth(r: RiskRequest, p: RiskPolicy)
    requires RiskCheck(r, p).decision == ApprovedAfterCap && RiskCheck(r, p).approvedIntent.Some?
    requires RiskCheck(Recheck(r, p), p).decision == ApprovedAfterCap
    ensures CapNotional(Recheck(r, p), p) == DepthShare(r, p)
    ensures !VolumeMasksDepth(Recheck(r, p), p)
  {
    hide RiskCheck, CapNotional, VolumeMasksDepth, EvidenceOf;
    var r1 := Recheck(r, p);
    CappedToCapNotional(r, p);
    assert DepthShare(r1, p) == DepthShare(r, p);
    hide DepthShare, Recheck;
    var v1 := DepthLeftAfterCap(r, p);
    DepthIsCappedNext(r1, p, v1);
  }

  lemma DepthLeftAfterCap(r: RiskRequest, p: RiskPolicy) returns (v: BuyEvidence)
    requires RiskCheck(r, p).decision == ApprovedAfterCap && RiskCheck(r, p).approvedIntent.Some?
    requires RiskCheck(Recheck(r, p), p).decision == ApprovedAfterCap
    ensures var r1 := Recheck(r, p);
      v.Valid(r1) && v.NoHard() && v.UnsizedPass() && v.SoftRooms(v.n) && DepthLeft(r1, p, v)
  {
    hide RiskCheck, Evaluations, UnsizedEvaluations, SizedEvaluations, ParticipationEvaluation, IdempotencyEvaluation,
      Rooms, BuildOrderEffect, Notional, TightestCap, SoftBreaches, AllCappable, HasHardBreach, Reports, EvidenceOf,
      Recheck, PolicyFields.Consistent;
    hide BuyEvidence.Valid, BuyEvidence.SoftRooms, BuyEvidence.UnsizedPass, BuyEvidence.NoHard;
    var r1 := Recheck(r, p);
    v := SecondLook(r, p);
    CapFacts(r1, p, v);
    EvidenceReports(r1, p);
    EvidenceRooms(r1, p);
    CappedOrderKeepsMarket(r, p);
  }

  lemma EvidenceRooms(r: RiskRequest, p: RiskPolicy)
    ensures EvidenceOf(r, p).rooms == Rooms(r, p)
  {
    hide Evaluations, UnsizedEvaluations, SizedEvaluations, ParticipationEvaluation, IdempotencyEvaluation, Rooms;
  }

  lemma CappedOrderKeepsMarket(r: RiskRequest, p: RiskPolicy)
    requires RiskCheck(r, p).approvedIntent.Some?
    ensures Recheck(r, p).liquidityRisk == r.liquidityRisk
  {
    hide RiskCheck;
  }

  /** The evidence finds nothing exceeded but the depth share. */
  predicate DepthLeft(r: RiskRequest, p: RiskPolicy, v: BuyEvidence) {
    && !v.partFits && v.partCap > 0.0 && Reports(v, r, p) && v.rooms == Rooms(r, p)
    && r.liquidityRisk.topOfBookDepth.Some? && v.partCap == r.liquidityRisk.topOfBookDepth.value * p.depthSoftPct
  }

  lemma DepthIsCappedNext(r: RiskRequest, p: RiskPolicy, v: BuyEvidence)
    requires v.Valid(r) && v.NoHard() && v.UnsizedPass() && v.SoftRooms(v.n) && DepthLeft(r, p, v)
    ensures CapNotional(r, p) == DepthShare(r, p) && !VolumeMasksDepth(r, p)
  {
    hide BuyEvidence.Valid, Rooms, Notional, TightestCap, SoftBreaches, AllCappable, LeastRoom, PolicyFields.Consistent;
    ParticipationAloneIsCapped(r, v, v.n);
    hide BuyEvidence.NoHard, BuyEvidence.UnsizedPass, BuyEvidence.SoftRooms;
    TightestIsLeastRoom(r, v, v.partCap);
    SharesOfEvidence(r, p, v.n);
  }

  /** The cap is not tighter than it must be: no larger quantity up to the original would be approved unchanged. */
  lemma CapIsGreatest(r: RiskRequest, p: RiskPolicy, q: PositiveDecimal)
    requires RiskCheck(r, p).decision == ApprovedAfterCap && RiskCheck(r, p).approvedIntent.Some?
    requires RiskCheck(r, p).approvedIntent.value.quantity < q <= r.intent.quantity
    ensures RiskCheck(WithQuantity(r, q), p).decision != Approved
  {
    hide Evaluations, UnsizedEvaluations, SizedEvaluations, ParticipationEvaluation, IdempotencyEvaluation, Rooms,
      BuildOrderEffect, Notional;
    hide BuyEvidence.Valid, BuyEvidence.CappedAt;
    var v, q0 := EvidenceOf(r, p), RiskCheck(r, p).approvedIntent.value.quantity;
    CappedQuantity(r, p, q0);
    CapFacts(r, p, v);
    EvidenceReports(r, p);
    LargerCostsMore(r, q0, q);
    LargerIsNotApproved(r, p, TightestCap(r, SoftBreaches(v.all)), q, v);
  }

  lemma LargerCostsMore(r: RiskRequest, a: PositiveDecimal, b: PositiveDecimal)
    requires a < b
    ensures Notional(WithQuantity(r, a)) < Notional(WithQuantity(r, b))
  {
    SmallerFactor(a, b, r.referencePrice);
    assert Notional(WithQuantity(r, a)) == a * r.referencePrice && Notional(WithQuantity(r, b)) == b * r.referencePrice;
  }

  lemma LargerIsNotApproved(r: RiskRequest, p: RiskPolicy, x: real, q: PositiveDecimal, v: BuyEvidence)
    requires r.intent.side == Buy && v == EvidenceOf(r, p) && v.Valid(r) && v.CappedAt(r, x) && Reports(v, r, p)
    requires q <= r.intent.quantity && x < Notional(WithQuantity(r, q))
    ensures RiskCheck(WithQuantity(r, q), p).decision != Approved
  {
    hide Evaluations, UnsizedEvaluations, SizedEvaluations, ParticipationEvaluation, IdempotencyEvaluation, Rooms,
      BuildOrderEffect, Notional;
    hide BuyEvidence.Valid, BuyEvidence.CappedAt;
    var vq := LookAt(r, p, v, q);
    LargerThanCap(r, p, x, v, WithQuantity(r, q), vq);
    OutcomeOfBuy(WithQuantity(r, q), p);
  }

  lemma LargerThanCap(r: RiskRequest, p: RiskPolicy, x: real, v: BuyEvidence, rq: RiskRequest, vq: BuyEvidence)
    requires v.Valid(r) && v.CappedAt(r, x) && Reports(v, r, p)
    requires vq.Valid(rq) && vq.n == Notional(rq) && x < vq.n && vq.rooms == v.rooms
      && vq.partFits == FitsParticipation(r, p, vq.n)
    ensures Outcome(rq, vq.all).0 != Approved
  {
    v.TightestCapMeaning(r);
    if !v.partFits && x == v.partCap {
      AboveCapStaysUnfit(r, p, v.n, vq.n);
    }
    LargerThanCapBreaches(rq, vq);
  }

  lemma AboveCapStaysUnfit(r: RiskRequest, p: RiskPolicy, n: real, y: real)
    requires !FitsParticipation(r, p, n) && ParticipationCap(r, p, n) < y
    ensures !FitsParticipation(r, p, y)
  {
  }

  lemma LargerThanCapBreaches(r: RiskRequest, v: BuyEvidence)
    requires v.Valid(r) && v.n == Notional(r) && !(v.SoftRooms(v.n) && v.partFits)
    ensures Outcome(r, v.all).0 != Approved
  {
    BuyOutcomeTable(r, v);
    AllPassIffNoBreach(v.all);
    v.HardMeaning(r);
    if v.NoHard() {
      v.SoftMeaning(r);
    }
  }
}
