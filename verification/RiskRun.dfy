/** Runs of approvals: each approved order's own effect becomes the next request's state. */
module RiskRun {
  import opened Contracts
  import opened InstrumentMaster
  import opened Orders
  import opened RiskContracts
  import opened RiskEngine
  import opened RiskCapping
  import opened RiskLimits

  datatype BookFields = Book(
    cash: real,
    positions: map<CanonicalId, real>,
    instrumentExposure: map<CanonicalId, real>,
    strategyExposure: map<CanonicalId, real>,
    totalExposure: real)

  predicate NonNegativeValues(m: map<CanonicalId, real>) {
    forall k :: k in m ==> m[k] >= 0.0
  }

  /** Requests carry only non-negative state. */
  type Book = b: BookFields |
    b.cash >= 0.0 && b.totalExposure >= 0.0 && NonNegativeValues(b.positions)
    && NonNegativeValues(b.instrumentExposure) && NonNegativeValues(b.strategyExposure)
    witness Book(0.0, map[], map[], map[], 0.0)

  function At(m: map<CanonicalId, real>, k: CanonicalId): real {
    if k in m then m[k] else 0.0
  }

  /** One order of a strategy, with the telemetry of its moment; its state fields are overwritten by the book. */
  datatype Submission = Submission(strategyId: CanonicalId, template: RiskRequest)

  function RequestFrom(b: Book, s: Submission): RiskRequest {
    s.template.(
      currentCash := b.cash,
      positionQuantity := At(b.positions, s.template.intent.instrumentId),
      instrumentExposure := At(b.instrumentExposure, s.template.intent.instrumentId),
      strategyExposure := At(b.strategyExposure, s.strategyId),
      totalExposure := b.totalExposure)
  }

  /** The book after an order of instrument and strategy took effect. */
  function AfterEffect(b: Book, instrumentId: CanonicalId, strategyId: CanonicalId, e: OrderEffect): BookFields {
    Book(
      e.resultingCash,
      b.positions[instrumentId := e.resultingPosition],
      b.instrumentExposure[instrumentId := e.resultingInstrumentExposure],
      b.strategyExposure[strategyId := e.resultingStrategyExposure],
      e.resultingTotalExposure)
  }

  /** The effect of the order that was approved, which for a capped order is not the event's own effect. */
  function ApprovedEffect(r: RiskRequest, intent: OrderIntent): OrderEffect {
    BuildOrderEffect(r.(intent := intent))
  }

  /** The limits one account and policy put on the book: the least of what the policy's soft and hard fraction and the
    * account's own fraction of NAV leave. */
  datatype Ceilings = Ceilings(cashFloor: real, instrument: real, strategy: real, total: real)

  function CeilingsOf(p: RiskPolicy, l: AccountRiskLimits): Ceilings {
    Ceilings(
      Max(p.paperNav * p.minCashReservePct, p.paperNav * l.minCashReservePct),
      LeastShare(p.paperNav, p.instrumentSoftPct, p.instrumentHardPct, l.maxInstrumentExposurePct),
      LeastShare(p.paperNav, p.strategySoftPct, p.strategyHardPct, l.maxStrategyExposurePct),
      LeastShare(p.paperNav, p.totalSoftPct, p.totalHardPct, l.maxTotalSpotExposurePct))
  }

  function LeastShare(nav: real, soft: real, hard: real, own: real): (c: real)
    ensures c <= nav * soft && c <= nav * hard && c <= nav * own
    ensures c == nav * soft || c == nav * hard || c == nav * own
  {
    Min(nav * soft, Min(nav * hard, nav * own))
  }

  lemma UnderLeastShare(x: real, p: RiskPolicy, soft: real, hard: real, own: real)
    requires Under(x, p, hard, Some(own)) && x <= p.paperNav * soft
    ensures x <= LeastShare(p.paperNav, soft, hard, own)
  {
  }

  predicate AtMost(m: map<CanonicalId, real>, ceiling: real) {
    forall k :: k in m ==> m[k] <= ceiling
  }

  /** Cash at or above the reserve, every exposure at or below both of its limits. */
  predicate WithinLimits(b: BookFields, c: Ceilings) {
    b.cash >= c.cashFloor && AtMost(b.instrumentExposure, c.instrument) && AtMost(b.strategyExposure, c.strategy)
      && b.totalExposure <= c.total
  }

  /** The same in full: the policy's soft and hard fractions of NAV and the account's own, each of them. */
  ghost predicate KeepsLimits(b: BookFields, p: RiskPolicy, l: AccountRiskLimits) {
    var nav := p.paperNav;
    && b.cash >= nav * p.minCashReservePct && b.cash >= nav * l.minCashReservePct
    && (forall k :: k in b.instrumentExposure ==>
      WithinShares(b.instrumentExposure[k], nav, p.instrumentSoftPct, p.instrumentHardPct, l.maxInstrumentExposurePct))
    && (forall k :: k in b.strategyExposure ==>
      WithinShares(b.strategyExposure[k], nav, p.strategySoftPct, p.strategyHardPct, l.maxStrategyExposurePct))
    && WithinShares(b.totalExposure, nav, p.totalSoftPct, p.totalHardPct, l.maxTotalSpotExposurePct)
  }

  predicate WithinShares(x: real, nav: real, soft: real, hard: real, own: real) {
    x <= nav * soft && x <= nav * hard && x <= nav * own
  }

  lemma LeastShareMeaning(x: real, nav: real, soft: real, hard: real, own: real)
    ensures x <= LeastShare(nav, soft, hard, own) <==> WithinShares(x, nav, soft, hard, own)
  {
  }

  lemma EntriesMeaning(m: map<CanonicalId, real>, nav: real, soft: real, hard: real, own: real)
    ensures AtMost(m, LeastShare(nav, soft, hard, own)) <==>
      forall k :: k in m ==> WithinShares(m[k], nav, soft, hard, own)
  {
    hide LeastShare, WithinShares;
    forall k | k in m ensures m[k] <= LeastShare(nav, soft, hard, own) <==> WithinShares(m[k], nav, soft, hard, own) {
      LeastShareMeaning(m[k], nav, soft, hard, own);
    }
  }

  lemma LimitsMeaning(b: BookFields, p: RiskPolicy, l: AccountRiskLimits)
    ensures WithinLimits(b, CeilingsOf(p, l)) <==> KeepsLimits(b, p, l)
  {
    hide LeastShare, WithinShares, AtMost, PolicyFields.Consistent;
    var nav := p.paperNav;
    EntriesMeaning(b.instrumentExposure, nav, p.instrumentSoftPct, p.instrumentHardPct, l.maxInstrumentExposurePct);
    EntriesMeaning(b.strategyExposure, nav, p.strategySoftPct, p.strategyHardPct, l.maxStrategyExposurePct);
    LeastShareMeaning(b.totalExposure, nav, p.totalSoftPct, p.totalHardPct, l.maxTotalSpotExposurePct);
  }

  predicate OneAccount(s: Snapshot, account: Account) {
    forall a :: a in s.accounts && a.accountId == account.accountId ==> a == account
  }

  lemma ApprovedHasAccount(r: RiskRequest, p: RiskPolicy, account: Account)
    requires RiskCheck(r, p).approvedIntent.Some?
    requires OneAccount(r.snapshot, account) && r.accountId == account.accountId
    ensures ViewMetadata(r).account == Some(account)
    ensures !HasHardBreach(Evaluations(r, p))
  {
    assert RequiredStateEvaluation(r) in Evaluations(r, p);
  }

  lemma ReserveKept(cash: real, p: RiskPolicy, l: AccountRiskLimits)
    requires KeepsReserve(cash, p, Some(l.minCashReservePct))
    ensures cash >= CeilingsOf(p, l).cashFloor
  {
    hide LeastShare, PolicyFields.Consistent;
  }

  /** What fits the size limits is within the ceilings. */
  lemma SizesWithinCeilings(r: RiskRequest, p: RiskPolicy, l: AccountRiskLimits, c: Option<InstrumentConstraint>,
                            n: real)
    requires FitsSizes(r, p, n, Some(l), c) && FitsSoftSizes(r, p, n)
    ensures var ceilings := CeilingsOf(p, l);
      && r.currentCash - n >= ceilings.cashFloor && r.instrumentExposure + n <= ceilings.instrument
      && r.strategyExposure + n <= ceilings.strategy && r.totalExposure + n <= ceilings.total
  {
    hide PolicyFields.Consistent, LeastShare, Under, KeepsReserve;
    ReserveKept(r.currentCash - n, p, l);
    UnderLeastShare(r.instrumentExposure + n, p, p.instrumentSoftPct, p.instrumentHardPct, l.maxInstrumentExposurePct);
    UnderLeastShare(r.strategyExposure + n, p, p.strategySoftPct, p.strategyHardPct, l.maxStrategyExposurePct);
    UnderLeastShare(r.totalExposure + n, p, p.totalSoftPct, p.totalHardPct, l.maxTotalSpotExposurePct);
  }

  /** Notional n keeps the cash floor and fits the soft and the hard side of every sized limit. */
  predicate FitsAllRooms(r: RiskRequest, p: RiskPolicy, n: real) {
    KeepsCash(r, p, n) && forall m :: m in Rooms(r, p) ==> m.used + n <= m.soft && m.used + n <= m.hard
  }

  lemma RoomsMeanSizes(r: RiskRequest, p: RiskPolicy, n: real)
    requires FitsAllRooms(r, p, n)
    ensures FitsSoftSizes(r, p, n)
    ensures var m := ViewMetadata(r);
      FitsSizes(r, p, n, if m.account.Some? then Some(m.account.value.riskLimits) else None, m.constraint)
  {
    hide InstrumentHard, StrategyHard, TotalHard, CashFloor, OrderNotionalHard, FitsSizes, ViewMetadata;
    hide PolicyFields.Consistent;
    var rooms := Rooms(r, p);
    assert rooms[0] in rooms && rooms[1] in rooms && rooms[2] in rooms && rooms[3] in rooms;
    FoldedLimitsMeaning(r, p, n);
  }

  /** Every approved buy, capped or not, fits the soft and the hard size limits of the original request. */
  lemma ApprovedBuyFits(r: RiskRequest, p: RiskPolicy)
    requires r.intent.side == Buy && RiskCheck(r, p).approvedIntent.Some?
    ensures SizesHardOk(Recheck(r, p), p) && SizesSoftOk(Recheck(r, p), p)
    ensures Recheck(r, p) == WithQuantity(r, Recheck(r, p).intent.quantity)
  {
    hide RiskCheck, FitsSizes, ViewMetadata, Rooms, CashFloor, PolicyFields.Consistent;
    ApprovedBuyFitsRooms(r, p);
    var r' := Recheck(r, p);
    RoomsIgnoreSize(r, p, r'.intent.quantity);
    RoomsMeanSizes(r', p, Notional(r'));
    NotionalIs(r');
  }

  lemma ApprovedBuyFitsRooms(r: RiskRequest, p: RiskPolicy)
    requires r.intent.side == Buy && RiskCheck(r, p).approvedIntent.Some?
    ensures FitsAllRooms(r, p, Notional(Recheck(r, p)))
    ensures Recheck(r, p) == WithQuantity(r, Recheck(r, p).intent.quantity)
  {
    hide Evaluations, UnsizedEvaluations, SizedEvaluations, ParticipationEvaluation, IdempotencyEvaluation, Rooms,
      BuildOrderEffect, Notional;
    hide BuyEvidence.Valid, BuyEvidence.CappedAt;
    var v := EvidenceOf(r, p);
    OutcomeOfBuy(r, p);
    EvidenceIsValid(r, p);
    BuyOutcomeTable(r, v);
    if RiskCheck(r, p).decision == Approved {
      ApprovedEvidenceFits(r, v);
    } else {
      CapFacts(r, p, v);
      CappedEvidenceFits(r, v, TightestCap(r, SoftBreaches(v.all)));
    }
  }

  lemma ApprovedEvidenceFits(r: RiskRequest, v: BuyEvidence)
    requires v.Valid(r) && v.n == Notional(r) && AllPass(v.all)
    ensures v.keepsCash && v.SoftRooms(v.n) && v.HardRooms(v.n)
  {
    AllPassIffNoBreach(v.all);
    v.HardMeaning(r);
    v.SoftMeaning(r);
  }

  lemma CappedEvidenceFits(r: RiskRequest, v: BuyEvidence, x: real)
    requires v.Valid(r) && v.CappedAt(r, x)
    ensures v.keepsCash && v.SoftRooms(x) && v.HardRooms(x) && x < v.n
  {
    v.TightestCapMeaning(r);
  }

  // ------------------------------------------------------------ runs

  /** The book after one submission: unchanged unless the engine approves an order. */
  function StepBook(b: Book, p: RiskPolicy, s: Submission): BookFields {
    var r := RequestFrom(b, s);
    var approved := RiskCheck(r, p).approvedIntent;
    if approved.None? then b
    else AfterEffect(b, s.template.intent.instrumentId, s.strategyId, ApprovedEffect(r, approved.value))
  }

  /** What a sell of notional n leaves of an exposure: the rest, or nothing. */
  predicate ReducedBy(after: real, before: real, n: real) {
    after >= 0.0 && (after == before - n || (after == 0.0 && before <= n))
  }

  /** A buy spends its notional n and adds it to every exposure; a sell returns it to cash and takes it off every
    * exposure. */
  predicate MovesBy(e: OrderEffect, r: RiskRequest, quantity: real, n: real) {
    if r.intent.side == Buy then
      && e.resultingCash == r.currentCash - n && e.resultingPosition == r.positionQuantity + quantity
      && e.resultingInstrumentExposure == r.instrumentExposure + n
      && e.resultingStrategyExposure == r.strategyExposure + n && e.resultingTotalExposure == r.totalExposure + n
    else
      && e.resultingCash == r.currentCash + n && e.resultingPosition == r.positionQuantity - quantity
      && ReducedBy(e.resultingInstrumentExposure, r.instrumentExposure, n)
      && ReducedBy(e.resultingStrategyExposure, r.strategyExposure, n)
      && ReducedBy(e.resultingTotalExposure, r.totalExposure, n)
  }

  lemma EffectMeaning(r: RiskRequest, n: real)
    requires n == r.intent.quantity * r.referencePrice
    ensures var e := BuildOrderEffect(r);
      && MovesBy(e, r, r.intent.quantity, n) && e.proposedNotional == n
      && (e.riskIncreasing <==> r.intent.side == Buy || r.intent.quantity > r.positionQuantity)
      && e.cashReservePct * r.accountEquity == e.resultingCash
      && (if e.resultingPosition >= 0.0 then e.resultingPositionNotional == e.resultingPosition * r.referencePrice
          else e.resultingPositionNotional == 0.0)
  {
    QuotientTimes(BuildOrderEffect(r).resultingCash, r.accountEquity);
    ValueFollowsSign(BuildOrderEffect(r).resultingPosition, r.referencePrice);
  }

  lemma QuotientTimes(a: real, b: real)
    requires b > 0.0
    ensures a / b * b == a
  {
  }

  lemma ValueFollowsSign(x: real, price: real)
    requires price > 0.0
    ensures if x >= 0.0 then x * price >= 0.0 else x * price <= 0.0
  {
  }

  /** Approved sells are of positions that are held. */
  lemma ApprovedSellIsHeld(r: RiskRequest, p: RiskPolicy)
    requires r.intent.side == Sell && RiskCheck(r, p).approvedIntent.Some?
    ensures RiskCheck(r, p).approvedIntent == Some(r.intent) && r.intent.quantity <= r.positionQuantity
  {
    assert NoShortEvaluation(r) in Evaluations(r, p);
  }

  /** What an approved order does to the state it was checked against. */
  ghost predicate SafeEffect(r: RiskRequest, e: OrderEffect, c: Ceilings) {
    && e.resultingPosition >= 0.0
    && (e.resultingCash >= r.currentCash || e.resultingCash >= c.cashFloor)
    && (e.resultingInstrumentExposure <= r.instrumentExposure || e.resultingInstrumentExposure <= c.instrument)
    && (e.resultingStrategyExposure <= r.strategyExposure || e.resultingStrategyExposure <= c.strategy)
    && (e.resultingTotalExposure <= r.totalExposure || e.resultingTotalExposure <= c.total)
  }

  /** Any approval, capped or not, either reduces what it touches or leaves it within limits. */
  lemma ApprovalIsSafe(r: RiskRequest, p: RiskPolicy, account: Account)
    requires RiskCheck(r, p).approvedIntent.Some?
    requires OneAccount(r.snapshot, account) && r.accountId == account.accountId
    ensures SafeEffect(r, ApprovedEffect(r, RiskCheck(r, p).approvedIntent.value), CeilingsOf(p, account.riskLimits))
  {
    hide Evaluations, ViewMetadata, Notional, BuildOrderEffect, Rooms, CeilingsOf, FitsSizes, FitsSoftSizes;
    ApprovedHasAccount(r, p, account);
    if r.intent.side == Buy {
      var r' := Recheck(r, p);
      ApprovedBuyFitsRooms(r, p);
      RoomsMeanSizes(r, p, Notional(r'));
      SizesWithinCeilings(r, p, account.riskLimits, ViewMetadata(r).constraint, Notional(r'));
      NotionalIs(r');
      EffectMeaning(r', Notional(r'));
    } else {
      ApprovedSellIsHeld(r, p);
      NotionalIs(r);
      EffectMeaning(r, Notional(r));
    }
  }

  /** The same moves, told on the book. */
  predicate BookMoves(b: Book, after: BookFields, s: Submission, quantity: real, n: real) {
    var intent := s.template.intent;
    var position, instrument := At(b.positions, intent.instrumentId), At(b.instrumentExposure, intent.instrumentId);
    var strategy := At(b.strategyExposure, s.strategyId);
    if intent.side == Buy then
      && after.cash == b.cash - n && At(after.positions, intent.instrumentId) == position + quantity
      && At(after.instrumentExposure, intent.instrumentId) == instrument + n
      && At(after.strategyExposure, s.strategyId) == strategy + n && after.totalExposure == b.totalExposure + n
    else
      && after.cash == b.cash + n && At(after.positions, intent.instrumentId) == position - quantity
      && ReducedBy(At(after.instrumentExposure, intent.instrumentId), instrument, n)
      && ReducedBy(At(after.strategyExposure, s.strategyId), strategy, n)
      && ReducedBy(after.totalExposure, b.totalExposure, n)
  }

  /** Every other market and strategy keeps its entries. */
  ghost predicate OthersKept(b: Book, after: BookFields, s: Submission) {
    var instrumentId := s.template.intent.instrumentId;
    && after.positions.Keys == b.positions.Keys + {instrumentId}
    && after.instrumentExposure.Keys == b.instrumentExposure.Keys + {instrumentId}
    && after.strategyExposure.Keys == b.strategyExposure.Keys + {s.strategyId}
    && (forall k :: k in b.positions && k != instrumentId ==> after.positions[k] == b.positions[k])
    && (forall k :: k in b.instrumentExposure && k != instrumentId ==>
      after.instrumentExposure[k] == b.instrumentExposure[k])
    && (forall k :: k in b.strategyExposure && k != s.strategyId ==> after.strategyExposure[k] == b.strategyExposure[k])
  }

  lemma EffectMovesBook(b: Book, s: Submission, e: OrderEffect, quantity: real, n: real)
    requires MovesBy(e, RequestFrom(b, s), quantity, n)
    ensures var after := AfterEffect(b, s.template.intent.instrumentId, s.strategyId, e);
      BookMoves(b, after, s, quantity, n) && OthersKept(b, after, s)
  {
    hide ReducedBy;
  }

  /** What one submission does to the book: nothing unless the engine approves a quantity of the order; else its market
    * and strategy move by that quantity, at the price of the request, and everything else stays. */
  lemma StepMeaning(b: Book, p: RiskPolicy, s: Submission) returns (n: real)
    ensures var approved, after := RiskCheck(RequestFrom(b, s), p).approvedIntent, StepBook(b, p, s);
      && (approved.None? ==> after == b)
      && (approved.Some? ==>
        var quantity := approved.value.quantity;
        && approved.value == s.template.intent.(quantity := quantity)
        && n == quantity * s.template.referencePrice
        && BookMoves(b, after, s, quantity, n) && OthersKept(b, after, s))
  {
    hide RiskCheck, BuildOrderEffect, BookMoves, OthersKept, MovesBy, AfterEffect;
    n := 0.0;
    var r := RequestFrom(b, s);
    if RiskCheck(r, p).approvedIntent.Some? {
      ApprovedKeepsIntent(r, p);
      var approved := RiskCheck(r, p).approvedIntent.value;
      var e := ApprovedEffect(r, approved);
      n := approved.quantity * s.template.referencePrice;
      EffectMeaning(r.(intent := approved), n);
      SameMoves(e, r, approved, n);
      EffectMovesBook(b, s, e, approved.quantity, n);
    }
  }

  lemma SameMoves(e: OrderEffect, r: RiskRequest, approved: OrderIntent, n: real)
    requires approved.side == r.intent.side && MovesBy(e, r.(intent := approved), approved.quantity, n)
    ensures MovesBy(e, r, approved.quantity, n)
  {
  }

  lemma ApprovedKeepsIntent(r: RiskRequest, p: RiskPolicy)
    requires RiskCheck(r, p).approvedIntent.Some?
    ensures RiskCheck(r, p).approvedIntent.value == r.intent.(quantity := RiskCheck(r, p).approvedIntent.value.quantity)
  {
    hide Evaluations, HasHardBreach, BuildOrderEffect;
  }

  lemma CeilingsAreNonNegative(p: RiskPolicy, l: AccountRiskLimits)
    ensures var c := CeilingsOf(p, l); c.cashFloor >= 0.0 && c.instrument >= 0.0 && c.strategy >= 0.0 && c.total >= 0.0
  {
    hide PolicyFields.Consistent;
    ShareNonNegative(p.paperNav, p.instrumentSoftPct);
    ShareNonNegative(p.paperNav, p.instrumentHardPct);
    ShareNonNegative(p.paperNav, p.strategySoftPct);
    ShareNonNegative(p.paperNav, p.strategyHardPct);
    ShareNonNegative(p.paperNav, p.totalSoftPct);
    ShareNonNegative(p.paperNav, p.totalHardPct);
    ShareNonNegative(p.paperNav, p.minCashReservePct);
    ShareNonNegative(p.paperNav, l.minCashReservePct);
    ShareNonNegative(p.paperNav, l.maxInstrumentExposurePct);
    ShareNonNegative(p.paperNav, l.maxStrategyExposurePct);
    ShareNonNegative(p.paperNav, l.maxTotalSpotExposurePct);
  }

  lemma ShareNonNegative(nav: real, pct: real)
    requires nav >= 0.0 && pct >= 0.0
    ensures nav * pct >= 0.0
  {
  }

  /** Overwriting one entry with a value that does not exceed both the old value and the ceiling. */
  lemma UpdateKeeps(m: map<CanonicalId, real>, k: CanonicalId, v: real, ceiling: real)
    requires ceiling >= 0.0 && AtMost(m, ceiling) && NonNegativeValues(m) && 0.0 <= v
    requires v <= At(m, k) || v <= ceiling
    ensures AtMost(m[k := v], ceiling) && NonNegativeValues(m[k := v])
  {
  }

  lemma StepKeepsLimits(b: Book, p: RiskPolicy, s: Submission, account: Account)
    requires OneAccount(s.template.snapshot, account) && s.template.accountId == account.accountId
    requires WithinLimits(b, CeilingsOf(p, account.riskLimits))
    ensures var b' := StepBook(b, p, s);
      && WithinLimits(b', CeilingsOf(p, account.riskLimits))
      && b'.cash >= 0.0 && b'.totalExposure >= 0.0 && NonNegativeValues(b'.positions)
      && NonNegativeValues(b'.instrumentExposure) && NonNegativeValues(b'.strategyExposure)
  {
    hide RiskCheck, BuildOrderEffect, CeilingsOf, AtMost, NonNegativeValues;
    var r, c := RequestFrom(b, s), CeilingsOf(p, account.riskLimits);
    CeilingsAreNonNegative(p, account.riskLimits);
    if RiskCheck(r, p).approvedIntent.Some? {
      ApprovalIsSafe(r, p, account);
      var e := ApprovedEffect(r, RiskCheck(r, p).approvedIntent.value);
      var instrumentId := s.template.intent.instrumentId;
      UpdateKeeps(b.instrumentExposure, instrumentId, e.resultingInstrumentExposure, c.instrument);
      UpdateKeeps(b.strategyExposure, s.strategyId, e.resultingStrategyExposure, c.strategy);
      UpdateNonNegative(b.positions, instrumentId, e.resultingPosition);
    }
  }

  lemma UpdateNonNegative(m: map<CanonicalId, real>, k: CanonicalId, v: real)
    requires NonNegativeValues(m) && 0.0 <= v
    ensures NonNegativeValues(m[k := v])
  {
  }

  /** The book after a run; every request is built from the book its predecessors left. */
  function RunBook(b: Book, p: RiskPolicy, run: seq<Submission>, account: Account): (b': Book)
    requires forall s :: s in run ==>
      OneAccount(s.template.snapshot, account) && s.template.accountId == account.accountId
    requires KeepsLimits(b, p, account.riskLimits)
    ensures KeepsLimits(b', p, account.riskLimits)
  {
    if run == [] then b
    else
      var last := |run| - 1;
      assert run[last] in run;
      var before := RunBook(b, p, run[..last], account);
      LimitsMeaning(before, p, account.riskLimits);
      StepKeepsLimits(before, p, run[last], account);
      LimitsMeaning(StepBook(before, p, run[last]), p, account.riskLimits);
      StepBook(before, p, run[last])
  }
}
