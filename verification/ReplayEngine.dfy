/** Order-by-order replay: fill choice, prices and costs, and the balances it updates in place
  * (simulation/replay.py). */
module ReplayEngine {
  import opened Contracts
  import opened InstrumentMaster
  import opened Orders
  import opened ReplayInputs

  // ------------------------------------------------------------ order intents

  predicate SubmittedNoLater(a: OrderIntent, b: OrderIntent) {
    a.submittedAt < b.submittedAt || (a.submittedAt == b.submittedAt && a.clientOrderId <= b.clientOrderId)
  }

  /** Client order ids are distinct and submissions are in causal order. */
  ghost predicate IntentsOrdered(intents: seq<OrderIntent>) {
    forall i, j :: 0 <= i < j < |intents| ==>
      intents[i].clientOrderId != intents[j].clientOrderId && SubmittedNoLater(intents[i], intents[j])
  }

  /** In full: later orders have other ids, and are submitted later, or at the same time with a greater id. */
  lemma OrderedMeaning(intents: seq<OrderIntent>)
    ensures IntentsOrdered(intents) <==>
      forall i, j :: 0 <= i < j < |intents| ==>
        && intents[i].clientOrderId != intents[j].clientOrderId && intents[i].submittedAt <= intents[j].submittedAt
        && (intents[i].submittedAt == intents[j].submittedAt ==> intents[i].clientOrderId < intents[j].clientOrderId)
  {
  }

  method ValidateIntents(intents: seq<OrderIntent>) returns (error: Option<ReplayError>)
    ensures error.None? <==> IntentsOrdered(intents)
    ensures error.Some? ==> error.value.IsIntentError()
  {
    var seen: set<CanonicalId> := {};
    var previous: Option<OrderIntent> := None;
    for i := 0 to |intents|
      invariant IntentsOrdered(intents[..i])
      invariant forall id :: id in seen <==> exists k :: 0 <= k < i && intents[k].clientOrderId == id
      invariant previous == if i == 0 then None else Some(intents[i - 1])
    {
      var intent := intents[i];
      if intent.clientOrderId in seen {
        return Some(DuplicateClientOrder);
      }
      seen := seen + {intent.clientOrderId};
      if previous.Some? && !SubmittedNoLater(previous.value, intent) {
        return Some(UnsortedIntents);
      }
      assert forall k :: 0 <= k < i ==> SubmittedNoLater(intents[..i][k], intents[..i][i - 1]) || k == i - 1;
      previous := Some(intent);
    }
    assert intents[..|intents|] == intents;
    return None;
  }

  // ------------------------------------------------------------ rejection rules

  /** The snapshot and account that a replay may enforce. */
  datatype Context = Context(snapshot: Snapshot, accountId: CanonicalId)

  function MetadataRejectReason(intent: OrderIntent, ctx: Context): (r: Option<RejectReason>)
    ensures r.None? ==> FindInstrument(ctx.snapshot, intent.instrumentId).Some?
  {
    var venue := FindVenue(ctx.snapshot, intent.venueId);
    var instrument := FindInstrument(ctx.snapshot, intent.instrumentId);
    var account := FindAccount(ctx.snapshot, ctx.accountId);
    if venue.None? || venue.value.status != VenueActive then Some(VenueNotTradable)
    else if intent.orderType !in venue.value.supportedOrderTypes then Some(UnsupportedOrderType)
    else if instrument.None? || instrument.value.venueId != intent.venueId || instrument.value.instrumentType != Spot
      || instrument.value.status != Trading then Some(InstrumentNotTradable)
    else if intent.orderType !in instrument.value.supportedOrderTypes then Some(UnsupportedOrderType)
    else if account.None? || account.value.venueId != intent.venueId || account.value.status != AccountActive
      || (account.value.accountType != Simulation && account.value.accountType != AccountType.Paper)
      || PlaceOrders !in account.value.permissions then Some(AccountNotTradable)
    else None
  }

  /** Exactly one constraint must be effective at the fill bar's open, and the order must meet it at that price. */
  ghost predicate MeetsConstraint(intent: OrderIntent, snapshot: Snapshot, price: real, at: Timestamp) {
    var c := TheActiveConstraint(snapshot, intent.instrumentId, at);
    c.Some? && OrderAllowed(c.value, price, intent.quantity)
  }

  lemma MeetingConstraintNeedsPrice(intent: OrderIntent, snapshot: Snapshot, price: real, at: Timestamp)
    requires MeetsConstraint(intent, snapshot, price, at)
    ensures price > 0.0
  {
    var c := TheActiveConstraint(snapshot, intent.instrumentId, at).value;
    assert !Violates(c, price, intent.quantity, NonPositivePrice);
  }

  // ------------------------------------------------------------ fills

  /** A bar of the order's market that opens no earlier than the submission: never the bar just closed. */
  predicate Eligible(intent: OrderIntent, bar: OHLCTVBar) {
    && bar.instrumentId == intent.instrumentId && bar.venueId == intent.venueId
    && bar.openTs >= intent.submittedAt && bar.closeTs > intent.submittedAt
  }

  function EligibleIndices(intent: OrderIntent, bars: seq<OHLCTVBar>): (r: seq<nat>)
    ensures forall k :: 0 <= k < |r| ==> r[k] < |bars| && Eligible(intent, bars[r[k]])
  {
    if bars == [] then []
    else
      var n := |bars| - 1;
      EligibleIndices(intent, bars[..n]) + if Eligible(intent, bars[n]) then [n] else []
  }

  function UnfilledResult(intent: OrderIntent, reason: RejectReason, costs: Option<ExecutionCostModel>,
                          eligible: Option<nat>, attempt: Option<nat>): (r: OrderResult)
    ensures !r.IsFill() && r.reason == Some(reason) && r.Consistent()
  {
    OrderResult(
      intent.clientOrderId, intent.traceId, intent.sourceDecisionId, intent.instrumentId, intent.venueId, intent.side,
      intent.orderType, intent.quantity, intent.submittedAt,
      if reason == NoFutureEligibleEvent || reason == InsufficientLiquidity then Unfilled else RejectedFill,
      Some(reason), None, 0.0, intent.quantity, None, costs, eligible, attempt, None, None, 0.0, 0.0, 0.0, 0.0, 0.0,
      0.0)
  }

  function SpreadBpsOf(costs: Option<ExecutionCostModel>): NonNegativeDecimal {
    if costs.Some? then costs.value.spreadBps else 0.0
  }

  function SlippageBpsOf(costs: Option<ExecutionCostModel>): NonNegativeDecimal {
    if costs.Some? then costs.value.slippageBps else 0.0
  }

  function FeeRateOf(costs: Option<ExecutionCostModel>): (rate: NonNegativeDecimal)
    ensures rate <= 0.05
  {
    if costs.Some? then costs.value.takerFeeRate else 0.0
  }

  /** The price paid or received: the bar's open moved against the order by half-spread and slippage. */
  function EffectivePrice(side: OrderSide, open: real, costs: Option<ExecutionCostModel>): real {
    var adjustment := (SpreadBpsOf(costs) + SlippageBpsOf(costs)) / 10000.0;
    if side == Buy then open * (1.0 + adjustment) else open * (1.0 - adjustment)
  }

  function Abs(d: real): real {
    if d < 0.0 then -d else d
  }

  function FilledResult(intent: OrderIntent, bar: OHLCTVBar, filled: real, costs: Option<ExecutionCostModel>,
                        eligible: Option<nat>, attempt: Option<nat>): OrderResult
  {
    var price := EffectivePrice(intent.side, bar.open, costs);
    var reference, effective := bar.open * filled, price * filled;
    var fee, spread, slippage := Abs(effective) * FeeRateOf(costs), Abs(reference) * SpreadBpsOf(costs) / 10000.0,
      Abs(reference) * SlippageBpsOf(costs) / 10000.0;
    OrderResult(
      intent.clientOrderId, intent.traceId, intent.sourceDecisionId, intent.instrumentId, intent.venueId, intent.side,
      intent.orderType, intent.quantity, intent.submittedAt,
      if filled == intent.quantity then Filled else PartiallyFilled, None,
      Some(price), filled, intent.quantity - filled,
      Some(FillEvent(bar.openTs, bar.closeTs, bar.sourceTs, bar.rawPayloadId)),
      costs, eligible, attempt, Some(bar.open), Some(price), reference, effective, fee, spread, slippage,
      fee + spread + slippage)
  }

  /** Constructing the result validates it. */
  function ConstructFill(intent: OrderIntent, bar: OHLCTVBar, filled: real, costs: Option<ExecutionCostModel>,
                         eligible: Option<nat>, attempt: Option<nat>): Result<OrderResult, ReplayError>
  {
    var result := FilledResult(intent, bar, filled, costs, eligible, attempt);
    if result.Consistent() then Ok(result) else Err(InconsistentResult)
  }

  // ------------------------------------------------------------ one order, before balances

  /** The outcome an order gets from bars, costs and metadata alone; Err is the exception raised by an inconsistent
    * result. */
  ghost function Attempt(intent: OrderIntent, bars: seq<OHLCTVBar>, costs: Option<ExecutionCostModel>,
                         ctx: Option<Context>): Result<OrderResult, ReplayError>
  {
    var rejection := if ctx.Some? then MetadataRejectReason(intent, ctx.value) else None;
    if rejection.Some? then Ok(UnfilledResult(intent, rejection.value, None, None, None))
    else if intent.orderType != Market then Ok(UnfilledResult(intent, UnsupportedOrderType, None, None, None))
    else AttemptEligible(intent, bars, EligibleIndices(intent, bars), costs, ctx)
  }

  ghost function AttemptEligible(intent: OrderIntent, bars: seq<OHLCTVBar>, eligible: seq<nat>,
                                 costs: Option<ExecutionCostModel>,
                                 ctx: Option<Context>): Result<OrderResult, ReplayError>
    requires forall k :: 0 <= k < |eligible| ==> eligible[k] < |bars|
  {
    if eligible == [] then Ok(UnfilledResult(intent, NoFutureEligibleEvent, None, None, None))
    else if costs.None? then AttemptAt(intent, bars[eligible[0]], None, ctx, None, None)
    else if costs.value.latencyBars >= |eligible| then
      Ok(UnfilledResult(intent, NoFutureEligibleEvent, costs, Some(eligible[0]), None))
    else
      var attempt := eligible[costs.value.latencyBars];
      AttemptAt(intent, bars[attempt], costs, ctx, Some(eligible[0]), Some(attempt))
  }

  /** The attempt on the chosen bar. */
  ghost function AttemptAt(intent: OrderIntent, bar: OHLCTVBar, costs: Option<ExecutionCostModel>, ctx: Option<Context>,
                           eligible: Option<nat>, attempt: Option<nat>): Result<OrderResult, ReplayError>
  {
    if ctx.Some? && !MeetsConstraint(intent, ctx.value.snapshot, bar.open, bar.openTs) then
      Ok(UnfilledResult(intent, ConstraintViolated, costs, eligible, attempt))
    else
      var liquidity := Liquidity(intent, bar, costs);
      if liquidity <= 0.0 || (liquidity < intent.quantity && costs.Some? && !costs.value.allowPartialFills) then
        Ok(UnfilledResult(intent, InsufficientLiquidity, costs, eligible, attempt))
      else
        ConstructFill(intent, bar, Min(intent.quantity, liquidity), costs, eligible, attempt)
  }

  /** The most the order may take from the bar; without a cost model, everything it asks for. */
  function Liquidity(intent: OrderIntent, bar: OHLCTVBar, costs: Option<ExecutionCostModel>): real {
    if costs.None? then intent.quantity else bar.baseVolume * costs.value.maxParticipationRate
  }

  // ------------------------------------------------------------ balances

  function BaseKey(intent: OrderIntent, instrument: Instrument): BalanceKey {
    BalanceKey(intent.venueId, instrument.baseAssetId)
  }

  function QuoteKey(intent: OrderIntent, instrument: Instrument): BalanceKey {
    BalanceKey(intent.venueId, instrument.quoteAssetId)
  }

  /** A fill is applied to the balances, or turned into a rejection that leaves them alone. */
  function Settle(intent: OrderIntent, result: OrderResult, snapshot: Snapshot, b: Balances): (OrderResult, Balances)
    requires FindInstrument(snapshot, intent.instrumentId).Some?
  {
    var instrument := FindInstrument(snapshot, intent.instrumentId).value;
    var base, quote := BaseKey(intent, instrument), QuoteKey(intent, instrument);
    if intent.side == Buy then
      var debit := result.effectiveNotional + result.feeCost;
      if Balance(b, quote) < debit then (UnfilledResult(intent, InsufficientCash, None, None, None), b)
      else (result, b[quote := Balance(b, quote) - debit][base := Balance(b, base) + result.filledQuantity])
    else if Balance(b, base) < result.filledQuantity then
      (UnfilledResult(intent, InsufficientInventory, None, None, None), b)
    else
      (result, b[base := Balance(b, base) - result.filledQuantity]
        [quote := Balance(b, quote) + result.effectiveNotional - result.feeCost])
  }

  lemma FillHasInstrument(intent: OrderIntent, bars: seq<OHLCTVBar>, costs: Option<ExecutionCostModel>,
                          ctx: Option<Context>)
    requires Attempt(intent, bars, costs, ctx).Ok? && Attempt(intent, bars, costs, ctx).value.IsFill() && ctx.Some?
    ensures FindInstrument(ctx.value.snapshot, intent.instrumentId).Some?
  {
  }

  /** One order against the balances. */
  ghost function ReplayOne(intent: OrderIntent, bars: seq<OHLCTVBar>, costs: Option<ExecutionCostModel>,
                           ctx: Option<Context>, b: Balances): Result<(OrderResult, Balances), ReplayError>
  {
    match Attempt(intent, bars, costs, ctx)
    case Err(e) => Err(e)
    case Ok(result) =>
      if !result.IsFill() || ctx.None? then Ok((result, b))
      else
        FillHasInstrument(intent, bars, costs, ctx);
        Ok(Settle(intent, result, ctx.value.snapshot, b))
  }

  datatype Run = Run(results: seq<OrderResult>, balances: Balances)

  /** Orders in submission order; each sees the balances its predecessors left. */
  ghost function Replayed(intents: seq<OrderIntent>, bars: seq<OHLCTVBar>, costs: Option<ExecutionCostModel>,
                          ctx: Option<Context>, b: Balances): (r: Result<Run, ReplayError>)
    ensures r.Ok? ==> |r.value.results| == |intents|
  {
    if intents == [] then Ok(Run([], b))
    else
      var n := |intents| - 1;
      match Replayed(intents[..n], bars, costs, ctx, b)
      case Err(e) => Err(e)
      case Ok(before) =>
        match ReplayOne(intents[n], bars, costs, ctx, before.balances)
        case Err(e) => Err(e)
        case Ok((result, after)) => Ok(Run(before.results + [result], after))
  }

  // ------------------------------------------------------------ the engine's own code

  /** The balances dictionary, shared by reference between the order loop and the settlement. */
  class BalanceBook {
    var available: Balances

    constructor (account: SimulatedAccountState)
      ensures available == account.balances
    {
      available := account.balances;
    }

    method ApplyBalanceOrReject(intent: OrderIntent, result: OrderResult, snapshot: Snapshot)
      returns (settled: OrderResult)
      requires FindInstrument(snapshot, intent.instrumentId).Some?
      modifies this
      ensures (settled, available) == Settle(intent, result, snapshot, old(available))
    {
      var instrument := FindInstrument(snapshot, intent.instrumentId).value;
      var base, quote := BaseKey(intent, instrument), QuoteKey(intent, instrument);
      var baseBalance, quoteBalance := Balance(available, base), Balance(available, quote);
      if intent.side == Buy {
        var debit := result.effectiveNotional + result.feeCost;
        if quoteBalance < debit {
          return UnfilledResult(intent, InsufficientCash, None, None, None);
        }
        available := available[quote := quoteBalance - debit];
        available := available[base := baseBalance + result.filledQuantity];
        return result;
      }
      if baseBalance < result.filledQuantity {
        return UnfilledResult(intent, InsufficientInventory, None, None, None);
      }
      available := available[base := baseBalance - result.filledQuantity];
      available := available[quote := quoteBalance + result.effectiveNotional - result.feeCost];
      return result;
    }
  }

  method CheckConstraint(intent: OrderIntent, snapshot: Snapshot, price: real, at: Timestamp) returns (ok: bool)
    ensures ok == MeetsConstraint(intent, snapshot, price, at)
  {
    var active := ActiveConstraints(snapshot.constraints, intent.instrumentId, at);
    if |active| != 1 {
      return false;
    }
    var passed, _ := EvaluateOrder(active[0], price, intent.quantity);
    return passed;
  }

  /** The attempt on the chosen bar, step by step. */
  method TryBar(intent: OrderIntent, bar: OHLCTVBar, costs: Option<ExecutionCostModel>, ctx: Option<Context>,
                eligible: Option<nat>, attempt: Option<nat>) returns (r: Result<OrderResult, ReplayError>)
    ensures r == AttemptAt(intent, bar, costs, ctx, eligible, attempt)
  {
    hide ConstructFill, MeetsConstraint;
    if ctx.Some? {
      var ok := CheckConstraint(intent, ctx.value.snapshot, bar.open, bar.openTs);
      if !ok {
        return Ok(UnfilledResult(intent, ConstraintViolated, costs, eligible, attempt));
      }
    }
    var filled: real := intent.quantity;
    if costs.Some? {
      var liquidity := bar.baseVolume * costs.value.maxParticipationRate;
      if liquidity <= 0.0 {
        return Ok(UnfilledResult(intent, InsufficientLiquidity, costs, eligible, attempt));
      }
      filled := Min(intent.quantity, liquidity);
      if filled < intent.quantity && !costs.value.allowPartialFills {
        return Ok(UnfilledResult(intent, InsufficientLiquidity, costs, eligible, attempt));
      }
    }
    assert filled == Min(intent.quantity, Liquidity(intent, bar, costs)) && Liquidity(intent, bar, costs) > 0.0;
    return ConstructFill(intent, bar, filled, costs, eligible, attempt);
  }

  method ReplayOrder(intent: OrderIntent, bars: seq<OHLCTVBar>, costs: Option<ExecutionCostModel>, ctx: Option<Context>,
                     book: BalanceBook?) returns (r: Result<OrderResult, ReplayError>)
    requires ctx.Some? <==> book != null
    modifies book
    ensures var outcome := ReplayOne(intent, bars, costs, ctx, if book == null then map[] else old(book.available));
      match outcome
      case Err(e) => r == Err(e)
      case Ok((result, after)) =>
        r == Ok(result) && (book != null ==> book.available == after) && (book == null ==> after == map[])
  {
    if ctx.Some? {
      var rejection := MetadataRejectReason(intent, ctx.value);
      if rejection.Some? {
        return Ok(UnfilledResult(intent, rejection.value, None, None, None));
      }
    }
    if intent.orderType != Market {
      return Ok(UnfilledResult(intent, UnsupportedOrderType, None, None, None));
    }
    var eligible := EligibleIndices(intent, bars);
    if eligible == [] {
      return Ok(UnfilledResult(intent, NoFutureEligibleEvent, None, None, None));
    }
    if costs.None? {
      r := TryBar(intent, bars[eligible[0]], None, ctx, None, None);
    } else if costs.value.latencyBars >= |eligible| {
      return Ok(UnfilledResult(intent, NoFutureEligibleEvent, costs, Some(eligible[0]), None));
    } else {
      var attempt := eligible[costs.value.latencyBars];
      r := TryBar(intent, bars[attempt], costs, ctx, Some(eligible[0]), Some(attempt));
    }
    if r.Ok? && r.value.IsFill() && book != null {
      var settled := book.ApplyBalanceOrReject(intent, r.value, ctx.value.snapshot);
      r := Ok(settled);
    }
  }

  datatype Report = Report(results: seq<OrderResult>, finalAccount: Option<SimulatedAccountFields>)

  /** Bars are judged before order intents, both before the metadata; what is left is a result that fails its
    * validator. */
  ghost predicate Explains(e: ReplayError, bars: seq<OHLCTVBar>, intents: seq<OrderIntent>, snapshot: Option<Snapshot>,
                           account: Option<SimulatedAccountState>)
  {
    if !BarsSafe(bars) then e.IsBarError()
    else if !IntentsOrdered(intents) then e.IsIntentError()
    else if snapshot.Some? != account.Some? then e == SnapshotWithoutAccount
    else e == InconsistentResult
  }

  /** The whole replay: refused inputs, or one result per order and the final account. */
  method ReplayMarketOrders(bars: seq<OHLCTVBar>, intents: seq<OrderIntent>, costs: Option<ExecutionCostModel>,
                            snapshot: Option<Snapshot>, account: Option<SimulatedAccountState>)
    returns (r: Result<Report, ReplayError>)
    ensures match r
      case Ok(_) => r == ReplayReport(bars, intents, costs, snapshot, account)
      case Err(e) =>
        ReplayReport(bars, intents, costs, snapshot, account).Err? && Explains(e, bars, intents, snapshot, account)
  {
    hide BarsSafe, IntentsOrdered, ReplayOne;
    var barError := ValidateBars(bars);
    if barError.Some? {
      return Err(barError.value);
    }
    var intentError := ValidateIntents(intents);
    if intentError.Some? {
      return Err(intentError.value);
    }
    if snapshot.Some? != account.Some? {
      return Err(SnapshotWithoutAccount);
    }
    var ctx: Option<Context>, book: BalanceBook? := None, null;
    if account.Some? {
      ctx := Some(Context(snapshot.value, account.value.accountId));
      book := new BalanceBook(account.value);
    }
    ghost var start: Balances := if account.Some? then account.value.balances else map[];
    var results: seq<OrderResult> := [];
    for i := 0 to |intents|
      invariant ctx.Some? <==> book != null
      invariant book != null ==> fresh(book)
      invariant Replayed(intents[..i], bars, costs, ctx, start)
        == Ok(Run(results, if book == null then map[] else book.available))
    {
      assert intents[..i + 1][..i] == intents[..i];
      OneOrderError(intents[i], bars, costs, ctx, if book == null then map[] else book.available);
      var one := ReplayOrder(intents[i], bars, costs, ctx, book);
      if one.Err? {
        ErrorSpreads(intents, i + 1, bars, costs, ctx, start);
        return Err(one.error);
      }
      results := results + [one.value];
    }
    assert intents[..|intents|] == intents;
    return Ok(Report(results, if account.Some? then Some(AccountState(account.value.accountId, book.available))
      else None));
  }

  lemma OneOrderError(intent: OrderIntent, bars: seq<OHLCTVBar>, costs: Option<ExecutionCostModel>,
                      ctx: Option<Context>, b: Balances)
    ensures ReplayOne(intent, bars, costs, ctx, b).Err? ==>
      ReplayOne(intent, bars, costs, ctx, b).error == InconsistentResult
  {
    hide MeetsConstraint, OrderResult.Consistent, FilledResult, Settle, MetadataRejectReason, Eligible;
  }

  lemma {:induction false} ErrorSpreads(intents: seq<OrderIntent>, n: nat, bars: seq<OHLCTVBar>,
                                        costs: Option<ExecutionCostModel>, ctx: Option<Context>, b: Balances)
    requires n <= |intents| && Replayed(intents[..n], bars, costs, ctx, b).Err?
    ensures Replayed(intents, bars, costs, ctx, b).Err?
    decreases |intents| - n
  {
    if n < |intents| {
      assert intents[..n + 1][..n] == intents[..n];
      ErrorSpreads(intents, n + 1, bars, costs, ctx, b);
    } else {
      assert intents[..n] == intents;
    }
  }

  /** The replay as a function of its inputs. */
  ghost function ReplayReport(bars: seq<OHLCTVBar>, intents: seq<OrderIntent>, costs: Option<ExecutionCostModel>,
                              snapshot: Option<Snapshot>,
                              account: Option<SimulatedAccountState>): Result<Report, ReplayError>
  {
    if !BarsSafe(bars) || !IntentsOrdered(intents) || snapshot.Some? != account.Some? then Err(SnapshotWithoutAccount)
    else
      var ctx := if account.Some? then Some(Context(snapshot.value, account.value.accountId)) else None;
      match Replayed(intents, bars, costs, ctx, if account.Some? then account.value.balances else map[])
      case Err(e) => Err(e)
      case Ok(run) =>
        Ok(Report(run.results, if account.Some? then Some(AccountState(account.value.accountId, run.balances))
        else None))
  }
}
