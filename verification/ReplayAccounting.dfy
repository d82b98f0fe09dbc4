/** What a whole replay does to the account: exact costs, conservation per balance, no negative balance. */
module ReplayAccounting {
  import opened Contracts
  import opened InstrumentMaster
  import opened Orders
  import opened ReplayInputs
  import opened ReplayEngine

  // ------------------------------------------------------------ prices of one fill

  lemma AdverseMove(open: real, filled: real, spread: real, slippage: real)
    ensures open * (1.0 + (spread + slippage) / 10000.0) * filled
      == open * filled + open * filled * spread / 10000.0 + open * filled * slippage / 10000.0
    ensures open * (1.0 - (spread + slippage) / 10000.0) * filled
      == open * filled - open * filled * spread / 10000.0 - open * filled * slippage / 10000.0
  {
    var n, a := open * filled, (spread + slippage) / 10000.0;
    assert open * (1.0 + a) * filled == n * (1.0 + a);
    assert open * (1.0 - a) * filled == n * (1.0 - a);
    assert n * a == n * spread / 10000.0 + n * slippage / 10000.0;
  }

  lemma ProductNonNegative(a: real, b: real)
    requires a >= 0.0 && b >= 0.0
    ensures a * b >= 0.0
  {
  }

  lemma ProductPositive(a: real, b: real)
    requires a > 0.0 && b > 0.0
    ensures a * b > 0.0
  {
  }

  lemma PriceKeepsSign(side: OrderSide, open: NonNegativeDecimal, costs: Option<ExecutionCostModel>)
    ensures EffectivePrice(side, open, costs) >= 0.0
    ensures EffectivePrice(side, open, costs) > 0.0 <==> open > 0.0
  {
    var a := (SpreadBpsOf(costs) + SlippageBpsOf(costs)) / 10000.0;
    assert 0.0 <= a < 1.0;
    var factor := if side == Buy then 1.0 + a else 1.0 - a;
    ScalingKeepsSign(open, factor);
    assert EffectivePrice(side, open, costs) == open * factor;
  }

  lemma ScalingKeepsSign(open: NonNegativeDecimal, factor: real)
    requires factor > 0.0
    ensures open * factor >= 0.0 && (open * factor > 0.0 <==> open > 0.0)
  {
    if open > 0.0 {
      ProductPositive(open, factor);
    } else {
      assert open * factor == 0.0;
    }
  }

  /** The numbers of a fill, by sign and by the identity that ties the cash moved to the costs reported. */
  lemma FillNumbers(intent: OrderIntent, bar: OHLCTVBar, filled: real, costs: Option<ExecutionCostModel>,
                    eligible: Option<nat>, attempt: Option<nat>)
    requires filled > 0.0
    ensures var r := FilledResult(intent, bar, filled, costs, eligible, attempt);
      && r.referenceNotional >= 0.0 && r.effectiveNotional >= 0.0 && r.feeCost >= 0.0 && r.spreadCost >= 0.0
        && r.slippageCost >= 0.0
      && r.feeCost <= r.effectiveNotional
      && (intent.side == Buy ==> r.effectiveNotional == r.referenceNotional + r.spreadCost + r.slippageCost)
      && (intent.side == Sell ==> r.effectiveNotional == r.referenceNotional - r.spreadCost - r.slippageCost)
      && (costs.None? ==> r.totalCost == 0.0)
  {
    hide EffectivePrice, FilledResult, SpreadBpsOf, SlippageBpsOf, FeeRateOf;
    var reference, effective, fee, spread, slippage := FillArithmetic(intent.side, bar.open, filled, costs);
    FillFields(intent, bar, filled, costs, eligible, attempt, reference, effective, fee, spread, slippage);
  }

  lemma FillArithmetic(side: OrderSide, open: NonNegativeDecimal, filled: real, costs: Option<ExecutionCostModel>)
    returns (reference: real, effective: real, fee: real, spread: real, slippage: real)
    requires filled > 0.0
    ensures reference == open * filled && effective == EffectivePrice(side, open, costs) * filled
    ensures fee == effective * FeeRateOf(costs) && spread == reference * SpreadBpsOf(costs) / 10000.0
    ensures slippage == reference * SlippageBpsOf(costs) / 10000.0
    ensures reference >= 0.0 && effective >= 0.0 && spread >= 0.0 && slippage >= 0.0 && 0.0 <= fee <= effective
    ensures effective == if side == Buy then reference + spread + slippage else reference - spread - slippage
  {
    hide EffectivePrice, SpreadBpsOf, SlippageBpsOf, FeeRateOf;
    var price := EffectivePrice(side, open, costs);
    PriceKeepsSign(side, open, costs);
    ProductNonNegative(open, filled);
    ProductNonNegative(price, filled);
    AdversePrice(side, open, filled, costs);
    reference, effective := open * filled, price * filled;
    fee, spread := effective * FeeRateOf(costs), reference * SpreadBpsOf(costs) / 10000.0;
    slippage := reference * SlippageBpsOf(costs) / 10000.0;
    FeeWithinNotional(effective, FeeRateOf(costs), fee);
    CostShare(reference, SpreadBpsOf(costs));
    CostShare(reference, SlippageBpsOf(costs));
  }

  lemma FillFields(intent: OrderIntent, bar: OHLCTVBar, filled: real, costs: Option<ExecutionCostModel>,
                   eligible: Option<nat>, attempt: Option<nat>, reference: real, effective: real, fee: real,
                   spread: real, slippage: real)
    requires reference == bar.open * filled && reference >= 0.0
    requires effective == EffectivePrice(intent.side, bar.open, costs) * filled && effective >= 0.0
    requires fee == effective * FeeRateOf(costs)
    requires spread == reference * SpreadBpsOf(costs) / 10000.0
      && slippage == reference * SlippageBpsOf(costs) / 10000.0
    ensures var r := FilledResult(intent, bar, filled, costs, eligible, attempt);
      && r.referenceNotional == reference && r.effectiveNotional == effective
      && r.feeCost == fee && r.spreadCost == spread && r.slippageCost == slippage
        && r.totalCost == fee + spread + slippage
    ensures costs.None? ==> fee + spread + slippage == 0.0
  {
    hide EffectivePrice;
    assert Abs(reference) == reference && Abs(effective) == effective;
  }

  /** Spread and slippage are exactly the gap between the effective and the reference notional. */
  lemma AdversePrice(side: OrderSide, open: real, filled: real, costs: Option<ExecutionCostModel>)
    ensures side == Buy ==> (EffectivePrice(side, open, costs) * filled
      == open * filled + open * filled * SpreadBpsOf(costs) / 10000.0 + open * filled * SlippageBpsOf(costs) / 10000.0)
    ensures side == Sell ==> (EffectivePrice(side, open, costs) * filled
      == open * filled - open * filled * SpreadBpsOf(costs) / 10000.0 - open * filled * SlippageBpsOf(costs) / 10000.0)
  {
    AdverseMove(open, filled, SpreadBpsOf(costs), SlippageBpsOf(costs));
  }

  lemma CostShare(reference: real, bps: real)
    requires reference >= 0.0 && bps >= 0.0
    ensures reference * bps / 10000.0 >= 0.0
    ensures bps == 0.0 ==> reference * bps / 10000.0 == 0.0
  {
    ProductNonNegative(reference, bps);
  }

  lemma FeeWithinNotional(effective: real, rate: real, fee: real)
    requires effective >= 0.0 && 0.0 <= rate <= 0.05 && fee == effective * rate
    ensures 0.0 <= fee <= effective
  {
    ProductNonNegative(effective, 1.0 - rate);
    ProductNonNegative(effective, rate);
  }

  /** A fill passes its own validator exactly when the bar has a positive open. */
  lemma FillRaisesIffUnpriced(intent: OrderIntent, bar: OHLCTVBar, filled: real, costs: Option<ExecutionCostModel>,
                              eligible: Option<nat>, attempt: Option<nat>)
    requires 0.0 < filled <= intent.quantity
    ensures ConstructFill(intent, bar, filled, costs, eligible, attempt).Ok? <==> bar.open > 0.0
  {
    hide EffectivePrice;
    FillNumbers(intent, bar, filled, costs, eligible, attempt);
    PriceKeepsSign(intent.side, bar.open, costs);
  }

  // ------------------------------------------------------------ the bar a fill came from

  /** The bar tried: the first eligible one, or as many later as the latency says. */
  function AttemptIndex(intent: OrderIntent, bars: seq<OHLCTVBar>, costs: Option<ExecutionCostModel>): (r: Option<nat>)
    ensures r.Some? ==> r.value < |bars| && Eligible(intent, bars[r.value])
  {
    var eligible := EligibleIndices(intent, bars);
    var latency := if costs.Some? then costs.value.latencyBars else 0;
    if latency < |eligible| then Some(eligible[latency]) else None
  }

  /** How a fill is made from the bar tried. */
  ghost predicate FillFrom(r: OrderResult, intent: OrderIntent, bar: OHLCTVBar, costs: Option<ExecutionCostModel>) {
    && 0.0 < r.filledQuantity <= intent.quantity && r.filledQuantity <= Liquidity(intent, bar, costs)
    && r == FilledResult(intent, bar, r.filledQuantity, costs, r.eligibleEventIndex, r.fillAttemptEventIndex)
    && r.Consistent()
  }

  lemma AttemptAtFills(intent: OrderIntent, bar: OHLCTVBar, costs: Option<ExecutionCostModel>, ctx: Option<Context>,
                       eligible: Option<nat>, attempt: Option<nat>)
    requires AttemptAt(intent, bar, costs, ctx, eligible, attempt).Ok?
    requires AttemptAt(intent, bar, costs, ctx, eligible, attempt).value.IsFill()
    ensures FillFrom(AttemptAt(intent, bar, costs, ctx, eligible, attempt).value, intent, bar, costs)
    ensures CanTrade(intent, bar, costs)
    ensures AttemptAt(intent, bar, costs, ctx, eligible, attempt).value.filledQuantity == Offer(intent, bar, costs)
    ensures AttemptAt(intent, bar, costs, ctx, eligible, attempt).value.fillAttemptEventIndex == attempt
  {
    hide OrderResult.Consistent, MeetsConstraint, EffectivePrice;
    var filled := Min(intent.quantity, Liquidity(intent, bar, costs));
    assert AttemptAt(intent, bar, costs, ctx, eligible, attempt)
      == ConstructFill(intent, bar, filled, costs, eligible, attempt);
  }

  /** Every fill comes from the bar tried, and records its index when a cost model chose it. */
  lemma FillComesFromAttempt(intent: OrderIntent, bars: seq<OHLCTVBar>, costs: Option<ExecutionCostModel>,
                             ctx: Option<Context>)
    requires Attempt(intent, bars, costs, ctx).Ok? && Attempt(intent, bars, costs, ctx).value.IsFill()
    ensures AttemptIndex(intent, bars, costs).Some?
    ensures FillFrom(Attempt(intent, bars, costs, ctx).value, intent, bars[AttemptIndex(intent, bars, costs).value],
      costs)
    ensures CanTrade(intent, bars[AttemptIndex(intent, bars, costs).value], costs)
    ensures Attempt(intent, bars, costs, ctx).value.filledQuantity
      == Offer(intent, bars[AttemptIndex(intent, bars, costs).value], costs)
    ensures costs.Some? ==>
      Attempt(intent, bars, costs, ctx).value.fillAttemptEventIndex == AttemptIndex(intent, bars, costs)
  {
    hide AttemptAt, FillFrom, OrderResult.Consistent;
    var eligible := EligibleIndices(intent, bars);
    if costs.None? {
      AttemptAtFills(intent, bars[eligible[0]], None, ctx, None, None);
    } else {
      var attempt := eligible[costs.value.latencyBars];
      AttemptAtFills(intent, bars[attempt], costs, ctx, Some(eligible[0]), Some(attempt));
    }
  }

  /** The liquidity rule lets the order trade on the bar. */
  predicate CanTrade(intent: OrderIntent, bar: OHLCTVBar, costs: Option<ExecutionCostModel>) {
    var liquidity := Liquidity(intent, bar, costs);
    liquidity > 0.0 && (liquidity < intent.quantity && costs.Some? ==> costs.value.allowPartialFills)
  }

  lemma AttemptAtRaises(intent: OrderIntent, bar: OHLCTVBar, costs: Option<ExecutionCostModel>, ctx: Option<Context>,
                        eligible: Option<nat>, attempt: Option<nat>)
    ensures AttemptAt(intent, bar, costs, ctx, eligible, attempt).Err? <==>
      (ctx.None? && CanTrade(intent, bar, costs) && bar.open == 0.0)
  {
    hide OrderResult.Consistent, MeetsConstraint, EffectivePrice, ConstructFill;
    if CanTrade(intent, bar, costs) {
      var filled := Min(intent.quantity, Liquidity(intent, bar, costs));
      FillRaisesIffUnpriced(intent, bar, filled, costs, eligible, attempt);
      if ctx.Some? && MeetsConstraint(intent, ctx.value.snapshot, bar.open, bar.openTs) {
        MeetingConstraintNeedsPrice(intent, ctx.value.snapshot, bar.open, bar.openTs);
      }
    }
  }

  /** A replay without metadata raises exactly when an order could trade on a bar that opens at zero; with metadata,
    * never. */
  lemma ReplayRaisesExactlyOnZeroOpen(intent: OrderIntent, bars: seq<OHLCTVBar>, costs: Option<ExecutionCostModel>,
                                      ctx: Option<Context>, b: Balances)
    ensures ReplayOne(intent, bars, costs, ctx, b).Err?
      <==> (&& ctx.None? && intent.orderType == Market && AttemptIndex(intent, bars, costs).Some?
            && CanTrade(intent, bars[AttemptIndex(intent, bars, costs).value], costs)
            && bars[AttemptIndex(intent, bars, costs).value].open == 0.0)
  {
    hide AttemptAt, CanTrade, OrderResult.Consistent, Settle, MetadataRejectReason;
    var eligible := EligibleIndices(intent, bars);
    if costs.None? {
      if eligible != [] {
        AttemptAtRaises(intent, bars[eligible[0]], None, ctx, None, None);
      }
    } else if costs.value.latencyBars < |eligible| {
      var attempt := eligible[costs.value.latencyBars];
      AttemptAtRaises(intent, bars[attempt], costs, ctx, Some(eligible[0]), Some(attempt));
    }
  }

  /** The order could trade on the bar tried, and that bar opens at zero. */
  predicate TriesZeroOpen(intent: OrderIntent, bars: seq<OHLCTVBar>, costs: Option<ExecutionCostModel>) {
    && intent.orderType == Market && AttemptIndex(intent, bars, costs).Some?
    && CanTrade(intent, bars[AttemptIndex(intent, bars, costs).value], costs)
    && bars[AttemptIndex(intent, bars, costs).value].open == 0.0
  }

  /** A whole replay raises exactly when it has no metadata and one of its orders tries a bar that opens at zero. */
  lemma {:induction false} RunRaisesIff(intents: seq<OrderIntent>, bars: seq<OHLCTVBar>,
                                        costs: Option<ExecutionCostModel>, ctx: Option<Context>, start: Balances)
    ensures Replayed(intents, bars, costs, ctx, start).Err?
      <==> (ctx.None? && exists k :: 0 <= k < |intents| && TriesZeroOpen(intents[k], bars, costs))
  {
    hide ReplayOne, TriesZeroOpen;
    if intents != [] {
      var n := |intents| - 1;
      RunRaisesIff(intents[..n], bars, costs, ctx, start);
      assert forall k :: 0 <= k < n ==> intents[..n][k] == intents[k];
      var before := Replayed(intents[..n], bars, costs, ctx, start);
      if before.Ok? {
        OrderRaisesIff(intents[n], bars, costs, ctx, before.value.balances);
      }
    }
  }

  lemma OrderRaisesIff(intent: OrderIntent, bars: seq<OHLCTVBar>, costs: Option<ExecutionCostModel>,
                       ctx: Option<Context>, b: Balances)
    ensures ReplayOne(intent, bars, costs, ctx, b).Err? <==> (ctx.None? && TriesZeroOpen(intent, bars, costs))
  {
    hide ReplayOne;
    ReplayRaisesExactlyOnZeroOpen(intent, bars, costs, ctx, b);
  }

  /** Such inputs pass validation: any market order, and one bar of its market that opens at zero. */
  lemma ZeroOpenBarRaises(intent: OrderIntent, bar: OHLCTVBar)
    requires intent.orderType == Market && Eligible(intent, bar) && bar.open == 0.0 && bar.sourceTs <= bar.closeTs
    ensures BarsSafe([bar]) && IntentsOrdered([intent]) && Replayed([intent], [bar], None, None, map[]).Err?
  {
    hide Replayed, TriesZeroOpen, Eligible;
    var intents, bars := [intent], [bar];
    TriesOnlyBar(intent, bar);
    assert TriesZeroOpen(intents[0], bars, None);
    RunRaisesIff(intents, bars, None, None, map[]);
  }

  /** Such an order and such a bar exist. */
  lemma ZeroOpenBarExists()
    ensures exists intent: OrderIntent, bar: OHLCTVBar ::
      intent.orderType == Market && Eligible(intent, bar) && bar.open == 0.0 && bar.sourceTs <= bar.closeTs
  {
    var bar: OHLCTVBar := Bar(20, 1, 1, 0, 10, 10, 0.0, 1.0, 1);
    var intent := OrderIntent(1, 1, 1, 20, 1, Buy, Market, 1.0, 0, None);
    assert Eligible(intent, bar);
  }

  lemma TriesOnlyBar(intent: OrderIntent, bar: OHLCTVBar)
    requires intent.orderType == Market && Eligible(intent, bar) && bar.open == 0.0
    ensures TriesZeroOpen(intent, [bar], None)
  {
    var bars := [bar];
    assert bars[..0] == [] && EligibleIndices(intent, bars) == [0];
  }

  /** Costs in the cost model's own terms: the fee on what was paid or received, spread and slippage on the reference
    * notional, and none without a model. */
  predicate ChargedBy(costs: Option<ExecutionCostModel>, reference: real, effective: real, fee: real, spread: real,
                      slippage: real)
  {
    match costs
    case None => fee == 0.0 && spread == 0.0 && slippage == 0.0
    case Some(m) =>
      && fee == effective * m.takerFeeRate && spread == reference * m.spreadBps / 10000.0
      && slippage == reference * m.slippageBps / 10000.0
  }

  /** What was filled of the order, by the cost model's participation and partial-fill rules. */
  predicate SizedBy(costs: Option<ExecutionCostModel>, r: OrderResult, quantity: real, volume: real) {
    && r.remainingQuantity == quantity - r.filledQuantity
    && match costs
       case None => r.status == Filled && r.filledQuantity == quantity
       case Some(m) =>
         if quantity <= volume * m.maxParticipationRate then r.status == Filled && r.filledQuantity == quantity
         else
           r.status == PartiallyFilled && m.allowPartialFills && r.filledQuantity == volume * m.maxParticipationRate
  }

  /** The numbers of a fill, from the bar and the cost model alone: both notionals, the costs that separate them,
    * and the quantity. */
  ghost predicate PricedAt(r: OrderResult, intent: OrderIntent, bar: OHLCTVBar, costs: Option<ExecutionCostModel>) {
    && r.arrivalReferencePrice == Some(bar.open) && r.costModel == costs
    && r.fillPrice.Some? && r.effectiveFillPrice == r.fillPrice
    && r.referenceNotional == bar.open * r.filledQuantity
    && r.effectiveNotional == r.fillPrice.value * r.filledQuantity
    && ChargedBy(costs, r.referenceNotional, r.effectiveNotional, r.feeCost, r.spreadCost, r.slippageCost)
    && r.totalCost == r.feeCost + r.spreadCost + r.slippageCost
    && r.effectiveNotional - r.referenceNotional
      == (if intent.side == Buy then r.spreadCost + r.slippageCost else -(r.spreadCost + r.slippageCost))
    && SizedBy(costs, r, intent.quantity, bar.baseVolume)
  }

  lemma ChargesOfRates(costs: Option<ExecutionCostModel>, reference: real, effective: real, fee: real, spread: real,
                       slippage: real)
    requires fee == effective * FeeRateOf(costs) && spread == reference * SpreadBpsOf(costs) / 10000.0
    requires slippage == reference * SlippageBpsOf(costs) / 10000.0
    ensures ChargedBy(costs, reference, effective, fee, spread, slippage)
  {
    if costs.Some? {
      assert FeeRateOf(costs) == costs.value.takerFeeRate;
    }
  }

  lemma FillIsPricedAt(r: OrderResult, intent: OrderIntent, bar: OHLCTVBar, costs: Option<ExecutionCostModel>)
    requires FillFrom(r, intent, bar, costs) && CanTrade(intent, bar, costs)
    requires r.filledQuantity == Offer(intent, bar, costs)
    ensures PricedAt(r, intent, bar, costs)
  {
    FillIsSized(r, intent, bar, costs);
    hide ChargedBy, SizedBy, EffectivePrice, OrderResult.Consistent, FilledResult, Liquidity, CanTrade;
    FillMarks(intent, bar, r.filledQuantity, costs, r.eligibleEventIndex, r.fillAttemptEventIndex);
    FillCharges(intent, bar, r.filledQuantity, costs, r.eligibleEventIndex, r.fillAttemptEventIndex);
    NotionalsOf(r);
  }

  lemma FillCharges(intent: OrderIntent, bar: OHLCTVBar, filled: real, costs: Option<ExecutionCostModel>,
                    eligible: Option<nat>, attempt: Option<nat>)
    requires filled > 0.0
    ensures var r := FilledResult(intent, bar, filled, costs, eligible, attempt);
      && ChargedBy(costs, r.referenceNotional, r.effectiveNotional, r.feeCost, r.spreadCost, r.slippageCost)
      && r.totalCost == r.feeCost + r.spreadCost + r.slippageCost
      && r.effectiveNotional - r.referenceNotional
        == (if intent.side == Buy then r.spreadCost + r.slippageCost else -(r.spreadCost + r.slippageCost))
  {
    hide EffectivePrice, FilledResult, SpreadBpsOf, SlippageBpsOf, FeeRateOf, ChargedBy;
    var reference, effective, fee, spread, slippage := FillArithmetic(intent.side, bar.open, filled, costs);
    FillFields(intent, bar, filled, costs, eligible, attempt, reference, effective, fee, spread, slippage);
    ChargesOfRates(costs, reference, effective, fee, spread, slippage);
  }

  lemma NotionalsOf(r: OrderResult)
    requires r.Consistent() && r.IsFill()
    ensures r.arrivalReferencePrice.Some? && r.effectiveFillPrice.Some?
    ensures r.referenceNotional == r.arrivalReferencePrice.value * r.filledQuantity
    ensures r.effectiveNotional == r.effectiveFillPrice.value * r.filledQuantity
  {
  }

  lemma FillIsSized(r: OrderResult, intent: OrderIntent, bar: OHLCTVBar, costs: Option<ExecutionCostModel>)
    requires FillFrom(r, intent, bar, costs) && CanTrade(intent, bar, costs)
    requires r.filledQuantity == Offer(intent, bar, costs)
    ensures SizedBy(costs, r, intent.quantity, bar.baseVolume)
  {
    hide EffectivePrice, OrderResult.Consistent, FilledResult;
    FillMarks(intent, bar, r.filledQuantity, costs, r.eligibleEventIndex, r.fillAttemptEventIndex);
  }

  lemma FillMarks(intent: OrderIntent, bar: OHLCTVBar, filled: real, costs: Option<ExecutionCostModel>,
                  eligible: Option<nat>, attempt: Option<nat>)
    ensures var r := FilledResult(intent, bar, filled, costs, eligible, attempt);
      && r.arrivalReferencePrice == Some(bar.open) && r.costModel == costs && r.filledQuantity == filled
      && r.fillPrice == r.effectiveFillPrice == Some(EffectivePrice(intent.side, bar.open, costs))
      && r.remainingQuantity == intent.quantity - filled
      && r.status == (if filled == intent.quantity then Filled else PartiallyFilled)
  {
    hide EffectivePrice, SpreadBpsOf, SlippageBpsOf, FeeRateOf;
  }

  /** What settlement relies on: the cash a fill moves, and that selling never costs more than it brings. */
  ghost predicate SettlesExactly(r: OrderResult) {
    && r.filledQuantity > 0.0 && r.effectiveNotional + r.feeCost >= 0.0
    && (r.side == Buy ==> r.effectiveNotional + r.feeCost == r.referenceNotional + r.totalCost)
    && (r.side == Sell ==> r.effectiveNotional - r.feeCost == r.referenceNotional - r.totalCost >= 0.0)
  }

  lemma FillSettlesExactly(r: OrderResult, intent: OrderIntent, bar: OHLCTVBar, costs: Option<ExecutionCostModel>)
    requires FillFrom(r, intent, bar, costs)
    ensures SettlesExactly(r) && r.side == intent.side
  {
    hide EffectivePrice, OrderResult.Consistent;
    FillNumbers(intent, bar, r.filledQuantity, costs, r.eligibleEventIndex, r.fillAttemptEventIndex);
  }

  // ------------------------------------------------------------ flows

  /** Cash in or out, told by the costs a result reports rather than by what was debited. */
  function CashFlow(r: OrderResult): real {
    if !r.IsFill() then 0.0
    else if r.side == Buy then -(r.referenceNotional + r.totalCost)
    else r.referenceNotional - r.totalCost
  }

  function InventoryFlow(r: OrderResult): real {
    if !r.IsFill() then 0.0 else if r.side == Buy then r.filledQuantity else -r.filledQuantity
  }

  /** What one result moves in one balance. */
  function Flow(r: OrderResult, s: Snapshot, key: BalanceKey): real {
    var instrument := FindInstrument(s, r.instrumentId);
    if instrument.None? || key.venueId != r.venueId then 0.0
    else if key.assetId == instrument.value.quoteAssetId then CashFlow(r)
    else if key.assetId == instrument.value.baseAssetId then InventoryFlow(r)
    else 0.0
  }

  function NetFlow(results: seq<OrderResult>, s: Snapshot, key: BalanceKey): real {
    if results == [] then 0.0
    else NetFlow(results[..|results| - 1], s, key) + Flow(results[|results| - 1], s, key)
  }

  /** One settlement moves exactly its result's flow, in every balance, and keeps every balance non-negative. */
  lemma SettleMovesFlow(intent: OrderIntent, r: OrderResult, s: Snapshot, b: Balances, key: BalanceKey)
    requires FindInstrument(s, intent.instrumentId).Some?
    requires r.IsFill() && SettlesExactly(r)
    requires r.side == intent.side && r.instrumentId == intent.instrumentId && r.venueId == intent.venueId
    requires NonNegative(b)
    ensures var (settled, after) := Settle(intent, r, s, b);
      NonNegative(after) && Balance(after, key) == Balance(b, key) + Flow(settled, s, key)
  {
    hide OrderResult.Consistent;
    var instrument := FindInstrument(s, intent.instrumentId).value;
    var base, quote := BaseKey(intent, instrument), QuoteKey(intent, instrument);
    assert base != quote;
    assert Balance(b, base) >= 0.0 && Balance(b, quote) >= 0.0;
    var (settled, after) := Settle(intent, r, s, b);
    if settled != r {
      assert after == b && !settled.IsFill();
    }
    assert key == base <==> key.venueId == intent.venueId && key.assetId == instrument.baseAssetId;
    assert key == quote <==> key.venueId == intent.venueId && key.assetId == instrument.quoteAssetId;
  }

  lemma ReplayOneMovesFlow(intent: OrderIntent, bars: seq<OHLCTVBar>, costs: Option<ExecutionCostModel>, ctx: Context,
                           b: Balances, key: BalanceKey)
    requires ReplayOne(intent, bars, costs, Some(ctx), b).Ok? && NonNegative(b)
    ensures var (r, after) := ReplayOne(intent, bars, costs, Some(ctx), b).value;
      NonNegative(after) && Balance(after, key) == Balance(b, key) + Flow(r, ctx.snapshot, key)
  {
    hide Attempt, Settle, FillFrom, SettlesExactly, OrderResult.Consistent, NonNegative;
    var r := Attempt(intent, bars, costs, Some(ctx)).value;
    if r.IsFill() {
      FillHasInstrument(intent, bars, costs, Some(ctx));
      FillComesFromAttempt(intent, bars, costs, Some(ctx));
      var bar := bars[AttemptIndex(intent, bars, costs).value];
      FillSettlesExactly(r, intent, bar, costs);
      FillKeepsMarket(r, intent, bar, costs);
      SettleMovesFlow(intent, r, ctx.snapshot, b, key);
    }
  }

  lemma FillKeepsMarket(r: OrderResult, intent: OrderIntent, bar: OHLCTVBar, costs: Option<ExecutionCostModel>)
    requires FillFrom(r, intent, bar, costs)
    ensures r.instrumentId == intent.instrumentId && r.venueId == intent.venueId
      && r.clientOrderId == intent.clientOrderId
  {
    hide EffectivePrice, OrderResult.Consistent;
  }

  /** Whole-run accounting: each balance ends at its start plus the net flow of all results, and none is ever
    * negative. */
  lemma {:induction false} RunConservesBalances(intents: seq<OrderIntent>, bars: seq<OHLCTVBar>,
                                                costs: Option<ExecutionCostModel>, ctx: Context, start: Balances,
                                                key: BalanceKey)
    requires NonNegative(start)
    requires Replayed(intents, bars, costs, Some(ctx), start).Ok?
    ensures var run := Replayed(intents, bars, costs, Some(ctx), start).value;
      && NonNegative(run.balances)
      && Balance(run.balances, key) == Balance(start, key) + NetFlow(run.results, ctx.snapshot, key)
      && Balance(start, key) == if key in start then start[key] else 0.0
  {
    hide ReplayOne, NonNegative, Flow;
    if intents != [] {
      var n := |intents| - 1;
      RunConservesBalances(intents[..n], bars, costs, ctx, start, key);
      var before := Replayed(intents[..n], bars, costs, Some(ctx), start).value;
      ReplayOneMovesFlow(intents[n], bars, costs, ctx, before.balances, key);
      var (result, after) := ReplayOne(intents[n], bars, costs, Some(ctx), before.balances).value;
      assert (before.results + [result])[..n] == before.results;
    }
  }

  /** An order that does not fill leaves every balance as it was. */
  lemma UnfilledMovesNothing(intent: OrderIntent, bars: seq<OHLCTVBar>, costs: Option<ExecutionCostModel>,
                             ctx: Option<Context>, b: Balances)
    requires ReplayOne(intent, bars, costs, ctx, b).Ok? && !ReplayOne(intent, bars, costs, ctx, b).value.0.IsFill()
    ensures ReplayOne(intent, bars, costs, ctx, b).value.1 == b
  {
    hide Attempt, OrderResult.Consistent;
  }

  // ------------------------------------------------------------ when an order fills

  /** What the metadata must say for an order to be tried. */
  predicate Tradable(intent: OrderIntent, ctx: Context) {
    var venue, instrument, account := FindVenue(ctx.snapshot, intent.venueId),
      FindInstrument(ctx.snapshot, intent.instrumentId),
      FindAccount(ctx.snapshot, ctx.accountId);
    && venue.Some? && venue.value.status == VenueActive && intent.orderType in venue.value.supportedOrderTypes
    && instrument.Some? && instrument.value.venueId == intent.venueId && instrument.value.instrumentType == Spot
    && instrument.value.status == Trading && intent.orderType in instrument.value.supportedOrderTypes
    && account.Some? && account.value.venueId == intent.venueId && account.value.status == AccountActive
    && (account.value.accountType == Simulation || account.value.accountType == AccountType.Paper)
    && PlaceOrders in account.value.permissions
  }

  lemma RejectedUnlessTradable(intent: OrderIntent, ctx: Context)
    ensures MetadataRejectReason(intent, ctx).None? <==> Tradable(intent, ctx)
  {
    hide FindVenue, FindInstrument, FindAccount;
  }

  /** The fill the bar offers the order. */
  function Offer(intent: OrderIntent, bar: OHLCTVBar, costs: Option<ExecutionCostModel>): real {
    Min(intent.quantity, Liquidity(intent, bar, costs))
  }

  /** The balance holds what the fill takes: for a buy its reference notional and all its costs, for a sell the
    * quantity sold. */
  predicate CanPay(intent: OrderIntent, bar: OHLCTVBar, costs: Option<ExecutionCostModel>, ctx: Context, b: Balances)
    requires FindInstrument(ctx.snapshot, intent.instrumentId).Some?
  {
    var instrument := FindInstrument(ctx.snapshot, intent.instrumentId).value;
    var fill := FilledResult(intent, bar, Offer(intent, bar, costs), costs, None, None);
    if intent.side == Buy then Balance(b, QuoteKey(intent, instrument)) >= fill.referenceNotional + fill.totalCost
    else Balance(b, BaseKey(intent, instrument)) >= fill.filledQuantity
  }

  lemma AttemptAtIs(intent: OrderIntent, bar: OHLCTVBar, costs: Option<ExecutionCostModel>, ctx: Context,
                    eligible: Option<nat>, attempt: Option<nat>)
    ensures AttemptAt(intent, bar, costs, Some(ctx), eligible, attempt).Ok?
    ensures var r := AttemptAt(intent, bar, costs, Some(ctx), eligible, attempt).value;
      && (r.IsFill() <==> MeetsConstraint(intent, ctx.snapshot, bar.open, bar.openTs) && CanTrade(intent, bar, costs))
      && (r.IsFill() ==>
        r == FilledResult(intent, bar, Offer(intent, bar, costs), costs, eligible, attempt)
        && FillFrom(r, intent, bar, costs))
  {
    hide MeetsConstraint, ConstructFill, FillFrom, OrderResult.Consistent, EffectivePrice;
    AttemptAtRaises(intent, bar, costs, Some(ctx), eligible, attempt);
    if MeetsConstraint(intent, ctx.snapshot, bar.open, bar.openTs) && CanTrade(intent, bar, costs) {
      ConstructedIsFill(intent, bar, Offer(intent, bar, costs), costs, eligible, attempt);
      AttemptAtFills(intent, bar, costs, Some(ctx), eligible, attempt);
    }
  }

  lemma ConstructedIsFill(intent: OrderIntent, bar: OHLCTVBar, filled: real, costs: Option<ExecutionCostModel>,
                          eligible: Option<nat>, attempt: Option<nat>)
    requires ConstructFill(intent, bar, filled, costs, eligible, attempt).Ok?
    ensures ConstructFill(intent, bar, filled, costs, eligible, attempt).value.IsFill()
    ensures ConstructFill(intent, bar, filled, costs, eligible, attempt).value
      == FilledResult(intent, bar, filled, costs, eligible, attempt)
  {
    hide OrderResult.Consistent, EffectivePrice;
  }

  lemma AttemptIs(intent: OrderIntent, bars: seq<OHLCTVBar>, costs: Option<ExecutionCostModel>, ctx: Context)
    ensures Attempt(intent, bars, costs, Some(ctx)).Ok?
    ensures Attempt(intent, bars, costs, Some(ctx)).value.IsFill() <==>
      (&& Tradable(intent, ctx) && intent.orderType == Market && AttemptIndex(intent, bars, costs).Some?
       && var bar := bars[AttemptIndex(intent, bars, costs).value];
         MeetsConstraint(intent, ctx.snapshot, bar.open, bar.openTs) && CanTrade(intent, bar, costs))
  {
    hide AttemptAt, OrderResult.Consistent, Tradable, MetadataRejectReason, MeetsConstraint, CanTrade, FillFrom;
    RejectedUnlessTradable(intent, ctx);
    var eligible := EligibleIndices(intent, bars);
    if costs.None? {
      if eligible != [] {
        AttemptAtIs(intent, bars[eligible[0]], None, ctx, None, None);
      }
    } else if costs.value.latencyBars < |eligible| {
      AttemptAtIs(intent, bars[eligible[costs.value.latencyBars]], costs, ctx, Some(eligible[0]),
        Some(eligible[costs.value.latencyBars]));
    }
  }

  lemma SettleFillsIff(intent: OrderIntent, r: OrderResult, bar: OHLCTVBar, costs: Option<ExecutionCostModel>,
                       ctx: Context, b: Balances)
    requires FindInstrument(ctx.snapshot, intent.instrumentId).Some? && r.IsFill() && SettlesExactly(r)
      && r.side == intent.side
    requires r.filledQuantity == Offer(intent, bar, costs)
      && r == FilledResult(intent, bar, r.filledQuantity, costs, r.eligibleEventIndex, r.fillAttemptEventIndex)
    ensures Settle(intent, r, ctx.snapshot, b).0.IsFill() <==> CanPay(intent, bar, costs, ctx, b)
  {
    hide EffectivePrice, OrderResult.Consistent, FindInstrument, Offer, FilledResult;
    IndicesAreNotes(intent, bar, r.filledQuantity, costs, r.eligibleEventIndex, r.fillAttemptEventIndex);
  }

  lemma IndicesAreNotes(intent: OrderIntent, bar: OHLCTVBar, filled: real, costs: Option<ExecutionCostModel>,
                        eligible: Option<nat>, attempt: Option<nat>)
    ensures FilledResult(intent, bar, filled, costs, None, None)
      == FilledResult(intent, bar, filled, costs, eligible, attempt)
        .(eligibleEventIndex := None, fillAttemptEventIndex := None)
  {
    hide EffectivePrice;
  }

  /** With an account, an order fills exactly when the metadata allows it, a bar can be tried, the order meets the
    * constraint effective at that bar's open, the bar has the liquidity, and the balance covers notional and costs. */
  lemma FillsIff(intent: OrderIntent, bars: seq<OHLCTVBar>, costs: Option<ExecutionCostModel>, ctx: Context,
                 b: Balances)
    ensures ReplayOne(intent, bars, costs, Some(ctx), b).Ok?
    ensures ReplayOne(intent, bars, costs, Some(ctx), b).value.0.IsFill() <==>
      (&& Tradable(intent, ctx) && intent.orderType == Market && AttemptIndex(intent, bars, costs).Some?
       && var bar := bars[AttemptIndex(intent, bars, costs).value];
         && MeetsConstraint(intent, ctx.snapshot, bar.open, bar.openTs) && CanTrade(intent, bar, costs)
         && CanPay(intent, bar, costs, ctx, b))
  {
    hide Attempt, AttemptIndex, FillFrom, SettlesExactly, Settle, OrderResult.Consistent, MeetsConstraint, CanTrade,
      CanPay, EffectivePrice;
    AttemptIs(intent, bars, costs, ctx);
    var r := Attempt(intent, bars, costs, Some(ctx)).value;
    if r.IsFill() {
      FillHasInstrument(intent, bars, costs, Some(ctx));
      FillComesFromAttempt(intent, bars, costs, Some(ctx));
      var bar := bars[AttemptIndex(intent, bars, costs).value];
      FillSettlesExactly(r, intent, bar, costs);
      FillTakesOffer(intent, bars, costs, ctx);
      SettleFillsIff(intent, r, bar, costs, ctx, b);
    }
  }

  lemma FillTakesOffer(intent: OrderIntent, bars: seq<OHLCTVBar>, costs: Option<ExecutionCostModel>, ctx: Context)
    requires Attempt(intent, bars, costs, Some(ctx)).Ok? && Attempt(intent, bars, costs, Some(ctx)).value.IsFill()
    requires AttemptIndex(intent, bars, costs).Some?
    ensures var r, bar := Attempt(intent, bars, costs, Some(ctx)).value, bars[AttemptIndex(intent, bars, costs).value];
      r.filledQuantity == Offer(intent, bar, costs)
      && r == FilledResult(intent, bar, r.filledQuantity, costs, r.eligibleEventIndex, r.fillAttemptEventIndex)
  {
    hide AttemptAt, OrderResult.Consistent, MeetsConstraint, CanTrade, FillFrom, Offer, EffectivePrice;
    var eligible := EligibleIndices(intent, bars);
    if costs.None? {
      AttemptAtIs(intent, bars[eligible[0]], None, ctx, None, None);
    } else {
      AttemptAtIs(intent, bars[eligible[costs.value.latencyBars]], costs, ctx, Some(eligible[0]),
        Some(eligible[costs.value.latencyBars]));
    }
  }

  // ------------------------------------------------------------ results by order

  /** The identity fields an order and its result share. */
  ghost predicate ResultOf(r: OrderResult, intent: OrderIntent) {
    && r.clientOrderId == intent.clientOrderId && r.traceId == intent.traceId
      && r.sourceDecisionId == intent.sourceDecisionId
    && r.instrumentId == intent.instrumentId && r.venueId == intent.venueId && r.side == intent.side
    && r.quantity == intent.quantity && r.submittedAt == intent.submittedAt && r.Consistent()
  }

  lemma AttemptIsOfIntent(intent: OrderIntent, bars: seq<OHLCTVBar>, costs: Option<ExecutionCostModel>,
                          ctx: Option<Context>)
    requires Attempt(intent, bars, costs, ctx).Ok?
    ensures ResultOf(Attempt(intent, bars, costs, ctx).value, intent)
  {
    hide EffectivePrice, MeetsConstraint, MetadataRejectReason, OrderResult.Consistent;
  }

  lemma ReplayOneIsOfIntent(intent: OrderIntent, bars: seq<OHLCTVBar>, costs: Option<ExecutionCostModel>,
                            ctx: Option<Context>, b: Balances)
    requires ReplayOne(intent, bars, costs, ctx, b).Ok?
    ensures ResultOf(ReplayOne(intent, bars, costs, ctx, b).value.0, intent)
  {
    hide Attempt, OrderResult.Consistent;
    AttemptIsOfIntent(intent, bars, costs, ctx);
  }

  /** Results come one per order, in order, each consistent and carrying its own order's identity. */
  lemma {:induction false} ResultsMatchIntents(intents: seq<OrderIntent>, bars: seq<OHLCTVBar>,
                                               costs: Option<ExecutionCostModel>, ctx: Option<Context>, start: Balances,
                                               i: nat)
    requires i < |intents|
    requires Replayed(intents, bars, costs, ctx, start).Ok?
    ensures ResultOf(Replayed(intents, bars, costs, ctx, start).value.results[i], intents[i])
  {
    hide ReplayOne, ResultOf;
    var n := |intents| - 1;
    var before := Replayed(intents[..n], bars, costs, ctx, start).value;
    if i < n {
      ResultsMatchIntents(intents[..n], bars, costs, ctx, start, i);
    } else {
      ReplayOneIsOfIntent(intents[n], bars, costs, ctx, before.balances);
    }
  }

  lemma ReplayOneSettlesExactly(intent: OrderIntent, bars: seq<OHLCTVBar>, costs: Option<ExecutionCostModel>,
                                ctx: Option<Context>, b: Balances)
    requires ReplayOne(intent, bars, costs, ctx, b).Ok? && ReplayOne(intent, bars, costs, ctx, b).value.0.IsFill()
    ensures SettlesExactly(ReplayOne(intent, bars, costs, ctx, b).value.0)
  {
    hide Attempt, FillFrom, SettlesExactly, OrderResult.Consistent;
    FillComesFromAttempt(intent, bars, costs, ctx);
    FillSettlesExactly(Attempt(intent, bars, costs, ctx).value, intent, bars[AttemptIndex(intent, bars, costs).value],
      costs);
  }

  /** In every fill of a run the cash moved is explained by the costs reported. */
  lemma {:induction false} RunSettlesExactly(intents: seq<OrderIntent>, bars: seq<OHLCTVBar>,
                                             costs: Option<ExecutionCostModel>, ctx: Option<Context>, start: Balances,
                                             i: nat)
    requires i < |intents|
    requires Replayed(intents, bars, costs, ctx, start).Ok?
    requires Replayed(intents, bars, costs, ctx, start).value.results[i].IsFill()
    ensures SettlesExactly(Replayed(intents, bars, costs, ctx, start).value.results[i])
  {
    hide ReplayOne, SettlesExactly;
    var n := |intents| - 1;
    if i < n {
      RunSettlesExactly(intents[..n], bars, costs, ctx, start, i);
    } else {
      ReplayOneSettlesExactly(intents[n], bars, costs, ctx,
        Replayed(intents[..n], bars, costs, ctx, start).value.balances);
    }
  }

  // ------------------------------------------------------------ rejection counts

  function CountReason(results: seq<OrderResult>, reason: RejectReason): nat {
    if results == [] then 0
    else CountReason(results[..|results| - 1], reason) + if results[|results| - 1].reason == Some(reason) then 1 else 0
  }

  function CountFills(results: seq<OrderResult>): nat {
    if results == [] then 0
    else CountFills(results[..|results| - 1]) + if results[|results| - 1].IsFill() then 1 else 0
  }

  /** The non-zero count of every reason. */
  method BuildRejectionCounts(results: seq<OrderResult>) returns (counts: map<RejectReason, nat>)
    ensures forall reason :: CountReason(results, reason) == if reason in counts then counts[reason] else 0
    ensures forall reason :: reason in counts ==> counts[reason] > 0
  {
    counts := map[];
    for i := 0 to |results|
      invariant forall reason :: CountReason(results[..i], reason) == if reason in counts then counts[reason] else 0
      invariant forall reason :: reason in counts ==> counts[reason] > 0
    {
      assert results[..i + 1][..i] == results[..i];
      if results[i].reason.Some? {
        var reason := results[i].reason.value;
        counts := counts[reason := (if reason in counts then counts[reason] else 0) + 1];
      }
    }
    assert results[..|results|] == results;
  }

  function SumOverReasons(results: seq<OrderResult>): nat {
    CountReason(results, UnsupportedOrderType) + CountReason(results, NoFutureEligibleEvent)
    + CountReason(results, InsufficientLiquidity) + CountReason(results, VenueNotTradable)
    + CountReason(results, InstrumentNotTradable) + CountReason(results, AccountNotTradable)
    + CountReason(results, ConstraintViolated) + CountReason(results, InsufficientCash)
    + CountReason(results, InsufficientInventory)
  }

  /** Every order is counted once: as a fill or under one reason. */
  lemma {:induction false} FillsAndRejectionsPartition(results: seq<OrderResult>)
    requires forall k :: 0 <= k < |results| ==> results[k].Consistent()
    ensures CountFills(results) + SumOverReasons(results) == |results|
  {
    hide OrderResult.Consistent;
    if results != [] {
      var n := |results| - 1;
      FillsAndRejectionsPartition(results[..n]);
      FillHasNoReason(results[n]);
      assert |results[..n]| == n;
      OneReason(results);
    }
  }

  lemma OneReason(results: seq<OrderResult>)
    requires results != []
    ensures SumOverReasons(results)
      == SumOverReasons(results[..|results| - 1]) + if results[|results| - 1].reason.Some? then 1 else 0
  {
    var last := results[|results| - 1].reason;
    if last.Some? {
      match last.value {
        case UnsupportedOrderType => case NoFutureEligibleEvent => case InsufficientLiquidity =>
        case VenueNotTradable => case InstrumentNotTradable => case AccountNotTradable =>
        case ConstraintViolated => case InsufficientCash => case InsufficientInventory =>
      }
    }
  }

  lemma FillHasNoReason(r: OrderResult)
    requires r.Consistent()
    ensures r.IsFill() <==> r.reason.None?
  {
  }
}
