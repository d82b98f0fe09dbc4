/** What comes of an order in a replay, told by the order, its bars, the cost model, the metadata and the balances. */
module ReplayOutcomes {
  import opened Contracts
  import opened InstrumentMaster
  import opened Orders
  import opened ReplayInputs
  import opened ReplayEngine
  import opened ReplayAccounting
  import opened ReplayCausality

  function LatencyOf(costs: Option<ExecutionCostModel>): nat {
    if costs.Some? then costs.value.latencyBars else 0
  }

  /** The bar an order is tried on: the one with as many of its bars before it as the latency says. */
  predicate IsTried(k: int, intent: OrderIntent, bars: seq<OHLCTVBar>, costs: Option<ExecutionCostModel>) {
    0 <= k < |bars| && OpensFor(intent, bars[k]) && CountEligible(intent, bars[..k]) == LatencyOf(costs)
  }

  lemma TriedMeaning(intent: OrderIntent, bars: seq<OHLCTVBar>, costs: Option<ExecutionCostModel>)
    ensures AttemptIndex(intent, bars, costs).Some? ==>
      IsTried(AttemptIndex(intent, bars, costs).value, intent, bars, costs)
    ensures AttemptIndex(intent, bars, costs).None? ==> CountEligible(intent, bars) <= LatencyOf(costs)
  {
    CountIsLength(intent, bars);
    if LatencyOf(costs) < |EligibleIndices(intent, bars)| {
      EligibleBefore(intent, bars, LatencyOf(costs));
    }
  }

  /** Why the metadata turns an order away: its venue, its instrument or its account, in this order. */
  predicate MetadataSays(reason: Option<RejectReason>, intent: OrderIntent, ctx: Context) {
    var venue, instrument, account := FindVenue(ctx.snapshot, intent.venueId),
      FindInstrument(ctx.snapshot, intent.instrumentId), FindAccount(ctx.snapshot, ctx.accountId);
    var venueOpen := venue.Some? && venue.value.status == VenueActive;
    var instrumentOpen := instrument.Some? && instrument.value.venueId == intent.venueId
      && instrument.value.instrumentType == Spot && instrument.value.status == Trading;
    var accountMay := account.Some? && account.value.venueId == intent.venueId && account.value.status == AccountActive
      && account.value.accountType != Research && PlaceOrders in account.value.permissions;
    reason ==
      if !venueOpen then Some(VenueNotTradable)
      else if intent.orderType !in venue.value.supportedOrderTypes then Some(UnsupportedOrderType)
      else if !instrumentOpen then Some(InstrumentNotTradable)
      else if intent.orderType !in instrument.value.supportedOrderTypes then Some(UnsupportedOrderType)
      else if !accountMay then Some(AccountNotTradable)
      else None
  }

  lemma MetadataMeaning(intent: OrderIntent, ctx: Context)
    ensures MetadataSays(MetadataRejectReason(intent, ctx), intent, ctx)
  {
    hide FindVenue, FindInstrument, FindAccount;
  }

  /** The share of the bar's volume the order may take is nothing, or too little for an order that must fill whole. */
  predicate TooThin(intent: OrderIntent, bar: OHLCTVBar, m: ExecutionCostModel) {
    var share := bar.baseVolume * m.maxParticipationRate;
    share <= 0.0 || (share < intent.quantity && !m.allowPartialFills)
  }

  lemma CanTradeMeaning(intent: OrderIntent, bar: OHLCTVBar, costs: Option<ExecutionCostModel>)
    ensures CanTrade(intent, bar, costs) <==> costs.None? || !TooThin(intent, bar, costs.value)
  {
  }

  /** The balances hold what a fill takes: its notional and costs in the quote asset, or its quantity in the base. */
  predicate Affords(fill: OrderResult, intent: OrderIntent, s: Snapshot, b: Balances) {
    FindInstrument(s, intent.instrumentId).Some? &&
    var instrument := FindInstrument(s, intent.instrumentId).value;
    var key := BalanceKey(intent.venueId,
      if intent.side == Buy then instrument.quoteAssetId else instrument.baseAssetId);
    (if key in b then b[key] else 0.0)
      >= if intent.side == Buy then fill.referenceNotional + fill.totalCost else fill.filledQuantity
  }

  /** An outcome's status and reason go together. */
  predicate StatusSays(r: OrderResult) {
    && (r.IsFill() <==> r.reason.None?)
    && (r.status == Unfilled <==> r.reason == Some(NoFutureEligibleEvent) || r.reason == Some(InsufficientLiquidity))
  }

  /** What comes of an order before its balances, tried on bar k, or on none when k is -1: the first thing that
    * stands in its way, or a fill at that bar's price. */
  ghost predicate AttemptSays(r: OrderResult, intent: OrderIntent, bars: seq<OHLCTVBar>,
                              costs: Option<ExecutionCostModel>, ctx: Option<Context>, k: int)
    requires k == -1 || 0 <= k < |bars|
  {
    && StatusSays(r)
    && (if ctx.Some? && !Tradable(intent, ctx.value) then r.reason.Some? && MetadataSays(r.reason, intent, ctx.value)
        else
          r.reason ==
            if intent.orderType != Market then Some(UnsupportedOrderType)
            else if k == -1 then Some(NoFutureEligibleEvent)
            else if ctx.Some? && !MeetsConstraint(intent, ctx.value.snapshot, bars[k].open, bars[k].openTs)
              then Some(ConstraintViolated)
            else if costs.Some? && TooThin(intent, bars[k], costs.value) then Some(InsufficientLiquidity)
            else None)
    && (r.IsFill() ==> k != -1 && PricedAt(r, intent, bars[k], costs))
  }

  /** With an account, a fill becomes a rejection exactly when the balances do not hold what it takes. */
  ghost predicate OutcomeSays(r: OrderResult, intent: OrderIntent, bars: seq<OHLCTVBar>,
                              costs: Option<ExecutionCostModel>, ctx: Option<Context>, b: Balances, k: int)
    requires k == -1 || 0 <= k < |bars|
  {
    exists attempt: OrderResult :: AttemptSays(attempt, intent, bars, costs, ctx, k) &&
      if attempt.IsFill() && ctx.Some? && !Affords(attempt, intent, ctx.value.snapshot, b) then
        StatusSays(r) && r.reason == Some(if intent.side == Buy then InsufficientCash else InsufficientInventory)
      else r == attempt
  }

  lemma UnfilledSays(intent: OrderIntent, reason: RejectReason, costs: Option<ExecutionCostModel>,
                     eligible: Option<nat>, attempt: Option<nat>)
    ensures var r := UnfilledResult(intent, reason, costs, eligible, attempt);
      StatusSays(r) && r.reason == Some(reason)
  {
  }

  /** The attempt on a bar. */
  lemma AttemptAtSays(intent: OrderIntent, bar: OHLCTVBar, costs: Option<ExecutionCostModel>, ctx: Option<Context>,
                      eligible: Option<nat>, attempt: Option<nat>)
    requires AttemptAt(intent, bar, costs, ctx, eligible, attempt).Ok?
    ensures var r := AttemptAt(intent, bar, costs, ctx, eligible, attempt).value;
      && StatusSays(r)
      && r.reason == (
        if ctx.Some? && !MeetsConstraint(intent, ctx.value.snapshot, bar.open, bar.openTs) then Some(ConstraintViolated)
        else if costs.Some? && TooThin(intent, bar, costs.value) then Some(InsufficientLiquidity)
        else None)
      && (r.IsFill() ==> PricedAt(r, intent, bar, costs))
  {
    hide MeetsConstraint, OrderResult.Consistent, PricedAt, EffectivePrice, TooThin, CanTrade, FilledResult;
    var r := AttemptAt(intent, bar, costs, ctx, eligible, attempt).value;
    CanTradeMeaning(intent, bar, costs);
    AttemptAtOffers(intent, bar, costs, ctx, eligible, attempt);
    UnfilledSays(intent, ConstraintViolated, costs, eligible, attempt);
    UnfilledSays(intent, InsufficientLiquidity, costs, eligible, attempt);
    if r.IsFill() {
      AttemptAtFills(intent, bar, costs, ctx, eligible, attempt);
      FillIsPricedAt(r, intent, bar, costs);
    }
  }

  lemma AttemptAtOffers(intent: OrderIntent, bar: OHLCTVBar, costs: Option<ExecutionCostModel>, ctx: Option<Context>,
                        eligible: Option<nat>, attempt: Option<nat>)
    requires AttemptAt(intent, bar, costs, ctx, eligible, attempt).Ok?
    ensures AttemptAt(intent, bar, costs, ctx, eligible, attempt).value ==
      if ctx.Some? && !MeetsConstraint(intent, ctx.value.snapshot, bar.open, bar.openTs) then
        UnfilledResult(intent, ConstraintViolated, costs, eligible, attempt)
      else if !CanTrade(intent, bar, costs) then UnfilledResult(intent, InsufficientLiquidity, costs, eligible, attempt)
      else FilledResult(intent, bar, Offer(intent, bar, costs), costs, eligible, attempt)
    ensures FilledResult(intent, bar, Offer(intent, bar, costs), costs, eligible, attempt).reason.None?
    ensures FilledResult(intent, bar, Offer(intent, bar, costs), costs, eligible, attempt).IsFill()
  {
    hide MeetsConstraint, OrderResult.Consistent, EffectivePrice;
  }

  lemma AttemptMeaning(intent: OrderIntent, bars: seq<OHLCTVBar>, costs: Option<ExecutionCostModel>,
                       ctx: Option<Context>)
    requires Attempt(intent, bars, costs, ctx).Ok?
    ensures AttemptSays(Attempt(intent, bars, costs, ctx).value, intent, bars, costs, ctx,
      if AttemptIndex(intent, bars, costs).Some? then AttemptIndex(intent, bars, costs).value else -1)
  {
    hide AttemptAt, UnfilledResult, StatusSays, MetadataRejectReason, MetadataSays, Tradable, MeetsConstraint, TooThin,
      PricedAt;
    if ctx.Some? {
      MetadataMeaning(intent, ctx.value);
      RejectedUnlessTradable(intent, ctx.value);
      if MetadataRejectReason(intent, ctx.value).Some? {
        UnfilledSays(intent, MetadataRejectReason(intent, ctx.value).value, None, None, None);
      }
    }
    UnfilledSays(intent, UnsupportedOrderType, None, None, None);
    UnfilledSays(intent, NoFutureEligibleEvent, None, None, None);
    var eligible := EligibleIndices(intent, bars);
    if (ctx.Some? ==> Tradable(intent, ctx.value)) && intent.orderType == Market && eligible != [] {
      if costs.None? {
        AttemptAtSays(intent, bars[eligible[0]], None, ctx, None, None);
      } else if costs.value.latencyBars < |eligible| {
        var at := eligible[costs.value.latencyBars];
        AttemptAtSays(intent, bars[at], costs, ctx, Some(eligible[0]), Some(at));
      } else {
        UnfilledSays(intent, NoFutureEligibleEvent, costs, Some(eligible[0]), None);
      }
    }
  }

  lemma SettleMeaning(intent: OrderIntent, fill: OrderResult, s: Snapshot, b: Balances)
    requires FindInstrument(s, intent.instrumentId).Some? && fill.IsFill() && SettlesExactly(fill)
      && fill.side == intent.side
    ensures var r := Settle(intent, fill, s, b).0;
      if Affords(fill, intent, s, b) then r == fill
      else StatusSays(r) && r.reason == Some(if intent.side == Buy then InsufficientCash else InsufficientInventory)
  {
    hide UnfilledResult, StatusSays, FindInstrument;
    UnfilledSays(intent, InsufficientCash, None, None, None);
    UnfilledSays(intent, InsufficientInventory, None, None, None);
  }

  /** What comes of every order: k is the bar it was tried on, or -1 when no such bar is there. */
  lemma OutcomeMeaning(intent: OrderIntent, bars: seq<OHLCTVBar>, costs: Option<ExecutionCostModel>,
                       ctx: Option<Context>, b: Balances) returns (k: int)
    requires ReplayOne(intent, bars, costs, ctx, b).Ok?
    ensures k == -1 ==> CountEligible(intent, bars) <= LatencyOf(costs)
    ensures k != -1 ==> IsTried(k, intent, bars, costs)
    ensures OutcomeSays(ReplayOne(intent, bars, costs, ctx, b).value.0, intent, bars, costs, ctx, b, k)
  {
    hide Attempt, AttemptSays, Settle, Affords, StatusSays, SettlesExactly;
    k := if AttemptIndex(intent, bars, costs).Some? then AttemptIndex(intent, bars, costs).value else -1;
    TriedMeaning(intent, bars, costs);
    AttemptMeaning(intent, bars, costs, ctx);
    var attempt := Attempt(intent, bars, costs, ctx).value;
    if attempt.IsFill() && ctx.Some? {
      FillHasInstrument(intent, bars, costs, ctx);
      FillComesFromAttempt(intent, bars, costs, ctx);
      FillSettlesExactly(attempt, intent, bars[k], costs);
      SettleMeaning(intent, attempt, ctx.value.snapshot, b);
    }
  }

  /** In a run, every order meets the balances its predecessors left, and what comes of it is told from them. */
  lemma RunOutcomes(intents: seq<OrderIntent>, bars: seq<OHLCTVBar>, costs: Option<ExecutionCostModel>,
                    ctx: Option<Context>, start: Balances, i: nat) returns (k: int)
    requires i < |intents| && Replayed(intents, bars, costs, ctx, start).Ok?
    ensures k == -1 ==> CountEligible(intents[i], bars) <= LatencyOf(costs)
    ensures k != -1 ==> IsTried(k, intents[i], bars, costs)
    ensures Replayed(intents[..i], bars, costs, ctx, start).Ok?
    ensures OutcomeSays(Replayed(intents, bars, costs, ctx, start).value.results[i], intents[i], bars, costs, ctx,
      Replayed(intents[..i], bars, costs, ctx, start).value.balances, k)
  {
    hide ReplayOne, OutcomeSays;
    ResultOfPrefix(intents, bars, costs, ctx, start, i);
    k := OutcomeMeaning(intents[i], bars, costs, ctx, Replayed(intents[..i], bars, costs, ctx, start).value.balances);
  }

  lemma {:induction false} ResultOfPrefix(intents: seq<OrderIntent>, bars: seq<OHLCTVBar>,
                                          costs: Option<ExecutionCostModel>, ctx: Option<Context>, start: Balances,
                                          i: nat)
    requires i < |intents| && Replayed(intents, bars, costs, ctx, start).Ok?
    ensures Replayed(intents[..i], bars, costs, ctx, start).Ok?
    ensures var before := Replayed(intents[..i], bars, costs, ctx, start).value.balances;
      && ReplayOne(intents[i], bars, costs, ctx, before).Ok?
      && ReplayOne(intents[i], bars, costs, ctx, before).value.0
        == Replayed(intents, bars, costs, ctx, start).value.results[i]
  {
    hide ReplayOne;
    var n := |intents| - 1;
    if i < n {
      ResultOfPrefix(intents[..n], bars, costs, ctx, start, i);
      assert intents[..n][..i] == intents[..i];
    } else {
      assert intents[..n] == intents[..i];
    }
  }
}
