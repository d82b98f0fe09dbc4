/** Time in a replay: fills only move forward, and later bars do not change what was already decided. */
module ReplayCausality {
  import opened Contracts
  import opened InstrumentMaster
  import opened Orders
  import opened ReplayInputs
  import opened ReplayEngine
  import opened ReplayAccounting

  // ------------------------------------------------------------ eligible bars

  predicate Increasing(s: seq<nat>) {
    forall i, j :: 0 <= i < j < |s| ==> s[i] < s[j]
  }

  /** The eligible bars are all of them, in bar order. */
  lemma {:induction false} EligibleAreExact(intent: OrderIntent, bars: seq<OHLCTVBar>)
    ensures Increasing(EligibleIndices(intent, bars))
    ensures forall k :: 0 <= k < |bars| && Eligible(intent, bars[k]) ==> k in EligibleIndices(intent, bars)
  {
    if bars != [] {
      var n := |bars| - 1;
      EligibleAreExact(intent, bars[..n]);
      var before := EligibleIndices(intent, bars[..n]);
      forall k | 0 <= k < |bars| && Eligible(intent, bars[k]) ensures k in EligibleIndices(intent, bars) {
        if k < n {
          assert bars[..n][k] == bars[k];
          assert k in before;
        }
      }
    }
  }

  /** Choosing from fewer bars chooses no earlier. */
  lemma {:induction false} SubsequenceChoosesLater(few: seq<nat>, many: seq<nat>, n: nat)
    requires Increasing(few) && Increasing(many) && n < |few|
    requires forall k :: 0 <= k < |few| ==> few[k] in many
    ensures n < |many| && many[n] <= few[n]
    ensures exists m :: n <= m < |many| && many[m] == few[n]
  {
    assert few[n] in many;
    var m :| 0 <= m < |many| && many[m] == few[n];
    if n > 0 {
      SubsequenceChoosesLater(few, many, n - 1);
      var p :| n - 1 <= p < |many| && many[p] == few[n - 1];
      assert few[n - 1] < few[n];
      assert m > p;
    }
    assert n < m ==> many[n] < many[m];
  }

  predicate SameMarketOrders(a: OrderIntent, b: OrderIntent) {
    a.instrumentId == b.instrumentId && a.venueId == b.venueId
  }

  lemma LaterOrderSeesFewer(a: OrderIntent, b: OrderIntent, bars: seq<OHLCTVBar>)
    requires SameMarketOrders(a, b) && a.submittedAt <= b.submittedAt
    ensures var few, many := EligibleIndices(b, bars), EligibleIndices(a, bars);
      Increasing(few) && Increasing(many) && forall k :: 0 <= k < |few| ==> few[k] in many
  {
    EligibleAreExact(a, bars);
    EligibleAreExact(b, bars);
  }

  /** Within a market the eligible bars of a later order are the last ones of those of an earlier order. */
  lemma LaterOrderSeesSuffix(a: OrderIntent, b: OrderIntent, bars: seq<OHLCTVBar>, j: nat, k: nat)
    requires BarsSafe(bars) && SameMarketOrders(a, b) && a.submittedAt <= b.submittedAt
    requires j < k && j in EligibleIndices(b, bars) && k in EligibleIndices(a, bars)
    ensures k in EligibleIndices(b, bars)
  {
    EligibleAreExact(b, bars);
    assert SafePair(bars[j], bars[k]);
  }

  /** The bar tried by the later of two orders in a market is never an earlier bar. */
  lemma AttemptsMoveForward(a: OrderIntent, b: OrderIntent, bars: seq<OHLCTVBar>, costs: Option<ExecutionCostModel>)
    requires SameMarketOrders(a, b) && a.submittedAt <= b.submittedAt
    requires AttemptIndex(b, bars, costs).Some?
    ensures AttemptIndex(a, bars, costs).Some?
    ensures AttemptIndex(a, bars, costs).value <= AttemptIndex(b, bars, costs).value
  {
    LaterOrderSeesFewer(a, b, bars);
    var latency := if costs.Some? then costs.value.latencyBars else 0;
    SubsequenceChoosesLater(EligibleIndices(b, bars), EligibleIndices(a, bars), latency);
  }

  /** A bar of the order's market that opens at or after its submission. */
  predicate OpensFor(intent: OrderIntent, bar: OHLCTVBar) {
    bar.instrumentId == intent.instrumentId && bar.venueId == intent.venueId && intent.submittedAt <= bar.openTs
  }

  function CountEligible(intent: OrderIntent, bars: seq<OHLCTVBar>): nat {
    if bars == [] then 0
    else CountEligible(intent, bars[..|bars| - 1]) + if OpensFor(intent, bars[|bars| - 1]) then 1 else 0
  }

  lemma {:induction false} EligibleBefore(intent: OrderIntent, bars: seq<OHLCTVBar>, k: nat)
    requires k < |EligibleIndices(intent, bars)|
    ensures CountEligible(intent, bars[..EligibleIndices(intent, bars)[k]]) == k
  {
    var n := |bars| - 1;
    var before := EligibleIndices(intent, bars[..n]);
    if k < |before| {
      EligibleBefore(intent, bars[..n], k);
      assert bars[..n][..before[k]] == bars[..before[k]];
    } else {
      CountIsLength(intent, bars[..n]);
    }
  }

  lemma {:induction false} CountIsLength(intent: OrderIntent, bars: seq<OHLCTVBar>)
    ensures CountEligible(intent, bars) == |EligibleIndices(intent, bars)|
  {
    if bars != [] {
      CountIsLength(intent, bars[..|bars| - 1]);
    }
  }

  /** A fill happens on the bar with exactly `latency` eligible bars before it, opening no earlier than the submission,
    * for no more than its share of the bar's volume. */
  ghost predicate FillsOnLatencyBar(r: OrderResult, intent: OrderIntent, bars: seq<OHLCTVBar>,
                                    costs: Option<ExecutionCostModel>, k: int)
  {
    && 0 <= k < |bars| && OpensFor(intent, bars[k])
    && CountEligible(intent, bars[..k]) == (if costs.Some? then costs.value.latencyBars else 0)
    && r.fillEvent == Some(FillEvent(bars[k].openTs, bars[k].closeTs, bars[k].sourceTs, bars[k].rawPayloadId))
    && (costs.Some? ==>
      r.fillAttemptEventIndex == Some(k) && r.filledQuantity <= bars[k].baseVolume * costs.value.maxParticipationRate)
    && 0.0 < r.filledQuantity <= intent.quantity
  }

  lemma FillFromIsOnBar(r: OrderResult, intent: OrderIntent, bars: seq<OHLCTVBar>, costs: Option<ExecutionCostModel>)
    requires AttemptIndex(intent, bars, costs).Some?
    requires FillFrom(r, intent, bars[AttemptIndex(intent, bars, costs).value], costs)
    requires costs.Some? ==> r.fillAttemptEventIndex == AttemptIndex(intent, bars, costs)
    ensures FillsOnLatencyBar(r, intent, bars, costs, AttemptIndex(intent, bars, costs).value)
  {
    hide EffectivePrice, OrderResult.Consistent;
    EligibleBefore(intent, bars, if costs.Some? then costs.value.latencyBars else 0);
  }

  lemma FillIsAttempt(intent: OrderIntent, bars: seq<OHLCTVBar>, costs: Option<ExecutionCostModel>,
                      ctx: Option<Context>, b: Balances)
    requires ReplayOne(intent, bars, costs, ctx, b).Ok? && ReplayOne(intent, bars, costs, ctx, b).value.0.IsFill()
    ensures Attempt(intent, bars, costs, ctx) == Ok(ReplayOne(intent, bars, costs, ctx, b).value.0)
  {
    hide Attempt, OrderResult.Consistent;
  }

  lemma FillIsOnLatencyBar(intent: OrderIntent, bars: seq<OHLCTVBar>, costs: Option<ExecutionCostModel>,
                           ctx: Option<Context>, b: Balances)
    requires ReplayOne(intent, bars, costs, ctx, b).Ok? && ReplayOne(intent, bars, costs, ctx, b).value.0.IsFill()
    ensures AttemptIndex(intent, bars, costs).Some?
    ensures FillsOnLatencyBar(ReplayOne(intent, bars, costs, ctx, b).value.0, intent, bars, costs,
      AttemptIndex(intent, bars, costs).value)
    ensures PricedAt(ReplayOne(intent, bars, costs, ctx, b).value.0, intent,
      bars[AttemptIndex(intent, bars, costs).value], costs)
  {
    hide Attempt, ReplayOne, AttemptIndex, FillFrom, FillsOnLatencyBar, OrderResult.Consistent, PricedAt;
    FillIsAttempt(intent, bars, costs, ctx, b);
    FillComesFromAttempt(intent, bars, costs, ctx);
    var fill := Attempt(intent, bars, costs, ctx).value;
    FillIsPricedAt(fill, intent, bars[AttemptIndex(intent, bars, costs).value], costs);
    FillFromIsOnBar(fill, intent, bars, costs);
  }

  /** Every fill of a run is on its order's latency bar, and fills of one market never go back in time. */
  lemma FillsNeverGoBack(intents: seq<OrderIntent>, bars: seq<OHLCTVBar>, costs: Option<ExecutionCostModel>,
                         ctx: Option<Context>, start: Balances, i: nat, j: nat)
    requires BarsSafe(bars) && IntentsOrdered(intents) && i < j < |intents| && SameMarketOrders(intents[i], intents[j])
    requires Replayed(intents, bars, costs, ctx, start).Ok?
    requires Replayed(intents, bars, costs, ctx, start).value.results[i].IsFill()
    requires Replayed(intents, bars, costs, ctx, start).value.results[j].IsFill()
    ensures var results := Replayed(intents, bars, costs, ctx, start).value.results;
      exists p, q :: p <= q && FillsOnLatencyBar(results[i], intents[i], bars, costs, p)
        && FillsOnLatencyBar(results[j], intents[j], bars, costs, q) && bars[p].openTs <= bars[q].openTs
  {
    hide ReplayOne, FillsOnLatencyBar, BarsSafe, Replayed, AttemptIndex;
    var bi := BalancesBefore(intents, bars, costs, ctx, start, i);
    var bj := BalancesBefore(intents, bars, costs, ctx, start, j);
    FillIsOnLatencyBar(intents[i], bars, costs, ctx, bi);
    FillIsOnLatencyBar(intents[j], bars, costs, ctx, bj);
    AttemptsMoveForward(intents[i], intents[j], bars, costs);
    var p, q := AttemptIndex(intents[i], bars, costs).value, AttemptIndex(intents[j], bars, costs).value;
    OpensInOrder(bars, p, q);
  }

  /** In every run each fill is on its order's latency bar, with the quantity, prices and costs of that bar and the cost
    * model. */
  lemma RunFillsArePriced(intents: seq<OrderIntent>, bars: seq<OHLCTVBar>, costs: Option<ExecutionCostModel>,
                          ctx: Option<Context>, start: Balances, i: nat)
    requires Replayed(intents, bars, costs, ctx, start).Ok? && i < |intents|
    requires Replayed(intents, bars, costs, ctx, start).value.results[i].IsFill()
    ensures var r := Replayed(intents, bars, costs, ctx, start).value.results[i];
      exists k :: FillsOnLatencyBar(r, intents[i], bars, costs, k) && PricedAt(r, intents[i], bars[k], costs)
  {
    hide ReplayOne, FillsOnLatencyBar, PricedAt, Replayed, AttemptIndex;
    var b := BalancesBefore(intents, bars, costs, ctx, start, i);
    FillIsOnLatencyBar(intents[i], bars, costs, ctx, b);
    assert FillsOnLatencyBar(ReplayOne(intents[i], bars, costs, ctx, b).value.0, intents[i], bars, costs,
      AttemptIndex(intents[i], bars, costs).value);
  }

  lemma OpensInOrder(bars: seq<OHLCTVBar>, p: nat, q: nat)
    requires BarsSafe(bars) && p <= q < |bars| && SameMarket(bars[p], bars[q])
    ensures bars[p].openTs <= bars[q].openTs
  {
    assert p < q ==> SafePair(bars[p], bars[q]);
  }

  /** The balances an order of a run met. */
  lemma {:induction false} BalancesBefore(intents: seq<OrderIntent>, bars: seq<OHLCTVBar>,
                                          costs: Option<ExecutionCostModel>, ctx: Option<Context>, start: Balances,
                                          i: nat) returns (b: Balances)
    requires i < |intents|
    requires Replayed(intents, bars, costs, ctx, start).Ok?
    ensures ReplayOne(intents[i], bars, costs, ctx, b).Ok?
    ensures ReplayOne(intents[i], bars, costs, ctx, b).value.0
      == Replayed(intents, bars, costs, ctx, start).value.results[i]
  {
    hide ReplayOne;
    var n := |intents| - 1;
    if i < n {
      b := BalancesBefore(intents[..n], bars, costs, ctx, start, i);
    } else {
      b := Replayed(intents[..n], bars, costs, ctx, start).value.balances;
    }
  }

  // ------------------------------------------------------------ later bars

  lemma {:induction false} EligiblePrefix(intent: OrderIntent, bars: seq<OHLCTVBar>, later: seq<OHLCTVBar>)
    ensures EligibleIndices(intent, bars) <= EligibleIndices(intent, bars + later)
  {
    if later == [] {
      assert bars + later == bars;
    } else {
      var n := |later| - 1;
      EligiblePrefix(intent, bars, later[..n]);
      assert (bars + later)[..|bars| + n] == bars + later[..n];
    }
  }

  /** Whether the order is turned away before any bar is looked at. */
  predicate TurnedAway(intent: OrderIntent, ctx: Option<Context>) {
    (ctx.Some? && MetadataRejectReason(intent, ctx.value).Some?) || intent.orderType != Market
  }

  /** An order found no bar to try. */
  predicate FindsNoBar(intent: OrderIntent, bars: seq<OHLCTVBar>, costs: Option<ExecutionCostModel>,
                       ctx: Option<Context>)
  {
    !TurnedAway(intent, ctx) && AttemptIndex(intent, bars, costs).None?
  }

  lemma NoBarMeansNoFuture(intent: OrderIntent, bars: seq<OHLCTVBar>, costs: Option<ExecutionCostModel>,
                           ctx: Option<Context>, b: Balances)
    requires FindsNoBar(intent, bars, costs, ctx)
    ensures ReplayOne(intent, bars, costs, ctx, b).Ok?
    ensures ReplayOne(intent, bars, costs, ctx, b).value.1 == b
    ensures ReplayOne(intent, bars, costs, ctx, b).value.0.reason == Some(NoFutureEligibleEvent)
  {
    hide AttemptAt, OrderResult.Consistent, Settle, MetadataRejectReason;
  }

  lemma OneOrderIsStable(intent: OrderIntent, bars: seq<OHLCTVBar>, later: seq<OHLCTVBar>,
                         costs: Option<ExecutionCostModel>, ctx: Option<Context>, b: Balances)
    requires !FindsNoBar(intent, bars, costs, ctx)
    ensures ReplayOne(intent, bars + later, costs, ctx, b) == ReplayOne(intent, bars, costs, ctx, b)
  {
    hide AttemptAt, OrderResult.Consistent, Settle, MetadataRejectReason;
    EligiblePrefix(intent, bars, later);
    assert Attempt(intent, bars + later, costs, ctx) == Attempt(intent, bars, costs, ctx);
  }

  /** Result by result: the same, or one that had found no future bar. */
  ghost predicate OnlyNoFutureChanges(before: seq<OrderResult>, after: seq<OrderResult>) {
    |before| == |after| && forall k :: 0 <= k < |before| ==>
      after[k] == before[k] || before[k].reason == Some(NoFutureEligibleEvent)
  }

  lemma {:induction false} LaterBarsKeepResults(intents: seq<OrderIntent>, bars: seq<OHLCTVBar>, later: seq<OHLCTVBar>,
                                                costs: Option<ExecutionCostModel>, start: Balances)
    requires Replayed(intents, bars + later, costs, None, start).Ok?
    ensures Replayed(intents, bars, costs, None, start).Ok?
    ensures OnlyNoFutureChanges(Replayed(intents, bars, costs, None, start).value.results,
                                Replayed(intents, bars + later, costs, None, start).value.results)
    ensures Replayed(intents, bars, costs, None, start).value.balances == start
      == Replayed(intents, bars + later, costs, None, start).value.balances
  {
    hide ReplayOne, FindsNoBar;
    if intents != [] {
      var n := |intents| - 1;
      LaterBarsKeepResults(intents[..n], bars, later, costs, start);
      KeepsBalancesWithoutAccount(intents[n], bars + later, costs, start);
      if FindsNoBar(intents[n], bars, costs, None) {
        NoBarMeansNoFuture(intents[n], bars, costs, None, start);
      } else {
        OneOrderIsStable(intents[n], bars, later, costs, None, start);
      }
      KeepsBalancesWithoutAccount(intents[n], bars, costs, start);
    }
  }

  lemma ZeroOpenIsStable(intent: OrderIntent, bars: seq<OHLCTVBar>, later: seq<OHLCTVBar>,
                         costs: Option<ExecutionCostModel>)
    ensures FindsNoBar(intent, bars, costs, None) ==> !TriesZeroOpen(intent, bars, costs)
    ensures !FindsNoBar(intent, bars, costs, None) ==>
      (TriesZeroOpen(intent, bars + later, costs) <==> TriesZeroOpen(intent, bars, costs))
  {
    hide CanTrade;
    EligiblePrefix(intent, bars, later);
  }

  /** Without an account, later bars change nothing but orders that were still waiting for a bar; and they make a
    * replay raise exactly when a waiting order tries one that opens at zero. */
  lemma LaterBarsWithoutAccount(intents: seq<OrderIntent>, bars: seq<OHLCTVBar>, later: seq<OHLCTVBar>,
                                costs: Option<ExecutionCostModel>, start: Balances)
    requires Replayed(intents, bars, costs, None, start).Ok?
    ensures Replayed(intents, bars + later, costs, None, start).Err? <==>
      (exists k ::
        0 <= k < |intents| && FindsNoBar(intents[k], bars, costs, None)
        && TriesZeroOpen(intents[k], bars + later, costs))
    ensures Replayed(intents, bars + later, costs, None, start).Ok? ==>
      OnlyNoFutureChanges(Replayed(intents, bars, costs, None, start).value.results,
                          Replayed(intents, bars + later, costs, None, start).value.results)
  {
    hide Replayed, FindsNoBar, TriesZeroOpen, OnlyNoFutureChanges;
    RunRaisesIff(intents, bars, costs, None, start);
    RunRaisesIff(intents, bars + later, costs, None, start);
    forall k | 0 <= k < |intents|
      ensures FindsNoBar(intents[k], bars, costs, None) || !TriesZeroOpen(intents[k], bars + later, costs)
    {
      ZeroOpenIsStable(intents[k], bars, later, costs);
    }
    if Replayed(intents, bars + later, costs, None, start).Ok? {
      LaterBarsKeepResults(intents, bars, later, costs, start);
    }
  }

  lemma KeepsBalancesWithoutAccount(intent: OrderIntent, bars: seq<OHLCTVBar>, costs: Option<ExecutionCostModel>,
                                    b: Balances)
    ensures ReplayOne(intent, bars, costs, None, b).Ok? ==> ReplayOne(intent, bars, costs, None, b).value.1 == b
  {
    hide Attempt, Settle, OrderResult.Consistent;
  }

  ghost predicate OneMarket(intents: seq<OrderIntent>) {
    forall i, j :: 0 <= i < j < |intents| ==>
      SameMarketOrders(intents[i], intents[j]) && intents[i].submittedAt <= intents[j].submittedAt
  }

  ghost predicate SomeoneWaits(intents: seq<OrderIntent>, bars: seq<OHLCTVBar>, costs: Option<ExecutionCostModel>,
                               ctx: Option<Context>)
  {
    exists k :: 0 <= k < |intents| && FindsNoBar(intents[k], bars, costs, ctx)
  }

  /** Behind an order that waits for a bar there are only orders that wait too, or that are turned away. */
  ghost predicate OnlyWaitersFollow(intents: seq<OrderIntent>, bars: seq<OHLCTVBar>, costs: Option<ExecutionCostModel>,
                                    ctx: Option<Context>)
  {
    forall i, j :: 0 <= i < j < |intents| && FindsNoBar(intents[i], bars, costs, ctx) ==>
      FindsNoBar(intents[j], bars, costs, ctx) || TurnedAway(intents[j], ctx)
  }

  /** Within one market that is always so. */
  lemma WaitingSpreads(intents: seq<OrderIntent>, bars: seq<OHLCTVBar>, costs: Option<ExecutionCostModel>,
                       ctx: Option<Context>)
    requires OneMarket(intents)
    ensures OnlyWaitersFollow(intents, bars, costs, ctx)
  {
    hide TurnedAway, AttemptIndex;
    forall i, j | 0 <= i < j < |intents| && FindsNoBar(intents[i], bars, costs, ctx)
      ensures FindsNoBar(intents[j], bars, costs, ctx) || TurnedAway(intents[j], ctx)
    {
      assert SameMarketOrders(intents[i], intents[j]);
      if AttemptIndex(intents[j], bars, costs).Some? {
        AttemptsMoveForward(intents[i], intents[j], bars, costs);
      }
    }
  }

  lemma TurnedAwayIgnoresBars(intent: OrderIntent, bars: seq<OHLCTVBar>, more: seq<OHLCTVBar>,
                              costs: Option<ExecutionCostModel>, ctx: Option<Context>, b: Balances, c: Balances)
    requires TurnedAway(intent, ctx)
    ensures ReplayOne(intent, bars, costs, ctx, b).Ok? && ReplayOne(intent, more, costs, ctx, c).Ok?
    ensures ReplayOne(intent, bars, costs, ctx, b).value.0 == ReplayOne(intent, more, costs, ctx, c).value.0
    ensures ReplayOne(intent, bars, costs, ctx, b).value.1 == b
  {
    hide OrderResult.Consistent, Settle, MetadataRejectReason, AttemptEligible;
  }

  /** With or without an account and in any number of markets, the same holds when only waiting orders follow
    * waiting ones; and nothing changes at all when nobody waits. */
  lemma {:induction false} LaterBarsBehindWaiters(intents: seq<OrderIntent>, bars: seq<OHLCTVBar>,
                                                  later: seq<OHLCTVBar>, costs: Option<ExecutionCostModel>,
                                                  ctx: Option<Context>, start: Balances)
    requires OnlyWaitersFollow(intents, bars, costs, ctx)
    requires ctx.None? ==> Replayed(intents, bars + later, costs, ctx, start).Ok?
    ensures Replayed(intents, bars, costs, ctx, start).Ok? && Replayed(intents, bars + later, costs, ctx, start).Ok?
    ensures OnlyNoFutureChanges(Replayed(intents, bars, costs, ctx, start).value.results,
                                Replayed(intents, bars + later, costs, ctx, start).value.results)
    ensures !SomeoneWaits(intents, bars, costs, ctx) ==>
      Replayed(intents, bars, costs, ctx, start) == Replayed(intents, bars + later, costs, ctx, start)
  {
    RunRaisesIff(intents, bars + later, costs, ctx, start);
    hide ReplayOne, FindsNoBar, TurnedAway, TriesZeroOpen;
    if intents != [] {
      var n := |intents| - 1;
      assert OnlyWaitersFollow(intents[..n], bars, costs, ctx);
      LaterBarsBehindWaiters(intents[..n], bars, later, costs, ctx, start);
      var short := Replayed(intents[..n], bars, costs, ctx, start).value;
      var long := Replayed(intents[..n], bars + later, costs, ctx, start).value;
      var last := intents[n];
      if FindsNoBar(last, bars, costs, ctx) {
        NoBarMeansNoFuture(last, bars, costs, ctx, short.balances);
        assert FindsNoBar(intents[n], bars, costs, ctx);
      } else if SomeoneWaits(intents[..n], bars, costs, ctx) {
        var k :| 0 <= k < n && FindsNoBar(intents[..n][k], bars, costs, ctx);
        assert FindsNoBar(intents[k], bars, costs, ctx);
        TurnedAwayIgnoresBars(last, bars, bars + later, costs, ctx, short.balances, long.balances);
      } else {
        OneOrderIsStable(last, bars, later, costs, ctx, short.balances);
      }
    }
  }

  /** In particular when all orders are in one market: nobody after a waiting order could have filled. */
  lemma LaterBarsInOneMarket(intents: seq<OrderIntent>, bars: seq<OHLCTVBar>, later: seq<OHLCTVBar>,
                             costs: Option<ExecutionCostModel>, ctx: Option<Context>, start: Balances)
    requires OneMarket(intents)
    requires ctx.None? ==> Replayed(intents, bars + later, costs, ctx, start).Ok?
    ensures Replayed(intents, bars, costs, ctx, start).Ok? && Replayed(intents, bars + later, costs, ctx, start).Ok?
    ensures OnlyNoFutureChanges(Replayed(intents, bars, costs, ctx, start).value.results,
                                Replayed(intents, bars + later, costs, ctx, start).value.results)
  {
    WaitingSpreads(intents, bars, costs, ctx);
    LaterBarsBehindWaiters(intents, bars, later, costs, ctx, start);
  }

  // ------------------------------------------------------------ two markets, one purse

  const PURSE_SNAPSHOT := Snapshot(0, [Venue(1, VenueActive, {Market})],
    [Instrument(10, 1, 1, 3, Spot, Trading, {Market}), Instrument(20, 1, 2, 3, Spot, Trading, {Market})],
    [Account(5, 1, Simulation, AccountActive, {PlaceOrders}, AccountRiskLimits(0.025, 0.25, 0.3, 0.6, 0.5))],
    [InstrumentConstraint(7, 10, 1.0, 1.0, 1.0, None, None, None, Window(0, None)),
     InstrumentConstraint(8, 20, 1.0, 1.0, 1.0, None, None, None, Window(0, None))])

  const PURSE_CONTEXT := Some(Context(PURSE_SNAPSHOT, 5))

  const BUY_TEN := OrderIntent(1, 1, 1, 10, 1, Buy, Market, 1.0, 0, None)

  const BUY_TWENTY := OrderIntent(2, 2, 2, 20, 1, Buy, Market, 1.0, 0, None)

  const BAR_OF_TWENTY: OHLCTVBar := Bar(20, 1, 1, 0, 10, 10, 1.0, 1.0, 1)

  const LATE_BAR_OF_TEN: OHLCTVBar := Bar(10, 1, 1, 20, 30, 30, 1.0, 1.0, 2)

  const PURSE: Balances := map[BalanceKey(1, 3) := 1.0]

  lemma PurseOrdersAreTradable()
    ensures MetadataRejectReason(BUY_TEN, PURSE_CONTEXT.value).None?
    ensures MetadataRejectReason(BUY_TWENTY, PURSE_CONTEXT.value).None?
    ensures FindInstrument(PURSE_SNAPSHOT, 10) == Some(PURSE_SNAPSHOT.instruments[0])
    ensures FindInstrument(PURSE_SNAPSHOT, 20) == Some(PURSE_SNAPSHOT.instruments[1])
  {
    var i := PURSE_SNAPSHOT.instruments;
    assert i[1..] == [i[1]];
  }

  lemma PurseConstraints()
    ensures MeetsConstraint(BUY_TEN, PURSE_SNAPSHOT, 1.0, 20)
    ensures MeetsConstraint(BUY_TWENTY, PURSE_SNAPSHOT, 1.0, 0)
  {
    var c := PURSE_SNAPSHOT.constraints;
    assert c[1..] == [c[1]] && c[1..][1..] == [];
    assert ActiveConstraints(c, 10, 20) == [c[0]];
    assert ActiveConstraints(c, 20, 0) == [c[1]];
    assert IsDecimalMultiple(1.0, 1.0);
  }

  /** A purchase of one unit at price one, without costs. */
  lemma UnitPurchase(intent: OrderIntent, bars: seq<OHLCTVBar>, k: nat, b: Balances)
    requires intent.side == Buy && intent.orderType == Market && intent.quantity == 1.0
    requires MetadataRejectReason(intent, PURSE_CONTEXT.value).None?
    requires EligibleIndices(intent, bars) != [] && EligibleIndices(intent, bars)[0] == k && bars[k].open == 1.0
    requires MeetsConstraint(intent, PURSE_SNAPSHOT, 1.0, bars[k].openTs)
    requires FindInstrument(PURSE_SNAPSHOT, intent.instrumentId).Some?
    ensures ReplayOne(intent, bars, None, PURSE_CONTEXT, b).Ok?
    ensures var (r, after) := ReplayOne(intent, bars, None, PURSE_CONTEXT, b).value;
      var quote := QuoteKey(intent, FindInstrument(PURSE_SNAPSHOT, intent.instrumentId).value);
      if Balance(b, quote) < 1.0 then r.reason == Some(InsufficientCash)
      else r.IsFill() && Balance(after, quote) == Balance(b, quote) - 1.0
  {
    hide MeetsConstraint, MetadataRejectReason, FindInstrument, EligibleIndices;
    var r := FilledResult(intent, bars[k], 1.0, None, None, None);
    FillNumbers(intent, bars[k], 1.0, None, None, None);
    assert r.effectiveNotional == 1.0 && r.feeCost == 0.0;
    assert Attempt(intent, bars, None, PURSE_CONTEXT) == Ok(r);
  }

  /** Across markets it fails: a late bar of one market spends the cash that paid for a fill in the other. */
  lemma LaterBarsCanUndoFillAcrossMarkets()
    ensures var intents, bars, later := [BUY_TEN, BUY_TWENTY], [BAR_OF_TWENTY], [LATE_BAR_OF_TEN];
      && BarsSafe(bars + later) && IntentsOrdered(intents)
      && Replayed(intents, bars, None, PURSE_CONTEXT, PURSE).Ok?
        && Replayed(intents, bars + later, None, PURSE_CONTEXT, PURSE).Ok?
      && Replayed(intents, bars, None, PURSE_CONTEXT, PURSE).value.results[1].IsFill()
      && Replayed(intents, bars + later, None, PURSE_CONTEXT, PURSE).value.results[1].reason == Some(InsufficientCash)
  {
    hide MeetsConstraint, MetadataRejectReason, ReplayOne, FindInstrument;
    var intents, bars, later := [BUY_TEN, BUY_TWENTY], [BAR_OF_TWENTY], [LATE_BAR_OF_TEN];
    PurseOrdersAreTradable();
    PurseConstraints();
    PurseBars();
    assert intents[..1] == [BUY_TEN] && intents[..1][..0] == [];
    NoBarMeansNoFuture(BUY_TEN, bars, None, PURSE_CONTEXT, PURSE);
    UnitPurchase(BUY_TWENTY, bars, 0, PURSE);
    UnitPurchase(BUY_TEN, bars + later, 1, PURSE);
    var spent := ReplayOne(BUY_TEN, bars + later, None, PURSE_CONTEXT, PURSE).value.1;
    UnitPurchase(BUY_TWENTY, bars + later, 0, spent);
    TwoOrders(bars, PURSE);
    TwoOrders(bars + later, PURSE);
  }

  lemma PurseBars()
    ensures EligibleIndices(BUY_TEN, [BAR_OF_TWENTY]) == [] && EligibleIndices(BUY_TWENTY, [BAR_OF_TWENTY]) == [0]
    ensures EligibleIndices(BUY_TEN, [BAR_OF_TWENTY] + [LATE_BAR_OF_TEN]) == [1]
    ensures EligibleIndices(BUY_TWENTY, [BAR_OF_TWENTY] + [LATE_BAR_OF_TEN]) == [0]
  {
    var all := [BAR_OF_TWENTY] + [LATE_BAR_OF_TEN];
    assert all[..1] == [BAR_OF_TWENTY] && [BAR_OF_TWENTY][..0] == [];
  }

  lemma TwoOrders(bars: seq<OHLCTVBar>, b: Balances)
    requires ReplayOne(BUY_TEN, bars, None, PURSE_CONTEXT, b).Ok?
    requires ReplayOne(BUY_TWENTY, bars, None, PURSE_CONTEXT,
      ReplayOne(BUY_TEN, bars, None, PURSE_CONTEXT, b).value.1).Ok?
    ensures Replayed([BUY_TEN, BUY_TWENTY], bars, None, PURSE_CONTEXT, b).Ok?
    ensures Replayed([BUY_TEN, BUY_TWENTY], bars, None, PURSE_CONTEXT, b).value.results[1]
      == ReplayOne(BUY_TWENTY, bars, None, PURSE_CONTEXT,
        ReplayOne(BUY_TEN, bars, None, PURSE_CONTEXT, b).value.1).value.0
  {
    hide ReplayOne;
    OneMoreOrder([], BUY_TEN, bars, None, PURSE_CONTEXT, b, Run([], b));
    var (first, after) := ReplayOne(BUY_TEN, bars, None, PURSE_CONTEXT, b).value;
    assert [] + [BUY_TEN] == [BUY_TEN] && [] + [first] == [first];
    OneMoreOrder([BUY_TEN], BUY_TWENTY, bars, None, PURSE_CONTEXT, b, Run([first], after));
    assert [BUY_TEN] + [BUY_TWENTY] == [BUY_TEN, BUY_TWENTY];
  }

  lemma OneMoreOrder(intents: seq<OrderIntent>, next: OrderIntent, bars: seq<OHLCTVBar>,
                     costs: Option<ExecutionCostModel>, ctx: Option<Context>, b: Balances, before: Run)
    requires Replayed(intents, bars, costs, ctx, b) == Ok(before)
    requires ReplayOne(next, bars, costs, ctx, before.balances).Ok?
    ensures var (result, after) := ReplayOne(next, bars, costs, ctx, before.balances).value;
      Replayed(intents + [next], bars, costs, ctx, b) == Ok(Run(before.results + [result], after))
  {
    hide ReplayOne;
    assert (intents + [next])[..|intents|] == intents;
  }
}
