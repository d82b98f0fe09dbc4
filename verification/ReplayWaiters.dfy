/** Orders that wait for a bar while others settle: which fills later bars can undo, and which they cannot. */
module ReplayWaiters {
  import opened Contracts
  import opened InstrumentMaster
  import opened Orders
  import opened ReplayInputs
  import opened ReplayEngine
  import opened ReplayAccounting
  import opened ReplayCausality

  // ------------------------------------------------------------ what an order takes and gives

  /** Bars and metadata let the order fill; only a balance could still stop it. */
  ghost predicate FillsIfPaid(intent: OrderIntent, bars: seq<OHLCTVBar>, costs: Option<ExecutionCostModel>,
                              ctx: Context)
  {
    Attempt(intent, bars, costs, Some(ctx)).Ok? && Attempt(intent, bars, costs, Some(ctx)).value.IsFill()
  }

  /** The order's instrument trades this balance. */
  predicate Touches(intent: OrderIntent, s: Snapshot, key: BalanceKey) {
    var instrument := FindInstrument(s, intent.instrumentId);
    instrument.Some? && (key == BaseKey(intent, instrument.value) || key == QuoteKey(intent, instrument.value))
  }

  function DebitKey(intent: OrderIntent, instrument: Instrument): BalanceKey {
    if intent.side == Buy then QuoteKey(intent, instrument) else BaseKey(intent, instrument)
  }

  function CreditKey(intent: OrderIntent, instrument: Instrument): BalanceKey {
    if intent.side == Buy then BaseKey(intent, instrument) else QuoteKey(intent, instrument)
  }

  /** The order would be paid from this balance. */
  predicate PaysFrom(intent: OrderIntent, s: Snapshot, key: BalanceKey) {
    var instrument := FindInstrument(s, intent.instrumentId);
    instrument.Some? && key == DebitKey(intent, instrument.value)
  }

  /** The account cut down to one balance. */
  function Only(b: Balances, key: BalanceKey): Balances {
    map[key := Balance(b, key)]
  }

  function Taken(fill: OrderResult): real {
    if fill.side == Buy then fill.referenceNotional + fill.totalCost else fill.filledQuantity
  }

  function Given(fill: OrderResult): real {
    if fill.side == Buy then fill.filledQuantity else fill.referenceNotional - fill.totalCost
  }

  lemma FeeBelowNotional(effective: real, rate: real)
    requires effective > 0.0 && 0.0 <= rate <= 0.05
    ensures effective * rate < effective
  {
    ProductPositive(effective, 1.0 - rate);
  }

  /** A fill takes something and gives something. */
  lemma FillTakesAndGives(r: OrderResult, intent: OrderIntent, bar: OHLCTVBar, costs: Option<ExecutionCostModel>)
    requires FillFrom(r, intent, bar, costs) && r.IsFill()
    ensures Taken(r) > 0.0 && Given(r) > 0.0
  {
    hide EffectivePrice, FillFrom, Liquidity;
    FillSettlesExactly(r, intent, bar, costs);
    FillIsPriced(r, intent, bar, costs);
  }

  lemma FillIsPriced(r: OrderResult, intent: OrderIntent, bar: OHLCTVBar, costs: Option<ExecutionCostModel>)
    requires FillFrom(r, intent, bar, costs) && r.IsFill()
    ensures r.effectiveNotional > 0.0 && 0.0 <= r.feeCost < r.effectiveNotional
  {
    hide Liquidity, FilledResult, OrderResult.Consistent;
    ConsistentFillIsPositive(r);
    FeeOfFill(intent, bar, r.filledQuantity, costs, r.eligibleEventIndex, r.fillAttemptEventIndex);
  }

  lemma ConsistentFillIsPositive(r: OrderResult)
    requires r.Consistent() && r.IsFill() && r.filledQuantity > 0.0
    ensures r.effectiveNotional > 0.0 && r.feeCost >= 0.0
  {
    ProductPositive(r.effectiveFillPrice.value, r.filledQuantity);
  }

  lemma FeeOfFill(intent: OrderIntent, bar: OHLCTVBar, filled: real, costs: Option<ExecutionCostModel>,
                  eligible: Option<nat>, attempt: Option<nat>)
    requires filled > 0.0
    ensures var r := FilledResult(intent, bar, filled, costs, eligible, attempt);
      r.effectiveNotional > 0.0 ==> r.feeCost < r.effectiveNotional
  {
    hide EffectivePrice, FilledResult, SpreadBpsOf, SlippageBpsOf, FeeRateOf;
    var reference, effective, fee, spread, slippage := FillArithmetic(intent.side, bar.open, filled, costs);
    FillFields(intent, bar, filled, costs, eligible, attempt, reference, effective, fee, spread, slippage);
    if effective > 0.0 {
      FeeBelowNotional(effective, FeeRateOf(costs));
    }
  }

  /** How a settlement depends on the balance it is paid from, and what it moves. */
  lemma SettlementByBalance(intent: OrderIntent, r: OrderResult, s: Snapshot, b: Balances, instrument: Instrument)
    requires FindInstrument(s, intent.instrumentId) == Some(instrument)
    requires r.IsFill() && SettlesExactly(r) && r.side == intent.side
    requires r.instrumentId == intent.instrumentId && r.venueId == intent.venueId
    ensures var (settled, after) := Settle(intent, r, s, b);
      && (Balance(b, DebitKey(intent, instrument)) >= Taken(r) ==> settled == r)
      && (Balance(b, DebitKey(intent, instrument)) < Taken(r) ==>
        !settled.IsFill() && settled.reason.Some? && settled.reason.value != NoFutureEligibleEvent
        && settled == Settle(intent, r, s, Only(b, DebitKey(intent, instrument))).0)
      && Balance(after, DebitKey(intent, instrument))
        == Balance(b, DebitKey(intent, instrument)) - (if settled == r then Taken(r) else 0.0)
      && Balance(after, CreditKey(intent, instrument))
        == Balance(b, CreditKey(intent, instrument)) + (if settled == r then Given(r) else 0.0)
      && (forall key :: !Touches(intent, s, key) ==> Balance(after, key) == Balance(b, key))
  {
    hide OrderResult.Consistent, FindInstrument;
    assert DebitKey(intent, instrument) != CreditKey(intent, instrument);
  }

  /** One order, by the balance it is paid from. */
  lemma OrderByBalance(intent: OrderIntent, bars: seq<OHLCTVBar>, costs: Option<ExecutionCostModel>, ctx: Context,
                       b: Balances) returns (fill: OrderResult, instrument: Instrument)
    requires FillsIfPaid(intent, bars, costs, ctx)
    ensures fill == Attempt(intent, bars, costs, Some(ctx)).value && fill.IsFill() && fill.reason.None?
    ensures Taken(fill) > 0.0 && Given(fill) > 0.0
    ensures FindInstrument(ctx.snapshot, intent.instrumentId) == Some(instrument)
    ensures ReplayOne(intent, bars, costs, Some(ctx), b).Ok?
    ensures var (r, after) := ReplayOne(intent, bars, costs, Some(ctx), b).value;
      && (Balance(b, DebitKey(intent, instrument)) >= Taken(fill) ==> r == fill)
      && (Balance(b, DebitKey(intent, instrument)) < Taken(fill) ==>
        !r.IsFill() && r.reason.Some? && r.reason.value != NoFutureEligibleEvent
        && r == Settle(intent, fill, ctx.snapshot, Only(b, DebitKey(intent, instrument))).0)
      && Balance(after, DebitKey(intent, instrument))
        == Balance(b, DebitKey(intent, instrument)) - (if r == fill then Taken(fill) else 0.0)
      && Balance(after, CreditKey(intent, instrument))
        == Balance(b, CreditKey(intent, instrument)) + (if r == fill then Given(fill) else 0.0)
      && (forall key :: !Touches(intent, ctx.snapshot, key) ==> Balance(after, key) == Balance(b, key))
  {
    hide Attempt, FillFrom, SettlesExactly, Settle, OrderResult.Consistent, Touches, Balance, Taken, Given, DebitKey,
      CreditKey;
    FillHasInstrument(intent, bars, costs, Some(ctx));
    FillComesFromAttempt(intent, bars, costs, Some(ctx));
    fill := Attempt(intent, bars, costs, Some(ctx)).value;
    instrument := FindInstrument(ctx.snapshot, intent.instrumentId).value;
    var bar := bars[AttemptIndex(intent, bars, costs).value];
    AttemptIsOfIntent(intent, bars, costs, Some(ctx));
    FillHasNoReason(fill);
    FillSettlesExactly(fill, intent, bar, costs);
    FillKeepsMarket(fill, intent, bar, costs);
    FillTakesAndGives(fill, intent, bar, costs);
    SettlementByBalance(intent, fill, ctx.snapshot, b, instrument);
  }

  /** An order that no balance could make fill has one result and moves nothing. */
  lemma UnfillableIgnoresBalances(intent: OrderIntent, bars: seq<OHLCTVBar>, costs: Option<ExecutionCostModel>,
                                  ctx: Context, b: Balances, c: Balances)
    requires !FillsIfPaid(intent, bars, costs, ctx)
    ensures ReplayOne(intent, bars, costs, Some(ctx), b).Ok? && ReplayOne(intent, bars, costs, Some(ctx), c).Ok?
    ensures ReplayOne(intent, bars, costs, Some(ctx), b).value.0 == ReplayOne(intent, bars, costs, Some(ctx), c).value.0
    ensures ReplayOne(intent, bars, costs, Some(ctx), b).value.1 == b
      && ReplayOne(intent, bars, costs, Some(ctx), c).value.1 == c
  {
    hide Attempt, Settle, OrderResult.Consistent;
    AttemptIs(intent, bars, costs, ctx);
  }

  /** The result depends on the balances only through the one the order is paid from; untouched balances stay. */
  lemma ResultByDebit(intent: OrderIntent, bars: seq<OHLCTVBar>, costs: Option<ExecutionCostModel>, ctx: Context,
                      b: Balances, c: Balances)
    requires FillsIfPaid(intent, bars, costs, ctx) ==>
      forall key :: PaysFrom(intent, ctx.snapshot, key) ==> Balance(b, key) == Balance(c, key)
    ensures ReplayOne(intent, bars, costs, Some(ctx), b).Ok? && ReplayOne(intent, bars, costs, Some(ctx), c).Ok?
    ensures ReplayOne(intent, bars, costs, Some(ctx), b).value.0 == ReplayOne(intent, bars, costs, Some(ctx), c).value.0
    ensures forall key :: Balance(b, key) == Balance(c, key) ==>
      Balance(ReplayOne(intent, bars, costs, Some(ctx), b).value.1, key)
        == Balance(ReplayOne(intent, bars, costs, Some(ctx), c).value.1, key)
  {
    hide ReplayOne, Settle, OrderResult.Consistent, Taken, Given, Balance, FillsIfPaid;
    if FillsIfPaid(intent, bars, costs, ctx) {
      var _, instrument := OrderByBalance(intent, bars, costs, ctx, b);
      var _, _ := OrderByBalance(intent, bars, costs, ctx, c);
      assert PaysFrom(intent, ctx.snapshot, DebitKey(intent, instrument));
    } else {
      UnfillableIgnoresBalances(intent, bars, costs, ctx, b, c);
    }
  }

  /** The order, if paid, moves the balance. */
  ghost predicate Moves(intent: OrderIntent, key: BalanceKey, bars: seq<OHLCTVBar>, costs: Option<ExecutionCostModel>,
                        ctx: Context)
  {
    FillsIfPaid(intent, bars, costs, ctx) && Touches(intent, ctx.snapshot, key)
  }

  lemma MovesOnlyItsOwn(intent: OrderIntent, bars: seq<OHLCTVBar>, costs: Option<ExecutionCostModel>, ctx: Context,
                        b: Balances, key: BalanceKey)
    requires !Moves(intent, key, bars, costs, ctx)
    ensures ReplayOne(intent, bars, costs, Some(ctx), b).Ok?
    ensures Balance(ReplayOne(intent, bars, costs, Some(ctx), b).value.1, key) == Balance(b, key)
  {
    hide ReplayOne, Settle, OrderResult.Consistent, Taken, Given, Balance, FillsIfPaid, Touches;
    if FillsIfPaid(intent, bars, costs, ctx) {
      var _, _ := OrderByBalance(intent, bars, costs, ctx, b);
    } else {
      UnfillableIgnoresBalances(intent, bars, costs, ctx, b, b);
    }
  }

  // ------------------------------------------------------------ what later bars cannot change

  /** The waiter, once it can fill, moves the balance the other order is paid from. */
  ghost predicate Disturbs(waiter: OrderIntent, other: OrderIntent, bars: seq<OHLCTVBar>, later: seq<OHLCTVBar>,
                           costs: Option<ExecutionCostModel>, ctx: Context)
  {
    var instrument := FindInstrument(ctx.snapshot, other.instrumentId);
    && FillsIfPaid(other, bars, costs, ctx) && instrument.Some?
    && MayMove(waiter, DebitKey(other, instrument.value), bars, later, costs, ctx)
  }

  ghost predicate NobodyDisturbed(intents: seq<OrderIntent>, bars: seq<OHLCTVBar>, later: seq<OHLCTVBar>,
                                  costs: Option<ExecutionCostModel>, ctx: Context)
  {
    forall i, j :: 0 <= i < j < |intents| ==> !Disturbs(intents[i], intents[j], bars, later, costs, ctx)
  }

  ghost predicate MovedByWaiter(intents: seq<OrderIntent>, key: BalanceKey, bars: seq<OHLCTVBar>, later: seq<OHLCTVBar>,
                                costs: Option<ExecutionCostModel>, ctx: Context)
  {
    exists i :: 0 <= i < |intents| && MayMove(intents[i], key, bars, later, costs, ctx)
  }

  ghost predicate MayMove(waiter: OrderIntent, key: BalanceKey, bars: seq<OHLCTVBar>, later: seq<OHLCTVBar>,
                          costs: Option<ExecutionCostModel>, ctx: Context)
  {
    FindsNoBar(waiter, bars, costs, Some(ctx)) && Moves(waiter, key, bars + later, costs, ctx)
  }

  /** A replay with an account never raises. */
  ghost function RunOf(intents: seq<OrderIntent>, bars: seq<OHLCTVBar>, costs: Option<ExecutionCostModel>, ctx: Context,
                       start: Balances): (r: Run)
    ensures Replayed(intents, bars, costs, Some(ctx), start) == Ok(r) && |r.results| == |intents|
  {
    RunRaisesIff(intents, bars, costs, Some(ctx), start);
    Replayed(intents, bars, costs, Some(ctx), start).value
  }

  /** An order whose purse no waiter before it can move has the same result either way. */
  lemma SettledAlike(other: OrderIntent, before: seq<OrderIntent>, bars: seq<OHLCTVBar>, later: seq<OHLCTVBar>,
                     costs: Option<ExecutionCostModel>, ctx: Context, b: Balances, c: Balances)
    requires !FindsNoBar(other, bars, costs, Some(ctx))
    requires forall i :: 0 <= i < |before| ==> !Disturbs(before[i], other, bars, later, costs, ctx)
    requires forall key :: !MovedByWaiter(before, key, bars, later, costs, ctx) ==> Balance(b, key) == Balance(c, key)
    ensures ReplayOne(other, bars, costs, Some(ctx), b).Ok? && ReplayOne(other, bars + later, costs, Some(ctx), c).Ok?
    ensures ReplayOne(other, bars, costs, Some(ctx), b).value.0
      == ReplayOne(other, bars + later, costs, Some(ctx), c).value.0
    ensures forall key :: Balance(b, key) == Balance(c, key) ==>
      Balance(ReplayOne(other, bars, costs, Some(ctx), b).value.1, key)
        == Balance(ReplayOne(other, bars + later, costs, Some(ctx), c).value.1, key)
  {
    hide ReplayOne, Balance, FillsIfPaid, FindsNoBar, Touches, DebitKey;
    OneOrderIsStable(other, bars, later, costs, Some(ctx), c);
    ResultByDebit(other, bars, costs, ctx, b, c);
  }

  /** Later bars change only waiting orders, for every start, when no waiter can move the purse of a later order
    * that fills. */
  lemma {:induction false} LaterBarsSpareOthers(intents: seq<OrderIntent>, bars: seq<OHLCTVBar>, later: seq<OHLCTVBar>,
                                                costs: Option<ExecutionCostModel>, ctx: Context, start: Balances)
    requires NobodyDisturbed(intents, bars, later, costs, ctx)
    ensures OnlyNoFutureChanges(RunOf(intents, bars, costs, ctx, start).results,
      RunOf(intents, bars + later, costs, ctx, start).results)
    ensures forall key :: !MovedByWaiter(intents, key, bars, later, costs, ctx) ==>
      Balance(RunOf(intents, bars, costs, ctx, start).balances, key)
        == Balance(RunOf(intents, bars + later, costs, ctx, start).balances, key)
  {
    hide ReplayOne, FindsNoBar, Moves, Disturbs, Balance;
    if intents != [] {
      var n := |intents| - 1;
      var before, last := intents[..n], intents[n];
      LaterBarsSpareOthers(before, bars, later, costs, ctx, start);
      var short, long := RunOf(before, bars, costs, ctx, start), RunOf(before, bars + later, costs, ctx, start);
      assert forall key :: MovedByWaiter(before, key, bars, later, costs, ctx) ==>
        MovedByWaiter(intents, key, bars, later, costs, ctx);
      if FindsNoBar(last, bars, costs, Some(ctx)) {
        NoBarMeansNoFuture(last, bars, costs, Some(ctx), short.balances);
        forall key | !MovedByWaiter(intents, key, bars, later, costs, ctx)
          ensures Balance(RunOf(intents, bars, costs, ctx, start).balances, key)
            == Balance(RunOf(intents, bars + later, costs, ctx, start).balances, key)
        {
          MovesOnlyItsOwn(last, bars + later, costs, ctx, long.balances, key);
        }
      } else {
        SettledAlike(last, before, bars, later, costs, ctx, short.balances, long.balances);
      }
    }
  }

  // ------------------------------------------------------------ what later bars can change

  /** What an order of a run met and what it left. */
  lemma {:induction false} RunAt(intents: seq<OrderIntent>, bars: seq<OHLCTVBar>, costs: Option<ExecutionCostModel>,
                                 ctx: Context, start: Balances, m: nat)
    requires m < |intents|
    ensures var met := RunOf(intents[..m], bars, costs, ctx, start).balances;
      && ReplayOne(intents[m], bars, costs, Some(ctx), met).Ok?
      && RunOf(intents, bars, costs, ctx, start).results[m]
        == ReplayOne(intents[m], bars, costs, Some(ctx), met).value.0
      && RunOf(intents[..m + 1], bars, costs, ctx, start).balances
        == ReplayOne(intents[m], bars, costs, Some(ctx), met).value.1
  {
    hide ReplayOne;
    var n := |intents| - 1;
    if m < n {
      RunAt(intents[..n], bars, costs, ctx, start, m);
      assert intents[..n][..m] == intents[..m] && intents[..n][..m + 1] == intents[..m + 1];
    } else {
      var met := RunOf(intents[..m], bars, costs, ctx, start);
      var _ := RunOf(intents, bars, costs, ctx, start);
      assert intents[..m + 1] == intents;
    }
  }

  lemma {:induction false} UntouchedStays(intents: seq<OrderIntent>, bars: seq<OHLCTVBar>,
                                          costs: Option<ExecutionCostModel>, ctx: Context, start: Balances,
                                          key: BalanceKey, lo: nat, hi: nat)
    requires lo <= hi <= |intents|
    requires forall m :: lo <= m < hi ==> !Moves(intents[m], key, bars, costs, ctx)
    ensures Balance(RunOf(intents[..hi], bars, costs, ctx, start).balances, key)
      == Balance(RunOf(intents[..lo], bars, costs, ctx, start).balances, key)
    decreases hi
  {
    hide Moves, Balance, ReplayOne;
    if lo < hi {
      UntouchedStays(intents, bars, costs, ctx, start, key, lo, hi - 1);
      RunAt(intents, bars, costs, ctx, start, hi - 1);
      MovesOnlyItsOwn(intents[hi - 1], bars, costs, ctx, RunOf(intents[..hi - 1], bars, costs, ctx, start).balances,
        key);
    }
  }

  lemma FillsOnMoreBars(intent: OrderIntent, bars: seq<OHLCTVBar>, later: seq<OHLCTVBar>,
                        costs: Option<ExecutionCostModel>, ctx: Context)
    requires FillsIfPaid(intent, bars, costs, ctx)
    ensures !FindsNoBar(intent, bars, costs, Some(ctx)) && FillsIfPaid(intent, bars + later, costs, ctx)
    ensures Attempt(intent, bars + later, costs, Some(ctx)) == Attempt(intent, bars, costs, Some(ctx))
  {
    hide AttemptAt, FillFrom, OrderResult.Consistent, MetadataRejectReason;
    FillComesFromAttempt(intent, bars, costs, Some(ctx));
    EligiblePrefix(intent, bars, later);
  }

  /** On these bars the order moves none of the waiter's two balances. */
  ghost predicate KeepsOff(other: OrderIntent, waiter: OrderIntent, bars: seq<OHLCTVBar>,
                           costs: Option<ExecutionCostModel>, ctx: Context)
  {
    forall key :: Touches(waiter, ctx.snapshot, key) ==> !Moves(other, key, bars, costs, ctx)
  }

  /** An account in which the waiter can be paid, and the other order can be paid exactly before or exactly after
    * the waiter's fill. */
  function TightStart(waiter: OrderResult, paid: BalanceKey, other: OrderResult, purse: BalanceKey): Balances {
    if purse == paid then map[purse := if Taken(waiter) < Taken(other) then Taken(other) else Taken(waiter)]
    else map[paid := Taken(waiter), purse := if Taken(other) < Given(waiter) then 0.0 else Taken(other) - Given(waiter)]
  }

  /** The purse of the later order, before and after the waiter's fill: one side of it pays, the other does not. */
  lemma TightStartDecides(waiter: OrderResult, paid: BalanceKey, other: OrderResult, purse: BalanceKey)
    requires Taken(waiter) > 0.0 && Given(waiter) > 0.0 && Taken(other) > 0.0
    ensures var start := TightStart(waiter, paid, other, purse);
      && NonNegative(start) && Balance(start, paid) >= Taken(waiter)
      && (purse == paid ==> Balance(start, purse) >= Taken(other) > Balance(start, purse) - Taken(waiter))
      && (purse != paid ==> Balance(start, purse) < Taken(other) <= Balance(start, purse) + Given(waiter))
  {
    hide Taken, Given;
  }

  /** From a tight account the waiter's fill on later bars turns the result of the order behind it. */
  lemma WaiterDisturbs(intents: seq<OrderIntent>, bars: seq<OHLCTVBar>, later: seq<OHLCTVBar>,
                       costs: Option<ExecutionCostModel>, ctx: Context, i: nat, j: nat) returns (start: Balances)
    requires i < j < |intents| && Disturbs(intents[i], intents[j], bars, later, costs, ctx)
    requires forall m :: 0 <= m < j && m != i ==> KeepsOff(intents[m], intents[i], bars + later, costs, ctx)
    ensures NonNegative(start)
    ensures RunOf(intents, bars + later, costs, ctx, start).results[j]
      != RunOf(intents, bars, costs, ctx, start).results[j]
    ensures RunOf(intents, bars, costs, ctx, start).results[j].reason != Some(NoFutureEligibleEvent)
  {
    hide ReplayOne, Balance, FindsNoBar, FillsIfPaid, Taken, Given, TightStart, NonNegative, RunOf;
    var waiter, waits := OrderByBalance(intents[i], bars + later, costs, ctx, map[]);
    var other, pays := OrderByBalance(intents[j], bars, costs, ctx, map[]);
    var paid, purse := DebitKey(intents[i], waits), DebitKey(intents[j], pays);
    start := TightStart(waiter, paid, other, purse);
    TightStartDecides(waiter, paid, other, purse);
    PurseBeforeOther(intents, bars, later, costs, ctx, start, i, j, purse);
    PurseBeforeOther(intents, bars, later, costs, ctx, start, i, j, paid);
    FillsOnMoreBars(intents[j], bars, later, costs, ctx);
    RunAt(intents, bars + later, costs, ctx, start, i);
    RunAt(intents, bars + later, costs, ctx, start, j);
    RunAt(intents, bars, costs, ctx, start, j);
    var _, _ := OrderByBalance(intents[i], bars + later, costs, ctx,
      RunOf(intents[..i], bars + later, costs, ctx, start).balances);
    var _, _ := OrderByBalance(intents[j], bars + later, costs, ctx,
      RunOf(intents[..j], bars + later, costs, ctx, start).balances);
    var _, _ := OrderByBalance(intents[j], bars, costs, ctx, RunOf(intents[..j], bars, costs, ctx, start).balances);
  }

  /** Nobody but the waiter moves its balances, and the waiter only on the later bars. */
  lemma PurseBeforeOther(intents: seq<OrderIntent>, bars: seq<OHLCTVBar>, later: seq<OHLCTVBar>,
                         costs: Option<ExecutionCostModel>, ctx: Context, start: Balances, i: nat, j: nat,
                         key: BalanceKey)
    requires i < j < |intents| && FindsNoBar(intents[i], bars, costs, Some(ctx))
      && Touches(intents[i], ctx.snapshot, key)
    requires forall m :: 0 <= m < j && m != i ==> KeepsOff(intents[m], intents[i], bars + later, costs, ctx)
    ensures Balance(RunOf(intents[..j], bars, costs, ctx, start).balances, key) == Balance(start, key)
    ensures Balance(RunOf(intents[..i], bars + later, costs, ctx, start).balances, key) == Balance(start, key)
    ensures Balance(RunOf(intents[..j], bars + later, costs, ctx, start).balances, key)
      == Balance(RunOf(intents[..i + 1], bars + later, costs, ctx, start).balances, key)
  {
    hide Balance, Touches, FindsNoBar, FillsIfPaid;
    forall m | 0 <= m < j ensures !Moves(intents[m], key, bars, costs, ctx) {
      if FillsIfPaid(intents[m], bars, costs, ctx) {
        FillsOnMoreBars(intents[m], bars, later, costs, ctx);
      }
    }
    assert RunOf(intents[..0], bars, costs, ctx, start).balances == start
      == RunOf(intents[..0], bars + later, costs, ctx, start).balances;
    UntouchedStays(intents, bars, costs, ctx, start, key, 0, j);
    UntouchedStays(intents, bars + later, costs, ctx, start, key, 0, i);
    UntouchedStays(intents, bars + later, costs, ctx, start, key, i + 1, j);
  }

  /** When third orders keep off the waiter's balances, the law holds for every account exactly when no waiter moves
    * the purse of an order behind it. */
  lemma LaterBarsSpareOthersIff(intents: seq<OrderIntent>, bars: seq<OHLCTVBar>, later: seq<OHLCTVBar>,
                                costs: Option<ExecutionCostModel>, ctx: Context)
    requires forall i, j, m ::
      0 <= i < j < |intents| && 0 <= m < j && m != i && Disturbs(intents[i], intents[j], bars, later, costs, ctx) ==>
      KeepsOff(intents[m], intents[i], bars + later, costs, ctx)
    ensures (forall start :: NonNegative(start) ==>
      OnlyNoFutureChanges(RunOf(intents, bars, costs, ctx, start).results,
        RunOf(intents, bars + later, costs, ctx, start).results))
       <==> NobodyDisturbed(intents, bars, later, costs, ctx)
  {
    hide Disturbs, RunOf, NonNegative, KeepsOff;
    if NobodyDisturbed(intents, bars, later, costs, ctx) {
      forall start: Balances | NonNegative(start)
        ensures OnlyNoFutureChanges(RunOf(intents, bars, costs, ctx, start).results,
          RunOf(intents, bars + later, costs, ctx, start).results)
      {
        LaterBarsSpareOthers(intents, bars, later, costs, ctx, start);
      }
    } else {
      var i, j :| 0 <= i < j < |intents| && Disturbs(intents[i], intents[j], bars, later, costs, ctx);
      var start := WaiterDisturbs(intents, bars, later, costs, ctx, i, j);
    }
  }

  /** Of two orders, later bars can change the second for some account exactly when the first waits and then moves
    * its purse. */
  lemma SecondOrderSparedIff(first: OrderIntent, second: OrderIntent, bars: seq<OHLCTVBar>, later: seq<OHLCTVBar>,
                             costs: Option<ExecutionCostModel>, ctx: Context)
    ensures (forall start :: NonNegative(start) ==>
      OnlyNoFutureChanges(RunOf([first, second], bars, costs, ctx, start).results,
                          RunOf([first, second], bars + later, costs, ctx, start).results))
       <==> !Disturbs(first, second, bars, later, costs, ctx)
  {
    hide Disturbs, RunOf, NonNegative, KeepsOff, OnlyNoFutureChanges;
    var intents := [first, second];
    LaterBarsSpareOthersIff(intents, bars, later, costs, ctx);
    assert Disturbs(first, second, bars, later, costs, ctx) <==>
      Disturbs(intents[0], intents[1], bars, later, costs, ctx);
  }

  // ------------------------------------------------------------ a purse refilled in between

  const SPENDER := OrderIntent(1, 1, 1, 20, 1, Buy, Market, 1.0, 0, None)

  const WAITER := OrderIntent(2, 2, 2, 10, 1, Buy, Market, 1.0, 0, None)

  const SELLER := OrderIntent(3, 3, 3, 20, 1, Sell, Market, 1.0, 20, None)

  const BUYER := OrderIntent(4, 4, 4, 20, 1, Buy, Market, 1.0, 20, None)

  const FOUR_ORDERS := [SPENDER, WAITER, SELLER, BUYER]

  const DEAR_BAR_OF_TWENTY: OHLCTVBar := Bar(20, 1, 1, 20, 30, 30, 100.0, 1.0, 2)

  const LAST_BAR_OF_TEN: OHLCTVBar := Bar(10, 1, 1, 40, 50, 50, 1.0, 1.0, 3)

  const TWO_BARS := [BAR_OF_TWENTY, DEAR_BAR_OF_TWENTY]

  const PURSE_ACCOUNT := PURSE_CONTEXT.value

  lemma FourOrdersFindBars()
    ensures EligibleIndices(SPENDER, TWO_BARS) == [0, 1] && EligibleIndices(WAITER, TWO_BARS) == []
    ensures EligibleIndices(SELLER, TWO_BARS) == [1] && EligibleIndices(BUYER, TWO_BARS) == [1]
    ensures EligibleIndices(WAITER, TWO_BARS + [LAST_BAR_OF_TEN]) == [2]
  {
    var one := [BAR_OF_TWENTY];
    assert one[..0] == [] && TWO_BARS[..1] == one && (TWO_BARS + [LAST_BAR_OF_TEN])[..2] == TWO_BARS;
    assert EligibleIndices(SPENDER, one) == [0] && EligibleIndices(WAITER, one) == [];
    assert EligibleIndices(SELLER, one) == [] && EligibleIndices(BUYER, one) == [];
  }

  lemma FourOrdersMeetMetadata()
    ensures forall k :: 0 <= k < 4 ==> MetadataRejectReason(FOUR_ORDERS[k], PURSE_ACCOUNT).None?
    ensures FindInstrument(PURSE_SNAPSHOT, 10) == Some(PURSE_SNAPSHOT.instruments[0])
    ensures FindInstrument(PURSE_SNAPSHOT, 20) == Some(PURSE_SNAPSHOT.instruments[1])
    ensures MeetsConstraint(SPENDER, PURSE_SNAPSHOT, 1.0, 0) && MeetsConstraint(WAITER, PURSE_SNAPSHOT, 1.0, 40)
    ensures MeetsConstraint(SELLER, PURSE_SNAPSHOT, 100.0, 20) && MeetsConstraint(BUYER, PURSE_SNAPSHOT, 100.0, 20)
  {
    PurseOrdersAreTradable();
    var c := PURSE_SNAPSHOT.constraints;
    assert c[1..] == [c[1]] && c[1..][1..] == [];
    assert ActiveConstraints(c, 10, 40) == [c[0]];
    assert ActiveConstraints(c, 20, 0) == [c[1]] == ActiveConstraints(c, 20, 20);
    assert IsDecimalMultiple(1.0, 1.0) && IsDecimalMultiple(100.0, 1.0);
  }

  /** An order of one unit, without costs: what it takes and gives if paid. */
  lemma UnitOrder(intent: OrderIntent, bars: seq<OHLCTVBar>, k: nat)
    requires intent.orderType == Market && intent.quantity == 1.0
    requires MetadataRejectReason(intent, PURSE_ACCOUNT).None?
    requires EligibleIndices(intent, bars) != [] && EligibleIndices(intent, bars)[0] == k && bars[k].open > 0.0
    requires MeetsConstraint(intent, PURSE_SNAPSHOT, bars[k].open, bars[k].openTs)
    ensures FillsIfPaid(intent, bars, None, PURSE_ACCOUNT)
    ensures var fill := Attempt(intent, bars, None, Some(PURSE_ACCOUNT)).value;
      && Taken(fill) == (if intent.side == Buy then bars[k].open else 1.0)
      && Given(fill) == (if intent.side == Buy then 1.0 else bars[k].open)
  {
    hide MeetsConstraint, MetadataRejectReason, FindInstrument, EligibleIndices;
    var r := FilledResult(intent, bars[k], 1.0, None, None, None);
    FillNumbers(intent, bars[k], 1.0, None, None, None);
    FillRaisesIffUnpriced(intent, bars[k], 1.0, None, None, None);
    assert r.referenceNotional == bars[k].open;
    assert Attempt(intent, bars, None, PURSE_CONTEXT) == Ok(r);
  }

  const CASH := BalanceKey(1, 3)

  const COIN := BalanceKey(1, 2)

  /** What a fillable order for instrument 20 does to its two balances. */
  lemma TradeOfTwenty(intent: OrderIntent, bars: seq<OHLCTVBar>, b: Balances)
    requires FillsIfPaid(intent, bars, None, PURSE_ACCOUNT) && intent.instrumentId == 20 && intent.venueId == 1
    requires FindInstrument(PURSE_SNAPSHOT, 20) == Some(PURSE_SNAPSHOT.instruments[1])
    ensures ReplayOne(intent, bars, None, PURSE_CONTEXT, b).Ok?
    ensures var fill, (r, after) := Attempt(intent, bars, None, PURSE_CONTEXT).value,
      ReplayOne(intent, bars, None, PURSE_CONTEXT, b).value;
      var paid, buys := Balance(b, if intent.side == Buy then CASH else COIN) >= Taken(fill), intent.side == Buy;
      && (paid ==> r == fill)
      && Balance(after, CASH) == Balance(b, CASH) + (if !paid then 0.0 else if buys then -Taken(fill) else Given(fill))
      && Balance(after, COIN) == Balance(b, COIN) + (if !paid then 0.0 else if buys then Given(fill) else -Taken(fill))
  {
    hide ReplayOne, Attempt, Balance, Taken, Given, FillsIfPaid;
    var _, _ := OrderByBalance(intent, bars, None, PURSE_ACCOUNT, b);
  }

  ghost predicate FourFills() {
    && FindInstrument(PURSE_SNAPSHOT, 20) == Some(PURSE_SNAPSHOT.instruments[1])
    && FindsNoBar(WAITER, TWO_BARS, None, PURSE_CONTEXT) && WaiterFills(TWO_BARS + [LAST_BAR_OF_TEN])
    && ThreeFills(TWO_BARS) && ThreeFills(TWO_BARS + [LAST_BAR_OF_TEN])
  }

  ghost predicate WaiterFills(bars: seq<OHLCTVBar>) {
    && FillsIfPaid(WAITER, bars, None, PURSE_ACCOUNT)
    && Taken(Attempt(WAITER, bars, None, PURSE_CONTEXT).value) == 1.0
    && FindInstrument(PURSE_SNAPSHOT, 10) == Some(PURSE_SNAPSHOT.instruments[0])
  }

  ghost predicate ThreeFills(bars: seq<OHLCTVBar>) {
    && UnitFill(SPENDER, bars, 1.0, 1.0) && UnitFill(SELLER, bars, 1.0, 100.0) && UnitFill(BUYER, bars, 100.0, 1.0)
  }

  ghost predicate UnitFill(intent: OrderIntent, bars: seq<OHLCTVBar>, taken: real, given: real) {
    && FillsIfPaid(intent, bars, None, PURSE_ACCOUNT)
    && Taken(Attempt(intent, bars, None, PURSE_CONTEXT).value) == taken
    && Given(Attempt(intent, bars, None, PURSE_CONTEXT).value) == given
  }

  lemma UnitFillOnMoreBars(intent: OrderIntent, bars: seq<OHLCTVBar>, later: seq<OHLCTVBar>, taken: real, given: real)
    requires UnitFill(intent, bars, taken, given)
    ensures UnitFill(intent, bars + later, taken, given)
  {
    hide Taken, Given, FillsIfPaid, Attempt;
    FillsOnMoreBars(intent, bars, later, None, PURSE_ACCOUNT);
  }

  lemma FourFillsHold()
    ensures FourFills()
  {
    hide MeetsConstraint, MetadataRejectReason, FindInstrument, EligibleIndices, FillsIfPaid, Attempt, Taken, Given;
    FourOrdersFindBars();
    FourOrdersMeetMetadata();
    assert FOUR_ORDERS[0] == SPENDER && FOUR_ORDERS[1] == WAITER && FOUR_ORDERS[2] == SELLER && FOUR_ORDERS[3] == BUYER;
    UnitOrder(SPENDER, TWO_BARS, 0);
    UnitOrder(SELLER, TWO_BARS, 1);
    UnitOrder(BUYER, TWO_BARS, 1);
    UnitOrder(WAITER, TWO_BARS + [LAST_BAR_OF_TEN], 2);
    UnitFillOnMoreBars(SPENDER, TWO_BARS, [LAST_BAR_OF_TEN], 1.0, 1.0);
    UnitFillOnMoreBars(SELLER, TWO_BARS, [LAST_BAR_OF_TEN], 1.0, 100.0);
    UnitFillOnMoreBars(BUYER, TWO_BARS, [LAST_BAR_OF_TEN], 100.0, 1.0);
  }

  /** CASH and COIN after each of the four orders; waits tells whether the waiter does. */
  lemma FourSteps(bars: seq<OHLCTVBar>, start: Balances, waits: bool) returns (met: seq<Balances>)
    requires FindInstrument(PURSE_SNAPSHOT, 20) == Some(PURSE_SNAPSHOT.instruments[1]) && ThreeFills(bars)
    requires NonNegative(start)
    requires if waits then FindsNoBar(WAITER, bars, None, PURSE_CONTEXT) else WaiterFills(bars)
    ensures |met| == 4 && met[0] == start
    ensures forall k :: 0 <= k < 4 ==>
      && ReplayOne(FOUR_ORDERS[k], bars, None, PURSE_CONTEXT, met[k]).Ok?
      && RunOf(FOUR_ORDERS, bars, None, PURSE_ACCOUNT, start).results[k]
        == ReplayOne(FOUR_ORDERS[k], bars, None, PURSE_CONTEXT, met[k]).value.0
    ensures Balance(met[2], COIN) == Balance(start, COIN) + if Balance(start, CASH) >= 1.0 then 1.0 else 0.0
    ensures Balance(start, CASH) < 1.0 ==>
      Balance(met[3], CASH) == Balance(start, CASH) + if Balance(start, COIN) >= 1.0 then 100.0 else 0.0
    ensures Balance(start, CASH) >= 1.0 ==> Balance(met[3], CASH) >= 100.0
  {
    hide ReplayOne, Attempt, Taken, Given, FillsIfPaid, FindsNoBar, FindInstrument, RunOf;
    assert FOUR_ORDERS[..0] == [];
    RunAt(FOUR_ORDERS, bars, None, PURSE_ACCOUNT, start, 0);
    RunAt(FOUR_ORDERS, bars, None, PURSE_ACCOUNT, start, 1);
    RunAt(FOUR_ORDERS, bars, None, PURSE_ACCOUNT, start, 2);
    RunAt(FOUR_ORDERS, bars, None, PURSE_ACCOUNT, start, 3);
    met := seq(4, k requires 0 <= k < 4 => RunOf(FOUR_ORDERS[..k], bars, None, PURSE_ACCOUNT, start).balances);
    assert met[0] == start;
    TradeOfTwenty(SPENDER, bars, met[0]);
    WaiterStep(bars, met[1], waits);
    TradeOfTwenty(SELLER, bars, met[2]);
  }

  lemma WaiterStep(bars: seq<OHLCTVBar>, b: Balances, waits: bool)
    requires if waits then FindsNoBar(WAITER, bars, None, PURSE_CONTEXT) else WaiterFills(bars)
    ensures ReplayOne(WAITER, bars, None, PURSE_CONTEXT, b).Ok?
    ensures var after := ReplayOne(WAITER, bars, None, PURSE_CONTEXT, b).value.1;
      && Balance(after, COIN) == Balance(b, COIN)
      && Balance(after, CASH) == Balance(b, CASH) - if !waits && Balance(b, CASH) >= 1.0 then 1.0 else 0.0
  {
    hide ReplayOne, Attempt, Balance, Taken, Given, FillsIfPaid, FindsNoBar, FindInstrument;
    if waits {
      NoBarMeansNoFuture(WAITER, bars, None, PURSE_CONTEXT, b);
    } else {
      WaiterKeys();
      hide Touches, DebitKey, CreditKey;
      var _, _ := OrderByBalance(WAITER, bars, None, PURSE_ACCOUNT, b);
    }
  }

  lemma WaiterKeys()
    requires FindInstrument(PURSE_SNAPSHOT, 10) == Some(PURSE_SNAPSHOT.instruments[0])
    ensures DebitKey(WAITER, PURSE_SNAPSHOT.instruments[0]) == CASH
    ensures Touches(WAITER, PURSE_SNAPSHOT, CASH) && !Touches(WAITER, PURSE_SNAPSHOT, COIN)
  {
    hide FindInstrument;
  }

  /** Where third orders do not keep off, a disturbed order can be safe after all: in every account in which the
    * waiter can pay, the seller refills the purse before the buyer needs it. */
  lemma RefilledPurseHidesWaiter()
    ensures var bars, later := TWO_BARS, [LAST_BAR_OF_TEN];
      && BarsSafe(bars + later) && IntentsOrdered(FOUR_ORDERS)
      && Disturbs(WAITER, BUYER, bars, later, None, PURSE_ACCOUNT)
      && forall start :: NonNegative(start) ==>
        OnlyNoFutureChanges(RunOf(FOUR_ORDERS, bars, None, PURSE_ACCOUNT, start).results,
                            RunOf(FOUR_ORDERS, bars + later, None, PURSE_ACCOUNT, start).results)
  {
    hide RunOf, NonNegative, OnlyNoFutureChanges, FindInstrument, FindsNoBar, FillsIfPaid, Touches, Attempt;
    FourFillsHold();
    WaiterKeys();
    assert DebitKey(BUYER, PURSE_SNAPSHOT.instruments[1]) == CASH;
    forall start: Balances | NonNegative(start)
      ensures OnlyNoFutureChanges(RunOf(FOUR_ORDERS, TWO_BARS, None, PURSE_ACCOUNT, start).results,
                                  RunOf(FOUR_ORDERS, TWO_BARS + [LAST_BAR_OF_TEN], None, PURSE_ACCOUNT, start).results)
    {
      RefilledRun(start);
    }
  }

  lemma RefilledRun(start: Balances)
    requires FourFills() && NonNegative(start)
    ensures OnlyNoFutureChanges(RunOf(FOUR_ORDERS, TWO_BARS, None, PURSE_ACCOUNT, start).results,
                                RunOf(FOUR_ORDERS, TWO_BARS + [LAST_BAR_OF_TEN], None, PURSE_ACCOUNT, start).results)
  {
    hide ReplayOne, Attempt, Taken, Given, FillsIfPaid, FindsNoBar, FindInstrument, RunOf, Balance, NonNegative;
    var more := TWO_BARS + [LAST_BAR_OF_TEN];
    var short := FourSteps(TWO_BARS, start, true);
    var long := FourSteps(more, start, false);
    NoBarMeansNoFuture(WAITER, TWO_BARS, None, PURSE_CONTEXT, short[1]);
    SameOnMoreBars(SPENDER, short[0], long[0], 1.0, 1.0);
    SameOnMoreBars(SELLER, short[2], long[2], 1.0, 100.0);
    SameOnMoreBars(BUYER, short[3], long[3], 100.0, 1.0);
  }

  /** The three trade alike on more bars while they can be paid alike. */
  lemma SameOnMoreBars(intent: OrderIntent, b: Balances, c: Balances, taken: real, given: real)
    requires FindInstrument(PURSE_SNAPSHOT, 20) == Some(PURSE_SNAPSHOT.instruments[1])
    requires UnitFill(intent, TWO_BARS, taken, given) && intent.instrumentId == 20 && intent.venueId == 1
    requires var key := if intent.side == Buy then CASH else COIN;
      Balance(b, key) == Balance(c, key) || (Balance(b, key) >= taken && Balance(c, key) >= taken)
    ensures var more := TWO_BARS + [LAST_BAR_OF_TEN];
      && ReplayOne(intent, TWO_BARS, None, PURSE_CONTEXT, b).Ok? && ReplayOne(intent, more, None, PURSE_CONTEXT, c).Ok?
      && ReplayOne(intent, more, None, PURSE_CONTEXT, c).value.0
        == ReplayOne(intent, TWO_BARS, None, PURSE_CONTEXT, b).value.0
  {
    hide ReplayOne, Attempt, Taken, Given, FillsIfPaid, FindsNoBar, FindInstrument, Balance;
    FillsOnMoreBars(intent, TWO_BARS, [LAST_BAR_OF_TEN], None, PURSE_ACCOUNT);
    OneOrderIsStable(intent, TWO_BARS, [LAST_BAR_OF_TEN], None, PURSE_CONTEXT, c);
    TradeOfTwenty(intent, TWO_BARS, b);
    TradeOfTwenty(intent, TWO_BARS, c);
    if Balance(b, if intent.side == Buy then CASH else COIN) < taken {
      var _, instrument := OrderByBalance(intent, TWO_BARS, None, PURSE_ACCOUNT, b);
      PaidFromOne(intent, instrument);
      ResultByDebit(intent, TWO_BARS, None, PURSE_ACCOUNT, b, c);
    }
  }

  lemma PaidFromOne(intent: OrderIntent, instrument: Instrument)
    requires FindInstrument(PURSE_SNAPSHOT, 20) == Some(PURSE_SNAPSHOT.instruments[1])
    requires intent.instrumentId == 20 && intent.venueId == 1
    ensures forall key :: PaysFrom(intent, PURSE_SNAPSHOT, key) ==> key == if intent.side == Buy then CASH else COIN
  {
    hide FindInstrument;
  }
}
