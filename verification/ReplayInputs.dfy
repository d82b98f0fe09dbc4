/** Inputs and results of the event-time replay, and the one-pass bar check (simulation/replay.py,
  * contracts/simulation.py). */
module ReplayInputs {
  import opened Contracts
  import opened InstrumentMaster
  import opened Orders

  // ------------------------------------------------------------ inputs

  datatype BarFields = Bar(
    instrumentId: CanonicalId,
    venueId: CanonicalId,
    timeframe: int,
    openTs: Timestamp,
    closeTs: Timestamp,
    sourceTs: Timestamp,
    open: NonNegativeDecimal,
    baseVolume: NonNegativeDecimal,
    rawPayloadId: CanonicalId)

  /** Construction refuses a bar that closes at or before its open. */
  type OHLCTVBar = b: BarFields | b.openTs < b.closeTs witness Bar(0, 0, 0, 0, 1, 0, 0.0, 0.0, 0)

  datatype CostFields = CostModel(
    takerFeeRate: NonNegativeDecimal,
    spreadBps: NonNegativeDecimal,
    slippageBps: NonNegativeDecimal,
    latencyBars: nat,
    maxParticipationRate: PositiveDecimal,
    allowPartialFills: bool)

  /** Construction bounds the fee rate, the participation rate, and the adverse move. */
  type ExecutionCostModel = m: CostFields |
    m.takerFeeRate <= 0.05 && m.maxParticipationRate <= 1.0 && m.spreadBps + m.slippageBps < 10000.0
    witness CostModel(0.0, 0.0, 0.0, 0, 1.0, true)

  /** Balances are keyed by venue and asset. */
  datatype BalanceKey = BalanceKey(venueId: CanonicalId, assetId: CanonicalId)

  type Balances = map<BalanceKey, real>

  predicate NonNegative(b: Balances) {
    forall k :: k in b ==> b[k] >= 0.0
  }

  /** A simulated account: each key once, every balance non-negative. */
  datatype SimulatedAccountFields = AccountState(accountId: CanonicalId, balances: Balances)

  type SimulatedAccountState = a: SimulatedAccountFields | NonNegative(a.balances) witness AccountState(0, map[])

  function Balance(b: Balances, k: BalanceKey): real {
    if k in b then b[k] else 0.0
  }

  // ------------------------------------------------------------ results

  datatype FillStatus = Filled | PartiallyFilled | Unfilled | RejectedFill

  datatype RejectReason =
    | UnsupportedOrderType | NoFutureEligibleEvent | InsufficientLiquidity | VenueNotTradable | InstrumentNotTradable
    | AccountNotTradable | ConstraintViolated | InsufficientCash | InsufficientInventory

  datatype FillEvent = FillEvent(openTs: Timestamp, closeTs: Timestamp, sourceTs: Timestamp, rawPayloadId: CanonicalId)

  datatype OrderResult = OrderResult(
    clientOrderId: CanonicalId,
    traceId: CanonicalId,
    sourceDecisionId: CanonicalId,
    instrumentId: CanonicalId,
    venueId: CanonicalId,
    side: OrderSide,
    orderType: OrderType,
    quantity: PositiveDecimal,
    submittedAt: Timestamp,
    status: FillStatus,
    reason: Option<RejectReason>,
    fillPrice: Option<real>,
    filledQuantity: real,
    remainingQuantity: real,
    fillEvent: Option<FillEvent>,
    costModel: Option<ExecutionCostModel>,
    eligibleEventIndex: Option<nat>,
    fillAttemptEventIndex: Option<nat>,
    arrivalReferencePrice: Option<real>,
    effectiveFillPrice: Option<real>,
    referenceNotional: real,
    effectiveNotional: real,
    feeCost: real,
    spreadCost: real,
    slippageCost: real,
    totalCost: real)
  {
    predicate IsFill() {
      status == Filled || status == PartiallyFilled
    }

    /** The consistency validator that runs whenever a result is constructed. */
    predicate Consistent() {
      && filledQuantity >= 0.0 && remainingQuantity >= 0.0
      && referenceNotional >= 0.0 && effectiveNotional >= 0.0
      && feeCost >= 0.0 && spreadCost >= 0.0 && slippageCost >= 0.0 && totalCost >= 0.0
      && totalCost == feeCost + spreadCost + slippageCost
      && (totalCost > 0.0 ==> costModel.Some?)
      && remainingQuantity == quantity - filledQuantity
      && if IsFill() then
           && reason.None?
           && fillPrice.Some? && fillPrice.value > 0.0
           && (status == Filled ==> filledQuantity == quantity)
           && (status == PartiallyFilled ==> 0.0 < filledQuantity < quantity)
           && fillEvent.Some?
           && arrivalReferencePrice.Some? && effectiveFillPrice == fillPrice
           && referenceNotional == arrivalReferencePrice.value * filledQuantity
           && effectiveNotional == effectiveFillPrice.value * filledQuantity
         else
           && reason.Some?
           && fillPrice.None? && filledQuantity == 0.0
           && fillEvent.None? && arrivalReferencePrice.None? && effectiveFillPrice.None?
           && referenceNotional == 0.0 && effectiveNotional == 0.0
           && feeCost == 0.0 && spreadCost == 0.0 && slippageCost == 0.0 && totalCost == 0.0
           && remainingQuantity == quantity
    }
  }

  datatype ReplayError =
    | SourceAfterClose | MixedTimeframes | DuplicateBars | UnsortedBars | NonMonotonicClose | OverlappingBars
    | DuplicateClientOrder | UnsortedIntents | SnapshotWithoutAccount | InconsistentResult
  {
    predicate IsBarError() {
      SourceAfterClose? || MixedTimeframes? || DuplicateBars? || UnsortedBars? || NonMonotonicClose? || OverlappingBars?
    }

    predicate IsIntentError() {
      DuplicateClientOrder? || UnsortedIntents?
    }
  }

  // ------------------------------------------------------------ bar validation

  predicate SameMarket(a: OHLCTVBar, b: OHLCTVBar) {
    a.instrumentId == b.instrumentId && a.venueId == b.venueId
  }

  /** Lexicographic order by close, instrument, venue, timeframe. */
  predicate KeyAtMost(a: OHLCTVBar, b: OHLCTVBar) {
    || a.closeTs < b.closeTs
    || (a.closeTs == b.closeTs
        && (|| a.instrumentId < b.instrumentId
            || (a.instrumentId == b.instrumentId
                && (|| a.venueId < b.venueId
                    || (a.venueId == b.venueId && a.timeframe <= b.timeframe)))))
  }

  /** What acceptance means for two bars, the first before the second. */
  predicate SafePair(a: OHLCTVBar, b: OHLCTVBar) {
    && KeyAtMost(a, b)
    && (SameMarket(a, b) ==> a.timeframe == b.timeframe && a.closeTs <= b.openTs)
  }

  ghost predicate BarsSafe(bars: seq<OHLCTVBar>) {
    && (forall i :: 0 <= i < |bars| ==> bars[i].sourceTs <= bars[i].closeTs)
    && (forall i, j :: 0 <= i < j < |bars| ==> SafePair(bars[i], bars[j]))
  }

  /** In order of close, then instrument, then venue; and in one market of one timeframe, the second opening no earlier
    * than the first closed. */
  predicate Follows(a: OHLCTVBar, b: OHLCTVBar) {
    && a.closeTs <= b.closeTs
    && (a.closeTs == b.closeTs ==>
      a.instrumentId < b.instrumentId || (a.instrumentId == b.instrumentId && a.venueId < b.venueId))
    && (a.instrumentId == b.instrumentId && a.venueId == b.venueId ==>
      a.timeframe == b.timeframe && a.closeTs <= b.openTs)
  }

  /** In full: every bar is available by its close, and every later bar follows every earlier one. */
  lemma SafeMeaning(bars: seq<OHLCTVBar>)
    ensures BarsSafe(bars) <==>
      (&& (forall i :: 0 <= i < |bars| ==> bars[i].sourceTs <= bars[i].closeTs)
       && forall i, j :: 0 <= i < j < |bars| ==> Follows(bars[i], bars[j]))
  {
    hide SafePair, Follows;
    forall a: OHLCTVBar, b: OHLCTVBar ensures SafePair(a, b) <==> Follows(a, b) {
      PairMeaning(a, b);
    }
  }

  lemma PairMeaning(a: OHLCTVBar, b: OHLCTVBar)
    ensures SafePair(a, b) <==> Follows(a, b)
  {
  }

  datatype StreamKey = StreamKey(instrumentId: CanonicalId, venueId: CanonicalId, timeframe: int)

  function StreamOf(b: OHLCTVBar): StreamKey {
    StreamKey(b.instrumentId, b.venueId, b.timeframe)
  }

  datatype MarketKey = MarketKey(instrumentId: CanonicalId, venueId: CanonicalId)

  function MarketOf(b: OHLCTVBar): MarketKey {
    MarketKey(b.instrumentId, b.venueId)
  }

  /** seen_close_keys: the stream and close of every bar so far. */
  ghost predicate RemembersCloses(seen: seq<OHLCTVBar>, closes: set<(StreamKey, Timestamp)>) {
    forall c :: c in closes ==> exists b :: b in seen && StreamOf(b) == c.0 && b.closeTs == c.1
  }

  /** last_by_stream: a bar of the stream that closes no earlier than any other. */
  ghost predicate RemembersLasts(seen: seq<OHLCTVBar>, lasts: map<StreamKey, OHLCTVBar>) {
    && (forall s :: s in lasts ==> lasts[s] in seen && StreamOf(lasts[s]) == s)
    && (forall b :: b in seen ==> StreamOf(b) in lasts && b.closeTs <= lasts[StreamOf(b)].closeTs)
  }

  /** timeframes_by_market: the one timeframe of every market seen. */
  ghost predicate RemembersFrames(seen: seq<OHLCTVBar>, frames: map<MarketKey, set<int>>) {
    && (forall b :: b in seen ==> MarketOf(b) in frames && frames[MarketOf(b)] == {b.timeframe})
    && (forall m :: m in frames ==> exists b :: b in seen && MarketOf(b) == m)
  }

  /** Every earlier bar of the market has the bar's timeframe. */
  ghost predicate SameTimeframe(seen: seq<OHLCTVBar>, bar: OHLCTVBar) {
    forall b :: b in seen && SameMarket(b, bar) ==> b.timeframe == bar.timeframe
  }

  /** Every earlier bar is safely paired with the new one. */
  ghost predicate SafeAfter(seen: seq<OHLCTVBar>, bar: OHLCTVBar) {
    bar.sourceTs <= bar.closeTs && forall b :: b in seen ==> SafePair(b, bar)
  }

  /** Adds the bar's timeframe to its market and objects to a second one. */
  method CheckTimeframe(bar: OHLCTVBar, frames: map<MarketKey, set<int>>, ghost seen: seq<OHLCTVBar>)
    returns (mixed: bool)
    requires RemembersFrames(seen, frames)
    ensures mixed <==> !SameTimeframe(seen, bar)
  {
    var timeframes := (if MarketOf(bar) in frames then frames[MarketOf(bar)] else {}) + {bar.timeframe};
    mixed := |timeframes| > 1;
    if mixed {
      ghost var b :| b in seen && MarketOf(b) == MarketOf(bar);
      assert timeframes == {b.timeframe, bar.timeframe};
    } else {
      OneTimeframe(seen, bar, timeframes, frames);
    }
  }

  /** The comparison with the last bar of the same stream. */
  method CheckLast(bar: OHLCTVBar, lasts: map<StreamKey, OHLCTVBar>, ghost seen: seq<OHLCTVBar>)
    returns (error: Option<ReplayError>)
    requires RemembersLasts(seen, lasts)
    ensures error.None? <==> forall b :: b in seen && StreamOf(b) == StreamOf(bar) ==> b.closeTs <= bar.openTs
    ensures error.Some? ==> error.value.IsBarError()
  {
    if StreamOf(bar) in lasts {
      var last := lasts[StreamOf(bar)];
      if bar.closeTs <= last.closeTs {
        return Some(NonMonotonicClose);
      }
      if bar.openTs < last.closeTs {
        return Some(OverlappingBars);
      }
    }
    return None;
  }

  /** The one-pass check of a single bar against what is remembered. */
  method CheckBar(bar: OHLCTVBar, previous: Option<OHLCTVBar>, closes: set<(StreamKey, Timestamp)>,
                  lasts: map<StreamKey, OHLCTVBar>, frames: map<MarketKey, set<int>>, ghost seen: seq<OHLCTVBar>)
    returns (error: Option<ReplayError>)
    requires BarsSafe(seen) && RemembersCloses(seen, closes) && RemembersLasts(seen, lasts)
      && RemembersFrames(seen, frames)
    requires previous == if seen == [] then None else Some(seen[|seen| - 1])
    ensures error.None? <==> SafeAfter(seen, bar)
    ensures error.Some? ==> error.value.IsBarError()
  {
    hide RemembersLasts, RemembersFrames;
    if bar.sourceTs > bar.closeTs {
      return Some(SourceAfterClose);
    }
    var mixed := CheckTimeframe(bar, frames, seen);
    if mixed {
      return Some(MixedTimeframes);
    }
    if (StreamOf(bar), bar.closeTs) in closes {
      ghost var b :| b in seen && StreamOf(b) == StreamOf(bar) && b.closeTs == bar.closeTs;
      assert !SafePair(b, bar);
      return Some(DuplicateBars);
    }
    if previous.Some? && !KeyAtMost(previous.value, bar) {
      assert previous.value in seen && !SafePair(previous.value, bar);
      return Some(UnsortedBars);
    }
    error := CheckLast(bar, lasts, seen);
    if error.None? {
      forall b | b in seen ensures SafePair(b, bar) {
        KeyChain(seen, b, bar);
      }
    }
  }

  lemma OneTimeframe(seen: seq<OHLCTVBar>, bar: OHLCTVBar, timeframes: set<int>, frames: map<MarketKey, set<int>>)
    requires forall b :: b in seen ==> MarketOf(b) in frames && frames[MarketOf(b)] == {b.timeframe}
    requires timeframes == (if MarketOf(bar) in frames then frames[MarketOf(bar)] else {}) + {bar.timeframe}
    requires |timeframes| <= 1
    ensures forall b :: b in seen && SameMarket(b, bar) ==> b.timeframe == bar.timeframe
  {
    forall b | b in seen && SameMarket(b, bar) ensures b.timeframe == bar.timeframe {
      assert b.timeframe in timeframes && bar.timeframe in timeframes;
      if b.timeframe != bar.timeframe {
        assert {b.timeframe, bar.timeframe} <= timeframes;
        assert |{b.timeframe, bar.timeframe}| == 2;
        SubsetIsSmaller({b.timeframe, bar.timeframe}, timeframes);
      }
    }
  }

  lemma {:induction false} SubsetIsSmaller(a: set<int>, b: set<int>)
    requires a <= b
    ensures |a| <= |b|
  {
    assert b == a + (b - a);
  }

  lemma AppendedIsSafe(seen: seq<OHLCTVBar>, bar: OHLCTVBar)
    requires BarsSafe(seen)
    ensures BarsSafe(seen + [bar]) <==> SafeAfter(seen, bar)
  {
    var more := seen + [bar];
    if SafeAfter(seen, bar) {
      forall i, j | 0 <= i < j < |more| ensures SafePair(more[i], more[j]) {
        assert j == |seen| ==> more[i] in seen;
      }
    }
    if BarsSafe(more) {
      forall b | b in seen ensures SafePair(b, bar) {
        var i :| 0 <= i < |seen| && seen[i] == b;
        assert SafePair(more[i], more[|seen|]);
      }
      assert more[|seen|].sourceTs <= more[|seen|].closeTs;
    }
  }

  lemma KeyChain(seen: seq<OHLCTVBar>, b: OHLCTVBar, bar: OHLCTVBar)
    requires BarsSafe(seen) && b in seen && KeyAtMost(seen[|seen| - 1], bar)
    ensures KeyAtMost(b, bar)
  {
    var i :| 0 <= i < |seen| && seen[i] == b;
    assert i < |seen| - 1 ==> SafePair(seen[i], seen[|seen| - 1]);
  }

  /** Accepts exactly the bars that are pairwise ordered and, within a market, of one timeframe and non-overlapping. */
  method ValidateBars(bars: seq<OHLCTVBar>) returns (error: Option<ReplayError>)
    ensures error.None? <==> BarsSafe(bars)
    ensures error.Some? ==> error.value.IsBarError()
  {
    hide BarsSafe, SafeAfter, RemembersCloses, RemembersLasts, RemembersFrames;
    var closes: set<(StreamKey, Timestamp)> := {};
    var lasts: map<StreamKey, OHLCTVBar> := map[];
    var frames: map<MarketKey, set<int>> := map[];
    var previous: Option<OHLCTVBar> := None;
    NothingSeen();
    for i := 0 to |bars|
      invariant BarsSafe(bars[..i])
      invariant RemembersCloses(bars[..i], closes) && RemembersLasts(bars[..i], lasts)
        && RemembersFrames(bars[..i], frames)
      invariant previous == if i == 0 then None else Some(bars[i - 1])
    {
      var bar := bars[i];
      assert bars[..i + 1] == bars[..i] + [bar];
      error := CheckBar(bar, previous, closes, lasts, frames, bars[..i]);
      AppendedIsSafe(bars[..i], bar);
      if error.Some? {
        UnsafePrefix(bars, i + 1);
        return;
      }
      RememberOneMore(bars[..i], bar, closes, lasts, frames);
      closes := closes + {(StreamOf(bar), bar.closeTs)};
      frames := frames[MarketOf(bar) := {bar.timeframe}];
      lasts := lasts[StreamOf(bar) := bar];
      previous := Some(bar);
    }
    assert bars[..|bars|] == bars;
    return None;
  }

  lemma NothingSeen()
    ensures BarsSafe([]) && RemembersCloses([], {}) && RemembersLasts([], map[]) && RemembersFrames([], map[])
  {
  }

  lemma UnsafePrefix(bars: seq<OHLCTVBar>, n: nat)
    requires n <= |bars| && !BarsSafe(bars[..n])
    ensures !BarsSafe(bars)
  {
    if BarsSafe(bars) {
      forall i, j | 0 <= i < j < n ensures SafePair(bars[..n][i], bars[..n][j]) {
        assert SafePair(bars[i], bars[j]);
      }
    }
  }

  lemma RememberOneMore(seen: seq<OHLCTVBar>, bar: OHLCTVBar, closes: set<(StreamKey, Timestamp)>,
                        lasts: map<StreamKey, OHLCTVBar>, frames: map<MarketKey, set<int>>)
    requires RemembersCloses(seen, closes) && RemembersLasts(seen, lasts) && RemembersFrames(seen, frames)
    requires SafeAfter(seen, bar)
    ensures RemembersCloses(seen + [bar], closes + {(StreamOf(bar), bar.closeTs)})
    ensures RemembersLasts(seen + [bar], lasts[StreamOf(bar) := bar])
    ensures RemembersFrames(seen + [bar], frames[MarketOf(bar) := {bar.timeframe}])
  {
    RememberClose(seen, bar, closes);
    RememberLast(seen, bar, lasts);
    RememberFrame(seen, bar, frames);
  }

  lemma RememberClose(seen: seq<OHLCTVBar>, bar: OHLCTVBar, closes: set<(StreamKey, Timestamp)>)
    requires RemembersCloses(seen, closes)
    ensures RemembersCloses(seen + [bar], closes + {(StreamOf(bar), bar.closeTs)})
  {
    assert bar in seen + [bar];
    forall c | c in closes ensures exists b :: b in seen + [bar] && StreamOf(b) == c.0 && b.closeTs == c.1 {
      var b :| b in seen && StreamOf(b) == c.0 && b.closeTs == c.1;
      assert b in seen + [bar];
    }
  }

  lemma RememberLast(seen: seq<OHLCTVBar>, bar: OHLCTVBar, lasts: map<StreamKey, OHLCTVBar>)
    requires RemembersLasts(seen, lasts) && SafeAfter(seen, bar)
    ensures RemembersLasts(seen + [bar], lasts[StreamOf(bar) := bar])
  {
    assert forall b :: b in seen + [bar] <==> b in seen || b == bar;
    forall b | b in seen && StreamOf(b) == StreamOf(bar) ensures b.closeTs <= bar.closeTs {
      assert SafePair(b, bar);
    }
  }

  lemma RememberFrame(seen: seq<OHLCTVBar>, bar: OHLCTVBar, frames: map<MarketKey, set<int>>)
    requires RemembersFrames(seen, frames) && SafeAfter(seen, bar)
    ensures RemembersFrames(seen + [bar], frames[MarketOf(bar) := {bar.timeframe}])
  {
    assert forall b :: b in seen + [bar] <==> b in seen || b == bar;
    forall b | b in seen && MarketOf(b) == MarketOf(bar) ensures b.timeframe == bar.timeframe {
      assert SafePair(b, bar);
    }
  }
}
