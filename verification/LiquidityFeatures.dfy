/** Point-in-time liquidity and cost features from closed bars, quotes and fee schedules
  * (features/liquidity_cost.py). */
module LiquidityFeatures {
  import opened Contracts
  import opened InstrumentMaster
  import opened BarSeries

  datatype QuoteInputFields = QuoteInput(
    quoteId: CanonicalId,
    instrumentId: CanonicalId,
    venueId: CanonicalId,
    eventTs: Timestamp,
    sourceTs: Option<Timestamp>,
    bestBid: PositiveDecimal,
    bestAsk: PositiveDecimal,
    bidSize: Option<NonNegativeDecimal>,
    askSize: Option<NonNegativeDecimal>)

  /** Construction refuses a crossed or locked quote. */
  type QuoteInput = q: QuoteInputFields | q.bestBid < q.bestAsk
    witness QuoteInput(0, 0, 0, 0, None, 1.0, 2.0, None, None)

  type BoundedFeeRate = d: real | 0.0 <= d <= 0.05

  datatype FeeSchedule = FeeSchedule(
    feeScheduleId: CanonicalId, venueId: CanonicalId, makerFeeRate: BoundedFeeRate, takerFeeRate: BoundedFeeRate,
    minFee: NonNegativeDecimal, window: Window)

  // ------------------------------------------------------------ input checks

  ghost predicate QuotesAccepted(quotes: seq<QuoteInput>, batch: SilverBatch) {
    && quotes != []
    && (forall k :: 0 <= k < |quotes| ==>
        && quotes[k].instrumentId == batch.instrumentId && quotes[k].venueId == batch.venueId
        && (quotes[k].sourceTs.Some? ==> quotes[k].eventTs <= quotes[k].sourceTs.value))
    && (forall i, j :: 0 <= i < j < |quotes| ==> quotes[i].eventTs < quotes[j].eventTs)
  }

  method ValidateQuotes(quotes: seq<QuoteInput>, batch: SilverBatch) returns (error: Option<FeatureError>)
    ensures error.None? <==> QuotesAccepted(quotes, batch)
  {
    if quotes == [] {
      return Some(NoQuotes);
    }
    var previous: Option<Timestamp> := None;
    for i := 0 to |quotes|
      invariant forall k :: 0 <= k < i ==>
        && quotes[k].instrumentId == batch.instrumentId && quotes[k].venueId == batch.venueId
        && (quotes[k].sourceTs.Some? ==> quotes[k].eventTs <= quotes[k].sourceTs.value)
      invariant forall j, k :: 0 <= j < k < i ==> quotes[j].eventTs < quotes[k].eventTs
      invariant previous == if i == 0 then None else Some(quotes[i - 1].eventTs)
    {
      var quote := quotes[i];
      if quote.instrumentId != batch.instrumentId || quote.venueId != batch.venueId {
        return Some(QuoteScope);
      }
      if quote.sourceTs.Some? && quote.sourceTs.value < quote.eventTs {
        return Some(QuoteSourceBeforeEvent);
      }
      if previous.Some? && quote.eventTs <= previous.value {
        return Some(QuotesNotIncreasing);
      }
      previous := Some(quote.eventTs);
    }
    return None;
  }

  ghost predicate FeesAccepted(schedules: seq<FeeSchedule>, batch: SilverBatch) {
    schedules != [] && forall k :: 0 <= k < |schedules| ==> schedules[k].venueId == batch.venueId
  }

  method ValidateFeeSchedules(schedules: seq<FeeSchedule>, batch: SilverBatch) returns (error: Option<FeatureError>)
    ensures error.None? <==> FeesAccepted(schedules, batch)
  {
    if schedules == [] {
      return Some(NoFeeSchedules);
    }
    for i := 0 to |schedules|
      invariant forall k :: 0 <= k < i ==> schedules[k].venueId == batch.venueId
    {
      if schedules[i].venueId != batch.venueId {
        return Some(FeeScope);
      }
    }
    return None;
  }

  // ------------------------------------------------------------ lookups

  /** A quote is available once it happened and, when its source time is known, once the source had it. */
  predicate IsAvailable(q: QuoteInput, ts: Timestamp) {
    q.eventTs <= ts && (q.sourceTs.None? || q.sourceTs.value <= ts)
  }

  function Available(quotes: seq<QuoteInput>, ts: Timestamp): (r: seq<QuoteInput>)
    ensures forall k :: 0 <= k < |r| ==> r[k] in quotes && IsAvailable(r[k], ts)
  {
    if quotes == [] then []
    else
      var n := |quotes| - 1;
      assert quotes == quotes[..n] + [quotes[n]];
      Available(quotes[..n], ts) + if IsAvailable(quotes[n], ts) then [quotes[n]] else []
  }

  function LatestQuote(quotes: seq<QuoteInput>, ts: Timestamp): Option<QuoteInput> {
    var available := Available(quotes, ts);
    if available == [] then None else Some(available[|available| - 1])
  }

  function ActiveSchedules(schedules: seq<FeeSchedule>, ts: Timestamp): (r: seq<FeeSchedule>)
    ensures forall k :: 0 <= k < |r| ==> r[k] in schedules && IsEffective(r[k].window, ts)
  {
    if schedules == [] then []
    else
      var n := |schedules| - 1;
      assert schedules == schedules[..n] + [schedules[n]];
      ActiveSchedules(schedules[..n], ts) + if IsEffective(schedules[n].window, ts) then [schedules[n]] else []
  }

  function ActiveFeeSchedule(schedules: seq<FeeSchedule>, ts: Timestamp): Option<FeeSchedule> {
    var active := ActiveSchedules(schedules, ts);
    if |active| == 1 then Some(active[0]) else None
  }

  /** The quote used is the available one with the latest event. */
  lemma {:induction false} LatestQuoteIsLatest(quotes: seq<QuoteInput>, ts: Timestamp, k: nat)
    requires forall i, j :: 0 <= i < j < |quotes| ==> quotes[i].eventTs < quotes[j].eventTs
    requires k < |quotes| && IsAvailable(quotes[k], ts)
    ensures LatestQuote(quotes, ts).Some? && LatestQuote(quotes, ts).value.eventTs >= quotes[k].eventTs
  {
    var n := |quotes| - 1;
    var before := quotes[..n];
    if k < n {
      assert before[k] == quotes[k];
      assert forall i, j :: 0 <= i < j < n ==> before[i].eventTs < before[j].eventTs;
      LatestQuoteIsLatest(before, ts, k);
    }
  }

  /** The last quote, in their order, that had happened and been delivered by then. */
  ghost predicate IsLatestQuote(q: int, quotes: seq<QuoteInput>, ts: Timestamp) {
    && 0 <= q < |quotes| && quotes[q].eventTs <= ts && (quotes[q].sourceTs.Some? ==> quotes[q].sourceTs.value <= ts)
    && forall j :: q < j < |quotes| ==>
      quotes[j].eventTs > ts || (quotes[j].sourceTs.Some? && quotes[j].sourceTs.value > ts)
  }

  predicate InForce(fee: FeeSchedule, ts: Timestamp) {
    fee.window.effectiveFrom <= ts && (fee.window.effectiveTo.Some? ==> ts < fee.window.effectiveTo.value)
  }

  ghost predicate IsOnlyFee(f: int, schedules: seq<FeeSchedule>, ts: Timestamp) {
    0 <= f < |schedules| && forall j :: 0 <= j < |schedules| ==> (InForce(schedules[j], ts) <==> j == f)
  }

  lemma LatestQuoteGrows(quotes: seq<QuoteInput>, ts: Timestamp)
    ensures quotes == [] ==> LatestQuote(quotes, ts).None?
    ensures quotes != [] ==>
      var n := |quotes| - 1;
      LatestQuote(quotes, ts) == if IsAvailable(quotes[n], ts) then Some(quotes[n]) else LatestQuote(quotes[..n], ts)
  {
    assert quotes != [] ==> Available(quotes[..|quotes| - 1], ts) + [] == Available(quotes[..|quotes| - 1], ts);
  }

  lemma {:induction false} LatestIndex(quotes: seq<QuoteInput>, ts: Timestamp) returns (q: int)
    ensures LatestQuote(quotes, ts).Some? ==> 0 <= q < |quotes| && quotes[q] == LatestQuote(quotes, ts).value
    ensures LatestQuote(quotes, ts).Some? ==> IsAvailable(quotes[q], ts)
    ensures LatestQuote(quotes, ts).None? ==> q == -1
    ensures forall j :: 0 <= j < |quotes| && IsAvailable(quotes[j], ts) ==> j <= q
  {
    hide LatestQuote, IsAvailable;
    q := -1;
    LatestQuoteGrows(quotes, ts);
    if quotes != [] {
      var n := |quotes| - 1;
      var before := quotes[..n];
      q := LatestIndex(before, ts);
      forall j | 0 <= j < n && IsAvailable(quotes[j], ts) ensures j <= q {
        assert before[j] == quotes[j];
      }
      if IsAvailable(quotes[n], ts) {
        q := n;
      }
    }
  }

  lemma LatestQuoteMeaning(quotes: seq<QuoteInput>, ts: Timestamp)
    ensures LatestQuote(quotes, ts).Some? ==>
      exists q :: IsLatestQuote(q, quotes, ts) && quotes[q] == LatestQuote(quotes, ts).value
    ensures LatestQuote(quotes, ts).None? ==> forall q :: !IsLatestQuote(q, quotes, ts)
  {
    hide LatestQuote;
    var q := LatestIndex(quotes, ts);
    assert LatestQuote(quotes, ts).Some? ==> IsLatestQuote(q, quotes, ts);
    assert forall j :: IsLatestQuote(j, quotes, ts) ==> IsAvailable(quotes[j], ts);
  }

  lemma {:induction false} ActiveIndices(schedules: seq<FeeSchedule>, ts: Timestamp) returns (ks: seq<nat>)
    ensures |ks| == |ActiveSchedules(schedules, ts)|
    ensures forall i, j :: 0 <= i < j < |ks| ==> ks[i] < ks[j]
    ensures forall i :: 0 <= i < |ks| ==>
      ks[i] < |schedules| && InForce(schedules[ks[i]], ts) && ActiveSchedules(schedules, ts)[i] == schedules[ks[i]]
    ensures forall j :: 0 <= j < |schedules| && InForce(schedules[j], ts) ==> j in ks
  {
    ks := [];
    if schedules != [] {
      var n := |schedules| - 1;
      var before := ActiveIndices(schedules[..n], ts);
      ks := before + if InForce(schedules[n], ts) then [n] else [];
      forall j | 0 <= j < |schedules| && InForce(schedules[j], ts) ensures j in ks {
        assert j < n ==> schedules[..n][j] == schedules[j];
      }
    }
  }

  lemma ActiveFeeMeaning(schedules: seq<FeeSchedule>, ts: Timestamp)
    ensures ActiveFeeSchedule(schedules, ts).Some? ==>
      exists f :: IsOnlyFee(f, schedules, ts) && schedules[f] == ActiveFeeSchedule(schedules, ts).value
    ensures ActiveFeeSchedule(schedules, ts).None? ==> forall f :: !IsOnlyFee(f, schedules, ts)
  {
    hide ActiveSchedules;
    var ks := ActiveIndices(schedules, ts);
    if |ks| == 1 {
      assert IsOnlyFee(ks[0], schedules, ts);
    } else {
      forall f ensures !IsOnlyFee(f, schedules, ts) {
        if 0 <= f < |schedules| && InForce(schedules[f], ts) {
          assert f in ks;
          var other := if ks[0] == f then ks[1] else ks[0];
          assert InForce(schedules[other], ts) && other != f;
        }
      }
    }
  }

  // ------------------------------------------------------------ vectors

  datatype LiquidityVector = LiquidityVector(
    featureTs: Timestamp,
    spreadAbs: real, spreadBps: real, halfSpreadBps: real, midPrice: real,
    bidSize: Option<real>, askSize: Option<real>, baseLiquidity: Option<real>, quoteLiquidity: Option<real>,
    baseVolume: real, quoteVolume: Option<real>, tradeCount: Option<nat>,
    variance: Option<real>,
    makerFeeRate: real, takerFeeRate: real, roundTripTakerFeeRate: real, takerFeeBps: real,
    oneWayTakerCostBps: real, roundTripTakerCostBps: real, minFee: real,
    incomplete: bool,
    inputIds: seq<CanonicalId>)

  function BaseLiquidity(q: QuoteInput): Option<real> {
    if q.bidSize.None? || q.askSize.None? then None else Some(q.bidSize.value + q.askSize.value)
  }

  function ValueAt(size: real, price: real): real {
    size * price
  }

  function MakeVector(bar: SilverBar, quote: QuoteInput, fee: FeeSchedule, variance: Option<real>,
                      ids: seq<CanonicalId>): LiquidityVector
  {
    var spread, mid := quote.bestAsk - quote.bestBid, (quote.bestBid + quote.bestAsk) / 2.0;
    var base := BaseLiquidity(quote);
    var quoted := if base.None? then None else Some(ValueAt(base.value, mid));
    LiquidityVector(bar.closeTs, spread, spread / mid * 10000.0, spread / mid * 5000.0, mid,
      quote.bidSize, quote.askSize, base, quoted, bar.baseVolume, bar.quoteVolume, bar.tradeCount, variance,
      fee.makerFeeRate, fee.takerFeeRate, fee.takerFeeRate * 2.0, fee.takerFeeRate * 10000.0,
      spread / mid * 5000.0 + fee.takerFeeRate * 10000.0, spread / mid * 10000.0 + fee.takerFeeRate * 20000.0,
      fee.minFee,
      quote.bidSize.None? || quote.askSize.None? || base.None? || quoted.None? || bar.quoteVolume.None?
        || bar.tradeCount.None? || variance.None?,
      ids + [quote.quoteId, fee.feeScheduleId])
  }

  /** A round trip costs two one-way trades; the spread is a positive part of at most twice the mid price. */
  lemma CostsAreCoherent(bar: SilverBar, quote: QuoteInput, fee: FeeSchedule, variance: Option<real>,
                         ids: seq<CanonicalId>)
    ensures var v := MakeVector(bar, quote, fee, variance, ids);
      && v.roundTripTakerCostBps == 2.0 * v.oneWayTakerCostBps && v.spreadBps == 2.0 * v.halfSpreadBps
      && v.oneWayTakerCostBps == v.halfSpreadBps + v.takerFeeBps
      && 0.0 < v.spreadBps < 20000.0 && quote.bestBid < v.midPrice < quote.bestAsk
  {
    var spread, mid := quote.bestAsk - quote.bestBid, (quote.bestBid + quote.bestAsk) / 2.0;
    assert 0.0 < spread < 2.0 * mid;
    RatioWithin(spread, mid);
  }

  lemma RatioWithin(a: real, b: real)
    requires 0.0 < a < 2.0 * b
    ensures 0.0 < a / b < 2.0
  {
    var q := a / b;
    assert q * b == a;
    assert (2.0 - q) * b == 2.0 * b - q * b;
    FactorPositive(q, b);
    FactorPositive(2.0 - q, b);
  }

  lemma FactorPositive(x: real, b: real)
    requires b > 0.0 && x * b > 0.0
    ensures x > 0.0
  {
  }

  /** The vector at the last of the bars seen, or the refusal for lack of a quote or of a single active fee. */
  function VectorAt(seen: seq<SilverBar>, quotes: seq<QuoteInput>, schedules: seq<FeeSchedule>,
                    window: nat): Result<LiquidityVector, FeatureError>
    requires seen != [] && window > 0
  {
    var bar := seen[|seen| - 1];
    var quote, fee := LatestQuote(quotes, bar.closeTs), ActiveFeeSchedule(schedules, bar.closeTs);
    if quote.None? then Err(NoQuoteAvailable)
    else if fee.None? then Err(NotOneFeeSchedule)
    else Ok(MakeVector(bar, quote.value, fee.value, TrailingVariance(Returns(seen), window), RecordIds(seen)))
  }

  function Vectors(records: seq<SilverBar>, quotes: seq<QuoteInput>, schedules: seq<FeeSchedule>,
                   window: nat): (r: Result<seq<LiquidityVector>, FeatureError>)
    requires window > 0
    ensures r.Ok? ==> |r.value| == |records|
  {
    if records == [] then Ok([])
    else
      match Vectors(records[..|records| - 1], quotes, schedules, window)
      case Err(e) => Err(e)
      case Ok(before) =>
        match VectorAt(records, quotes, schedules, window)
        case Err(e) => Err(e)
        case Ok(v) => Ok(before + [v])
  }

  lemma {:induction false} RefusedVectorStops(records: seq<SilverBar>, n: nat, quotes: seq<QuoteInput>,
                                              schedules: seq<FeeSchedule>, window: nat)
    requires window > 0 && n <= |records| && Vectors(records[..n], quotes, schedules, window).Err?
    ensures Vectors(records, quotes, schedules, window) == Vectors(records[..n], quotes, schedules, window)
    decreases |records| - n
  {
    hide VectorAt;
    if n < |records| {
      assert records[..n + 1][..n] == records[..n];
      RefusedVectorStops(records, n + 1, quotes, schedules, window);
    } else {
      assert records[..n] == records;
    }
  }

  /** Some quote is available at the bar's close, and exactly one fee schedule is in force. */
  ghost predicate Served(bar: SilverBar, quotes: seq<QuoteInput>, schedules: seq<FeeSchedule>) {
    (exists q :: IsLatestQuote(q, quotes, bar.closeTs)) && exists f :: IsOnlyFee(f, schedules, bar.closeTs)
  }

  lemma ServedIff(seen: seq<SilverBar>, quotes: seq<QuoteInput>, schedules: seq<FeeSchedule>, window: nat)
    requires seen != [] && window > 0
    ensures VectorAt(seen, quotes, schedules, window).Ok? <==> Served(seen[|seen| - 1], quotes, schedules)
  {
    hide LatestQuote, ActiveFeeSchedule, IsLatestQuote, IsOnlyFee, MakeVector;
    LatestQuoteMeaning(quotes, seen[|seen| - 1].closeTs);
    ActiveFeeMeaning(schedules, seen[|seen| - 1].closeTs);
  }

  lemma {:induction false} VectorsIffServed(records: seq<SilverBar>, quotes: seq<QuoteInput>,
                                            schedules: seq<FeeSchedule>, window: nat)
    requires window > 0
    ensures Vectors(records, quotes, schedules, window).Ok? <==>
      forall k :: 0 <= k < |records| ==> Served(records[k], quotes, schedules)
  {
    hide Served, VectorAt;
    if records != [] {
      VectorsIffServed(records[..|records| - 1], quotes, schedules, window);
      ServedIff(records, quotes, schedules, window);
    }
  }

  ghost predicate InputsAccepted(batch: SilverBatch, quotes: seq<QuoteInput>, schedules: seq<FeeSchedule>, window: int)
  {
    && window > 0 && BatchAccepted(batch) && batch.records != [] && QuotesAccepted(quotes, batch)
      && FeesAccepted(schedules, batch)
  }

  method BuildLiquidityCostFeatureVectors(batch: SilverBatch, quotes: seq<QuoteInput>, schedules: seq<FeeSchedule>,
                                          window: int) returns (r: Result<seq<LiquidityVector>, FeatureError>)
    ensures r.Ok? <==>
      (&& InputsAccepted(batch, quotes, schedules, window)
       && forall k :: 0 <= k < |batch.records| ==> Served(batch.records[k], quotes, schedules))
    ensures r.Ok? ==> r == Vectors(batch.records, quotes, schedules, window)
  {
    hide Served, BatchAccepted, QuotesAccepted, FeesAccepted, Vectors;
    if window <= 0 {
      return Err(WindowNotPositive);
    }
    var error := ValidateOhlctvBatch(batch);
    if error.Some? {
      return Err(error.value);
    }
    if batch.records == [] {
      return Err(NoBars);
    }
    error := ValidateQuotes(quotes, batch);
    if error.Some? {
      return Err(error.value);
    }
    error := ValidateFeeSchedules(schedules, batch);
    if error.Some? {
      return Err(error.value);
    }
    VectorsIffServed(batch.records, quotes, schedules, window);
    r := BuildVectors(batch.records, quotes, schedules, window);
  }

  method BuildVectors(records: seq<SilverBar>, quotes: seq<QuoteInput>, schedules: seq<FeeSchedule>, window: nat)
    returns (r: Result<seq<LiquidityVector>, FeatureError>)
    requires window > 0
    ensures r == Vectors(records, quotes, schedules, window)
  {
    hide MakeVector, LatestQuote, ActiveFeeSchedule;
    var closes: seq<real>, moves: seq<real>, vectors: seq<LiquidityVector> := [], [], [];
    for i := 0 to |records|
      invariant closes == Closes(records[..i]) && moves == Returns(records[..i])
      invariant Vectors(records[..i], quotes, schedules, window) == Ok(vectors)
    {
      var seen := records[..i + 1];
      assert seen[..i] == records[..i];
      var bar := records[i];
      var oneBar := ReturnOf(bar.close, if closes == [] then None else Some(closes[|closes| - 1]));
      if oneBar.Some? {
        moves := moves + [oneBar.value];
      } else {
        assert moves + [] == moves;
      }
      closes := closes + [bar.close];
      var quote := LatestQuote(quotes, bar.closeTs);
      if quote.None? {
        RefusedVectorStops(records, i + 1, quotes, schedules, window);
        return Err(NoQuoteAvailable);
      }
      var fee := ActiveFeeSchedule(schedules, bar.closeTs);
      if fee.None? {
        RefusedVectorStops(records, i + 1, quotes, schedules, window);
        return Err(NotOneFeeSchedule);
      }
      vectors := vectors + [MakeVector(bar, quote.value, fee.value, TrailingVariance(moves, window), RecordIds(seen))];
    }
    assert records[..|records|] == records;
    return Ok(vectors);
  }

  // ------------------------------------------------------------ point in time

  /** Every quote available at an instant is the same in both sequences. */
  ghost predicate SameQuotesBy(a: seq<QuoteInput>, b: seq<QuoteInput>, ts: Timestamp) {
    Available(a, ts) == Available(b, ts)
  }

  lemma {:induction false} AvailableEarlier(quotes: seq<QuoteInput>, early: Timestamp, late: Timestamp)
    requires early <= late
    ensures Available(quotes, early) == Available(Available(quotes, late), early)
  {
    if quotes != [] {
      var n := |quotes| - 1;
      var known := Available(quotes[..n], late);
      AvailableEarlier(quotes[..n], early, late);
      if IsAvailable(quotes[n], late) {
        assert (known + [quotes[n]])[..|known|] == known;
      } else {
        assert known + [] == known;
      }
    }
  }

  /** The first k vectors are fixed by the first k bars and the quotes available at the k-th close: later bars, and
    * quotes that happened or were delivered later, change nothing, nor whether the builder refuses so far. */
  lemma {:induction false} FirstVectorsArePointInTime(records: seq<SilverBar>, quotes: seq<QuoteInput>,
                                                      quotes': seq<QuoteInput>, schedules: seq<FeeSchedule>,
                                                      window: nat)
    requires window > 0
    requires forall i, j :: 0 <= i < j < |records| ==> records[i].closeTs < records[j].closeTs
    requires records != [] ==> SameQuotesBy(quotes, quotes', records[|records| - 1].closeTs)
    ensures Vectors(records, quotes, schedules, window) == Vectors(records, quotes', schedules, window)
  {
    hide MakeVector;
    if records != [] {
      var n := |records| - 1;
      if n > 0 {
        AvailableEarlier(quotes, records[n - 1].closeTs, records[n].closeTs);
        AvailableEarlier(quotes', records[n - 1].closeTs, records[n].closeTs);
      }
      FirstVectorsArePointInTime(records[..n], quotes, quotes', schedules, window);
    }
  }

  /** Later bars only add vectors. */
  lemma {:induction false} LaterBarsOnlyAdd(records: seq<SilverBar>, k: nat, quotes: seq<QuoteInput>,
                                            schedules: seq<FeeSchedule>, window: nat)
    requires window > 0 && k <= |records| && Vectors(records, quotes, schedules, window).Ok?
    ensures Vectors(records[..k], quotes, schedules, window)
      == Ok(Vectors(records, quotes, schedules, window).value[..k])
  {
    hide VectorAt;
    var n := |records| - 1;
    var all := Vectors(records, quotes, schedules, window).value;
    if k == |records| {
      assert records[..k] == records && all[..k] == all;
    } else {
      LaterBarsOnlyAdd(records[..n], k, quotes, schedules, window);
      assert records[..n][..k] == records[..k];
      assert all[..n][..k] == all[..k];
      assert all[..n] == Vectors(records[..n], quotes, schedules, window).value;
    }
  }

  // ------------------------------------------------------------ what a vector says

  /** The spread of a quote and the fees of a schedule, in basis points of the mid price. */
  ghost predicate CostsSay(v: LiquidityVector, quote: QuoteInput, fee: FeeSchedule) {
    && 2.0 * v.midPrice == quote.bestBid + quote.bestAsk && v.spreadAbs == quote.bestAsk - quote.bestBid
    && v.spreadBps * v.midPrice == 10000.0 * v.spreadAbs && v.halfSpreadBps * v.midPrice == 5000.0 * v.spreadAbs
    && v.makerFeeRate == fee.makerFeeRate && v.takerFeeRate == fee.takerFeeRate && v.minFee == fee.minFee
    && v.roundTripTakerFeeRate == fee.takerFeeRate + fee.takerFeeRate && v.takerFeeBps == 10000.0 * fee.takerFeeRate
    && v.oneWayTakerCostBps == v.halfSpreadBps + v.takerFeeBps
    && v.roundTripTakerCostBps == v.oneWayTakerCostBps + v.oneWayTakerCostBps
  }

  predicate IsProduct(x: real, a: real, b: real) {
    x == a * b
  }

  /** What a vector says beside its costs: the sizes of its quote, the volumes of its bar and the spread of the returns
    * up to it, whether any of this is missing, and what it was read from. */
  ghost predicate VectorSays(v: LiquidityVector, records: seq<SilverBar>, k: nat, quote: QuoteInput, fee: FeeSchedule,
                             window: nat)
    requires k < |records| && window > 0
  {
    && v.featureTs == records[k].closeTs && v.bidSize == quote.bidSize && v.askSize == quote.askSize
    && (if quote.bidSize.None? || quote.askSize.None? then v.baseLiquidity.None? && v.quoteLiquidity.None?
        else
          && v.baseLiquidity == Some(quote.bidSize.value + quote.askSize.value)
          && v.quoteLiquidity.Some?
          && IsProduct(v.quoteLiquidity.value, quote.bidSize.value + quote.askSize.value, v.midPrice))
    && v.baseVolume == records[k].baseVolume && v.quoteVolume == records[k].quoteVolume
    && v.tradeCount == records[k].tradeCount && IsRecentVariance(v.variance, records[..k + 1], window)
    && (v.incomplete <==>
      || quote.bidSize.None? || quote.askSize.None? || records[k].quoteVolume.None? || records[k].tradeCount.None?
      || v.variance.None?)
    && v.inputIds == RecordIds(records[..k + 1]) + [quote.quoteId, fee.feeScheduleId]
  }

  lemma CostsMeaning(bar: SilverBar, quote: QuoteInput, fee: FeeSchedule, variance: Option<real>, ids: seq<CanonicalId>)
    ensures CostsSay(MakeVector(bar, quote, fee, variance, ids), quote, fee)
  {
    var spread, mid := quote.bestAsk - quote.bestBid, (quote.bestBid + quote.bestAsk) / 2.0;
    PartOf(spread, mid, 10000.0);
    PartOf(spread, mid, 5000.0);
  }

  lemma PartOf(a: real, b: real, scale: real)
    requires b > 0.0
    ensures a / b * scale * b == scale * a
  {
    var q := a / b;
    assert q * b == a;
    assert q * scale * b == scale * (q * b);
  }

  lemma ProductMeaning(a: real, b: real)
    ensures IsProduct(ValueAt(a, b), a, b)
  {
  }

  lemma QuotedMeaning(bar: SilverBar, quote: QuoteInput, fee: FeeSchedule, variance: Option<real>,
                      ids: seq<CanonicalId>)
    requires quote.bidSize.Some? && quote.askSize.Some?
    ensures var v := MakeVector(bar, quote, fee, variance, ids);
      v.quoteLiquidity.Some?
      && IsProduct(v.quoteLiquidity.value, quote.bidSize.value + quote.askSize.value, v.midPrice)
  {
    hide IsProduct, ValueAt;
    ProductMeaning(quote.bidSize.value + quote.askSize.value, (quote.bestBid + quote.bestAsk) / 2.0);
  }

  lemma FieldsMeaning(records: seq<SilverBar>, k: nat, quote: QuoteInput, fee: FeeSchedule, window: nat)
    requires k < |records| && window > 0
    ensures var seen := records[..k + 1];
      var v := MakeVector(records[k], quote, fee, TrailingVariance(Returns(seen), window), RecordIds(seen));
      CostsSay(v, quote, fee) && VectorSays(v, records, k, quote, fee, window)
  {
    hide CostsSay, IsRecentVariance, TrailingVariance, Returns, IsProduct;
    var seen := records[..k + 1];
    var variance, ids := TrailingVariance(Returns(seen), window), RecordIds(seen);
    VarianceMeaning(seen, window);
    CostsMeaning(records[k], quote, fee, variance, ids);
    if quote.bidSize.Some? && quote.askSize.Some? {
      QuotedMeaning(records[k], quote, fee, variance, ids);
    }
  }

  lemma VectorSeesPrefix(records: seq<SilverBar>, k: nat, quotes: seq<QuoteInput>, schedules: seq<FeeSchedule>,
                         window: nat)
    requires window > 0 && k < |records| && Vectors(records, quotes, schedules, window).Ok?
    ensures VectorAt(records[..k + 1], quotes, schedules, window)
      == Ok(Vectors(records, quotes, schedules, window).value[k])
  {
    hide VectorAt;
    var seen, all := records[..k + 1], Vectors(records, quotes, schedules, window).value;
    LaterBarsOnlyAdd(records, k + 1, quotes, schedules, window);
    assert all[..k + 1][k] == all[k];
  }

  /** Every vector is read off the latest quote available at its close, the one schedule in force, and the bars up to
    * it. */
  lemma VectorMeaning(records: seq<SilverBar>, quotes: seq<QuoteInput>, schedules: seq<FeeSchedule>, window: nat,
                      k: nat) returns (q: nat, f: nat)
    requires window > 0 && k < |records| && Vectors(records, quotes, schedules, window).Ok?
    ensures IsLatestQuote(q, quotes, records[k].closeTs) && IsOnlyFee(f, schedules, records[k].closeTs)
    ensures CostsSay(Vectors(records, quotes, schedules, window).value[k], quotes[q], schedules[f])
    ensures VectorSays(Vectors(records, quotes, schedules, window).value[k], records, k, quotes[q], schedules[f],
      window)
  {
    hide Vectors, LatestQuote, ActiveFeeSchedule, CostsSay, VectorSays, TrailingVariance, Returns, RecordIds,
      MakeVector;
    var ts := records[k].closeTs;
    VectorSeesPrefix(records, k, quotes, schedules, window);
    LatestQuoteMeaning(quotes, ts);
    ActiveFeeMeaning(schedules, ts);
    q :| IsLatestQuote(q, quotes, ts) && quotes[q] == LatestQuote(quotes, ts).value;
    f :| IsOnlyFee(f, schedules, ts) && schedules[f] == ActiveFeeSchedule(schedules, ts).value;
    FieldsMeaning(records, k, quotes[q], schedules[f], window);
  }
}
