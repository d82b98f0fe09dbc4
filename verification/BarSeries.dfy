/** Silver bar batches and the running series both feature builders grow (features/ta.py,
  * features/liquidity_cost.py). */
module BarSeries {
  import opened Contracts
  import opened Statistics

  datatype SilverBar = SilverBar(
    recordId: CanonicalId,
    timeframe: nat,
    closeTs: Timestamp,
    sourceTs: Timestamp,
    close: NonNegativeDecimal,
    baseVolume: NonNegativeDecimal,
    quoteVolume: Option<NonNegativeDecimal>,
    tradeCount: Option<nat>)

  /** `isOhlctv` says batch and records are all of that kind; timeframes are in seconds. */
  datatype SilverBatch = SilverBatch(
    instrumentId: CanonicalId, venueId: CanonicalId, isOhlctv: bool, timeframe: Option<nat>, records: seq<SilverBar>)

  datatype FeatureError =
    | NotOhlctv | TimeframeMismatch | SourceAfterClose | ClosesNotIncreasing | NoBars | WindowNotPositive
    | ScopeMismatch
    | HigherTimeframeNotLonger | NoQuotes | QuoteScope | QuoteSourceBeforeEvent | QuotesNotIncreasing
    | NoFeeSchedules | FeeScope | NoQuoteAvailable | NotOneFeeSchedule

  ghost predicate BatchAccepted(batch: SilverBatch) {
    && batch.isOhlctv && batch.timeframe.Some?
    && (forall k :: 0 <= k < |batch.records| ==>
        batch.records[k].timeframe == batch.timeframe.value && batch.records[k].sourceTs <= batch.records[k].closeTs)
    && (forall i, j :: 0 <= i < j < |batch.records| ==> batch.records[i].closeTs < batch.records[j].closeTs)
  }

  method ValidateOhlctvBatch(batch: SilverBatch) returns (error: Option<FeatureError>)
    ensures error.None? <==> BatchAccepted(batch)
  {
    if !batch.isOhlctv || batch.timeframe.None? {
      return Some(NotOhlctv);
    }
    var records, previous: Option<Timestamp> := batch.records, None;
    for i := 0 to |records|
      invariant forall k :: 0 <= k < i ==>
        records[k].timeframe == batch.timeframe.value && records[k].sourceTs <= records[k].closeTs
      invariant forall j, k :: 0 <= j < k < i ==> records[j].closeTs < records[k].closeTs
      invariant previous == if i == 0 then None else Some(records[i - 1].closeTs)
    {
      var record := records[i];
      if record.timeframe != batch.timeframe.value {
        return Some(TimeframeMismatch);
      }
      if record.sourceTs > record.closeTs {
        return Some(SourceAfterClose);
      }
      if previous.Some? && record.closeTs <= previous.value {
        return Some(ClosesNotIncreasing);
      }
      previous := Some(record.closeTs);
    }
    return None;
  }

  // ------------------------------------------------------------ closes and returns

  function ReturnOf(close: real, previous: Option<real>): Option<real> {
    if previous.None? || previous.value == 0.0 then None else Some(close / previous.value - 1.0)
  }

  function Closes(records: seq<SilverBar>): (r: seq<real>)
    ensures |r| == |records| && forall k :: 0 <= k < |r| ==> r[k] == records[k].close
  {
    if records == [] then [] else Closes(records[..|records| - 1]) + [records[|records| - 1].close]
  }

  function LastClose(records: seq<SilverBar>): Option<real> {
    if records == [] then None else Some(records[|records| - 1].close)
  }

  function LastReturn(records: seq<SilverBar>): Option<real>
    requires records != []
  {
    ReturnOf(records[|records| - 1].close, LastClose(records[..|records| - 1]))
  }

  /** The defined one-bar returns; a bar after a zero close has none. */
  function Returns(records: seq<SilverBar>): (r: seq<real>)
    ensures |r| <= |records|
  {
    if records == [] then []
    else Returns(records[..|records| - 1]) + if LastReturn(records).Some? then [LastReturn(records).value] else []
  }

  /** The last n values. */
  function Trailing(s: seq<real>, n: nat): (r: seq<real>)
    requires n <= |s|
    ensures |r| == n
  {
    s[|s| - n..]
  }

  function TrailingVariance(moves: seq<real>, window: nat): Option<real>
    requires window > 0
  {
    if |moves| >= window then Some(Variance(Trailing(moves, window))) else None
  }

  // ------------------------------------------------------------ returns in terms of the bars

  /** A close is the previous one grown by the return. */
  predicate GrowsBy(previous: real, r: real, close: real) {
    close == previous * (1.0 + r)
  }

  /** After a zero close, or none, there is no return. */
  ghost predicate IsReturn(r: Option<real>, close: real, previous: Option<real>) {
    if previous.None? || previous.value == 0.0 then r.None? else r.Some? && GrowsBy(previous.value, r.value, close)
  }

  lemma ReturnMeaning(close: real, previous: Option<real>)
    ensures IsReturn(ReturnOf(close, previous), close, previous)
  {
    if previous.Some? && previous.value != 0.0 {
      var q := close / previous.value;
      assert previous.value * q == close;
      assert 1.0 + (q - 1.0) == q;
    }
  }

  /** Bar k has a one-bar return. */
  predicate Moves(records: seq<SilverBar>, k: int) {
    1 <= k < |records| && records[k - 1].close != 0.0
  }

  /** The bars with a return, in order, and the returns collected at them. */
  ghost predicate AreMoves(moves: seq<real>, at: seq<nat>, records: seq<SilverBar>) {
    && |moves| == |at| && (forall i, j :: 0 <= i < j < |at| ==> at[i] < at[j])
    && (forall k: nat :: Moves(records, k) ==> k in at)
    && forall i :: 0 <= i < |at| ==>
      Moves(records, at[i]) && GrowsBy(records[at[i] - 1].close, moves[i], records[at[i]].close)
  }

  lemma {:induction false} ReturnsMeaning(records: seq<SilverBar>) returns (at: seq<nat>)
    ensures AreMoves(Returns(records), at, records)
  {
    hide AreMoves, IsReturn;
    at := [];
    if records == [] {
      NoMoves();
    } else {
      var n := |records| - 1;
      at := ReturnsMeaning(records[..n]);
      ReturnMeaning(records[n].close, LastClose(records[..n]));
      at := OneMoreMove(Returns(records[..n]), at, records, LastReturn(records));
    }
  }

  lemma NoMoves()
    ensures AreMoves([], [], [])
  {
  }

  lemma OneMoreMove(moves: seq<real>, at: seq<nat>, records: seq<SilverBar>, r: Option<real>) returns (more: seq<nat>)
    requires records != [] && AreMoves(moves, at, records[..|records| - 1])
    requires IsReturn(r, records[|records| - 1].close, LastClose(records[..|records| - 1]))
    ensures AreMoves(moves + if r.Some? then [r.value] else [], more, records)
  {
    hide GrowsBy;
    var n := |records| - 1;
    more := at + if r.Some? then [n] else [];
    forall k: nat | Moves(records, k) ensures k in more {
      assert k != n ==> Moves(records[..n], k);
    }
  }

  /** The variance of the last returns of a window, or none while there are too few. */
  ghost predicate IsRecentVariance(v: Option<real>, records: seq<SilverBar>, window: nat)
    requires window > 0
  {
    exists moves, at :: AreMoves(moves, at, records)
      && v == if |moves| < window then None else Some(Variance(moves[|moves| - window..]))
  }

  lemma VarianceMeaning(records: seq<SilverBar>, window: nat)
    requires window > 0
    ensures IsRecentVariance(TrailingVariance(Returns(records), window), records, window)
  {
    hide AreMoves, Variance;
    var at := ReturnsMeaning(records);
  }

  function RecordIds(records: seq<SilverBar>): (r: seq<CanonicalId>)
    ensures |r| == |records| && forall k :: 0 <= k < |r| ==> r[k] == records[k].recordId
  {
    if records == [] then [] else RecordIds(records[..|records| - 1]) + [records[|records| - 1].recordId]
  }

  /** The bars closed by an instant, in batch order. */
  function ClosedBy(records: seq<SilverBar>, ts: Timestamp): (r: seq<SilverBar>)
    ensures forall k :: 0 <= k < |r| ==> r[k] in records && r[k].closeTs <= ts
  {
    if records == [] then []
    else
      var n := |records| - 1;
      assert records == records[..n] + [records[n]];
      ClosedBy(records[..n], ts) + if records[n].closeTs <= ts then [records[n]] else []
  }

  /** What was known earlier follows from what is known later. */
  lemma {:induction false} ClosedByEarlier(records: seq<SilverBar>, early: Timestamp, late: Timestamp)
    requires early <= late
    ensures ClosedBy(records, early) == ClosedBy(ClosedBy(records, late), early)
  {
    if records != [] {
      var n := |records| - 1;
      var known := ClosedBy(records[..n], late);
      ClosedByEarlier(records[..n], early, late);
      if records[n].closeTs <= late {
        assert (known + [records[n]])[..|known|] == known;
      } else {
        assert known + [] == known;
      }
    }
  }
}
