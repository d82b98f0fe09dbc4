/** Point-in-time technical features from closed bars (features/ta.py). */
module TaFeatures {
  import opened Contracts
  import opened Statistics
  import opened BarSeries

  datatype Windows = Windows(sma: int, volatility: int, momentum: int)
  {
    predicate Positive() {
      sma > 0 && volatility > 0 && momentum > 0
    }
  }

  /** Without higher-timeframe bars a vector has no such value at all; with them the value may be missing. */
  datatype HigherClose = NotAsked | Asked(value: Option<real>)

  datatype TaVector = TaVector(
    featureTs: Timestamp,
    oneBarReturn: Option<real>,
    sma: Option<real>,
    variance: Option<real>,
    momentum: Option<real>,
    higherClose: HigherClose,
    incomplete: bool,
    inputIds: seq<CanonicalId>)

  function LatestHigherClose(higher: seq<SilverBar>, ts: Timestamp): Option<real> {
    LastClose(ClosedBy(higher, ts))
  }

  /** The values of one bar, from the closes and returns up to it and the ids of the bars behind them. */
  function MakeVector(bar: SilverBar, closes: seq<real>, moves: seq<real>, oneBar: Option<real>, higher: seq<SilverBar>,
                      ids: seq<CanonicalId>, w: Windows): TaVector
    requires closes != [] && w.Positive()
  {
    var n, ts := |closes| - 1, bar.closeTs;
    var sma := if |closes| >= w.sma then Some(Mean(Trailing(closes, w.sma))) else None;
    var variance := TrailingVariance(moves, w.volatility);
    var momentum := if n >= w.momentum then ReturnOf(bar.close, Some(closes[n - w.momentum])) else None;
    var higherClose := if higher == [] then NotAsked else Asked(LatestHigherClose(higher, ts));
    TaVector(ts, oneBar, sma, variance, momentum, higherClose,
      oneBar.None? || sma.None? || variance.None? || momentum.None? || higherClose == Asked(None),
      ids + RecordIds(ClosedBy(higher, ts)))
  }

  /** The vector at the last of the bars seen. */
  function VectorAt(seen: seq<SilverBar>, higher: seq<SilverBar>, w: Windows): TaVector
    requires seen != [] && w.Positive()
  {
    MakeVector(seen[|seen| - 1], Closes(seen), Returns(seen), LastReturn(seen), higher, RecordIds(seen), w)
  }

  function TaVectors(records: seq<SilverBar>, higher: seq<SilverBar>, w: Windows): (r: seq<TaVector>)
    requires w.Positive()
    ensures |r| == |records|
  {
    if records == [] then [] else TaVectors(records[..|records| - 1], higher, w) + [VectorAt(records, higher, w)]
  }

  /** Each vector looks at the bars up to its own only. */
  lemma {:induction false} VectorSeesPrefix(records: seq<SilverBar>, higher: seq<SilverBar>, w: Windows, k: nat)
    requires w.Positive() && k < |records|
    ensures TaVectors(records, higher, w)[k] == VectorAt(records[..k + 1], higher, w)
  {
    hide VectorAt;
    var n := |records| - 1;
    if k < n {
      VectorSeesPrefix(records[..n], higher, w, k);
      assert records[..n][..k + 1] == records[..k + 1];
    } else {
      assert records[..k + 1] == records;
    }
  }

  ghost predicate HigherAccepted(batch: SilverBatch, higher: Option<SilverBatch>) {
    higher.Some? ==>
      && higher.value.instrumentId == batch.instrumentId && higher.value.venueId == batch.venueId
      && BatchAccepted(higher.value)
      && batch.timeframe.Some? && higher.value.timeframe.value > batch.timeframe.value
  }

  function HigherRecords(higher: Option<SilverBatch>): seq<SilverBar> {
    if higher.Some? then higher.value.records else []
  }

  method ValidateHigherBatch(batch: SilverBatch, higher: SilverBatch) returns (error: Option<FeatureError>)
    requires BatchAccepted(batch)
    ensures error.None? <==> HigherAccepted(batch, Some(higher))
  {
    if higher.instrumentId != batch.instrumentId || higher.venueId != batch.venueId {
      return Some(ScopeMismatch);
    }
    error := ValidateOhlctvBatch(higher);
    if error.None? && higher.timeframe.value <= batch.timeframe.value {
      error := Some(HigherTimeframeNotLonger);
    }
  }

  /** One vector per bar, each from the closes and returns collected so far. */
  method BuildTaFeatureVectors(batch: SilverBatch, w: Windows, higher: Option<SilverBatch>)
    returns (r: Result<seq<TaVector>, FeatureError>)
    ensures r.Ok? <==> BatchAccepted(batch) && w.Positive() && HigherAccepted(batch, higher)
    ensures r.Ok? ==> r.value == TaVectors(batch.records, HigherRecords(higher), w)
  {
    hide BatchAccepted;
    var error := ValidateOhlctvBatch(batch);
    if error.Some? {
      return Err(error.value);
    }
    if w.sma <= 0 || w.volatility <= 0 || w.momentum <= 0 {
      return Err(WindowNotPositive);
    }
    if higher.Some? {
      error := ValidateHigherBatch(batch, higher.value);
      if error.Some? {
        return Err(error.value);
      }
    }
    var vectors := BuildVectors(batch.records, HigherRecords(higher), w);
    return Ok(vectors);
  }

  method BuildVectors(records: seq<SilverBar>, higher: seq<SilverBar>, w: Windows) returns (vectors: seq<TaVector>)
    requires w.Positive()
    ensures vectors == TaVectors(records, higher, w)
  {
    hide MakeVector, ReturnOf, RecordIds;
    var closes: seq<real>, moves: seq<real> := [], [];
    vectors := [];
    for i := 0 to |records|
      invariant closes == Closes(records[..i]) && moves == Returns(records[..i])
      invariant vectors == TaVectors(records[..i], higher, w)
    {
      var seen := records[..i + 1];
      assert seen[..i] == records[..i];
      var oneBar := ReturnOf(records[i].close, if closes == [] then None else Some(closes[|closes| - 1]));
      if oneBar.Some? {
        moves := moves + [oneBar.value];
      } else {
        assert moves + [] == moves;
      }
      closes := closes + [records[i].close];
      vectors := vectors + [MakeVector(records[i], closes, moves, oneBar, higher, RecordIds(seen), w)];
    }
    assert records[..|records|] == records;
  }

  // ------------------------------------------------------------ point in time

  /** Every higher-timeframe bar known by an instant is the same in both batches. */
  ghost predicate SameBarsBy(a: seq<SilverBar>, b: seq<SilverBar>, ts: Timestamp) {
    ClosedBy(a, ts) == ClosedBy(b, ts)
  }

  lemma AgreeEarlier(a: seq<SilverBar>, b: seq<SilverBar>, early: Timestamp, late: Timestamp)
    requires SameBarsBy(a, b, late) && early <= late
    ensures SameBarsBy(a, b, early)
  {
    ClosedByEarlier(a, early, late);
    ClosedByEarlier(b, early, late);
  }

  /** The first k vectors are fixed by the first k bars and the higher-timeframe bars known by the k-th close. With
    * those given, they are the same exactly when both higher-timeframe batches are empty or neither is. */
  lemma FirstVectorsArePointInTime(records: seq<SilverBar>, more: seq<SilverBar>, higher: seq<SilverBar>,
                                   higher': seq<SilverBar>, w: Windows, k: nat)
    requires w.Positive() && 1 <= k <= |records| && k <= |more| && records[..k] == more[..k]
    requires forall i, j :: 0 <= i < j < |records| ==> records[i].closeTs < records[j].closeTs
    requires SameBarsBy(higher, higher', records[k - 1].closeTs)
    ensures TaVectors(records, higher, w)[..k] == TaVectors(more, higher', w)[..k] <==>
      (higher == [] <==> higher' == [])
  {
    hide VectorAt, TaVectors;
    var a, b := TaVectors(records, higher, w), TaVectors(more, higher', w);
    forall i | 0 <= i < k ensures a[i] == b[i] <==> (higher == [] <==> higher' == []) {
      VectorSeesPrefix(records, higher, w, i);
      VectorSeesPrefix(more, higher', w, i);
      SamePrefix(records, more, i + 1, k);
      AgreeEarlier(higher, higher', records[i].closeTs, records[k - 1].closeTs);
      SameInputsSameVector(records[..i + 1], higher, higher', w);
    }
    if higher == [] <==> higher' == [] {
      assert a[..k] == b[..k];
    } else {
      assert a[0] == a[..k][0] && b[0] == b[..k][0];
    }
  }

  lemma SamePrefix(a: seq<SilverBar>, b: seq<SilverBar>, i: nat, k: nat)
    requires i <= k <= |a| && k <= |b| && a[..k] == b[..k]
    ensures a[..i] == b[..i]
  {
    assert a[..k][..i] == a[..i] && b[..k][..i] == b[..i];
  }

  lemma SameInputsSameVector(seen: seq<SilverBar>, higher: seq<SilverBar>, higher': seq<SilverBar>, w: Windows)
    requires seen != [] && w.Positive() && SameBarsBy(higher, higher', seen[|seen| - 1].closeTs)
    ensures VectorAt(seen, higher, w) == VectorAt(seen, higher', w) <==> (higher == [] <==> higher' == [])
  {
  }

  lemma {:induction false} ClosedBarsArePrefix(bars: seq<SilverBar>, ts: Timestamp, k: nat)
    requires k <= |bars|
    requires forall i :: 0 <= i < |bars| ==> (bars[i].closeTs <= ts <==> i < k)
    ensures ClosedBy(bars, ts) == bars[..k]
  {
    if bars != [] {
      var n := |bars| - 1;
      if k <= n {
        ClosedBarsArePrefix(bars[..n], ts, k);
        assert bars[..n][..k] == bars[..k];
        assert bars[n].closeTs > ts;
      } else {
        ClosedBarsArePrefix(bars[..n], ts, n);
        assert bars[n].closeTs <= ts;
        assert bars[..n][..n] + [bars[n]] == bars[..k];
      }
    }
  }

  /** In close order the bars known at an instant are a prefix of the batch, so the close used is the latest known
    * one. */
  lemma HigherCloseIsLatest(higher: seq<SilverBar>, ts: Timestamp, k: nat)
    requires k <= |higher|
    requires forall i :: 0 <= i < |higher| ==> (higher[i].closeTs <= ts <==> i < k)
    ensures LatestHigherClose(higher, ts) == if k == 0 then None else Some(higher[k - 1].close)
  {
    ClosedBarsArePrefix(higher, ts, k);
  }

  // ------------------------------------------------------------ what a vector says

  /** The average of the last closes of a window up to bar k, or none while there are too few. */
  ghost predicate IsSma(sma: Option<real>, records: seq<SilverBar>, k: nat, window: nat)
    requires k < |records|
  {
    if k + 1 < window then sma.None?
    else sma.Some? && sma.value * window as real == Sum(Closes(records[k + 1 - window..k + 1]))
  }

  /** What vector k says of the bars: the closes it compares and averages, the returns it spreads, the last of the known
    * higher-timeframe bars, and whether any of this is missing. */
  ghost predicate VectorSays(v: TaVector, records: seq<SilverBar>, k: nat, higher: seq<SilverBar>, known: nat,
                             w: Windows)
    requires k < |records| && known <= |higher| && w.Positive()
  {
    && v.featureTs == records[k].closeTs
    && IsReturn(v.oneBarReturn, records[k].close, if k == 0 then None else Some(records[k - 1].close))
    && IsSma(v.sma, records, k, w.sma)
    && IsRecentVariance(v.variance, records[..k + 1], w.volatility)
    && IsReturn(v.momentum, records[k].close, if k < w.momentum then None else Some(records[k - w.momentum].close))
    && v.higherClose == (if higher == [] then NotAsked
      else Asked(if known == 0 then None else Some(higher[known - 1].close)))
    && (v.incomplete <==>
      || v.oneBarReturn.None? || v.sma.None? || v.variance.None? || v.momentum.None?
      || (higher != [] && known == 0))
    && v.inputIds == RecordIds(records[..k + 1]) + RecordIds(higher[..known])
  }

  lemma {:induction false} ClosesOfSlice(records: seq<SilverBar>, n: nat)
    requires n <= |records|
    ensures Closes(records)[|records| - n..] == Closes(records[|records| - n..])
  {
  }

  lemma MeanTimesCount(values: seq<real>)
    requires values != []
    ensures Mean(values) * |values| as real == Sum(values)
  {
    hide Sum;
  }

  lemma SmaMeaning(records: seq<SilverBar>, k: nat, higher: seq<SilverBar>, w: Windows)
    requires w.Positive() && k < |records|
    ensures IsSma(VectorAt(records[..k + 1], higher, w).sma, records, k, w.sma)
  {
    hide ReturnOf, ClosedBy, Sum, TrailingVariance, RecordIds, Returns, Closes;
    var seen := records[..k + 1];
    if k + 1 >= w.sma {
      ClosesOfSlice(seen, w.sma);
      assert seen[k + 1 - w.sma..] == records[k + 1 - w.sma..k + 1];
      MeanTimesCount(Trailing(Closes(seen), w.sma));
    }
  }

  lemma ReturnsOfVector(records: seq<SilverBar>, k: nat, higher: seq<SilverBar>, w: Windows)
    requires w.Positive() && k < |records|
    ensures var v := VectorAt(records[..k + 1], higher, w);
      && IsReturn(v.oneBarReturn, records[k].close, if k == 0 then None else Some(records[k - 1].close))
      && IsReturn(v.momentum, records[k].close, if k < w.momentum then None else Some(records[k - w.momentum].close))
  {
    hide IsReturn, ReturnOf, ClosedBy, Mean, TrailingVariance, RecordIds, Returns, Closes;
    var seen := records[..k + 1];
    assert LastClose(seen[..k]) == if k == 0 then None else Some(records[k - 1].close);
    ReturnMeaning(records[k].close, LastClose(seen[..k]));
    var before := if k < w.momentum then None else Some(records[k - w.momentum].close);
    ReturnMeaning(records[k].close, before);
    NoPreviousNoReturn(records[k].close);
  }

  lemma NoPreviousNoReturn(close: real)
    ensures ReturnOf(close, None).None?
  {
  }

  lemma {:induction false} KnownPrefix(bars: seq<SilverBar>, ts: Timestamp) returns (known: nat)
    requires forall i, j :: 0 <= i < j < |bars| ==> bars[i].closeTs < bars[j].closeTs
    ensures known <= |bars|
    ensures forall i :: 0 <= i < |bars| ==> (bars[i].closeTs <= ts <==> i < known)
  {
    known := 0;
    if bars != [] {
      var n := |bars| - 1;
      known := KnownPrefix(bars[..n], ts);
      if bars[n].closeTs <= ts {
        known := |bars|;
      }
    }
  }

  /** Every vector of a batch says so, with the higher-timeframe bars closed by its own close. */
  lemma VectorMeaning(records: seq<SilverBar>, k: nat, higher: seq<SilverBar>, w: Windows) returns (known: nat)
    requires w.Positive() && k < |records|
    requires forall i, j :: 0 <= i < j < |higher| ==> higher[i].closeTs < higher[j].closeTs
    ensures known <= |higher|
    ensures forall i :: 0 <= i < |higher| ==> (higher[i].closeTs <= records[k].closeTs <==> i < known)
    ensures VectorSays(TaVectors(records, higher, w)[k], records, k, higher, known, w)
  {
    known := KnownPrefix(higher, records[k].closeTs);
    var seen := records[..k + 1];
    SmaMeaning(records, k, higher, w);
    ReturnsOfVector(records, k, higher, w);
    VarianceMeaning(seen, w.volatility);
    hide TaVectors, IsReturn, IsSma, IsRecentVariance, ReturnOf, ClosedBy, Mean, Closes, Returns, RecordIds,
      TrailingVariance, LastReturn;
    VectorSeesPrefix(records, higher, w, k);
    HigherCloseIsLatest(higher, records[k].closeTs, known);
    ClosedBarsArePrefix(higher, records[k].closeTs, known);
  }
}
