/** The sequence-conditioned probabilistic candidate: fitted on train labels, scored out of sample
  * (training/probabilistic_candidate.py, contracts/forecasts.py). */
module Candidate {
  import opened Contracts
  import opened Sorting
  import opened Statistics
  import opened DatasetSnapshots
  import opened Names
  import opened Scorecard

  datatype CandidateError =
    | NoSplits | TrainSplitRequested | DuplicateSplits | LabelLikeFeature | MissingSequenceFeature | NoTrainRows
    | NoForecasts

  const LOOKBACK := 2

  const BANNED_NAMES := {"label", "label_value", "future_return", "target"}

  // ------------------------------------------------------------ sequences and buckets

  predicate IsEligible(candidate: DatasetRow, row: DatasetRow) {
    && candidate.vector.instrumentId == row.vector.instrumentId && candidate.vector.venueId == row.vector.venueId
    && candidate.vector.featureTs <= row.vector.featureTs
  }

  function EligibleRows(row: DatasetRow, rows: seq<DatasetRow>): (r: seq<DatasetRow>)
    ensures forall k :: 0 <= k < |r| ==> r[k] in rows && IsEligible(r[k], row)
  {
    if rows == [] then []
    else
      var n := |rows| - 1;
      assert rows == rows[..n] + [rows[n]];
      EligibleRows(row, rows[..n]) + if IsEligible(rows[n], row) then [rows[n]] else []
  }

  function LastOf<T>(s: seq<T>, n: nat): seq<T> {
    if |s| <= n then s else s[|s| - n..]
  }

  ghost predicate HaveSequenceFeature(rows: seq<DatasetRow>) {
    forall row :: row in rows ==> row.vector.oneBarReturn.Some?
  }

  function FeaturesOf(rows: seq<DatasetRow>): (r: seq<real>)
    requires forall k :: 0 <= k < |rows| ==> rows[k].vector.oneBarReturn.Some?
    ensures |r| == |rows| && forall k :: 0 <= k < |r| ==> r[k] == rows[k].vector.oneBarReturn.value
  {
    if rows == [] then [] else FeaturesOf(rows[..|rows| - 1]) + [rows[|rows| - 1].vector.oneBarReturn.value]
  }

  function RecentRows(row: DatasetRow, rows: seq<DatasetRow>): (r: seq<DatasetRow>)
    requires HaveSequenceFeature(rows)
    ensures forall k :: 0 <= k < |r| ==> r[k].vector.oneBarReturn.Some?
  {
    LastOf(EligibleRows(row, rows), LOOKBACK)
  }

  /** The last two values of the sequence feature known at the row's feature time. */
  function SequenceOf(row: DatasetRow, rows: seq<DatasetRow>): seq<real>
    requires HaveSequenceFeature(rows)
  {
    FeaturesOf(RecentRows(row, rows))
  }

  method SequenceValues(row: DatasetRow, rows: seq<DatasetRow>) returns (values: seq<real>)
    requires HaveSequenceFeature(rows)
    ensures values == SequenceOf(row, rows)
  {
    var recent := RecentRows(row, rows);
    values := [];
    for i := 0 to |recent|
      invariant values == FeaturesOf(recent[..i])
    {
      assert recent[..i + 1][..i] == recent[..i];
      values := values + [recent[i].vector.oneBarReturn.value];
    }
    assert recent[..|recent|] == recent;
  }

  datatype Bucket = SequenceNonNegative | SequenceNegative

  function BucketOf(row: DatasetRow, rows: seq<DatasetRow>): Bucket
    requires HaveSequenceFeature(rows)
  {
    if Sum(SequenceOf(row, rows)) >= 0.0 then SequenceNonNegative else SequenceNegative
  }

  // ------------------------------------------------------------ distribution statistics

  function CountNonNegative(labels: seq<real>): (c: nat)
    ensures c <= |labels|
  {
    if labels == [] then 0 else CountNonNegative(labels[..|labels| - 1]) + if labels[|labels| - 1] >= 0.0 then 1 else 0
  }

  type Level = p: real | 0.0 < p < 1.0 witness 0.5

  /** Rounds half up. */
  function RoundHalfUp(v: real): int {
    (v + 0.5).Floor
  }

  function QuantileIndex(n: nat, level: Level): (index: nat)
    requires n >= 1
    ensures index < n
    ensures index as real - 0.5 <= (n - 1) as real * level < index as real + 0.5
  {
    ScaledDown((n - 1) as real, level);
    RoundHalfUp((n - 1) as real * level)
  }

  lemma ScaledDown(m: real, level: Level)
    requires m >= 0.0
    ensures 0.0 <= m * level <= m
  {
  }

  function NearestQuantile(labels: seq<real>, level: Level): real
    requires labels != []
  {
    AtMostIsTotal();
    SortCorrect(labels, AtMost);
    Sort(labels, AtMost)[QuantileIndex(|labels|, level)]
  }

  datatype Quantile = Quantile(level: Level, value: real)

  /** The uncertainty is kept squared. */
  datatype DistributionStats = DistributionStats(
    negative: real, nonNegative: real, quantiles: seq<Quantile>, variance: real, rowCount: nat)

  function StatsOf(labels: seq<real>): DistributionStats
    requires labels != []
  {
    var count := |labels| as real;
    var nonNegative := CountNonNegative(labels) as real / count;
    DistributionStats(1.0 - nonNegative, nonNegative,
      [Quantile(0.1, NearestQuantile(labels, 0.1)), Quantile(0.5, NearestQuantile(labels, 0.5)),
       Quantile(0.9, NearestQuantile(labels, 0.9))],
      Variance(labels), |labels|)
  }

  /** A quantile is the label with as many others on either side as its index says. */
  lemma QuantileSplitsLabels(labels: seq<real>, level: Level) returns (below: seq<real>, above: seq<real>)
    requires labels != []
    ensures multiset(labels) == multiset(below) + multiset{NearestQuantile(labels, level)} + multiset(above)
    ensures |below| == QuantileIndex(|labels|, level)
    ensures forall x :: x in below ==> x <= NearestQuantile(labels, level)
    ensures forall x :: x in above ==> NearestQuantile(labels, level) <= x
  {
    AtMostIsTotal();
    SortCorrect(labels, AtMost);
    var s, i := Sort(labels, AtMost), QuantileIndex(|labels|, level);
    below, above := s[..i], s[i + 1..];
    assert s == below + [s[i]] + above;
    forall x | x in below ensures x <= s[i] {
      var k :| 0 <= k < |below| && below[k] == x;
      assert AtMost(s[k], s[i]);
    }
    forall x | x in above ensures s[i] <= x {
      var k :| 0 <= k < |above| && above[k] == x;
      assert AtMost(s[i], s[i + 1 + k]);
    }
  }

  lemma IndexGrows(n: nat, low: Level, high: Level)
    requires n >= 1 && low <= high
    ensures QuantileIndex(n, low) <= QuantileIndex(n, high)
  {
    ProductGrows((n - 1) as real, low, high, (n - 1) as real * low, (n - 1) as real * high);
  }

  lemma QuantilesAreOrdered(labels: seq<real>, low: Level, high: Level)
    requires labels != [] && low <= high
    ensures NearestQuantile(labels, low) <= NearestQuantile(labels, high)
    ensures NearestQuantile(labels, low) in labels
  {
    AtMostIsTotal();
    SortCorrect(labels, AtMost);
    IndexGrows(|labels|, low, high);
    var s, i, j := Sort(labels, AtMost), QuantileIndex(|labels|, low), QuantileIndex(|labels|, high);
    assert i < j ==> AtMost(s[i], s[j]);
    assert s[i] in multiset(s);
  }

  /** The forecast checks that concern the distribution. */
  predicate DistributionAccepted(s: DistributionStats) {
    && 0.0 <= s.negative <= 1.0 && 0.0 <= s.nonNegative <= 1.0 && s.negative + s.nonNegative == 1.0
    && s.quantiles != [] && s.variance >= 0.0
    && forall k :: 0 < k < |s.quantiles| ==>
      s.quantiles[k - 1].level < s.quantiles[k].level && s.quantiles[k - 1].value <= s.quantiles[k].value
  }

  lemma FractionOf(part: nat, whole: nat)
    requires part <= whole && whole >= 1
    ensures 0.0 <= part as real / whole as real <= 1.0
  {
  }

  /** Fitted statistics always pass the forecast checks, and every quantile is one of the fitted labels. */
  lemma StatsAreAccepted(labels: seq<real>)
    requires labels != []
    ensures DistributionAccepted(StatsOf(labels))
    ensures forall k :: 0 <= k < |StatsOf(labels).quantiles| ==> StatsOf(labels).quantiles[k].value in labels
  {
    hide NearestQuantile;
    FractionOf(CountNonNegative(labels), |labels|);
    QuantilesAreOrdered(labels, 0.1, 0.5);
    QuantilesAreOrdered(labels, 0.5, 0.9);
    QuantilesAreOrdered(labels, 0.9, 0.9);
  }

  // ------------------------------------------------------------ fitting

  function TrainRows(rows: seq<DatasetRow>): (r: seq<DatasetRow>)
    ensures forall k :: 0 <= k < |r| ==> r[k] in rows && r[k].split == Train
  {
    if rows == [] then []
    else
      var n := |rows| - 1;
      assert rows == rows[..n] + [rows[n]];
      TrainRows(rows[..n]) + if rows[n].split == Train then [rows[n]] else []
  }

  function LabelsOf(rows: seq<DatasetRow>): (r: seq<real>)
    ensures |r| == |rows|
  {
    if rows == [] then [] else LabelsOf(rows[..|rows| - 1]) + [rows[|rows| - 1].labelValue]
  }

  /** The labels of the train rows in one bucket, in row order. */
  function BucketLabels(train: seq<DatasetRow>, rows: seq<DatasetRow>, bucket: Bucket): seq<real>
    requires HaveSequenceFeature(rows)
  {
    if train == [] then []
    else
      var last := train[|train| - 1];
      BucketLabels(train[..|train| - 1], rows, bucket)
        + if BucketOf(last, rows) == bucket then [last.labelValue] else []
  }

  datatype Fitted = Fitted(overall: DistributionStats, byBucket: map<Bucket, DistributionStats>)

  /** Buckets without train labels have no statistics of their own. */
  ghost predicate IsFit(fit: Fitted, rows: seq<DatasetRow>)
    requires HaveSequenceFeature(rows) && TrainRows(rows) != []
  {
    && fit.overall == StatsOf(LabelsOf(TrainRows(rows)))
    && forall bucket ::
      && (bucket in fit.byBucket <==> BucketLabels(TrainRows(rows), rows, bucket) != [])
      && (bucket in fit.byBucket ==> fit.byBucket[bucket] == StatsOf(BucketLabels(TrainRows(rows), rows, bucket)))
  }

  ghost predicate Collected(labels: map<Bucket, seq<real>>, train: seq<DatasetRow>, rows: seq<DatasetRow>)
    requires HaveSequenceFeature(rows)
  {
    forall bucket ::
      && BucketLabels(train, rows, bucket) == (if bucket in labels then labels[bucket] else [])
      && (bucket in labels ==> labels[bucket] != [])
  }

  method CollectLabels(train: seq<DatasetRow>, rows: seq<DatasetRow>) returns (labels: map<Bucket, seq<real>>)
    requires HaveSequenceFeature(rows)
    ensures Collected(labels, train, rows)
  {
    hide BucketOf;
    labels := map[];
    for i := 0 to |train|
      invariant Collected(labels, train[..i], rows)
    {
      assert train[..i + 1][..i] == train[..i];
      var bucket := BucketOf(train[i], rows);
      labels := labels[bucket := (if bucket in labels then labels[bucket] else []) + [train[i].labelValue]];
    }
    assert train[..|train|] == train;
  }

  method FitSequenceCandidate(rows: seq<DatasetRow>) returns (r: Result<Fitted, CandidateError>)
    requires HaveSequenceFeature(rows)
    ensures r.Ok? <==> TrainRows(rows) != []
    ensures r.Ok? ==> IsFit(r.value, rows)
    ensures r.Err? ==> r.error == NoTrainRows
  {
    hide StatsOf, BucketOf;
    var train := TrainRows(rows);
    if train == [] {
      return Err(NoTrainRows);
    }
    var labels := CollectLabels(train, rows);
    var overall := StatsOf(LabelsOf(train));
    var byBucket := map bucket | bucket in labels :: StatsOf(labels[bucket]);
    return Ok(Fitted(overall, byBucket));
  }

  // ------------------------------------------------------------ scoring

  /** What a forecast says about a row, beside the identities of dataset, run and model. */
  datatype Forecast = Forecast(
    row: FeatureVector, split: DatasetSplit, bucket: Bucket, sequence: seq<real>, stats: DistributionStats,
    globalRowCount: nat)
  {
    predicate Accepted() {
      split != Train && DistributionAccepted(stats)
    }
  }

  /** The distribution a row is scored with: its bucket's train labels, or all train labels. */
  function FittedLabels(row: DatasetRow, rows: seq<DatasetRow>): seq<real>
    requires HaveSequenceFeature(rows)
  {
    var own := BucketLabels(TrainRows(rows), rows, BucketOf(row, rows));
    if own != [] then own else LabelsOf(TrainRows(rows))
  }

  function ForecastOf(row: DatasetRow, rows: seq<DatasetRow>): Forecast
    requires HaveSequenceFeature(rows) && TrainRows(rows) != []
  {
    Forecast(row.vector, row.split, BucketOf(row, rows), SequenceOf(row, rows), StatsOf(FittedLabels(row, rows)),
      |TrainRows(rows)|)
  }

  method ScoreRow(row: DatasetRow, rows: seq<DatasetRow>, fit: Fitted) returns (forecast: Forecast)
    requires HaveSequenceFeature(rows) && TrainRows(rows) != [] && IsFit(fit, rows)
    ensures forecast == ForecastOf(row, rows)
  {
    hide SequenceOf, TrainRows, BucketLabels;
    var bucket := BucketOf(row, rows);
    var stats := if bucket in fit.byBucket then fit.byBucket[bucket] else fit.overall;
    var sequence := SequenceValues(row, rows);
    forecast := Forecast(row.vector, row.split, bucket, sequence, stats, fit.overall.rowCount);
  }

  function ForecastsOf(todo: seq<DatasetRow>, rows: seq<DatasetRow>, splits: set<DatasetSplit>): seq<Forecast>
    requires HaveSequenceFeature(rows) && TrainRows(rows) != []
  {
    if todo == [] then []
    else
      var last := todo[|todo| - 1];
      ForecastsOf(todo[..|todo| - 1], rows, splits) + if last.split in splits then [ForecastOf(last, rows)] else []
  }

  /** Some feature bears a banned name, whatever its case and padding. */
  predicate IsLabelLike(vector: FeatureVector) {
    !(LowerAll(StripAll(vector.names)) !! BANNED_NAMES)
  }

  /** The dataset builder only lowers names, so it lets a padded label through; training strips names too and
    * refuses it. */
  lemma PaddedLabelPassesBuilder(vector: FeatureVector, rule: LabelRule)
    requires vector.names == {" label"} && Lower(rule.name) != " label"
    ensures !NamesLabel(vector, rule) && IsLabelLike(vector)
  {
    hide Lower, Strip;
    var padded, plain := " label", "label";
    assert padded == " " + plain;
    StripsPadding(' ', plain);
    IsItsOwnLower(padded);
    IsItsOwnLower(plain);
    assert padded in vector.names && plain in StripAll(vector.names);
    assert plain in LowerAll(StripAll(vector.names)) && plain in BANNED_NAMES;
    assert forall name :: name in LowerAll(vector.names) ==> name == padded;
    assert padded[0] == ' ' && ("label_" + Lower(rule.name))[0] == 'l' && plain[0] == 'l';
  }

  ghost predicate NoLabelLikeFeature(rows: seq<DatasetRow>) {
    forall row :: row in rows ==> !IsLabelLike(row.vector)
  }

  ghost predicate SplitsAccepted(splits: seq<DatasetSplit>) {
    splits != [] && Train !in splits && forall i, j :: 0 <= i < j < |splits| ==> splits[i] != splits[j]
  }

  /** The forecasts, when there are any. */
  ghost function Trained(rows: seq<DatasetRow>, splits: seq<DatasetSplit>): Option<seq<Forecast>> {
    if !SplitsAccepted(splits) || !NoLabelLikeFeature(rows) || !HaveSequenceFeature(rows)
      || TrainRows(rows) == [] then None
    else
      var forecasts := ForecastsOf(rows, rows, set split | split in splits);
      if forecasts == [] then None else Some(forecasts)
  }

  method ValidateRows(rows: seq<DatasetRow>) returns (error: Option<CandidateError>)
    ensures error.None? <==> NoLabelLikeFeature(rows) && HaveSequenceFeature(rows)
    ensures error.Some? ==> error.value == if NoLabelLikeFeature(rows) then MissingSequenceFeature else LabelLikeFeature
  {
    for i := 0 to |rows|
      invariant forall k :: 0 <= k < i ==> !IsLabelLike(rows[k].vector)
    {
      if IsLabelLike(rows[i].vector) {
        assert rows[i] in rows;
        return Some(LabelLikeFeature);
      }
    }
    for i := 0 to |rows|
      invariant forall k :: 0 <= k < i ==> rows[k].vector.oneBarReturn.Some?
    {
      if rows[i].vector.oneBarReturn.None? {
        assert rows[i] in rows;
        return Some(MissingSequenceFeature);
      }
    }
    return None;
  }

  predicate Unique(splits: seq<DatasetSplit>)
    ensures Unique(splits) <==> forall i, j :: 0 <= i < j < |splits| ==> splits[i] != splits[j]
  {
    if splits == [] then true
    else
      var n := |splits| - 1;
      assert splits == splits[..n] + [splits[n]];
      Unique(splits[..n]) && splits[n] !in splits[..n]
  }

  /** The first check that fails, in the order training makes them. */
  ghost predicate Explains(error: CandidateError, rows: seq<DatasetRow>, splits: seq<DatasetSplit>) {
    error ==
      if splits == [] then NoSplits
      else if Train in splits then TrainSplitRequested
      else if exists i, j :: 0 <= i < j < |splits| && splits[i] == splits[j] then DuplicateSplits
      else if exists row :: row in rows && IsLabelLike(row.vector) then LabelLikeFeature
      else if exists row :: row in rows && row.vector.oneBarReturn.None? then MissingSequenceFeature
      else if forall row :: row in rows ==> row.split != Train then NoTrainRows
      else NoForecasts
  }

  lemma ChecksByRow(rows: seq<DatasetRow>)
    ensures NoLabelLikeFeature(rows) <==> !exists row :: row in rows && IsLabelLike(row.vector)
    ensures HaveSequenceFeature(rows) <==> !exists row :: row in rows && row.vector.oneBarReturn.None?
    ensures TrainRows(rows) == [] <==> forall row :: row in rows ==> row.split != Train
  {
    hide IsLabelLike;
    NoTrainRowsIff(rows);
  }

  lemma {:induction false} NoTrainRowsIff(rows: seq<DatasetRow>)
    ensures TrainRows(rows) == [] <==> forall row :: row in rows ==> row.split != Train
  {
    if rows != [] {
      var n := |rows| - 1;
      NoTrainRowsIff(rows[..n]);
      assert rows == rows[..n] + [rows[n]];
    }
  }

  method TrainCandidate(rows: seq<DatasetRow>, splits: seq<DatasetSplit>)
    returns (r: Result<seq<Forecast>, CandidateError>)
    ensures (if r.Ok? then Some(r.value) else None) == Trained(rows, splits)
    ensures r.Err? ==> Explains(r.error, rows, splits)
  {
    ChecksByRow(rows);
    hide ForecastOf, IsFit, TrainRows, NoLabelLikeFeature, HaveSequenceFeature, IsLabelLike;
    if splits == [] {
      return Err(NoSplits);
    }
    if Train in splits {
      return Err(TrainSplitRequested);
    }
    if !Unique(splits) {
      return Err(DuplicateSplits);
    }
    var error := ValidateRows(rows);
    if error.Some? {
      return Err(error.value);
    }
    var fit := FitSequenceCandidate(rows);
    if fit.Err? {
      return Err(fit.error);
    }
    var forecasts: seq<Forecast> := [];
    for i := 0 to |rows|
      invariant forecasts == ForecastsOf(rows[..i], rows, set split | split in splits)
    {
      assert rows[..i + 1][..i] == rows[..i];
      if rows[i].split in splits {
        var forecast := ScoreRow(rows[i], rows, fit.value);
        forecasts := forecasts + [forecast];
      } else {
        assert forecasts + [] == forecasts;
      }
    }
    assert rows[..|rows|] == rows;
    if forecasts == [] {
      return Err(NoForecasts);
    }
    return Ok(forecasts);
  }

  /** Every forecast passes its own checks, so scoring never fails. */
  lemma {:induction false} ForecastsAreAccepted(todo: seq<DatasetRow>, rows: seq<DatasetRow>, splits: set<DatasetSplit>,
                                                k: nat)
    requires HaveSequenceFeature(rows) && TrainRows(rows) != [] && Train !in splits
    requires k < |ForecastsOf(todo, rows, splits)|
    ensures var f := ForecastsOf(todo, rows, splits)[k];
      f.Accepted() && f.split != Train && f.split in splits && DistributionAccepted(f.stats)
  {
    hide StatsOf, DistributionAccepted, BucketOf, SequenceOf;
    var n := |todo| - 1;
    if k < |ForecastsOf(todo[..n], rows, splits)| {
      ForecastsAreAccepted(todo[..n], rows, splits, k);
    } else {
      StatsAreAccepted(FittedLabels(todo[n], rows));
    }
  }

  // ------------------------------------------------------------ label non-interference

  /** Rows that differ in labels only, and not in any train label. */
  ghost predicate SameButForHeldOutLabels(a: DatasetRow, b: DatasetRow) {
    && a.vector == b.vector && a.split == b.split
    && (a.split == Train ==> a.labelValue == b.labelValue)
  }

  ghost predicate DatasetsAgree(a: seq<DatasetRow>, b: seq<DatasetRow>) {
    |a| == |b| && forall k :: 0 <= k < |a| ==> SameButForHeldOutLabels(a[k], b[k])
  }

  lemma {:induction false} EligibleAgree(x: DatasetRow, y: DatasetRow, a: seq<DatasetRow>, b: seq<DatasetRow>)
    requires DatasetsAgree(a, b) && x.vector == y.vector
    ensures DatasetsAgree(EligibleRows(x, a), EligibleRows(y, b))
  {
    if a != [] {
      EligibleAgree(x, y, a[..|a| - 1], b[..|b| - 1]);
    }
  }

  lemma BucketsAgree(x: DatasetRow, y: DatasetRow, a: seq<DatasetRow>, b: seq<DatasetRow>)
    requires DatasetsAgree(a, b) && x.vector == y.vector && HaveSequenceFeature(a) && HaveSequenceFeature(b)
    ensures SequenceOf(x, a) == SequenceOf(y, b) && BucketOf(x, a) == BucketOf(y, b)
  {
    RecentRowsAgree(x, y, a, b);
    hide HaveSequenceFeature, RecentRows;
    assert FeaturesOf(RecentRows(x, a)) == FeaturesOf(RecentRows(y, b));
  }

  lemma RecentRowsAgree(x: DatasetRow, y: DatasetRow, a: seq<DatasetRow>, b: seq<DatasetRow>)
    requires DatasetsAgree(a, b) && x.vector == y.vector && HaveSequenceFeature(a) && HaveSequenceFeature(b)
    ensures var s, t := RecentRows(x, a), RecentRows(y, b);
      |s| == |t| && forall k :: 0 <= k < |s| ==> s[k].vector == t[k].vector
  {
    EligibleAgree(x, y, a, b);
  }

  lemma {:induction false} TrainRowsAgree(a: seq<DatasetRow>, b: seq<DatasetRow>)
    requires DatasetsAgree(a, b)
    ensures DatasetsAgree(TrainRows(a), TrainRows(b))
  {
    if a != [] {
      TrainRowsAgree(a[..|a| - 1], b[..|b| - 1]);
    }
  }

  lemma {:induction false} TrainLabelsAgree(s: seq<DatasetRow>, t: seq<DatasetRow>, a: seq<DatasetRow>,
                                            b: seq<DatasetRow>, bucket: Bucket)
    requires DatasetsAgree(a, b) && HaveSequenceFeature(a) && HaveSequenceFeature(b)
    requires DatasetsAgree(s, t) && forall k :: 0 <= k < |s| ==> s[k].split == Train
    ensures LabelsOf(s) == LabelsOf(t) && BucketLabels(s, a, bucket) == BucketLabels(t, b, bucket)
  {
    hide BucketOf, SequenceOf;
    if s != [] {
      var n := |s| - 1;
      TrainLabelsAgree(s[..n], t[..n], a, b, bucket);
      BucketsAgree(s[n], t[n], a, b);
    }
  }

  lemma ForecastsOfRowAgree(x: DatasetRow, y: DatasetRow, a: seq<DatasetRow>, b: seq<DatasetRow>)
    requires DatasetsAgree(a, b) && HaveSequenceFeature(a) && HaveSequenceFeature(b) && TrainRows(a) != []
      && TrainRows(b) != []
    requires SameButForHeldOutLabels(x, y)
    ensures ForecastOf(x, a) == ForecastOf(y, b)
  {
    hide BucketOf, SequenceOf, StatsOf, BucketLabels, TrainRows, LabelsOf, HaveSequenceFeature;
    TrainRowsAgree(a, b);
    BucketsAgree(x, y, a, b);
    TrainLabelsAgree(TrainRows(a), TrainRows(b), a, b, BucketOf(x, a));
  }

  lemma {:induction false} AllForecastsAgree(s: seq<DatasetRow>, t: seq<DatasetRow>, a: seq<DatasetRow>,
                                             b: seq<DatasetRow>, splits: set<DatasetSplit>)
    requires DatasetsAgree(a, b) && HaveSequenceFeature(a) && HaveSequenceFeature(b) && TrainRows(a) != []
      && TrainRows(b) != []
    requires DatasetsAgree(s, t)
    ensures ForecastsOf(s, a, splits) == ForecastsOf(t, b, splits)
  {
    hide ForecastOf, HaveSequenceFeature, TrainRows;
    if s != [] {
      var n := |s| - 1;
      AllForecastsAgree(s[..n], t[..n], a, b, splits);
      ForecastsOfRowAgree(s[n], t[n], a, b);
    }
  }

  /** Held-out labels have no influence: two datasets that differ only in them train to the same forecasts, or both
    * to none. */
  lemma HeldOutLabelsDoNotInterfere(a: seq<DatasetRow>, b: seq<DatasetRow>, splits: seq<DatasetSplit>)
    requires DatasetsAgree(a, b)
    ensures Trained(a, splits) == Trained(b, splits)
  {
    hide ForecastsOf, SplitsAccepted;
    ChecksAgree(a, b);
    ChecksAgree(b, a);
    TrainRowsAgree(a, b);
    hide TrainRows, HaveSequenceFeature, NoLabelLikeFeature;
    if HaveSequenceFeature(a) && TrainRows(a) != [] {
      AllForecastsAgree(a, b, a, b, set split | split in splits);
    }
  }

  lemma ChecksAgree(a: seq<DatasetRow>, b: seq<DatasetRow>)
    requires DatasetsAgree(a, b)
    ensures DatasetsAgree(b, a)
    ensures HaveSequenceFeature(a) ==> HaveSequenceFeature(b)
    ensures NoLabelLikeFeature(a) ==> NoLabelLikeFeature(b)
  {
    forall row | row in b
      ensures HaveSequenceFeature(a) ==> row.vector.oneBarReturn.Some?
      ensures NoLabelLikeFeature(a) ==> !IsLabelLike(row.vector)
    {
      var k :| 0 <= k < |b| && b[k] == row;
      assert a[k] in a && SameButForHeldOutLabels(a[k], b[k]);
    }
  }

  /** A row's sequence looks at no row that became known later. */
  lemma {:induction false} SequenceIgnoresLaterRows(row: DatasetRow, rows: seq<DatasetRow>, later: seq<DatasetRow>)
    requires forall k :: 0 <= k < |later| ==> later[k].vector.featureTs > row.vector.featureTs
    requires HaveSequenceFeature(rows + later) && HaveSequenceFeature(rows)
    ensures SequenceOf(row, rows + later) == SequenceOf(row, rows) && BucketOf(row, rows + later) == BucketOf(row, rows)
  {
    EligibleIgnoresLater(row, rows, later);
  }

  lemma {:induction false} EligibleIgnoresLater(row: DatasetRow, rows: seq<DatasetRow>, later: seq<DatasetRow>)
    requires forall k :: 0 <= k < |later| ==> later[k].vector.featureTs > row.vector.featureTs
    ensures EligibleRows(row, rows + later) == EligibleRows(row, rows)
  {
    if later == [] {
      assert rows + later == rows;
    } else {
      var n := |later| - 1;
      EligibleIgnoresLater(row, rows, later[..n]);
      assert (rows + later)[..|rows| + n] == rows + later[..n];
    }
  }
}
