/** What a trained candidate's forecasts say, in terms of the rows alone. */
module CandidateLaws {
  import opened Contracts
  import opened Statistics
  import opened DatasetSnapshots
  import opened Candidate

  // ------------------------------------------------------------ what is known at a row

  /** A row of the same market whose features were known by then. */
  predicate KnownAt(k: int, row: DatasetRow, rows: seq<DatasetRow>) {
    && 0 <= k < |rows| && rows[k].vector.instrumentId == row.vector.instrumentId
    && rows[k].vector.venueId == row.vector.venueId && rows[k].vector.featureTs <= row.vector.featureTs
  }

  predicate Increasing(ks: seq<nat>) {
    forall i, j :: 0 <= i < j < |ks| ==> ks[i] < ks[j]
  }

  lemma {:induction false} EligibleIndices(row: DatasetRow, rows: seq<DatasetRow>) returns (ks: seq<nat>)
    ensures |ks| == |EligibleRows(row, rows)| && Increasing(ks)
    ensures forall i :: 0 <= i < |ks| ==> KnownAt(ks[i], row, rows) && EligibleRows(row, rows)[i] == rows[ks[i]]
    ensures forall k :: KnownAt(k, row, rows) ==> k in ks
  {
    ks := [];
    if rows != [] {
      var n := |rows| - 1;
      var before := EligibleIndices(row, rows[..n]);
      ks := before + if KnownAt(n, row, rows) then [n] else [];
      forall k | KnownAt(k, row, rows) ensures k in ks {
        assert k < n ==> KnownAt(k, row, rows[..n]);
      }
    }
  }

  /** The sequence feature of the last two rows known, or of the one there is, or of none. */
  ghost predicate LastTwoKnown(values: seq<real>, row: DatasetRow, rows: seq<DatasetRow>)
    requires HaveSequenceFeature(rows)
  {
    if values == [] then forall k :: !KnownAt(k, row, rows)
    else if |values| == 1 then exists j :: OnlyKnown(values[0], j, row, rows)
    else |values| == 2 && exists i, j :: LastKnown(values[0], values[1], i, j, row, rows)
  }

  ghost predicate OnlyKnown(value: real, j: int, row: DatasetRow, rows: seq<DatasetRow>)
    requires HaveSequenceFeature(rows)
  {
    KnownAt(j, row, rows) && rows[j].vector.oneBarReturn == Some(value) && forall k :: KnownAt(k, row, rows) ==> k == j
  }

  ghost predicate LastKnown(first: real, second: real, i: int, j: int, row: DatasetRow, rows: seq<DatasetRow>)
    requires HaveSequenceFeature(rows)
  {
    && i < j && KnownAt(i, row, rows) && KnownAt(j, row, rows)
    && rows[i].vector.oneBarReturn == Some(first) && rows[j].vector.oneBarReturn == Some(second)
    && forall k :: KnownAt(k, row, rows) ==> k <= i || k == j
  }

  lemma SequenceIsLastTwo(row: DatasetRow, rows: seq<DatasetRow>)
    requires HaveSequenceFeature(rows)
    ensures LastTwoKnown(SequenceOf(row, rows), row, rows)
  {
    hide EligibleRows;
    var ks := EligibleIndices(row, rows);
    var eligible, values := EligibleRows(row, rows), SequenceOf(row, rows);
    var n := |ks|;
    forall k | KnownAt(k, row, rows) ensures exists i :: 0 <= i < n && ks[i] == k {
      assert k in ks;
    }
    if n == 1 {
      assert OnlyKnown(values[0], ks[0], row, rows);
    } else if n >= 2 {
      assert RecentRows(row, rows) == [eligible[n - 2], eligible[n - 1]];
      assert LastKnown(values[0], values[1], ks[n - 2], ks[n - 1], row, rows);
    }
  }

  lemma LastTwoIsUnique(a: seq<real>, b: seq<real>, row: DatasetRow, rows: seq<DatasetRow>)
    requires HaveSequenceFeature(rows) && LastTwoKnown(a, row, rows) && LastTwoKnown(b, row, rows)
    ensures a == b
  {
  }

  /** The sum of at most two values. */
  function Total(values: seq<real>): real
    requires |values| <= 2
  {
    if values == [] then 0.0 else if |values| == 1 then values[0] else values[0] + values[1]
  }

  /** The last two known values of a row sum to zero or more. */
  ghost predicate LeansUp(row: DatasetRow, rows: seq<DatasetRow>)
    requires HaveSequenceFeature(rows)
  {
    exists values: seq<real> :: |values| <= 2 && LastTwoKnown(values, row, rows) && Total(values) >= 0.0
  }

  lemma BucketIsSide(row: DatasetRow, rows: seq<DatasetRow>)
    requires HaveSequenceFeature(rows)
    ensures BucketOf(row, rows) == SequenceNonNegative <==> LeansUp(row, rows)
  {
    hide SequenceOf;
    var values := SequenceOf(row, rows);
    SequenceIsLastTwo(row, rows);
    SumOfTwo(values);
    if LeansUp(row, rows) {
      var other :| |other| <= 2 && LastTwoKnown(other, row, rows) && Total(other) >= 0.0;
      LastTwoIsUnique(values, other, row, rows);
    }
  }

  lemma SumOfTwo(values: seq<real>)
    requires |values| <= 2
    ensures Sum(values) == Total(values)
  {
    if |values| == 2 {
      assert Sum(values[..1]) == values[0];
    }
  }

  // ------------------------------------------------------------ what statistics say of labels

  ghost predicate SplitAt(labels: seq<real>, value: real, below: seq<real>, above: seq<real>) {
    && multiset(labels) == multiset(below) + multiset{value} + multiset(above)
    && (forall x :: x in below ==> x <= value) && forall x :: x in above ==> value <= x
  }

  /** The value has, of the other labels in order, the whole number nearest to the level's share below it. */
  ghost predicate IsQuantile(q: Quantile, level: real, labels: seq<real>) {
    && q.level == level
    && exists below, above ::
      (&& SplitAt(labels, q.value, below, above)
       && |below| as real - 0.5 <= (|labels| - 1) as real * level < |below| as real + 0.5)
  }

  /** Shares of labels that are negative and not, three quantiles, and the mean squared distance to the mean. */
  ghost predicate TellsOf(s: DistributionStats, labels: seq<real>)
    requires labels != []
  {
    var n := |labels|;
    && s.nonNegative * n as real == |set k | 0 <= k < n && labels[k] >= 0.0| as real
    && s.negative * n as real == |set k | 0 <= k < n && labels[k] < 0.0| as real
    && |s.quantiles| == 3 && IsQuantile(s.quantiles[0], 0.1, labels) && IsQuantile(s.quantiles[1], 0.5, labels)
    && IsQuantile(s.quantiles[2], 0.9, labels)
    && s.variance == Variance(labels) && s.rowCount == n
  }

  lemma {:induction false} CountUp(labels: seq<real>)
    ensures CountNonNegative(labels) == |set k | 0 <= k < |labels| && labels[k] >= 0.0|
  {
    var up := set k | 0 <= k < |labels| && labels[k] >= 0.0;
    if labels == [] {
      assert up == {};
    } else {
      var n := |labels| - 1;
      var before := labels[..n];
      CountUp(before);
      assert up - {n} == set k | 0 <= k < n && before[k] >= 0.0;
    }
  }

  lemma {:induction false} CountDown(labels: seq<real>)
    ensures |labels| - CountNonNegative(labels) == |set k | 0 <= k < |labels| && labels[k] < 0.0|
  {
    var down := set k | 0 <= k < |labels| && labels[k] < 0.0;
    if labels == [] {
      assert down == {};
    } else {
      var n := |labels| - 1;
      var before := labels[..n];
      CountDown(before);
      assert down - {n} == set k | 0 <= k < n && before[k] < 0.0;
    }
  }

  lemma QuantileIsNearest(labels: seq<real>, level: Level)
    requires labels != []
    ensures IsQuantile(Quantile(level, NearestQuantile(labels, level)), level, labels)
  {
    hide NearestQuantile, QuantileIndex;
    var below, above := QuantileSplitsLabels(labels, level);
    assert SplitAt(labels, NearestQuantile(labels, level), below, above);
  }

  /** Fitted statistics say these things of their labels. */
  lemma StatsTellOfLabels(labels: seq<real>)
    requires labels != []
    ensures TellsOf(StatsOf(labels), labels)
  {
    hide NearestQuantile, IsQuantile, Variance, CountNonNegative;
    CountUp(labels);
    CountDown(labels);
    ShareTimesWhole(CountNonNegative(labels), |labels|);
    QuantileIsNearest(labels, 0.1);
    QuantileIsNearest(labels, 0.5);
    QuantileIsNearest(labels, 0.9);
  }

  lemma ShareTimesWhole(part: nat, whole: nat)
    requires part <= whole && whole >= 1
    ensures part as real / whole as real * whole as real == part as real
    ensures (1.0 - part as real / whole as real) * whole as real == (whole - part) as real
  {
  }

  // ------------------------------------------------------------ which labels a forecast is fitted on

  function LabelsAt(rows: seq<DatasetRow>, picked: seq<nat>): (r: seq<real>)
    requires forall i :: 0 <= i < |picked| ==> picked[i] < |rows|
    ensures |r| == |picked|
  {
    seq(|picked|, i requires 0 <= i < |picked| => rows[picked[i]].labelValue)
  }

  predicate TrainAt(k: int, rows: seq<DatasetRow>) {
    0 <= k < |rows| && rows[k].split == Train
  }

  /** A train row whose last two known values sum to the side given. */
  ghost predicate TrainOnSide(k: int, rows: seq<DatasetRow>, up: bool)
    requires HaveSequenceFeature(rows)
  {
    TrainAt(k, rows) && (LeansUp(rows[k], rows) <==> up)
  }

  lemma BucketLabelsGrow(part: seq<DatasetRow>, rows: seq<DatasetRow>, bucket: Bucket)
    requires HaveSequenceFeature(rows) && part != []
    ensures var n := |part| - 1;
      BucketLabels(TrainRows(part), rows, bucket) == BucketLabels(TrainRows(part[..n]), rows, bucket)
        + if part[n].split == Train && BucketOf(part[n], rows) == bucket then [part[n].labelValue] else []
  {
    hide BucketOf;
    var n := |part| - 1;
    var before := TrainRows(part[..n]);
    assert (before + [part[n]])[..|before|] == before;
    assert before + [] == before;
  }

  lemma {:induction false} BucketIndices(part: seq<DatasetRow>, rows: seq<DatasetRow>, bucket: Bucket)
    returns (ks: seq<nat>)
    requires HaveSequenceFeature(rows)
    ensures Increasing(ks)
    ensures forall i :: 0 <= i < |ks| ==>
      ks[i] < |part| && TrainAt(ks[i], part) && BucketOf(part[ks[i]], rows) == bucket
    ensures forall k :: TrainAt(k, part) && BucketOf(part[k], rows) == bucket ==> k in ks
    ensures BucketLabels(TrainRows(part), rows, bucket) == LabelsAt(part, ks)
  {
    hide BucketOf, HaveSequenceFeature, BucketLabels, TrainRows;
    ks := [];
    if part == [] {
      NoLabels(rows, bucket);
    } else {
      var n := |part| - 1;
      var before := BucketIndices(part[..n], rows, bucket);
      BucketLabelsGrow(part, rows, bucket);
      ks := before + if part[n].split == Train && BucketOf(part[n], rows) == bucket then [n] else [];
      forall k | TrainAt(k, part) && BucketOf(part[k], rows) == bucket ensures k in ks {
        assert k < n ==> TrainAt(k, part[..n]);
      }
    }
  }

  lemma NoLabels(rows: seq<DatasetRow>, bucket: Bucket)
    requires HaveSequenceFeature(rows)
    ensures BucketLabels(TrainRows([]), rows, bucket) == []
  {
  }

  lemma TrainLabelsGrow(rows: seq<DatasetRow>)
    ensures rows == [] ==> LabelsOf(TrainRows(rows)) == []
    ensures rows != [] ==>
      var last := rows[|rows| - 1];
      LabelsOf(TrainRows(rows)) == LabelsOf(TrainRows(rows[..|rows| - 1]))
        + if last.split == Train then [last.labelValue] else []
  {
    if rows != [] {
      var n := |rows| - 1;
      var before := TrainRows(rows[..n]);
      assert (before + [rows[n]])[..|before|] == before;
      assert before + [] == before;
    }
  }

  lemma {:induction false} TrainIndices(rows: seq<DatasetRow>) returns (ks: seq<nat>)
    ensures Increasing(ks)
    ensures forall i :: 0 <= i < |ks| ==> ks[i] < |rows| && TrainAt(ks[i], rows)
    ensures forall k :: TrainAt(k, rows) ==> k in ks
    ensures LabelsOf(TrainRows(rows)) == LabelsAt(rows, ks)
  {
    hide TrainRows, LabelsOf;
    ks := [];
    TrainLabelsGrow(rows);
    if rows != [] {
      var n := |rows| - 1;
      var before := TrainIndices(rows[..n]);
      ks := before + if rows[n].split == Train then [n] else [];
      forall k | TrainAt(k, rows) ensures k in ks {
        assert k < n ==> TrainAt(k, rows[..n]);
      }
    }
  }

  /** The statistics tell of the labels of the train rows on the forecast's side, or of all train rows if there is none
    * on that side. */
  ghost predicate FittedOn(picked: seq<nat>, f: Forecast, rows: seq<DatasetRow>)
    requires HaveSequenceFeature(rows)
  {
    var up := f.bucket == SequenceNonNegative;
    && Increasing(picked) && picked != []
    && (forall i :: 0 <= i < |picked| ==> TrainAt(picked[i], rows))
    && (if exists j :: TrainOnSide(j, rows, up) then forall k :: k in picked <==> TrainOnSide(k, rows, up)
        else forall k :: k in picked <==> TrainAt(k, rows))
    && TellsOf(f.stats, LabelsAt(rows, picked))
  }

  /** A forecast shows its row's last two known values and their side, and its statistics are fitted on that side. */
  ghost predicate ForecastSays(f: Forecast, row: DatasetRow, rows: seq<DatasetRow>)
    requires HaveSequenceFeature(rows)
  {
    && f.row == row.vector && f.split == row.split
    && |f.sequence| <= 2 && LastTwoKnown(f.sequence, row, rows)
    && (f.bucket == SequenceNonNegative <==> Total(f.sequence) >= 0.0)
    && f.globalRowCount == |set k | 0 <= k < |rows| && rows[k].split == Train|
    && exists picked :: FittedOn(picked, f, rows)
  }

  lemma {:induction false} TrainCount(rows: seq<DatasetRow>)
    ensures |TrainRows(rows)| == |set k | 0 <= k < |rows| && rows[k].split == Train|
  {
    var train := set k | 0 <= k < |rows| && rows[k].split == Train;
    if rows == [] {
      assert train == {};
    } else {
      var n := |rows| - 1;
      TrainCount(rows[..n]);
      assert train - {n} == set k | 0 <= k < n && rows[..n][k].split == Train;
    }
  }

  lemma PickedLabels(row: DatasetRow, rows: seq<DatasetRow>) returns (picked: seq<nat>)
    requires HaveSequenceFeature(rows) && TrainRows(rows) != []
    ensures FittedOn(picked, ForecastOf(row, rows), rows)
  {
    hide BucketOf, SequenceOf, TrainRows, BucketLabels, LabelsOf, StatsOf, TellsOf, LeansUp, HaveSequenceFeature;
    var bucket := BucketOf(row, rows);
    var own := BucketIndices(rows, rows, bucket);
    forall k | TrainAt(k, rows)
      ensures TrainOnSide(k, rows, bucket == SequenceNonNegative) <==> BucketOf(rows[k], rows) == bucket
    {
      BucketIsSide(rows[k], rows);
    }
    if own != [] {
      picked := own;
      assert TrainOnSide(own[0], rows, bucket == SequenceNonNegative);
    } else {
      picked := TrainIndices(rows);
      LabelsOfAll(TrainRows(rows));
    }
    StatsTellOfLabels(LabelsAt(rows, picked));
  }

  lemma LabelsOfAll(train: seq<DatasetRow>)
    ensures train != [] ==> LabelsOf(train) != []
  {
  }

  /** What the forecast of any row says. */
  lemma ForecastMeaning(row: DatasetRow, rows: seq<DatasetRow>)
    requires HaveSequenceFeature(rows) && TrainRows(rows) != []
    ensures ForecastSays(ForecastOf(row, rows), row, rows)
  {
    hide TrainRows, BucketLabels, LabelsOf, StatsOf, HaveSequenceFeature, FittedOn, LastTwoKnown;
    SequenceIsLastTwo(row, rows);
    SumOfTwo(SequenceOf(row, rows));
    TrainCount(rows);
    var picked := PickedLabels(row, rows);
  }

  // ------------------------------------------------------------ a whole run

  lemma ForecastsGrow(todo: seq<DatasetRow>, rows: seq<DatasetRow>, splits: set<DatasetSplit>)
    requires HaveSequenceFeature(rows) && TrainRows(rows) != []
    ensures todo == [] ==> ForecastsOf(todo, rows, splits) == []
    ensures todo != [] ==>
      var last := todo[|todo| - 1];
      ForecastsOf(todo, rows, splits) == ForecastsOf(todo[..|todo| - 1], rows, splits)
        + if last.split in splits then [ForecastOf(last, rows)] else []
  {
    hide ForecastOf, TrainRows, HaveSequenceFeature;
  }

  lemma {:induction false} ScoredIndices(todo: seq<DatasetRow>, rows: seq<DatasetRow>, splits: set<DatasetSplit>)
    returns (ks: seq<nat>)
    requires HaveSequenceFeature(rows) && TrainRows(rows) != []
    ensures |ks| == |ForecastsOf(todo, rows, splits)| && Increasing(ks)
    ensures forall i :: 0 <= i < |ks| ==>
      ks[i] < |todo| && todo[ks[i]].split in splits
      && ForecastsOf(todo, rows, splits)[i] == ForecastOf(todo[ks[i]], rows)
    ensures forall k :: 0 <= k < |todo| && todo[k].split in splits ==> k in ks
  {
    hide ForecastOf, ForecastsOf, TrainRows, HaveSequenceFeature;
    ks := [];
    ForecastsGrow(todo, rows, splits);
    if todo != [] {
      var n := |todo| - 1;
      var before := ScoredIndices(todo[..n], rows, splits);
      ks := before + if todo[n].split in splits then [n] else [];
      forall k | 0 <= k < |todo| && todo[k].split in splits ensures k in ks {
        assert k < n ==> todo[..n][k] == todo[k];
      }
    }
  }

  /** Training succeeds exactly on distinct held-out splits, clean features, a sequence value in every row, some
    * train row and some row to score; and then it forecasts, in order, each row of those splits. */
  lemma TrainedMeaning(rows: seq<DatasetRow>, splits: seq<DatasetSplit>) returns (scored: seq<nat>)
    ensures Trained(rows, splits).Some? <==>
      (&& SplitsAccepted(splits) && NoLabelLikeFeature(rows) && HaveSequenceFeature(rows)
       && (exists k :: TrainAt(k, rows)) && exists k :: 0 <= k < |rows| && rows[k].split in splits)
    ensures Trained(rows, splits).Some? ==>
      var forecasts := Trained(rows, splits).value;
      && |forecasts| == |scored| && Increasing(scored)
      && (forall k :: 0 <= k < |rows| && rows[k].split in splits ==> k in scored)
      && forall i :: 0 <= i < |scored| ==>
        scored[i] < |rows| && rows[scored[i]].split in splits && ForecastSays(forecasts[i], rows[scored[i]], rows)
  {
    hide ForecastOf, ForecastsOf, TrainRows, HaveSequenceFeature, NoLabelLikeFeature, ForecastSays, SplitsAccepted;
    scored := [];
    TrainRowsOrNone(rows);
    if HaveSequenceFeature(rows) && TrainRows(rows) != [] {
      scored := ScoredIndices(rows, rows, set split | split in splits);
      forall i | 0 <= i < |scored| ensures ForecastSays(ForecastOf(rows[scored[i]], rows), rows[scored[i]], rows) {
        ForecastMeaning(rows[scored[i]], rows);
      }
      if scored != [] {
        assert rows[scored[0]].split in splits;
      }
    }
  }

  lemma TrainRowsOrNone(rows: seq<DatasetRow>)
    ensures TrainRows(rows) != [] <==> exists k :: TrainAt(k, rows)
  {
    TrainCount(rows);
    var train := set k | 0 <= k < |rows| && rows[k].split == Train;
    if k :| TrainAt(k, rows) {
      assert k in train;
    }
    if TrainRows(rows) != [] {
      var k :| k in train;
      assert TrainAt(k, rows);
    }
  }
}
