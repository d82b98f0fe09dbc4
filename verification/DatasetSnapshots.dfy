/** Chronological dataset snapshots: windows, labels and splits (datasets/snapshots.py, contracts/datasets.py). */
module DatasetSnapshots {
  import opened Contracts
  import opened Names

  datatype DatasetSplit = Train | Validation | Test

  datatype SplitWindowFields = SplitWindow(split: DatasetSplit, startTs: Timestamp, endTs: Timestamp)

  /** Half-open and never empty. */
  type SplitWindow = w: SplitWindowFields | w.startTs < w.endTs witness SplitWindow(Train, 0, 1)

  /** The two features that are read by name, and the names of all of them, as given. */
  datatype FeatureVector = FeatureVector(
    featureVectorId: CanonicalId,
    instrumentId: CanonicalId,
    venueId: CanonicalId,
    featureTs: Timestamp,
    close: Option<real>,
    oneBarReturn: Option<real>,
    names: set<string>)

  datatype LabelObservation = LabelObservation(
    observationId: CanonicalId, instrumentId: CanonicalId, venueId: CanonicalId, eventTs: Timestamp, value: real)

  datatype LabelMethod = FutureValue | FutureReturn

  type Horizon = h: int | h > 0 witness 1

  datatype LabelRule = LabelRule(name: string, horizon: Horizon, labelMethod: LabelMethod)

  datatype DatasetRow = DatasetRow(
    vector: FeatureVector, split: DatasetSplit, labelValue: real, labelTs: Timestamp, labelObservationId: CanonicalId)

  datatype BuildError =
    | NoVectors | DuplicateVector | VectorsNotIncreasing | NoObservations | DuplicateObservation
    | ObservationsNotIncreasing
    | WindowsOutOfOrder | WindowsOverlap | LabelAmongFeatures | OutsideWindows | MissingLabel | ZeroClose

  // ------------------------------------------------------------ input checks

  ghost predicate VectorsAccepted(vectors: seq<FeatureVector>) {
    && vectors != []
    && forall i, j :: 0 <= i < j < |vectors| ==>
      vectors[i].featureVectorId != vectors[j].featureVectorId && vectors[i].featureTs < vectors[j].featureTs
  }

  method ValidateVectors(vectors: seq<FeatureVector>) returns (error: Option<BuildError>)
    ensures error.None? <==> VectorsAccepted(vectors)
  {
    if vectors == [] {
      return Some(NoVectors);
    }
    var seen: set<CanonicalId>, previous: Option<Timestamp> := {}, None;
    for i := 0 to |vectors|
      invariant i > 0 ==> VectorsAccepted(vectors[..i])
      invariant forall id :: id in seen <==> exists k :: 0 <= k < i && vectors[k].featureVectorId == id
      invariant previous == if i == 0 then None else Some(vectors[i - 1].featureTs)
    {
      var vector := vectors[i];
      if vector.featureVectorId in seen {
        return Some(DuplicateVector);
      }
      seen := seen + {vector.featureVectorId};
      if previous.Some? && vector.featureTs <= previous.value {
        return Some(VectorsNotIncreasing);
      }
      assert forall k :: 0 <= k < i ==> vectors[..i][k].featureTs <= vectors[..i][i - 1].featureTs;
      previous := Some(vector.featureTs);
    }
    assert vectors[..|vectors|] == vectors;
    return None;
  }

  ghost predicate ObservationsAccepted(observations: seq<LabelObservation>) {
    observations != [] && forall i, j :: 0 <= i < j < |observations| ==>
      observations[i].eventTs < observations[j].eventTs
  }

  datatype LabelKey = LabelKey(instrumentId: CanonicalId, venueId: CanonicalId, eventTs: Timestamp)

  function KeyOf(o: LabelObservation): LabelKey {
    LabelKey(o.instrumentId, o.venueId, o.eventTs)
  }

  method ValidateObservations(observations: seq<LabelObservation>) returns (error: Option<BuildError>)
    ensures error.None? <==> ObservationsAccepted(observations)
  {
    if observations == [] {
      return Some(NoObservations);
    }
    var seen: set<LabelKey>, previous: Option<Timestamp> := {}, None;
    for i := 0 to |observations|
      invariant i > 0 ==> ObservationsAccepted(observations[..i])
      invariant forall key :: key in seen ==> exists k :: 0 <= k < i && KeyOf(observations[k]) == key
      invariant previous == if i == 0 then None else Some(observations[i - 1].eventTs)
    {
      var observation := observations[i];
      if KeyOf(observation) in seen {
        ghost var k :| 0 <= k < i && KeyOf(observations[k]) == KeyOf(observation);
        assert observations[k].eventTs == observations[i].eventTs;
        return Some(DuplicateObservation);
      }
      seen := seen + {KeyOf(observation)};
      if previous.Some? && observation.eventTs <= previous.value {
        return Some(ObservationsNotIncreasing);
      }
      assert forall k :: 0 <= k < i ==> observations[..i][k].eventTs <= observations[..i][i - 1].eventTs;
      previous := Some(observation.eventTs);
    }
    assert observations[..|observations|] == observations;
    return None;
  }

  /** Train, validation and test in this order, each ending by the time the next starts; gaps are allowed. */
  ghost predicate WindowsAccepted(windows: seq<SplitWindow>) {
    && |windows| == 3 && windows[0].split == Train && windows[1].split == Validation && windows[2].split == Test
    && windows[0].endTs <= windows[1].startTs && windows[1].endTs <= windows[2].startTs
  }

  function SplitsOf(windows: seq<SplitWindow>): (r: seq<DatasetSplit>)
    ensures |r| == |windows| && forall k :: 0 <= k < |r| ==> r[k] == windows[k].split
  {
    if windows == [] then [] else [windows[0].split] + SplitsOf(windows[1..])
  }

  method ValidateSplitWindows(windows: seq<SplitWindow>) returns (error: Option<BuildError>)
    ensures error.None? <==> WindowsAccepted(windows)
  {
    if SplitsOf(windows) != [Train, Validation, Test] {
      return Some(WindowsOutOfOrder);
    }
    assert SplitsOf(windows)[0] == Train && SplitsOf(windows)[1] == Validation && SplitsOf(windows)[2] == Test;
    var previousEnd: Option<Timestamp> := None;
    for i := 0 to |windows|
      invariant forall k :: 0 < k < i ==> windows[k - 1].endTs <= windows[k].startTs
      invariant previousEnd == if i == 0 then None else Some(windows[i - 1].endTs)
    {
      if previousEnd.Some? && windows[i].startTs < previousEnd.value {
        return Some(WindowsOverlap);
      }
      previousEnd := Some(windows[i].endTs);
    }
    return None;
  }

  // ------------------------------------------------------------ rows

  predicate Contains(w: SplitWindow, ts: Timestamp) {
    w.startTs <= ts < w.endTs
  }

  /** The first window that contains the instant. */
  function SplitFor(ts: Timestamp, windows: seq<SplitWindow>): Option<DatasetSplit> {
    if windows == [] then None
    else if Contains(windows[0], ts) then Some(windows[0].split)
    else SplitFor(ts, windows[1..])
  }

  method SplitForFeatureTs(ts: Timestamp, windows: seq<SplitWindow>) returns (split: Option<DatasetSplit>)
    ensures split == SplitFor(ts, windows)
  {
    for i := 0 to |windows|
      invariant SplitFor(ts, windows) == SplitFor(ts, windows[i..])
    {
      if Contains(windows[i], ts) {
        return Some(windows[i].split);
      }
      assert windows[i..][1..] == windows[i + 1..];
    }
    return None;
  }

  function FindObservation(observations: seq<LabelObservation>, key: LabelKey): Option<LabelObservation> {
    if observations == [] then None
    else
      var last := observations[|observations| - 1];
      if KeyOf(last) == key then Some(last) else FindObservation(observations[..|observations| - 1], key)
  }

  lemma {:induction false} FoundObservation(observations: seq<LabelObservation>, key: LabelKey)
    ensures FindObservation(observations, key).None? <==> forall o :: o in observations ==> KeyOf(o) != key
    ensures FindObservation(observations, key).Some? ==>
      FindObservation(observations, key).value in observations && KeyOf(FindObservation(observations, key).value) == key
  {
    if observations != [] {
      var n := |observations| - 1;
      assert observations == observations[..n] + [observations[n]];
      FoundObservation(observations[..n], key);
    }
  }

  function LabelValue(vector: FeatureVector, observation: LabelObservation, rule: LabelRule): Result<real, BuildError> {
    match rule.labelMethod
    case FutureValue => Ok(observation.value)
    case FutureReturn =>
      if vector.close.None? || vector.close.value == 0.0 then Err(ZeroClose)
      else Ok((observation.value - vector.close.value) / vector.close.value)
  }

  function RowFor(vector: FeatureVector, windows: seq<SplitWindow>, observations: seq<LabelObservation>,
                  rule: LabelRule): Result<DatasetRow, BuildError>
  {
    var split := SplitFor(vector.featureTs, windows);
    var observation := FindObservation(observations,
      LabelKey(vector.instrumentId, vector.venueId, vector.featureTs + rule.horizon));
    if split.None? then Err(OutsideWindows)
    else if observation.None? then Err(MissingLabel)
    else
      match LabelValue(vector, observation.value, rule)
      case Err(e) => Err(e)
      case Ok(value) =>
        Ok(DatasetRow(vector, split.value, value, observation.value.eventTs, observation.value.observationId))
  }

  method BuildRow(vector: FeatureVector, windows: seq<SplitWindow>, observations: seq<LabelObservation>,
                  rule: LabelRule) returns (r: Result<DatasetRow, BuildError>)
    ensures r == RowFor(vector, windows, observations, rule)
  {
    var split := SplitForFeatureTs(vector.featureTs, windows);
    if split.None? {
      return Err(OutsideWindows);
    }
    var observation := FindObservation(observations,
      LabelKey(vector.instrumentId, vector.venueId, vector.featureTs + rule.horizon));
    if observation.None? {
      return Err(MissingLabel);
    }
    var value := LabelValue(vector, observation.value, rule);
    match value {
      case Err(e) => return Err(e);
      case Ok(v) =>
        return Ok(DatasetRow(vector, split.value, v, observation.value.eventTs, observation.value.observationId));
    }
  }

  /** One row per vector, in vector order, or the first refusal. */
  function RowsFor(vectors: seq<FeatureVector>, windows: seq<SplitWindow>, observations: seq<LabelObservation>,
                   rule: LabelRule): (r: Result<seq<DatasetRow>, BuildError>)
    ensures r.Ok? ==>
      |r.value| == |vectors| && forall k :: 0 <= k < |vectors| ==>
      RowFor(vectors[k], windows, observations, rule) == Ok(r.value[k])
  {
    if vectors == [] then Ok([])
    else
      var n := |vectors| - 1;
      match RowsFor(vectors[..n], windows, observations, rule)
      case Err(e) => Err(e)
      case Ok(before) =>
        match RowFor(vectors[n], windows, observations, rule)
        case Err(e) => Err(e)
        case Ok(row) => Ok(before + [row])
  }

  lemma {:induction false} RefusedRowStops(vectors: seq<FeatureVector>, n: nat, windows: seq<SplitWindow>,
                                           observations: seq<LabelObservation>, rule: LabelRule)
    requires n <= |vectors| && RowsFor(vectors[..n], windows, observations, rule).Err?
    ensures RowsFor(vectors, windows, observations, rule) == RowsFor(vectors[..n], windows, observations, rule)
    decreases |vectors| - n
  {
    if n < |vectors| {
      assert vectors[..n + 1][..n] == vectors[..n];
      RefusedRowStops(vectors, n + 1, windows, observations, rule);
    } else {
      assert vectors[..n] == vectors;
    }
  }

  function CountSplit(rows: seq<DatasetRow>, split: DatasetSplit): nat {
    if rows == [] then 0
    else CountSplit(rows[..|rows| - 1], split) + if rows[|rows| - 1].split == split then 1 else 0
  }

  method CountRows(rows: seq<DatasetRow>) returns (counts: map<DatasetSplit, nat>)
    ensures forall split :: split in counts && counts[split] == CountSplit(rows, split)
  {
    counts := map[Train := 0, Validation := 0, Test := 0];
    forall split: DatasetSplit ensures split in counts && counts[split] == 0 {
      match split {
        case Train => case Validation => case Test =>
      }
    }
    for i := 0 to |rows|
      invariant forall split :: split in counts && counts[split] == CountSplit(rows[..i], split)
    {
      assert rows[..i + 1][..i] == rows[..i];
      var split := rows[i].split;
      counts := counts[split := counts[split] + 1];
    }
    assert rows[..|rows|] == rows;
  }

  datatype DatasetSnapshot = DatasetSnapshot(rows: seq<DatasetRow>, windows: seq<SplitWindow>,
    counts: map<DatasetSplit, nat>)
  {
    /** What constructing a snapshot checks. */
    ghost predicate Consistent() {
      && (forall k :: 0 <= k < |rows| ==>
        InExactlyOneWindow(rows[k], windows) && rows[k].vector.featureTs < rows[k].labelTs)
      && (forall split :: split in counts && counts[split] == CountSplit(rows, split))
    }
  }

  ghost predicate InExactlyOneWindow(row: DatasetRow, windows: seq<SplitWindow>) {
    var ts := row.vector.featureTs;
    exists i :: 0 <= i < |windows| && windows[i].startTs <= ts < windows[i].endTs && windows[i].split == row.split
      && forall j :: 0 <= j < |windows| && windows[j].startTs <= ts < windows[j].endTs ==> j == i
  }

  /** Accepted windows place an instant in at most one split, and the search finds it. */
  lemma SplitIsTheOnlyWindow(ts: Timestamp, windows: seq<SplitWindow>)
    requires WindowsAccepted(windows)
    ensures SplitFor(ts, windows).None? <==> forall w :: w in windows ==> !Contains(w, ts)
    ensures forall i, j :: 0 <= i < j < 3 && Contains(windows[i], ts) ==> !Contains(windows[j], ts)
    ensures forall i :: 0 <= i < 3 && Contains(windows[i], ts) ==> SplitFor(ts, windows) == Some(windows[i].split)
    ensures SplitFor(ts, windows).Some? ==> exists i :: 0 <= i < 3 && Contains(windows[i], ts)
  {
    var tail := windows[1..];
    assert tail[1..] == [windows[2]] && tail[1..][1..] == [];
    assert SplitFor(ts, tail[1..]) == if Contains(windows[2], ts) then Some(Test) else None;
  }

  /** An observation of the vector's market exactly one horizon after its features. */
  predicate Labels(o: LabelObservation, vector: FeatureVector, rule: LabelRule) {
    && o.instrumentId == vector.instrumentId && o.venueId == vector.venueId
    && o.eventTs == vector.featureTs + rule.horizon
  }

  /** The row's label is read off that observation: its value, or the return from the vector's close to it. */
  ghost predicate LabelledBy(row: DatasetRow, o: LabelObservation, rule: LabelRule) {
    && Labels(o, row.vector, rule) && row.labelTs == o.eventTs && row.labelObservationId == o.observationId
    && (rule.labelMethod == FutureValue ==> row.labelValue == o.value)
    && (rule.labelMethod == FutureReturn ==>
      row.vector.close.Some? && row.vector.close.value != 0.0
      && o.value == row.vector.close.value * (1.0 + row.labelValue))
  }

  /** A vector falls in some window, and is labelled by some observation it has the close for. */
  ghost predicate HasRow(vector: FeatureVector, windows: seq<SplitWindow>, observations: seq<LabelObservation>,
                         rule: LabelRule)
  {
    && (exists w :: w in windows && w.startTs <= vector.featureTs < w.endTs)
    && (exists o :: o in observations && Labels(o, vector, rule))
    && (rule.labelMethod == FutureReturn ==> vector.close.Some? && vector.close.value != 0.0)
  }

  /** A vector gets a row exactly then, and otherwise the first of the three is named. */
  lemma RowIffLabelled(vector: FeatureVector, windows: seq<SplitWindow>, observations: seq<LabelObservation>,
                       rule: LabelRule)
    requires WindowsAccepted(windows)
    ensures RowFor(vector, windows, observations, rule).Ok? <==> HasRow(vector, windows, observations, rule)
    ensures RowFor(vector, windows, observations, rule).Err? ==>
      RowFor(vector, windows, observations, rule).error ==
        if forall w :: w in windows ==> !(w.startTs <= vector.featureTs < w.endTs) then OutsideWindows
        else if forall o :: o in observations ==> !Labels(o, vector, rule) then MissingLabel
        else ZeroClose
  {
    hide SplitFor, FindObservation;
    var key := LabelKey(vector.instrumentId, vector.venueId, vector.featureTs + rule.horizon);
    SplitIsTheOnlyWindow(vector.featureTs, windows);
    FoundObservation(observations, key);
    assert forall w :: w in windows ==> (Contains(w, vector.featureTs) <==> w.startTs <= vector.featureTs < w.endTs);
    assert forall o :: o in observations ==> (KeyOf(o) == key <==> Labels(o, vector, rule));
  }

  lemma ReturnGivesBack(value: real, close: real)
    requires close != 0.0
    ensures close * (1.0 + (value - close) / close) == value
  {
    var r := (value - close) / close;
    assert close * r == value - close;
    assert close * (1.0 + r) == close + close * r;
  }

  /** A built row sits in exactly one window, and carries the label of one horizon after its features. */
  lemma BuiltRow(vector: FeatureVector, windows: seq<SplitWindow>, observations: seq<LabelObservation>, rule: LabelRule)
    requires WindowsAccepted(windows) && RowFor(vector, windows, observations, rule).Ok?
    ensures var row := RowFor(vector, windows, observations, rule).value;
      && row.vector == vector && InExactlyOneWindow(row, windows) && row.labelTs == vector.featureTs + rule.horizon
      && exists o :: o in observations && LabelledBy(row, o, rule)
  {
    var row := RowFor(vector, windows, observations, rule).value;
    var key := LabelKey(vector.instrumentId, vector.venueId, vector.featureTs + rule.horizon);
    SplitIsTheOnlyWindow(vector.featureTs, windows);
    FoundObservation(observations, key);
    hide SplitFor, FindObservation;
    var i :| 0 <= i < 3 && Contains(windows[i], vector.featureTs);
    assert windows[i].split == row.split;
    var o := FindObservation(observations, key).value;
    if rule.labelMethod == FutureReturn {
      ReturnGivesBack(o.value, vector.close.value);
    }
    assert LabelledBy(row, o, rule);
  }

  /** Some feature bears the label's name, in whatever case. */
  predicate NamesLabel(vector: FeatureVector, rule: LabelRule) {
    !(LowerAll(vector.names) !! {"label", Lower(rule.name), "label_" + Lower(rule.name)})
  }

  lemma NamesLabelMeaning(vector: FeatureVector, rule: LabelRule)
    ensures NamesLabel(vector, rule) <==>
      exists name :: name in vector.names && Lower(name) in {"label", Lower(rule.name), "label_" + Lower(rule.name)}
  {
    hide Lower;
    var banned := {"label", Lower(rule.name), "label_" + Lower(rule.name)};
    if NamesLabel(vector, rule) {
      var lowered :| lowered in LowerAll(vector.names) && lowered in banned;
      var name :| name in vector.names && Lower(name) == lowered;
    }
    forall name | name in vector.names && Lower(name) in banned ensures NamesLabel(vector, rule) {
      assert Lower(name) in LowerAll(vector.names);
    }
  }

  ghost predicate InputsAccepted(vectors: seq<FeatureVector>, observations: seq<LabelObservation>,
                                 windows: seq<SplitWindow>, rule: LabelRule)
  {
    && VectorsAccepted(vectors) && ObservationsAccepted(observations) && WindowsAccepted(windows)
    && forall k :: 0 <= k < |vectors| ==> !NamesLabel(vectors[k], rule)
  }

  method ValidateNoLeakage(vectors: seq<FeatureVector>, rule: LabelRule) returns (error: Option<BuildError>)
    ensures error.None? <==> forall k :: 0 <= k < |vectors| ==> !NamesLabel(vectors[k], rule)
  {
    for i := 0 to |vectors|
      invariant forall k :: 0 <= k < i ==> !NamesLabel(vectors[k], rule)
    {
      if NamesLabel(vectors[i], rule) {
        return Some(LabelAmongFeatures);
      }
    }
    return None;
  }

  method ValidateInputs(vectors: seq<FeatureVector>, observations: seq<LabelObservation>, windows: seq<SplitWindow>,
                        rule: LabelRule) returns (error: Option<BuildError>)
    ensures error.None? <==> InputsAccepted(vectors, observations, windows, rule)
  {
    error := ValidateVectors(vectors);
    if error.None? {
      error := ValidateObservations(observations);
    }
    if error.None? {
      error := ValidateSplitWindows(windows);
    }
    if error.None? {
      error := ValidateNoLeakage(vectors, rule);
    }
  }

  lemma AcceptedWindows(vectors: seq<FeatureVector>, observations: seq<LabelObservation>, windows: seq<SplitWindow>,
                        rule: LabelRule)
    requires InputsAccepted(vectors, observations, windows, rule)
    ensures WindowsAccepted(windows)
  {
  }

  lemma {:induction false} RowsIffAllLabelled(vectors: seq<FeatureVector>, windows: seq<SplitWindow>,
                                              observations: seq<LabelObservation>, rule: LabelRule)
    ensures RowsFor(vectors, windows, observations, rule).Ok? <==>
      forall k :: 0 <= k < |vectors| ==> RowFor(vectors[k], windows, observations, rule).Ok?
  {
    hide RowFor;
    if vectors != [] {
      RowsIffAllLabelled(vectors[..|vectors| - 1], windows, observations, rule);
    }
  }

  /** What the rows of a snapshot are: one per vector, in order, each labelled by an observation. */
  ghost predicate RowsSay(rows: seq<DatasetRow>, vectors: seq<FeatureVector>, observations: seq<LabelObservation>,
                          rule: LabelRule)
  {
    |rows| == |vectors| && forall k :: 0 <= k < |rows| ==>
      rows[k].vector == vectors[k] && exists o :: o in observations && LabelledBy(rows[k], o, rule)
  }

  /** Succeeds exactly when the inputs are accepted and every vector falls in a window and has its label; the snapshot
    * then passes its own validator. */
  method BuildSnapshot(vectors: seq<FeatureVector>, observations: seq<LabelObservation>, windows: seq<SplitWindow>,
                       rule: LabelRule) returns (r: Result<DatasetSnapshot, BuildError>)
    ensures r.Ok? <==>
      (&& InputsAccepted(vectors, observations, windows, rule)
       && forall k :: 0 <= k < |vectors| ==> HasRow(vectors[k], windows, observations, rule))
    ensures r.Ok? ==>
      && RowsFor(vectors, windows, observations, rule) == Ok(r.value.rows) && r.value.windows == windows
      && RowsSay(r.value.rows, vectors, observations, rule) && r.value.Consistent()
  {
    hide InputsAccepted, RowFor, HasRow, LabelledBy;
    var error := ValidateInputs(vectors, observations, windows, rule);
    if error.Some? {
      return Err(error.value);
    }
    AcceptedWindows(vectors, observations, windows, rule);
    RowsIffAllLabelled(vectors, windows, observations, rule);
    forall k | 0 <= k < |vectors|
      ensures RowFor(vectors[k], windows, observations, rule).Ok? <==> HasRow(vectors[k], windows, observations, rule)
    {
      RowIffLabelled(vectors[k], windows, observations, rule);
    }
    var rows: seq<DatasetRow> := [];
    for i := 0 to |vectors|
      invariant RowsFor(vectors[..i], windows, observations, rule) == Ok(rows)
    {
      assert vectors[..i + 1][..i] == vectors[..i];
      var row := BuildRow(vectors[i], windows, observations, rule);
      if row.Err? {
        RefusedRowStops(vectors, i + 1, windows, observations, rule);
        return Err(row.error);
      }
      rows := rows + [row.value];
    }
    assert vectors[..|vectors|] == vectors;
    var counts := CountRows(rows);
    forall k | 0 <= k < |rows|
      ensures rows[k].vector == vectors[k] && exists o :: o in observations && LabelledBy(rows[k], o, rule)
      ensures InExactlyOneWindow(rows[k], windows) && rows[k].vector.featureTs < rows[k].labelTs
    {
      BuiltRow(vectors[k], windows, observations, rule);
    }
    r := Ok(DatasetSnapshot(rows, windows, counts));
  }

  // ------------------------------------------------------------ what a snapshot looks like

  lemma {:induction false} CountsSumToRows(rows: seq<DatasetRow>)
    ensures CountSplit(rows, Train) + CountSplit(rows, Validation) + CountSplit(rows, Test) == |rows|
  {
    if rows != [] {
      CountsSumToRows(rows[..|rows| - 1]);
    }
  }

  function Rank(s: DatasetSplit): nat {
    match s
    case Train => 0
    case Validation => 1
    case Test => 2
  }

  /** A later feature time never falls in an earlier split. */
  lemma SplitsFollowTime(a: DatasetRow, b: DatasetRow, windows: seq<SplitWindow>)
    requires WindowsAccepted(windows) && InExactlyOneWindow(a, windows) && InExactlyOneWindow(b, windows)
    requires a.vector.featureTs <= b.vector.featureTs
    ensures Rank(a.split) <= Rank(b.split)
  {
  }

  /** Ranked rows fall into blocks whose ends the counts give. */
  lemma {:induction false} RankedRowsAreBlocks(rows: seq<DatasetRow>, k: nat)
    requires forall i, j :: 0 <= i < j < |rows| ==> Rank(rows[i].split) <= Rank(rows[j].split)
    requires k < |rows|
    ensures rows[k].split == Train <==> k < CountSplit(rows, Train)
    ensures rows[k].split == Test <==> k >= CountSplit(rows, Train) + CountSplit(rows, Validation)
  {
    var n := |rows| - 1;
    if k < n {
      RankedRowsAreBlocks(rows[..n], k);
      if n > 0 {
        CountsSumToRows(rows[..n]);
        RankedRowsAreBlocks(rows[..n], n - 1);
      }
      assert Rank(rows[n - 1].split) <= Rank(rows[n].split);
      assert Rank(rows[k].split) <= Rank(rows[n].split);
    } else {
      CountsSumToRows(rows[..n]);
      if n > 0 {
        RankedRowsAreBlocks(rows[..n], n - 1);
        assert Rank(rows[n - 1].split) <= Rank(rows[n].split);
        BlockTotals(rows[..n], rows[n].split);
      }
    }
  }

  /** When no row ranks above a split, the later splits hold no row. */
  lemma {:induction false} BlockTotals(rows: seq<DatasetRow>, top: DatasetSplit)
    requires forall i :: 0 <= i < |rows| ==> Rank(rows[i].split) <= Rank(top)
    ensures top == Train ==> CountSplit(rows, Validation) == 0
    ensures top != Test ==> CountSplit(rows, Test) == 0
  {
    if rows != [] {
      BlockTotals(rows[..|rows| - 1], top);
    }
  }

  /** The rows of an accepted snapshot are a train block, then a validation block, then a test block, of the counted
    * sizes. */
  lemma RowsAreContiguousBlocks(vectors: seq<FeatureVector>, observations: seq<LabelObservation>,
                                windows: seq<SplitWindow>, rule: LabelRule, k: nat)
    requires InputsAccepted(vectors, observations, windows, rule) && RowsFor(vectors, windows, observations, rule).Ok?
    requires k < |vectors|
    ensures var rows := RowsFor(vectors, windows, observations, rule).value;
      var train, validation := CountSplit(rows, Train), CountSplit(rows, Validation);
      rows[k].split == if k < train then Train else if k < train + validation then Validation else Test
  {
    hide RowFor;
    var rows := RowsFor(vectors, windows, observations, rule).value;
    forall i, j | 0 <= i < j < |rows| ensures Rank(rows[i].split) <= Rank(rows[j].split) {
      BuiltRow(vectors[i], windows, observations, rule);
      BuiltRow(vectors[j], windows, observations, rule);
      SplitsFollowTime(rows[i], rows[j], windows);
    }
    RankedRowsAreBlocks(rows, k);
  }
}
