/** From a forecast to a trade decision and a size proposed before risk (strategy/decisions.py,
  * contracts/decisions.py). */
module Strategy {
  import opened Contracts
  import opened DatasetSnapshots
  import opened Candidate

  datatype Action = Buy | NoTrade

  datatype DecisionReason =
    | TradePositiveNetEdge | InsufficientNetEdge | CostThreshold | UncertaintyThreshold | DrawdownThreshold
    | NonPositiveExpectedReturn | UnsupportedForecast

  datatype SizingStatus = Placeholder | Proposed | BlockedBeforeRisk

  datatype SizingReason =
    | NoSizingInputs | NoTradeAction | PositiveSize | ZeroRiskBudget | CostReduction | CostBlock
    | UncertaintyReduction | UncertaintyBlock | DrawdownReduction | DrawdownBlock

  datatype SizingInputs = SizingInputs(
    riskBudget: NonNegativeDecimal, referencePrice: PositiveDecimal, currentDrawdown: NonNegativeDecimal,
    maxDrawdown: PositiveDecimal)

  datatype DecisionPolicy = DecisionPolicy(
    expectedReturnQuantile: Level,
    expectedCost: NonNegativeDecimal,
    maxExpectedCost: NonNegativeDecimal,
    uncertaintyBufferMultiplier: NonNegativeDecimal,
    maxUncertainty: NonNegativeDecimal,
    minNetEdge: NonNegativeDecimal)

  /** What the policy reads of a forecast. */
  datatype ScoredForecast = ScoredForecast(
    split: DatasetSplit, featureTs: Timestamp, quantiles: seq<Quantile>, uncertainty: NonNegativeDecimal)

  datatype SizingProposal = SizingProposal(
    status: SizingStatus, inputs: Option<SizingInputs>, reasons: seq<SizingReason>, multiplier: real, notional: real,
    quantity: real)
  {
    /** What constructing a proposal checks. */
    predicate Accepted() {
      && 0.0 <= multiplier <= 1.0 && notional >= 0.0 && quantity >= 0.0 && reasons != []
      && (notional > 0.0 <==> quantity > 0.0)
      && (if inputs.None? then status == Placeholder && reasons == [NoSizingInputs] else NoSizingInputs !in reasons)
      && (status == Proposed <==> notional > 0.0) && (status == Proposed ==> multiplier > 0.0)
    }
  }

  datatype Decision = Decision(
    split: DatasetSplit,
    featureTs: Timestamp,
    decisionTs: Timestamp,
    action: Action,
    expectedReturn: real,
    expectedCost: real,
    uncertainty: real,
    uncertaintyBuffer: real,
    netEdge: real,
    reason: DecisionReason,
    sizing: SizingProposal)
  {
    /** What constructing a decision checks. */
    predicate Accepted() {
      && split != Train && featureTs <= decisionTs
      && expectedCost >= 0.0 && uncertainty >= 0.0 && uncertaintyBuffer >= 0.0
      && netEdge == expectedReturn - expectedCost - uncertaintyBuffer
      && if action == Buy then
           && reason == TradePositiveNetEdge && expectedReturn > 0.0 && netEdge > 0.0
           && (sizing.inputs.Some? ==> sizing.status == Proposed && sizing.notional > 0.0 && sizing.quantity > 0.0)
         else
           reason != TradePositiveNetEdge && sizing.notional == 0.0 && sizing.quantity == 0.0
    }
  }

  // ------------------------------------------------------------ classification

  function ValuesAt(quantiles: seq<Quantile>, level: Level): seq<real> {
    if quantiles == [] then []
    else
      var last := quantiles[|quantiles| - 1];
      ValuesAt(quantiles[..|quantiles| - 1], level) + if last.level == level then [last.value] else []
  }

  /** The quantile's value when exactly one quantile has the level. */
  function ExpectedReturn(f: ScoredForecast, p: DecisionPolicy): Option<real> {
    var matches := ValuesAt(f.quantiles, p.expectedReturnQuantile);
    if |matches| == 1 then Some(matches[0]) else None
  }

  predicate Breaches(value: real, threshold: real) {
    if threshold == 0.0 then value > 0.0 else value >= threshold
  }

  function Classify(expectedReturn: Option<real>, uncertainty: real, netEdge: real,
                    p: DecisionPolicy): (Action, DecisionReason)
  {
    if expectedReturn.None? then (NoTrade, UnsupportedForecast)
    else if expectedReturn.value <= 0.0 then (NoTrade, NonPositiveExpectedReturn)
    else if Breaches(p.expectedCost, p.maxExpectedCost) then (NoTrade, CostThreshold)
    else if Breaches(uncertainty, p.maxUncertainty) then (NoTrade, UncertaintyThreshold)
    else if netEdge <= p.minNetEdge then (NoTrade, InsufficientNetEdge)
    else (Buy, TradePositiveNetEdge)
  }

  predicate DrawdownBlocks(action: Action, inputs: Option<SizingInputs>) {
    action == Buy && inputs.Some? && inputs.value.currentDrawdown >= inputs.value.maxDrawdown
  }

  // ------------------------------------------------------------ sizing

  function ThresholdMultiplier(value: real, threshold: real): real {
    if threshold == 0.0 then if value == 0.0 then 1.0 else 0.0
    else
      var multiplier := 1.0 - value / threshold;
      if multiplier <= 0.0 then 0.0 else if multiplier >= 1.0 then 1.0 else multiplier
  }

  function ReductionReason(value: real, multiplier: real, block: SizingReason,
                           reduction: SizingReason): seq<SizingReason>
  {
    if value > 0.0 then [if multiplier == 0.0 then block else reduction] else []
  }

  function ReductionReasons(p: DecisionPolicy, uncertainty: real, inputs: SizingInputs): seq<SizingReason> {
    ReductionReason(p.expectedCost, ThresholdMultiplier(p.expectedCost, p.maxExpectedCost), CostBlock, CostReduction)
    + ReductionReason(uncertainty, ThresholdMultiplier(uncertainty, p.maxUncertainty), UncertaintyBlock,
      UncertaintyReduction)
    + ReductionReason(inputs.currentDrawdown, ThresholdMultiplier(inputs.currentDrawdown, inputs.maxDrawdown),
      DrawdownBlock, DrawdownReduction)
  }

  function BlockReason(reason: DecisionReason): SizingReason {
    match reason
    case CostThreshold => CostBlock
    case UncertaintyThreshold => UncertaintyBlock
    case DrawdownThreshold => DrawdownBlock
    case _ => NoTradeAction
  }

  function Blocked(inputs: SizingInputs, reasons: seq<SizingReason>): SizingProposal {
    SizingProposal(BlockedBeforeRisk, Some(inputs), reasons, 0.0, 0.0, 0.0)
  }

  function Multiplier(p: DecisionPolicy, uncertainty: real, inputs: SizingInputs): real {
    ThresholdMultiplier(p.expectedCost, p.maxExpectedCost) * ThresholdMultiplier(uncertainty, p.maxUncertainty)
    * ThresholdMultiplier(inputs.currentDrawdown, inputs.maxDrawdown)
  }

  /** The budget scaled down by cost, uncertainty and drawdown. */
  function ProposePreRiskSize(action: Action, reason: DecisionReason, uncertainty: real, p: DecisionPolicy,
                              inputs: Option<SizingInputs>): SizingProposal
  {
    if inputs.None? then SizingProposal(Placeholder, None, [NoSizingInputs], 0.0, 0.0, 0.0)
    else if action == NoTrade then Blocked(inputs.value, [BlockReason(reason)])
    else if inputs.value.riskBudget == 0.0 then Blocked(inputs.value, [ZeroRiskBudget])
    else
      var multiplier, reasons := Multiplier(p, uncertainty, inputs.value),
        ReductionReasons(p, uncertainty, inputs.value);
      if multiplier == 0.0 then Blocked(inputs.value, reasons)
      else
        var notional := inputs.value.riskBudget * multiplier;
        SizingProposal(Proposed, inputs, reasons + [PositiveSize], multiplier, notional,
          notional / inputs.value.referencePrice)
  }

  /** The decision before its validator. */
  function Draft(f: ScoredForecast, p: DecisionPolicy, decisionTs: Timestamp, inputs: Option<SizingInputs>): Decision {
    var extracted := ExpectedReturn(f, p);
    var expectedReturn := if extracted.Some? then extracted.value else 0.0;
    var buffer := f.uncertainty * p.uncertaintyBufferMultiplier;
    var netEdge := expectedReturn - p.expectedCost - buffer;
    var (action, reason) := Classify(extracted, f.uncertainty, netEdge, p);
    var blocked := DrawdownBlocks(action, inputs);
    var action' := if blocked then NoTrade else action;
    var reason' := if blocked then DrawdownThreshold else reason;
    Decision(f.split, f.featureTs, decisionTs, action', expectedReturn, p.expectedCost, f.uncertainty, buffer, netEdge,
      reason',
      ProposePreRiskSize(action', reason', f.uncertainty, p, inputs))
  }

  /** None is the exception a refused decision raises. */
  function Decide(f: ScoredForecast, p: DecisionPolicy, decisionTs: Timestamp,
                  inputs: Option<SizingInputs>): Option<Decision>
  {
    var draft := Draft(f, p, decisionTs, inputs);
    if f.split != Train && draft.sizing.Accepted() && draft.Accepted() then Some(draft) else None
  }

  // ------------------------------------------------------------ multipliers

  lemma QuotientBounds(value: real, threshold: real)
    requires value >= 0.0 && threshold > 0.0
    ensures value / threshold >= 0.0
    ensures value < threshold <==> value / threshold < 1.0
  {
    var q := value / threshold;
    assert q * threshold == value;
    assert (1.0 - q) * threshold == threshold - value;
  }

  lemma QuotientGrows(a: real, b: real, threshold: real)
    requires a <= b && threshold > 0.0
    ensures a / threshold <= b / threshold
  {
    assert b / threshold - a / threshold == (b - a) / threshold;
    var q := (b - a) / threshold;
    assert q * threshold == b - a;
  }

  /** A threshold multiplier lies in [0, 1], and is zero exactly when the value breaches the threshold. */
  lemma MultiplierInUnit(value: real, threshold: real)
    requires value >= 0.0 && threshold >= 0.0
    ensures 0.0 <= ThresholdMultiplier(value, threshold) <= 1.0
    ensures ThresholdMultiplier(value, threshold) == 0.0 <==> Breaches(value, threshold)
  {
    if threshold > 0.0 {
      QuotientBounds(value, threshold);
    }
  }

  lemma MultiplierShrinks(low: real, high: real, threshold: real)
    requires 0.0 <= low <= high && threshold >= 0.0
    ensures ThresholdMultiplier(high, threshold) <= ThresholdMultiplier(low, threshold)
  {
    if threshold > 0.0 {
      QuotientGrows(low, high, threshold);
    }
  }

  lemma ProductInUnit(a: real, b: real)
    requires 0.0 <= a <= 1.0 && 0.0 <= b <= 1.0
    ensures 0.0 <= a * b <= 1.0
    ensures a * b == 0.0 <==> a == 0.0 || b == 0.0
  {
    if a > 0.0 && b > 0.0 {
      assert a * b > 0.0;
    }
    assert a * b <= 1.0 * b;
  }

  lemma ProductShrinks(a: real, b: real, c: real, d: real)
    requires 0.0 <= a <= c && 0.0 <= b <= d
    ensures a * b <= c * d
  {
    assert a * b <= c * b;
    assert c * b <= c * d;
  }

  /** The whole multiplier is zero exactly when some threshold is breached. */
  lemma MultiplierZeroIff(p: DecisionPolicy, uncertainty: NonNegativeDecimal, inputs: SizingInputs)
    ensures 0.0 <= Multiplier(p, uncertainty, inputs) <= 1.0
    ensures Multiplier(p, uncertainty, inputs) == 0.0 <==>
      (Breaches(p.expectedCost, p.maxExpectedCost) || Breaches(uncertainty, p.maxUncertainty)
        || Breaches(inputs.currentDrawdown, inputs.maxDrawdown))
  {
    hide ThresholdMultiplier, Breaches;
    var a, b, c := ThresholdMultiplier(p.expectedCost, p.maxExpectedCost),
      ThresholdMultiplier(uncertainty, p.maxUncertainty),
      ThresholdMultiplier(inputs.currentDrawdown, inputs.maxDrawdown);
    MultiplierInUnit(p.expectedCost, p.maxExpectedCost);
    MultiplierInUnit(uncertainty, p.maxUncertainty);
    MultiplierInUnit(inputs.currentDrawdown, inputs.maxDrawdown);
    ProductInUnit(a, b);
    ProductInUnit(a * b, c);
  }

  // ------------------------------------------------------------ main results

  lemma ScaledBudget(budget: real, multiplier: real, price: real)
    requires budget > 0.0 && 0.0 < multiplier <= 1.0 && price > 0.0
    ensures 0.0 < budget * multiplier <= budget
    ensures budget * multiplier / price > 0.0 && budget * multiplier / price * price == budget * multiplier
  {
    assert budget * multiplier > 0.0;
    assert budget * multiplier <= budget * 1.0;
    QuotientPositive(budget * multiplier, price);
  }

  lemma QuotientPositive(a: real, b: real)
    requires a > 0.0 && b > 0.0
    ensures a / b > 0.0 && a / b * b == a
  {
    assert a / b * b == a;
  }

  /** A buy with a positive budget is sized: the multiplier is positive, the notional within budget and equal to
    * quantity times price. */
  lemma BuyIsSized(f: ScoredForecast, p: DecisionPolicy, decisionTs: Timestamp, inputs: SizingInputs)
    requires Draft(f, p, decisionTs, Some(inputs)).action == Buy && inputs.riskBudget > 0.0
    ensures var sizing := Draft(f, p, decisionTs, Some(inputs)).sizing;
      && sizing.status == Proposed && 0.0 < sizing.multiplier <= 1.0
      && 0.0 < sizing.notional <= inputs.riskBudget && sizing.quantity > 0.0
      && sizing.notional == sizing.quantity * inputs.referencePrice
      && sizing.notional == inputs.riskBudget * sizing.multiplier
  {
    hide Multiplier, ReductionReasons, ExpectedReturn;
    MultiplierZeroIff(p, f.uncertainty, inputs);
    ScaledBudget(inputs.riskBudget, Multiplier(p, f.uncertainty, inputs), inputs.referencePrice);
  }

  lemma ReductionReasonsNameInputs(p: DecisionPolicy, uncertainty: real, inputs: SizingInputs)
    ensures NoSizingInputs !in ReductionReasons(p, uncertainty, inputs)
  {
  }

  /** Every proposal the decision function makes passes its own validator. */
  lemma ProposalIsAccepted(f: ScoredForecast, p: DecisionPolicy, decisionTs: Timestamp, inputs: Option<SizingInputs>)
    ensures Draft(f, p, decisionTs, inputs).sizing.Accepted()
  {
    hide Multiplier, ReductionReasons, ExpectedReturn, ThresholdMultiplier;
    if inputs.Some? {
      ReductionReasonsNameInputs(p, f.uncertainty, inputs.value);
      MultiplierZeroIff(p, f.uncertainty, inputs.value);
      if Draft(f, p, decisionTs, inputs).action == Buy && inputs.value.riskBudget > 0.0 {
        BuyIsSized(f, p, decisionTs, inputs.value);
      }
    }
  }

  lemma BufferNonNegative(uncertainty: real, multiplier: real)
    requires uncertainty >= 0.0 && multiplier >= 0.0
    ensures uncertainty * multiplier >= 0.0
  {
  }

  /** When a forecast is bought, told on the inputs: an expected return that survives cost, uncertainty and the
    * required edge, within both thresholds and below the maximum drawdown. */
  predicate Buys(f: ScoredForecast, p: DecisionPolicy, inputs: Option<SizingInputs>) {
    && ExpectedReturn(f, p).Some? && ExpectedReturn(f, p).value > 0.0
    && !Breaches(p.expectedCost, p.maxExpectedCost) && !Breaches(f.uncertainty, p.maxUncertainty)
    && ExpectedReturn(f, p).value > p.expectedCost + f.uncertainty * p.uncertaintyBufferMultiplier + p.minNetEdge
    && (inputs.Some? ==> inputs.value.currentDrawdown < inputs.value.maxDrawdown)
  }

  lemma ActionIsBuyIff(f: ScoredForecast, p: DecisionPolicy, decisionTs: Timestamp, inputs: Option<SizingInputs>)
    ensures Draft(f, p, decisionTs, inputs).action == Buy <==> Buys(f, p, inputs)
  {
    hide Multiplier, ReductionReasons, ExpectedReturn, ThresholdMultiplier, ProposePreRiskSize, Breaches;
  }

  /** A decision is refused exactly for a train forecast, a decision before its features, or a forecast that is
    * bought on a zero budget. */
  lemma DecisionRefusedIff(f: ScoredForecast, p: DecisionPolicy, decisionTs: Timestamp, inputs: Option<SizingInputs>)
    ensures Decide(f, p, decisionTs, inputs).None? <==>
      (f.split == Train || decisionTs < f.featureTs
        || (inputs.Some? && inputs.value.riskBudget == 0.0 && Buys(f, p, inputs)))
  {
    hide Multiplier, ReductionReasons, ExpectedReturn, ThresholdMultiplier, Breaches, SizingProposal.Accepted;
    ActionIsBuyIff(f, p, decisionTs, inputs);
    hide Buys;
    ProposalIsAccepted(f, p, decisionTs, inputs);
    BufferNonNegative(f.uncertainty, p.uncertaintyBufferMultiplier);
    if Draft(f, p, decisionTs, inputs).action == Buy && inputs.Some? && inputs.value.riskBudget > 0.0 {
      BuyIsSized(f, p, decisionTs, inputs.value);
    }
  }

  /** A forecast of certain gain at no cost, offered a budget of zero: bought, and therefore refused. */
  lemma ZeroBudgetBuyIsRefused()
    ensures var f := ScoredForecast(Test, 0, [Quantile(0.5, 1.0)], 0.0);
      Decide(f, DecisionPolicy(0.5, 0.0, 0.0, 1.0, 0.0, 0.0), 0, Some(SizingInputs(0.0, 1.0, 0.0, 1.0))).None?
  {
    var quantiles: seq<Quantile> := [Quantile(0.5, 1.0)];
    var f := ScoredForecast(Test, 0, quantiles, 0.0);
    var p, inputs := DecisionPolicy(0.5, 0.0, 0.0, 1.0, 0.0, 0.0), Some(SizingInputs(0.0, 1.0, 0.0, 1.0));
    assert quantiles[..0] == [] && ValuesAt(quantiles, 0.5) == [1.0];
    assert Buys(f, p, inputs);
    DecisionRefusedIff(f, p, 0, inputs);
  }

  lemma MultiplierShrinksWithRisk(p: DecisionPolicy, low: NonNegativeDecimal, high: NonNegativeDecimal,
                                  calm: SizingInputs, worse: SizingInputs)
    requires low <= high && worse == calm.(currentDrawdown := worse.currentDrawdown)
      && calm.currentDrawdown <= worse.currentDrawdown
    ensures Multiplier(p, high, worse) <= Multiplier(p, low, calm)
  {
    hide ThresholdMultiplier;
    var cost := ThresholdMultiplier(p.expectedCost, p.maxExpectedCost);
    MultiplierInUnit(p.expectedCost, p.maxExpectedCost);
    MultiplierInUnit(high, p.maxUncertainty);
    MultiplierInUnit(worse.currentDrawdown, worse.maxDrawdown);
    MultiplierShrinks(low, high, p.maxUncertainty);
    MultiplierShrinks(calm.currentDrawdown, worse.currentDrawdown, calm.maxDrawdown);
    var u, v := ThresholdMultiplier(high, p.maxUncertainty), ThresholdMultiplier(low, p.maxUncertainty);
    ProductShrinks(cost, u, cost, v);
    ProductInUnit(cost, u);
    ProductShrinks(cost * u, ThresholdMultiplier(worse.currentDrawdown, worse.maxDrawdown), cost * v,
                   ThresholdMultiplier(calm.currentDrawdown, calm.maxDrawdown));
  }

  /** What is not bought under less risk is not bought under more. */
  lemma BuyOnlyIfCalmBuys(f: ScoredForecast, worse: ScoredForecast, p: DecisionPolicy, decisionTs: Timestamp,
                          inputs: SizingInputs, riskier: SizingInputs)
    requires worse == f.(uncertainty := worse.uncertainty) && f.uncertainty <= worse.uncertainty
    requires riskier == inputs.(currentDrawdown := riskier.currentDrawdown)
      && inputs.currentDrawdown <= riskier.currentDrawdown
    requires Draft(worse, p, decisionTs, Some(riskier)).action == Buy
    ensures Draft(f, p, decisionTs, Some(inputs)).action == Buy
  {
    hide Multiplier, ReductionReasons, ThresholdMultiplier, ProposePreRiskSize;
    assert ExpectedReturn(f, p) == ExpectedReturn(worse, p);
    ProductShrinks(f.uncertainty, p.uncertaintyBufferMultiplier, worse.uncertainty, p.uncertaintyBufferMultiplier);
  }

  /** The proposed size never grows with uncertainty or drawdown, thresholds and classification included. */
  lemma SizeShrinksWithRisk(f: ScoredForecast, worse: ScoredForecast, p: DecisionPolicy, decisionTs: Timestamp,
                            inputs: SizingInputs, riskier: SizingInputs)
    requires worse == f.(uncertainty := worse.uncertainty) && f.uncertainty <= worse.uncertainty
    requires riskier == inputs.(currentDrawdown := riskier.currentDrawdown)
      && inputs.currentDrawdown <= riskier.currentDrawdown
    ensures Draft(worse, p, decisionTs, Some(riskier)).sizing.notional
      <= Draft(f, p, decisionTs, Some(inputs)).sizing.notional
    ensures Draft(worse, p, decisionTs, Some(riskier)).sizing.quantity
      <= Draft(f, p, decisionTs, Some(inputs)).sizing.quantity
  {
    var a, b := Draft(f, p, decisionTs, Some(inputs)), Draft(worse, p, decisionTs, Some(riskier));
    ProposalIsAccepted(f, p, decisionTs, Some(inputs));
    if b.action == Buy && inputs.riskBudget > 0.0 {
      BuyOnlyIfCalmBuys(f, worse, p, decisionTs, inputs, riskier);
      BuyIsSized(f, p, decisionTs, inputs);
      BuyIsSized(worse, p, decisionTs, riskier);
      SizesCompare(f, worse, p, decisionTs, inputs, riskier);
    }
  }

  lemma SizesCompare(f: ScoredForecast, worse: ScoredForecast, p: DecisionPolicy, decisionTs: Timestamp,
                     inputs: SizingInputs, riskier: SizingInputs)
    requires f.uncertainty <= worse.uncertainty
    requires riskier == inputs.(currentDrawdown := riskier.currentDrawdown)
      && inputs.currentDrawdown <= riskier.currentDrawdown
    requires inputs.riskBudget > 0.0
    requires Draft(f, p, decisionTs, Some(inputs)).action == Buy
      && Draft(worse, p, decisionTs, Some(riskier)).action == Buy
    ensures Draft(worse, p, decisionTs, Some(riskier)).sizing.notional
      <= Draft(f, p, decisionTs, Some(inputs)).sizing.notional
    ensures Draft(worse, p, decisionTs, Some(riskier)).sizing.quantity
      <= Draft(f, p, decisionTs, Some(inputs)).sizing.quantity
  {
    hide Multiplier, ReductionReasons, ExpectedReturn, ThresholdMultiplier, Classify;
    MultiplierShrinksWithRisk(p, f.uncertainty, worse.uncertainty, inputs, riskier);
    BuyIsSized(f, p, decisionTs, inputs);
    BuyIsSized(worse, p, decisionTs, riskier);
    var m, n := Multiplier(p, f.uncertainty, inputs), Multiplier(p, worse.uncertainty, riskier);
    ProductShrinks(inputs.riskBudget, n, inputs.riskBudget, m);
    QuotientGrows(inputs.riskBudget * n, inputs.riskBudget * m, inputs.referencePrice);
  }

  // ------------------------------------------------------------ what a decision says

  /** The one quantile of a level. */
  ghost predicate OnlyAt(k: int, quantiles: seq<Quantile>, level: real) {
    0 <= k < |quantiles| && forall j :: 0 <= j < |quantiles| ==> (quantiles[j].level == level <==> j == k)
  }

  lemma {:induction false} LevelIndices(quantiles: seq<Quantile>, level: Level) returns (ks: seq<nat>)
    ensures |ks| == |ValuesAt(quantiles, level)|
    ensures forall i, j :: 0 <= i < j < |ks| ==> ks[i] < ks[j]
    ensures forall i :: 0 <= i < |ks| ==>
      && ks[i] < |quantiles| && quantiles[ks[i]].level == level
      && ValuesAt(quantiles, level)[i] == quantiles[ks[i]].value
    ensures forall j :: 0 <= j < |quantiles| && quantiles[j].level == level ==> j in ks
  {
    ks := [];
    if quantiles != [] {
      var n := |quantiles| - 1;
      var before := LevelIndices(quantiles[..n], level);
      ks := before + if quantiles[n].level == level then [n] else [];
      forall j | 0 <= j < |quantiles| && quantiles[j].level == level ensures j in ks {
        assert j < n ==> quantiles[..n][j] == quantiles[j];
      }
    }
  }

  lemma ExpectedReturnMeaning(f: ScoredForecast, p: DecisionPolicy)
    ensures ExpectedReturn(f, p).Some? ==>
      exists k :: OnlyAt(k, f.quantiles, p.expectedReturnQuantile) && f.quantiles[k].value == ExpectedReturn(f, p).value
    ensures ExpectedReturn(f, p).None? ==> forall k :: !OnlyAt(k, f.quantiles, p.expectedReturnQuantile)
  {
    hide ValuesAt;
    var ks := LevelIndices(f.quantiles, p.expectedReturnQuantile);
    if |ks| == 1 {
      assert OnlyAt(ks[0], f.quantiles, p.expectedReturnQuantile);
    } else {
      forall k ensures !OnlyAt(k, f.quantiles, p.expectedReturnQuantile) {
        if 0 <= k < |f.quantiles| && f.quantiles[k].level == p.expectedReturnQuantile {
          assert k in ks;
          var other := if ks[0] == k then ks[1] else ks[0];
          assert f.quantiles[other].level == p.expectedReturnQuantile && other != k;
        }
      }
    }
  }

  /** Above the threshold, or at one that is not zero. */
  predicate Over(value: real, threshold: real) {
    value > threshold || (value == threshold && threshold > 0.0)
  }

  /** The share of a threshold that a value leaves: all of it at zero, none once over it. */
  predicate IsRoom(share: real, value: real, threshold: real) {
    if Over(value, threshold) then share == 0.0
    else if threshold == 0.0 then share == 1.0
    else share * threshold == threshold - value
  }

  lemma RoomMeaning(value: real, threshold: real)
    requires value >= 0.0 && threshold >= 0.0
    ensures IsRoom(ThresholdMultiplier(value, threshold), value, threshold)
  {
    if threshold > 0.0 {
      QuotientBounds(value, threshold);
      var q := value / threshold;
      assert (1.0 - q) * threshold == threshold - q * threshold;
    }
  }

  predicate IsProductOf(x: real, a: real, b: real, c: real) {
    x == a * b * c
  }

  /** The budget scaled by the room left under the three thresholds, with a reason for each positive value. */
  ghost predicate IsSized(s: SizingProposal, uncertainty: real, p: DecisionPolicy, inputs: SizingInputs) {
    && s.status == Proposed && s.inputs == Some(inputs)
    && (exists cost, doubt, loss ::
      && IsProductOf(s.multiplier, cost, doubt, loss) && IsRoom(cost, p.expectedCost, p.maxExpectedCost)
      && IsRoom(doubt, uncertainty, p.maxUncertainty) && IsRoom(loss, inputs.currentDrawdown, inputs.maxDrawdown))
    && s.notional == inputs.riskBudget * s.multiplier && s.quantity * inputs.referencePrice == s.notional
    && s.reasons == (if p.expectedCost > 0.0 then [CostReduction] else [])
      + (if uncertainty > 0.0 then [UncertaintyReduction] else [])
      + (if inputs.currentDrawdown > 0.0 then [DrawdownReduction] else []) + [PositiveSize]
  }

  /** The proposal that goes with a decision: none without inputs, nothing without a buy or a budget, else sized. */
  ghost predicate SizingSays(s: SizingProposal, action: Action, reason: DecisionReason, uncertainty: real,
                             p: DecisionPolicy, inputs: Option<SizingInputs>)
  {
    if inputs.None? then s == SizingProposal(Placeholder, None, [NoSizingInputs], 0.0, 0.0, 0.0)
    else if action == Buy && inputs.value.riskBudget > 0.0 then IsSized(s, uncertainty, p, inputs.value)
    else
      && s.status == BlockedBeforeRisk && s.inputs == inputs && s.multiplier == s.notional == s.quantity == 0.0
      && s.reasons == [
        if action == Buy then ZeroRiskBudget
        else if reason == CostThreshold then CostBlock
        else if reason == UncertaintyThreshold then UncertaintyBlock
        else if reason == DrawdownThreshold then DrawdownBlock
        else NoTradeAction]
  }

  /** The first of the conditions that stands in the way, on the expected return taken from the forecast. */
  predicate ReasonSays(reason: DecisionReason, expected: Option<real>, netEdge: real, f: ScoredForecast,
                       p: DecisionPolicy, inputs: Option<SizingInputs>)
  {
    reason ==
      if expected.None? then UnsupportedForecast
      else if expected.value <= 0.0 then NonPositiveExpectedReturn
      else if Over(p.expectedCost, p.maxExpectedCost) then CostThreshold
      else if Over(f.uncertainty, p.maxUncertainty) then UncertaintyThreshold
      else if netEdge <= p.minNetEdge then InsufficientNetEdge
      else if inputs.Some? && inputs.value.currentDrawdown >= inputs.value.maxDrawdown then DrawdownThreshold
      else TradePositiveNetEdge
  }

  /** What a decision says: the return of the one quantile at the policy's level, what is left of it after cost and an
    * uncertainty buffer, and a buy exactly when no condition stands in the way. */
  ghost predicate Says(d: Decision, f: ScoredForecast, p: DecisionPolicy, decisionTs: Timestamp,
                       inputs: Option<SizingInputs>)
  {
    && d.split == f.split && d.featureTs == f.featureTs && d.decisionTs == decisionTs
    && d.expectedCost == p.expectedCost && d.uncertainty == f.uncertainty
    && d.uncertaintyBuffer == f.uncertainty * p.uncertaintyBufferMultiplier
    && d.netEdge == d.expectedReturn - d.expectedCost - d.uncertaintyBuffer
    && (if exists k :: OnlyAt(k, f.quantiles, p.expectedReturnQuantile) then
          && (exists k :: OnlyAt(k, f.quantiles, p.expectedReturnQuantile) && d.expectedReturn == f.quantiles[k].value)
          && ReasonSays(d.reason, Some(d.expectedReturn), d.netEdge, f, p, inputs)
        else d.expectedReturn == 0.0 && ReasonSays(d.reason, None, d.netEdge, f, p, inputs))
    && (d.action == Buy <==> d.reason == TradePositiveNetEdge)
    && SizingSays(d.sizing, d.action, d.reason, f.uncertainty, p, inputs)
  }

  lemma ReductionReasonsMeaning(p: DecisionPolicy, uncertainty: NonNegativeDecimal, inputs: SizingInputs)
    requires !Breaches(p.expectedCost, p.maxExpectedCost) && !Breaches(uncertainty, p.maxUncertainty)
      && !Breaches(inputs.currentDrawdown, inputs.maxDrawdown)
    ensures ReductionReasons(p, uncertainty, inputs) == (if p.expectedCost > 0.0 then [CostReduction] else [])
      + (if uncertainty > 0.0 then [UncertaintyReduction] else [])
      + (if inputs.currentDrawdown > 0.0 then [DrawdownReduction] else [])
  {
    hide ThresholdMultiplier, Breaches;
    MultiplierInUnit(p.expectedCost, p.maxExpectedCost);
    MultiplierInUnit(uncertainty, p.maxUncertainty);
    MultiplierInUnit(inputs.currentDrawdown, inputs.maxDrawdown);
  }

  lemma BuyBreachesNothing(f: ScoredForecast, p: DecisionPolicy, decisionTs: Timestamp, inputs: SizingInputs)
    requires Draft(f, p, decisionTs, Some(inputs)).action == Buy
    ensures !Breaches(p.expectedCost, p.maxExpectedCost) && !Breaches(f.uncertainty, p.maxUncertainty)
    ensures !Breaches(inputs.currentDrawdown, inputs.maxDrawdown)
  {
    hide ProposePreRiskSize, ExpectedReturn;
  }

  lemma SizedMeaning(f: ScoredForecast, p: DecisionPolicy, decisionTs: Timestamp, inputs: SizingInputs)
    requires Draft(f, p, decisionTs, Some(inputs)).action == Buy && inputs.riskBudget > 0.0
    ensures IsSized(Draft(f, p, decisionTs, Some(inputs)).sizing, f.uncertainty, p, inputs)
  {
    hide ThresholdMultiplier, ReductionReasons, Breaches, ExpectedReturn, Classify, DrawdownBlocks, IsRoom;
    var cost, doubt, loss := ThresholdMultiplier(p.expectedCost, p.maxExpectedCost),
      ThresholdMultiplier(f.uncertainty, p.maxUncertainty),
      ThresholdMultiplier(inputs.currentDrawdown, inputs.maxDrawdown);
    BuyIsSized(f, p, decisionTs, inputs);
    BuyBreachesNothing(f, p, decisionTs, inputs);
    ReductionReasonsMeaning(p, f.uncertainty, inputs);
    RoomMeaning(p.expectedCost, p.maxExpectedCost);
    RoomMeaning(f.uncertainty, p.maxUncertainty);
    RoomMeaning(inputs.currentDrawdown, inputs.maxDrawdown);
    assert IsProductOf(Draft(f, p, decisionTs, Some(inputs)).sizing.multiplier, cost, doubt, loss);
  }

  /** Every decision made says so. */
  lemma DecisionMeaning(f: ScoredForecast, p: DecisionPolicy, decisionTs: Timestamp, inputs: Option<SizingInputs>)
    ensures Says(Draft(f, p, decisionTs, inputs), f, p, decisionTs, inputs)
    ensures Decide(f, p, decisionTs, inputs).Some? ==>
      Says(Decide(f, p, decisionTs, inputs).value, f, p, decisionTs, inputs)
  {
    hide Multiplier, ReductionReasons, ExpectedReturn, ThresholdMultiplier, IsSized, OnlyAt;
    ExpectedReturnMeaning(f, p);
    if inputs.Some? && Draft(f, p, decisionTs, inputs).action == Buy && inputs.value.riskBudget > 0.0 {
      SizedMeaning(f, p, decisionTs, inputs.value);
    }
  }
}
