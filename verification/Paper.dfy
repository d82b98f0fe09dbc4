/** Paper session logs and transaction-cost analysis over gateway lifecycle events (execution/paper.py). */
module Paper {
  import opened Contracts
  import opened RiskContracts
  import opened ReplayInputs
  import opened ReplayAccounting
  import opened Gateway

  // ------------------------------------------------------------ session logs

  function FillLogs(events: seq<LifecycleEvent>): seq<LifecycleEvent> {
    if events == [] then []
    else
      var last := events[|events| - 1];
      FillLogs(events[..|events| - 1]) + if last.IsFill() then [last] else []
  }

  function RejectionLogs(events: seq<LifecycleEvent>): seq<LifecycleEvent> {
    if events == [] then []
    else
      var last := events[|events| - 1];
      RejectionLogs(events[..|events| - 1])
        + if last.status == Blocked || last.status == GatewayRejected || last.status == GatewayUnfilled
          then [last] else []
  }

  function CountStatus(events: seq<LifecycleEvent>, status: GatewayStatus): nat {
    if events == [] then 0
    else CountStatus(events[..|events| - 1], status) + if events[|events| - 1].status == status then 1 else 0
  }

  lemma LogsGrow(events: seq<LifecycleEvent>)
    requires events != []
    ensures var n, last := |events| - 1, events[|events| - 1];
      if last.IsFill() then FillLogs(events) == FillLogs(events[..n]) + [last]
        && RejectionLogs(events) == RejectionLogs(events[..n])
      else FillLogs(events) == FillLogs(events[..n]) && RejectionLogs(events) == RejectionLogs(events[..n]) + [last]
  {
  }

  /** Every event is logged once: as a fill or as a rejection. */
  lemma {:induction false} LogsPartitionEvents(events: seq<LifecycleEvent>)
    ensures multiset(FillLogs(events)) + multiset(RejectionLogs(events)) == multiset(events)
  {
    if events != [] {
      hide FillLogs, RejectionLogs, LifecycleEvent.IsFill;
      var n := |events| - 1;
      LogsPartitionEvents(events[..n]);
      LogsGrow(events);
      PartitionGrows(events, FillLogs(events[..n]), RejectionLogs(events[..n]), FillLogs(events),
        RejectionLogs(events));
    }
  }

  /** The status counts add up to the logs. */
  lemma {:induction false} CountsAddUp(events: seq<LifecycleEvent>)
    ensures |FillLogs(events)| == CountStatus(events, GatewayFilled) + CountStatus(events, GatewayPartiallyFilled)
    ensures |RejectionLogs(events)|
      == CountStatus(events, Blocked) + CountStatus(events, GatewayRejected) + CountStatus(events, GatewayUnfilled)
    ensures |events| == |FillLogs(events)| + |RejectionLogs(events)|
  {
    if events != [] {
      CountsAddUp(events[..|events| - 1]);
    }
  }

  datatype Measure = FilledQuantity | FeeCost | SpreadCost | SlippageCost | TotalCost

  function MeasureOf(e: LifecycleEvent, m: Measure): real {
    match m
    case FilledQuantity => e.filledQuantity
    case FeeCost => e.feeCost
    case SpreadCost => e.spreadCost
    case SlippageCost => e.slippageCost
    case TotalCost => e.totalCost
  }

  function ResultMeasure(r: OrderResult, m: Measure): real {
    match m
    case FilledQuantity => r.filledQuantity
    case FeeCost => r.feeCost
    case SpreadCost => r.spreadCost
    case SlippageCost => r.slippageCost
    case TotalCost => r.totalCost
  }

  function LogTotal(logs: seq<LifecycleEvent>, m: Measure): real {
    if logs == [] then 0.0 else LogTotal(logs[..|logs| - 1], m) + MeasureOf(logs[|logs| - 1], m)
  }

  function ReplayTotal(results: seq<OrderResult>, m: Measure): real {
    if results == [] then 0.0 else ReplayTotal(results[..|results| - 1], m) + ResultMeasure(results[|results| - 1], m)
  }

  lemma EventCarriesResult(e: RiskEvent, r: OrderResult, m: Measure)
    requires e.approvedIntent.Some? && ResultOf(r, e.approvedIntent.value)
    ensures var event := MakeLifecycleEvent(e, Some(r));
      && MeasureOf(event, m) == ResultMeasure(r, m) && (event.IsFill() <==> r.IsFill())
      && (!event.IsFill() ==> ResultMeasure(r, m) == 0.0)
  {
  }

  lemma FillLogsOfAppend(events: seq<LifecycleEvent>, n: nat, m: Measure)
    requires n < |events|
    ensures LogTotal(FillLogs(events[..n + 1]), m)
      == LogTotal(FillLogs(events[..n]), m) + if events[n].IsFill() then MeasureOf(events[n], m) else 0.0
  {
    assert events[..n + 1][..n] == events[..n];
    var before := FillLogs(events[..n]);
    if events[n].IsFill() {
      assert (before + [events[n]])[..|before|] == before;
    } else {
      assert before + [] == before;
    }
  }

  /** One event's share: the next result's measures if it was forwarded, nothing if it was blocked. */
  lemma OneEventsShare(events: seq<RiskEvent>, report: GatewayReport, i: nat, m: Measure)
    requires ReportsEveryEvent(events, report) && i < |events|
    ensures var k, results := |ForwardedEvents(events[..i])|, ReplayResults(report.gated);
      if Forwarded(events[i]) then
        && k < |results| && |ForwardedEvents(events[..i + 1])| == k + 1
        && ResultMeasure(results[k], m) == if report.events[i].IsFill() then MeasureOf(report.events[i], m) else 0.0
      else
        |ForwardedEvents(events[..i + 1])| == k && !report.events[i].IsFill()
  {
    hide ResultOf, Forwarded, MakeLifecycleEvent, LifecycleEvent.Consistent, ResultMeasure, MeasureOf;
    var k := |ForwardedEvents(events[..i])|;
    assert events[..i + 1][..i] == events[..i];
    if Forwarded(events[i]) {
      ForwardedRank(events, i);
      EventCarriesResult(events[i], ReplayResults(report.gated)[k], m);
    }
  }

  lemma {:induction false} TotalsOfPrefix(events: seq<RiskEvent>, report: GatewayReport, n: nat, m: Measure)
    requires ReportsEveryEvent(events, report) && n <= |events| == |report.events|
    ensures |ForwardedEvents(events[..n])| <= |ReplayResults(report.gated)|
    ensures LogTotal(FillLogs(report.events[..n]), m)
      == ReplayTotal(ReplayResults(report.gated)[..|ForwardedEvents(events[..n])|], m)
  {
    hide ReportsEveryEvent, Forwarded, ResultMeasure, MeasureOf, LogTotal, LifecycleEvent.IsFill;
    var results := ReplayResults(report.gated);
    if n == 0 {
      NothingLogged(report.events[..0], m);
    } else {
      var k := |ForwardedEvents(events[..n - 1])|;
      TotalsOfPrefix(events, report, n - 1, m);
      FillLogsOfAppend(report.events, n - 1, m);
      OneEventsShare(events, report, n - 1, m);
      if Forwarded(events[n - 1]) {
        assert results[..k + 1][..k] == results[..k];
      }
    }
  }

  lemma NothingLogged(events: seq<LifecycleEvent>, m: Measure)
    requires events == []
    ensures LogTotal(FillLogs(events), m) == 0.0
  {
  }

  /** Paper totals are replay totals: nothing is gained or lost between the replay and the fill logs. */
  lemma SessionTotalsAreReplayTotals(events: seq<RiskEvent>, report: GatewayReport, m: Measure)
    requires ReportsEveryEvent(events, report)
    ensures LogTotal(FillLogs(report.events), m) == ReplayTotal(ReplayResults(report.gated), m)
  {
    hide ReportsEveryEvent, FillLogs;
    LengthsAgree(events, report);
    TotalsOfPrefix(events, report, |events|, m);
    assert events[..|events|] == events && report.events[..|events|] == report.events;
    assert ReplayResults(report.gated)[..|ReplayResults(report.gated)|] == ReplayResults(report.gated);
  }

  lemma LengthsAgree(events: seq<RiskEvent>, report: GatewayReport)
    requires ReportsEveryEvent(events, report)
    ensures |report.events| == |events| && |ReplayResults(report.gated)| == |ForwardedEvents(events)|
  {
  }
}
