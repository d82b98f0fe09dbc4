/** Transaction-cost analysis of paper fills against arrival quotes (execution/paper.py). */
module PaperTca {
  import opened Contracts
  import opened InstrumentMaster
  import opened Orders
  import opened RiskContracts
  import opened ReplayInputs
  import opened ReplayEngine
  import opened ReplayAccounting
  import opened Gateway
  import opened Paper
  import StreamHealth

  /** A streamed quote. */
  type Quote = q: StreamHealth.StreamEvent | q.QuoteEvent?
    witness StreamHealth.QuoteEvent(StreamHealth.Envelope(0, 0, 0, 0, None, 0), 0, 0, 0.0, 0.0, None)

  // ------------------------------------------------------------ arrival quotes

  predicate Before(a: Quote, b: Quote) {
    a.envelope.eventTs < b.envelope.eventTs || (a.envelope.eventTs == b.envelope.eventTs && a.quoteId < b.quoteId)
  }

  predicate IsCandidate(e: LifecycleEvent, q: Quote) {
    q.instrumentId == e.instrumentId && q.envelope.venueId == e.venueId && q.envelope.eventTs <= e.submittedAt
  }

  /** The latest quote of the order's market known at submission. */
  function ArrivalQuote(e: LifecycleEvent, quotes: seq<Quote>): (r: Option<Quote>)
    ensures r.None? <==> forall q :: q in quotes ==> !IsCandidate(e, q)
    ensures r.Some? ==> r.value in quotes && IsCandidate(e, r.value)
    ensures r.Some? ==> forall q :: q in quotes && IsCandidate(e, q) ==> !Before(r.value, q)
  {
    if quotes == [] then None
    else
      var n := |quotes| - 1;
      var before := ArrivalQuote(e, quotes[..n]);
      assert quotes == quotes[..n] + [quotes[n]];
      if IsCandidate(e, quotes[n]) && (before.None? || Before(before.value, quotes[n])) then Some(quotes[n]) else before
  }

  /** The quote in full: of the order's instrument and venue, no later than the submission, and no other such quote is
    * later, nor has a greater id at the same time. */
  lemma ArrivalMeaning(e: LifecycleEvent, quotes: seq<Quote>)
    ensures ArrivalQuote(e, quotes).None? <==> forall q :: q in quotes ==>
      !(q.instrumentId == e.instrumentId && q.envelope.venueId == e.venueId && q.envelope.eventTs <= e.submittedAt)
    ensures ArrivalQuote(e, quotes).Some? ==>
      var a := ArrivalQuote(e, quotes).value;
      && a in quotes && a.instrumentId == e.instrumentId && a.envelope.venueId == e.venueId
      && a.envelope.eventTs <= e.submittedAt
      && forall q :: q in quotes && q.instrumentId == e.instrumentId && q.envelope.venueId == e.venueId ==>
        || q.envelope.eventTs > e.submittedAt || q.envelope.eventTs < a.envelope.eventTs
        || (q.envelope.eventTs == a.envelope.eventTs && q.quoteId <= a.quoteId)
  {
    hide ArrivalQuote;
    assert forall q: Quote :: IsCandidate(e, q) <==>
      (q.instrumentId == e.instrumentId && q.envelope.venueId == e.venueId && q.envelope.eventTs <= e.submittedAt);
  }

  lemma ArrivalOfAppend(e: LifecycleEvent, quotes: seq<Quote>, q: Quote)
    ensures ArrivalQuote(e, quotes + [q])
      == if IsCandidate(e, q) && (ArrivalQuote(e, quotes).None? || Before(ArrivalQuote(e, quotes).value, q))
        then Some(q)
        else ArrivalQuote(e, quotes)
  {
    assert (quotes + [q])[..|quotes|] == quotes;
  }

  /** No quote of any other market, nor one that came after the submission, has an influence. */
  lemma {:induction false} ArrivalIgnoresOtherQuotes(e: LifecycleEvent, quotes: seq<Quote>, q: Quote, at: nat)
    requires at <= |quotes| && !IsCandidate(e, q)
    ensures ArrivalQuote(e, quotes[..at] + [q] + quotes[at..]) == ArrivalQuote(e, quotes)
  {
    hide ArrivalQuote, IsCandidate, Before;
    var more := quotes[..at] + [q] + quotes[at..];
    if at == |quotes| {
      assert more == quotes + [q];
      ArrivalOfAppend(e, quotes, q);
    } else {
      var n := |quotes| - 1;
      var inner := quotes[..n][..at] + [q] + quotes[..n][at..];
      ArrivalIgnoresOtherQuotes(e, quotes[..n], q, at);
      assert more == inner + [quotes[n]] && quotes == quotes[..n] + [quotes[n]];
      ArrivalOfAppend(e, inner, quotes[n]);
      ArrivalOfAppend(e, quotes[..n], quotes[n]);
    }
  }

  // ------------------------------------------------------------ rows

  datatype TcaRow = TcaRow(
    riskCheckId: RiskCheckId,
    quoteId: Option<CanonicalId>,
    referencePrice: real,
    feeCost: real,
    predictedSpreadSlippage: real,
    predictedTotal: real,
    realizedSpreadSlippage: real,
    realizedTotal: real,
    spreadSlippageError: real,
    totalError: real)

  function AdverseCost(side: OrderSide, reference: real, price: real, quantity: real): real {
    if side == Buy then (price - reference) * quantity else (reference - price) * quantity
  }

  function ReferencePrice(e: LifecycleEvent, quote: Option<Quote>): real
    requires e.arrivalReferencePrice.Some?
  {
    if quote.Some? then (quote.value.bestBid + quote.value.bestAsk) / 2.0 else e.arrivalReferencePrice.value
  }

  function MakeTcaRow(e: LifecycleEvent, quote: Option<Quote>): TcaRow
    requires e.IsFill() && e.Consistent()
  {
    var reference := ReferencePrice(e, quote);
    var realized := AdverseCost(e.side, reference, e.fillPrice.value, e.filledQuantity);
    var predicted := e.spreadCost + e.slippageCost;
    TcaRow(e.riskCheckId, if quote.Some? then Some(quote.value.quoteId) else None, reference, e.feeCost, predicted,
      e.feeCost + predicted, realized, e.feeCost + realized, realized - predicted,
      (e.feeCost + realized) - (e.feeCost + predicted))
  }

  /** A row compares the price filled at with the arrival mid, or the price the order met when there is no quote; the
    * prediction is the spread and slippage charged. */
  ghost predicate RowSays(row: TcaRow, e: LifecycleEvent, quote: Option<Quote>)
    requires e.IsFill() && e.Consistent()
  {
    && row.riskCheckId == e.riskCheckId && row.feeCost == e.feeCost
    && (if quote.Some? then
          row.quoteId == Some(quote.value.quoteId)
          && 2.0 * row.referencePrice == quote.value.bestBid + quote.value.bestAsk
        else row.quoteId.None? && row.referencePrice == e.arrivalReferencePrice.value)
    && row.realizedSpreadSlippage
      == (if e.side == Buy then 1.0 else -1.0) * ((e.fillPrice.value - row.referencePrice) * e.filledQuantity)
    && row.predictedSpreadSlippage == e.spreadCost + e.slippageCost && row.predictedTotal == e.totalCost
    && row.realizedTotal == row.feeCost + row.realizedSpreadSlippage
    && row.spreadSlippageError == row.totalError == row.realizedTotal - row.predictedTotal
  }

  lemma RowMeaning(e: LifecycleEvent, quote: Option<Quote>)
    requires e.IsFill() && e.Consistent()
    ensures RowSays(MakeTcaRow(e, quote), e, quote)
  {
    AdverseSign(e.fillPrice.value, MakeTcaRow(e, quote).referencePrice, e.filledQuantity);
  }

  lemma AdverseSign(price: real, reference: real, quantity: real)
    ensures (reference - price) * quantity == -1.0 * ((price - reference) * quantity)
  {
  }

  /** The notionals of a fill differ by exactly its spread and slippage. */
  predicate PriceExplained(e: LifecycleEvent) {
    && e.Consistent() && e.IsFill()
    && e.effectiveNotional ==
      if e.side == Buy then e.referenceNotional + e.spreadCost + e.slippageCost
      else e.referenceNotional - e.spreadCost - e.slippageCost
  }

  lemma FillEventIsExplained(e: RiskEvent, r: OrderResult)
    requires e.approvedIntent.Some? && IsApproval(e.decision) && ResultOf(r, e.approvedIntent.value) && r.IsFill()
      && SettlesExactly(r)
    ensures PriceExplained(MakeLifecycleEvent(e, Some(r)))
  {
  }

  /** Every fill a gateway reports is explained. */
  lemma GatewayFillsAreExplained(bars: seq<OHLCTVBar>, events: seq<RiskEvent>, costs: Option<ExecutionCostModel>,
                                 snapshot: Option<Snapshot>, account: Option<SimulatedAccountState>,
                                 report: GatewayReport, i: nat)
    requires Gated(bars, events, costs, snapshot, account) == Ok(report.gated) && ReportsEveryEvent(events, report)
    requires i < |events| && report.events[i].IsFill()
    ensures PriceExplained(report.events[i])
  {
    hide Gated, ResultOf, Replayed, IntentsOf, BlockedEvents, SettlesExactly, PriceExplained;
    GatedIsReplay(bars, events, costs, snapshot, account);
    if Forwarded(events[i]) {
      var k := |ForwardedEvents(events[..i])|;
      ForwardedRank(events, i);
      EventCarriesResult(events[i], ReplayResults(report.gated)[k], FilledQuantity);
      RunSettlesExactly(ApprovedIntents(events), bars, costs, ContextOf(snapshot, account), StartOf(account), k);
      FillEventIsExplained(events[i], ReplayResults(report.gated)[k]);
    }
  }

  lemma AdverseCostByNotionals(side: OrderSide, reference: real, arrival: real, price: real, quantity: real)
    ensures AdverseCost(side, reference, price, quantity)
      == if side == Buy then price * quantity - arrival * quantity + (arrival - reference) * quantity
        else arrival * quantity - price * quantity - (arrival - reference) * quantity
  {
  }

  /** The prediction error is exactly the gap between the replay's arrival price and the arrival mid, signed by side. */
  lemma ErrorIsQuoteGap(e: LifecycleEvent, quote: Option<Quote>)
    requires PriceExplained(e)
    ensures var row, gap := MakeTcaRow(e, quote),
      (e.arrivalReferencePrice.value - ReferencePrice(e, quote)) * e.filledQuantity;
      && row.spreadSlippageError == (if e.side == Buy then gap else -gap)
      && row.totalError == row.spreadSlippageError
  {
    AdverseCostByNotionals(e.side, ReferencePrice(e, quote), e.arrivalReferencePrice.value, e.fillPrice.value,
      e.filledQuantity);
  }

  /** Without an arrival quote the prediction is exact, for buys and for sells. */
  lemma NoQuoteNoError(e: LifecycleEvent, quotes: seq<Quote>)
    requires PriceExplained(e) && forall q :: q in quotes ==> !IsCandidate(e, q)
    ensures MakeTcaRow(e, ArrivalQuote(e, quotes)).spreadSlippageError == 0.0
  {
    ErrorIsQuoteGap(e, None);
  }

  // ------------------------------------------------------------ the report

  datatype IssueCode = MissingArrivalQuote | RiskBlocked | RejectedByGateway | UnfilledByGateway

  datatype TcaIssue = TcaIssue(code: IssueCode, riskCheckId: RiskCheckId)

  function RowsOf(events: seq<LifecycleEvent>, quotes: seq<Quote>): seq<TcaRow>
    requires forall k :: 0 <= k < |events| ==> events[k].Consistent()
  {
    if events == [] then []
    else
      var last := events[|events| - 1];
      RowsOf(events[..|events| - 1], quotes) + if last.IsFill() then [MakeTcaRow(last, ArrivalQuote(last, quotes))]
        else []
  }

  function IssueOf(e: LifecycleEvent, quotes: seq<Quote>): Option<TcaIssue> {
    match e.status
    case Blocked => Some(TcaIssue(RiskBlocked, e.riskCheckId))
    case GatewayRejected => Some(TcaIssue(RejectedByGateway, e.riskCheckId))
    case GatewayUnfilled => Some(TcaIssue(UnfilledByGateway, e.riskCheckId))
    case _ => if ArrivalQuote(e, quotes).None? then Some(TcaIssue(MissingArrivalQuote, e.riskCheckId)) else None
  }

  function IssuesOf(events: seq<LifecycleEvent>, quotes: seq<Quote>): seq<TcaIssue> {
    if events == [] then []
    else
      var issue := IssueOf(events[|events| - 1], quotes);
      IssuesOf(events[..|events| - 1], quotes) + if issue.Some? then [issue.value] else []
  }

  function PredictedTotal(rows: seq<TcaRow>): real {
    if rows == [] then 0.0 else PredictedTotal(rows[..|rows| - 1]) + rows[|rows| - 1].predictedTotal
  }

  function RealizedTotal(rows: seq<TcaRow>): real {
    if rows == [] then 0.0 else RealizedTotal(rows[..|rows| - 1]) + rows[|rows| - 1].realizedTotal
  }

  function ErrorTotal(rows: seq<TcaRow>): real {
    if rows == [] then 0.0 else ErrorTotal(rows[..|rows| - 1]) + rows[|rows| - 1].totalError
  }

  function FeeTotal(rows: seq<TcaRow>): real {
    if rows == [] then 0.0 else FeeTotal(rows[..|rows| - 1]) + rows[|rows| - 1].feeCost
  }

  datatype TcaReport = TcaReport(
    rows: seq<TcaRow>, issues: seq<TcaIssue>, feeCostTotal: real, predictedTotalCost: real, realizedTotalCost: real,
    totalError: real)

  /** Rows for fills and issues for everything that could not be analysed, in event order. */
  method MakeTcaReport(events: seq<LifecycleEvent>, quotes: seq<Quote>) returns (report: TcaReport)
    requires forall k :: 0 <= k < |events| ==> events[k].Consistent()
    ensures report.rows == RowsOf(events, quotes) && report.issues == IssuesOf(events, quotes)
    ensures report.feeCostTotal == FeeTotal(report.rows) && report.predictedTotalCost == PredictedTotal(report.rows)
    ensures report.realizedTotalCost == RealizedTotal(report.rows) && report.totalError == ErrorTotal(report.rows)
  {
    hide LifecycleEvent.Consistent, MakeTcaRow, ArrivalQuote;
    var rows: seq<TcaRow>, issues: seq<TcaIssue> := [], [];
    for i := 0 to |events|
      invariant rows == RowsOf(events[..i], quotes) && issues == IssuesOf(events[..i], quotes)
    {
      assert events[..i + 1][..i] == events[..i];
      var e := events[i];
      match e.status {
        case Blocked =>
          issues := issues + [TcaIssue(RiskBlocked, e.riskCheckId)];
          assert RowsOf(events[..i + 1], quotes) == rows + [];
        case GatewayRejected =>
          issues := issues + [TcaIssue(RejectedByGateway, e.riskCheckId)];
          assert RowsOf(events[..i + 1], quotes) == rows + [];
        case GatewayUnfilled =>
          issues := issues + [TcaIssue(UnfilledByGateway, e.riskCheckId)];
          assert RowsOf(events[..i + 1], quotes) == rows + [];
        case _ =>
          var quote := ArrivalQuote(e, quotes);
          if quote.None? {
            issues := issues + [TcaIssue(MissingArrivalQuote, e.riskCheckId)];
          } else {
            assert IssuesOf(events[..i + 1], quotes) == issues + [];
          }
          rows := rows + [MakeTcaRow(e, quote)];
      }
    }
    assert events[..|events|] == events;
    report := TcaReport(rows, issues, FeeTotal(rows), PredictedTotal(rows), RealizedTotal(rows), ErrorTotal(rows));
  }

  function CountUnquoted(events: seq<LifecycleEvent>, quotes: seq<Quote>): nat {
    if events == [] then 0
    else
      var last := events[|events| - 1];
      CountUnquoted(events[..|events| - 1], quotes) + if last.IsFill() && ArrivalQuote(last, quotes).None? then 1 else 0
  }

  /** One row per fill; one issue per unfilled event and per fill without an arrival quote. */
  lemma {:induction false} RowsAndIssuesCoverEvents(events: seq<LifecycleEvent>, quotes: seq<Quote>)
    requires forall k :: 0 <= k < |events| ==> events[k].Consistent()
    ensures |RowsOf(events, quotes)| == |FillLogs(events)|
    ensures |IssuesOf(events, quotes)| == |RejectionLogs(events)| + CountUnquoted(events, quotes)
  {
    hide LifecycleEvent.Consistent, MakeTcaRow, ArrivalQuote;
    if events != [] {
      RowsAndIssuesCoverEvents(events[..|events| - 1], quotes);
    }
  }

  lemma RowRestatesEvent(e: LifecycleEvent, quote: Option<Quote>)
    requires e.Consistent() && e.IsFill()
    ensures var row := MakeTcaRow(e, quote);
      row.feeCost == e.feeCost && row.predictedTotal == e.totalCost
        && row.totalError == row.realizedTotal - row.predictedTotal
  {
  }

  /** The report's totals agree with the session's, and its error is realised minus predicted. */
  lemma {:induction false} TcaTotalsAreSessionTotals(events: seq<LifecycleEvent>, quotes: seq<Quote>)
    requires forall k :: 0 <= k < |events| ==> events[k].Consistent()
    ensures FeeTotal(RowsOf(events, quotes)) == LogTotal(FillLogs(events), FeeCost)
    ensures PredictedTotal(RowsOf(events, quotes)) == LogTotal(FillLogs(events), TotalCost)
    ensures ErrorTotal(RowsOf(events, quotes)) == RealizedTotal(RowsOf(events, quotes))
      - PredictedTotal(RowsOf(events, quotes))
  {
    hide LifecycleEvent.Consistent, MakeTcaRow, ArrivalQuote;
    if events != [] {
      var n := |events| - 1;
      var last, before, logged := events[n], RowsOf(events[..n], quotes), FillLogs(events[..n]);
      TcaTotalsAreSessionTotals(events[..n], quotes);
      if last.IsFill() {
        var row := MakeTcaRow(last, ArrivalQuote(last, quotes));
        RowRestatesEvent(last, ArrivalQuote(last, quotes));
        assert (before + [row])[..|before|] == before && (logged + [last])[..|logged|] == logged;
      } else {
        assert before + [] == before && logged + [] == logged;
      }
    }
  }

  /** Without arrival quotes for any fill, the whole report's error is zero. */
  lemma {:induction false} UnquotedReportHasNoError(events: seq<LifecycleEvent>, quotes: seq<Quote>)
    requires forall k :: 0 <= k < |events| ==>
      events[k].Consistent() && (events[k].IsFill() ==> PriceExplained(events[k]))
    requires forall k, q :: 0 <= k < |events| && q in quotes ==> !IsCandidate(events[k], q)
    ensures ErrorTotal(RowsOf(events, quotes)) == 0.0
  {
    hide LifecycleEvent.Consistent, MakeTcaRow, ArrivalQuote, PriceExplained, IsCandidate;
    if events != [] {
      var n := |events| - 1;
      var last, before := events[n], RowsOf(events[..n], quotes);
      UnquotedReportHasNoError(events[..n], quotes);
      if last.IsFill() {
        NoQuoteNoError(last, quotes);
        RowErrorsAgree(last, ArrivalQuote(last, quotes));
        assert (before + [MakeTcaRow(last, ArrivalQuote(last, quotes))])[..|before|] == before;
      } else {
        assert before + [] == before;
      }
    }
  }

  lemma RowErrorsAgree(e: LifecycleEvent, quote: Option<Quote>)
    requires e.Consistent() && e.IsFill()
    ensures MakeTcaRow(e, quote).totalError == MakeTcaRow(e, quote).spreadSlippageError
  {
  }
}
