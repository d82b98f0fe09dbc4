/** Stateful stream-health evaluation and the fail-closed data-health gate (stream_health.py). */
module StreamHealth {
  import opened Contracts

  datatype Envelope = Envelope(
    subscriptionId: CanonicalId,
    sourceId: CanonicalId,
    venueId: CanonicalId,
    eventTs: Timestamp,
    sourceTs: Option<Timestamp>,
    rawPayloadId: CanonicalId)

  datatype StreamEvent =
    | TradeEvent(envelope: Envelope, tradeId: CanonicalId, instrumentId: CanonicalId, seqNo: Option<nat>)
    | QuoteEvent(envelope: Envelope, quoteId: CanonicalId, instrumentId: CanonicalId, bestBid: NonNegativeDecimal,
                 bestAsk: NonNegativeDecimal, seqNo: Option<nat>)
    | OrderBookEvent(envelope: Envelope, bookEventId: CanonicalId, instrumentId: CanonicalId, seqNo: Option<nat>)
    | HeartbeatEvent(envelope: Envelope)
    | LifecycleEvent(envelope: Envelope)

  datatype Channel = Trades | Quotes | OrderBook | Heartbeat | Lifecycle

  datatype Scope = Scope(
    subscriptionId: CanonicalId,
    sourceId: CanonicalId,
    venueId: CanonicalId,
    channel: Channel,
    instrumentId: Option<CanonicalId>)

  function ScopeFor(event: StreamEvent): Scope {
    var (channel, instrumentId) := match event
      case TradeEvent(_, _, i, _) => (Trades, Some(i))
      case QuoteEvent(_, _, i, _, _, _) => (Quotes, Some(i))
      case OrderBookEvent(_, _, i, _) => (OrderBook, Some(i))
      case HeartbeatEvent(_) => (Heartbeat, None)
      case LifecycleEvent(_) => (Lifecycle, None);
    Scope(event.envelope.subscriptionId, event.envelope.sourceId, event.envelope.venueId, channel, instrumentId)
  }

  function EventIdFor(event: StreamEvent): CanonicalId {
    match event
    case TradeEvent(_, id, _, _) => id
    case QuoteEvent(_, id, _, _, _, _) => id
    case OrderBookEvent(_, id, _, _) => id
    case HeartbeatEvent(e) => e.rawPayloadId
    case LifecycleEvent(e) => e.rawPayloadId
  }

  function SequenceFor(event: StreamEvent): Option<nat> {
    if event.HeartbeatEvent? || event.LifecycleEvent? then None else event.seqNo
  }

  datatype Check = Freshness | SequenceGap | Duplicate | TimestampDrift

  datatype MetricName = FreshnessAge | StaleEvent | SequenceGapSize | DuplicateEvent | TimestampDriftAge

  datatype Metric = Metric(name: MetricName, value: int, threshold: int, breached: bool, check: Check)

  datatype Issue = Issue(check: Check, metricName: MetricName, observed: int, threshold: int)

  datatype HealthStatus = Healthy | Degraded

  datatype HealthRecord = HealthRecord(
    eventId: CanonicalId,
    seqNo: Option<nat>,
    scope: Scope,
    evaluationTs: Timestamp,
    eventTs: Timestamp,
    sourceTs: Option<Timestamp>,
    status: HealthStatus,
    metrics: seq<Metric>,
    issues: seq<Issue>)

  datatype HealthPolicy = HealthPolicy(maxEventAge: nat, maxTimestampDrift: nat)

  // ------------------------------------------------------------ one scope, as a value

  /** What the evaluator remembers about one scope. */
  datatype ScopeState = ScopeState(last: Option<nat>, ids: set<CanonicalId>, numbers: set<nat>)

  const FRESH := ScopeState(None, {}, {})

  predicate IsDuplicate(s: ScopeState, event: StreamEvent) {
    || EventIdFor(event) in s.ids
    || (SequenceFor(event).Some? && SequenceFor(event).value in s.numbers)
  }

  function GapOf(s: ScopeState, event: StreamEvent): nat {
    match (SequenceFor(event), s.last)
    case (Some(n), Some(last)) => if n > last + 1 then n - last - 1 else 0
    case _ => 0
  }

  function Remember(s: ScopeState, event: StreamEvent): ScopeState {
    match SequenceFor(event)
    case None => s.(ids := s.ids + {EventIdFor(event)})
    case Some(n) =>
      ScopeState(
        if s.last.None? || n > s.last.value then Some(n) else s.last,
        s.ids + {EventIdFor(event)},
        s.numbers + {n})
  }

  function Flag(breached: bool): int {
    if breached then 1 else 0
  }

  function AgeOf(event: StreamEvent, evaluationTs: Timestamp): nat {
    if evaluationTs - event.envelope.eventTs > 0 then evaluationTs - event.envelope.eventTs else 0
  }

  function DriftOf(event: StreamEvent, evaluationTs: Timestamp): nat {
    var reference := if event.envelope.sourceTs.Some? then event.envelope.sourceTs.value else event.envelope.eventTs;
    if evaluationTs >= reference then evaluationTs - reference else reference - evaluationTs
  }

  function MetricsFor(policy: HealthPolicy, age: nat, drift: nat, duplicate: bool, gap: nat): seq<Metric> {
    var stale, drifted := age > policy.maxEventAge, drift > policy.maxTimestampDrift;
    [Metric(FreshnessAge, age, policy.maxEventAge, stale, Freshness),
     Metric(StaleEvent, Flag(stale), 0, stale, Freshness),
     Metric(TimestampDriftAge, drift, policy.maxTimestampDrift, drifted, TimestampDrift),
     Metric(DuplicateEvent, Flag(duplicate), 0, duplicate, Duplicate),
     Metric(SequenceGapSize, gap, 0, gap > 0, SequenceGap)]
  }

  function IssueIf(found: bool, issue: Issue): seq<Issue> {
    if found then [issue] else []
  }

  function IssuesFor(policy: HealthPolicy, age: nat, drift: nat, duplicate: bool, gap: nat): seq<Issue> {
    IssueIf(age > policy.maxEventAge, Issue(Freshness, StaleEvent, age, policy.maxEventAge))
    + IssueIf(drift > policy.maxTimestampDrift, Issue(TimestampDrift, TimestampDriftAge, drift,
      policy.maxTimestampDrift))
    + IssueIf(duplicate, Issue(Duplicate, DuplicateEvent, 1, 0))
    + IssueIf(gap > 0, Issue(SequenceGap, SequenceGapSize, gap, 0))
  }

  /** The record one event earns from the state of its own scope. */
  function RecordFor(policy: HealthPolicy, s: ScopeState, event: StreamEvent, evaluationTs: Timestamp): HealthRecord {
    var age, drift := AgeOf(event, evaluationTs), DriftOf(event, evaluationTs);
    var issues := IssuesFor(policy, age, drift, IsDuplicate(s, event), GapOf(s, event));
    HealthRecord(EventIdFor(event), SequenceFor(event), ScopeFor(event), evaluationTs, event.envelope.eventTs,
                 event.envelope.sourceTs, if issues == [] then Healthy else Degraded,
                 MetricsFor(policy, age, drift, IsDuplicate(s, event), GapOf(s, event)), issues)
  }

  // ------------------------------------------------------------ the evaluator

  /** One event and the explicit clock it is evaluated at. */
  datatype Observation = Observation(event: StreamEvent, at: Timestamp)

  /** State of one scope after a whole interleaved trace: only its own events count. */
  function StateAfter(trace: seq<Observation>, scope: Scope): ScopeState {
    if trace == [] then FRESH
    else
      var before := StateAfter(trace[..|trace| - 1], scope);
      var event := trace[|trace| - 1].event;
      if ScopeFor(event) == scope then Remember(before, event) else before
  }

  /** Records emitted along a trace, in order. */
  function RecordsOf(policy: HealthPolicy, trace: seq<Observation>): (r: seq<HealthRecord>)
    ensures |r| == |trace|
  {
    if trace == [] then []
    else
      var before, o := trace[..|trace| - 1], trace[|trace| - 1];
      RecordsOf(policy, before) + [RecordFor(policy, StateAfter(before, ScopeFor(o.event)), o.event, o.at)]
  }

  /** Updates three per-scope dictionaries in place on every event. */
  class StreamHealthEvaluator {
    const policy: HealthPolicy
    var lastSequenceByScope: map<Scope, nat>
    var seenEventIdsByScope: map<Scope, set<CanonicalId>>
    var seenSequencesByScope: map<Scope, set<nat>>
    ghost var trace: seq<Observation>

    /** The dictionaries' content for one scope. */
    ghost function View(scope: Scope): ScopeState
      reads this
    {
      ScopeState(
        if scope in lastSequenceByScope then Some(lastSequenceByScope[scope]) else None,
        if scope in seenEventIdsByScope then seenEventIdsByScope[scope] else {},
        if scope in seenSequencesByScope then seenSequencesByScope[scope] else {})
    }

    /** The dictionaries are exactly what the events seen so far leave behind, in every scope. */
    ghost predicate Valid()
      reads this
    {
      forall scope :: View(scope) == StateAfter(trace, scope)
    }

    constructor (policy: HealthPolicy)
      ensures Valid() && trace == [] && this.policy == policy
    {
      this.policy := policy;
      lastSequenceByScope, seenEventIdsByScope, seenSequencesByScope := map[], map[], map[];
      trace := [];
    }

    /** The duplicate test; entering empty sets for a new scope is invisible to the view. */
    method CheckDuplicate(scope: Scope, event: StreamEvent) returns (duplicate: bool)
      modifies this`seenEventIdsByScope, this`seenSequencesByScope
      ensures forall other :: View(other) == old(View(other))
      ensures scope in seenEventIdsByScope
      ensures SequenceFor(event).Some? ==> scope in seenSequencesByScope
      ensures duplicate == IsDuplicate(View(scope), event)
    {
      if scope !in seenEventIdsByScope {
        seenEventIdsByScope := seenEventIdsByScope[scope := {}];
      }
      duplicate := EventIdFor(event) in seenEventIdsByScope[scope];
      if SequenceFor(event).Some? {
        if scope !in seenSequencesByScope {
          seenSequencesByScope := seenSequencesByScope[scope := {}];
        }
        duplicate := duplicate || SequenceFor(event).value in seenSequencesByScope[scope];
      }
    }

    method Commit(scope: Scope, event: StreamEvent)
      requires scope in seenEventIdsByScope
      requires SequenceFor(event).Some? ==> scope in seenSequencesByScope
      modifies this`lastSequenceByScope, this`seenEventIdsByScope, this`seenSequencesByScope
      ensures View(scope) == Remember(old(View(scope)), event)
      ensures forall other :: other != scope ==> View(other) == old(View(other))
    {
      seenEventIdsByScope := seenEventIdsByScope[scope := seenEventIdsByScope[scope] + {EventIdFor(event)}];
      if SequenceFor(event).Some? {
        var n := SequenceFor(event).value;
        seenSequencesByScope := seenSequencesByScope[scope := seenSequencesByScope[scope] + {n}];
        if scope !in lastSequenceByScope || n > lastSequenceByScope[scope] {
          lastSequenceByScope := lastSequenceByScope[scope := n];
        }
      }
    }

    method FindGap(scope: Scope, event: StreamEvent) returns (gap: nat)
      ensures gap == GapOf(View(scope), event)
    {
      var seqNo := SequenceFor(event);
      if seqNo.Some? && scope in lastSequenceByScope && seqNo.value > lastSequenceByScope[scope] + 1 {
        return seqNo.value - lastSequenceByScope[scope] - 1;
      }
      return 0;
    }

    method Evaluate(event: StreamEvent, evaluationTs: Timestamp) returns (record: HealthRecord)
      requires Valid()
      modifies this
      ensures Valid()
      ensures trace == old(trace) + [Observation(event, evaluationTs)]
      ensures record == RecordFor(policy, StateAfter(old(trace), ScopeFor(event)), event, evaluationTs)
    {
      hide MetricsFor, IssuesFor, AgeOf, DriftOf, Remember, EventIdFor, IsDuplicate, GapOf, StateAfter;
      var scope, seqNo := ScopeFor(event), SequenceFor(event);
      ghost var before := View(scope);
      var duplicate := CheckDuplicate(scope, event);
      var gapSize := FindGap(scope, event);
      assert View(scope) == before;
      var age, drift := AgeOf(event, evaluationTs), DriftOf(event, evaluationTs);
      var metrics, issues := Findings(policy, age, drift, duplicate, gapSize);
      Commit(scope, event);
      assert forall other :: other != scope ==> View(other) == old(View(other));
      trace := trace + [Observation(event, evaluationTs)];
      forall other ensures View(other) == StateAfter(trace, other) {
        StateAppend(old(trace), Observation(event, evaluationTs), other);
      }
      record := HealthRecord(EventIdFor(event), seqNo, scope, evaluationTs, event.envelope.eventTs,
        event.envelope.sourceTs, if issues == [] then Healthy else Degraded, metrics, issues);
    }

    /** Appends each metric and, where it is breached, its issue. */
    static method Findings(policy: HealthPolicy, age: nat, drift: nat, duplicate: bool, gap: nat)
      returns (metrics: seq<Metric>, issues: seq<Issue>)
      ensures metrics == MetricsFor(policy, age, drift, duplicate, gap)
      ensures issues == IssuesFor(policy, age, drift, duplicate, gap)
    {
      issues := [];
      var stale := age > policy.maxEventAge;
      metrics := [Metric(FreshnessAge, age, policy.maxEventAge, stale, Freshness)];
      metrics := metrics + [Metric(StaleEvent, Flag(stale), 0, stale, Freshness)];
      if stale {
        issues := issues + [Issue(Freshness, StaleEvent, age, policy.maxEventAge)];
      }
      var drifted := drift > policy.maxTimestampDrift;
      metrics := metrics + [Metric(TimestampDriftAge, drift, policy.maxTimestampDrift, drifted, TimestampDrift)];
      if drifted {
        issues := issues + [Issue(TimestampDrift, TimestampDriftAge, drift, policy.maxTimestampDrift)];
      }
      metrics := metrics + [Metric(DuplicateEvent, Flag(duplicate), 0, duplicate, Duplicate)];
      if duplicate {
        issues := issues + [Issue(Duplicate, DuplicateEvent, 1, 0)];
      }
      metrics := metrics + [Metric(SequenceGapSize, gap, 0, gap > 0, SequenceGap)];
      if gap > 0 {
        issues := issues + [Issue(SequenceGap, SequenceGapSize, gap, 0)];
      }
    }

    method EvaluateMany(events: seq<StreamEvent>, evaluationTs: Timestamp) returns (records: seq<HealthRecord>)
      requires Valid()
      modifies this
      ensures Valid()
      ensures trace == old(trace) + AllAt(events, evaluationTs)
      ensures RecordsOf(policy, trace) == RecordsOf(policy, old(trace)) + records
    {
      records := [];
      ghost var start, emitted := trace, RecordsOf(policy, trace);
      for i := 0 to |events|
        invariant Valid()
        invariant trace == start + AllAt(events[..i], evaluationTs)
        invariant RecordsOf(policy, trace) == emitted + records
      {
        BatchStep(policy, start, trace, emitted, records, events, i, evaluationTs);
        var record := Evaluate(events[i], evaluationTs);
        records := records + [record];
      }
      assert events[..|events|] == events;
    }
  }

  /** A batch of events under one clock. */
  function AllAt(events: seq<StreamEvent>, at: Timestamp): seq<Observation> {
    if events == [] then [] else AllAt(events[..|events| - 1], at) + [Observation(events[|events| - 1], at)]
  }

  /** One more event of a batch extends both the trace and the emitted records by one. */
  lemma BatchStep(policy: HealthPolicy, start: seq<Observation>, trace: seq<Observation>, emitted: seq<HealthRecord>,
                  records: seq<HealthRecord>, events: seq<StreamEvent>, i: nat, at: Timestamp)
    requires i < |events|
    requires trace == start + AllAt(events[..i], at)
    requires RecordsOf(policy, trace) == emitted + records
    ensures trace + [Observation(events[i], at)] == start + AllAt(events[..i + 1], at)
    ensures var record := RecordFor(policy, StateAfter(trace, ScopeFor(events[i])), events[i], at);
      RecordsOf(policy, trace + [Observation(events[i], at)]) == emitted + (records + [record])
  {
    var o := Observation(events[i], at);
    assert events[..i + 1][..i] == events[..i];
    AppendAssociates(start, AllAt(events[..i], at), o);
    RecordsAppend(policy, trace, o);
    AppendAssociates(emitted, records, RecordFor(policy, StateAfter(trace, ScopeFor(events[i])), events[i], at));
  }

  lemma StateAppend(trace: seq<Observation>, o: Observation, scope: Scope)
    ensures StateAfter(trace + [o], scope)
      == if ScopeFor(o.event) == scope then Remember(StateAfter(trace, scope), o.event) else StateAfter(trace, scope)
  {
    assert (trace + [o])[..|trace|] == trace;
  }

  lemma RecordsAppend(policy: HealthPolicy, trace: seq<Observation>, o: Observation)
    ensures RecordsOf(policy, trace + [o])
      == RecordsOf(policy, trace) + [RecordFor(policy, StateAfter(trace, ScopeFor(o.event)), o.event, o.at)]
  {
    assert (trace + [o])[..|trace|] == trace;
  }

  // ------------------------------------------------------------ scope isolation

  /** The events of one scope, in order. */
  function Only(trace: seq<Observation>, scope: Scope): seq<Observation> {
    if trace == [] then []
    else
      var n := |trace| - 1;
      Only(trace[..n], scope) + if ScopeFor(trace[n].event) == scope then [trace[n]] else []
  }

  function RecordsFor(records: seq<HealthRecord>, scope: Scope): seq<HealthRecord> {
    if records == [] then []
    else
      var n := |records| - 1;
      RecordsFor(records[..n], scope) + if records[n].scope == scope then [records[n]] else []
  }

  /** Appending an event of the scope appends it to the scope's own trace. */
  lemma OnlyAppends(trace: seq<Observation>, scope: Scope)
    requires trace != [] && ScopeFor(trace[|trace| - 1].event) == scope
    ensures Only(trace, scope) != []
    ensures Only(trace, scope)[..|Only(trace, scope)| - 1] == Only(trace[..|trace| - 1], scope)
    ensures Only(trace, scope)[|Only(trace, scope)| - 1] == trace[|trace| - 1]
  {
  }

  lemma {:induction false} StateIgnoresOthers(trace: seq<Observation>, scope: Scope)
    ensures StateAfter(trace, scope) == StateAfter(Only(trace, scope), scope)
    ensures forall o :: o in Only(trace, scope) ==> ScopeFor(o.event) == scope
  {
    if trace != [] {
      var n := |trace| - 1;
      StateIgnoresOthers(trace[..n], scope);
      if ScopeFor(trace[n].event) == scope {
        OnlyAppends(trace, scope);
      } else {
        assert Only(trace, scope) == Only(trace[..n], scope);
      }
    }
  }

  /** Scope isolation: whatever is interleaved, a scope's records are those of a fresh run on its events alone. */
  lemma {:induction false} ScopeIsolation(policy: HealthPolicy, trace: seq<Observation>, scope: Scope)
    ensures RecordsFor(RecordsOf(policy, trace), scope) == RecordsOf(policy, Only(trace, scope))
  {
    if trace != [] {
      var n := |trace| - 1;
      ScopeIsolation(policy, trace[..n], scope);
      var records := RecordsOf(policy, trace);
      assert records[..n] == RecordsOf(policy, trace[..n]);
      assert records[n].scope == ScopeFor(trace[n].event);
      if ScopeFor(trace[n].event) == scope {
        StateIgnoresOthers(trace[..n], scope);
        OnlyAppends(trace, scope);
      } else {
        assert Only(trace, scope) == Only(trace[..n], scope);
      }
    }
  }

  /** Events of one stream: the same subscription, source, venue and kind, and the same instrument where they have
    * one. */
  predicate SameStream(a: StreamEvent, b: StreamEvent) {
    && a.envelope.subscriptionId == b.envelope.subscriptionId && a.envelope.sourceId == b.envelope.sourceId
    && a.envelope.venueId == b.envelope.venueId
    && match a
       case TradeEvent(_, _, instrumentId, _) => b.TradeEvent? && b.instrumentId == instrumentId
       case QuoteEvent(_, _, instrumentId, _, _, _) => b.QuoteEvent? && b.instrumentId == instrumentId
       case OrderBookEvent(_, _, instrumentId, _) => b.OrderBookEvent? && b.instrumentId == instrumentId
       case HeartbeatEvent(_) => b.HeartbeatEvent?
       case LifecycleEvent(_) => b.LifecycleEvent?
  }

  /** The same id of its kind; heartbeats and lifecycle events go by their payload. */
  predicate SameId(a: StreamEvent, b: StreamEvent) {
    || (a.TradeEvent? && b.TradeEvent? && a.tradeId == b.tradeId)
    || (a.QuoteEvent? && b.QuoteEvent? && a.quoteId == b.quoteId)
    || (a.OrderBookEvent? && b.OrderBookEvent? && a.bookEventId == b.bookEventId)
    || (a.HeartbeatEvent? && b.HeartbeatEvent? && a.envelope.rawPayloadId == b.envelope.rawPayloadId)
    || (a.LifecycleEvent? && b.LifecycleEvent? && a.envelope.rawPayloadId == b.envelope.rawPayloadId)
  }

  /** The event carries this sequence number. */
  predicate Numbered(e: StreamEvent, n: nat) {
    (e.TradeEvent? || e.QuoteEvent? || e.OrderBookEvent?) && e.seqNo == Some(n)
  }

  lemma ScopesMeaning(a: StreamEvent, b: StreamEvent)
    ensures ScopeFor(a) == ScopeFor(b) <==> SameStream(a, b)
    ensures SameStream(a, b) ==> (EventIdFor(a) == EventIdFor(b) <==> SameId(a, b))
  {
  }

  lemma SequenceMeaning(e: StreamEvent, n: nat)
    ensures SequenceFor(e) == Some(n) <==> Numbered(e, n)
  {
  }

  /** An earlier event of the same stream with the same id, or with the same non-null sequence number. */
  ghost predicate SeenBefore(trace: seq<Observation>, event: StreamEvent) {
    exists i :: 0 <= i < |trace| && Repeats(trace[i].event, event)
  }

  ghost predicate Repeats(earlier: StreamEvent, event: StreamEvent) {
    SameStream(earlier, event) && (SameId(earlier, event) || exists n :: Numbered(event, n) && Numbered(earlier, n))
  }

  lemma RepeatsMeaning(earlier: StreamEvent, event: StreamEvent)
    ensures Repeats(earlier, event) <==>
      (&& ScopeFor(earlier) == ScopeFor(event)
       && (|| EventIdFor(earlier) == EventIdFor(event)
           || (SequenceFor(event).Some? && SequenceFor(earlier) == SequenceFor(event))))
  {
    hide ScopeFor, EventIdFor, SequenceFor, SameStream, SameId, Numbered;
    ScopesMeaning(earlier, event);
    forall n: nat
      ensures SequenceFor(event) == Some(n) <==> Numbered(event, n)
      ensures SequenceFor(earlier) == Some(n) <==> Numbered(earlier, n)
    {
      SequenceMeaning(event, n);
      SequenceMeaning(earlier, n);
    }
    assert SequenceFor(event).Some? ==> Numbered(event, SequenceFor(event).value);
  }

  lemma {:induction false} MemoryIsHistory(trace: seq<Observation>, scope: Scope)
    ensures forall id :: (id in StateAfter(trace, scope).ids
      <==> exists i :: 0 <= i < |trace| && ScopeFor(trace[i].event) == scope && EventIdFor(trace[i].event) == id)
    ensures forall n: nat :: (n in StateAfter(trace, scope).numbers
      <==> exists i :: 0 <= i < |trace| && ScopeFor(trace[i].event) == scope && SequenceFor(trace[i].event) == Some(n))
  {
    if trace != [] {
      var before := trace[..|trace| - 1];
      MemoryIsHistory(before, scope);
      assert forall i :: 0 <= i < |before| ==> before[i] == trace[i];
    }
  }

  /** A record reports a duplicate exactly when an earlier event of its scope repeats its id or its sequence number. */
  lemma DuplicateIffSeenBefore(policy: HealthPolicy, trace: seq<Observation>, event: StreamEvent, at: Timestamp)
    ensures var record := RecordFor(policy, StateAfter(trace, ScopeFor(event)), event, at);
      (exists issue :: issue in record.issues && issue.check == Duplicate) <==> SeenBefore(trace, event)
  {
    MemoryIsHistory(trace, ScopeFor(event));
    var s := StateAfter(trace, ScopeFor(event));
    var record := RecordFor(policy, s, event, at);
    forall i | 0 <= i < |trace|
      ensures Repeats(trace[i].event, event) <==>
        (&& ScopeFor(trace[i].event) == ScopeFor(event)
         && (|| EventIdFor(trace[i].event) == EventIdFor(event)
             || (SequenceFor(event).Some? && SequenceFor(trace[i].event) == SequenceFor(event))))
    {
      RepeatsMeaning(trace[i].event, event);
    }
    hide Repeats;
    if SeenBefore(trace, event) {
      var i :| 0 <= i < |trace| && Repeats(trace[i].event, event);
      assert IsDuplicate(s, event);
      assert Issue(Duplicate, DuplicateEvent, 1, 0) in record.issues;
    }
    if issue :| issue in record.issues && issue.check == Duplicate {
      assert IsDuplicate(s, event);
    }
  }

  // ------------------------------------------------------------ gap accounting

  /** The gap size a record carries. */
  function ReportedGap(record: HealthRecord): int {
    var gap := FirstMatch(record.metrics, (m: Metric) => m.name == SequenceGapSize);
    if gap.Some? then gap.value.value else 0
  }

  function TotalGap(records: seq<HealthRecord>): int {
    if records == [] then 0 else TotalGap(records[..|records| - 1]) + ReportedGap(records[|records| - 1])
  }

  /** How a sequence number meets the state of its scope. */
  datatype Arrival = Unnumbered | First | Advancing | Late | Repeated

  function ArrivalOf(s: ScopeState, event: StreamEvent): Arrival {
    match (SequenceFor(event), s.last)
    case (None, _) => Unnumbered
    case (Some(_), None) => First
    case (Some(n), Some(last)) =>
      if n > last then Advancing else if n in s.numbers then Repeated else Late
  }

  /** Counts over one scope's events: the first number, the advances after it, and first-time late arrivals above it. */
  datatype Ledger = Ledger(first: nat, advances: nat, lateAboveFirst: nat)

  function LedgerOf(trace: seq<Observation>, scope: Scope): Ledger {
    if trace == [] then Ledger(0, 0, 0)
    else
      var before, event := trace[..|trace| - 1], trace[|trace| - 1].event;
      var l, s := LedgerOf(before, scope), StateAfter(before, scope);
      if ScopeFor(event) != scope then l
      else
        match ArrivalOf(s, event)
        case First => l.(first := SequenceFor(event).value)
        case Advancing => l.(advances := l.advances + 1)
        case Late => if SequenceFor(event).value > l.first then l.(lateAboveFirst := l.lateAboveFirst + 1) else l
        case _ => l
  }

  /** Whole numbers strictly between two bounds. */
  function Between(lo: nat, hi: nat): (r: set<nat>)
    ensures forall n: nat :: n in r <==> lo < n < hi
  {
    if hi <= lo + 1 then {} else Between(lo, hi - 1) + {hi - 1}
  }

  lemma {:induction false} CountBetween(lo: nat, hi: nat)
    requires lo < hi
    ensures |Between(lo, hi)| == hi - lo - 1
  {
    if lo + 1 < hi {
      CountBetween(lo, hi - 1);
    }
  }

  /** Numbers between the first and the greatest that never arrived. */
  function Missing(s: ScopeState, first: nat): set<nat> {
    if s.last.None? then {} else Between(first, s.last.value) - s.numbers
  }

  lemma ReportedGapIsGap(policy: HealthPolicy, s: ScopeState, event: StreamEvent, at: Timestamp)
    ensures ReportedGap(RecordFor(policy, s, event, at)) == GapOf(s, event)
  {
    var metrics := RecordFor(policy, s, event, at).metrics;
    var found := FirstMatch(metrics, (m: Metric) => m.name == SequenceGapSize);
    assert metrics[4] in metrics;
    assert found.Some? && found.value == metrics[4];
  }

  /** What every event keeps: the last number is the greatest seen, and gaps, advances and late arrivals balance. */
  ghost predicate Balanced(s: ScopeState, l: Ledger, gaps: int) {
    match s.last
    case None => s.numbers == {} && l == Ledger(0, 0, 0) && gaps == 0
    case Some(last) =>
      && last in s.numbers && l.first in s.numbers && l.first <= last
      && (forall n :: n in s.numbers ==> n <= last)
      && gaps == last - l.first - l.advances
      && |Missing(s, l.first)| == gaps - l.lateAboveFirst
  }

  lemma BalanceStep(s: ScopeState, l: Ledger, gaps: int, event: StreamEvent, l': Ledger)
    requires Balanced(s, l, gaps)
    requires l' == match ArrivalOf(s, event)
      case First => l.(first := SequenceFor(event).value)
      case Advancing => l.(advances := l.advances + 1)
      case Late => if SequenceFor(event).value > l.first then l.(lateAboveFirst := l.lateAboveFirst + 1) else l
      case _ => l
    ensures Balanced(Remember(s, event), l', gaps + GapOf(s, event))
  {
    MissingStep(s, l.first, event);
  }

  lemma DisjointUnionSize(whole: set<nat>, a: set<nat>, b: set<nat>)
    requires a !! b && forall m: nat :: m in whole <==> m in a || m in b
    ensures |whole| == |a| + |b|
  {
    assert whole == a + b;
  }

  /** Advancing past the greatest number leaves the skipped ones missing. */
  lemma AdvanceAddsGap(s: ScopeState, first: nat, n: nat)
    requires s.last.Some? && first <= s.last.value < n
    requires s.last.value in s.numbers && forall m :: m in s.numbers ==> m <= s.last.value
    ensures |Between(first, n) - (s.numbers + {n})| == |Missing(s, first)| + (n - s.last.value - 1)
  {
    var whole, missing, skipped := Between(first, n) - (s.numbers + {n}), Missing(s, first), Between(s.last.value, n);
    forall m: nat ensures m in whole <==> m in missing || m in skipped {
    }
    CountBetween(s.last.value, n);
    hide Between, Missing;
    DisjointUnionSize(whole, missing, skipped);
  }

  /** A number arriving late for the first time fills one hole, unless it precedes the first. */
  lemma LateFillsHole(s: ScopeState, first: nat, n: nat)
    requires s.last.Some? && n <= s.last.value && n !in s.numbers
    requires first in s.numbers && s.last.value in s.numbers
    ensures |Between(first, s.last.value) - (s.numbers + {n})| == |Missing(s, first)| - if n > first then 1 else 0
  {
    var after := Between(first, s.last.value) - (s.numbers + {n});
    if n > first {
      assert n in Missing(s, first);
      assert after == Missing(s, first) - {n};
    } else {
      assert after == Missing(s, first);
    }
  }

  /** How one event changes the missing numbers. */
  lemma MissingStep(s: ScopeState, first: nat, event: StreamEvent)
    requires s.last.Some? ==> first <= s.last.value && first in s.numbers && s.last.value in s.numbers
    requires s.last.Some? ==> forall n :: n in s.numbers ==> n <= s.last.value
    ensures var s' := Remember(s, event);
      match ArrivalOf(s, event)
      case First => |Missing(s', SequenceFor(event).value)| == 0
      case Advancing => |Missing(s', first)| == |Missing(s, first)| + GapOf(s, event)
      case Late => |Missing(s', first)| == |Missing(s, first)| - if SequenceFor(event).value > first then 1 else 0
      case _ => Missing(s', first) == Missing(s, first)
  {
    hide Between;
    match ArrivalOf(s, event)
    case Unnumbered =>
    case First =>
      NothingBetween(SequenceFor(event).value);
      assert Missing(Remember(s, event), SequenceFor(event).value) == {};
    case Repeated =>
      assert Remember(s, event).numbers == s.numbers;
    case Advancing =>
      AdvanceAddsGap(s, first, SequenceFor(event).value);
    case Late =>
      LateFillsHole(s, first, SequenceFor(event).value);
  }

  lemma NothingBetween(n: nat)
    ensures Between(n, n) == {}
  {
  }

  /** Each event adds the gap of its own arrival to its scope's reported total. */
  lemma TotalGapStep(policy: HealthPolicy, trace: seq<Observation>, scope: Scope)
    requires trace != []
    ensures var n, event := |trace| - 1, trace[|trace| - 1].event;
      TotalGap(RecordsFor(RecordsOf(policy, trace), scope))
        == TotalGap(RecordsFor(RecordsOf(policy, trace[..n]), scope))
          + if ScopeFor(event) == scope then GapOf(StateAfter(trace[..n], scope), event) else 0
  {
    var n := |trace| - 1;
    var records := RecordsOf(policy, trace);
    assert records[..n] == RecordsOf(policy, trace[..n]);
    var mine := RecordsFor(records[..n], scope);
    if ScopeFor(trace[n].event) == scope {
      assert records[n].scope == scope && RecordsFor(records, scope) == mine + [records[n]];
      assert (mine + [records[n]])[..|mine|] == mine;
      ReportedGapIsGap(policy, StateAfter(trace[..n], scope), trace[n].event, trace[n].at);
    } else {
      assert RecordsFor(records, scope) == mine;
    }
  }

  lemma {:induction false} BalancedAlways(policy: HealthPolicy, trace: seq<Observation>, scope: Scope)
    ensures Balanced(StateAfter(trace, scope), LedgerOf(trace, scope),
      TotalGap(RecordsFor(RecordsOf(policy, trace), scope)))
  {
    hide RecordsOf, RecordsFor, TotalGap, GapOf;
    if trace == [] {
      NothingReported(policy, trace, scope);
    } else {
      var n := |trace| - 1;
      BalancedAlways(policy, trace[..n], scope);
      TotalGapStep(policy, trace, scope);
      if ScopeFor(trace[n].event) == scope {
        BalanceStep(StateAfter(trace[..n], scope), LedgerOf(trace[..n], scope),
          TotalGap(RecordsFor(RecordsOf(policy, trace[..n]), scope)),
          trace[n].event, LedgerOf(trace, scope));
      }
    }
  }

  lemma NothingReported(policy: HealthPolicy, trace: seq<Observation>, scope: Scope)
    requires trace == []
    ensures TotalGap(RecordsFor(RecordsOf(policy, trace), scope)) == 0
  {
  }

  /** Gap accounting over any interleaving, read off the records: the last number is the greatest seen, the reported
    * gaps sum to the distance from the first number less the advances, and the numbers still missing are those gaps
    * less the late arrivals that filled them. */
  lemma GapAccounting(policy: HealthPolicy, trace: seq<Observation>, scope: Scope)
    ensures var s, l := StateAfter(trace, scope), LedgerOf(trace, scope);
      var gaps := TotalGap(RecordsFor(RecordsOf(policy, trace), scope));
      && (s.last.None? ==> gaps == 0 && s.numbers == {})
      && (s.last.Some? ==>
        && s.last.value in s.numbers && (forall n :: n in s.numbers ==> n <= s.last.value)
        && gaps == s.last.value - l.first - l.advances
        && |Between(l.first, s.last.value) - s.numbers| == gaps - l.lateAboveFirst)
  {
    hide RecordsOf, RecordsFor, TotalGap, StateAfter, LedgerOf, Between;
    BalancedAlways(policy, trace, scope);
  }

  // ------------------------------------------------------------ what a record says, in raw numbers

  predicate Reports(record: HealthRecord, check: Check) {
    exists issue :: issue in record.issues && issue.check == check
  }

  /** The instant an event's clock is compared with. */
  predicate IsReference(event: StreamEvent, t: Timestamp) {
    t == if event.envelope.sourceTs.None? then event.envelope.eventTs else event.envelope.sourceTs.value
  }

  /** Too old, or too far from the evaluation clock on either side. */
  lemma TimingIssues(policy: HealthPolicy, s: ScopeState, event: StreamEvent, at: Timestamp, reference: Timestamp)
    requires IsReference(event, reference)
    ensures var record := RecordFor(policy, s, event, at);
      && (Reports(record, Freshness) <==> at - event.envelope.eventTs > policy.maxEventAge)
      && (Reports(record, TimestampDrift) <==>
        at - reference > policy.maxTimestampDrift || reference - at > policy.maxTimestampDrift)
      && (record.status == Healthy <==> record.issues == [])
  {
    hide IsDuplicate, GapOf;
    var record := RecordFor(policy, s, event, at);
    var age, drift := AgeOf(event, at), DriftOf(event, at);
    var stale, drifted := Issue(Freshness, StaleEvent, age, policy.maxEventAge),
      Issue(TimestampDrift, TimestampDriftAge, drift, policy.maxTimestampDrift);
    assert age > policy.maxEventAge ==> stale in record.issues;
    assert drift > policy.maxTimestampDrift ==> drifted in record.issues;
  }

  /** The number jumps over the successor of every number seen in its stream before, of which there is one. */
  ghost predicate Skips(trace: seq<Observation>, event: StreamEvent, n: nat) {
    && Numbered(event, n)
    && (exists i, m: nat :: 0 <= i < |trace| && SameStream(trace[i].event, event) && Numbered(trace[i].event, m))
    && (forall i, m: nat :: 0 <= i < |trace| && SameStream(trace[i].event, event) && Numbered(trace[i].event, m) ==>
      m + 1 < n)
  }

  lemma SeenNumbers(trace: seq<Observation>, event: StreamEvent, m: nat)
    ensures m in StateAfter(trace, ScopeFor(event)).numbers <==>
      exists i :: 0 <= i < |trace| && SameStream(trace[i].event, event) && Numbered(trace[i].event, m)
  {
    hide ScopeFor, SequenceFor, SameStream, Numbered, EventIdFor, SameId;
    MemoryIsHistory(trace, ScopeFor(event));
    forall i | 0 <= i < |trace|
      ensures ScopeFor(trace[i].event) == ScopeFor(event) <==> SameStream(trace[i].event, event)
      ensures SequenceFor(trace[i].event) == Some(m) <==> Numbered(trace[i].event, m)
    {
      ScopesMeaning(trace[i].event, event);
      SequenceMeaning(trace[i].event, m);
    }
  }

  lemma GapIffSkips(policy: HealthPolicy, trace: seq<Observation>, event: StreamEvent, at: Timestamp)
    ensures var record := RecordFor(policy, StateAfter(trace, ScopeFor(event)), event, at);
      Reports(record, SequenceGap) <==> exists n :: Skips(trace, event, n)
  {
    hide StateAfter, ScopeFor, SequenceFor, SameStream, Numbered, RecordFor, Reports, TotalGap, LedgerOf, Between;
    var s := StateAfter(trace, ScopeFor(event));
    var record := RecordFor(policy, s, event, at);
    GapIssueIff(policy, s, event, at);
    GapAccounting(policy, trace, ScopeFor(event));
    forall n: nat ensures SequenceFor(event) == Some(n) <==> Numbered(event, n) {
      SequenceMeaning(event, n);
    }
    forall i, m: nat | 0 <= i < |trace| && SameStream(trace[i].event, event) && Numbered(trace[i].event, m)
      ensures s.last.Some? && m <= s.last.value
    {
      SeenNumbers(trace, event, m);
    }
    if GapOf(s, event) > 0 {
      SeenNumbers(trace, event, s.last.value);
      assert Skips(trace, event, SequenceFor(event).value);
    }
    if n :| Skips(trace, event, n) {
      SeenNumbers(trace, event, s.last.value);
      assert s.last.value + 1 < n;
    }
  }

  lemma GapIssueIff(policy: HealthPolicy, s: ScopeState, event: StreamEvent, at: Timestamp)
    ensures Reports(RecordFor(policy, s, event, at), SequenceGap) <==> GapOf(s, event) > 0
  {
    hide IsDuplicate, GapOf;
    var record := RecordFor(policy, s, event, at);
    assert GapOf(s, event) > 0 ==> Issue(SequenceGap, SequenceGapSize, GapOf(s, event), 0) in record.issues;
  }

  /** One metric of each name, in this order, with the value and threshold it measures. */
  ghost predicate MetricsTell(record: HealthRecord, policy: HealthPolicy, event: StreamEvent, at: Timestamp,
                              reference: Timestamp, gap: nat)
  {
    var age := at - event.envelope.eventTs;
    && |record.metrics| == 5
    && (forall m :: m in record.metrics ==> m.breached == Reports(record, m.check))
    && Tells(record.metrics[0], FreshnessAge, if age > 0 then age else 0, policy.maxEventAge, Freshness)
    && Tells(record.metrics[1], StaleEvent, if Reports(record, Freshness) then 1 else 0, 0, Freshness)
    && Tells(record.metrics[2], TimestampDriftAge, if at >= reference then at - reference else reference - at,
         policy.maxTimestampDrift, TimestampDrift)
    && Tells(record.metrics[3], DuplicateEvent, if Reports(record, Duplicate) then 1 else 0, 0, Duplicate)
    && Tells(record.metrics[4], SequenceGapSize, gap, 0, SequenceGap)
  }

  predicate Tells(m: Metric, name: MetricName, value: int, threshold: int, check: Check) {
    m.name == name && m.value == value && m.threshold == threshold && m.check == check
  }

  /** Each issue repeats the measurement that was over its threshold; a stale event is reported with its age. */
  ghost predicate IssuesTell(record: HealthRecord, policy: HealthPolicy, event: StreamEvent, at: Timestamp,
                             reference: Timestamp, gap: nat)
  {
    forall issue :: issue in record.issues ==>
      match issue.check
      case Freshness => issue == Issue(Freshness, StaleEvent, at - event.envelope.eventTs, policy.maxEventAge)
      case TimestampDrift =>
        && issue.metricName == TimestampDriftAge && issue.threshold == policy.maxTimestampDrift
        && (issue.observed == at - reference || issue.observed == reference - at) && issue.observed > 0
      case Duplicate => issue == Issue(Duplicate, DuplicateEvent, 1, 0)
      case SequenceGap => issue == Issue(SequenceGap, SequenceGapSize, gap, 0) && gap > 0
  }

  lemma RecordTells(policy: HealthPolicy, s: ScopeState, event: StreamEvent, at: Timestamp, reference: Timestamp)
    requires IsReference(event, reference)
    ensures MetricsTell(RecordFor(policy, s, event, at), policy, event, at, reference, GapOf(s, event))
    ensures IssuesTell(RecordFor(policy, s, event, at), policy, event, at, reference, GapOf(s, event))
  {
    hide RecordFor, MetricsTell, IssuesTell;
    MetricsAreTold(policy, s, event, at, reference);
    IssuesAreTold(policy, s, event, at, reference);
  }

  lemma MetricsAreTold(policy: HealthPolicy, s: ScopeState, event: StreamEvent, at: Timestamp, reference: Timestamp)
    requires IsReference(event, reference)
    ensures MetricsTell(RecordFor(policy, s, event, at), policy, event, at, reference, GapOf(s, event))
  {
    hide IsDuplicate, GapOf, Reports, IssuesFor;
    TimingIssues(policy, s, event, at, reference);
    GapIssueIff(policy, s, event, at);
    DuplicateIssueIff(policy, s, event, at);
  }

  lemma IssuesAreTold(policy: HealthPolicy, s: ScopeState, event: StreamEvent, at: Timestamp, reference: Timestamp)
    requires IsReference(event, reference)
    ensures IssuesTell(RecordFor(policy, s, event, at), policy, event, at, reference, GapOf(s, event))
  {
    hide IsDuplicate, GapOf, MetricsFor;
  }

  lemma DuplicateIssueIff(policy: HealthPolicy, s: ScopeState, event: StreamEvent, at: Timestamp)
    ensures Reports(RecordFor(policy, s, event, at), Duplicate) <==> IsDuplicate(s, event)
  {
    hide IsDuplicate, GapOf;
    var record := RecordFor(policy, s, event, at);
    assert IsDuplicate(s, event) ==> Issue(Duplicate, DuplicateEvent, 1, 0) in record.issues;
  }

  /** The gap measured: from the greatest number seen before in the stream up to the event's own. */
  ghost predicate GapBefore(trace: seq<Observation>, event: StreamEvent, gap: nat) {
    if exists n :: Skips(trace, event, n) then
      exists i, m: nat, n: nat :: Skips(trace, event, n) && 0 <= i < |trace| && SameStream(trace[i].event, event)
        && Numbered(trace[i].event, m) && gap == n - m - 1
        && forall j, other: nat ::
             0 <= j < |trace| && SameStream(trace[j].event, event) && Numbered(trace[j].event, other) ==> other <= m
    else gap == 0
  }

  lemma GapIsBefore(trace: seq<Observation>, event: StreamEvent)
    ensures GapBefore(trace, event, GapOf(StateAfter(trace, ScopeFor(event)), event))
  {
    hide StateAfter, ScopeFor, SequenceFor, SameStream, Numbered, RecordFor, Reports, TotalGap, LedgerOf, Between,
      Skips;
    var policy := HealthPolicy(0, 0);
    var s := StateAfter(trace, ScopeFor(event));
    GapIffSkips(policy, trace, event, 0);
    GapIssueIff(policy, s, event, 0);
    GapAccounting(policy, trace, ScopeFor(event));
    if n :| Skips(trace, event, n) {
      SkipsNumber(trace, event, n);
      var m := s.last.value;
      SeenNumbers(trace, event, m);
      var i :| 0 <= i < |trace| && SameStream(trace[i].event, event) && Numbered(trace[i].event, m);
      forall j, other: nat | 0 <= j < |trace| && SameStream(trace[j].event, event) && Numbered(trace[j].event, other)
        ensures other <= m
      {
        SeenNumbers(trace, event, other);
      }
      assert GapOf(s, event) == n - m - 1;
    }
  }

  lemma SkipsNumber(trace: seq<Observation>, event: StreamEvent, n: nat)
    requires Skips(trace, event, n)
    ensures SequenceFor(event) == Some(n)
  {
  }

  /** What the record of event k of a trace says, from the raw times, ids and numbers of the events before it. */
  lemma RecordMeaning(policy: HealthPolicy, trace: seq<Observation>, k: nat, reference: Timestamp) returns (gap: nat)
    requires k < |trace| && IsReference(trace[k].event, reference)
    ensures var r, event, at := RecordsOf(policy, trace)[k], trace[k].event, trace[k].at;
      && (Reports(r, Freshness) <==> at - event.envelope.eventTs > policy.maxEventAge)
      && (Reports(r, TimestampDrift) <==>
        at - reference > policy.maxTimestampDrift || reference - at > policy.maxTimestampDrift)
      && (Reports(r, Duplicate) <==> SeenBefore(trace[..k], event))
      && (Reports(r, SequenceGap) <==> exists n :: Skips(trace[..k], event, n))
      && (r.status == Healthy <==> r.issues == [])
      && GapBefore(trace[..k], event, gap) && MetricsTell(r, policy, event, at, reference, gap)
      && IssuesTell(r, policy, event, at, reference, gap)
  {
    hide RecordsOf, StateAfter, ScopeFor, RecordFor, SeenBefore, Skips, GapBefore, MetricsTell, IssuesTell, GapOf;
    var event, at, s := trace[k].event, trace[k].at, StateAfter(trace[..k], ScopeFor(trace[k].event));
    RecordAt(policy, trace, k);
    TimingIssues(policy, s, event, at, reference);
    DuplicateIffSeenBefore(policy, trace[..k], event, at);
    GapIffSkips(policy, trace[..k], event, at);
    GapIsBefore(trace[..k], event);
    RecordTells(policy, s, event, at, reference);
    gap := GapOf(s, event);
  }

  lemma {:induction false} RecordAt(policy: HealthPolicy, trace: seq<Observation>, k: nat)
    requires k < |trace|
    ensures RecordsOf(policy, trace)[k]
      == RecordFor(policy, StateAfter(trace[..k], ScopeFor(trace[k].event)), trace[k].event, trace[k].at)
  {
    hide RecordFor, StateAfter, ScopeFor;
    var n := |trace| - 1;
    if k < n {
      RecordAt(policy, trace[..n], k);
      assert trace[..n][..k] == trace[..k];
    }
  }

  // ------------------------------------------------------------ data-health gate

  datatype DataHealthStatus = DataHealthy | DataDegraded | DataBlocked

  datatype DataHealthReason = StreamHealthy | CriticalFreshnessStale | CriticalStreamHealthBreach
    | NonCriticalStreamDegraded

  datatype DataHealthSignal = DataHealthSignal(
    status: DataHealthStatus,
    reason: DataHealthReason,
    blocksTrading: bool,
    blockedInstrumentId: Option<CanonicalId>,
    sourceScope: Scope,
    sourceChecks: seq<Check>,
    evaluationTs: Timestamp)

  function ChecksOf(record: HealthRecord): (r: seq<Check>)
    ensures forall c :: c in r <==> exists issue :: issue in record.issues && issue.check == c
  {
    var r := seq(|record.issues|, i requires 0 <= i < |record.issues| => record.issues[i].check);
    assert forall issue :: issue in record.issues ==>
      exists i :: 0 <= i < |r| && record.issues[i] == issue && r[i] == issue.check;
    r
  }

  function GateSignal(criticalChecks: seq<Check>, record: HealthRecord): DataHealthSignal {
    var checks := ChecksOf(record);
    var critical := exists c :: c in checks && c in criticalChecks;
    var (status, reason, blocks) :=
      if record.status == Healthy then (DataHealthy, StreamHealthy, false)
      else if critical then
        (DataBlocked, if Freshness in checks then CriticalFreshnessStale else CriticalStreamHealthBreach, true)
      else (DataDegraded, NonCriticalStreamDegraded, false);
    DataHealthSignal(status, reason, blocks, if blocks then record.scope.instrumentId else None, record.scope, checks,
                     record.evaluationTs)
  }

  /** A record blocks its own instrument, and only then, when one of its issues is critical; the blocked status
    * agrees. */
  lemma GateBlocksExactlyCriticalIssues(criticalChecks: seq<Check>, policy: HealthPolicy, s: ScopeState,
                                        event: StreamEvent, at: Timestamp)
    ensures var record := RecordFor(policy, s, event, at);
      var signal := GateSignal(criticalChecks, record);
      && (signal.blocksTrading <==> exists issue :: issue in record.issues && issue.check in criticalChecks)
      && (signal.blocksTrading <==> signal.status == DataBlocked)
      && (signal.blocksTrading ==> signal.blockedInstrumentId == ScopeFor(event).instrumentId)
      && (Freshness in criticalChecks && at - event.envelope.eventTs > policy.maxEventAge ==>
        signal.blocksTrading && signal.reason == CriticalFreshnessStale)
      && (signal.status == DataHealthy <==> record.issues == [])
      && signal.reason == (
           if record.issues == [] then StreamHealthy
           else if !signal.blocksTrading then NonCriticalStreamDegraded
           else if Reports(record, Freshness) then CriticalFreshnessStale
           else CriticalStreamHealthBreach)
  {
    var record := RecordFor(policy, s, event, at);
    var reference := if event.envelope.sourceTs.Some? then event.envelope.sourceTs.value else event.envelope.eventTs;
    TimingIssues(policy, s, event, at, reference);
    hide RecordFor;
    var checks := ChecksOf(record);
    if issue :| issue in record.issues && issue.check in criticalChecks {
      assert issue.check in checks;
    }
  }
}
