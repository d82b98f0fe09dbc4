/** The durable kill-switch log: an append log folded into an effective state (risk/kill_switch.py). */
module KillSwitch {
  import opened Contracts
  import opened Sorting
  import opened RiskContracts
  import opened RiskEngine

  /** Only the global scope has no id. */
  datatype Scope =
    | GlobalScope
    | AccountScope(id: CanonicalId)
    | VenueScope(id: CanonicalId)
    | InstrumentScope(id: CanonicalId)
    | StrategyScope(id: CanonicalId)

  /** `audit` stands for actor, role, reason, source and incident. */
  datatype Record = Record(
    recordId: CanonicalId,
    scope: Scope,
    priorState: KillSwitchState,
    newState: KillSwitchState,
    transitionedAt: Timestamp,
    audit: CanonicalId,
    cancelOpenOrders: bool)

  /** Ids are content hashes: equal ids mean equal records. */
  ghost predicate IdsIdentify(records: set<Record>) {
    forall a, b :: a in records && b in records && a.recordId == b.recordId ==> a == b
  }

  predicate NoLater(a: Record, b: Record) {
    a.transitionedAt < b.transitionedAt || (a.transitionedAt == b.transitionedAt && a.recordId <= b.recordId)
  }

  predicate IdNoLater(a: Record, b: Record) {
    a.recordId <= b.recordId
  }

  lemma OrdersAreTotal()
    ensures TotalPreorder(NoLater) && TotalPreorder(IdNoLater)
  {
  }

  function Known(records: seq<Record>): set<Record> {
    set r | r in records
  }

  // ------------------------------------------------------------ latest record per scope

  /** The record of a scope that no other of the scope is later than. */
  function Latest(records: seq<Record>, scope: Scope): (r: Option<Record>)
    ensures r.None? <==> forall q :: q in records ==> q.scope != scope
    ensures r.Some? ==> r.value in records && r.value.scope == scope
    ensures r.Some? ==> forall q :: q in records && q.scope == scope ==> NoLater(q, r.value)
  {
    if records == [] then None
    else
      var n := |records| - 1;
      var before := Latest(records[..n], scope);
      assert records == records[..n] + [records[n]];
      if records[n].scope == scope && (before.None? || NoLater(before.value, records[n])) then Some(records[n])
      else before
  }

  lemma LatestIsUnique(records: seq<Record>, r: Record)
    requires IdsIdentify(Known(records)) && r in records
    requires forall q :: q in records && q.scope == r.scope ==> NoLater(q, r)
    ensures Latest(records, r.scope) == Some(r)
  {
    var latest := Latest(records, r.scope).value;
    assert latest in Known(records) && r in Known(records);
    assert NoLater(latest, r) && NoLater(r, latest);
  }

  /** The dictionary holds, per scope, the last of the records seen, and order lists its keys. */
  ghost predicate HoldsLast(seen: seq<Record>, latest: map<Scope, Record>, order: seq<Scope>) {
    && (forall k :: 0 <= k < |seen| ==> seen[k].scope in latest && NoLater(seen[k], latest[seen[k].scope]))
    && (forall scope :: scope in latest ==> latest[scope] in seen && latest[scope].scope == scope && scope in order)
    && (forall j :: 0 <= j < |order| ==> order[j] in latest)
    && (forall i, j :: 0 <= i < j < |order| ==> order[i] != order[j])
  }

  /** Later records overwrite earlier ones of their scope, in (time, id) order; order is the dictionary's insertion
    * order. */
  method LatestRecordsByScope(records: seq<Record>) returns (latest: map<Scope, Record>, order: seq<Scope>)
    requires IdsIdentify(Known(records))
    ensures forall scope :: Latest(records, scope) == if scope in latest then Some(latest[scope]) else None
    ensures forall scope :: scope in latest ==> scope in order
    ensures forall j :: 0 <= j < |order| ==> order[j] in latest
    ensures forall i, j :: 0 <= i < j < |order| ==> order[i] != order[j]
  {
    var sorted := Sort(records, NoLater);
    OrdersAreTotal();
    SortCorrect(records, NoLater);
    latest, order := map[], [];
    for i := 0 to |sorted|
      invariant HoldsLast(sorted[..i], latest, order)
    {
      HoldsLastExtends(sorted, i, latest, order);
      var record := sorted[i];
      order := if record.scope in latest then order else order + [record.scope];
      latest := latest[record.scope := record];
    }
    assert sorted[..|sorted|] == sorted;
    forall scope: Scope ensures Latest(records, scope) == if scope in latest then Some(latest[scope]) else None {
      SameMembers(records, sorted);
      if scope in latest {
        LatestIsUnique(records, latest[scope]);
      }
    }
  }

  lemma HoldsLastExtends(sorted: seq<Record>, i: nat, latest: map<Scope, Record>, order: seq<Scope>)
    requires SortedBy(sorted, NoLater) && i < |sorted| && HoldsLast(sorted[..i], latest, order)
    ensures var record := sorted[i];
      HoldsLast(sorted[..i + 1], latest[record.scope := record], if record.scope in latest then order
        else order + [record.scope])
  {
    var record, seen, more := sorted[i], sorted[..i], sorted[..i + 1];
    assert more == seen + [record];
    forall k | 0 <= k < |more| ensures NoLater(more[k], latest[record.scope := record][more[k].scope]) {
      assert k < i ==> more[k] == seen[k] && NoLater(sorted[k], sorted[i]);
    }
  }

  lemma SameMembers(a: seq<Record>, b: seq<Record>)
    requires multiset(a) == multiset(b)
    ensures forall r :: r in a <==> r in b
  {
    forall r: Record ensures r in a <==> r in b {
      assert r in a <==> r in multiset(a);
      assert r in b <==> r in multiset(b);
    }
  }

  // ------------------------------------------------------------ snapshots

  predicate Applies(scope: Scope, evaluated: set<Scope>) {
    scope in evaluated || scope == GlobalScope
  }

  /** The latest record of every scope that applies. */
  ghost function ActiveSet(known: set<Record>, evaluated: set<Scope>): set<Record> {
    set r | r in known && Applies(r.scope, evaluated) && forall q :: q in known && q.scope == r.scope ==> NoLater(q, r)
  }

  datatype SnapshotReason = Unavailable | Uninitialized | NoApplicableRecord | Loaded

  datatype KillSwitchSnapshot = KillSwitchSnapshot(
    activeState: KillSwitchState, activeRecords: seq<Record>, storeAvailable: bool, reason: SnapshotReason)

  /** What a snapshot says about the records known: the most severe of the applying latest records, which it lists
    * by id. */
  ghost predicate Describes(s: KillSwitchSnapshot, known: set<Record>, evaluated: set<Scope>) {
    var active := ActiveSet(known, evaluated);
    && s.storeAvailable
    && multiset(s.activeRecords) == multiset(active) && SortedBy(s.activeRecords, IdNoLater)
    && if active == {} then
         s.activeState == UnknownFailClosed && s.reason == (if known == {} then Uninitialized else NoApplicableRecord)
       else
         && s.reason == Loaded
         && (exists r :: r in active && r.newState == s.activeState)
         && (forall r :: r in active ==> Severity(r.newState) <= Severity(s.activeState))
  }

  /** An applying record that no record of its scope comes after: by time, and by id at the same time. */
  ghost predicate IsActive(r: Record, known: set<Record>, evaluated: set<Scope>) {
    && r in known && (r.scope in evaluated || r.scope.GlobalScope?)
    && forall q :: q in known && q.scope == r.scope ==>
      q.transitionedAt < r.transitionedAt || (q.transitionedAt == r.transitionedAt && q.recordId <= r.recordId)
  }

  ghost predicate SomeIn(records: seq<Record>, state: KillSwitchState) {
    exists r :: r in records && r.newState == state
  }

  /** The state a list of active records decides, most severe first; no record at all leaves it unknown. */
  ghost predicate Decides(records: seq<Record>, state: KillSwitchState) {
    state ==
      if records == [] || SomeIn(records, UnknownFailClosed) then UnknownFailClosed
      else if SomeIn(records, HaltedState) then HaltedState
      else if SomeIn(records, CancelOnly) then CancelOnly
      else if SomeIn(records, ReduceOnly) then ReduceOnly
      else if SomeIn(records, PauseNewOrders) then PauseNewOrders
      else if SomeIn(records, SoftLimited) then SoftLimited
      else Clear
  }

  lemma MostSevereDecides(records: seq<Record>, state: KillSwitchState)
    requires records == [] ==> state == UnknownFailClosed
    requires records != [] ==> exists r :: r in records && r.newState == state
    requires forall r :: r in records ==> Severity(r.newState) <= Severity(state)
    ensures Decides(records, state)
  {
    if records != [] {
      assert SomeIn(records, state);
    }
  }

  lemma ListedAreActive(s: KillSwitchSnapshot, known: set<Record>, evaluated: set<Scope>)
    requires Describes(s, known, evaluated)
    ensures forall r :: r in s.activeRecords <==> r in ActiveSet(known, evaluated)
  {
    var active := ActiveSet(known, evaluated);
    forall r: Record ensures r in s.activeRecords <==> r in active {
      assert r in s.activeRecords <==> r in multiset(s.activeRecords);
      assert r in active <==> r in multiset(active);
    }
  }

  /** What a snapshot tells: it lists the active records in id order, each once, and its state is unknown before halted
    * before cancel-only before reduce-only before paused before soft-limited before clear. */
  lemma SnapshotMeaning(s: KillSwitchSnapshot, known: set<Record>, evaluated: set<Scope>)
    requires IdsIdentify(known) && Describes(s, known, evaluated)
    ensures forall r :: r in s.activeRecords <==> IsActive(r, known, evaluated)
    ensures forall i, j :: 0 <= i < j < |s.activeRecords| ==>
      s.activeRecords[i].recordId < s.activeRecords[j].recordId
    ensures Decides(s.activeRecords, s.activeState)
    ensures s.storeAvailable
    ensures s.reason ==
      if known == {} then Uninitialized else if s.activeRecords == [] then NoApplicableRecord else Loaded
  {
    hide Decides;
    var active := ActiveSet(known, evaluated);
    ListedAreActive(s, known, evaluated);
    ListedOnce(s.activeRecords, active);
    assert s.activeRecords == [] <==> active == {} by {
      if s.activeRecords != [] {
        assert s.activeRecords[0] in active;
      } else {
        assert forall r :: r !in active;
      }
    }
    MostSevereDecides(s.activeRecords, s.activeState) by {
      if s.activeRecords != [] {
        var r :| r in active && r.newState == s.activeState;
        assert r in s.activeRecords;
      }
    }
  }

  lemma ListedOnce(listed: seq<Record>, active: set<Record>)
    requires multiset(listed) == multiset(active) && SortedBy(listed, IdNoLater)
    requires forall a, b :: a in active && b in active && a.recordId == b.recordId ==> a == b
    ensures forall i, j :: 0 <= i < j < |listed| ==> listed[i].recordId < listed[j].recordId
  {
    forall i, j | 0 <= i < j < |listed| ensures listed[i].recordId < listed[j].recordId {
      assert IdNoLater(listed[i], listed[j]);
      assert listed[i] in multiset(active) && listed[j] in multiset(active);
      TwiceListed(listed, i, j);
      assert multiset(active)[listed[i]] <= 1;
    }
  }

  lemma TwiceListed(listed: seq<Record>, i: nat, j: nat)
    requires i < j < |listed|
    ensures listed[i] == listed[j] ==> multiset(listed)[listed[i]] >= 2
  {
    assert listed == listed[..j] + listed[j..];
    assert listed[i] in listed[..j] && listed[j] in listed[j..];
  }

  /** The snapshot depends on the set of records alone: not on their order in the log, nor on repetitions. */
  lemma SnapshotIsFunctionOfRecords(s: KillSwitchSnapshot, t: KillSwitchSnapshot, known: set<Record>,
                                    evaluated: set<Scope>)
    requires IdsIdentify(known) && Describes(s, known, evaluated) && Describes(t, known, evaluated)
    ensures s == t
  {
    var active := ActiveSet(known, evaluated);
    OrdersAreTotal();
    assert DistinctlyRanked(multiset(active), IdNoLater);
    SortedIsUnique(s.activeRecords, t.activeRecords, IdNoLater);
    if active != {} {
      SeverityIdentifies(s.activeState, t.activeState);
    }
  }

  lemma SeverityIdentifies(a: KillSwitchState, b: KillSwitchState)
    ensures Severity(a) == Severity(b) ==> a == b
  {
  }

  /** Evaluating more scopes never lowers the severity of a query that already matched a record. */
  lemma MoreScopesNeverRelax(s: KillSwitchSnapshot, t: KillSwitchSnapshot, known: set<Record>, few: set<Scope>,
                             many: set<Scope>)
    requires Describes(s, known, few) && Describes(t, known, many) && few <= many
    requires s.reason == Loaded
    ensures t.reason == Loaded && Severity(s.activeState) <= Severity(t.activeState)
  {
    var r :| r in ActiveSet(known, few) && r.newState == s.activeState;
    assert r in ActiveSet(known, many);
  }

  /** A snapshot lists no record, and fails closed, exactly when no record known applies to the query. */
  lemma NoMatchIsUnknown(s: KillSwitchSnapshot, records: seq<Record>, evaluated: set<Scope>)
    requires IdsIdentify(Known(records)) && Describes(s, Known(records), evaluated)
    ensures s.reason != Loaded <==> forall r :: r in records ==> !Applies(r.scope, evaluated)
    ensures s.reason != Loaded ==> s.activeState == UnknownFailClosed && s.activeRecords == []
  {
    var active := ActiveSet(Known(records), evaluated);
    forall r | r in records && Applies(r.scope, evaluated) ensures active != {} {
      var latest := Latest(records, r.scope).value;
      assert latest in active;
    }
    if active == {} {
      assert |multiset(s.activeRecords)| == 0;
    }
  }

  /** The dictionary's values whose scope applies, in insertion order. */
  function MatchingRecords(latest: map<Scope, Record>, order: seq<Scope>, evaluated: set<Scope>): (r: seq<Record>)
    requires forall j :: 0 <= j < |order| ==> order[j] in latest
  {
    if order == [] then []
    else
      var n := |order| - 1;
      MatchingRecords(latest, order[..n], evaluated) + if Applies(order[n], evaluated) then [latest[order[n]]] else []
  }

  lemma {:induction false} MatchingIsActive(latest: map<Scope, Record>, order: seq<Scope>, evaluated: set<Scope>,
                                            active: set<Record>)
    requires forall j :: 0 <= j < |order| ==> order[j] in latest && latest[order[j]].scope == order[j]
    requires forall i, j :: 0 <= i < j < |order| ==> order[i] != order[j]
    requires forall r :: r in active <==> r.scope in order && Applies(r.scope, evaluated) && latest[r.scope] == r
    ensures multiset(MatchingRecords(latest, order, evaluated)) == multiset(active)
  {
    if order == [] {
      assert active == {};
    } else {
      var n := |order| - 1;
      var last := latest[order[n]];
      assert order == order[..n] + [order[n]];
      MatchingIsActive(latest, order[..n], evaluated, active - {last});
      if Applies(order[n], evaluated) {
        assert active == (active - {last}) + {last};
      } else {
        assert active - {last} == active;
      }
    }
  }

  /** The first of the most severe states. */
  function MostSevere(records: seq<Record>): (state: KillSwitchState)
    requires records != []
    ensures exists r :: r in records && r.newState == state
    ensures forall r :: r in records ==> Severity(r.newState) <= Severity(state)
  {
    var n := |records| - 1;
    assert records == records[..n] + [records[n]];
    if n == 0 then records[0].newState
    else
      var before := MostSevere(records[..n]);
      if Severity(before) < Severity(records[n].newState) then records[n].newState else before
  }

  // ------------------------------------------------------------ the store

  function StateLeftBy(r: Option<Record>): KillSwitchState {
    if r.Some? then r.value.newState else UnknownFailClosed
  }

  function LatestState(records: seq<Record>, scope: Scope): KillSwitchState {
    StateLeftBy(Latest(records, scope))
  }

  /** What a caller asks for; the id is the hash of the record that results. */
  datatype Transition = Transition(
    recordId: CanonicalId, scope: Scope, newState: KillSwitchState, at: Timestamp, audit: CanonicalId,
    cancelOpenOrders: bool)

  function RecordOf(records: seq<Record>, t: Transition): Record {
    Record(t.recordId, t.scope, LatestState(records, t.scope), t.newState, t.at, t.audit, t.cancelOpenOrders)
  }

  class KillSwitchStore {
    /** The stored records; None when the file cannot be read. */
    var log: Option<seq<Record>>

    function Readable(): seq<Record>
      reads this
    {
      if log.Some? then log.value else []
    }

    /** An absent file reads as an empty log. */
    constructor ()
      ensures log == Some([])
    {
      log := Some([]);
    }

    method LoadSnapshot(scopes: seq<Scope>) returns (s: KillSwitchSnapshot)
      requires IdsIdentify(Known(Readable()))
      ensures log.None? ==> s == KillSwitchSnapshot(UnknownFailClosed, [], false, Unavailable)
      ensures log.Some? ==> Describes(s, Known(log.value), set scope | scope in scopes)
    {
      if log.None? {
        return KillSwitchSnapshot(UnknownFailClosed, [], false, Unavailable);
      }
      var records := log.value;
      if records == [] {
        return KillSwitchSnapshot(UnknownFailClosed, [], true, Uninitialized);
      }
      var latest, order := LatestRecordsByScope(records);
      var evaluated := set scope | scope in scopes;
      var matching := MatchingRecords(latest, order, evaluated);
      ghost var active := ActiveSet(Known(records), evaluated);
      DictionaryIsActive(records, latest, order, evaluated);
      assert records[0] in Known(records);
      if matching == [] {
        EmptyMatch(matching, active);
        return KillSwitchSnapshot(UnknownFailClosed, [], true, NoApplicableRecord);
      }
      s := KillSwitchSnapshot(MostSevere(matching), Sort(matching, IdNoLater), true, Loaded);
      OrdersAreTotal();
      SortCorrect(matching, IdNoLater);
      forall r: Record ensures r in matching <==> r in active {
        assert r in matching <==> r in multiset(matching);
        assert r in active <==> r in multiset(active);
      }
    }

    /** Appends one record that carries on from the effective state of its scope; an unreadable log is started
      * afresh. */
    method ApplyTransition(t: Transition) returns (record: Record)
      requires IdsIdentify(Known(Readable()))
      modifies this
      ensures record == RecordOf(old(Readable()), t)
      ensures log == Some(old(Readable()) + [record])
    {
      var records := Readable();
      var latest, _ := LatestRecordsByScope(records);
      var prior := if t.scope in latest then latest[t.scope].newState else UnknownFailClosed;
      record := Record(t.recordId, t.scope, prior, t.newState, t.at, t.audit, t.cancelOpenOrders);
      log := Some(records + [record]);
    }
  }

  lemma EmptyMatch(matching: seq<Record>, active: set<Record>)
    requires multiset(matching) == multiset(active) && matching == []
    ensures active == {}
  {
    assert |multiset(active)| == |active|;
  }

  lemma DictionaryIsActive(records: seq<Record>, latest: map<Scope, Record>, order: seq<Scope>, evaluated: set<Scope>)
    requires IdsIdentify(Known(records))
    requires forall scope :: Latest(records, scope) == if scope in latest then Some(latest[scope]) else None
    requires forall scope :: scope in latest ==> scope in order
    requires forall j :: 0 <= j < |order| ==> order[j] in latest
    requires forall i, j :: 0 <= i < j < |order| ==> order[i] != order[j]
    ensures multiset(MatchingRecords(latest, order, evaluated)) == multiset(ActiveSet(Known(records), evaluated))
  {
    var active := ActiveSet(Known(records), evaluated);
    forall j | 0 <= j < |order| ensures latest[order[j]].scope == order[j] {
      assert Latest(records, order[j]) == Some(latest[order[j]]);
    }
    forall r: Record
      ensures r in active <==> (r.scope in order && Applies(r.scope, evaluated) && latest[r.scope] == r)
    {
      if r in active {
        LatestIsUnique(records, r);
      }
      if r.scope in order && Applies(r.scope, evaluated) && latest[r.scope] == r {
        assert Latest(records, r.scope) == Some(r);
      }
    }
    MatchingIsActive(latest, order, evaluated, active);
  }

  // ------------------------------------------------------------ chain of custody

  function RunLog(records: seq<Record>, ts: seq<Transition>): (log: seq<Record>)
    ensures |log| == |records| + |ts| && records <= log
  {
    if ts == [] then records
    else
      var before := RunLog(records, ts[..|ts| - 1]);
      before + [RecordOf(before, ts[|ts| - 1])]
  }

  /** The record of a scope most recently appended. */
  function LastAppended(records: seq<Record>, scope: Scope): (r: Option<Record>)
    ensures r.None? <==> forall q :: q in records ==> q.scope != scope
    ensures r.Some? ==> r.value in records && r.value.scope == scope
  {
    if records == [] then None
    else
      var n := |records| - 1;
      assert records == records[..n] + [records[n]];
      if records[n].scope == scope then Some(records[n]) else LastAppended(records[..n], scope)
  }

  /** Each record starts from the state its predecessor in the scope left; the first from unknown. */
  ghost predicate Chained(records: seq<Record>) {
    forall i :: 0 <= i < |records| ==>
      records[i].priorState == StateLeftBy(LastAppended(records[..i], records[i].scope))
  }

  ghost predicate TimesIncreasePerScope(records: seq<Record>) {
    forall i, j :: 0 <= i < j < |records| && records[i].scope == records[j].scope ==>
      records[i].transitionedAt < records[j].transitionedAt
  }

  /** With increasing times the record last appended is the effective one. */
  lemma {:induction false} LastAppendedIsEffective(records: seq<Record>, scope: Scope)
    requires TimesIncreasePerScope(records)
    ensures Latest(records, scope) == LastAppended(records, scope)
  {
    if records != [] {
      var n := |records| - 1;
      var before := records[..n];
      LastAppendedIsEffective(before, scope);
      if records[n].scope == scope && Latest(before, scope).Some? {
        var k :| 0 <= k < n && before[k] == Latest(before, scope).value;
        assert records[k].transitionedAt < records[n].transitionedAt;
      }
    }
  }

  /** The effective state of the scope is the one its last appended record left. */
  ghost predicate EffectiveIsLast(records: seq<Record>, scope: Scope) {
    LatestState(records, scope) == StateLeftBy(LastAppended(records, scope))
  }

  lemma AppendingKeepsChainIff(records: seq<Record>, t: Transition)
    ensures Chained(records + [RecordOf(records, t)]) <==> Chained(records) && EffectiveIsLast(records, t.scope)
  {
    hide LastAppended, Latest;
    var record := RecordOf(records, t);
    var more := records + [record];
    assert more[..|records|] == records && more[|records|] == record;
    assert forall i :: 0 <= i < |records| ==> more[..i] == records[..i] && more[i] == records[i];
  }

  /** What transition k of a run finds as the effective state of its scope is the state last appended there. */
  ghost predicate FindsLast(records: seq<Record>, ts: seq<Transition>, k: nat)
    requires k < |ts|
  {
    EffectiveIsLast(RunLog(records, ts[..k]), ts[k].scope)
  }

  /** A run's records chain exactly when those before it do and each transition finds, as the effective state of its
    * scope, the one last appended there. */
  lemma {:induction false} ChainOfCustodyIff(records: seq<Record>, ts: seq<Transition>)
    ensures Chained(RunLog(records, ts)) <==>
      Chained(records) && forall k :: 0 <= k < |ts| ==> FindsLast(records, ts, k)
  {
    hide Chained, FindsLast, RecordOf;
    if ts != [] {
      var n := |ts| - 1;
      ChainOfCustodyIff(records, ts[..n]);
      AppendingKeepsChainIff(RunLog(records, ts[..n]), ts[n]);
      forall k: nat | k < |ts|
        ensures FindsLast(records, ts, k) <==>
          if k < n then FindsLast(records, ts[..n], k) else EffectiveIsLast(RunLog(records, ts[..n]), ts[n].scope)
      {
        FindsLastOfPrefix(records, ts, k);
      }
      assert RunLog(records, ts) == RunLog(records, ts[..n]) + [RecordOf(RunLog(records, ts[..n]), ts[n])];
      assert FindsLast(records, ts, n) <==> EffectiveIsLast(RunLog(records, ts[..n]), ts[n].scope);
    }
  }

  lemma FindsLastOfPrefix(records: seq<Record>, ts: seq<Transition>, k: nat)
    requires k < |ts|
    ensures var n := |ts| - 1;
      FindsLast(records, ts, k) <==>
        if k < n then FindsLast(records, ts[..n], k) else EffectiveIsLast(RunLog(records, ts[..n]), ts[n].scope)
  {
    hide EffectiveIsLast, RunLog;
    var n := |ts| - 1;
    if k < n {
      assert ts[..n][..k] == ts[..k] && ts[..n][k] == ts[k];
    }
  }

  /** A transition dated before its scope's last record breaks the chain at the next one: halted at 2, cleared as of 1,
    * and the transition after that starts from halted again. */
  lemma BackdatedTransitionBreaksChain(scope: Scope)
    ensures var halt, clear, pause := Transition(1, scope, HaltedState, 2, 0, false),
      Transition(2, scope, Clear, 1, 0, false), Transition(3, scope, PauseNewOrders, 3, 0, false);
      Chained(RunLog([], [halt, clear])) && !Chained(RunLog([], [halt, clear, pause]))
  {
    var halt, clear, pause := Transition(1, scope, HaltedState, 2, 0, false),
      Transition(2, scope, Clear, 1, 0, false), Transition(3, scope, PauseNewOrders, 3, 0, false);
    var two, three := [halt, clear], [halt, clear, pause];
    var first := RecordOf([], halt);
    assert two[..1] == [halt] && two[..0] == [] && [halt][..0] == [] && three[..2] == two;
    assert RunLog([], two) == [first, RecordOf([first], clear)];
    ChainOfCustodyIff([], two);
    ChainOfCustodyIff([], three);
    var log := RunLog([], two);
    assert log[..1] == [first] && [first][..0] == [];
    assert !FindsLast([], three, 2);
  }

  /** Over any run of transitions whose times increase per scope, the log grows by one record each, every scope's
    * records chain, and the last one is the scope's effective state. */
  lemma {:induction false} ChainOfCustody(records: seq<Record>, ts: seq<Transition>, scope: Scope)
    requires Chained(records) && TimesIncreasePerScope(RunLog(records, ts))
    ensures Chained(RunLog(records, ts))
    ensures Latest(RunLog(records, ts), scope) == LastAppended(RunLog(records, ts), scope)
  {
    LastAppendedIsEffective(RunLog(records, ts), scope);
    if ts != [] {
      var n := |ts| - 1;
      var before := RunLog(records, ts[..n]);
      assert RunLog(records, ts) == before + [RecordOf(before, ts[n])];
      assert TimesIncreasePerScope(before) by { PrefixKeepsTimes(before, RecordOf(before, ts[n])); }
      ChainOfCustody(records, ts[..n], scope);
      LastAppendedIsEffective(before, ts[n].scope);
      AppendingKeepsChainIff(before, ts[n]);
    }
  }

  lemma PrefixKeepsTimes(before: seq<Record>, r: Record)
    requires TimesIncreasePerScope(before + [r])
    ensures TimesIncreasePerScope(before)
  {
    var all := before + [r];
    forall i, j | 0 <= i < j < |before| && before[i].scope == before[j].scope
      ensures before[i].transitionedAt < before[j].transitionedAt
    {
      assert all[i] == before[i] && all[j] == before[j];
    }
  }

  /** A transition takes effect exactly when it is not dated before the scope's effective record, the record ids
    * deciding at the same time; and then it leaves the state asked for. */
  lemma TransitionTakesEffectIff(records: seq<Record>, t: Transition)
    ensures var before, after := Latest(records, t.scope), Latest(records + [RecordOf(records, t)], t.scope);
      && (after == Some(RecordOf(records, t)) <==>
        (|| before.None? || before.value.transitionedAt < t.at
         || (before.value.transitionedAt == t.at && before.value.recordId <= t.recordId)))
      && (after == Some(RecordOf(records, t)) ==> LatestState(records + [RecordOf(records, t)], t.scope) == t.newState)
  {
    var record := RecordOf(records, t);
    var more := records + [record];
    assert more[..|records|] == records;
  }

  /** A transition leaves every other scope's effective record alone. */
  lemma OtherScopesUnaffected(records: seq<Record>, t: Transition, scope: Scope)
    requires scope != t.scope
    ensures Latest(records + [RecordOf(records, t)], scope) == Latest(records, scope)
  {
    assert (records + [RecordOf(records, t)])[..|records|] == records;
  }
}
