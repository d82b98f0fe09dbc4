/** Instrument metadata, effective-dated windows and order constraints (instrument_master.py). */
module InstrumentMaster {
  import opened Contracts
  import opened Sorting

  datatype OrderType = Market | Limit | PostOnlyLimit

  datatype VenueStatus = VenueActive | VenueDegraded | VenueMaintenance | VenueHalted | VenueUnknown | VenueInactive

  datatype InstrumentType = Spot | CashEquity | Fund | Index | OtherInstrument

  datatype InstrumentStatus = Trading | Paused | Halted | Delisted | InstrumentUnknown

  datatype AccountType = Research | Simulation | Paper

  datatype AccountStatus = AccountActive | Disabled | ReadOnly | AccountUnknown

  datatype TradingPermission = ReadMarketData | ViewBalances | PlaceOrders | CancelOrders

  datatype Venue = Venue(venueId: CanonicalId, status: VenueStatus, supportedOrderTypes: set<OrderType>)

  datatype InstrumentFields = Instrument(
    instrumentId: CanonicalId,
    venueId: CanonicalId,
    baseAssetId: CanonicalId,
    quoteAssetId: CanonicalId,
    instrumentType: InstrumentType,
    status: InstrumentStatus,
    supportedOrderTypes: set<OrderType>)

  /** Construction refuses an instrument quoted in its own base asset. */
  type Instrument = i: InstrumentFields | i.baseAssetId != i.quoteAssetId
    witness Instrument(0, 0, 0, 1, Spot, Trading, {})

  datatype AccountRiskLimitFields = AccountRiskLimits(
    maxOrderNotionalPct: PositiveDecimal,
    maxInstrumentExposurePct: PositiveDecimal,
    maxStrategyExposurePct: PositiveDecimal,
    maxTotalSpotExposurePct: PositiveDecimal,
    minCashReservePct: PositiveDecimal)

  /** Accounts may only tighten the initial caps, and no part of the book may exceed the whole. */
  type AccountRiskLimits = l: AccountRiskLimitFields |
    && l.maxOrderNotionalPct <= 0.025 && l.maxInstrumentExposurePct <= 0.25 && l.maxStrategyExposurePct <= 0.3
    && l.maxTotalSpotExposurePct <= 0.6 && 0.3 <= l.minCashReservePct <= 1.0
    && l.maxInstrumentExposurePct <= l.maxTotalSpotExposurePct && l.maxStrategyExposurePct <= l.maxTotalSpotExposurePct
    witness AccountRiskLimits(0.025, 0.25, 0.3, 0.6, 0.3)

  datatype AccountFields = Account(
    accountId: CanonicalId,
    venueId: CanonicalId,
    accountType: AccountType,
    status: AccountStatus,
    permissions: set<TradingPermission>,
    riskLimits: AccountRiskLimits)

  /** Construction refuses a research account that may place orders. */
  type Account = a: AccountFields | a.accountType == Research ==> PlaceOrders !in a.permissions
    witness Account(0, 0, Research, AccountActive, {}, AccountRiskLimits(0.025, 0.25, 0.3, 0.6, 0.3))

  // ------------------------------------------------------------ effective windows

  datatype WindowFields = Window(effectiveFrom: Timestamp, effectiveTo: Option<Timestamp>)

  /** Half-open, never empty: construction refuses an end at or before the start. */
  type Window = w: WindowFields | w.effectiveTo.Some? ==> w.effectiveFrom < w.effectiveTo.value
    witness Window(0, None)

  /** A record's overlap key and window: all the overlap check reads of it. */
  datatype EffectiveRecord = EffectiveRecord(key: CanonicalId, window: Window)

  predicate IsEffective(w: Window, asOf: Timestamp) {
    w.effectiveFrom <= asOf && (w.effectiveTo.None? || asOf < w.effectiveTo.value)
  }

  /** Two windows that share no instant. */
  ghost predicate Disjoint(a: Window, b: Window) {
    forall t: Timestamp :: !(IsEffective(a, t) && IsEffective(b, t))
  }

  ghost predicate PairwiseDisjoint(ws: seq<Window>) {
    forall i, j :: 0 <= i < j < |ws| ==> Disjoint(ws[i], ws[j])
  }

  /** All windows of equal key are pairwise disjoint. */
  ghost predicate DisjointPerKey(records: seq<EffectiveRecord>) {
    forall i, j :: 0 <= i < j < |records| && records[i].key == records[j].key
      ==> Disjoint(records[i].window, records[j].window)
  }

  /** The windows recorded under one key, in input order. */
  function WindowsOf(records: seq<EffectiveRecord>, key: CanonicalId): (ws: seq<Window>)
  {
    if records == [] then []
    else
      var n := |records| - 1;
      WindowsOf(records[..n], key) + if records[n].key == key then [records[n].window] else []
  }

  predicate StartsNoLater(a: Window, b: Window) {
    a.effectiveFrom <= b.effectiveFrom
  }

  lemma StartOrderIsTotal()
    ensures TotalPreorder(StartsNoLater)
  {
  }

  /** previous does not end by the time current starts. */
  predicate RunsInto(previous: Window, current: Window) {
    previous.effectiveTo.None? || current.effectiveFrom < previous.effectiveTo.value
  }

  predicate AdjacentClear(ws: seq<Window>) {
    forall i :: 0 < i < |ws| ==> !RunsInto(ws[i - 1], ws[i])
  }

  /** In start order, clear neighbours reach every later window: one end bounds all later starts. */
  lemma {:induction false} AdjacentReachesAll(ws: seq<Window>, i: nat, j: nat)
    requires AdjacentClear(ws) && i < j < |ws|
    ensures !RunsInto(ws[i], ws[j])
    decreases j
  {
    if i + 1 < j {
      AdjacentReachesAll(ws, i, j - 1);
      assert !RunsInto(ws[j - 1], ws[j]);
    }
  }

  lemma SortedAdjacentIffDisjoint(ws: seq<Window>)
    requires SortedBy(ws, StartsNoLater)
    ensures AdjacentClear(ws) <==> PairwiseDisjoint(ws)
  {
    if AdjacentClear(ws) {
      forall i, j | 0 <= i < j < |ws| ensures Disjoint(ws[i], ws[j]) {
        AdjacentReachesAll(ws, i, j);
      }
    }
    if PairwiseDisjoint(ws) {
      forall i | 0 < i < |ws| ensures !RunsInto(ws[i - 1], ws[i]) {
        assert Disjoint(ws[i - 1], ws[i]);
        assert StartsNoLater(ws[i - 1], ws[i]);
        assert IsEffective(ws[i], ws[i].effectiveFrom);
      }
    }
  }

  /** Disjointness of a list of windows does not depend on its order. */
  lemma DisjointnessIgnoresOrder(a: seq<Window>, b: seq<Window>)
    requires multiset(a) == multiset(b) && PairwiseDisjoint(a)
    ensures PairwiseDisjoint(b)
  {
    forall i, j | 0 <= i < j < |b| ensures Disjoint(b[i], b[j]) {
      if b[i] == b[j] {
        assert b == b[..i] + [b[i]] + b[i + 1..j] + [b[j]] + b[j + 1..];
        assert multiset(a)[b[i]] >= 2;
        var p, q := TwoPlaces(a, b[i]);
        assert Disjoint(a[p], a[q]);
      } else {
        assert b[i] in multiset(a) && b[j] in multiset(a);
        var p :| 0 <= p < |a| && a[p] == b[i];
        var q :| 0 <= q < |a| && a[q] == b[j];
        assert p < q ==> Disjoint(a[p], a[q]);
        assert q < p ==> Disjoint(a[q], a[p]);
      }
    }
  }

  lemma {:induction false} TwoPlaces(s: seq<Window>, x: Window) returns (p: nat, q: nat)
    requires multiset(s)[x] >= 2
    ensures p < q < |s| && s[p] == x == s[q]
  {
    assert s != [];
    assert s == [s[0]] + s[1..];
    if s[0] == x {
      assert x in multiset(s[1..]);
      p := 0;
      q :| 1 <= q < |s| && s[q] == x;
    } else {
      p, q := TwoPlaces(s[1..], x);
      p, q := p + 1, q + 1;
    }
  }

  /** Every key's own list of windows is disjoint. */
  ghost predicate EachGroupDisjoint(records: seq<EffectiveRecord>) {
    forall key: CanonicalId :: PairwiseDisjoint(WindowsOf(records, key))
  }

  /** Records are disjoint per key exactly when each key's own list of windows is. */
  lemma DisjointByGroups(records: seq<EffectiveRecord>)
    ensures DisjointPerKey(records) <==> EachGroupDisjoint(records)
  {
    if DisjointPerKey(records) {
      forall key: CanonicalId ensures PairwiseDisjoint(WindowsOf(records, key)) {
        GroupDisjoint(records, key);
      }
    }
    if EachGroupDisjoint(records) {
      forall i, j | 0 <= i < j < |records| && records[i].key == records[j].key
        ensures Disjoint(records[i].window, records[j].window)
      {
        var p, q := PlacesInGroup(records, records[i].key, i, j);
        var ws := WindowsOf(records, records[i].key);
        assert PairwiseDisjoint(ws);
        assert Disjoint(ws[p], ws[q]);
      }
    }
  }

  lemma {:induction false} GroupMembers(records: seq<EffectiveRecord>, key: CanonicalId, p: nat) returns (i: nat)
    requires p < |WindowsOf(records, key)|
    ensures i < |records| && records[i].key == key && records[i].window == WindowsOf(records, key)[p]
  {
    var n := |records| - 1;
    if p < |WindowsOf(records[..n], key)| {
      i := GroupMembers(records[..n], key, p);
    } else {
      i := n;
    }
  }

  lemma {:induction false} GroupDisjoint(records: seq<EffectiveRecord>, key: CanonicalId)
    requires DisjointPerKey(records)
    ensures PairwiseDisjoint(WindowsOf(records, key))
  {
    if records != [] {
      var n := |records| - 1;
      GroupDisjoint(records[..n], key);
      var before := WindowsOf(records[..n], key);
      if records[n].key == key {
        forall p | 0 <= p < |before| ensures Disjoint(before[p], records[n].window) {
          var i := GroupMembers(records[..n], key, p);
          assert records[..n][i] == records[i];
        }
      }
    }
  }

  lemma {:induction false} PlaceInGroup(records: seq<EffectiveRecord>, key: CanonicalId, i: nat) returns (p: nat)
    requires i < |records| && records[i].key == key
    ensures p < |WindowsOf(records, key)|
    ensures WindowsOf(records, key)[p] == records[i].window
  {
    var n := |records| - 1;
    if i == n {
      p := |WindowsOf(records[..n], key)|;
    } else {
      p := PlaceInGroup(records[..n], key, i);
    }
  }

  lemma {:induction false} PlacesInGroup(records: seq<EffectiveRecord>, key: CanonicalId, i: nat, j: nat)
    returns (p: nat, q: nat)
    requires i < j < |records| && records[i].key == key == records[j].key
    ensures var ws := WindowsOf(records, key);
      p < q < |ws| && ws[p] == records[i].window && ws[q] == records[j].window
  {
    var n := |records| - 1;
    if j == n {
      p := PlaceInGroup(records[..n], key, i);
      q := |WindowsOf(records[..n], key)|;
    } else {
      p, q := PlacesInGroup(records[..n], key, i, j);
    }
  }

  /** In start order, the windows are disjoint exactly when no neighbours run into each other. */
  lemma SortedWindowsDecide(windows: seq<Window>)
    ensures AdjacentClear(Sort(windows, StartsNoLater)) <==> PairwiseDisjoint(windows)
  {
    hide PairwiseDisjoint, AdjacentClear, SortedBy;
    var ordered := Sort(windows, StartsNoLater);
    StartOrderIsTotal();
    SortCorrect(windows, StartsNoLater);
    SortedAdjacentIffDisjoint(ordered);
    if PairwiseDisjoint(ordered) {
      DisjointnessIgnoresOrder(ordered, windows);
    }
    if PairwiseDisjoint(windows) {
      DisjointnessIgnoresOrder(windows, ordered);
    }
  }

  /** Sorts one key's windows by start and compares neighbours. */
  method FindRunningInto(windows: seq<Window>) returns (overlap: bool)
    ensures overlap <==> !PairwiseDisjoint(windows)
  {
    hide PairwiseDisjoint;
    SortedWindowsDecide(windows);
    var ordered, previous: Option<Window> := Sort(windows, StartsNoLater), None;
    for i := 0 to |ordered|
      invariant previous == if i == 0 then None else Some(ordered[i - 1])
      invariant forall k :: 0 < k < i ==> !RunsInto(ordered[k - 1], ordered[k])
    {
      if previous.Some? && RunsInto(previous.value, ordered[i]) {
        assert !AdjacentClear(ordered);
        return true;
      }
      previous := Some(ordered[i]);
    }
    return false;
  }

  /** groups holds, under each key listed, the windows of that key in input order. */
  ghost predicate Grouped(groups: map<CanonicalId, seq<Window>>, records: seq<EffectiveRecord>)
  {
    && (forall key :: key in groups ==> groups[key] == WindowsOf(records, key))
    && (forall key :: key !in groups ==> WindowsOf(records, key) == [])
  }

  lemma GroupedGrows(groups: map<CanonicalId, seq<Window>>, records: seq<EffectiveRecord>, i: nat)
    requires i < |records| && Grouped(groups, records[..i])
    ensures var key := records[i].key;
      Grouped(groups[key := (if key in groups then groups[key] else []) + [records[i].window]], records[..i + 1])
  {
    forall key: CanonicalId
      ensures WindowsOf(records[..i + 1], key)
        == WindowsOf(records[..i], key) + if records[i].key == key then [records[i].window] else []
    {
      assert records[..i + 1][..i] == records[..i];
    }
    hide WindowsOf;
  }

  /** Groups the windows by key; keys is the dictionary's insertion order. */
  method GroupByKey(records: seq<EffectiveRecord>)
    returns (groups: map<CanonicalId, seq<Window>>, keys: seq<CanonicalId>)
    ensures Grouped(groups, records)
    ensures forall j :: 0 <= j < |keys| ==> keys[j] in groups
    ensures forall key :: key in groups ==> key in keys
  {
    groups, keys := map[], [];
    assert Grouped(map[], records[..0]);
    hide Grouped;
    for i := 0 to |records|
      invariant forall j :: 0 <= j < |keys| ==> keys[j] in groups
      invariant forall key :: key in groups ==> key in keys
      invariant Grouped(groups, records[..i])
    {
      var key := records[i].key;
      GroupedGrows(groups, records, i);
      var before := if key in groups then groups[key] else [];
      keys := if key in groups then keys else keys + [key];
      groups := groups[key := before + [records[i].window]];
    }
    assert records[..|records|] == records;
  }

  /** The one-pass grouping, sorting and neighbour scan: None is acceptance, Some names a rejected key. */
  method OverlappingKey(records: seq<EffectiveRecord>) returns (error: Option<CanonicalId>)
    ensures error.None? <==> DisjointPerKey(records)
    ensures error.Some? ==> !PairwiseDisjoint(WindowsOf(records, error.value))
  {
    var groups, keys := GroupByKey(records);
    DisjointByGroups(records);
    for k := 0 to |keys|
      invariant forall j :: 0 <= j < k ==> PairwiseDisjoint(groups[keys[j]])
    {
      var overlap := FindRunningInto(groups[keys[k]]);
      if overlap {
        assert groups[keys[k]] == WindowsOf(records, keys[k]);
        return Some(keys[k]);
      }
    }
    forall key: CanonicalId ensures PairwiseDisjoint(WindowsOf(records, key)) {
      if key in groups {
        var j :| 0 <= j < |keys| && keys[j] == key;
        assert PairwiseDisjoint(groups[keys[j]]);
      }
    }
    return None;
  }

  // ------------------------------------------------------------ order constraints

  datatype ConstraintFields = InstrumentConstraint(
    constraintId: CanonicalId,
    instrumentId: CanonicalId,
    tickSize: PositiveDecimal,
    lotSize: PositiveDecimal,
    minNotional: PositiveDecimal,
    minOrderQuantity: Option<PositiveDecimal>,
    maxOrderQuantity: Option<PositiveDecimal>,
    maxOrderNotional: Option<PositiveDecimal>,
    window: Window)

  /** Construction refuses a maximum below its minimum. */
  type InstrumentConstraint = c: ConstraintFields |
    && (c.minOrderQuantity.Some? && c.maxOrderQuantity.Some? ==> c.minOrderQuantity.value <= c.maxOrderQuantity.value)
    && (c.maxOrderNotional.Some? ==> c.minNotional <= c.maxOrderNotional.value)
    witness InstrumentConstraint(0, 0, 1.0, 1.0, 1.0, None, None, None, Window(0, None))

  datatype ConstraintViolation =
    | NonPositivePrice | PriceNotOnTick | NonPositiveQuantity | QuantityBelowMinimum
    | QuantityNotOnLot | QuantityAboveMaximum | NotionalBelowMinimum | NotionalAboveMaximum

  /** Constraints are keyed by instrument. */
  function ConstraintRecords(cs: seq<InstrumentConstraint>): seq<EffectiveRecord> {
    seq(|cs|, i requires 0 <= i < |cs| => EffectiveRecord(cs[i].instrumentId, cs[i].window))
  }

  predicate IsDecimalMultiple(value: real, increment: real) {
    increment > 0.0 && (value / increment).Floor as real == value / increment
  }

  /** A multiple is a whole number of increments. */
  lemma MultipleIsWholeNumber(value: real, increment: PositiveDecimal)
    ensures IsDecimalMultiple(value, increment) <==> exists n: int :: Increments(n, value, increment)
  {
    if IsDecimalMultiple(value, increment) {
      assert Increments((value / increment).Floor, value, increment);
    }
    if n: int :| Increments(n, value, increment) {
      assert value / increment == n as real;
    }
  }

  ghost predicate Increments(n: int, value: real, increment: real) {
    value == n as real * increment
  }

  function MinimumQuantity(c: InstrumentConstraint): PositiveDecimal {
    if c.minOrderQuantity.Some? then c.minOrderQuantity.value else c.lotSize
  }

  /** What a violation code claims about an order. */
  predicate Violates(c: InstrumentConstraint, price: real, quantity: real, v: ConstraintViolation) {
    match v
    case NonPositivePrice => price <= 0.0
    case PriceNotOnTick => price > 0.0 && !IsDecimalMultiple(price, c.tickSize)
    case NonPositiveQuantity => quantity <= 0.0
    case QuantityBelowMinimum =>
      0.0 < quantity < if c.minOrderQuantity.Some? then c.minOrderQuantity.value else c.lotSize
    case QuantityNotOnLot => quantity > 0.0 && !IsDecimalMultiple(quantity, c.lotSize)
    case QuantityAboveMaximum => quantity > 0.0 && c.maxOrderQuantity.Some? && quantity > c.maxOrderQuantity.value
    case NotionalBelowMinimum => price > 0.0 && quantity > 0.0 && price * quantity < c.minNotional
    case NotionalAboveMaximum =>
      price > 0.0 && quantity > 0.0 && c.maxOrderNotional.Some? && price * quantity > c.maxOrderNotional.value
  }

  /** An order passes when no violation holds of it. */
  predicate OrderAllowed(c: InstrumentConstraint, price: real, quantity: real) {
    forall v: ConstraintViolation :: !Violates(c, price, quantity, v)
  }

  /** In full: a positive price on the tick, and a quantity on the lot, no less than the minimum, or one lot when
    * none is given, and within the maximum, whose notional is within its own bounds. */
  lemma AllowedMeaning(c: InstrumentConstraint, price: real, quantity: real)
    ensures OrderAllowed(c, price, quantity) <==>
      && price > 0.0 && (exists n: int :: Increments(n, price, c.tickSize))
      && quantity > 0.0 && (exists n: int :: Increments(n, quantity, c.lotSize))
      && quantity >= (if c.minOrderQuantity.Some? then c.minOrderQuantity.value else c.lotSize)
      && (c.maxOrderQuantity.Some? ==> quantity <= c.maxOrderQuantity.value)
      && price * quantity >= c.minNotional
      && (c.maxOrderNotional.Some? ==> price * quantity <= c.maxOrderNotional.value)
  {
    hide IsDecimalMultiple, Increments;
    MultipleIsWholeNumber(price, c.tickSize);
    MultipleIsWholeNumber(quantity, c.lotSize);
    forall v: ConstraintViolation
      ensures Violates(c, price, quantity, v) ==>
        || Violates(c, price, quantity, NonPositivePrice) || Violates(c, price, quantity, PriceNotOnTick)
        || Violates(c, price, quantity, NonPositiveQuantity) || Violates(c, price, quantity, QuantityBelowMinimum)
        || Violates(c, price, quantity, QuantityNotOnLot) || Violates(c, price, quantity, QuantityAboveMaximum)
        || Violates(c, price, quantity, NotionalBelowMinimum) || Violates(c, price, quantity, NotionalAboveMaximum)
    {
      match v {
        case NonPositivePrice => case PriceNotOnTick => case NonPositiveQuantity => case QuantityBelowMinimum =>
        case QuantityNotOnLot => case QuantityAboveMaximum => case NotionalBelowMinimum => case NotionalAboveMaximum =>
      }
    }
    assert OrderAllowed(c, price, quantity) <==>
      (&& !Violates(c, price, quantity, NonPositivePrice) && !Violates(c, price, quantity, PriceNotOnTick)
       && !Violates(c, price, quantity, NonPositiveQuantity) && !Violates(c, price, quantity, QuantityBelowMinimum)
       && !Violates(c, price, quantity, QuantityNotOnLot) && !Violates(c, price, quantity, QuantityAboveMaximum)
       && !Violates(c, price, quantity, NotionalBelowMinimum)
       && !Violates(c, price, quantity, NotionalAboveMaximum));
  }

  function When(condition: bool, v: ConstraintViolation): seq<ConstraintViolation> {
    if condition then [v] else []
  }

  function PriceCodes(c: InstrumentConstraint, price: real, quantity: real): seq<ConstraintViolation> {
    When(Violates(c, price, quantity, NonPositivePrice), NonPositivePrice)
    + When(Violates(c, price, quantity, PriceNotOnTick), PriceNotOnTick)
  }

  function QuantityCodes(c: InstrumentConstraint, price: real, quantity: real): seq<ConstraintViolation> {
    When(Violates(c, price, quantity, NonPositiveQuantity), NonPositiveQuantity)
    + When(Violates(c, price, quantity, QuantityBelowMinimum), QuantityBelowMinimum)
    + When(Violates(c, price, quantity, QuantityNotOnLot), QuantityNotOnLot)
    + When(Violates(c, price, quantity, QuantityAboveMaximum), QuantityAboveMaximum)
  }

  function NotionalCodes(c: InstrumentConstraint, price: real, quantity: real): seq<ConstraintViolation> {
    When(Violates(c, price, quantity, NotionalBelowMinimum), NotionalBelowMinimum)
    + When(Violates(c, price, quantity, NotionalAboveMaximum), NotionalAboveMaximum)
  }

  function ViolationCodes(c: InstrumentConstraint, price: real, quantity: real): seq<ConstraintViolation> {
    PriceCodes(c, price, quantity) + QuantityCodes(c, price, quantity) + NotionalCodes(c, price, quantity)
  }

  /** Each code is reported exactly when its violation holds. */
  lemma CodesAreExact(c: InstrumentConstraint, price: real, quantity: real)
    ensures forall v :: v in ViolationCodes(c, price, quantity) <==> Violates(c, price, quantity, v)
    ensures ViolationCodes(c, price, quantity) == [] <==> OrderAllowed(c, price, quantity)
  {
    var codes := ViolationCodes(c, price, quantity);
    forall v ensures v in codes <==> Violates(c, price, quantity, v) {
      assert v in codes <==>
        v in PriceCodes(c, price, quantity) || v in QuantityCodes(c, price, quantity)
          || v in NotionalCodes(c, price, quantity);
    }
    assert codes != [] ==> codes[0] in codes;
  }

  method CollectPriceCodes(c: InstrumentConstraint, price: real, quantity: real)
    returns (codes: seq<ConstraintViolation>)
    ensures codes == PriceCodes(c, price, quantity)
  {
    codes := [];
    if price <= 0.0 {
      codes := codes + [NonPositivePrice];
    } else if !IsDecimalMultiple(price, c.tickSize) {
      codes := codes + [PriceNotOnTick];
    }
  }

  method CollectQuantityCodes(c: InstrumentConstraint, price: real, quantity: real)
    returns (codes: seq<ConstraintViolation>)
    ensures codes == QuantityCodes(c, price, quantity)
  {
    codes := [];
    if quantity <= 0.0 {
      codes := codes + [NonPositiveQuantity];
    } else {
      if quantity < MinimumQuantity(c) {
        codes := codes + [QuantityBelowMinimum];
      }
      if !IsDecimalMultiple(quantity, c.lotSize) {
        codes := codes + [QuantityNotOnLot];
      }
      if c.maxOrderQuantity.Some? && quantity > c.maxOrderQuantity.value {
        codes := codes + [QuantityAboveMaximum];
      }
    }
  }

  method CollectNotionalCodes(c: InstrumentConstraint, price: real, quantity: real)
    returns (codes: seq<ConstraintViolation>)
    ensures codes == NotionalCodes(c, price, quantity)
  {
    codes := [];
    if price > 0.0 && quantity > 0.0 {
      var notional := price * quantity;
      if notional < c.minNotional {
        codes := codes + [NotionalBelowMinimum];
      }
      if c.maxOrderNotional.Some? && notional > c.maxOrderNotional.value {
        codes := codes + [NotionalAboveMaximum];
      }
    }
  }

  /** Collects the violated constraints by appending code after code. */
  method EvaluateOrder(c: InstrumentConstraint, price: real, quantity: real)
    returns (passed: bool, reasonCodes: seq<ConstraintViolation>)
    ensures reasonCodes == ViolationCodes(c, price, quantity)
    ensures passed <==> OrderAllowed(c, price, quantity)
  {
    var priceCodes := CollectPriceCodes(c, price, quantity);
    var quantityCodes := CollectQuantityCodes(c, price, quantity);
    var notionalCodes := CollectNotionalCodes(c, price, quantity);
    reasonCodes := priceCodes + quantityCodes + notionalCodes;
    CodesAreExact(c, price, quantity);
    passed := reasonCodes == [];
  }

  /** Values that occur more than once. */
  method Duplicates(values: seq<CanonicalId>) returns (duplicates: set<CanonicalId>)
    ensures forall v :: v in duplicates <==> multiset(values)[v] > 1
  {
    var seen: set<CanonicalId> := {};
    duplicates := {};
    for i := 0 to |values|
      invariant forall v :: v in seen <==> multiset(values[..i])[v] > 0
      invariant forall v :: v in duplicates <==> multiset(values[..i])[v] > 1
    {
      assert values[..i + 1] == values[..i] + [values[i]];
      if values[i] in seen {
        duplicates := duplicates + {values[i]};
      } else {
        seen := seen + {values[i]};
      }
    }
    assert values[..|values|] == values;
  }

  // ------------------------------------------------------------ snapshot lookups

  datatype Snapshot = Snapshot(
    createdAt: Timestamp,
    venues: seq<Venue>,
    instruments: seq<Instrument>,
    accounts: seq<Account>,
    constraints: seq<InstrumentConstraint>)

  function FindVenue(s: Snapshot, venueId: CanonicalId): Option<Venue> {
    FirstMatch(s.venues, (v: Venue) => v.venueId == venueId)
  }

  function FindInstrument(s: Snapshot, instrumentId: CanonicalId): (r: Option<Instrument>)
    ensures r.Some? ==> r.value.instrumentId == instrumentId
  {
    FirstMatch(s.instruments, (i: Instrument) => i.instrumentId == instrumentId)
  }

  function FindAccount(s: Snapshot, accountId: CanonicalId): Option<Account> {
    FirstMatch(s.accounts, (a: Account) => a.accountId == accountId)
  }

  /** Each lookup finds the first entry with the id, and fails only if there is none. */
  lemma LookupsMeaning(s: Snapshot, id: CanonicalId)
    ensures if FindVenue(s, id).None? then forall k :: 0 <= k < |s.venues| ==> s.venues[k].venueId != id
      else exists k ::
        (&& 0 <= k < |s.venues| && s.venues[k] == FindVenue(s, id).value && s.venues[k].venueId == id
         && forall j :: 0 <= j < k ==> s.venues[j].venueId != id)
    ensures if FindInstrument(s, id).None? then
        forall k :: 0 <= k < |s.instruments| ==> s.instruments[k].instrumentId != id
      else exists k ::
        (&& 0 <= k < |s.instruments| && s.instruments[k] == FindInstrument(s, id).value
         && s.instruments[k].instrumentId == id && forall j :: 0 <= j < k ==> s.instruments[j].instrumentId != id)
    ensures if FindAccount(s, id).None? then forall k :: 0 <= k < |s.accounts| ==> s.accounts[k].accountId != id
      else exists k ::
        (&& 0 <= k < |s.accounts| && s.accounts[k] == FindAccount(s, id).value && s.accounts[k].accountId == id
         && forall j :: 0 <= j < k ==> s.accounts[j].accountId != id)
  {
    hide FirstMatch;
    FirstMatchIsFirst(s.venues, (v: Venue) => v.venueId == id);
    FirstMatchIsFirst(s.instruments, (i: Instrument) => i.instrumentId == id);
    FirstMatchIsFirst(s.accounts, (a: Account) => a.accountId == id);
  }

  /** The constraints of an instrument effective at an instant, in snapshot order. */
  function ActiveConstraints(cs: seq<InstrumentConstraint>, instrumentId: CanonicalId,
                             asOf: Timestamp): (r: seq<InstrumentConstraint>)
    ensures forall c :: c in r <==> c in cs && c.instrumentId == instrumentId && IsEffective(c.window, asOf)
  {
    if cs == [] then []
    else
      var rest := ActiveConstraints(cs[1..], instrumentId, asOf);
      if cs[0].instrumentId == instrumentId && IsEffective(cs[0].window, asOf) then [cs[0]] + rest else rest
  }

  /** The lookup behind both "exactly one active constraint" rules. */
  function TheActiveConstraint(s: Snapshot, instrumentId: CanonicalId, asOf: Timestamp): Option<InstrumentConstraint> {
    var active := ActiveConstraints(s.constraints, instrumentId, asOf);
    if |active| == 1 then Some(active[0]) else None
  }

  /** Accepted windows leave at most one constraint effective per instrument and instant. */
  lemma {:induction false} AtMostOneActive(cs: seq<InstrumentConstraint>, instrumentId: CanonicalId, asOf: Timestamp)
    requires DisjointPerKey(ConstraintRecords(cs))
    ensures |ActiveConstraints(cs, instrumentId, asOf)| <= 1
  {
    if cs != [] {
      var all, tail := ConstraintRecords(cs), ConstraintRecords(cs[1..]);
      forall i, j | 0 <= i < j < |tail| && tail[i].key == tail[j].key ensures Disjoint(tail[i].window, tail[j].window) {
        assert tail[i] == all[i + 1] && tail[j] == all[j + 1];
      }
      AtMostOneActive(cs[1..], instrumentId, asOf);
      var rest := ActiveConstraints(cs[1..], instrumentId, asOf);
      assert rest != [] ==> rest[0] in rest;
      if cs[0].instrumentId == instrumentId && IsEffective(cs[0].window, asOf) {
        forall c | c in cs[1..] && c.instrumentId == instrumentId ensures !IsEffective(c.window, asOf) {
          var k :| 0 <= k < |cs[1..]| && cs[1..][k] == c;
          assert tail[k] == all[k + 1] && Disjoint(all[0].window, all[k + 1].window);
        }
      }
    }
  }

  /** With accepted windows the lookup is empty only when nothing is effective, and otherwise finds the only
    * effective one. */
  lemma LookupFailsOnlyByAbsence(s: Snapshot, instrumentId: CanonicalId, asOf: Timestamp)
    requires DisjointPerKey(ConstraintRecords(s.constraints))
    ensures TheActiveConstraint(s, instrumentId, asOf).None?
      <==> !exists c :: c in s.constraints && c.instrumentId == instrumentId && IsEffective(c.window, asOf)
    ensures forall c | c in s.constraints && c.instrumentId == instrumentId && IsEffective(c.window, asOf) ::
      TheActiveConstraint(s, instrumentId, asOf) == Some(c)
  {
    AtMostOneActive(s.constraints, instrumentId, asOf);
    var active := ActiveConstraints(s.constraints, instrumentId, asOf);
    forall c | c in s.constraints && c.instrumentId == instrumentId && IsEffective(c.window, asOf)
      ensures |active| == 1
      ensures active[0] == c
    {
      assert c in active;
    }
    if |active| == 1 {
      assert active[0] in active;
    }
  }
}
