/** Return, drawdown and tail-risk metrics over a split's net returns (evaluation/scorecard.py). */
module Scorecard {
  import opened Contracts
  import opened Sorting
  import opened Statistics

  // ------------------------------------------------------------ compounding

  /** Equity after the returns, starting from one. */
  function Equity(values: seq<real>): real {
    if values == [] then 1.0 else Equity(values[..|values| - 1]) * (1.0 + values[|values| - 1])
  }

  method CompoundedReturn(values: seq<real>) returns (r: Option<real>)
    ensures r == if values == [] then None else Some(Equity(values) - 1.0)
  {
    if values == [] {
      return None;
    }
    var equity := 1.0;
    for i := 0 to |values|
      invariant equity == Equity(values[..i])
    {
      assert values[..i + 1][..i] == values[..i];
      equity := equity * (1.0 + values[i]);
    }
    assert values[..|values|] == values;
    return Some(equity - 1.0);
  }

  lemma EquityStep(values: seq<real>)
    requires values != []
    ensures Equity(values) == Grown(Equity(values[..|values| - 1]), values[|values| - 1])
  {
  }

  function Grown(equity: real, value: real): real {
    equity * (1.0 + value)
  }

  lemma GrownProduct(a: real, b: real, value: real)
    ensures Grown(a * b, value) == a * Grown(b, value)
  {
  }

  /** Compounding over a concatenation is the product of the parts. */
  lemma {:induction false} EquityOfConcat(a: seq<real>, b: seq<real>)
    ensures Equity(a + b) == Equity(a) * Equity(b)
  {
    if b == [] {
      assert a + b == a;
    } else {
      hide Equity, Grown;
      var n := |b| - 1;
      EquityOfConcat(a, b[..n]);
      assert (a + b)[..|a| + n] == a + b[..n] && (a + b)[|a| + n] == b[n];
      EquityStep(a + b);
      EquityStep(b);
      GrownProduct(Equity(a), Equity(b[..n]), b[n]);
    }
  }

  // ------------------------------------------------------------ drawdown

  function Peak(values: seq<real>): (p: real)
    ensures p >= 1.0
  {
    if values == [] then 1.0 else Max(Peak(values[..|values| - 1]), Equity(values))
  }

  /** Equity over running peak, less one. */
  function DrawdownAt(values: seq<real>): real {
    Equity(values) / Peak(values) - 1.0
  }

  /** The least drawdown of any prefix. */
  function LeastDrawdown(values: seq<real>): (d: real)
    ensures d <= 0.0
  {
    if values == [] then 0.0 else Min(LeastDrawdown(values[..|values| - 1]), DrawdownAt(values))
  }

  method MaxDrawdown(values: seq<real>) returns (r: Option<real>)
    ensures r == if values == [] then None else Some(LeastDrawdown(values))
  {
    if values == [] {
      return None;
    }
    var equity, peak, maxDrawdown := 1.0, 1.0, 0.0;
    for i := 0 to |values|
      invariant equity == Equity(values[..i]) && peak == Peak(values[..i]) && maxDrawdown == LeastDrawdown(values[..i])
    {
      assert values[..i + 1][..i] == values[..i];
      equity := equity * (1.0 + values[i]);
      if equity > peak {
        peak := equity;
      }
      var drawdown := equity / peak - 1.0;
      if drawdown < maxDrawdown {
        maxDrawdown := drawdown;
      }
    }
    assert values[..|values|] == values;
    return Some(maxDrawdown);
  }

  /** The running peak is the greatest equity so far, the initial one included. */
  lemma {:induction false} PeakIsGreatest(values: seq<real>) returns (at: nat)
    ensures at <= |values| && Equity(values[..at]) == Peak(values)
    ensures forall i :: 0 <= i <= |values| ==> Equity(values[..i]) <= Peak(values)
  {
    if values == [] {
      at := 0;
    } else {
      var n := |values| - 1;
      var before := values[..n];
      at := PeakIsGreatest(before);
      assert values[..|values|] == values;
      forall i | 0 <= i <= |values| ensures Equity(values[..i]) <= Peak(values) {
        if i <= n {
          assert before[..i] == values[..i];
        }
      }
      assert before[..at] == values[..at];
      if Equity(values) > Peak(before) {
        at := |values|;
      }
    }
  }

  /** The result is some prefix's drawdown and no greater than any. */
  lemma {:induction false} LeastDrawdownIsLeast(values: seq<real>) returns (at: nat)
    ensures at <= |values| && DrawdownAt(values[..at]) == LeastDrawdown(values)
    ensures forall j :: 0 <= j <= |values| ==> LeastDrawdown(values) <= DrawdownAt(values[..j])
  {
    if values == [] {
      at := 0;
    } else {
      var n := |values| - 1;
      var before := values[..n];
      at := LeastDrawdownIsLeast(before);
      assert values[..|values|] == values;
      forall j | 0 <= j <= |values| ensures LeastDrawdown(values) <= DrawdownAt(values[..j]) {
        if j <= n {
          assert before[..j] == values[..j];
        }
      }
      assert before[..at] == values[..at];
      if DrawdownAt(values) < LeastDrawdown(before) {
        at := |values|;
      }
    }
  }

  ghost predicate NeverRuined(values: seq<real>) {
    forall j :: 0 <= j <= |values| ==> Equity(values[..j]) >= 0.0
  }

  lemma LossesBoundedByStakeNeverRuin(values: seq<real>)
    requires forall k :: 0 <= k < |values| ==> values[k] >= -1.0
    ensures NeverRuined(values)
  {
    forall j | 0 <= j <= |values| ensures Equity(values[..j]) >= 0.0 {
      EquityNonNegative(values[..j]);
    }
  }

  lemma {:induction false} EquityNonNegative(values: seq<real>)
    requires forall k :: 0 <= k < |values| ==> values[k] >= -1.0
    ensures Equity(values) >= 0.0
  {
    if values != [] {
      EquityNonNegative(values[..|values| - 1]);
    }
  }

  lemma SmallerBaseLargerRatio(e: real, base: real, peak: real)
    requires e >= 0.0 && 0.0 < base <= peak
    ensures e / peak <= e / base
  {
    assert e / base - e / peak == e * (peak - base) / (base * peak);
  }

  lemma RatioSign(e: real, peak: real)
    requires peak > 0.0
    ensures e / peak >= 0.0 <==> e >= 0.0
  {
    assert e / peak * peak == e;
  }

  /** The quadratic definition: the least equity_j / equity_i - 1 over all i <= j with equity_i > 0, the initial
    * equity included. */
  ghost predicate Quadratic(values: seq<real>) {
    && (forall i, j :: 0 <= i <= j <= |values| && Equity(values[..i]) > 0.0 ==>
      LeastDrawdown(values) <= Equity(values[..j]) / Equity(values[..i]) - 1.0)
    && (exists i, j ::
      0 <= i <= j <= |values| && Equity(values[..i]) > 0.0
      && LeastDrawdown(values) == Equity(values[..j]) / Equity(values[..i]) - 1.0)
  }

  /** Every fall from positive to negative equity is matched by some equity over its running peak. */
  ghost predicate RuinsUndercut(values: seq<real>) {
    forall i, j :: 0 <= i <= j <= |values| && Equity(values[..i]) > 0.0 && Equity(values[..j]) < 0.0 ==>
      exists k :: 0 <= k <= |values| && DrawdownAt(values[..k]) <= Equity(values[..j]) / Equity(values[..i]) - 1.0
  }

  /** The result is the fall of some equity from the greatest one before it. */
  lemma LeastDrawdownIsFall(values: seq<real>) returns (top: nat, at: nat)
    ensures top <= at <= |values| && Equity(values[..top]) > 0.0
    ensures LeastDrawdown(values) == DrawdownAt(values[..at]) == Equity(values[..at]) / Equity(values[..top]) - 1.0
  {
    at := LeastDrawdownIsLeast(values);
    top := PeakIsGreatest(values[..at]);
    assert values[..at][..top] == values[..top];
  }

  /** No fall to an equity of zero or more is deeper than the result. */
  lemma SolventFallIsBounded(values: seq<real>, i: nat, j: nat)
    requires i <= j <= |values| && Equity(values[..i]) > 0.0 && Equity(values[..j]) >= 0.0
    ensures LeastDrawdown(values) <= Equity(values[..j]) / Equity(values[..i]) - 1.0
  {
    PeakBounds(values, i, j);
    SmallerBaseLargerRatio(Equity(values[..j]), Equity(values[..i]), Peak(values[..j]));
    var _ := LeastDrawdownIsLeast(values);
    assert LeastDrawdown(values) <= DrawdownAt(values[..j]);
  }

  lemma ResultIsBelow(values: seq<real>, k: nat)
    requires k <= |values|
    ensures LeastDrawdown(values) <= DrawdownAt(values[..k])
  {
    var _ := LeastDrawdownIsLeast(values);
  }

  /** The one-pass drawdown is the quadratic one exactly on runs whose ruinous falls are undercut. */
  lemma QuadraticIff(values: seq<real>)
    ensures Quadratic(values) <==> RuinsUndercut(values)
  {
    hide Equity, LeastDrawdown, DrawdownAt;
    var top, at := LeastDrawdownIsFall(values);
    if RuinsUndercut(values) {
      forall i, j | 0 <= i <= j <= |values| && Equity(values[..i]) > 0.0
        ensures LeastDrawdown(values) <= Equity(values[..j]) / Equity(values[..i]) - 1.0
      {
        if Equity(values[..j]) < 0.0 {
          var k :| 0 <= k <= |values| && DrawdownAt(values[..k]) <= Equity(values[..j]) / Equity(values[..i]) - 1.0;
          ResultIsBelow(values, k);
        } else {
          SolventFallIsBounded(values, i, j);
        }
      }
    }
    if Quadratic(values) {
      forall i, j | 0 <= i <= j <= |values| && Equity(values[..i]) > 0.0 && Equity(values[..j]) < 0.0
        ensures exists k ::
          0 <= k <= |values| && DrawdownAt(values[..k]) <= Equity(values[..j]) / Equity(values[..i]) - 1.0
      {
        assert DrawdownAt(values[..at]) <= Equity(values[..j]) / Equity(values[..i]) - 1.0;
      }
    }
  }

  lemma PeakBounds(values: seq<real>, i: nat, j: nat)
    requires i <= j <= |values|
    ensures Equity(values[..i]) <= Peak(values[..j])
  {
    var _ := PeakIsGreatest(values[..j]);
    assert values[..j][..i] == values[..i];
  }

  /** Equity that never turns negative leaves nothing to undercut. */
  lemma DrawdownIsQuadraticMinimum(values: seq<real>)
    requires NeverRuined(values)
    ensures Quadratic(values)
  {
    QuadraticIff(values);
  }

  ghost predicate AtLeast(values: seq<real>, bound: real) {
    forall k :: 0 <= k < |values| ==> values[k] >= bound
  }

  /** The two definitions agree on all runs of returns from a bound up exactly when the bound is at least -1. */
  lemma QuadraticOnReturnsFromIff(bound: real)
    ensures (forall values :: AtLeast(values, bound) ==> Quadratic(values)) <==> bound >= -1.0
  {
    if bound >= -1.0 {
      forall values | AtLeast(values, bound) ensures Quadratic(values) {
        LossesBoundedByStakeNeverRuin(values);
        DrawdownIsQuadraticMinimum(values);
      }
    } else {
      var values := [-0.5, bound];
      HalfThenRuin(bound);
      assert AtLeast(values, bound) && !Quadratic(values);
    }
  }

  /** The drawdown stays within [-1, 0] exactly when the equity never turns negative. */
  lemma DrawdownWithinUnitIff(values: seq<real>)
    ensures -1.0 <= LeastDrawdown(values) <= 0.0 <==> NeverRuined(values)
  {
    var at := LeastDrawdownIsLeast(values);
    RatioSign(Equity(values[..at]), Peak(values[..at]));
    forall j | 0 <= j <= |values| && Equity(values[..j]) < 0.0 ensures LeastDrawdown(values) < -1.0 {
      RatioSign(Equity(values[..j]), Peak(values[..j]));
      assert LeastDrawdown(values) <= DrawdownAt(values[..j]);
    }
  }

  /** A loss of a half followed by a return below -1 splits the definitions: equity 1, 1/2, negative. */
  lemma HalfThenRuin(bound: real)
    requires bound < -1.0
    ensures !Quadratic([-0.5, bound])
  {
    var values := [-0.5, bound];
    assert values[..2] == values && values[..1] == [-0.5] && values[..1][..0] == [] && values[..0] == [];
    assert Equity([]) == 1.0 && Equity([-0.5]) == 0.5 && Equity(values) == 0.5 * (1.0 + bound);
    assert Peak([-0.5]) == 1.0 && Peak(values) == 1.0;
    assert LeastDrawdown([-0.5]) == -0.5;
    assert LeastDrawdown(values) >= Equity(values) - 1.0 || LeastDrawdown(values) >= -0.5;
    assert Equity(values[..2]) / Equity(values[..1]) - 1.0 == bound;
  }

  /** Ruin alone does not split them: after a single return below -1 both give the same. */
  lemma SingleRuinAgrees()
    ensures !NeverRuined([-2.0]) && Quadratic([-2.0])
  {
    var values := [-2.0];
    assert values[..1] == values && values[..0] == [];
    assert Equity([]) == 1.0 && Equity(values) == -1.0 && Peak(values) == 1.0;
    assert DrawdownAt(values[..1]) == -2.0;
    QuadraticIff(values);
  }

  // ------------------------------------------------------------ tail risk

  predicate AtMost(a: real, b: real) {
    a <= b
  }

  lemma AtMostIsTotal()
    ensures TotalPreorder(AtMost)
  {
  }

  /** Conversion to an integer truncates toward zero. */
  function Truncate(v: real): int {
    if v >= 0.0 then v.Floor else -((-v).Floor)
  }

  function CeilDecimal(v: real): int {
    var integral := Truncate(v);
    if v == integral as real then integral else integral + 1
  }

  predicate IsCeiling(c: int, v: real) {
    v <= c as real < v + 1.0
  }

  /** The rounding used is the true ceiling exactly off the negative fractions. */
  lemma CeilIsCeilingIff(v: real)
    ensures IsCeiling(CeilDecimal(v), v) <==> v >= 0.0 || v == v.Floor as real
  {
    var w := -v;
    if v < 0.0 {
      assert v == v.Floor as real <==> w == w.Floor as real by {
        if v == v.Floor as real {
          assert w == (-v.Floor) as real && w.Floor == -v.Floor;
        }
        if w == w.Floor as real {
          assert v == (-w.Floor) as real && v.Floor == -w.Floor;
        }
      }
    }
  }

  type Probability = p: real | 0.0 < p <= 1.0 witness 1.0

  function TailCount(n: nat, p: Probability): int {
    var c := CeilDecimal(n as real * p);
    if c < 1 then 1 else c
  }

  /** The tail holds the true ceiling of n * p values: at least one, at most all. */
  lemma TailCountIsCeiling(n: nat, p: Probability)
    requires n >= 1
    ensures IsCeiling(TailCount(n, p), n as real * p) && 1 <= TailCount(n, p) <= n
  {
    var v := n as real * p;
    assert 0.0 < v <= n as real;
    CeilIsCeilingIff(v);
  }

  lemma ProductGrows(n: real, p: real, q: real, v: real, w: real)
    requires n >= 0.0 && p <= q && v == n * p && w == n * q
    ensures v <= w
  {
  }

  lemma CeilingsGrow(c: int, d: int, v: real, w: real)
    requires IsCeiling(c, v) && IsCeiling(d, w) && v <= w
    ensures c <= d
  {
    assert c as real < (d + 1) as real;
  }

  lemma TailCountGrows(n: nat, p: Probability, q: Probability)
    requires n >= 1 && p <= q
    ensures TailCount(n, p) <= TailCount(n, q)
  {
    TailCountIsCeiling(n, p);
    TailCountIsCeiling(n, q);
    var v, w := n as real * p, n as real * q;
    ProductGrows(n as real, p, q, v, w);
    CeilingsGrow(TailCount(n, p), TailCount(n, q), v, w);
  }

  /** The mean of the tail of the sorted values. */
  function Cvar(values: seq<real>, p: Probability): Option<real> {
    if values == [] then None
    else
      AtMostIsTotal();
      SortCorrect(values, AtMost);
      TailCountIsCeiling(|values|, p);
      var tail := Sort(values, AtMost)[..TailCount(|values|, p)];
      Some(Sum(tail) / |tail| as real)
  }

  lemma {:induction false} SumOfConcat(a: seq<real>, b: seq<real>)
    ensures Sum(a + b) == Sum(a) + Sum(b)
  {
    if b == [] {
      assert a + b == a;
    } else {
      SumOfConcat(a, b[..|b| - 1]);
      assert (a + b)[..|a + b| - 1] == a + b[..|b| - 1];
    }
  }

  /** Taking out one occurrence takes its value off the sum. */
  lemma RemoveOne(t: seq<real>, x: real) returns (rest: seq<real>)
    requires x in t
    ensures multiset(rest) == multiset(t) - multiset{x} && |rest| + 1 == |t| && Sum(t) == Sum(rest) + x
  {
    var i :| 0 <= i < |t| && t[i] == x;
    rest := t[..i] + t[i + 1..];
    assert t == t[..i] + ([x] + t[i + 1..]);
    SumOfConcat(t[..i], [x] + t[i + 1..]);
    SumOfConcat([x], t[i + 1..]);
    SumOfConcat(t[..i], t[i + 1..]);
  }

  lemma DropHead(s: seq<real>, k: nat)
    requires 1 <= k <= |s|
    ensures Sum(s[..k]) == s[0] + Sum(s[1..][..k - 1])
  {
    assert s[..k] == [s[0]] + s[1..][..k - 1];
    SumOfConcat([s[0]], s[1..][..k - 1]);
  }

  /** The first k sorted values have the least sum of any k values. */
  lemma {:induction false} SortedPrefixIsLeast(s: seq<real>, t: seq<real>)
    requires SortedBy(s, AtMost) && multiset(t) <= multiset(s)
    ensures |t| <= |s| && Sum(s[..|t|]) <= Sum(t)
    decreases |s|
  {
    if s == [] {
      assert |multiset(t)| <= |multiset(s)|;
    } else if s[0] in t {
      var fewer := RemoveOne(t, s[0]);
      PartWithoutHead(s, t, fewer);
      SortedPrefixIsLeast(s[1..], fewer);
      DropHead(s, |t|);
    } else {
      NotTheHead(s, t);
      SortedPrefixIsLeast(s[1..], t);
      ShiftedPrefix(s, |t|);
    }
  }

  lemma PartWithoutHead(s: seq<real>, t: seq<real>, fewer: seq<real>)
    requires s != [] && multiset(t) <= multiset(s) && multiset(fewer) == multiset(t) - multiset{s[0]}
    ensures multiset(fewer) <= multiset(s[1..])
  {
    assert s == [s[0]] + s[1..];
    assert multiset(s) == multiset{s[0]} + multiset(s[1..]);
  }

  lemma NotTheHead(s: seq<real>, t: seq<real>)
    requires s != [] && multiset(t) <= multiset(s) && s[0] !in t
    ensures multiset(t) <= multiset(s[1..])
  {
    assert s == [s[0]] + s[1..];
    assert s[0] !in multiset(t);
  }

  lemma {:induction false} ShiftedPrefix(s: seq<real>, k: nat)
    requires SortedBy(s, AtMost) && k + 1 <= |s|
    ensures Sum(s[..k]) <= Sum(s[1..][..k])
  {
    if k > 0 {
      ShiftedPrefix(s, k - 1);
      assert s[..k][..k - 1] == s[..k - 1] && s[1..][..k][..k - 1] == s[1..][..k - 1];
      assert AtMost(s[k - 1], s[k]);
    }
  }

  /** The tail that is averaged. */
  lemma TailOf(values: seq<real>, p: Probability) returns (s: seq<real>, k: nat)
    requires values != []
    ensures 1 <= k <= |values| && k == TailCount(|values|, p)
    ensures s == Sort(values, AtMost) && SortedBy(s, AtMost) && multiset(s) == multiset(values) && |s| == |values|
    ensures Cvar(values, p) == Some(Sum(s[..k]) / k as real)
  {
    AtMostIsTotal();
    SortCorrect(values, AtMost);
    TailCountIsCeiling(|values|, p);
    s, k := Sort(values, AtMost), TailCount(|values|, p);
  }

  lemma DivideBoth(a: real, b: real, k: nat)
    requires a <= b && k >= 1
    ensures a / k as real <= b / k as real
  {
  }

  /** No selection of as many values, repetitions respected, has a smaller mean; the tail is one, so the bound is
    * attained. */
  lemma CvarIsLeastMean(values: seq<real>, p: Probability)
    requires values != []
    ensures forall t: seq<real> :: multiset(t) <= multiset(values) && |t| == TailCount(|values|, p) ==>
      Cvar(values, p).value <= Sum(t) / |t| as real
    ensures exists t: seq<real> ::
      multiset(t) <= multiset(values) && |t| == TailCount(|values|, p) && Cvar(values, p).value == Sum(t) / |t| as real
  {
    var s, k := TailOf(values, p);
    forall t: seq<real> | multiset(t) <= multiset(values) && |t| == k
      ensures Cvar(values, p).value <= Sum(t) / |t| as real
    {
      SortedPrefixIsLeast(s, t);
      DivideBoth(Sum(s[..k]), Sum(t), k);
    }
    var tail := s[..k];
    assert s == tail + s[k..];
    assert multiset(tail) <= multiset(values) && |tail| == k;
  }

  lemma CvarIgnoresOrder(a: seq<real>, b: seq<real>, p: Probability)
    requires multiset(a) == multiset(b)
    ensures Cvar(a, p) == Cvar(b, p)
  {
    assert |multiset(a)| == |a| && |multiset(b)| == |b|;
    if a != [] {
      var s, _ := TailOf(a, p);
      var t, _ := TailOf(b, p);
      AtMostIsTotal();
      SortedIsUnique(s, t, AtMost);
    }
  }

  lemma {:induction false} PrefixBelowNext(s: seq<real>, k: nat, x: real)
    requires k <= |s| && forall i :: 0 <= i < k ==> s[i] <= x
    ensures Sum(s[..k]) <= k as real * x
  {
    if k > 0 {
      PrefixBelowNext(s, k - 1, x);
      assert s[..k][..k - 1] == s[..k - 1];
      assert (k - 1) as real * x + x == k as real * x;
    }
  }

  /** Means of longer sorted prefixes are no smaller. */
  lemma {:induction false} PrefixMeansGrow(s: seq<real>, j: nat, k: nat)
    requires SortedBy(s, AtMost) && 1 <= j <= k <= |s|
    ensures Sum(s[..j]) / j as real <= Sum(s[..k]) / k as real
    decreases k
  {
    if j < k {
      PrefixMeansGrow(s, j, k - 1);
      NextPrefixMeanGrows(s, k);
    }
  }

  lemma NextPrefixMeanGrows(s: seq<real>, k: nat)
    requires SortedBy(s, AtMost) && 2 <= k <= |s|
    ensures Sum(s[..k - 1]) / (k - 1) as real <= Sum(s[..k]) / k as real
  {
    forall i | 0 <= i < k - 1 ensures s[i] <= s[k - 1] {
      assert AtMost(s[i], s[k - 1]);
    }
    PrefixBelowNext(s, k - 1, s[k - 1]);
    assert s[..k][..k - 1] == s[..k - 1];
    OneMoreRaisesMean(Sum(s[..k - 1]), s[k - 1], k - 1);
  }

  lemma OneMoreRaisesMean(sum: real, x: real, n: nat)
    requires n >= 1 && sum <= n as real * x
    ensures sum / n as real <= (sum + x) / (n + 1) as real
  {
    var m := n as real;
    assert (sum + x) / (m + 1.0) - sum / m == (m * x - sum) / (m * (m + 1.0));
  }

  /** A larger tail never has a smaller mean. */
  lemma CvarGrowsWithTail(values: seq<real>, p: Probability, q: Probability)
    requires values != [] && p <= q
    ensures Cvar(values, p).value <= Cvar(values, q).value
  {
    var s, j := TailOf(values, p);
    var _, k := TailOf(values, q);
    TailCountGrows(|values|, p, q);
    PrefixMeansGrow(s, j, k);
  }

  lemma {:induction false} SumOfPermutation(a: seq<real>, b: seq<real>)
    requires multiset(a) == multiset(b)
    ensures Sum(a) == Sum(b)
    decreases |a|
  {
    assert |multiset(a)| == |a| && |multiset(b)| == |b|;
    if a != [] {
      var x := a[0];
      assert x in multiset(a);
      var c := RemoveOne(a, x);
      var d := RemoveOne(b, x);
      SumOfPermutation(c, d);
    }
  }

  /** The result lies between the least value and the overall mean. */
  lemma CvarBetweenMinAndMean(values: seq<real>, p: Probability, least: real)
    requires values != [] && forall k :: 0 <= k < |values| ==> least <= values[k]
    ensures least <= Cvar(values, p).value <= Sum(values) / |values| as real
  {
    var s, k := TailOf(values, p);
    PrefixMeansGrow(s, k, |s|);
    assert s[..|s|] == s;
    SumOfPermutation(s, values);
    forall i | 0 <= i < |s| ensures least <= s[i] {
      assert s[i] in multiset(s);
      assert s[i] in values;
    }
    LowerBoundOfPrefix(s, k, least);
    MeanAbove(Sum(s[..k]), k, least);
  }

  lemma MeanAbove(sum: real, k: nat, x: real)
    requires k >= 1 && k as real * x <= sum
    ensures x <= sum / k as real
  {
    var m := k as real;
    assert sum / m * m == sum;
    if sum / m < x {
      assert sum / m * m < x * m;
    }
  }

  lemma {:induction false} LowerBoundOfPrefix(s: seq<real>, k: nat, x: real)
    requires k <= |s| && forall i :: 0 <= i < k ==> x <= s[i]
    ensures k as real * x <= Sum(s[..k])
  {
    if k > 0 {
      LowerBoundOfPrefix(s, k - 1, x);
      assert s[..k][..k - 1] == s[..k - 1];
      assert (k - 1) as real * x + x == k as real * x;
    }
  }
}
