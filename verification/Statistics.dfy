/** Sums, means and variances over exact decimals. */
module Statistics {

  function Sum(values: seq<real>): real {
    if values == [] then 0.0 else Sum(values[..|values| - 1]) + values[|values| - 1]
  }

  function Mean(values: seq<real>): real
    requires values != []
  {
    Sum(values) / |values| as real
  }

  function Square(x: real): (s: real)
    ensures s >= 0.0
  {
    x * x
  }

  function SumOfSquares(values: seq<real>, mean: real): (s: real)
    ensures s >= 0.0
  {
    if values == [] then 0.0 else SumOfSquares(values[..|values| - 1], mean) + Square(values[|values| - 1] - mean)
  }

  /** Population variance: the square of the standard deviation. */
  function Variance(values: seq<real>): (v: real)
    requires values != []
    ensures v >= 0.0
  {
    QuotientNonNegative(SumOfSquares(values, Mean(values)), |values|);
    SumOfSquares(values, Mean(values)) / |values| as real
  }

  lemma QuotientNonNegative(a: real, n: nat)
    requires a >= 0.0 && n >= 1
    ensures a / n as real >= 0.0
  {
  }

  /** The spread around any point is the spread around the mean, which is the variance, and the distance to the mean. */
  lemma VarianceIsLeastSpread(values: seq<real>, m: real)
    requires values != []
    ensures SumOfSquares(values, m)
      == |values| as real * Variance(values) + |values| as real * ((m - Mean(values)) * (m - Mean(values)))
  {
    hide SumOfSquares, Sum, Square;
    SpreadMoves(values, m, Mean(values));
    Undivided(Sum(values), |values|);
    Undivided(SumOfSquares(values, Mean(values)), |values|);
    Difference(|values| as real, m, Mean(values));
  }

  lemma Undivided(a: real, n: nat)
    requires n >= 1
    ensures n as real * (a / n as real) == a
  {
  }

  lemma Difference(n: real, m: real, mean: real)
    ensures (mean - m) * (2.0 * (n * mean) - n * (m + mean)) == n * ((m - mean) * (m - mean))
  {
    var d := mean - m;
    assert 2.0 * (n * mean) - n * (m + mean) == n * d;
    assert d * (n * d) == n * (d * d);
    assert (m - mean) * (m - mean) == d * d;
  }

  lemma {:induction false} SpreadMoves(values: seq<real>, m: real, c: real)
    ensures SumOfSquares(values, m) - SumOfSquares(values, c)
      == (c - m) * (2.0 * Sum(values) - |values| as real * (m + c))
  {
    hide Square;
    if values == [] {
      assert (c - m) * (0.0 - 0.0 * (m + c)) == 0.0;
    } else {
      var n := |values| - 1;
      var before := values[..n];
      SpreadMoves(before, m, c);
      SpreadStep(SumOfSquares(before, m) - SumOfSquares(before, c), Sum(before), n as real, values[n], m, c);
    }
  }

  lemma SpreadStep(spread: real, s: real, n: real, x: real, m: real, c: real)
    requires spread == (c - m) * (2.0 * s - n * (m + c))
    ensures spread + Square(x - m) - Square(x - c) == (c - m) * (2.0 * (s + x) - (n + 1.0) * (m + c))
  {
    assert Square(x - m) - Square(x - c) == (c - m) * (2.0 * x - (m + c));
    AddProducts(c - m, 2.0 * s - n * (m + c), 2.0 * x - (m + c));
    assert (n + 1.0) * (m + c) == n * (m + c) + (m + c);
  }

  lemma AddProducts(k: real, a: real, b: real)
    ensures k * a + k * b == k * (a + b)
  {
  }
}
