/** Value types shared by every component. */
module Contracts {
  datatype Option<+T> = None | Some(value: T)

  datatype Result<+T, +E> = Ok(value: T) | Err(error: E)

  /** Only equality and order of identifiers matter, so an integer stands for each one. */
  type CanonicalId = int

  /** Instants of one timezone; `Timestamp` arithmetic is exact. */
  type Timestamp = int

  type PositiveDecimal = d: real | d > 0.0 witness 1.0

  type NonNegativeDecimal = d: real | d >= 0.0

  function Min(a: real, b: real): real {
    if b < a then b else a
  }

  function Max(a: real, b: real): real {
    if b > a then b else a
  }

  /** The first element satisfying p, if any does. */
  function FirstMatch<T>(s: seq<T>, p: T -> bool): (r: Option<T>)
    ensures r.Some? ==> r.value in s && p(r.value)
    ensures r.None? ==> forall x :: x in s ==> !p(x)
  {
    if s == [] then None
    else if p(s[0]) then Some(s[0])
    else FirstMatch(s[1..], p)
  }

  /** Nothing before the match satisfies p. */
  lemma {:induction false} FirstMatchIsFirst<T>(s: seq<T>, p: T -> bool)
    ensures FirstMatch(s, p).None? ==> forall k :: 0 <= k < |s| ==> !p(s[k])
    ensures FirstMatch(s, p).Some? ==>
      exists k :: 0 <= k < |s| && s[k] == FirstMatch(s, p).value && p(s[k]) && forall j :: 0 <= j < k ==> !p(s[j])
  {
    if s != [] && !p(s[0]) {
      FirstMatchIsFirst(s[1..], p);
      if FirstMatch(s[1..], p).Some? {
        var k :| 0 <= k < |s[1..]| && s[1..][k] == FirstMatch(s, p).value && p(s[1..][k])
          && forall j :: 0 <= j < k ==> !p(s[1..][j]);
        assert s[k + 1] == FirstMatch(s, p).value;
        forall j | 0 <= j < k + 1 ensures !p(s[j]) {
          assert j > 0 ==> s[j] == s[1..][j - 1];
        }
      }
    }
  }

  lemma {:induction false} FirstMatchOfConcat<T>(a: seq<T>, b: seq<T>, p: T -> bool)
    ensures FirstMatch(a + b, p) == if FirstMatch(a, p).Some? then FirstMatch(a, p) else FirstMatch(b, p)
  {
    if a == [] {
      assert a + b == b;
    } else {
      FirstMatchOfConcat(a[1..], b, p);
      assert (a + b)[1..] == a[1..] + b;
    }
  }

  lemma AppendAssociates<T>(a: seq<T>, b: seq<T>, x: T)
    ensures a + b + [x] == a + (b + [x])
  {
  }

  /** One more element on either side of a split. */
  lemma SplitGrows<T>(whole: seq<T>, left: seq<T>, right: seq<T>, x: T, whole1: seq<T>, left1: seq<T>, right1: seq<T>)
    requires multiset(left) + multiset(right) == multiset(whole)
    requires whole1 == whole + [x]
    requires (left1 == left + [x] && right1 == right) || (left1 == left && right1 == right + [x])
    ensures multiset(left1) + multiset(right1) == multiset(whole1)
  {
    assert multiset(left + [x]) == multiset(left) + multiset{x};
    assert multiset(right + [x]) == multiset(right) + multiset{x};
    assert multiset(whole + [x]) == multiset(whole) + multiset{x};
  }

  /** A partition of all but the last element grows to one of the whole. */
  lemma PartitionGrows<T>(whole: seq<T>, left: seq<T>, right: seq<T>, left1: seq<T>, right1: seq<T>)
    requires whole != [] && multiset(left) + multiset(right) == multiset(whole[..|whole| - 1])
    requires var x := whole[|whole| - 1];
      (left1 == left + [x] && right1 == right) || (left1 == left && right1 == right + [x])
    ensures multiset(left1) + multiset(right1) == multiset(whole)
  {
    var n := |whole| - 1;
    assert whole == whole[..n] + [whole[n]];
    SplitGrows(whole[..n], left, right, whole[n], whole, left1, right1);
  }

  /** Members of a sequence are those before its last element, and that one. */
  lemma LastOrEarlier<T>(s: seq<T>)
    requires s != []
    ensures forall x :: x in s <==> x in s[..|s| - 1] || x == s[|s| - 1]
  {
    assert s == s[..|s| - 1] + [s[|s| - 1]];
  }
}
