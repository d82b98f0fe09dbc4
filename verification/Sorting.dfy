/** The built-in stable sort, given by insertion, with the facts the algorithms that sort rely on. */
module Sorting {

  ghost predicate TotalPreorder<T(!new)>(le: (T, T) -> bool) {
    && (forall a, b :: le(a, b) || le(b, a))
    && (forall a, b, c :: le(a, b) && le(b, c) ==> le(a, c))
  }

  ghost predicate SortedBy<T>(s: seq<T>, le: (T, T) -> bool) {
    forall i, j :: 0 <= i < j < |s| ==> le(s[i], s[j])
  }

  function Insert<T>(x: T, s: seq<T>, le: (T, T) -> bool): seq<T> {
    if s == [] then [x]
    else if le(x, s[0]) then [x] + s
    else [s[0]] + Insert(x, s[1..], le)
  }

  function Sort<T>(s: seq<T>, le: (T, T) -> bool): seq<T> {
    if s == [] then [] else Insert(s[0], Sort(s[1..], le), le)
  }

  lemma {:induction false} InsertAdds<T>(x: T, s: seq<T>, le: (T, T) -> bool)
    ensures multiset(Insert(x, s, le)) == multiset(s) + multiset{x}
    ensures |Insert(x, s, le)| == |s| + 1
  {
    if s != [] && !le(x, s[0]) {
      InsertAdds(x, s[1..], le);
      assert s == [s[0]] + s[1..];
    }
  }

  lemma {:induction false} InsertSorts<T(!new)>(x: T, s: seq<T>, le: (T, T) -> bool)
    requires TotalPreorder(le) && SortedBy(s, le)
    ensures SortedBy(Insert(x, s, le), le)
  {
    if s != [] && !le(x, s[0]) {
      InsertSorts(x, s[1..], le);
      var rest := Insert(x, s[1..], le);
      InsertAdds(x, s[1..], le);
      forall i | 0 <= i < |rest| ensures le(s[0], rest[i]) {
        assert rest[i] in multiset(rest);
        assert rest[i] == x || rest[i] in s[1..];
      }
    } else if s != [] {
      forall i | 0 <= i < |s| ensures le(x, s[i]) {
        assert i > 0 ==> le(s[0], s[i]);
      }
    }
  }

  /** Sorting permutes its input and puts it in order. */
  lemma {:induction false} SortCorrect<T(!new)>(s: seq<T>, le: (T, T) -> bool)
    requires TotalPreorder(le)
    ensures SortedBy(Sort(s, le), le)
    ensures multiset(Sort(s, le)) == multiset(s)
    ensures |Sort(s, le)| == |s|
  {
    if s != [] {
      SortCorrect(s[1..], le);
      InsertSorts(s[0], Sort(s[1..], le), le);
      InsertAdds(s[0], Sort(s[1..], le), le);
      assert s == [s[0]] + s[1..];
    }
  }

  /** No two distinct members of m are ranked equal. */
  ghost predicate DistinctlyRanked<T(!new)>(m: multiset<T>, le: (T, T) -> bool) {
    forall x, y :: x in m && y in m && le(x, y) && le(y, x) ==> x == y
  }

  /** A multiset whose members are distinctly ranked has one sorted arrangement. */
  lemma {:induction false} SortedIsUnique<T(!new)>(a: seq<T>, b: seq<T>, le: (T, T) -> bool)
    requires TotalPreorder(le) && DistinctlyRanked(multiset(a), le)
    requires SortedBy(a, le) && SortedBy(b, le)
    requires multiset(a) == multiset(b)
    ensures a == b
  {
    SameLength(a, b);
    if a != [] {
      SameHead(a, b, le);
      SplitHead(a, le);
      SplitHead(b, le);
      RankedSubset(multiset(a[1..]), multiset(a), le);
      hide TotalPreorder, DistinctlyRanked, SortedBy;
      SortedIsUnique(a[1..], b[1..], le);
      SameHeadAndTail(a, b);
    }
  }

  lemma SameLength<T>(a: seq<T>, b: seq<T>)
    requires multiset(a) == multiset(b)
    ensures |a| == |b|
  {
    assert |multiset(a)| == |a| && |multiset(b)| == |b|;
  }

  lemma SameHeadAndTail<T>(a: seq<T>, b: seq<T>)
    requires a != [] && b != [] && a[0] == b[0] && a[1..] == b[1..]
    ensures a == b
  {
    assert a == [a[0]] + a[1..] && b == [b[0]] + b[1..];
  }

  lemma SplitHead<T(!new)>(s: seq<T>, le: (T, T) -> bool)
    requires s != [] && SortedBy(s, le)
    ensures SortedBy(s[1..], le)
    ensures multiset(s[1..]) == multiset(s) - multiset{s[0]}
  {
    assert s == [s[0]] + s[1..];
  }

  lemma RankedSubset<T(!new)>(part: multiset<T>, whole: multiset<T>, le: (T, T) -> bool)
    requires part <= whole && DistinctlyRanked(whole, le)
    ensures DistinctlyRanked(part, le)
  {
    forall x, y | x in part && y in part && le(x, y) && le(y, x) ensures x == y {
      assert x in whole && y in whole;
    }
  }

  lemma SameHead<T(!new)>(a: seq<T>, b: seq<T>, le: (T, T) -> bool)
    requires TotalPreorder(le) && DistinctlyRanked(multiset(a), le)
    requires SortedBy(a, le) && SortedBy(b, le)
    requires multiset(a) == multiset(b) && a != [] && b != []
    ensures a[0] == b[0]
  {
    assert a[0] in multiset(a) && b[0] in multiset(b);
    HeadIsLeast(a, b[0], le);
    HeadIsLeast(b, a[0], le);
  }

  lemma HeadIsLeast<T(!new)>(s: seq<T>, x: T, le: (T, T) -> bool)
    requires TotalPreorder(le) && SortedBy(s, le) && x in multiset(s)
    ensures s != [] && le(s[0], x)
  {
    assert x in s;
    var i :| 0 <= i < |s| && s[i] == x;
    assert i == 0 || le(s[0], s[i]);
  }
}
