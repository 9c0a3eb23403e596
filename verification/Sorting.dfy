/**
 Stable sorting, the model of `slice::sort_by`. A comparison is given as
 `le(x, y)`, which says that `x` may stand before `y`.
 */
module Sorting {

  /** `le` ranks the elements of `s`; several of them may share a rank. */
  ghost predicate RanksOn<T(!new)>(le: (T, T) -> bool, s: seq<T>) {
    && (forall x, y :: x in s && y in s ==> le(x, y) || le(y, x))
    && (forall x, y, z :: x in s && y in s && z in s && le(x, y) && le(y, z) ==> le(x, z))
  }

  /** `le` is a total order on the elements of `s`. */
  ghost predicate TotalOrderOn<T(!new)>(le: (T, T) -> bool, s: seq<T>) {
    RanksOn(le, s) && forall x, y :: x in s && y in s && le(x, y) && le(y, x) ==> x == y
  }

  ghost predicate Sorted<T(!new)>(le: (T, T) -> bool, s: seq<T>) {
    forall i, j :: 0 <= i < j < |s| ==> le(s[i], s[j])
  }

  function Insert<T>(le: (T, T) -> bool, x: T, s: seq<T>): seq<T> {
    if s == [] then [x]
    else if le(x, s[0]) then [x] + s
    else [s[0]] + Insert(le, x, s[1..])
  }

  function Sort<T>(le: (T, T) -> bool, s: seq<T>): seq<T> {
    if s == [] then [] else Insert(le, s[0], Sort(le, s[1..]))
  }

  lemma {:induction false} InsertPermutes<T>(le: (T, T) -> bool, x: T, s: seq<T>)
    ensures multiset(Insert(le, x, s)) == multiset(s) + multiset{x}
  {
    if s == [] {
    } else if le(x, s[0]) {
    } else {
      InsertPermutes(le, x, s[1..]);
      assert s == [s[0]] + s[1..];
      assert multiset(s) == multiset{s[0]} + multiset(s[1..]);
    }
  }

  lemma {:induction false} SortPermutes<T>(le: (T, T) -> bool, s: seq<T>)
    ensures multiset(Sort(le, s)) == multiset(s)
    ensures |Sort(le, s)| == |s|
  {
    if s != [] {
      SortPermutes(le, s[1..]);
      InsertPermutes(le, s[0], Sort(le, s[1..]));
      assert s == [s[0]] + s[1..];
    }
    assert |multiset(Sort(le, s))| == |multiset(s)|;
  }

  /** Two sequences with the same elements, element by element. */
  lemma SameMembers<T>(a: seq<T>, b: seq<T>, x: T)
    requires multiset(a) == multiset(b)
    ensures x in a <==> x in b
  {
    assert x in a <==> x in multiset(a);
  }

  lemma {:induction false} InsertSorts<T(!new)>(le: (T, T) -> bool, x: T, s: seq<T>)
    requires RanksOn(le, [x] + s) && Sorted(le, s)
    ensures Sorted(le, Insert(le, x, s))
  {
    if s == [] {
    } else if le(x, s[0]) {
      assert x in [x] + s;
      forall j | 0 < j < |[x] + s| ensures le(x, ([x] + s)[j]) {
        assert s[0] in [x] + s && ([x] + s)[j] in [x] + s;
      }
    } else {
      assert x in [x] + s && s[0] in [x] + s;
      forall y | y in [x] + s[1..] ensures y in [x] + s {}
      InsertSorts(le, x, s[1..]);
      var r := Insert(le, x, s[1..]);
      InsertPermutes(le, x, s[1..]);
      forall j | 0 <= j < |r| ensures le(s[0], r[j]) {
        SameMembers(r, s[1..] + [x], r[j]);
        if r[j] != x {
          assert r[j] in s[1..];
        }
      }
    }
  }

  lemma {:induction false} SortSorts<T(!new)>(le: (T, T) -> bool, s: seq<T>)
    requires RanksOn(le, s)
    ensures Sorted(le, Sort(le, s))
  {
    if s != [] {
      forall y | y in s[1..] ensures y in s {}
      SortSorts(le, s[1..]);
      SortPermutes(le, s[1..]);
      forall y | y in [s[0]] + Sort(le, s[1..]) ensures y in s {
        SameMembers(Sort(le, s[1..]), s[1..], y);
      }
      InsertSorts(le, s[0], Sort(le, s[1..]));
    }
  }

  lemma SortedHeads<T(!new)>(le: (T, T) -> bool, a: seq<T>, b: seq<T>)
    requires TotalOrderOn(le, a) && a != [] && b != []
    requires multiset(a) == multiset(b) && Sorted(le, a) && Sorted(le, b)
    ensures a[0] == b[0]
  {
    SameMembers(a, b, a[0]);
    SameMembers(a, b, b[0]);
    assert a[0] in a && b[0] in a;
  }

  lemma SameTails<T>(a: seq<T>, b: seq<T>)
    requires a != [] && b != [] && a[0] == b[0] && multiset(a) == multiset(b)
    ensures multiset(a[1..]) == multiset(b[1..])
  {
    assert a == [a[0]] + a[1..] && b == [b[0]] + b[1..];
    assert multiset(a[1..]) == multiset(a) - multiset{a[0]};
    assert multiset(b[1..]) == multiset(b) - multiset{b[0]};
  }

  /** A sorted arrangement of given elements is unique. */
  lemma {:induction false} SortedIsUnique<T(!new)>(le: (T, T) -> bool, a: seq<T>, b: seq<T>)
    requires TotalOrderOn(le, a)
    requires multiset(a) == multiset(b) && Sorted(le, a) && Sorted(le, b)
    ensures a == b
  {
    assert |a| == |multiset(a)| == |multiset(b)| == |b|;
    if a != [] {
      SortedHeads(le, a, b);
      SameTails(a, b);
      forall y | y in a[1..] ensures y in a {}
      SortedIsUnique(le, a[1..], b[1..]);
      assert a == [a[0]] + a[1..] && b == [b[0]] + b[1..];
    }
  }

  /** Sorting forgets the order of its input. */
  lemma SortOfPermutation<T(!new)>(le: (T, T) -> bool, a: seq<T>, b: seq<T>)
    requires TotalOrderOn(le, a) && multiset(a) == multiset(b)
    ensures Sort(le, a) == Sort(le, b)
  {
    SortPermutes(le, a);
    SortPermutes(le, b);
    forall x ensures x in b <==> x in a { SameMembers(a, b, x); }
    forall x ensures x in Sort(le, a) <==> x in a { SameMembers(a, Sort(le, a), x); }
    SortSorts(le, a);
    SortSorts(le, b);
    SortedIsUnique(le, Sort(le, a), Sort(le, b));
  }

  lemma {:induction false} InsertAgrees<T(!new)>(le: (T, T) -> bool, le': (T, T) -> bool, x: T, s: seq<T>)
    requires forall y :: y in s ==> le(x, y) == le'(x, y)
    ensures Insert(le, x, s) == Insert(le', x, s)
  {
    if s != [] {
      InsertAgrees(le, le', x, s[1..]);
    }
  }

  /** Sorting depends on the comparison only through its results on the elements. */
  lemma {:induction false} SortAgrees<T(!new)>(le: (T, T) -> bool, le': (T, T) -> bool, s: seq<T>)
    requires forall y, z :: y in s && z in s ==> le(y, z) == le'(y, z)
    ensures Sort(le, s) == Sort(le', s)
  {
    if s != [] {
      forall y | y in s[1..] ensures y in s {}
      SortAgrees(le, le', s[1..]);
      SortPermutes(le, s[1..]);
      forall y | y in Sort(le, s[1..]) ensures y in s {
        SameMembers(Sort(le, s[1..]), s[1..], y);
      }
      InsertAgrees(le, le', s[0], Sort(le, s[1..]));
    }
  }

  function Map<T, U>(f: T -> U, s: seq<T>): (r: seq<U>)
    ensures |r| == |s| && forall i :: 0 <= i < |s| ==> r[i] == f(s[i])
  {
    seq(|s|, i requires 0 <= i < |s| => f(s[i]))
  }

  /** Compares images. */
  function Via<T, U>(le: (U, U) -> bool, f: T -> U): (T, T) -> bool {
    (x, y) => le(f(x), f(y))
  }

  lemma {:induction false} InsertMap<T, U>(le: (U, U) -> bool, f: T -> U, x: T, s: seq<T>)
    ensures Insert(le, f(x), Map(f, s)) == Map(f, Insert(Via(le, f), x, s))
  {
    if s == [] {
    } else if le(f(x), f(s[0])) {
      assert Map(f, [x] + s) == [f(x)] + Map(f, s);
    } else {
      InsertMap(le, f, x, s[1..]);
      assert Map(f, s)[1..] == Map(f, s[1..]);
      assert Map(f, [s[0]] + Insert(Via(le, f), x, s[1..])) == [f(s[0])] + Map(f, Insert(Via(le, f), x, s[1..]));
    }
  }

  /** Sorting images is taking images of what is sorted by them. */
  lemma {:induction false} SortMap<T, U>(le: (U, U) -> bool, f: T -> U, s: seq<T>)
    ensures Sort(le, Map(f, s)) == Map(f, Sort(Via(le, f), s))
  {
    if s != [] {
      SortMap(le, f, s[1..]);
      assert Map(f, s)[1..] == Map(f, s[1..]);
      InsertMap(le, f, s[0], Sort(Via(le, f), s[1..]));
    }
  }

  /** The last of the maximal elements, as `Iterator::max_by` returns it; `gt(x, y)` says that `x` is greater. */
  function Max<T>(gt: (T, T) -> bool, s: seq<T>): (r: T)
    requires s != []
    ensures r in s
  {
    if |s| == 1 then s[0]
    else
      var best := Max(gt, s[..|s| - 1]);
      if gt(best, s[|s| - 1]) then best else s[|s| - 1]
  }

  method MaxBy<T>(gt: (T, T) -> bool, s: seq<T>) returns (best: T)
    requires s != []
    ensures best == Max(gt, s)
  {
    best := s[0];
    for i := 1 to |s|
      invariant best == Max(gt, s[..i])
    {
      assert s[..i + 1][..i] == s[..i];
      if !gt(best, s[i]) {
        best := s[i];
      }
    }
    assert s[..|s|] == s;
  }
}
