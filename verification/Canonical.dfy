/** JSON values as `serde_json::Value`; a number is its text, an object the map of its entries. */
module Json {

  datatype Json =
    | Null
    | Bool(flag: bool)
    | Num(text: string)
    | Str(text: string)
    | Arr(items: seq<Json>)
    | Obj(fields: map<string, Json>)
}

/** The normal form that JSON fixtures are compared in (`schema_fixtures.rs`). */
module Canonical {
  import opened Basics
  import opened Orders
  import opened Json
  import Sorting

  function SortKey(item: Json): Option<string> {
    match item
    case Null => Some("null")
    case Bool(flag) => Some(if flag then "b:true" else "b:false")
    case Num(text) => Some("n:" + text)
    case Str(text) => Some("s:" + text)
    case Obj(fields) =>
      if "$ref" in fields && fields["$ref"].Str? then Some("ref:" + fields["$ref"].text)
      else if "title" in fields && fields["title"].Str? then Some("title:" + fields["title"].text)
      else None
    case Arr(_) => None
  }

  predicate Sortable(items: seq<Json>) {
    forall i :: 0 <= i < |items| ==> SortKey(items[i]).Some?
  }

  /** Order of two array items: by key, then by their serialized text. */
  function CompareItems(x: Json, y: Json, render: Json -> string): Ordering {
    CompareString(SortKey(x).UnwrapOr(""), SortKey(y).UnwrapOr("")).Then(CompareString(render(x), render(y)))
  }

  function ItemOrder(render: Json -> string): (Json, Json) -> bool {
    (x, y) => CompareItems(x, y, render) != Greater
  }

  function Canonicalize(value: Json, render: Json -> string): Json {
    match value
    case Arr(items) =>
      var canonical := seq(|items|, i requires 0 <= i < |items| => Canonicalize(items[i], render));
      Arr(if Sortable(canonical) then Sorting.Sort(ItemOrder(render), canonical) else canonical)
    case Obj(fields) => Obj(map k | k in fields :: Canonicalize(fields[k], render))
    case _ => value
  }

  function CanonicalItems(items: seq<Json>, render: Json -> string): (r: seq<Json>)
    ensures |r| == |items| && forall i :: 0 <= i < |items| ==> r[i] == Canonicalize(items[i], render)
  {
    seq(|items|, i requires 0 <= i < |items| => Canonicalize(items[i], render))
  }

  /** Serialization tells any two values apart. */
  ghost predicate Injective(render: Json -> string) {
    forall x, y :: render(x) == render(y) ==> x == y
  }

  // ---------- equality up to the order of sortable arrays ----------

  ghost predicate IsPermutation(p: seq<nat>, n: nat) {
    && |p| == n
    && (forall i :: 0 <= i < n ==> p[i] < n)
    && (forall i, j :: 0 <= i < j < n ==> p[i] != p[j])
  }

  ghost predicate HasText(item: Json, name: string) {
    item.Obj? && name in item.fields && item.fields[name].Str?
  }

  /** An array may be rearranged when each item is a scalar, or an object that a reference or a title names. */
  ghost predicate Rearrangeable(items: seq<Json>) {
    forall i :: 0 <= i < |items| ==> Named(items[i])
  }

  ghost predicate Named(item: Json) {
    !item.Arr? && (item.Obj? ==> HasText(item, "$ref") || HasText(item, "title"))
  }

  lemma {:induction false} SortableIsRearrangeable(items: seq<Json>)
    ensures Sortable(items) <==> Rearrangeable(items)
  {
    assert forall i :: 0 <= i < |items| ==> (SortKey(items[i]).Some? <==> Named(items[i]));
  }

  /** The two values differ only by the order of arrays, at any depth, that may be rearranged. */
  ghost predicate Reordered(a: Json, b: Json)
    decreases a
  {
    match (a, b)
    case (Arr(xs), Arr(ys)) =>
      && |xs| == |ys|
      && if Rearrangeable(xs)
         then exists p :: IsPermutation(p, |xs|) && forall i :: 0 <= i < |xs| ==> Reordered(xs[p[i]], ys[i])
         else forall i :: 0 <= i < |xs| ==> Reordered(xs[i], ys[i])
    case (Obj(m), Obj(n)) =>
      m.Keys == n.Keys && forall k :: k in m ==> Reordered(m[k], n[k])
    case _ => a == b
  }

  // ---------- sort keys and permutations ----------

  lemma {:induction false} CanonicalizeArr(items: seq<Json>, render: Json -> string)
    ensures Canonicalize(Arr(items), render) ==
            Arr(if Sortable(items) then Sorting.Sort(ItemOrder(render), CanonicalItems(items, render))
                else CanonicalItems(items, render))
  {
    var canonical := seq(|items|, i requires 0 <= i < |items| => Canonicalize(items[i], render));
    assert canonical == CanonicalItems(items, render);
    forall i | 0 <= i < |items| ensures SortKey(canonical[i]) == SortKey(items[i]) {
      KeyIsKept(items[i], render);
    }
    assert Sortable(items) ==> Sortable(canonical);
    if !Sortable(items) {
      var i :| 0 <= i < |items| && SortKey(items[i]).None?;
      assert SortKey(canonical[i]).None?;
    }
  }

  /** Canonicalizing an item does not change its sort key. */
  lemma {:induction false} KeyIsKept(item: Json, render: Json -> string)
    ensures SortKey(Canonicalize(item, render)) == SortKey(item)
  {
    if item.Obj? {
      forall k | k in item.fields && item.fields[k].Str?
        ensures Canonicalize(item.fields[k], render) == item.fields[k] {}
      forall k | k in item.fields && !item.fields[k].Str?
        ensures !Canonicalize(item.fields[k], render).Str? {}
    }
  }

  lemma {:induction false} ItemOrderIsTotal(items: seq<Json>, render: Json -> string)
    requires Injective(render)
    ensures Sorting.TotalOrderOn(ItemOrder(render), items)
  {
    var le := ItemOrder(render);
    forall x, y | x in items && y in items
      ensures le(x, y) || le(y, x)
      ensures le(x, y) && le(y, x) ==> x == y
    {
      CompareStringReverse(SortKey(x).UnwrapOr(""), SortKey(y).UnwrapOr(""));
      CompareStringReverse(render(x), render(y));
    }
    forall x, y, z | x in items && y in items && z in items && le(x, y) && le(y, z) ensures le(x, z) {
      ItemsTransitive(x, y, z, render);
    }
  }

  lemma {:induction false} ItemsTransitive(x: Json, y: Json, z: Json, render: Json -> string)
    requires CompareItems(x, y, render) != Greater && CompareItems(y, z, render) != Greater
    ensures CompareItems(x, z, render) != Greater
  {
    var a, b, c := SortKey(x).UnwrapOr(""), SortKey(y).UnwrapOr(""), SortKey(z).UnwrapOr("");
    CompareStringTransitive(a, b, c);
    CompareStringReverse(a, b);
    CompareStringReverse(b, c);
    if CompareString(a, b) == Equal && CompareString(b, c) == Equal {
      CompareStringTransitive(render(x), render(y), render(z));
    }
  }

  lemma {:induction false} DropOne<T>(s: seq<T>, k: nat)
    requires k < |s|
    ensures multiset(s) == multiset(s[..k] + s[k + 1..]) + multiset{s[k]}
  {
    assert s == s[..k] + [s[k]] + s[k + 1..];
  }

  lemma {:induction false} Cancel<T>(a: multiset<T>, b: multiset<T>, x: T)
    requires a + multiset{x} == b + multiset{x}
    ensures a == b
  {
    forall y: T ensures a[y] == b[y] {
      assert (a + multiset{x})[y] == (b + multiset{x})[y];
    }
  }

  /** Applying a permutation keeps the multiset. */
  lemma {:induction false} PermutedMultiset<T>(c: seq<T>, d: seq<T>, p: seq<nat>)
    requires IsPermutation(p, |c|) && |d| == |c| && forall i :: 0 <= i < |c| ==> d[i] == c[p[i]]
    ensures multiset(c) == multiset(d)
  {
    if c != [] {
      var k := p[0];
      var c' := c[..k] + c[k + 1..];
      var q := seq(|c| - 1, i requires 0 <= i < |c| - 1 => if p[i + 1] < k then p[i + 1] else p[i + 1] - 1);
      forall i | 0 <= i < |q| ensures q[i] < |c'| && d[1..][i] == c'[q[i]] {
        assert p[0] != p[i + 1];
      }
      forall i, j | 0 <= i < j < |q| ensures q[i] != q[j] {
        assert p[i + 1] != p[j + 1] && p[0] != p[i + 1] && p[0] != p[j + 1];
      }
      PermutedMultiset(c', d[1..], q);
      DropOne(c, k);
      assert d == [d[0]] + d[1..];
    }
  }

  /** Index `k` first, then the indices of `q` in the sequence without position `k`. */
  function Around(k: nat, q: seq<nat>): (p: seq<nat>)
    ensures |p| == |q| + 1 && p[0] == k
    ensures forall i :: 0 <= i < |q| ==> p[i + 1] == if q[i] < k then q[i] else q[i] + 1
  {
    [k] + seq(|q|, i requires 0 <= i < |q| => if q[i] < k then q[i] else q[i] + 1)
  }

  lemma {:induction false} AroundPermutes(k: nat, q: seq<nat>)
    requires IsPermutation(q, |q|) && k <= |q|
    ensures IsPermutation(Around(k, q), |q| + 1)
  {
    var p := Around(k, q);
    forall i | 0 <= i < |q| + 1 ensures p[i] < |q| + 1 {
      if i > 0 {
        assert p[i] == if q[i - 1] < k then q[i - 1] else q[i - 1] + 1;
      }
    }
    forall i, j | 0 <= i < j < |q| + 1 ensures p[i] != p[j] {
      assert p[j] == if q[j - 1] < k then q[j - 1] else q[j - 1] + 1;
      if i > 0 {
        assert p[i] == if q[i - 1] < k then q[i - 1] else q[i - 1] + 1;
        assert q[i - 1] != q[j - 1];
      }
    }
  }

  /** `p` takes the indices of `d` to the positions of the same elements in `c`. */
  ghost predicate Matches<T>(p: seq<nat>, c: seq<T>, d: seq<T>) {
    |c| == |d| && IsPermutation(p, |c|) && forall i :: 0 <= i < |c| ==> d[i] == c[p[i]]
  }

  lemma {:induction false} DropBoth<T>(c: seq<T>, d: seq<T>, k: nat)
    requires multiset(c) == multiset(d) && k < |c| && d != [] && c[k] == d[0]
    ensures multiset(c[..k] + c[k + 1..]) == multiset(d[1..])
  {
    DropOne(c, k);
    DropOne(d, 0);
    assert d[..0] + d[0 + 1..] == d[1..];
    Cancel(multiset(c[..k] + c[k + 1..]), multiset(d[1..]), d[0]);
  }

  /** One position of a permutation that starts with `k`. */
  lemma {:induction false} AroundAt<T>(c: seq<T>, d: seq<T>, k: nat, q: seq<nat>, i: nat)
    requires k < |c| && d != [] && c[k] == d[0] && Matches(q, c[..k] + c[k + 1..], d[1..]) && i < |c|
    ensures |d| == |c| && |q| + 1 == |c| && Around(k, q)[i] < |c| && d[i] == c[Around(k, q)[i]]
  {
    var c' := c[..k] + c[k + 1..];
    assert |c'| == |c| - 1;
    if i > 0 {
      var p := q[i - 1];
      assert p < |c'| && d[1..][i - 1] == c'[p];
      hide Around, IsPermutation, Matches;
      assert c'[p] == c[if p < k then p else p + 1];
    }
  }

  lemma {:induction false} MatchAround<T>(c: seq<T>, d: seq<T>, k: nat, q: seq<nat>)
    requires k < |c| && d != [] && c[k] == d[0] && Matches(q, c[..k] + c[k + 1..], d[1..])
    ensures Matches(Around(k, q), c, d)
  {
    AroundPermutes(k, q);
    AroundAt(c, d, k, q, 0);
    hide Around, IsPermutation;
    forall i | 0 <= i < |c| ensures d[i] == c[Around(k, q)[i]] {
      AroundAt(c, d, k, q, i);
    }
  }

  /** Equal multisets are matched up by a permutation. */
  lemma {:induction false} MatchUp<T>(c: seq<T>, d: seq<T>) returns (p: seq<nat>)
    requires multiset(c) == multiset(d)
    ensures Matches(p, c, d)
  {
    if c == [] {
      assert |c| == |multiset(c)| == |multiset(d)| == |d|;
      p := [];
    } else {
      assert c[0] in multiset(d);
      Sorting.SameMembers(c, d, d[0]);
      var k :| 0 <= k < |c| && c[k] == d[0];
      DropBoth(c, d, k);
      var q := MatchUp(c[..k] + c[k + 1..], d[1..]);
      MatchAround(c, d, k, q);
      p := Around(k, q);
    }
  }

  // ---------- the theorem ----------

  lemma {:induction false} SortedCanonical(items: seq<Json>, render: Json -> string)
    ensures multiset(Sorting.Sort(ItemOrder(render), CanonicalItems(items, render)))
            == multiset(CanonicalItems(items, render))
    ensures Sortable(items) ==> Sortable(Sorting.Sort(ItemOrder(render), CanonicalItems(items, render)))
  {
    var c := CanonicalItems(items, render);
    var s := Sorting.Sort(ItemOrder(render), c);
    Sorting.SortPermutes(ItemOrder(render), c);
    forall i | 0 <= i < |s| && Sortable(items) ensures SortKey(s[i]).Some? {
      Sorting.SameMembers(s, c, s[i]);
      var j :| 0 <= j < |c| && c[j] == s[i];
      KeyIsKept(items[j], render);
    }
  }

  lemma {:induction false} CanonicalSortable(items: seq<Json>, render: Json -> string)
    ensures Sortable(CanonicalItems(items, render)) <==> Sortable(items)
  {
    var c := CanonicalItems(items, render);
    forall i | 0 <= i < |items| ensures SortKey(c[i]) == SortKey(items[i]) {
      KeyIsKept(items[i], render);
    }
    if Sortable(c) {
      forall i | 0 <= i < |items| ensures SortKey(items[i]).Some? {
        assert SortKey(c[i]).Some?;
      }
    }
  }

  lemma {:induction false} SortedForm(xs: seq<Json>, ys: seq<Json>, p: seq<nat>, render: Json -> string)
    requires Injective(render) && Sortable(xs) && |ys| == |xs| && IsPermutation(p, |xs|)
    requires forall i :: 0 <= i < |xs| ==> Canonicalize(xs[p[i]], render) == Canonicalize(ys[i], render)
    ensures Canonicalize(Arr(xs), render) == Canonicalize(Arr(ys), render)
  {
    CanonicalizeArr(xs, render);
    CanonicalizeArr(ys, render);
    CanonicalSortable(xs, render);
    CanonicalSortable(ys, render);
    var c, d := CanonicalItems(xs, render), CanonicalItems(ys, render);
    forall i | 0 <= i < |d| ensures SortKey(d[i]).Some? && d[i] == c[p[i]] {
      assert SortKey(c[p[i]]).Some?;
    }
    PermutedMultiset(c, d, p);
    ItemOrderIsTotal(c, render);
    Sorting.SortOfPermutation(ItemOrder(render), c, d);
  }

  lemma {:induction false} KeptForm(xs: seq<Json>, ys: seq<Json>, render: Json -> string)
    requires Injective(render) && !Sortable(xs) && |ys| == |xs|
    requires forall i :: 0 <= i < |xs| ==> Canonicalize(xs[i], render) == Canonicalize(ys[i], render)
    ensures Canonicalize(Arr(xs), render) == Canonicalize(Arr(ys), render)
  {
    CanonicalizeArr(xs, render);
    CanonicalizeArr(ys, render);
    CanonicalSortable(xs, render);
    CanonicalSortable(ys, render);
    assert CanonicalItems(xs, render) == CanonicalItems(ys, render);
  }

  /** Reordering does not change the normal form. */
  lemma {:induction false} ReorderedSameForm(a: Json, b: Json, render: Json -> string)
    requires Injective(render) && Reordered(a, b)
    ensures Canonicalize(a, render) == Canonicalize(b, render)
    decreases a
  {
    match (a, b) {
      case (Arr(xs), Arr(ys)) =>
        SortableIsRearrangeable(xs);
        if Sortable(xs) {
          var p :| IsPermutation(p, |xs|) && forall i :: 0 <= i < |xs| ==> Reordered(xs[p[i]], ys[i]);
          forall i | 0 <= i < |xs| ensures Canonicalize(xs[p[i]], render) == Canonicalize(ys[i], render) {
            ReorderedSameForm(xs[p[i]], ys[i], render);
          }
          SortedForm(xs, ys, p, render);
        } else {
          forall i | 0 <= i < |xs| ensures Canonicalize(xs[i], render) == Canonicalize(ys[i], render) {
            ReorderedSameForm(xs[i], ys[i], render);
          }
          KeptForm(xs, ys, render);
        }
      case (Obj(m), Obj(n)) =>
        forall k | k in m ensures Canonicalize(m[k], render) == Canonicalize(n[k], render) {
          ReorderedSameForm(m[k], n[k], render);
        }
        assert Canonicalize(a, render).fields == Canonicalize(b, render).fields;
      case _ =>
    }
  }

  /** Values with the same normal form differ only by reordering. */
  lemma {:induction false} SameFormReordered(a: Json, b: Json, render: Json -> string)
    requires Canonicalize(a, render) == Canonicalize(b, render)
    ensures Reordered(a, b)
    decreases a
  {
    match (a, b) {
      case (Arr(xs), Arr(ys)) =>
        CanonicalizeArr(xs, render);
        CanonicalizeArr(ys, render);
        SameFormArrays(xs, ys, render);
        SortableIsRearrangeable(xs);
        var c, d := CanonicalItems(xs, render), CanonicalItems(ys, render);
        if Sortable(xs) {
          var p := MatchUp(c, d);
          forall i | 0 <= i < |xs| ensures Reordered(xs[p[i]], ys[i]) {
            SameFormReordered(xs[p[i]], ys[i], render);
          }
        } else {
          forall i | 0 <= i < |xs| ensures Reordered(xs[i], ys[i]) {
            assert c[i] == d[i];
            SameFormReordered(xs[i], ys[i], render);
          }
        }
      case (Obj(m), Obj(n)) =>
        var f, g := Canonicalize(a, render).fields, Canonicalize(b, render).fields;
        assert f.Keys == m.Keys && g.Keys == n.Keys;
        forall k | k in m ensures Reordered(m[k], n[k]) {
          assert f[k] == g[k];
          SameFormReordered(m[k], n[k], render);
        }
      case (Arr(_), _) => SameKind(a, b, render);
      case (Obj(_), _) => SameKind(a, b, render);
      case _ => SameKind(a, b, render);
    }
  }

  lemma {:induction false} SameKind(a: Json, b: Json, render: Json -> string)
    requires Canonicalize(a, render) == Canonicalize(b, render)
    ensures a.Arr? == b.Arr? && a.Obj? == b.Obj?
    ensures !a.Arr? && !a.Obj? ==> a == b
  {}

  /** Equal canonical arrays are both sorted or both left alone, and hold the same items. */
  lemma {:induction false} SameFormArrays(xs: seq<Json>, ys: seq<Json>, render: Json -> string)
    requires
      var x, y := CanonicalItems(xs, render), CanonicalItems(ys, render);
      (if Sortable(xs) then Sorting.Sort(ItemOrder(render), x) else x)
      == (if Sortable(ys) then Sorting.Sort(ItemOrder(render), y) else y)
    ensures Sortable(xs) <==> Sortable(ys)
    ensures multiset(CanonicalItems(xs, render)) == multiset(CanonicalItems(ys, render))
    ensures !Sortable(xs) ==> CanonicalItems(xs, render) == CanonicalItems(ys, render)
    ensures |xs| == |ys|
  {
    SortedCanonical(xs, render);
    SortedCanonical(ys, render);
    CanonicalSortable(xs, render);
    CanonicalSortable(ys, render);
    var c, d := CanonicalItems(xs, render), CanonicalItems(ys, render);
    assert |c| == |multiset(c)| && |d| == |multiset(d)|;
  }

  /** Two values have the same normal form if and only if they differ only by reordering such arrays. */
  lemma {:induction false} CanonicalFormIsExact(a: Json, b: Json, render: Json -> string)
    requires Injective(render)
    ensures Canonicalize(a, render) == Canonicalize(b, render) <==> Reordered(a, b)
  {
    if Reordered(a, b) {
      ReorderedSameForm(a, b, render);
    }
    if Canonicalize(a, render) == Canonicalize(b, render) {
      SameFormReordered(a, b, render);
    }
  }

  /** Canonicalization only reorders. */
  lemma {:induction false} CanonicalizeReorders(v: Json, render: Json -> string)
    ensures Reordered(v, Canonicalize(v, render))
  {
    match v {
      case Arr(xs) =>
        CanonicalizeArr(xs, render);
        SortableIsRearrangeable(xs);
        var c := CanonicalItems(xs, render);
        if Sortable(xs) {
          var s := Sorting.Sort(ItemOrder(render), c);
          Sorting.SortPermutes(ItemOrder(render), c);
          var p := MatchUp(c, s);
          forall i | 0 <= i < |xs| ensures Reordered(xs[p[i]], s[i]) {
            CanonicalizeReorders(xs[p[i]], render);
          }
        } else {
          forall i | 0 <= i < |xs| ensures Reordered(xs[i], c[i]) {
            CanonicalizeReorders(xs[i], render);
          }
        }
      case Obj(m) =>
        forall k | k in m ensures Reordered(m[k], Canonicalize(m[k], render)) {
          CanonicalizeReorders(m[k], render);
        }
      case _ =>
    }
  }

  /** The normal form is a fixed point. */
  lemma {:induction false} CanonicalizeIdempotent(v: Json, render: Json -> string)
    requires Injective(render)
    ensures Canonicalize(Canonicalize(v, render), render) == Canonicalize(v, render)
  {
    CanonicalizeReorders(v, render);
    ReorderedSameForm(v, Canonicalize(v, render), render);
  }

  // ---------- the order of the items ----------

  /** The kinds of items in the order in which they are arranged. */
  ghost function Kind(item: Json): int {
    match item
    case Bool(_) => 0
    case Num(_) => 1
    case Null => 2
    case Str(_) => 4
    case _ => if HasText(item, "$ref") then 3 else 5
  }

  /** What tells two items of a kind apart first: a reference by its target, any other object by its title. */
  ghost function Label(item: Json): string
    requires Named(item)
  {
    match item
    case Bool(flag) => if flag then "true" else "false"
    case Num(text) => text
    case Null => ""
    case Str(text) => text
    case Obj(fields) => if HasText(item, "$ref") then fields["$ref"].text else fields["title"].text
  }

  /** `x` may stand before `y`: by kind, by label, and then by the serialized text. */
  ghost predicate MayPrecede(x: Json, y: Json, render: Json -> string)
    requires Named(x) && Named(y)
  {
    || Kind(x) < Kind(y)
    || (Kind(x) == Kind(y) && Before(Label(x), Label(y)))
    || (Kind(x) == Kind(y) && Label(x) == Label(y) && !Before(render(y), render(x)))
  }

  /** In a normal form every array that may be rearranged, at any depth, is in order. */
  ghost predicate InNormalForm(v: Json, render: Json -> string) {
    match v
    case Arr(items) =>
      && (forall i :: 0 <= i < |items| ==> InNormalForm(items[i], render))
      && (Rearrangeable(items) ==> InOrder(items, render))
    case Obj(fields) => forall k :: k in fields ==> InNormalForm(fields[k], render)
    case _ => true
  }

  ghost predicate InOrder(items: seq<Json>, render: Json -> string)
    requires Rearrangeable(items)
  {
    forall i, j :: 0 <= i < j < |items| ==> MayPrecede(items[i], items[j], render)
  }

  lemma {:induction false} SamePrefix(p: string, a: string, b: string)
    ensures CompareString(p + a, p + b) == CompareString(a, b)
  {
    if p == [] {
      assert p + a == a && p + b == b;
    } else {
      SamePrefix(p[1..], a, b);
      assert (p + a)[1..] == p[1..] + a && (p + b)[1..] == p[1..] + b;
    }
  }

  function KindPrefix(kind: int): string {
    if kind == 0 then "b:" else if kind == 1 then "n:" else if kind == 2 then "null"
    else if kind == 3 then "ref:" else if kind == 4 then "s:" else "title:"
  }

  lemma {:induction false} KindsApart(i: int, j: int, a: string, b: string)
    requires 0 <= i < j <= 5 && (i == 2 ==> a == []) && (j == 2 ==> b == [])
    ensures CompareString(KindPrefix(i) + a, KindPrefix(j) + b) == Less
  {
    var x, y := KindPrefix(i) + a, KindPrefix(j) + b;
    if i == 1 && j == 2 {
      assert x[0] == y[0] && x[1..][0] == ':' && y[1..][0] == 'u';
    } else {
      assert x[0] < y[0];
    }
  }

  lemma {:induction false} KeyIsLabelled(x: Json)
    requires Named(x)
    ensures SortKey(x) == Some(KindPrefix(Kind(x)) + Label(x)) && 0 <= Kind(x) <= 5
    ensures Kind(x) == 2 ==> Label(x) == []
  {
    assert "b:" + "true" == "b:true" && "b:" + "false" == "b:false" && "null" + [] == "null";
  }

  lemma {:induction false} OrderOfItems(x: Json, y: Json, render: Json -> string)
    requires Named(x) && Named(y)
    ensures ItemOrder(render)(x, y) <==> MayPrecede(x, y, render)
  {
    KeyIsLabelled(x);
    KeyIsLabelled(y);
    CompareStringIsBefore(Label(x), Label(y));
    CompareStringReverse(Label(x), Label(y));
    CompareStringIsBefore(render(x), render(y));
    if Kind(x) == Kind(y) {
      SamePrefix(KindPrefix(Kind(x)), Label(x), Label(y));
    } else if Kind(x) < Kind(y) {
      KindsApart(Kind(x), Kind(y), Label(x), Label(y));
    } else {
      KindsApart(Kind(y), Kind(x), Label(y), Label(x));
      CompareStringReverse(KindPrefix(Kind(x)) + Label(x), KindPrefix(Kind(y)) + Label(y));
    }
  }

  lemma {:induction false} OrderOfArray(items: seq<Json>, render: Json -> string)
    requires Rearrangeable(items)
    ensures Sorting.Sorted(ItemOrder(render), items) <==> InOrder(items, render)
  {
    forall i, j | 0 <= i < j < |items|
      ensures ItemOrder(render)(items[i], items[j]) <==> MayPrecede(items[i], items[j], render)
    {
      assert Named(items[i]) && Named(items[j]);
      OrderOfItems(items[i], items[j], render);
    }
  }

  /** Nothing in a normal form is moved. */
  lemma {:induction false} NormalIsFixed(v: Json, render: Json -> string)
    requires Injective(render) && InNormalForm(v, render)
    ensures Canonicalize(v, render) == v
  {
    match v {
      case Arr(items) =>
        forall i | 0 <= i < |items| ensures Canonicalize(items[i], render) == items[i] {
          NormalIsFixed(items[i], render);
        }
        assert CanonicalItems(items, render) == items;
        CanonicalizeArr(items, render);
        SortableIsRearrangeable(items);
        if Sortable(items) {
          var le := ItemOrder(render);
          OrderOfArray(items, render);
          ItemOrderIsTotal(items, render);
          Sorting.SortPermutes(le, items);
          Sorting.SortSorts(le, items);
          Sorting.SortedIsUnique(le, items, Sorting.Sort(le, items));
        }
      case Obj(fields) =>
        forall k | k in fields ensures Canonicalize(fields[k], render) == fields[k] {
          NormalIsFixed(fields[k], render);
        }
        assert Canonicalize(v, render).fields == fields;
      case _ =>
    }
  }

  lemma {:induction false} CanonicalizeIsNormal(v: Json, render: Json -> string)
    requires Injective(render)
    ensures InNormalForm(Canonicalize(v, render), render)
  {
    match v {
      case Arr(items) =>
        CanonicalizeArr(items, render);
        var c := CanonicalItems(items, render);
        forall i | 0 <= i < |items| ensures InNormalForm(c[i], render) {
          CanonicalizeIsNormal(items[i], render);
        }
        CanonicalSortable(items, render);
        var s := Sorting.Sort(ItemOrder(render), c);
        if Sortable(items) {
          SortedCanonical(items, render);
          SortableIsRearrangeable(s);
          ItemOrderIsTotal(c, render);
          Sorting.SortSorts(ItemOrder(render), c);
          OrderOfArray(s, render);
          forall i | 0 <= i < |s| ensures InNormalForm(s[i], render) {
            Sorting.SameMembers(s, c, s[i]);
          }
        } else {
          SortableIsRearrangeable(c);
        }
      case Obj(fields) =>
        forall k | k in fields ensures InNormalForm(Canonicalize(fields[k], render), render) {
          CanonicalizeIsNormal(fields[k], render);
        }
      case _ =>
    }
  }

  /**
   The canonical form is the one rearrangement of a value in which every array
   that may be rearranged is in order; all other arrays keep theirs.
   */
  lemma {:induction false} CanonicalFormIsInOrder(v: Json, w: Json, render: Json -> string)
    requires Injective(render)
    ensures w == Canonicalize(v, render) <==> Reordered(v, w) && InNormalForm(w, render)
  {
    CanonicalizeReorders(v, render);
    CanonicalizeIsNormal(v, render);
    if Reordered(v, w) && InNormalForm(w, render) {
      ReorderedSameForm(v, w, render);
      NormalIsFixed(w, render);
    }
  }

  // ---------- the program ----------

  /** The recursive rewrite: items are canonicalized in order and sorted unless one of them has no key. */
  method CanonicalizeJson(value: Json, render: Json -> string) returns (r: Json)
    ensures r == Canonicalize(value, render)
    decreases value, 1
  {
    match value {
      case Arr(items) => r := CanonicalizeArray(items, value, render);
      case Obj(fields) => r := CanonicalizeObject(fields, value, render);
      case _ => r := value;
    }
  }

  method CanonicalizeArray(items: seq<Json>, value: Json, render: Json -> string) returns (r: Json)
    requires value == Arr(items)
    ensures r == Canonicalize(value, render)
    decreases value, 0
  {
    hide Canonicalize, SortKey, Sorting.Sort;
    var canonical: seq<Json> := [];
    for i := 0 to |items|
      invariant |canonical| == i
      invariant forall j :: 0 <= j < i ==> canonical[j] == Canonicalize(items[j], render)
    {
      var item := CanonicalizeJson(items[i], render);
      canonical := canonical + [item];
    }
    CanonicalizeArr(items, render);
    CanonicalSortable(items, render);
    assert canonical == CanonicalItems(items, render);
    for i := 0 to |canonical|
      invariant forall j :: 0 <= j < i ==> SortKey(canonical[j]).Some?
    {
      if SortKey(canonical[i]).None? {
        return Arr(canonical);
      }
    }
    r := Arr(Sorting.Sort(ItemOrder(render), canonical));
  }

  method CanonicalizeObject(fields: map<string, Json>, value: Json, render: Json -> string) returns (r: Json)
    requires value == Obj(fields)
    ensures r == Canonicalize(value, render)
    decreases value, 0
  {
    var todo := fields.Keys;
    var sorted: map<string, Json> := map[];
    while todo != {}
      invariant todo <= fields.Keys
      invariant sorted.Keys == fields.Keys - todo
      invariant forall k :: k in sorted ==> sorted[k] == Canonicalize(fields[k], render)
      decreases |todo|
    {
      var key :| key in todo;
      var child := CanonicalizeJson(fields[key], render);
      sorted := sorted[key := child];
      todo := todo - {key};
    }
    assert sorted == (map k | k in fields :: Canonicalize(fields[k], render));
    r := Obj(sorted);
  }
}
