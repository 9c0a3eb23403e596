/** Closures of name graphs: the least set that contains a seed and is closed under successors. */
module Closure {

  /** `edges[n]` are the names that the definition of `n` mentions. */
  type Graph = map<string, set<string>>

  ghost predicate Closed(s: set<string>, edges: Graph) {
    forall n :: n in s && n in edges ==> edges[n] <= s
  }

  /** `r` contains the seed, is closed, and lies inside every other such set. */
  ghost predicate IsClosure(r: set<string>, seed: set<string>, edges: Graph) {
    seed <= r && Closed(r, edges) && forall s :: Closed(s, edges) && seed <= s ==> r <= s
  }

  lemma {:induction false} ClosureIsUnique(r: set<string>, t: set<string>, seed: set<string>, edges: Graph)
    requires IsClosure(r, seed, edges) && IsClosure(t, seed, edges)
    ensures r == t
  {}

  /** Every name that can ever be reached. */
  function Universe(seed: set<string>, edges: Graph): set<string> {
    seed + set n, m | n in edges && m in edges[n] :: m
  }

  /** The closure, defined without an algorithm: what no closed set with the seed leaves out. */
  ghost function Reachable(seed: set<string>, edges: Graph): set<string> {
    set n | n in Universe(seed, edges) && forall s: set<string> :: Closed(s, edges) && seed <= s ==> n in s
  }

  lemma {:induction false} ReachableIsClosure(seed: set<string>, edges: Graph)
    ensures IsClosure(Reachable(seed, edges), seed, edges)
  {
    var r := Reachable(seed, edges);
    forall n | n in r && n in edges ensures edges[n] <= r {
      forall m | m in edges[n] ensures m in r {
        assert forall s: set<string> :: Closed(s, edges) && seed <= s ==> n in s && m in s;
      }
    }
    var u := Universe(seed, edges);
    assert Closed(u, edges);
  }

  lemma {:induction false} OnlyOneClosure(r: set<string>, seed: set<string>, edges: Graph)
    ensures IsClosure(r, seed, edges) <==> r == Reachable(seed, edges)
  {
    ReachableIsClosure(seed, edges);
    if IsClosure(r, seed, edges) {
      ClosureIsUnique(r, Reachable(seed, edges), seed, edges);
    }
  }

  /** Dropping the edges of unreachable names changes nothing. */
  lemma {:induction false} ReachableInSubgraph(seed: set<string>, edges: Graph, part: Graph)
    requires forall n :: n in Reachable(seed, edges) && n in edges ==> n in part
    requires forall n :: n in part ==> n in edges && part[n] == edges[n]
    ensures Reachable(seed, part) == Reachable(seed, edges)
  {
    ReachableIsClosure(seed, edges);
    ReachableIsClosure(seed, part);
    var r, t := Reachable(seed, edges), Reachable(seed, part);
    assert Closed(r, part);
    forall n | n in t && n in edges ensures edges[n] <= t {
      assert t <= r;
      assert n in part;
    }
    assert Closed(t, edges);
  }

  /** The worklist loop shared by both searches: everything found is waiting or expanded. */
  ghost predicate Searching(found: set<string>, waiting: seq<string>, seed: set<string>, edges: Graph) {
    && seed <= found <= Universe(seed, edges)
    && (forall i :: 0 <= i < |waiting| ==> waiting[i] in found)
    && (forall n :: n in found && n in edges ==> n in waiting || edges[n] <= found)
    && (forall s :: Closed(s, edges) && seed <= s ==> found <= s)
  }

  lemma {:induction false} SearchDone(found: set<string>, seed: set<string>, edges: Graph)
    requires Searching(found, [], seed, edges)
    ensures IsClosure(found, seed, edges)
  {}

  /** Taking the last waiting name and adding its successors keeps the search on course. */
  lemma {:induction false} SearchStep(
    found: set<string>, waiting: seq<string>, found': set<string>, waiting': seq<string>, seed: set<string>,
    edges: Graph)
    requires Searching(found, waiting, seed, edges) && waiting != []
    requires var n := waiting[|waiting| - 1];
             found' == found + (if n in edges then edges[n] else {})
    requires forall m :: m in waiting[..|waiting| - 1] || m in found' - found ==> m in waiting'
    requires forall i :: 0 <= i < |waiting'| ==> waiting'[i] in found'
    ensures Searching(found', waiting', seed, edges)
  {
    var n := waiting[|waiting| - 1];
    forall m | m in found' && m in edges ensures m in waiting' || edges[m] <= found' {
      if m in found && m in waiting && m !in waiting[..|waiting| - 1] {
        assert m == n;
      }
    }
    forall s | Closed(s, edges) && seed <= s ensures found' <= s {
      assert n in found;
    }
  }
}

/** References in JSON schemas (`export.rs`). */
module Refs {
  import opened Basics
  import opened Json

  function StripPrefix(s: string, prefix: string): (r: Option<string>)
    ensures r.Some? <==> prefix <= s
    ensures r.Some? ==> s == prefix + r.value
  {
    if prefix <= s then Some(s[|prefix|..]) else None
  }

  /** The part before the first slash. */
  function FirstSegment(s: string): string {
    if s == [] || s[0] == '/' then [] else [s[0]] + FirstSegment(s[1..])
  }

  predicate SingleSegment(s: string) {
    forall i :: 0 <= i < |s| ==> s[i] != '/'
  }

  lemma {:induction false} FirstOfSingle(s: string)
    requires SingleSegment(s)
    ensures FirstSegment(s) == s
  {
    if s != [] {
      FirstOfSingle(s[1..]);
    }
  }

  /** The text of the `$ref` of an object. */
  function RefHere(v: Json): Option<string> {
    if v.Obj? && "$ref" in v.fields && v.fields["$ref"].Str? then Some(v.fields["$ref"].text) else None
  }

  function ToSet(o: Option<string>): set<string> {
    if o.Some? then {o.value} else {}
  }

  /** Every `$ref` text in a value. */
  function AllRefs(v: Json): set<string> {
    ToSet(RefHere(v)) +
    match v
    case Obj(fields) => set k, r | k in fields && r in AllRefs(fields[k]) :: r
    case Arr(items) => set i, r | 0 <= i < |items| && r in AllRefs(items[i]) :: r
    case _ => {}
  }

  /** Applies `f` to every `$ref` text. */
  function MapRefs(v: Json, f: string -> string): Json {
    match v
    case Obj(fields) =>
      Obj(map k | k in fields ::
        if k == "$ref" && fields[k].Str? then Str(f(fields[k].text)) else MapRefs(fields[k], f))
    case Arr(items) => Arr(seq(|items|, i requires 0 <= i < |items| => MapRefs(items[i], f)))
    case _ => v
  }

  lemma {:induction false} MapRefsAgrees(v: Json, f: string -> string, g: string -> string)
    requires forall r :: r in AllRefs(v) ==> f(r) == g(r)
    ensures MapRefs(v, f) == MapRefs(v, g)
  {
    match v {
      case Obj(fields) =>
        forall k | k in fields ensures MapRefs(v, f).fields[k] == MapRefs(v, g).fields[k] {
          if k == "$ref" && fields[k].Str? {
            assert fields[k].text in AllRefs(v);
          } else {
            MapRefsAgrees(fields[k], f, g);
          }
        }
        assert MapRefs(v, f).fields == MapRefs(v, g).fields;
      case Arr(items) =>
        forall i | 0 <= i < |items| ensures MapRefs(items[i], f) == MapRefs(items[i], g) {
          MapRefsAgrees(items[i], f, g);
        }
        assert MapRefs(v, f).items == MapRefs(v, g).items;
      case _ =>
    }
  }

  lemma {:induction false} MapRefsCompose(v: Json, f: string -> string, g: string -> string)
    ensures MapRefs(MapRefs(v, f), g) == MapRefs(v, r => g(f(r)))
  {
    var h := r => g(f(r));
    match v {
      case Obj(fields) =>
        forall k | k in fields ensures MapRefs(MapRefs(v, f), g).fields[k] == MapRefs(v, h).fields[k] {
          MapRefsKind(fields[k], f);
          MapRefsCompose(fields[k], f, g);
        }
        assert MapRefs(MapRefs(v, f), g).fields == MapRefs(v, h).fields;
      case Arr(items) =>
        forall i | 0 <= i < |items| ensures MapRefs(MapRefs(items[i], f), g) == MapRefs(items[i], h) {
          MapRefsCompose(items[i], f, g);
        }
        assert MapRefs(MapRefs(v, f), g).items == MapRefs(v, h).items;
      case _ =>
    }
  }

  lemma {:induction false} MapRefsKind(v: Json, f: string -> string)
    ensures MapRefs(v, f).Str? <==> v.Str?
  {}

  lemma {:induction false} MapRefsIdentity(v: Json)
    ensures MapRefs(v, r => r) == v
  {
    match v {
      case Obj(fields) =>
        forall k | k in fields ensures MapRefs(v, r => r).fields[k] == fields[k] {
          MapRefsIdentity(fields[k]);
        }
        assert MapRefs(v, r => r).fields == fields;
      case Arr(items) =>
        forall i | 0 <= i < |items| ensures MapRefs(items[i], r => r) == items[i] {
          MapRefsIdentity(items[i]);
        }
        assert MapRefs(v, r => r).items == items;
      case _ =>
    }
  }

  function Image(s: set<string>, f: string -> string): set<string> {
    set r | r in s :: f(r)
  }

  lemma {:induction false} ObjectRefs(fields: map<string, Json>, r: string)
    ensures r in AllRefs(Obj(fields)) <==>
      RefHere(Obj(fields)) == Some(r) || exists k :: k in fields && r in AllRefs(fields[k])
  {}

  lemma {:induction false} ArrayRefs(items: seq<Json>, r: string)
    ensures r in AllRefs(Arr(items)) <==> exists i :: 0 <= i < |items| && r in AllRefs(items[i])
  {}

  lemma {:induction false} ImageOfObject(fields: map<string, Json>, f: string -> string)
    requires forall k :: k in fields ==> AllRefs(MapRefs(fields[k], f)) == Image(AllRefs(fields[k]), f)
    ensures AllRefs(MapRefs(Obj(fields), f)) == Image(AllRefs(Obj(fields)), f)
  {
    var w := MapRefs(Obj(fields), f).fields;
    forall k | k in fields ensures AllRefs(w[k]) == Image(AllRefs(fields[k]), f) {}
    hide AllRefs;
    forall k | k in fields ensures w[k].Str? <==> fields[k].Str? { MapRefsKind(fields[k], f); }
    forall x | x in AllRefs(Obj(w)) ensures x in Image(AllRefs(Obj(fields)), f) {
      ObjectRefs(w, x);
      if RefHere(Obj(w)) == Some(x) {
        var r := fields["$ref"].text;
        ObjectRefs(fields, r);
        assert RefHere(Obj(fields)) == Some(r) && x == f(r);
        assert r in AllRefs(Obj(fields));
      } else {
        var k :| k in w && x in AllRefs(w[k]);
        assert x in Image(AllRefs(fields[k]), f);
        var r :| r in AllRefs(fields[k]) && x == f(r);
        ObjectRefs(fields, r);
        assert r in AllRefs(Obj(fields));
      }
    }
    forall r | r in AllRefs(Obj(fields)) ensures f(r) in AllRefs(Obj(w)) {
      ObjectRefs(fields, r);
      ObjectRefs(w, f(r));
      if RefHere(Obj(fields)) == Some(r) {
        assert w["$ref"] == Str(f(r)) && RefHere(Obj(w)) == Some(f(r));
      } else {
        var k :| k in fields && r in AllRefs(fields[k]);
        assert f(r) in AllRefs(w[k]);
      }
    }
  }

  lemma {:induction false} ImageOfArray(items: seq<Json>, f: string -> string)
    requires forall i :: 0 <= i < |items| ==> AllRefs(MapRefs(items[i], f)) == Image(AllRefs(items[i]), f)
    ensures AllRefs(MapRefs(Arr(items), f)) == Image(AllRefs(Arr(items)), f)
  {
    hide AllRefs;
    var w := MapRefs(Arr(items), f).items;
    forall x | x in AllRefs(Arr(w)) ensures x in Image(AllRefs(Arr(items)), f) {
      ArrayRefs(w, x);
      var i :| 0 <= i < |w| && x in AllRefs(w[i]);
      var r :| r in AllRefs(items[i]) && x == f(r);
      ArrayRefs(items, r);
    }
    forall r | r in AllRefs(Arr(items)) ensures f(r) in AllRefs(Arr(w)) {
      ArrayRefs(items, r);
      ArrayRefs(w, f(r));
      var i :| 0 <= i < |items| && r in AllRefs(items[i]);
      assert f(r) in AllRefs(w[i]);
    }
  }

  /** The references of a rewritten value are the rewritten references. */
  lemma {:induction false} RefsOfMapRefs(v: Json, f: string -> string)
    ensures AllRefs(MapRefs(v, f)) == Image(AllRefs(v), f)
  {
    match v {
      case Obj(fields) =>
        forall k | k in fields ensures AllRefs(MapRefs(fields[k], f)) == Image(AllRefs(fields[k]), f) {
          RefsOfMapRefs(fields[k], f);
        }
        ImageOfObject(fields, f);
      case Arr(items) =>
        forall i | 0 <= i < |items| ensures AllRefs(MapRefs(items[i], f)) == Image(AllRefs(items[i]), f) {
          RefsOfMapRefs(items[i], f);
        }
        ImageOfArray(items, f);
      case _ =>
    }
  }
}
