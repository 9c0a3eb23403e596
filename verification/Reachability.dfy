/** Reachable definitions and the stripping of method variants (`export.rs`). */
module Reachability {
  import opened Basics
  import opened Closure
  import opened Json
  import opened Refs

  /** Keys whose contents are definitions rather than positions of the schema itself. */
  predicate HoldsDefinitions(k: string, key: string) {
    k == key || k == "$defs" || k == "definitions"
  }

  /** The `$ref` texts of a value outside every map of definitions. */
  function OutsideRefs(v: Json, key: string): set<string> {
    ToSet(RefHere(v)) +
    match v
    case Obj(fields) => set k, r | k in fields && !HoldsDefinitions(k, key) && r in OutsideRefs(fields[k], key) :: r
    case Arr(items) => set i, r | 0 <= i < |items| && r in OutsideRefs(items[i], key) :: r
    case _ => {}
  }

  /** The definition a reference text names: the segment after `#/<key>/`. */
  function LocalName(r: string, key: string): Option<string> {
    match StripPrefix(r, "#/" + key + "/")
    case Some(rest) => Some(FirstSegment(rest))
    case None => None
  }

  function Names(refs: set<string>, key: string): set<string> {
    set r | r in refs && LocalName(r, key).Some? :: LocalName(r, key).value
  }

  function Mentions(v: Json, key: string): set<string> {
    Names(AllRefs(v), key)
  }

  function RootMentions(v: Json, key: string): set<string> {
    Names(OutsideRefs(v, key), key)
  }

  function Edges(defs: map<string, Json>, key: string): Graph {
    map n | n in defs :: Mentions(defs[n], key)
  }

  lemma {:induction false} NamesOfUnion(a: set<string>, b: set<string>, key: string)
    ensures Names(a + b, key) == Names(a, key) + Names(b, key)
  {}

  /** New names enter the set and the queue together; nothing leaves either. */
  ghost predicate Grown(
    queue: seq<string>, found: set<string>, queue': seq<string>, found': set<string>, names: set<string>)
  {
    && queue <= queue'
    && found' == found + names
    && (forall n :: n in queue'[|queue|..] <==> n in found' - found)
  }

  lemma {:induction false} GrownThen(
    q0: seq<string>, f0: set<string>, q1: seq<string>, f1: set<string>, q2: seq<string>, f2: set<string>,
    a: set<string>, b: set<string>)
    requires Grown(q0, f0, q1, f1, a) && Grown(q1, f1, q2, f2, b)
    ensures Grown(q0, f0, q2, f2, a + b)
  {
    assert q2[|q0|..] == q1[|q0|..] + q2[|q1|..];
  }

  /** `collect_local_definition_ref_here`. */
  method CollectHere(v: Json, key: string, queue: seq<string>, found: set<string>)
    returns (queue': seq<string>, found': set<string>)
    ensures Grown(queue, found, queue', found', Names(ToSet(RefHere(v)), key))
  {
    queue', found' := queue, found;
    if RefHere(v).Some? {
      var name := LocalName(RefHere(v).value, key);
      if name.Some? && name.value !in found {
        found' := found + {name.value};
        queue' := queue + [name.value];
      }
    }
  }

  /** What `refsOf` finds in some of the fields, and in the first items. */
  function Under(fields: map<string, Json>, keys: set<string>, refsOf: Json -> set<string>): set<string> {
    set k, r | k in fields && k in keys && r in refsOf(fields[k]) :: r
  }

  function Along(items: seq<Json>, count: nat, refsOf: Json -> set<string>): set<string>
    requires count <= |items|
  {
    set i, r | 0 <= i < count && r in refsOf(items[i]) :: r
  }

  lemma {:induction false} AllRefsSplit(v: Json)
    ensures v.Obj? ==> AllRefs(v) == ToSet(RefHere(v)) + Under(v.fields, v.fields.Keys, AllRefs)
    ensures v.Arr? ==> AllRefs(v) == ToSet(RefHere(v)) + Along(v.items, |v.items|, AllRefs)
    ensures !v.Obj? && !v.Arr? ==> AllRefs(v) == ToSet(RefHere(v))
  {}

  function Outside(key: string): Json -> set<string> {
    v => OutsideRefs(v, key)
  }

  function OutsideKeys(fields: map<string, Json>, key: string): set<string> {
    set k | k in fields && !HoldsDefinitions(k, key)
  }

  lemma {:induction false} OutsideRefsSplit(v: Json, key: string)
    ensures v.Obj? ==>
      OutsideRefs(v, key) == ToSet(RefHere(v)) + Under(v.fields, OutsideKeys(v.fields, key), Outside(key))
    ensures v.Arr? ==> OutsideRefs(v, key) == ToSet(RefHere(v)) + Along(v.items, |v.items|, Outside(key))
    ensures !v.Obj? && !v.Arr? ==> OutsideRefs(v, key) == ToSet(RefHere(v))
  {
    match v {
      case Obj(fields) =>
        assert forall k :: k in fields ==> Outside(key)(fields[k]) == OutsideRefs(fields[k], key);
        assert OutsideRefs(v, key) - ToSet(RefHere(v)) <= Under(fields, OutsideKeys(fields, key), Outside(key));
      case Arr(items) =>
        assert forall i :: 0 <= i < |items| ==> Outside(key)(items[i]) == OutsideRefs(items[i], key);
        assert OutsideRefs(v, key) - ToSet(RefHere(v)) <= Along(items, |items|, Outside(key));
      case _ =>
    }
  }

  /** One more field or item makes the search grow by what is found in it. */
  lemma {:induction false} FieldGrown(
    q0: seq<string>, f0: set<string>, q1: seq<string>, f1: set<string>, q2: seq<string>, f2: set<string>,
    fields: map<string, Json>, done: set<string>, k: string, refsOf: Json -> set<string>, key: string)
    requires k in fields
    requires Grown(q0, f0, q1, f1, Names(Under(fields, done, refsOf), key))
    requires Grown(q1, f1, q2, f2, Names(refsOf(fields[k]), key))
    ensures Grown(q0, f0, q2, f2, Names(Under(fields, done + {k}, refsOf), key))
  {
    GrownThen(q0, f0, q1, f1, q2, f2, Names(Under(fields, done, refsOf), key), Names(refsOf(fields[k]), key));
    NamesOfUnion(Under(fields, done, refsOf), refsOf(fields[k]), key);
    assert Under(fields, done + {k}, refsOf) == Under(fields, done, refsOf) + refsOf(fields[k]);
  }

  lemma {:induction false} ItemGrown(
    q0: seq<string>, f0: set<string>, q1: seq<string>, f1: set<string>, q2: seq<string>, f2: set<string>,
    items: seq<Json>, i: nat, refsOf: Json -> set<string>, key: string)
    requires i < |items|
    requires Grown(q0, f0, q1, f1, Names(Along(items, i, refsOf), key))
    requires Grown(q1, f1, q2, f2, Names(refsOf(items[i]), key))
    ensures Grown(q0, f0, q2, f2, Names(Along(items, i + 1, refsOf), key))
  {
    GrownThen(q0, f0, q1, f1, q2, f2, Names(Along(items, i, refsOf), key), Names(refsOf(items[i]), key));
    NamesOfUnion(Along(items, i, refsOf), refsOf(items[i]), key);
    assert Along(items, i + 1, refsOf) == Along(items, i, refsOf) + refsOf(items[i]);
  }

  lemma {:induction false} HereGrown(
    q0: seq<string>, f0: set<string>, q1: seq<string>, f1: set<string>, q2: seq<string>, f2: set<string>,
    a: set<string>, b: set<string>, all: set<string>, key: string)
    requires Grown(q0, f0, q1, f1, Names(a, key)) && Grown(q1, f1, q2, f2, Names(b, key))
    requires all == a + b || all == b + a
    ensures Grown(q0, f0, q2, f2, Names(all, key))
  {
    GrownThen(q0, f0, q1, f1, q2, f2, Names(a, key), Names(b, key));
    NamesOfUnion(a, b, key);
    assert a + b == b + a;
  }

  /** `collect_local_definition_refs`. */
  method CollectRefs(v: Json, key: string, queue: seq<string>, found: set<string>)
    returns (queue': seq<string>, found': set<string>)
    ensures Grown(queue, found, queue', found', Mentions(v, key))
    decreases v
  {
    hide Grown, Names, Under, Along;
    queue', found' := CollectHere(v, key, queue, found);
    AllRefsSplit(v);
    ghost var q, f := queue', found';
    match v {
      case Obj(fields) =>
        queue', found' := CollectFields(fields, v, key, queue', found');
        HereGrown(queue, found, q, f, queue', found',
                  ToSet(RefHere(v)), Under(fields, fields.Keys, AllRefs), AllRefs(v), key);
      case Arr(items) =>
        queue', found' := CollectItems(items, v, key, queue', found');
        HereGrown(queue, found, q, f, queue', found',
                  ToSet(RefHere(v)), Along(items, |items|, AllRefs), AllRefs(v), key);
      case _ =>
    }
  }

  method CollectFields(fields: map<string, Json>, ghost v: Json, key: string, queue: seq<string>, found: set<string>)
    returns (queue': seq<string>, found': set<string>)
    requires v == Obj(fields)
    ensures Grown(queue, found, queue', found', Names(Under(fields, fields.Keys, AllRefs), key))
    decreases v, 0
  {
    queue', found' := queue, found;
    var keys := fields.Keys;
    ghost var done := {};
    while keys != {}
      invariant keys <= fields.Keys && done == fields.Keys - keys
      invariant Grown(queue, found, queue', found', Names(Under(fields, done, AllRefs), key))
    {
      var k :| k in keys;
      ghost var q, f := queue', found';
      queue', found' := CollectRefs(fields[k], key, queue', found');
      FieldGrown(queue, found, q, f, queue', found', fields, done, k, AllRefs, key);
      keys, done := keys - {k}, done + {k};
    }
    assert done == fields.Keys;
  }

  method CollectItems(items: seq<Json>, ghost v: Json, key: string, queue: seq<string>, found: set<string>)
    returns (queue': seq<string>, found': set<string>)
    requires v == Arr(items)
    ensures Grown(queue, found, queue', found', Names(Along(items, |items|, AllRefs), key))
    decreases v, 0
  {
    queue', found' := queue, found;
    for i := 0 to |items|
      invariant Grown(queue, found, queue', found', Names(Along(items, i, AllRefs), key))
    {
      ghost var q, f := queue', found';
      queue', found' := CollectRefs(items[i], key, queue', found');
      ItemGrown(queue, found, q, f, queue', found', items, i, AllRefs, key);
    }
  }

  /** `collect_local_definition_refs_excluding_maps`. */
  method CollectRefsOutside(v: Json, key: string, queue: seq<string>, found: set<string>)
    returns (queue': seq<string>, found': set<string>)
    ensures Grown(queue, found, queue', found', RootMentions(v, key))
    decreases v
  {
    hide Under, Along;
    queue', found' := queue, found;
    OutsideRefsSplit(v, key);
    ghost var below: set<string> := {};
    match v {
      case Obj(fields) =>
        queue', found' := CollectFieldsOutside(fields, v, key, queue', found');
        below := Under(fields, OutsideKeys(fields, key), Outside(key));
      case Arr(items) =>
        queue', found' := CollectItemsOutside(items, v, key, queue', found');
        below := Along(items, |items|, Outside(key));
      case _ =>
    }
    ghost var q, f := queue', found';
    queue', found' := CollectHere(v, key, queue', found');
    HereGrown(queue, found, q, f, queue', found', below, ToSet(RefHere(v)), OutsideRefs(v, key), key);
  }

  method CollectFieldsOutside(
    fields: map<string, Json>, ghost v: Json, key: string, queue: seq<string>, found: set<string>)
    returns (queue': seq<string>, found': set<string>)
    requires v == Obj(fields)
    ensures Grown(queue, found, queue', found', Names(Under(fields, OutsideKeys(fields, key), Outside(key)), key))
    decreases v, 0
  {
    queue', found' := queue, found;
    var keys := fields.Keys;
    ghost var done := {};
    while keys != {}
      invariant keys <= fields.Keys && done == OutsideKeys(fields, key) - keys
      invariant Grown(queue, found, queue', found', Names(Under(fields, done, Outside(key)), key))
    {
      var k :| k in keys;
      keys := keys - {k};
      if !HoldsDefinitions(k, key) {
        ghost var q, f := queue', found';
        queue', found' := CollectRefsOutside(fields[k], key, queue', found');
        FieldGrown(queue, found, q, f, queue', found', fields, done, k, Outside(key), key);
        done := done + {k};
      }
    }
    assert done == OutsideKeys(fields, key);
  }

  method CollectItemsOutside(items: seq<Json>, ghost v: Json, key: string, queue: seq<string>, found: set<string>)
    returns (queue': seq<string>, found': set<string>)
    requires v == Arr(items)
    ensures Grown(queue, found, queue', found', Names(Along(items, |items|, Outside(key)), key))
    decreases v, 0
  {
    queue', found' := queue, found;
    for i := 0 to |items|
      invariant Grown(queue, found, queue', found', Names(Along(items, i, Outside(key)), key))
    {
      ghost var q, f := queue', found';
      queue', found' := CollectRefsOutside(items[i], key, queue', found');
      ItemGrown(queue, found, q, f, queue', found', items, i, Outside(key), key);
    }
  }

  /** The object under `key`, when there is one. */
  function DefinitionsOf(schema: Json, key: string): Option<map<string, Json>> {
    if schema.Obj? && key in schema.fields && schema.fields[key].Obj? then Some(schema.fields[key].fields) else None
  }

  ghost function ReachableDefinitions(schema: Json, key: string): set<string> {
    match DefinitionsOf(schema, key)
    case Some(defs) => Reachable(RootMentions(schema, key), Edges(defs, key))
    case None => {}
  }

  /** `reachable_local_definitions`: the worklist finds exactly the closure, on cyclic schemas too. */
  method ReachableLocalDefinitions(schema: Json, key: string) returns (found: set<string>)
    ensures found == ReachableDefinitions(schema, key)
  {
    found := {};
    match DefinitionsOf(schema, key) {
      case None =>
      case Some(defs) =>
        var queue: seq<string> := [];
        queue, found := CollectRefsOutside(schema, key, queue, found);
        SearchStarts(queue, found, RootMentions(schema, key), Edges(defs, key));
        found := Drain(defs, key, queue, found, RootMentions(schema, key));
        OnlyOneClosure(found, RootMentions(schema, key), Edges(defs, key));
    }
  }

  /** The worklist loop. */
  method Drain(defs: map<string, Json>, key: string, queue: seq<string>, found: set<string>, ghost seed: set<string>)
    returns (found': set<string>)
    requires Searching(found, queue, seed, Edges(defs, key))
    ensures IsClosure(found', seed, Edges(defs, key))
  {
    hide Searching, IsClosure, AllRefs, Names, Universe;
    found' := found;
    var queue' := queue;
    ghost var edges := Edges(defs, key);
    while queue' != []
      invariant Searching(found', queue', seed, edges)
      decreases |Universe(seed, edges) - found'|, |queue'|
    {
      queue', found' := ExpandLast(defs, key, queue', found', seed);
    }
    SearchDone(found', seed, edges);
  }

  /** Pops one name and collects what its definition mentions. */
  method ExpandLast(
    defs: map<string, Json>, key: string, queue: seq<string>, found: set<string>, ghost seed: set<string>)
    returns (queue': seq<string>, found': set<string>)
    requires Searching(found, queue, seed, Edges(defs, key)) && queue != []
    ensures Searching(found', queue', seed, Edges(defs, key))
    ensures
      var u := Universe(seed, Edges(defs, key));
      |u - found'| < |u - found| || (|u - found'| == |u - found| && |queue'| < |queue|)
  {
    hide Searching, AllRefs, Names, Universe;
    var name := queue[|queue| - 1];
    queue', found' := queue[..|queue| - 1], found;
    if name in defs {
      queue', found' := CollectRefs(defs[name], key, queue', found');
    }
    Expanded(queue, found, queue', found', seed, Edges(defs, key));
  }

  lemma {:induction false} SearchStarts(queue: seq<string>, found: set<string>, seed: set<string>, edges: Graph)
    requires Grown([], {}, queue, found, seed)
    ensures Searching(found, queue, seed, edges)
  {
    assert queue[0..] == queue;
  }

  /** One turn of the worklist keeps the search on course and comes nearer to its end. */
  lemma {:induction false} Expanded(
    q: seq<string>, f: set<string>, q': seq<string>, f': set<string>, seed: set<string>, edges: Graph)
    requires Searching(f, q, seed, edges) && q != []
    requires var n := q[|q| - 1];
             var names := if n in edges then edges[n] else {};
             Grown(q[..|q| - 1], f, q', f', names)
    ensures Searching(f', q', seed, edges)
    ensures
      var u := Universe(seed, edges);
      |u - f'| < |u - f| || (|u - f'| == |u - f| && |q'| < |q|)
  {
    var rest := q[..|q| - 1];
    var tail := q'[|rest|..];
    assert q' == rest + tail;
    assert f' == f ==> tail == [] by {
      if tail != [] {
        assert tail[0] in tail;
      }
    }
    forall i | 0 <= i < |q'| ensures q'[i] in f' {
      assert q'[i] in rest || q'[i] in tail;
      assert i < |rest| ==> q[i] in f;
    }
    SearchStep(f, q, f', q', seed, edges);
    Closer(Universe(seed, edges), f, f');
  }

  lemma {:induction false} Closer(universe: set<string>, before: set<string>, after: set<string>)
    requires before <= after <= universe
    ensures |universe - after| <= |universe - before|
    ensures before != after ==> |universe - after| < |universe - before|
  {
    assert universe - before == (universe - after) + (after - before);
    if before != after {
      var x :| x in after - before;
      assert |after - before| > 0;
    }
  }
}
