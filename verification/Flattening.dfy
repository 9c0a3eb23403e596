/** References as JSON pointers into a document (JSON Schema draft-07, section 8.3; RFC 6901, section 4). */
module Pointers {
  import opened Basics
  import opened Json
  import opened Refs

  /** The parts between slashes. */
  function Segments(s: string): (r: seq<string>)
    ensures |r| >= 1 && r[0] == FirstSegment(s)
  {
    if s == [] then [""]
    else
      var rest := Segments(s[1..]);
      if s[0] == '/' then [""] + rest else [[s[0]] + rest[0]] + rest[1..]
  }

  function Digits(s: string): Option<nat> {
    if s == [] then Some(0)
    else if !('0' <= s[|s| - 1] <= '9') then None
    else
      match Digits(s[..|s| - 1])
      case Some(n) => Some(10 * n + (s[|s| - 1] as int - '0' as int))
      case None => None
  }

  /** An array index: decimal, without a leading zero. */
  function Index(s: string): Option<nat> {
    if s == [] || (s[0] == '0' && |s| > 1) then None else Digits(s)
  }

  /** One step down; the text of a `$ref` is not itself a schema. */
  function Step(v: Json, segment: string): Option<Json> {
    match v
    case Obj(fields) =>
      if segment in fields && !(segment == "$ref" && fields[segment].Str?) then Some(fields[segment]) else None
    case Arr(items) =>
      var i := Index(segment);
      if i.Some? && i.value < |items| then Some(items[i.value]) else None
    case _ => None
  }

  function Descend(v: Json, segments: seq<string>): Option<Json> {
    if segments == [] then Some(v)
    else
      match Step(v, segments[0])
      case Some(child) => Descend(child, segments[1..])
      case None => None
  }

  /** What a reference names in a document; texts that are not fragments of it name nothing. */
  function Resolve(document: Json, r: string): Option<Json> {
    if r == "#" then Some(document)
    else
      match StripPrefix(r, "#/")
      case Some(path) => Descend(document, Segments(path))
      case None => None
  }

  function MapFound(found: Option<Json>, f: string -> string): Option<Json> {
    match found
    case Some(v) => Some(MapRefs(v, f))
    case None => None
  }

  lemma {:induction false} SegmentsAfter(a: string, s: string)
    requires SingleSegment(a)
    ensures Segments(a + "/" + s) == [a] + Segments(s)
  {
    if a == [] {
      assert (a + "/" + s)[1..] == s;
    } else {
      assert (a + "/" + s)[1..] == a[1..] + "/" + s;
      SegmentsAfter(a[1..], s);
      assert [a[0]] + a[1..] == a;
    }
  }

  lemma {:induction false} SegmentsOfSingle(a: string)
    requires SingleSegment(a)
    ensures Segments(a) == [a]
  {
    if a != [] {
      SegmentsOfSingle(a[1..]);
      assert [a[0]] + a[1..] == a;
    }
  }

  /** Descending commutes with rewriting references. */
  lemma {:induction false} DescendMapRefs(v: Json, segments: seq<string>, f: string -> string)
    ensures Descend(MapRefs(v, f), segments) == MapFound(Descend(v, segments), f)
  {
    if segments != [] {
      StepMapRefs(v, segments[0], f);
      if Step(v, segments[0]).Some? {
        DescendMapRefs(Step(v, segments[0]).value, segments[1..], f);
      }
    }
  }

  lemma {:induction false} StepMapRefs(v: Json, segment: string, f: string -> string)
    ensures Step(MapRefs(v, f), segment) == MapFound(Step(v, segment), f)
  {
    if v.Obj? && segment in v.fields {
      MapRefsKind(v.fields[segment], f);
    }
  }

  lemma {:induction false} DescendOne(v: Json, a: string, rest: seq<string>)
    requires Step(v, a).Some?
    ensures Descend(v, [a] + rest) == Descend(Step(v, a).value, rest)
  {
    assert ([a] + rest)[1..] == rest;
  }

  /** Objects that agree on the first segment agree on the rest of the path. */
  lemma {:induction false} DescendAgrees(a: map<string, Json>, b: map<string, Json>, segments: seq<string>)
    requires segments != [] && segments[0] in a && segments[0] in b && a[segments[0]] == b[segments[0]]
    ensures Descend(Obj(a), segments) == Descend(Obj(b), segments)
  {}
}

/** The flat `v2` bundle (`export.rs`). */
module Flattening {
  import opened Basics
  import opened Closure
  import opened Json
  import opened Pointers
  import Reachability
  import opened References
  import opened Refs

  const DEFINITIONS := "definitions"
  const SHARED := ["ClientRequest", "ServerNotification"]
  const DEFAULT_TITLE := "CodexAppServerProtocol"

  datatype Error =
    | RootNotObject
    | NoDefinitions
    | NoNamespace
    | StillNamespaced
    | MissingDefinitions(names: set<string>)

  /** The root names a value refers to outside the namespace. */
  function NonV2Refs(v: Json): set<string> {
    set r | r in AllRefs(v) && ROOT <= r && !(V2 <= r) :: r[|ROOT|..]
  }

  function Dependencies(defs: map<string, Json>): Graph {
    map n | n in defs :: NonV2Refs(defs[n])
  }

  function SharedDefinitions(defs: map<string, Json>): map<string, Json> {
    map n | n in defs && n in SHARED :: defs[n]
  }

  function SharedRefs(defs: map<string, Json>): set<string> {
    set n, m | n in SharedDefinitions(defs) && m in NonV2Refs(defs[n]) :: m
  }

  /** Everything outside the namespace that the shared definitions need. */
  ghost function Needed(defs: map<string, Json>): set<string> {
    Reachable(SharedRefs(defs), Dependencies(defs))
  }

  function PulledIn(defs: map<string, Json>, v2: map<string, Json>, needed: set<string>): map<string, Json> {
    map n | n in defs && n in needed && n != "v2" && n !in v2 :: defs[n]
  }

  /** One level of definitions: the namespace, then what is pulled in, then the shared ones over both. */
  function FlatDefinitions(defs: map<string, Json>, v2: map<string, Json>, needed: set<string>): map<string, Json> {
    v2 + PulledIn(defs, v2, needed) + SharedDefinitions(defs)
  }

  function Title(root: map<string, Json>): string {
    (if "title" in root && root["title"].Str? then root["title"].text else DEFAULT_TITLE) + "V2"
  }

  /** The bundle with flat definitions whose references still carry the namespace. */
  function Merged(root: map<string, Json>, flat: map<string, Json>): (r: Json)
    ensures r.Obj? && DEFINITIONS in r.fields && r.fields[DEFINITIONS] == Obj(flat)
  {
    Obj(root["title" := Str(Title(root))][DEFINITIONS := Obj(flat)])
  }

  function NamespaceOf(bundle: Json): Result<(map<string, Json>, map<string, Json>, map<string, Json>), Error> {
    if !bundle.Obj? then Err(RootNotObject)
    else
      match Reachability.DefinitionsOf(bundle, DEFINITIONS)
      case None => Err(NoDefinitions)
      case Some(defs) =>
        match Reachability.DefinitionsOf(Obj(defs), "v2")
        case None => Err(NoNamespace)
        case Some(v2) => Ok((bundle.fields, defs, v2))
  }

  /** `ensure_no_ref_prefix` and `ensure_referenced_definitions_present`. */
  function Checked(v: Json): Result<Json, Error> {
    if exists r :: r in AllRefs(v) && V2 <= r then Err(StillNamespaced)
    else
      match Reachability.DefinitionsOf(v, DEFINITIONS)
      case None => Err(NoDefinitions)
      case Some(defs) =>
        var missing := Reachability.Mentions(v, DEFINITIONS) - defs.Keys;
        if missing == {} then Ok(v) else Err(MissingDefinitions(missing))
  }

  /** What flattening means. */
  ghost function Flat(bundle: Json): Result<Json, Error> {
    match NamespaceOf(bundle)
    case Err(e) => Err(e)
    case Ok((root, defs, v2)) => Checked(RewriteToFlat(Merged(root, FlatDefinitions(defs, v2, Needed(defs)))))
  }

  // ---------- the operations ----------

  /** `collect_definition_dependencies`: names are marked when they are popped, so a name may wait twice. */
  method CollectDefinitionDependencies(defs: map<string, Json>, names: set<string>) returns (seen: set<string>)
    ensures seen == Reachable(names, Dependencies(defs))
  {
    seen := {};
    var waiting := PushAll(names, {}, []);
    ghost var found := names;
    MarkingStarts(waiting, names, Dependencies(defs));
    while waiting != []
      invariant Marking(seen, found, waiting, names, Dependencies(defs))
      decreases |Universe(names, Dependencies(defs)) - seen|, |waiting|
    {
      seen, waiting, found := MarkLast(defs, seen, waiting, names, found);
    }
    MarkingEnds(seen, found, names, Dependencies(defs));
  }

  /** Everything found is marked or waits, and what is marked has been expanded. */
  ghost predicate Marking(
    seen: set<string>, found: set<string>, waiting: seq<string>, seed: set<string>, edges: Graph)
  {
    && Searching(found, waiting, seed, edges)
    && seen <= found
    && (forall n :: n in found ==> n in seen || n in waiting)
    && (forall n :: n in seen && n in edges ==> edges[n] <= found)
  }

  lemma {:induction false} MarkingStarts(waiting: seq<string>, names: set<string>, edges: Graph)
    requires forall n :: n in waiting <==> n in names
    ensures Marking({}, names, waiting, names, edges)
  {
    forall i | 0 <= i < |waiting| ensures waiting[i] in names {
      assert waiting[i] in waiting;
    }
  }

  lemma {:induction false} MarkingEnds(seen: set<string>, found: set<string>, names: set<string>, edges: Graph)
    requires Marking(seen, found, [], names, edges)
    ensures seen == Reachable(names, edges)
  {
    assert seen == found;
    SearchDone(found, names, edges);
    OnlyOneClosure(found, names, edges);
  }

  /** Appends, in some order, the members of `names` that are not in `seen`. */
  method PushAll(names: set<string>, seen: set<string>, waiting: seq<string>) returns (waiting': seq<string>)
    ensures waiting <= waiting'
    ensures forall n :: n in waiting' <==> n in waiting || n in names - seen
  {
    waiting' := waiting;
    var rest := names;
    while rest != {}
      invariant rest <= names && waiting <= waiting'
      invariant forall n :: n in waiting' <==> n in waiting || n in names - seen - rest
    {
      var n :| n in rest;
      rest := rest - {n};
      if n !in seen {
        waiting' := waiting' + [n];
      }
    }
  }

  method MarkLast(
    defs: map<string, Json>, seen: set<string>, waiting: seq<string>, ghost seed: set<string>, ghost found: set<string>)
    returns (seen': set<string>, waiting': seq<string>, ghost found': set<string>)
    requires Marking(seen, found, waiting, seed, Dependencies(defs)) && waiting != []
    ensures Marking(seen', found', waiting', seed, Dependencies(defs))
    ensures
      var u := Universe(seed, Dependencies(defs));
      |u - seen'| < |u - seen| || (|u - seen'| == |u - seen| && |waiting'| < |waiting|)
  {
    ghost var edges := Dependencies(defs);
    var name := waiting[|waiting| - 1];
    waiting' := waiting[..|waiting| - 1];
    seen', found' := seen, found;
    if name in seen {
      MarkedAgain(seen, found, waiting, seed, edges);
    } else {
      seen' := seen + {name};
      if name in defs {
        var more := NonV2Refs(defs[name]);
        found' := found + more;
        waiting' := PushAll(more, seen', waiting');
      }
      MarkedFirst(seen, found, waiting, found', waiting', seed, edges);
    }
  }

  lemma {:induction false} MarkedAgain(
    seen: set<string>, found: set<string>, waiting: seq<string>, seed: set<string>, edges: Graph)
    requires Marking(seen, found, waiting, seed, edges) && waiting != [] && waiting[|waiting| - 1] in seen
    ensures Marking(seen, found, waiting[..|waiting| - 1], seed, edges)
  {
    var rest := waiting[..|waiting| - 1];
    assert waiting == rest + [waiting[|waiting| - 1]];
    forall n | n in found ensures n in seen || n in rest {
      assert n in waiting ==> n in rest || n == waiting[|waiting| - 1];
    }
  }

  lemma {:induction false} MarkedFirst(
    seen: set<string>, found: set<string>, waiting: seq<string>, found': set<string>, waiting': seq<string>,
    seed: set<string>, edges: Graph)
    requires Marking(seen, found, waiting, seed, edges) && waiting != [] && waiting[|waiting| - 1] !in seen
    requires
      var n := waiting[|waiting| - 1];
      var more := if n in edges then edges[n] else {};
      && found' == found + more
      && forall m :: m in waiting' <==> m in waiting[..|waiting| - 1] || m in more - (seen + {n})
    ensures
      var n := waiting[|waiting| - 1];
      && Marking(seen + {n}, found', waiting', seed, edges)
      && |Universe(seed, edges) - (seen + {n})| < |Universe(seed, edges) - seen|
  {
    var n := waiting[|waiting| - 1];
    var rest := waiting[..|waiting| - 1];
    assert waiting == rest + [n];
    assert n in waiting && n in found;
    forall m | m in found' ensures m in seen + {n} || m in waiting' {
      assert m in found && m !in seen ==> m in rest || m == n;
    }
    forall i | 0 <= i < |waiting'| ensures waiting'[i] in found' {
      assert waiting'[i] in waiting';
      assert waiting'[i] in rest ==> waiting'[i] in waiting;
    }
    forall s | Closed(s, edges) && seed <= s ensures found' <= s {
      assert found <= s;
    }
    var u := Universe(seed, edges);
    assert u - seen == (u - (seen + {n})) + {n};
  }

  /** `build_flat_v2_schema`. */
  method BuildFlat(bundle: Json) returns (r: Result<Json, Error>)
    ensures r == Flat(bundle)
  {
    match NamespaceOf(bundle) {
      case Err(e) => r := Err(e);
      case Ok((root, defs, v2)) =>
        var shared, refs := CollectShared(defs);
        var needed := CollectDefinitionDependencies(defs, refs);
        var flat := PullIn(defs, v2, needed);
        flat := flat + shared;
        r := Checked(RewriteToFlat(Merged(root, flat)));
    }
  }

  method CollectShared(defs: map<string, Json>) returns (shared: map<string, Json>, refs: set<string>)
    ensures shared == SharedDefinitions(defs) && refs == SharedRefs(defs)
  {
    shared, refs := map[], {};
    for i := 0 to |SHARED|
      invariant shared == map n | n in defs && n in SHARED[..i] :: defs[n]
      invariant refs == set n, m | n in shared && m in NonV2Refs(defs[n]) :: m
    {
      assert SHARED[..i + 1] == SHARED[..i] + [SHARED[i]];
      if SHARED[i] in defs {
        shared := shared[SHARED[i] := defs[SHARED[i]]];
        refs := refs + NonV2Refs(defs[SHARED[i]]);
      }
    }
    assert SHARED[..|SHARED|] == SHARED;
  }

  method PullIn(defs: map<string, Json>, v2: map<string, Json>, needed: set<string>) returns (flat: map<string, Json>)
    ensures flat == v2 + PulledIn(defs, v2, needed)
  {
    flat := v2;
    var rest := needed;
    while rest != {}
      invariant rest <= needed
      invariant flat == v2 + PulledIn(defs, v2, needed - rest)
    {
      var n :| n in rest;
      rest := rest - {n};
      if n != "v2" && n !in flat && n in defs {
        flat := flat[n := defs[n]];
      }
    }
    assert needed - rest == needed;
  }

  // ---------- meaning is preserved ----------

  /** A reference into a definition of the namespace, not through a nested `v2/`. */
  ghost predicate NamespaceRef(r: string, v2: map<string, Json>) {
    && V2 <= r
    && var rest := r[|V2|..];
    && FirstSegment(rest) in v2 && !("v2/" <= rest) && !Occurs(V2, rest)
  }

  /** A reference to a whole definition at the root. */
  predicate RootRef(r: string, defs: map<string, Json>) {
    && ROOT <= r
    && var name := r[|ROOT|..];
    && SingleSegment(name) && name in defs && name != "v2"
  }

  /** The fields of the bundle that flattening leaves alone. */
  function OtherFields(root: map<string, Json>): map<string, Json> {
    root - {DEFINITIONS, "title"}
  }

  /** The root definitions that the flat bundle carries. */
  ghost function Carried(defs: map<string, Json>): set<string> {
    set n | n in defs && n != "v2" && (n in Needed(defs) || n in SHARED)
  }

  /**
   Namespaced definitions refer only into the namespace, and the carried root definitions and the other fields refer
   into it or to whole root definitions. No definition is itself called `$ref`.
   */
  ghost predicate Referring(root: map<string, Json>, defs: map<string, Json>, v2: map<string, Json>) {
    && (forall n, r :: n in v2 && r in AllRefs(v2[n]) ==> NamespaceRef(r, v2))
    && (forall n, r :: n in Carried(defs) && r in AllRefs(defs[n]) ==> NamespaceRef(r, v2) || RootRef(r, defs))
    && (forall r :: r in AllRefs(Obj(OtherFields(root))) ==>
          NamespaceRef(r, v2) || (RootRef(r, defs) && r[|ROOT|..] in Carried(defs)))
    && "$ref" !in v2 && "$ref" !in defs
  }

  /** Bundles as the exporter builds them: besides, no carried name is taken in the namespace. */
  ghost predicate Flattenable(root: map<string, Json>, defs: map<string, Json>, v2: map<string, Json>) {
    Referring(root, defs, v2) && Carried(defs) !! v2.Keys
  }

  /** The references that the flat bundle takes over. */
  ghost function TakenOver(root: map<string, Json>, defs: map<string, Json>, v2: map<string, Json>): set<string> {
    (set n, r | n in v2 && r in AllRefs(v2[n]) :: r) +
    (set n, r | n in Carried(defs) && r in AllRefs(defs[n]) :: r) +
    AllRefs(Obj(OtherFields(root)))
  }

  /** A taken over reference leads into the namespace or to a carried definition. */
  ghost predicate Sound(r: string, defs: map<string, Json>, v2: map<string, Json>) {
    NamespaceRef(r, v2) || (RootRef(r, defs) && r[|ROOT|..] in Carried(defs))
  }

  lemma {:induction false} RootRefIsNonV2(r: string, defs: map<string, Json>)
    requires RootRef(r, defs)
    ensures !(V2 <= r)
  {
    var name := r[|ROOT|..];
    assert r == ROOT + name && ROOT + "v2/" == V2;
    StartsTogether(ROOT, "v2/", name);
    SingleHasNoPattern(name);
  }

  lemma {:induction false} TakenOverAreSound(root: map<string, Json>, defs: map<string, Json>, v2: map<string, Json>)
    requires Referring(root, defs, v2)
    ensures forall r :: r in TakenOver(root, defs, v2) ==> Sound(r, defs, v2)
  {
    forall n, r | n in Carried(defs) && r in AllRefs(defs[n]) ensures Sound(r, defs, v2) {
      if !NamespaceRef(r, v2) {
        CarriedIsClosed(defs, n, r);
      }
    }
  }

  /** Root references of carried definitions lead to carried definitions. */
  lemma {:induction false} CarriedIsClosed(defs: map<string, Json>, n: string, r: string)
    requires n in Carried(defs) && r in AllRefs(defs[n]) && RootRef(r, defs)
    ensures r[|ROOT|..] in Carried(defs)
  {
    RootRefIsNonV2(r, defs);
    var name := r[|ROOT|..];
    assert name in NonV2Refs(defs[n]);
    ReachableIsClosure(SharedRefs(defs), Dependencies(defs));
    if n in SHARED {
      assert name in SharedRefs(defs);
    } else {
      assert name in Dependencies(defs)[n];
    }
  }

  lemma {:induction false} FlatDefinitionsAre(defs: map<string, Json>, v2: map<string, Json>)
    requires Carried(defs) !! v2.Keys && "v2" in defs
    ensures
      var flat := FlatDefinitions(defs, v2, Needed(defs));
      && flat.Keys == v2.Keys + Carried(defs)
      && (forall n :: n in v2 ==> flat[n] == v2[n])
      && (forall n :: n in Carried(defs) ==> flat[n] == defs[n])
  {
    assert "v2" !in SHARED;
  }

  /** The flat bundle takes the definition of `n` from the root, although the namespace may have one too. */
  predicate FromRoot(n: string, defs: map<string, Json>, v2: map<string, Json>) {
    n in SharedDefinitions(defs) || n !in v2
  }

  lemma {:induction false} FlatDefinitionsFrom(defs: map<string, Json>, v2: map<string, Json>)
    requires "v2" in defs
    ensures
      var flat := FlatDefinitions(defs, v2, Needed(defs));
      && flat.Keys == v2.Keys + Carried(defs)
      && (forall n :: n in flat && FromRoot(n, defs, v2) ==> n in defs && flat[n] == defs[n])
      && (forall n :: n in flat && !FromRoot(n, defs, v2) ==> n in v2 && flat[n] == v2[n])
  {
    assert "v2" !in SHARED;
  }

  /** The flat name of a sound reference is a root reference to a definition of the flat bundle. */
  lemma {:induction false} FlatNameOfSound(r: string, defs: map<string, Json>, v2: map<string, Json>)
    requires Sound(r, defs, v2)
    ensures ROOT <= FlatName(r)
    ensures FlatName(r)[|ROOT|..] == PathOf(r) && PathOf(r) == if V2 <= r then r[|V2|..] else r[|ROOT|..]
    ensures !(V2 <= FlatName(r))
    ensures FirstSegment(FlatName(r)[|ROOT|..]) in v2.Keys + Carried(defs)
  {
    PrefixSurvives(r);
    if V2 <= r {
      if NamespaceRef(r, v2) {
        var rest := r[|V2|..];
        assert r == V2 + rest;
        FlatNameOfV2(rest);
        ReplaceChangesOccurrences(rest, V2, ROOT);
        StartsTogether(V2, "v2/", rest);
        assert (ROOT + rest)[|ROOT|..] == rest;
      } else {
        RootRefIsNonV2(r, defs);
      }
    } else {
      var name := r[|ROOT|..];
      assert r == ROOT + name;
      SingleHasNoPattern(name);
      FirstOfSingle(name);
      FlatNameOfRoot(name);
      ReplaceChangesOccurrences(name, V2, ROOT);
      assert V2 <= V2 + "v2/";
    }
  }

  lemma {:induction false} SingleHasNoPattern(name: string)
    requires SingleSegment(name)
    ensures !Occurs(V2, name) && !("v2/" <= name)
  {
    forall i | 0 <= i <= |name| ensures !(V2 <= name[i..]) {
      assert |name[i..]| > 1 ==> name[i..][1] == name[i + 1];
    }
    assert |name| > 2 ==> name[2] != '/';
  }

  lemma {:induction false} RefsOfDefinitions(flat: map<string, Json>, r: string)
    requires "$ref" !in flat
    ensures r in AllRefs(Obj(flat)) <==> exists n :: n in flat && r in AllRefs(flat[n])
  {
    ObjectRefs(flat, r);
  }

  lemma {:induction false} TextHasNoRefs(text: string)
    ensures AllRefs(Str(text)) == {}
  {}

  lemma {:induction false} RefsOfMerged(root: map<string, Json>, flat: map<string, Json>, r: string)
    ensures r in AllRefs(Merged(root, flat)) <==> r in AllRefs(Obj(OtherFields(root))) || r in AllRefs(Obj(flat))
  {
    hide AllRefs;
    var merged, other := Merged(root, flat).fields, OtherFields(root);
    ObjectRefs(merged, r);
    ObjectRefs(other, r);
    assert merged.Keys == other.Keys + {"title", DEFINITIONS};
    assert forall k :: k in other ==> merged[k] == other[k];
    TextHasNoRefs(Title(root));
    assert RefHere(Obj(merged)) == RefHere(Obj(other));
  }

  lemma {:induction false} TakenOverAreRefs(root: map<string, Json>, defs: map<string, Json>, v2: map<string, Json>)
    requires Flattenable(root, defs, v2) && "v2" in defs
    ensures AllRefs(Merged(root, FlatDefinitions(defs, v2, Needed(defs)))) == TakenOver(root, defs, v2)
  {
    hide AllRefs, Merged, Needed, NonV2Refs, NamespaceRef, RootRef;
    var flat := FlatDefinitions(defs, v2, Needed(defs));
    FlatDefinitionsAre(defs, v2);
    forall r ensures r in AllRefs(Merged(root, flat)) <==> r in TakenOver(root, defs, v2) {
      RefsOfMerged(root, flat, r);
      RefsOfDefinitions(flat, r);
      FromDefinitions(defs, v2, flat, r);
    }
  }

  /** With colliding names the references of the losing definitions are not among those of the bundle. */
  lemma {:induction false} RefsAreTakenOver(root: map<string, Json>, defs: map<string, Json>, v2: map<string, Json>)
    requires Referring(root, defs, v2) && "v2" in defs
    ensures AllRefs(Merged(root, FlatDefinitions(defs, v2, Needed(defs)))) <= TakenOver(root, defs, v2)
  {
    hide AllRefs, Merged, Needed, NonV2Refs, NamespaceRef, RootRef, FlatDefinitions, FromRoot;
    var flat := FlatDefinitions(defs, v2, Needed(defs));
    FlatDefinitionsFrom(defs, v2);
    forall r | r in AllRefs(Merged(root, flat)) ensures r in TakenOver(root, defs, v2) {
      RefsOfMerged(root, flat, r);
      RefsOfDefinitions(flat, r);
      if n :| n in flat && r in AllRefs(flat[n]) {
        assert n in v2 || n in Carried(defs);
        if FromRoot(n, defs, v2) {
          InCarried(n, defs, v2);
        }
      }
    }
  }

  lemma {:induction false} InCarried(n: string, defs: map<string, Json>, v2: map<string, Json>)
    requires FromRoot(n, defs, v2) && n in v2.Keys + Carried(defs)
    ensures n in Carried(defs)
  {
    assert "v2" !in SHARED;
  }

  lemma {:induction false} FromDefinitions(
    defs: map<string, Json>, v2: map<string, Json>, flat: map<string, Json>, r: string)
    requires flat.Keys == v2.Keys + Carried(defs)
    requires forall n :: n in v2 ==> flat[n] == v2[n]
    requires forall n :: n in Carried(defs) ==> flat[n] == defs[n]
    ensures (exists n :: n in flat && r in AllRefs(flat[n])) <==>
      (exists n :: n in v2 && r in AllRefs(v2[n])) || (exists n :: n in Carried(defs) && r in AllRefs(defs[n]))
  {
    if n :| n in flat && r in AllRefs(flat[n]) {
      assert n in v2 || n in Carried(defs);
    }
    if n :| n in v2 && r in AllRefs(v2[n]) {
      assert n in flat;
    }
    if n :| n in Carried(defs) && r in AllRefs(defs[n]) {
      assert n in flat;
    }
  }

  lemma {:induction false} ChecksPass(v: Json, flat: map<string, Json>)
    requires Reachability.DefinitionsOf(v, DEFINITIONS) == Some(flat)
    requires forall x :: x in AllRefs(v) ==> ROOT <= x && !(V2 <= x) && FirstSegment(x[|ROOT|..]) in flat
    ensures Checked(v) == Ok(v)
  {
    assert "#/" + DEFINITIONS + "/" == ROOT;
    assert Reachability.Mentions(v, DEFINITIONS) - flat.Keys == {};
  }

  /** The build succeeds, with colliding names too. */
  lemma {:induction false} FlatteningSucceeds(bundle: Json)
    requires NamespaceOf(bundle).Ok?
    requires
      var (root, defs, v2) := NamespaceOf(bundle).value;
      Referring(root, defs, v2)
    ensures
      var (root, defs, v2) := NamespaceOf(bundle).value;
      Flat(bundle) == Ok(RewriteToFlat(Merged(root, FlatDefinitions(defs, v2, Needed(defs)))))
  {
    var (root, defs, v2) := NamespaceOf(bundle).value;
    var flat := FlatDefinitions(defs, v2, Needed(defs));
    var merged := Merged(root, flat);
    var result := RewriteToFlat(merged);
    RefsOfMapRefs(merged, FlatName);
    RefsAreTakenOver(root, defs, v2);
    TakenOverAreSound(root, defs, v2);
    FlatDefinitionsFrom(defs, v2);
    RewrittenDefinitions(root, flat);
    forall x | x in AllRefs(result) ensures !(V2 <= x) && ROOT <= x && FirstSegment(x[|ROOT|..]) in flat {
      var r :| r in AllRefs(merged) && x == FlatName(r);
      FlatNameOfSound(r, defs, v2);
    }
    ChecksPass(result, Reachability.DefinitionsOf(result, DEFINITIONS).value);
  }

  lemma {:induction false} RewrittenDefinitions(root: map<string, Json>, flat: map<string, Json>)
    requires "$ref" !in flat
    ensures
      var result := Reachability.DefinitionsOf(RewriteToFlat(Merged(root, flat)), DEFINITIONS);
      result.Some? && result.value == map n | n in flat :: RewriteToFlat(flat[n])
  {
    assert MapRefs(Obj(flat), FlatName).fields == map n | n in flat :: RewriteToFlat(flat[n]);
  }

  lemma {:induction false} ResolveRoot(document: map<string, Json>, flat: map<string, Json>, path: string)
    requires DEFINITIONS in document && document[DEFINITIONS] == Obj(flat)
    ensures Resolve(Obj(document), ROOT + path) == Descend(Obj(flat), Segments(path))
  {
    var r := ROOT + path;
    assert r == "#/" + (DEFINITIONS + "/" + path) by {
      assert ROOT == "#/" + DEFINITIONS + "/";
    }
    assert r[|"#/"|..] == DEFINITIONS + "/" + path;
    SegmentsAfter(DEFINITIONS, path);
    DescendOne(Obj(document), DEFINITIONS, Segments(path));
  }

  lemma {:induction false} ResolveNamespace(bundle: Json, rest: string)
    requires NamespaceOf(bundle).Ok?
    ensures Resolve(bundle, V2 + rest) == Descend(Obj(NamespaceOf(bundle).value.2), Segments(rest))
  {
    var (root, defs, v2) := NamespaceOf(bundle).value;
    assert V2 + rest == ROOT + ("v2" + "/" + rest);
    ResolveRoot(root, defs, "v2" + "/" + rest);
    SegmentsAfter("v2", rest);
    DescendOne(Obj(defs), "v2", Segments(rest));
  }

  /** Where a reference leads, inside the namespace or among the root definitions. */
  function PathOf(r: string): string {
    if V2 <= r then r[|V2|..] else if ROOT <= r then r[|ROOT|..] else ""
  }

  /** The definition that a sound reference leads to is replaced by one of the same name. */
  ghost predicate Displaced(r: string, defs: map<string, Json>, v2: map<string, Json>) {
    var n := FirstSegment(PathOf(r));
    if NamespaceRef(r, v2) then FromRoot(n, defs, v2) else !FromRoot(n, defs, v2)
  }

  /** What stands in the root and in the namespace under the flat name of `r` has the same flattened form. */
  ghost predicate SameEitherWay(r: string, defs: map<string, Json>, v2: map<string, Json>) {
    var path := Segments(PathOf(r));
    MapFound(Descend(Obj(defs), path), FlatName) == MapFound(Descend(Obj(v2), path), FlatName)
  }

  /** What a sound reference names in the bundle, in terms of its flat name. */
  lemma {:induction false} TargetBefore(
    bundle: Json, r: string, root: map<string, Json>, defs: map<string, Json>, v2: map<string, Json>)
    requires NamespaceOf(bundle) == Ok((root, defs, v2)) && Sound(r, defs, v2)
    ensures Resolve(bundle, r) ==
            Descend(Obj(if NamespaceRef(r, v2) then v2 else defs), Segments(PathOf(r)))
  {
    hide Replace, Needed, Occurs, Descend, Segments, NamespaceOf;
    FlatNameOfSound(r, defs, v2);
    var path := PathOf(r);
    if NamespaceRef(r, v2) {
      assert r == V2 + path;
      ResolveNamespace(bundle, path);
    } else {
      RootRefIsNonV2(r, defs);
      assert r == ROOT + path;
      RootOf(bundle);
      ResolveRoot(root, defs, path);
    }
  }

  lemma {:induction false} RootOf(bundle: Json)
    requires NamespaceOf(bundle).Ok?
    ensures
      var (root, defs, v2) := NamespaceOf(bundle).value;
      bundle == Obj(root) && DEFINITIONS in root && root[DEFINITIONS] == Obj(defs) && "v2" in defs
  {}

  /** What its flat name names before the final rewrite. */
  lemma {:induction false} TargetAfter(
    r: string, root: map<string, Json>, defs: map<string, Json>, v2: map<string, Json>)
    requires Sound(r, defs, v2) && "v2" in defs
    ensures
      var flat := FlatDefinitions(defs, v2, Needed(defs));
      var path := PathOf(r);
      Resolve(Merged(root, flat), FlatName(r)) ==
      Descend(Obj(if FromRoot(FirstSegment(path), defs, v2) then defs else v2), Segments(path))
  {
    hide Replace, Needed, Occurs, FlatDefinitions, FromRoot, NamespaceRef, RootRef, Descend;
    var flat := FlatDefinitions(defs, v2, Needed(defs));
    FlatNameOfSound(r, defs, v2);
    FlatDefinitionsFrom(defs, v2);
    var path := PathOf(r);
    assert FlatName(r) == ROOT + path;
    ResolveRoot(Merged(root, flat).fields, flat, path);
    DescendAgrees(flat, if FromRoot(FirstSegment(path), defs, v2) then defs else v2, Segments(path));
  }

  lemma {:induction false} ResolveMapRefs(document: Json, r: string, f: string -> string)
    ensures Resolve(MapRefs(document, f), r) == MapFound(Resolve(document, r), f)
  {
    if r != "#" && "#/" <= r {
      DescendMapRefs(document, Segments(StripPrefix(r, "#/").value), f);
    }
  }

  /** The references of the flat bundle are exactly the flat names of those it takes over. */
  lemma {:induction false} FlatReferences(bundle: Json)
    requires NamespaceOf(bundle).Ok?
    requires
      var (root, defs, v2) := NamespaceOf(bundle).value;
      Flattenable(root, defs, v2)
    ensures Flat(bundle).Ok?
    ensures
      var (root, defs, v2) := NamespaceOf(bundle).value;
      AllRefs(Flat(bundle).value) == Image(TakenOver(root, defs, v2), FlatName)
  {
    var (root, defs, v2) := NamespaceOf(bundle).value;
    var merged := Merged(root, FlatDefinitions(defs, v2, Needed(defs)));
    FlatteningSucceeds(bundle);
    TakenOverAreRefs(root, defs, v2);
    RefsOfMapRefs(merged, FlatName);
  }

  /**
   Exactly when a reference keeps its meaning: the build succeeds, and the flat name of a reference that it takes over
   names the flattened form of what the reference named, unless the definition was displaced by one of the same name
   in which the flattened target differs.
   */
  lemma {:induction false} ReferenceKeepsMeaningIff(
    bundle: Json, r: string, root: map<string, Json>, defs: map<string, Json>, v2: map<string, Json>)
    requires NamespaceOf(bundle) == Ok((root, defs, v2)) && Referring(root, defs, v2)
    requires r in TakenOver(root, defs, v2)
    ensures Flat(bundle).Ok?
    ensures Resolve(Flat(bundle).value, FlatName(r)) == MapFound(Resolve(bundle, r), FlatName) <==>
            (Displaced(r, defs, v2) ==> SameEitherWay(r, defs, v2))
  {
    hide Replace, Needed, Occurs, FlatDefinitions, FromRoot, NamespaceRef, RootRef, Descend, Segments, MapFound,
      TakenOver;
    hide Referring, Flat;
    var flat := FlatDefinitions(defs, v2, Needed(defs));
    FlatteningSucceeds(bundle);
    TakenOverAreSound(root, defs, v2);
    RootOf(bundle);
    TargetBefore(bundle, r, root, defs, v2);
    TargetAfter(r, root, defs, v2);
    ResolveMapRefs(Merged(root, flat), FlatName(r), FlatName);
  }

  /**
   Flattening preserves what references mean. On a flattenable bundle the build succeeds, and every reference that
   it takes over names the flattened form of what it named in the bundle, or nothing if it named nothing.
   */
  lemma {:induction false} FlatteningKeepsMeaning(
    bundle: Json, r: string, root: map<string, Json>, defs: map<string, Json>, v2: map<string, Json>)
    requires NamespaceOf(bundle) == Ok((root, defs, v2)) && Flattenable(root, defs, v2)
    requires r in TakenOver(root, defs, v2)
    ensures Flat(bundle).Ok?
    ensures Resolve(Flat(bundle).value, FlatName(r)) == MapFound(Resolve(bundle, r), FlatName)
  {
    hide Replace, Needed, Occurs, FlatDefinitions, Descend, Segments, MapFound, Flat, SameEitherWay;
    ReferenceKeepsMeaningIff(bundle, r, root, defs, v2);
    TakenOverAreSound(root, defs, v2);
    NothingDisplaced(r, defs, v2);
  }

  lemma {:induction false} NothingDisplaced(r: string, defs: map<string, Json>, v2: map<string, Json>)
    requires Sound(r, defs, v2) && Carried(defs) !! v2.Keys
    ensures !Displaced(r, defs, v2)
  {
    hide Replace, Needed, Occurs;
    FlatNameOfSound(r, defs, v2);
    var n := FirstSegment(PathOf(r));
    if NamespaceRef(r, v2) {
      if FromRoot(n, defs, v2) {
        InCarried(n, defs, v2);
      }
    } else {
      RootRefIsNonV2(r, defs);
      FirstOfSingle(r[|ROOT|..]);
    }
  }

  /** Nothing of the namespace or of the carried definitions is lost, and nothing else is defined. */
  lemma {:induction false} FlatteningKeepsDefinitions(bundle: Json)
    requires NamespaceOf(bundle).Ok?
    requires
      var (root, defs, v2) := NamespaceOf(bundle).value;
      Flattenable(root, defs, v2)
    ensures Flat(bundle).Ok? && Reachability.DefinitionsOf(Flat(bundle).value, DEFINITIONS).Some?
    ensures
      var (root, defs, v2) := NamespaceOf(bundle).value;
      var flat := Reachability.DefinitionsOf(Flat(bundle).value, DEFINITIONS).value;
      && flat.Keys == v2.Keys + Carried(defs)
      && (forall n :: n in v2 ==> flat[n] == RewriteToFlat(v2[n]))
      && (forall n :: n in Carried(defs) ==> flat[n] == RewriteToFlat(defs[n]))
  {
    var (root, defs, v2) := NamespaceOf(bundle).value;
    FlatteningSucceeds(bundle);
    FlatDefinitionsAre(defs, v2);
    RewrittenDefinitions(root, FlatDefinitions(defs, v2, Needed(defs)));
  }

  /** A reference into `v2/v2/` stops the build, whatever else the bundle holds. */
  lemma {:induction false} NestedNamespaceFails(bundle: Json)
    requires NamespaceOf(bundle).Ok?
    ensures
      var (root, defs, v2) := NamespaceOf(bundle).value;
      var merged := Merged(root, FlatDefinitions(defs, v2, Needed(defs)));
      Flat(bundle) == Err(StillNamespaced) <==> exists r :: r in AllRefs(merged) && V2 + "v2/" <= r
  {
    hide AllRefs, MapRefs, FlatDefinitions, Replace, Reachability.Mentions;
    var (root, defs, v2) := NamespaceOf(bundle).value;
    var merged := Merged(root, FlatDefinitions(defs, v2, Needed(defs)));
    RefsOfMapRefs(merged, FlatName);
    forall r ensures V2 <= FlatName(r) <==> V2 + "v2/" <= r {
      PrefixSurvives(r);
    }
    if r :| r in AllRefs(merged) && V2 + "v2/" <= r {
      assert FlatName(r) in AllRefs(RewriteToFlat(merged));
    }
  }

  function RefTo(r: string): (v: Json)
    ensures AllRefs(v) == {r}
  {
    Obj(map["$ref" := Str(r)])
  }

  /** A shared definition refers to the root `Id` while the namespace has its own. */
  function CollidingDefinitions(): map<string, Json> {
    map["v2" := Obj(map["Id" := Str("namespaced")]), "Id" := Str("root"), "ClientRequest" := RefTo(ROOT + "Id")]
  }

  function CollidingBundle(): Json {
    Obj(map[DEFINITIONS := Obj(CollidingDefinitions())])
  }

  /** Without the condition on names the build still succeeds but changes what a reference names. */
  lemma {:induction false} CollisionChangesMeaning()
    ensures
      var r := ROOT + "Id";
      && Flat(CollidingBundle()).Ok?
      && Resolve(CollidingBundle(), r) == Some(Str("root"))
      && Resolve(Flat(CollidingBundle()).value, FlatName(r)) == Some(Str("namespaced"))
  {
    var v2 := map["Id" := Str("namespaced")];
    assert NamespaceOf(CollidingBundle()) == Ok((CollidingBundle().fields, CollidingDefinitions(), v2));
    CollidingBuild(CollidingBundle(), CollidingDefinitions(), v2);
  }

  lemma {:induction false} CollidingBuild(bundle: Json, defs: map<string, Json>, v2: map<string, Json>)
    requires bundle.Obj? && OtherFields(bundle.fields) == map[] && NamespaceOf(bundle) == Ok((bundle.fields, defs, v2))
    requires defs.Keys == {"v2", "Id", "ClientRequest"} && v2.Keys == {"Id"} && defs["Id"].Str? && v2["Id"].Str?
    requires defs["ClientRequest"] == RefTo(ROOT + "Id")
    ensures
      var r := ROOT + "Id";
      && Flat(bundle).Ok?
      && Resolve(bundle, r) == Some(defs["Id"])
      && Resolve(Flat(bundle).value, FlatName(r)) == Some(v2["Id"])
  {
    var flat := FlatDefinitions(defs, v2, Needed(defs));
    CollidingFlat(defs, v2);
    CollidingChecked(bundle.fields, flat);
    IdIsItself();
    ResolveId(bundle.fields, defs);
    ResolveId(Merged(bundle.fields, flat).fields, flat);
    ResolveMapRefs(Merged(bundle.fields, flat), ROOT + "Id", FlatName);
  }

  lemma {:induction false} IdIsItself()
    ensures FlatName(ROOT + "Id") == ROOT + "Id"
    ensures !(V2 <= ROOT + "Id") && (ROOT + "Id")[|ROOT|..] == "Id"
  {
    SingleHasNoPattern("Id");
    FlatNameOfRoot("Id");
    ReplaceChangesOccurrences("Id", V2, ROOT);
    StartsTogether(ROOT, "v2/", "Id");
    assert ROOT + "v2/" == V2;
  }

  lemma {:induction false} ResolveId(document: map<string, Json>, flat: map<string, Json>)
    requires DEFINITIONS in document && document[DEFINITIONS] == Obj(flat)
    ensures "Id" in flat ==> Resolve(Obj(document), ROOT + "Id") == Some(flat["Id"])
  {
    SegmentsOfSingle("Id");
    ResolveRoot(document, flat, "Id");
    if "Id" in flat {
      DescendOne(Obj(flat), "Id", []);
    }
  }

  lemma {:induction false} CollidingRefs(root: map<string, Json>, flat: map<string, Json>, r: string)
    requires OtherFields(root) == map[] && flat.Keys == {"Id", "ClientRequest"}
    requires flat["Id"].Str? && flat["ClientRequest"] == RefTo(r)
    ensures forall x :: x in AllRefs(Merged(root, flat)) ==> x == r
  {
    hide Merged;
    forall x | x in AllRefs(Merged(root, flat)) ensures x == r {
      RefsOfMerged(root, flat, x);
      RefsOfDefinitions(flat, x);
      ObjectRefs(map[], x);
    }
  }

  lemma {:induction false} CollidingChecked(root: map<string, Json>, flat: map<string, Json>)
    requires OtherFields(root) == map[] && flat.Keys == {"Id", "ClientRequest"}
    requires flat["Id"].Str? && flat["ClientRequest"] == RefTo(ROOT + "Id")
    ensures Checked(RewriteToFlat(Merged(root, flat))) == Ok(RewriteToFlat(Merged(root, flat)))
  {
    IdIsItself();
    var merged := Merged(root, flat);
    CollidingRefs(root, flat, ROOT + "Id");
    RefsOfMapRefs(merged, FlatName);
    FirstOfSingle("Id");
    RewrittenDefinitions(root, flat);
    ChecksPass(RewriteToFlat(merged), map n | n in flat :: RewriteToFlat(flat[n]));
  }

  lemma {:induction false} CollidingFlat(defs: map<string, Json>, v2: map<string, Json>)
    requires defs.Keys == {"v2", "Id", "ClientRequest"} && v2.Keys == {"Id"} && defs["Id"].Str?
    requires defs["ClientRequest"] == RefTo(ROOT + "Id")
    ensures FlatDefinitions(defs, v2, Needed(defs)) == v2 + map["ClientRequest" := defs["ClientRequest"]]
  {
    assert SHARED[0] == "ClientRequest";
    assert SharedDefinitions(defs) == map["ClientRequest" := defs["ClientRequest"]];
    CollidingNeeded(defs);
    assert PulledIn(defs, v2, Needed(defs)) == map[];
  }

  lemma {:induction false} CollidingNeeded(defs: map<string, Json>)
    requires defs.Keys == {"v2", "Id", "ClientRequest"} && defs["Id"].Str?
    requires defs["ClientRequest"] == RefTo(ROOT + "Id")
    ensures Needed(defs) <= {"Id"}
  {
    var s := {"Id"};
    assert NonV2Refs(defs["Id"]) == {};
    assert NonV2Refs(defs["ClientRequest"]) <= s by {
      IdIsItself();
    }
    assert SHARED[0] == "ClientRequest";
    assert SharedRefs(defs) <= s;
    assert Closed(s, Dependencies(defs));
    ReachableIsClosure(SharedRefs(defs), Dependencies(defs));
  }

  /** A shared definition that refers into the namespace. */
  function SmallDefinitions(): map<string, Json> {
    map["v2" := Obj(map["Id" := Str("namespaced")]), "ClientRequest" := RefTo(V2 + "Id")]
  }

  function SmallBundle(): Json {
    Obj(map[DEFINITIONS := Obj(SmallDefinitions())])
  }

  /** The conditions of the theorem are met, with a reference to carry over. */
  lemma {:induction false} SmallBundleIsFlattenable()
    ensures
      var r := NamespaceOf(SmallBundle());
      && r.Ok?
      && var (root, defs, v2) := r.value;
      && Flattenable(root, defs, v2) && V2 + "Id" in TakenOver(root, defs, v2)
  {
    var v2 := map["Id" := Str("namespaced")];
    assert NamespaceOf(SmallBundle()) == Ok((SmallBundle().fields, SmallDefinitions(), v2));
    SmallConditions(SmallBundle().fields, SmallDefinitions(), v2);
  }

  lemma {:induction false} SmallConditions(root: map<string, Json>, defs: map<string, Json>, v2: map<string, Json>)
    requires OtherFields(root) == map[] && defs.Keys == {"v2", "ClientRequest"} && v2.Keys == {"Id"} && v2["Id"].Str?
    requires defs["ClientRequest"] == RefTo(V2 + "Id")
    ensures Flattenable(root, defs, v2) && V2 + "Id" in TakenOver(root, defs, v2)
  {
    hide Needed;
    assert SHARED[0] == "ClientRequest";
    assert Carried(defs) == {"ClientRequest"};
    forall r ensures r !in AllRefs(Obj(OtherFields(root))) {
      ObjectRefs(map[], r);
    }
    assert (V2 + "Id")[|V2|..] == "Id";
    FirstOfSingle("Id");
    SingleHasNoPattern("Id");
  }
}
