/** What the schema operations of `export.rs` do, told by the paths of a document and by the letters of a reference. */
module SchemaMeaning {
  import opened Basics
  import opened Closure
  import Flattening
  import opened Json
  import opened Reachability
  import opened References
  import opened Refs
  import opened VariantStripping

  // ---------- paths ----------

  datatype Move = Field(name: string) | Item(index: nat)

  /** What stands at the end of a path. */
  function Go(v: Json, path: seq<Move>): Option<Json> {
    if path == [] then Some(v)
    else
      match (v, path[0])
      case (Obj(fields), Field(name)) => if name in fields then Go(fields[name], path[1..]) else None
      case (Arr(items), Item(i)) => if i < |items| then Go(items[i], path[1..]) else None
      case _ => None
  }

  /** The path leads to an object with the reference. */
  ghost predicate RefersAt(v: Json, path: seq<Move>, r: string) {
    && var found := Go(v, path);
    found.Some? && found.value.Obj? && "$ref" in found.value.fields && found.value.fields["$ref"] == Str(r)
  }

  ghost predicate Refers(v: Json, r: string) {
    exists path :: RefersAt(v, path, r)
  }

  /** The path stays outside the maps of definitions. */
  ghost predicate AvoidsDefinitions(path: seq<Move>, key: string) {
    forall i :: 0 <= i < |path| ==> path[i] !in {Field(key), Field("$defs"), Field("definitions")}
  }

  lemma {:induction false} RefersBelow(v: Json, m: Move, path: seq<Move>, r: string)
    requires RefersAt(v, [m] + path, r)
    ensures
      || (v.Obj? && m.Field? && m.name in v.fields && RefersAt(v.fields[m.name], path, r))
      || (v.Arr? && m.Item? && m.index < |v.items| && RefersAt(v.items[m.index], path, r))
  {
    assert ([m] + path)[1..] == path;
  }

  lemma {:induction false} RefersAbove(v: Json, m: Move, path: seq<Move>, r: string)
    requires
      || (v.Obj? && m.Field? && m.name in v.fields && RefersAt(v.fields[m.name], path, r))
      || (v.Arr? && m.Item? && m.index < |v.items| && RefersAt(v.items[m.index], path, r))
    ensures RefersAt(v, [m] + path, r)
  {
    assert ([m] + path)[1..] == path;
  }

  /** The references outside definitions are those at the end of paths outside them. */
  lemma {:induction false} OutsideRefsMean(v: Json, key: string, r: string)
    ensures r in OutsideRefs(v, key) <==> exists path :: RefersAt(v, path, r) && AvoidsDefinitions(path, key)
  {
    if r in OutsideRefs(v, key) {
      var path := OutsidePath(v, key, r);
    }
    if path :| RefersAt(v, path, r) && AvoidsDefinitions(path, key) {
      OutsideFound(v, path, key, r);
    }
  }

  lemma {:induction false} OutsidePath(v: Json, key: string, r: string) returns (path: seq<Move>)
    requires r in OutsideRefs(v, key)
    ensures RefersAt(v, path, r) && AvoidsDefinitions(path, key)
  {
    if RefHere(v) == Some(r) {
      path := [];
    } else if v.Obj? {
      var k :| k in v.fields && !HoldsDefinitions(k, key) && r in OutsideRefs(v.fields[k], key);
      var below := OutsidePath(v.fields[k], key, r);
      path := [Field(k)] + below;
      RefersAbove(v, Field(k), below, r);
    } else {
      var i :| 0 <= i < |v.items| && r in OutsideRefs(v.items[i], key);
      var below := OutsidePath(v.items[i], key, r);
      path := [Item(i)] + below;
      RefersAbove(v, Item(i), below, r);
    }
  }

  lemma {:induction false} OutsideFound(v: Json, path: seq<Move>, key: string, r: string)
    requires RefersAt(v, path, r) && AvoidsDefinitions(path, key)
    ensures r in OutsideRefs(v, key)
  {
    if path != [] {
      var m, rest := path[0], path[1..];
      assert path == [m] + rest;
      RefersBelow(v, m, rest, r);
      OutsideFound(if m.Field? then v.fields[m.name] else v.items[m.index], rest, key, r);
    }
  }

  lemma {:induction false} AllRefsMean(v: Json, r: string)
    ensures r in AllRefs(v) <==> Refers(v, r)
  {
    if r in AllRefs(v) {
      var path := RefPath(v, r);
    }
    if path :| RefersAt(v, path, r) {
      RefFound(v, path, r);
    }
  }

  lemma {:induction false} RefPath(v: Json, r: string) returns (path: seq<Move>)
    requires r in AllRefs(v)
    ensures RefersAt(v, path, r)
  {
    if RefHere(v) == Some(r) {
      path := [];
    } else if v.Obj? {
      var k :| k in v.fields && r in AllRefs(v.fields[k]);
      var below := RefPath(v.fields[k], r);
      path := [Field(k)] + below;
      RefersAbove(v, Field(k), below, r);
    } else {
      var i :| 0 <= i < |v.items| && r in AllRefs(v.items[i]);
      var below := RefPath(v.items[i], r);
      path := [Item(i)] + below;
      RefersAbove(v, Item(i), below, r);
    }
  }

  lemma {:induction false} RefFound(v: Json, path: seq<Move>, r: string)
    requires RefersAt(v, path, r)
    ensures r in AllRefs(v)
  {
    if path != [] {
      var m, rest := path[0], path[1..];
      assert path == [m] + rest;
      RefersBelow(v, m, rest, r);
      RefFound(if m.Field? then v.fields[m.name] else v.items[m.index], rest, r);
    }
  }

  // ---------- rewriting ----------

  ghost predicate SameShape(x: Json, y: Json) {
    match x
    case Obj(fields) => y.Obj? && y.fields.Keys == fields.Keys
    case Arr(items) => y.Arr? && |y.items| == |items|
    case _ => y == x
  }

  /** Rewriting keeps every path and whatever is there, except that the text of a `$ref` is changed by `f`. */
  lemma {:induction false} MapRefsMeans(v: Json, f: string -> string, path: seq<Move>)
    ensures
      var before, after := Go(v, path), Go(MapRefs(v, f), path);
      && (before.Some? <==> after.Some?)
      && (before.Some? ==>
            if path != [] && path[|path| - 1] == Field("$ref") && before.value.Str?
            then after.value == Str(f(before.value.text)) else SameShape(before.value, after.value))
  {
    if path != [] {
      match (v, path[0]) {
        case (Obj(fields), Field(name)) =>
          if name in fields {
            if name == "$ref" && fields[name].Str? {
              assert path[1..] == [] ==> path[|path| - 1] == path[0];
            } else {
              MapRefsMeans(fields[name], f, path[1..]);
              if |path| == 1 {
                assert path[|path| - 1] == path[0];
              }
            }
          }
        case (Arr(items), Item(i)) =>
          if i < |items| {
            MapRefsMeans(items[i], f, path[1..]);
          }
        case _ =>
      }
    }
  }

  ghost predicate StartsAt(p: string, s: string, i: nat) {
    i <= |s| && p <= s[i..]
  }

  lemma {:induction false} ReplaceHere(s: string, p: string, sub: string)
    requires p != [] && p <= s
    ensures Replace(s, p, sub) == s[..0] + sub + Replace(s[0..][|p|..], p, sub)
  {
    assert s[0..] == s && s[..0] + sub == sub;
  }

  lemma {:induction false} NotLater(s: string, p: string, i: nat)
    requires 0 < i && StartsAt(p, s, i) && forall j: nat :: j < i ==> !StartsAt(p, s, j)
    ensures !(p <= s) && s != [] && s[1..][i - 1..] == s[i..]
    ensures StartsAt(p, s[1..], i - 1) && forall j: nat :: j < i - 1 ==> !StartsAt(p, s[1..], j)
  {
    assert !StartsAt(p, s, 0) && s[0..] == s;
    assert s[1..][i - 1..] == s[i..];
    forall j: nat | j < i - 1 ensures !StartsAt(p, s[1..], j) {
      assert s[1..][j..] == s[j + 1..] && !StartsAt(p, s, j + 1);
    }
  }

  lemma {:induction false} Grouped(x: char, a: string, b: string, c: string)
    ensures [x] + (a + b + c) == ([x] + a) + b + c
  {}

  /** The first occurrence of the pattern is replaced, and then those after it. */
  lemma {:induction false} ReplaceMeans(s: string, p: string, sub: string, i: nat)
    requires p != [] && StartsAt(p, s, i) && forall j: nat :: j < i ==> !StartsAt(p, s, j)
    ensures Replace(s, p, sub) == s[..i] + sub + Replace(s[i..][|p|..], p, sub)
  {
    hide Replace;
    if i == 0 {
      assert s[0..] == s;
      ReplaceHere(s, p, sub);
    } else {
      NotLater(s, p, i);
      ReplaceMeans(s[1..], p, sub, i - 1);
      ReplaceStep(s, p, sub);
      Grouped(s[0], s[1..][..i - 1], sub, Replace(s[i..][|p|..], p, sub));
      assert [s[0]] + s[1..][..i - 1] == s[..i];
    }
  }

  /**
   Afterwards every reference to a definition goes into the namespace; those that did
   already, and others, are kept.
   */
  lemma {:induction false} InNamespaceMeans(r: string, ns: string)
    ensures
      var after := InNamespace(r, ns);
      var inside := "#/definitions/" + ns + "/";
      && (!("#/definitions/" <= r) || inside <= r ==> after == r)
      && (forall rest: string :: r == "#/definitions/" + rest && !(inside <= r) ==> after == inside + rest)
  {
    StartsTogether(ROOT, ns + "/", if ROOT <= r then r[|ROOT|..] else []);
    assert ROOT + ns + "/" == ROOT + (ns + "/");
    if ROOT <= r {
      assert r == ROOT + r[|ROOT|..];
    }
  }

  // ---------- names in references ----------

  /** The definition a reference names stands between `#/<key>/` and the next slash or the end. */
  lemma {:induction false} LocalNameMeans(r: string, key: string, n: string)
    ensures LocalName(r, key) == Some(n) <==>
      && '/' !in n
      && (r == "#/" + key + "/" + n || exists rest: string :: r == "#/" + key + "/" + n + "/" + rest)
  {
    var prefix := "#/" + key + "/";
    if prefix <= r {
      var path := r[|prefix|..];
      assert r == prefix + path;
      FirstSegmentMeans(path, n);
      if path == n || exists rest: string :: path == n + "/" + rest {
        if rest: string :| path == n + "/" + rest {
          assert r == prefix + n + "/" + rest;
        }
      }
      if rest: string :| r == prefix + n + "/" + rest {
        assert r == prefix + (n + "/" + rest);
        assert path == n + "/" + rest;
      }
      if r == prefix + n {
        assert path == n;
      }
    } else {
      assert forall rest: string :: prefix <= prefix + n + "/" + rest;
    }
  }

  lemma {:induction false} FirstSegmentMeans(s: string, n: string)
    ensures FirstSegment(s) == n <==> '/' !in n && (s == n || exists rest: string :: s == n + "/" + rest)
  {
    if s == [] {
    } else if s[0] == '/' {
      assert s == [] + "/" + s[1..];
    } else {
      if n != [] {
        FirstSegmentMeans(s[1..], n[1..]);
        assert s == [s[0]] + s[1..] && n == [n[0]] + n[1..];
        if rest: string :| s[1..] == n[1..] + "/" + rest {
          if s[0] == n[0] {
            assert s == n + "/" + rest;
          }
        }
        if rest: string :| s == n + "/" + rest {
          assert s[1..] == n[1..] + "/" + rest;
        }
      } else {
        assert forall rest: string :: ([] + "/" + rest)[0] == '/';
      }
    }
  }

  /** The root names that a value refers to, in full, outside the namespace. */
  ghost predicate RefersToRoot(v: Json, name: string) {
    Refers(v, "#/definitions/" + name) && !("v2/" <= name)
  }

  lemma {:induction false} NonV2RefsMean(v: Json, name: string)
    ensures name in Flattening.NonV2Refs(v) <==> RefersToRoot(v, name)
  {
    var r := ROOT + name;
    AllRefsMean(v, r);
    StartsTogether(ROOT, "v2/", name);
    assert ROOT + "v2/" == V2 && r[|ROOT|..] == name;
    if name in Flattening.NonV2Refs(v) {
      var x :| x in AllRefs(v) && ROOT <= x && !(V2 <= x) && x[|ROOT|..] == name;
      assert x == r;
    }
  }

  // ---------- the flat bundle ----------

  /** Root names: the two shared definitions, and what a definition of a name among them refers to at the root. */
  ghost predicate Needs(names: set<string>, defs: map<string, Json>) {
    && ("ClientRequest" in defs ==> "ClientRequest" in names)
    && ("ServerNotification" in defs ==> "ServerNotification" in names)
    && forall n, m :: n in names && n in defs && RefersToRoot(defs[n], m) ==> m in names
  }

  /** The flat bundle carries the definitions that every such set of names has, but not the namespace itself. */
  lemma {:induction false} CarriedMeans(defs: map<string, Json>, n: string)
    ensures n in Flattening.Carried(defs) <==>
      n in defs && n != "v2" && forall names: set<string> :: Needs(names, defs) ==> n in names
  {
    var seed, edges := Flattening.SharedRefs(defs), Flattening.Dependencies(defs);
    ReachableIsClosure(seed, edges);
    if n in Flattening.Carried(defs) {
      forall names: set<string> | Needs(names, defs) ensures n in names {
        NeedsIsClosed(names, defs);
      }
    }
    if n in defs && n != "v2" && forall names: set<string> :: Needs(names, defs) ==> n in names {
      var names := Reachable(seed, edges) + set x | x in Flattening.SHARED && x in defs;
      ReachableNeeds(defs, names);
      assert n in names;
    }
  }

  lemma {:induction false} NeedsIsClosed(names: set<string>, defs: map<string, Json>)
    requires Needs(names, defs)
    ensures Flattening.SharedRefs(defs) <= names && Closed(names, Flattening.Dependencies(defs))
    ensures forall x :: x in Flattening.SHARED && x in defs ==> x in names
  {
    forall n, m | n in names && n in defs && m in Flattening.NonV2Refs(defs[n]) ensures m in names {
      NonV2RefsMean(defs[n], m);
    }
  }

  lemma {:induction false} ReachableNeeds(defs: map<string, Json>, names: set<string>)
    requires names == Flattening.Needed(defs) + set x | x in Flattening.SHARED && x in defs
    ensures Needs(names, defs)
  {
    var seed, edges := Flattening.SharedRefs(defs), Flattening.Dependencies(defs);
    ReachableIsClosure(seed, edges);
    assert "ClientRequest" == Flattening.SHARED[0] && "ServerNotification" == Flattening.SHARED[1];
    forall n, m | n in names && n in defs && RefersToRoot(defs[n], m) ensures m in names {
      NonV2RefsMean(defs[n], m);
      if n in Flattening.Needed(defs) {
        assert m in edges[n];
      } else {
        assert n in Flattening.SharedDefinitions(defs) && m in seed;
      }
    }
  }

  ghost predicate IsObjectAt(v: Json, k: string, fields: map<string, Json>) {
    v.Obj? && k in v.fields && v.fields[k] == Obj(fields)
  }

  /**
   The namespace is found below the definitions of the root, or the first thing on the
   way that is missing is told.
   */
  lemma {:induction false} NamespaceMeans(bundle: Json)
    ensures match Flattening.NamespaceOf(bundle)
            case Ok((root, defs, v2)) =>
              bundle == Obj(root) && IsObjectAt(bundle, "definitions", defs) && IsObjectAt(Obj(defs), "v2", v2)
            case Err(RootNotObject) => !bundle.Obj?
            case Err(NoDefinitions) => bundle.Obj? && forall defs :: !IsObjectAt(bundle, "definitions", defs)
            case Err(NoNamespace) =>
              exists defs :: IsObjectAt(bundle, "definitions", defs) && forall v2 :: !IsObjectAt(Obj(defs), "v2", v2)
            case Err(_) => false
  {
    if bundle.Obj? && "definitions" in bundle.fields && bundle.fields["definitions"].Obj? {
      assert IsObjectAt(bundle, "definitions", bundle.fields["definitions"].fields);
    }
  }

  /** The title gets a suffix, also when it is the one that stands in for none, and the other fields are rewritten. */
  lemma {:induction false} FlatFields(bundle: Json)
    requires Flattening.Flat(bundle).Ok?
    ensures bundle.Obj? && Flattening.Flat(bundle).value.Obj?
    ensures
      var root, flat := bundle.fields, Flattening.Flat(bundle).value.fields;
      && flat.Keys == root.Keys + {"title", "definitions"}
      && flat["title"] ==
         (if "title" in root && root["title"].Str? then Str(root["title"].text + "V2")
          else Str("CodexAppServerProtocolV2"))
      && forall k :: k in root && k != "title" && k != "definitions" ==>
           flat[k] == RewriteToFlat(Obj(map[k := root[k]])).fields[k]
  {
    hide AllRefs, Flattening.Needed, Flattening.FlatDefinitions, Replace;
    var (root, defs, v2) := Flattening.NamespaceOf(bundle).value;
    var merged := Flattening.Merged(root, Flattening.FlatDefinitions(defs, v2, Flattening.Needed(defs)));
    assert merged.fields["title"] == Str(Flattening.Title(root));
    assert |"title"| != |"$ref"| && MapRefs(Str(Flattening.Title(root)), FlatName) == Str(Flattening.Title(root));
    assert RewriteToFlat(merged).fields["title"] == MapRefs(merged.fields["title"], FlatName);
    assert "CodexAppServerProtocol" + "V2" == "CodexAppServerProtocolV2";
  }

  /** The definition that a reference of the value names is not there. */
  ghost predicate Dangles(v: Json, defs: map<string, Json>, n: string) {
    n !in defs && exists r :: Refers(v, r) && LocalName(r, "definitions") == Some(n)
  }

  /** A bundle passes when no reference goes into the namespace and none dangles; otherwise what dangles is told. */
  lemma {:induction false} CheckedMeans(v: Json, defs: map<string, Json>)
    requires IsObjectAt(v, "definitions", defs)
    ensures
      var result := Flattening.Checked(v);
      var nested := exists r :: Refers(v, r) && "#/definitions/v2/" <= r;
      && (result == Err(Flattening.StillNamespaced) <==> nested)
      && (result == Ok(v) <==> !nested && forall n :: !Dangles(v, defs, n))
      && (result.Ok? ==> result.value == v)
      && (forall names :: result == Err(Flattening.MissingDefinitions(names)) ==>
            forall n :: n in names <==> Dangles(v, defs, n))
  {
    forall r ensures r in AllRefs(v) <==> Refers(v, r) {
      AllRefsMean(v, r);
    }
    hide AllRefs, LocalName, Refers;
    forall n ensures n in Mentions(v, "definitions") - defs.Keys <==> Dangles(v, defs, n) {
      if Dangles(v, defs, n) {
        var r :| Refers(v, r) && LocalName(r, "definitions") == Some(n);
        assert r in AllRefs(v);
      }
    }
  }

  // ---------- method variants ----------

  ghost predicate HasField(v: Json, k: string, x: Json) {
    v.Obj? && k in v.fields && v.fields[k] == x
  }

  /** The literal is the `const` text; without such a text, the first of the `enum` when that is a text. */
  ghost predicate IsLiteral(v: Json, text: string) {
    || HasField(v, "const", Str(text))
    || (&& (forall other :: !HasField(v, "const", Str(other)))
        && exists rest :: HasField(v, "enum", Arr([Str(text)] + rest)))
  }

  lemma {:induction false} StringLiteralMeans(v: Json, text: string)
    ensures StringLiteral(v) == Some(text) <==> IsLiteral(v, text)
  {
    if v.Obj? && "enum" in v.fields && v.fields["enum"].Arr? && v.fields["enum"].items != [] {
      var items := v.fields["enum"].items;
      assert items == [items[0]] + items[1..];
    }
    if v.Obj? && "const" in v.fields && v.fields["const"].Str? {
      assert HasField(v, "const", Str(v.fields["const"].text));
    }
  }

  /** A variant is one of the methods when its property `method` is the literal of one of them. */
  lemma {:induction false} MethodVariantMeans(v: Json, methods: set<string>)
    ensures IsMethodVariant(v, methods) <==>
      exists properties, literal, name ::
        HasField(v, "properties", Obj(properties)) && HasField(Obj(properties), "method", literal)
        && name in methods && IsLiteral(literal, name)
  {
    if IsMethodVariant(v, methods) {
      var properties := v.fields["properties"].fields;
      var name := StringLiteral(properties["method"]).value;
      StringLiteralMeans(properties["method"], name);
      assert HasField(v, "properties", Obj(properties)) && HasField(Obj(properties), "method", properties["method"]);
    }
    if properties, literal, name :|
      HasField(v, "properties", Obj(properties)) && HasField(Obj(properties), "method", literal)
      && name in methods && IsLiteral(literal, name)
    {
      StringLiteralMeans(literal, name);
    }
  }

  /** What is retained keeps its order and its copies: part by part, down to single variants. */
  lemma {:induction false} RetainedByParts(some: seq<Json>, more: seq<Json>, v: Json, methods: set<string>)
    ensures Retained(some + more, methods) == Retained(some, methods) + Retained(more, methods)
    ensures Retained([v], methods) == if IsMethodVariant(v, methods) then [] else [v]
    ensures Retained([], methods) == []
  {
    hide IsMethodVariant;
    assert [v][1..] == [];
    if some == [] {
      assert some + more == more;
    } else {
      assert (some + more)[1..] == some[1..] + more;
      RetainedByParts(some[1..], more, v, methods);
    }
  }

  /** Without an array of variants under `oneOf` a schema is left as it is. */
  lemma {:induction false} NothingToStrip(schema: Json, methods: set<string>)
    requires forall variants :: !HasField(schema, "oneOf", Arr(variants))
    ensures Stripped(schema, methods) == schema
  {
    if HasVariants(schema) {
      assert HasField(schema, "oneOf", Arr(schema.fields["oneOf"].items));
    }
  }
}
