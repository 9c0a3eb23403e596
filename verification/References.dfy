/** Rewriting of reference texts between the namespaced and the flat form (`export.rs`). */
module References {
  import opened Basics
  import opened Json
  import opened Refs

  const ROOT := "#/definitions/"
  const V2 := "#/definitions/v2/"

  predicate Occurs(p: string, s: string) {
    exists i :: 0 <= i <= |s| && p <= s[i..]
  }

  /** `str::replace`: every occurrence from left to right, without overlap. */
  function Replace(s: string, p: string, sub: string): string
    requires p != []
  {
    if p <= s then sub + Replace(s[|p|..], p, sub)
    else if s == [] then []
    else [s[0]] + Replace(s[1..], p, sub)
  }

  /** `rewrite_refs_to_namespace` on one reference text. */
  function InNamespace(r: string, ns: string): string {
    match StripPrefix(r, ROOT)
    case Some(suffix) => if ns + "/" <= suffix then r else ROOT + ns + "/" + suffix
    case None => r
  }

  /** `rewrite_ref_prefix` from the `v2` namespace to the root, on one reference text. */
  function FlatName(r: string): string {
    Replace(r, V2, ROOT)
  }

  function Into(ns: string): string -> string {
    r => InNamespace(r, ns)
  }

  function RewriteToNamespace(v: Json, ns: string): Json {
    MapRefs(v, Into(ns))
  }

  function RewriteToFlat(v: Json): Json {
    MapRefs(v, FlatName)
  }

  // ---------- texts ----------

  lemma {:induction false} OccursFirst(p: string, s: string)
    ensures p <= s ==> Occurs(p, s)
  {
    assert s[0..] == s;
  }

  lemma {:induction false} InNamespaceTwice(r: string, ns: string)
    ensures InNamespace(InNamespace(r, ns), ns) == InNamespace(r, ns)
  {
    if ROOT <= r {
      var suffix := r[|ROOT|..];
      if !(ns + "/" <= suffix) {
        var once := ROOT + ns + "/" + suffix;
        assert once == ROOT + (ns + "/" + suffix);
        assert once[|ROOT|..] == ns + "/" + suffix;
        assert ns + "/" <= once[|ROOT|..];
      }
    }
  }

  lemma {:induction false} OccursLater(p: string, s: string)
    requires s != [] && !(p <= s)
    ensures Occurs(p, s) <==> Occurs(p, s[1..])
  {
    if Occurs(p, s) {
      var i :| 0 <= i <= |s| && p <= s[i..];
      assert s[1..][i - 1..] == s[i..];
    }
    if Occurs(p, s[1..]) {
      var i :| 0 <= i <= |s[1..]| && p <= s[1..][i..];
      assert s[1..][i..] == s[i + 1..];
    }
  }

  lemma {:induction false} ReplaceShortens(s: string, p: string, sub: string)
    requires |sub| < |p|
    ensures |Replace(s, p, sub)| <= |s|
    ensures Occurs(p, s) <==> |Replace(s, p, sub)| < |s|
  {
    if p <= s {
      ReplaceShortens(s[|p|..], p, sub);
      OccursFirst(p, s);
    } else if s == [] {
      assert !Occurs(p, s);
    } else {
      ReplaceShortens(s[1..], p, sub);
      OccursLater(p, s);
    }
  }

  /** Replacing by a shorter text changes exactly the texts in which the pattern occurs. */
  lemma {:induction false} ReplaceChangesOccurrences(s: string, p: string, sub: string)
    requires |sub| < |p|
    ensures Replace(s, p, sub) == s <==> !Occurs(p, s)
  {
    OccursFirst(p, s);
    if !(p <= s) && s != [] {
      OccursLater(p, s);
      ReplaceChangesOccurrences(s[1..], p, sub);
      assert s == [s[0]] + s[1..];
    }
    ReplaceShortens(s, p, sub);
  }

  lemma {:induction false} ReplaceStep(s: string, p: string, sub: string)
    requires s != [] && p != [] && !(p <= s)
    ensures Replace(s, p, sub) == [s[0]] + Replace(s[1..], p, sub)
  {}

  /** A prefix in front of which the pattern cannot start is copied. */
  lemma {:induction false} ReplaceCopies(a: string, s: string, p: string, sub: string)
    requires p != [] && p[0] !in a
    ensures Replace(a + s, p, sub) == a + Replace(s, p, sub)
  {
    if a == [] {
      assert a + s == s;
    } else {
      assert (a + s)[0] == a[0] && a[0] in a;
      assert (a + s)[1..] == a[1..] + s;
      ReplaceCopies(a[1..], s, p, sub);
      assert [a[0]] + (a[1..] + Replace(s, p, sub)) == a + Replace(s, p, sub);
    }
  }

  lemma {:induction false} FlatNameOfV2(rest: string)
    ensures FlatName(V2 + rest) == ROOT + FlatName(rest)
  {
    assert (V2 + rest)[|V2|..] == rest;
  }

  lemma {:induction false} FlatNameOfRoot(rest: string)
    requires !("v2/" <= rest)
    ensures FlatName(ROOT + rest) == ROOT + FlatName(rest)
  {
    hide Occurs, Replace;
    var r := ROOT + rest;
    StartsTogether(ROOT, "v2/", rest);
    assert ROOT + "v2/" == V2;
    assert r[0] == '#' && r[1..] == ROOT[1..] + rest;
    ReplaceCopies(ROOT[1..], rest, V2, ROOT);
    ReplaceStep(r, V2, ROOT);
    assert FlatName(r) == [r[0]] + (ROOT[1..] + FlatName(rest));
    assert [r[0]] + (ROOT[1..] + FlatName(rest)) == ROOT + FlatName(rest);
  }

  /** A text free of '#' that opens the replaced text opens the original. */
  lemma {:induction false} CopiedPrefix(a: string, s: string)
    requires '#' !in a
    ensures a <= FlatName(s) <==> a <= s
  {
    if a != [] && s != [] && !(V2 <= s) {
      CopiedPrefix(a[1..], s[1..]);
      var t := FlatName(s[1..]);
      assert FlatName(s) == [s[0]] + t;
      assert a == [a[0]] + a[1..] && s == [s[0]] + s[1..];
      assert a <= FlatName(s) <==> a[0] == s[0] && a[1..] <= t by {
        assert ([s[0]] + t)[1..] == t;
      }
      assert '#' !in a[1..] by { assert forall c :: c in a[1..] ==> c in a; }
    } else if a != [] && V2 <= s {
      assert s[0] == '#' && FlatName(s)[0] == '#' && a[0] in a;
    }
  }

  /** The namespaced prefix survives exactly in references into `v2/v2/`. */
  lemma {:induction false} PrefixSurvives(r: string)
    ensures V2 <= FlatName(r) <==> V2 + "v2/" <= r
  {
    if V2 <= r {
      var rest := r[|V2|..];
      assert r == V2 + rest;
      FlatNameOfV2(rest);
      CopiedPrefix("v2/", rest);
      StartsTogether(ROOT, "v2/", FlatName(rest));
      StartsTogether(V2, "v2/", rest);
      assert ROOT + "v2/" == V2;
    } else if r != [] {
      var t := FlatName(r[1..]);
      assert FlatName(r) == [r[0]] + t;
      CopiedPrefix(V2[1..], r[1..]);
      StartsTogether([V2[0]], V2[1..], t);
      StartsTogether([V2[0]], V2[1..], r[1..]);
      assert [V2[0]] + V2[1..] == V2 && r == [r[0]] + r[1..];
      assert V2 <= V2 + "v2/";
    }
  }

  lemma {:induction false} StartsTogether(a: string, b: string, s: string)
    ensures a + b <= a + s <==> b <= s
  {
    if a + b <= a + s {
      assert (a + s)[|a|..] == s;
      assert s[..|b|] == (a + s)[|a|..|a| + |b|] == (a + b)[|a|..] == b;
    }
  }

  // ---------- whole values ----------

  /** `rewrite_refs_to_namespace` may be applied twice, as the bundler does to nested definitions. */
  lemma {:induction false} RewriteToNamespaceIdempotent(v: Json, ns: string)
    ensures RewriteToNamespace(RewriteToNamespace(v, ns), ns) == RewriteToNamespace(v, ns)
  {
    var f := Into(ns);
    MapRefsCompose(v, f, f);
    forall r | r in AllRefs(v) ensures f(f(r)) == f(r) {
      InNamespaceTwice(r, ns);
    }
    MapRefsAgrees(v, r => f(f(r)), f);
  }

  /** A rewriting leaves a value alone exactly when it leaves each of its references alone. */
  lemma {:induction false} MapRefsFixes(v: Json, f: string -> string)
    ensures MapRefs(v, f) == v <==> forall r :: r in AllRefs(v) ==> f(r) == r
  {
    if forall r :: r in AllRefs(v) ==> f(r) == r {
      MapRefsAgrees(v, f, r => r);
      MapRefsIdentity(v);
    }
    if MapRefs(v, f) == v {
      forall r | r in AllRefs(v) ensures f(r) == r {
        FixedRef(v, f, r);
      }
    }
  }

  lemma {:induction false} FixedRef(v: Json, f: string -> string, r: string)
    requires MapRefs(v, f) == v && r in AllRefs(v)
    ensures f(r) == r
  {
    match v {
      case Obj(fields) =>
        ObjectRefs(fields, r);
        if RefHere(v) == Some(r) {
          assert MapRefs(v, f).fields["$ref"] == Str(f(r));
        } else {
          var k :| k in fields && r in AllRefs(fields[k]);
          assert MapRefs(v, f).fields[k] == fields[k];
          FixedRef(fields[k], f, r);
        }
      case Arr(items) =>
        ArrayRefs(items, r);
        var i :| 0 <= i < |items| && r in AllRefs(items[i]);
        assert MapRefs(v, f).items[i] == items[i];
        FixedRef(items[i], f, r);
      case _ =>
    }
  }

  lemma {:induction false} FlatUndoesNamespace(r: string)
    ensures FlatName(InNamespace(r, "v2")) == r <==> !Occurs(V2, r)
  {
    if ROOT <= r && !("v2/" <= r[|ROOT|..]) {
      var rest := r[|ROOT|..];
      assert r == ROOT + rest;
      assert InNamespace(r, "v2") == V2 + rest by {
        assert ROOT + "v2" + "/" == V2;
      }
      FlatNameOfV2(rest);
      FlatNameOfRoot(rest);
    }
    ReplaceChangesOccurrences(r, V2, ROOT);
  }

  /** `g` undoes `f` on a value exactly when it undoes it on each reference. */
  lemma {:induction false} Undone(v: Json, f: string -> string, g: string -> string)
    ensures MapRefs(MapRefs(v, f), g) == v <==> forall r :: r in AllRefs(v) ==> g(f(r)) == r
  {
    MapRefsCompose(v, f, g);
    MapRefsFixes(v, r => g(f(r)));
  }

  /** Flattening undoes namespacing exactly on values that hold no namespaced prefix. */
  lemma {:induction false} FlattenUndoesNamespacing(v: Json)
    ensures RewriteToFlat(RewriteToNamespace(v, "v2")) == v <==> forall r :: r in AllRefs(v) ==> !Occurs(V2, r)
  {
    Undone(v, Into("v2"), FlatName);
    forall r ensures FlatName(Into("v2")(r)) == r <==> !Occurs(V2, r) {
      FlatUndoesNamespace(r);
    }
  }
}
