/** Stripping of request and notification variants from a schema (`export.rs`). */
module VariantStripping {
  import opened Basics
  import opened Closure
  import opened Json
  import opened Reachability
  import opened Refs

  const DEFINITIONS := "definitions"

  /** `string_literal`: the `const` text, or else the first `enum` text. */
  function StringLiteral(v: Json): Option<string> {
    if !v.Obj? then None
    else if "const" in v.fields && v.fields["const"].Str? then Some(v.fields["const"].text)
    else if "enum" in v.fields && v.fields["enum"].Arr? && v.fields["enum"].items != []
            && v.fields["enum"].items[0].Str?
    then Some(v.fields["enum"].items[0].text)
    else None
  }

  /** `is_method_variant_in_set`. */
  predicate IsMethodVariant(v: Json, methods: set<string>) {
    && v.Obj? && "properties" in v.fields
    && var properties := v.fields["properties"];
    && properties.Obj? && "method" in properties.fields
    && var literal := StringLiteral(properties.fields["method"]);
    && literal.Some? && literal.value in methods
  }

  function Retained(variants: seq<Json>, methods: set<string>): seq<Json> {
    if variants == [] then []
    else if IsMethodVariant(variants[0], methods) then Retained(variants[1..], methods)
    else [variants[0]] + Retained(variants[1..], methods)
  }

  predicate HasVariants(schema: Json) {
    schema.Obj? && "oneOf" in schema.fields && schema.fields["oneOf"].Arr?
  }

  /** The schema with its variants filtered and its definitions still complete. */
  function Filtered(schema: Json, methods: set<string>): (r: Json)
    requires HasVariants(schema)
    ensures r.Obj?
  {
    Obj(schema.fields["oneOf" := Arr(Retained(schema.fields["oneOf"].items, methods))])
  }

  function Restricted(defs: map<string, Json>, names: set<string>): map<string, Json> {
    map n | n in defs && n in names :: defs[n]
  }

  /** The schema with only the named definitions. */
  function WithDefinitions(schema: Json, names: set<string>): Json {
    match DefinitionsOf(schema, DEFINITIONS)
    case Some(defs) => Obj(schema.fields[DEFINITIONS := Obj(Restricted(defs, names))])
    case None => schema
  }

  /** What stripping means: filter the variants, then keep the definitions that are still reachable. */
  ghost function Stripped(schema: Json, methods: set<string>): Json {
    if HasVariants(schema) then
      var kept := Filtered(schema, methods);
      WithDefinitions(kept, ReachableDefinitions(kept, DEFINITIONS))
    else schema
  }

  /** `Vec::retain` over the variants. */
  method RetainVariants(variants: seq<Json>, methods: set<string>) returns (kept: seq<Json>)
    ensures kept == Retained(variants, methods)
  {
    kept := [];
    for i := 0 to |variants|
      invariant kept + Retained(variants[i..], methods) == Retained(variants, methods)
    {
      assert variants[i..][1..] == variants[i + 1..];
      if !IsMethodVariant(variants[i], methods) {
        kept := kept + [variants[i]];
      }
    }
    assert variants[|variants|..] == [];
  }

  /** `strip_method_variants_from_json_schema`. */
  method StripMethodVariants(schema: Json, methods: set<string>) returns (stripped: Json)
    ensures stripped == Stripped(schema, methods)
  {
    if !HasVariants(schema) {
      return schema;
    }
    var variants := RetainVariants(schema.fields["oneOf"].items, methods);
    stripped := Obj(schema.fields["oneOf" := Arr(variants)]);
    var reachable := ReachableLocalDefinitions(stripped, DEFINITIONS);
    match DefinitionsOf(stripped, DEFINITIONS) {
      case Some(defs) =>
        stripped := Obj(stripped.fields[DEFINITIONS := Obj(map n | n in defs && n in reachable :: defs[n])]);
      case None =>
    }
  }

  // ---------- what stripping guarantees ----------

  lemma {:induction false} RetainedVariants(variants: seq<Json>, methods: set<string>, v: Json)
    ensures v in Retained(variants, methods) <==> v in variants && !IsMethodVariant(v, methods)
  {
    if variants != [] {
      RetainedVariants(variants[1..], methods, v);
      assert v in variants <==> v == variants[0] || v in variants[1..];
    }
  }

  lemma {:induction false} RetainedTwice(variants: seq<Json>, methods: set<string>)
    ensures Retained(Retained(variants, methods), methods) == Retained(variants, methods)
  {
    if variants != [] {
      RetainedTwice(variants[1..], methods);
      var rest := Retained(variants[1..], methods);
      assert ([variants[0]] + rest)[1..] == rest;
    }
  }

  /** The positions outside the definitions do not see which definitions are kept. */
  lemma {:induction false} OutsideIgnoresDefinitions(schema: Json, names: set<string>)
    ensures OutsideRefs(WithDefinitions(schema, names), DEFINITIONS) == OutsideRefs(schema, DEFINITIONS)
  {
    hide OutsideRefs;
    if DefinitionsOf(schema, DEFINITIONS).Some? {
      var after := WithDefinitions(schema, names);
      OutsideRefsSplit(schema, DEFINITIONS);
      OutsideRefsSplit(after, DEFINITIONS);
      assert RefHere(after) == RefHere(schema);
      assert OutsideKeys(after.fields, DEFINITIONS) == OutsideKeys(schema.fields, DEFINITIONS);
      assert Under(after.fields, OutsideKeys(after.fields, DEFINITIONS), Outside(DEFINITIONS))
        == Under(schema.fields, OutsideKeys(schema.fields, DEFINITIONS), Outside(DEFINITIONS));
    }
  }

  /**
   No dangling names, and nothing unreachable kept. A definition of the filtered schema is kept exactly
   when the root positions of the result reach it; it is kept as it was; and whatever a root position or a
   kept definition of the result mentions is still defined if it was defined before.
   */
  lemma {:induction false} StrippingLeavesNothingDangling(schema: Json, methods: set<string>)
    requires HasVariants(schema) && DefinitionsOf(schema, DEFINITIONS).Some?
    ensures
      var after := Stripped(schema, methods);
      var given := DefinitionsOf(schema, DEFINITIONS).value;
      && DefinitionsOf(after, DEFINITIONS).Some?
      && var left := DefinitionsOf(after, DEFINITIONS).value;
      && (forall n :: n in left <==>
            n in given && n in Reachable(RootMentions(after, DEFINITIONS), Edges(given, DEFINITIONS)))
      && (forall n :: n in left ==> left[n] == given[n])
      && (forall m :: m in RootMentions(after, DEFINITIONS) && m in given ==> m in left)
      && (forall n, m :: n in left && m in Mentions(left[n], DEFINITIONS) && m in given ==> m in left)
  {
    var kept := Filtered(schema, methods);
    OutsideIgnoresDefinitions(kept, ReachableDefinitions(kept, DEFINITIONS));
    var defs := DefinitionsOf(schema, DEFINITIONS).value;
    assert DefinitionsOf(kept, DEFINITIONS).value == defs;
    ReachableIsClosure(RootMentions(kept, DEFINITIONS), Edges(defs, DEFINITIONS));
  }

  /** Exactly the named variants leave, and no other field of the root changes. */
  lemma {:induction false} StrippingRemovesTheVariants(schema: Json, methods: set<string>)
    requires HasVariants(schema)
    ensures
      var after := Stripped(schema, methods);
      && HasVariants(after)
      && (forall v :: v in after.fields["oneOf"].items <==>
            v in schema.fields["oneOf"].items && !IsMethodVariant(v, methods))
      && after.fields.Keys == schema.fields.Keys
      && forall k :: k in schema.fields && k != "oneOf" && k != DEFINITIONS ==> after.fields[k] == schema.fields[k]
  {
    forall v ensures v in Retained(schema.fields["oneOf"].items, methods) <==>
        v in schema.fields["oneOf"].items && !IsMethodVariant(v, methods) {
      RetainedVariants(schema.fields["oneOf"].items, methods, v);
    }
  }

  /** Stripping a stripped schema changes nothing. */
  lemma {:induction false} StrippingTwice(schema: Json, methods: set<string>)
    ensures Stripped(Stripped(schema, methods), methods) == Stripped(schema, methods)
  {
    hide OutsideRefs, Retained, Reachable, AllRefs, IsMethodVariant;
    if HasVariants(schema) {
      var kept := Filtered(schema, methods);
      var names := ReachableDefinitions(kept, DEFINITIONS);
      var once := WithDefinitions(kept, names);
      RetainedTwice(schema.fields["oneOf"].items, methods);
      assert Filtered(once, methods) == once by {
        assert Filtered(once, methods).fields == once.fields;
      }
      OutsideIgnoresDefinitions(kept, names);
      if DefinitionsOf(kept, DEFINITIONS).Some? {
        var defs := DefinitionsOf(kept, DEFINITIONS).value;
        var part := Restricted(defs, names);
        ReachableInSubgraph(RootMentions(kept, DEFINITIONS), Edges(defs, DEFINITIONS), Edges(part, DEFINITIONS));
        assert Restricted(part, names) == part;
        assert WithDefinitions(once, names).fields == once.fields;
      }
    }
  }
}
