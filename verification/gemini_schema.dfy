/**
 * toGeminiSchema: the translation of the provider-neutral schema into the
 * form Gemini's structured-output mode expects (upper-case type tokens, no
 * additionalProperties). The network half of the Gemini adapter is not part
 * of this model.
 */
module GeminiSchema {
  import opened Wrappers
  import opened JsText
  import opened ResponseSchema

  /**
   * The translated node: `type` upper-cased, `properties` and `items`
   * translated recursively when present, `required` and `enum` copied,
   * `additionalProperties` dropped. An absent key stays absent.
   */
  function ToGemini(s: Schema): (r: Schema)
    decreases s, |Props(s)| + 1
    ensures r.typeName == ToUpper(s.typeName)
    ensures r.properties.Some? <==> s.properties.Some?
    ensures Keys(Props(r)) == Keys(Props(s))
    ensures r.items.Some? <==> s.items.Some?
    ensures r.required == s.required && r.enumValues == s.enumValues
    ensures r.additionalProperties.None?
  {
    Schema(
      ToUpper(s.typeName),
      if s.properties.Some? then Some(PropertyList(ToGeminiFrom(s, 0))) else None,
      if s.items.Some? then Some(ToGemini(s.items.value)) else None,
      s.required,
      s.enumValues,
      None)
  }

  /** Object.entries(properties).map(([k, v]) => [k, toGeminiSchema(v)]) from index i on. */
  function ToGeminiFrom(s: Schema, i: nat): (r: seq<Property>)
    requires i <= |Props(s)|
    decreases s, |Props(s)| - i
    ensures |r| == |Props(s)| - i
    ensures forall j :: 0 <= j < |r| ==> r[j].key == Props(s)[i + j].key
  {
    if i == |Props(s)| then []
    else
      PropertySmaller(s, i);
      var p := Props(s)[i];
      [Property(p.key, ToGemini(p.schema))] + ToGeminiFrom(s, i + 1)
  }

  /** Each translated property holds the translation of the original child. */
  lemma {:induction false} ToGeminiFromAt(s: Schema, i: nat, j: nat)
    requires i <= |Props(s)| && j < |Props(s)| - i
    ensures ToGeminiFrom(s, i)[j] == Property(Props(s)[i + j].key, ToGemini(Props(s)[i + j].schema))
    decreases |Props(s)| - i
  {
    if j > 0 {
      ToGeminiFromAt(s, i + 1, j - 1);
    }
  }

  lemma ToGeminiChild(s: Schema, j: nat)
    requires j < |Props(s)|
    ensures |Props(ToGemini(s))| == |Props(s)|
    ensures Props(ToGemini(s))[j] == Property(Props(s)[j].key, ToGemini(Props(s)[j].schema))
  {
    ToGeminiFromAt(s, 0, j);
  }

  predicate NoAdditionalProperties(s: Schema) {
    s.additionalProperties.None?
  }

  /** `additionalProperties` appears nowhere in the translated tree, at any depth. */
  lemma {:induction false} ToGeminiDropsAdditionalProperties(s: Schema)
    ensures EveryNode(ToGemini(s), NoAdditionalProperties)
    decreases s
  {
    var r := ToGemini(s);
    forall j | 0 <= j < |Props(r)| ensures EveryNode(Props(r)[j].schema, NoAdditionalProperties) {
      ToGeminiChild(s, j);
      PropertySmaller(s, j);
      ToGeminiDropsAdditionalProperties(Props(s)[j].schema);
    }
    if s.items.Some? {
      ToGeminiDropsAdditionalProperties(s.items.value);
    }
    EveryNodeIntro(r, NoAdditionalProperties);
  }

  function MapOption(o: Option<Schema>): Option<Schema> {
    if o.Some? then Some(ToGemini(o.value)) else None
  }

  /**
   * The translation keeps the tree's shape: following any path of keys and
   * `items` steps in the output reaches exactly the translation of the node
   * the same path reaches in the input, and nothing where the input has nothing.
   */
  lemma {:induction false} ToGeminiNodeAt(s: Schema, path: seq<Step>)
    ensures NodeAt(ToGemini(s), path) == MapOption(NodeAt(s, path))
    decreases path
  {
    if path != [] {
      match path[0]
      case Items =>
        if s.items.Some? {
          ToGeminiNodeAt(s.items.value, path[1..]);
        }
      case Key(k) =>
        ToGeminiChildByKey(s, k);
        match Child(Props(s), k)
        case Some(c) => ToGeminiNodeAt(c, path[1..]);
        case None =>
    }
  }

  /** Looking a key up after translating is translating the looked-up child. */
  lemma ToGeminiChildByKey(s: Schema, k: string)
    ensures Child(Props(ToGemini(s)), k) == MapOption(Child(Props(s), k))
  {
    ChildFromIndex(s, k, 0);
  }

  lemma {:induction false} ChildFromIndex(s: Schema, k: string, i: nat)
    requires i <= |Props(s)|
    ensures Child(ToGeminiFrom(s, i), k) == MapOption(Child(Props(s)[i..], k))
    decreases |Props(s)| - i
  {
    if i < |Props(s)| {
      ChildFromIndex(s, k, i + 1);
      assert Props(s)[i..][1..] == Props(s)[i + 1..];
    }
  }

  /** Translating an already translated schema changes nothing. */
  lemma {:induction false} ToGeminiIdempotent(s: Schema)
    ensures ToGemini(ToGemini(s)) == ToGemini(s)
    decreases s
  {
    var r := ToGemini(s);
    ToUpperIdempotent(s.typeName);
    if s.items.Some? {
      ToGeminiIdempotent(s.items.value);
    }
    if s.properties.Some? {
      forall j | 0 <= j < |Props(s)|
        ensures Props(ToGemini(r))[j] == Props(r)[j]
      {
        ToGeminiChild(s, j);
        ToGeminiChild(r, j);
        PropertySmaller(s, j);
        ToGeminiIdempotent(Props(s)[j].schema);
      }
      assert Props(ToGemini(r)) == Props(r);
    }
  }

  /** The type tokens Gemini accepts for the canonical schema. */
  predicate GeminiType(s: Schema) {
    s.typeName in {"OBJECT", "ARRAY", "STRING", "INTEGER"}
  }

  lemma UpperStandardType(t: string)
    requires t in {"object", "array", "string", "integer"}
    ensures ToUpper(t) in {"OBJECT", "ARRAY", "STRING", "INTEGER"}
  {
    assert ToUpper("object") == "OBJECT";
    assert ToUpper("array") == "ARRAY";
    assert ToUpper("string") == "STRING";
    assert ToUpper("integer") == "INTEGER";
  }

  /** A tree whose types are the four standard tokens translates to the four upper-case tokens. */
  lemma {:induction false} ToGeminiStandardTypes(s: Schema)
    requires EveryNode(s, StandardType)
    ensures EveryNode(ToGemini(s), GeminiType)
    decreases s
  {
    var r := ToGemini(s);
    EveryNodeFromAll(s, 0, StandardType);
    forall j | 0 <= j < |Props(r)| ensures EveryNode(Props(r)[j].schema, GeminiType) {
      ToGeminiChild(s, j);
      PropertySmaller(s, j);
      ToGeminiStandardTypes(Props(s)[j].schema);
    }
    if s.items.Some? {
      ToGeminiStandardTypes(s.items.value);
    }
    UpperStandardType(s.typeName);
    EveryNodeIntro(r, GeminiType);
  }

  /** Every type token in the translated CINE_RECIPE_SCHEMA is OBJECT, ARRAY, STRING or INTEGER. */
  lemma GeminiCineTypes()
    ensures EveryNode(ToGemini(CineRecipeSchema), GeminiType)
  {
    CineStandardTypes();
    ToGeminiStandardTypes(CineRecipeSchema);
  }
}
