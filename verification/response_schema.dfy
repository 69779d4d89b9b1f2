/**
 * The provider-neutral response schema (a JSON-Schema-style tree) and the
 * canonical cinematography-recipe schema every provider is asked to return.
 */
module ResponseSchema {
  import opened Wrappers

  /**
   * One schema node. Each field is one optional key of the JSON object:
   * `type`, `properties` (in insertion order, as Object.entries yields them),
   * `items`, `required`, `enum` and `additionalProperties`.
   */
  datatype Schema = Schema(
    typeName: string,
    properties: Option<PropertyList>,
    items: Option<Schema>,
    required: Option<seq<string>>,
    enumValues: Option<seq<string>>,
    additionalProperties: Option<bool>)

  /** The value of `properties`: key/child pairs in insertion order. */
  datatype PropertyList = PropertyList(entries: seq<Property>)

  datatype Property = Property(key: string, schema: Schema)

  /** One step of a path from the root: a property key, or into `items`. */
  datatype Step = Key(name: string) | Items

  // ---------------------------------------------------------------------------
  // Shorthands for the node shapes the constant uses
  // ---------------------------------------------------------------------------

  function Leaf(t: string): Schema {
    Schema(t, None, None, None, None, None)
  }

  function StringEnum(values: seq<string>): Schema {
    Schema("string", None, None, None, Some(values), None)
  }

  function ArrayOf(item: Schema): Schema {
    Schema("array", None, Some(item), None, None, None)
  }

  function ClosedObject(props: seq<Property>, required: seq<string>): Schema {
    Schema("object", Some(PropertyList(props)), None, Some(required), None, Some(false))
  }

  // ---------------------------------------------------------------------------
  // Tree traversal
  // ---------------------------------------------------------------------------

  function Props(s: Schema): seq<Property> {
    if s.properties.Some? then s.properties.value.entries else []
  }

  function Keys(props: seq<Property>): (ks: seq<string>)
    ensures |ks| == |props|
    ensures forall i :: 0 <= i < |props| ==> ks[i] == props[i].key
  {
    seq(|props|, i requires 0 <= i < |props| => props[i].key)
  }

  predicate Distinct(xs: seq<string>) {
    forall i, j :: 0 <= i < j < |xs| ==> xs[i] != xs[j]
  }

  /** A property's schema is a proper part of the node holding it. */
  lemma PropertySmaller(s: Schema, i: nat)
    requires i < |Props(s)|
    ensures Props(s)[i].schema < s
  {
    var ps := s.properties.value.entries;
    assert ps[i] in ps;
  }

  /** P holds at every node of the tree. */
  predicate EveryNode(s: Schema, P: Schema -> bool)
    decreases s, |Props(s)| + 1
  {
    && P(s)
    && EveryNodeFrom(s, 0, P)
    && (s.items.Some? ==> EveryNode(s.items.value, P))
  }

  /** P holds at every node under the properties of `s` from index `i` on. */
  predicate EveryNodeFrom(s: Schema, i: nat, P: Schema -> bool)
    decreases s, |Props(s)| - i
  {
    if i >= |Props(s)| then true
    else
      PropertySmaller(s, i);
      EveryNode(Props(s)[i].schema, P) && EveryNodeFrom(s, i + 1, P)
  }

  /** The child under `key` (the first property with that key). */
  function Child(props: seq<Property>, key: string): (r: Option<Schema>)
    ensures r.Some? ==> exists i :: 0 <= i < |props| && props[i].key == key && props[i].schema == r.value
    ensures r.None? <==> key !in Keys(props)
  {
    if props == [] then None
    else if props[0].key == key then Some(props[0].schema)
    else
      var r := Child(props[1..], key);
      assert Keys(props) == [props[0].key] + Keys(props[1..]);
      r
  }

  /** The node reached by following `path` from `s`, if any. */
  function NodeAt(s: Schema, path: seq<Step>): Option<Schema>
    decreases path
  {
    if path == [] then Some(s)
    else match path[0]
      case Items => if s.items.Some? then NodeAt(s.items.value, path[1..]) else None
      case Key(k) =>
        match Child(Props(s), k)
        case Some(c) => NodeAt(c, path[1..])
        case None => None
  }

  /** The number of nodes whose `type` is `t`. */
  function CountTyped(s: Schema, t: string): nat
    decreases s, |Props(s)| + 1
  {
    (if s.typeName == t then 1 else 0)
    + CountTypedFrom(s, 0, t)
    + (if s.items.Some? then CountTyped(s.items.value, t) else 0)
  }

  function CountTypedFrom(s: Schema, i: nat, t: string): nat
    decreases s, |Props(s)| - i
  {
    if i >= |Props(s)| then 0
    else
      PropertySmaller(s, i);
      CountTyped(Props(s)[i].schema, t) + CountTypedFrom(s, i + 1, t)
  }

  // ---------------------------------------------------------------------------
  // Node-level rules the canonical schema keeps
  // ---------------------------------------------------------------------------

  /** An object node forbids extra fields. */
  predicate ClosedIfObject(s: Schema) {
    s.typeName == "object" ==> s.additionalProperties == Some(false)
  }

  /** An object node requires exactly its own property keys, each once. */
  predicate RequiresAllKeys(s: Schema) {
    s.typeName == "object" ==>
      && s.properties.Some?
      && s.required == Some(Keys(Props(s)))
      && Distinct(Keys(Props(s)))
  }

  /** `items` only on arrays, `properties`/`required` only on objects, `enum` only on strings. */
  predicate KeywordsFitType(s: Schema) {
    && (s.items.Some? ==> s.typeName == "array")
    && (s.properties.Some? ==> s.typeName == "object")
    && (s.required.Some? ==> s.typeName == "object")
    && (s.enumValues.Some? ==> s.typeName == "string")
  }

  /** Arrays always describe their elements, and the elements are strings. */
  predicate ArrayOfStrings(s: Schema) {
    s.typeName == "array" ==> s.items.Some? && s.items.value.typeName == "string"
  }

  predicate StandardType(s: Schema) {
    s.typeName in {"object", "array", "string", "integer"}
  }

  // ---------------------------------------------------------------------------
  // CINE_RECIPE_SCHEMA
  // ---------------------------------------------------------------------------

  const FramingTypes: seq<string> := ["close-up", "portrait", "half-body", "full-body"]

  const FourByFour: Schema := ClosedObject(
    [ Property("anatomy", ArrayOf(Leaf("string"))),
      Property("pose", ArrayOf(Leaf("string"))),
      Property("outfit", ArrayOf(Leaf("string"))),
      Property("identity", ArrayOf(Leaf("string"))) ],
    ["anatomy", "pose", "outfit", "identity"])

  const EnvironmentOverride: Schema := ClosedObject(
    [ Property("location", Leaf("string")),
      Property("background", Leaf("string")),
      Property("composition", Leaf("string")) ],
    ["location", "background", "composition"])

  const Phase1: Schema := ClosedObject(
    [ Property("gender_lock", Leaf("string")),
      Property("framing_type", StringEnum(FramingTypes)),
      Property("four_by_four_analysis", FourByFour),
      Property("environment_override", EnvironmentOverride) ],
    ["gender_lock", "framing_type", "four_by_four_analysis", "environment_override"])

  const Phase2: Schema := ClosedObject(
    [ Property("camera_body", Leaf("string")),
      Property("lens_specs", Leaf("string")),
      Property("aperture", Leaf("string")),
      Property("iso", Leaf("integer")),
      Property("aspect_ratio", Leaf("string")),
      Property("optical_character", Leaf("string")) ],
    ["camera_body", "lens_specs", "aperture", "iso", "aspect_ratio", "optical_character"])

  const Phase3: Schema := ClosedObject(
    [ Property("artist_influence", Leaf("string")),
      Property("visual_style", ArrayOf(Leaf("string"))) ],
    ["artist_influence", "visual_style"])

  const PhysicalSpecs: Schema := ClosedObject(
    [ Property("key_light", Leaf("string")),
      Property("fill_light", Leaf("string")),
      Property("back_light", Leaf("string")),
      Property("background_light", Leaf("string")) ],
    ["key_light", "fill_light", "back_light", "background_light"])

  const Phase4: Schema := ClosedObject(
    [ Property("setup", Leaf("string")),
      Property("physical_specs", PhysicalSpecs),
      Property("directors_notes", Leaf("string")) ],
    ["setup", "physical_specs", "directors_notes"])

  const PhaseKeys: seq<string> :=
    ["phase_1_subject_retention", "phase_2_technical_override", "phase_3_artistic_dna", "phase_4_lighting_physics"]

  const Recipe: Schema := ClosedObject(
    [ Property(PhaseKeys[0], Phase1),
      Property(PhaseKeys[1], Phase2),
      Property(PhaseKeys[2], Phase3),
      Property(PhaseKeys[3], Phase4) ],
    PhaseKeys)

  const CineRecipeSchema: Schema := ClosedObject(
    [ Property("cinematography_recipe", Recipe) ],
    ["cinematography_recipe"])

  // ---------------------------------------------------------------------------
  // Proof tools for the constant
  // ---------------------------------------------------------------------------

  lemma {:induction false} EveryNodeFromAll(s: Schema, i: nat, P: Schema -> bool)
    ensures EveryNodeFrom(s, i, P) <==>
      forall j :: i <= j < |Props(s)| ==> EveryNode(Props(s)[j].schema, P)
    decreases |Props(s)| - i
  {
    if i < |Props(s)| {
      EveryNodeFromAll(s, i + 1, P);
    }
  }

  /** EveryNode holds at a node when P holds there and EveryNode holds at each child. */
  lemma EveryNodeIntro(s: Schema, P: Schema -> bool)
    requires P(s)
    requires forall j :: 0 <= j < |Props(s)| ==> EveryNode(Props(s)[j].schema, P)
    requires s.items.Some? ==> EveryNode(s.items.value, P)
    ensures EveryNode(s, P)
  {
    EveryNodeFromAll(s, 0, P);
  }

  /**
   * A rule that holds at each of the distinct nodes of CINE_RECIPE_SCHEMA
   * holds everywhere in it.
   */
  lemma CineEveryNode(P: Schema -> bool)
    requires P(Leaf("string")) && P(Leaf("integer")) && P(ArrayOf(Leaf("string")))
    requires P(StringEnum(FramingTypes))
    requires P(FourByFour) && P(EnvironmentOverride) && P(Phase1) && P(Phase2)
    requires P(Phase3) && P(PhysicalSpecs) && P(Phase4) && P(Recipe) && P(CineRecipeSchema)
    ensures EveryNode(CineRecipeSchema, P)
  {
    var str := Leaf("string");
    EveryNodeIntro(str, P);
    EveryNodeIntro(Leaf("integer"), P);
    EveryNodeIntro(ArrayOf(str), P);
    EveryNodeIntro(StringEnum(FramingTypes), P);
    EveryNodeIntro(FourByFour, P);
    EveryNodeIntro(EnvironmentOverride, P);
    EveryNodeIntro(Phase1, P);
    EveryNodeIntro(Phase2, P);
    EveryNodeIntro(Phase3, P);
    EveryNodeIntro(PhysicalSpecs, P);
    EveryNodeIntro(Phase4, P);
    EveryNodeIntro(Recipe, P);
    EveryNodeIntro(CineRecipeSchema, P);
  }

  lemma RequiresAllKeysIntro(props: seq<Property>, required: seq<string>)
    requires |props| == |required|
    requires forall i :: 0 <= i < |props| ==> props[i].key == required[i]
    requires Distinct(required)
    ensures RequiresAllKeys(ClosedObject(props, required))
  {
    assert Keys(props) == required;
  }

  // ---------------------------------------------------------------------------
  // What CINE_RECIPE_SCHEMA promises
  // ---------------------------------------------------------------------------

  /** Every object node of the schema is closed (additionalProperties: false). */
  lemma CineObjectsClosed()
    ensures EveryNode(CineRecipeSchema, ClosedIfObject)
  {
    CineEveryNode(ClosedIfObject);
  }

  /** At every object node, `required` lists exactly that node's keys, in order, each once. */
  lemma CineRequiresAllKeys()
    ensures EveryNode(CineRecipeSchema, RequiresAllKeys)
  {
    FourByFourRequiresAllKeys();
    EnvironmentOverrideRequiresAllKeys();
    Phase1RequiresAllKeys();
    Phase2RequiresAllKeys();
    Phase3RequiresAllKeys();
    PhysicalSpecsRequiresAllKeys();
    Phase4RequiresAllKeys();
    RecipeRequiresAllKeys();
    RootRequiresAllKeys();
    CineEveryNode(RequiresAllKeys);
  }

  lemma FourByFourRequiresAllKeys() ensures RequiresAllKeys(FourByFour) {
    RequiresAllKeysIntro(Props(FourByFour), FourByFour.required.value);
  }

  lemma EnvironmentOverrideRequiresAllKeys() ensures RequiresAllKeys(EnvironmentOverride) {
    RequiresAllKeysIntro(Props(EnvironmentOverride), EnvironmentOverride.required.value);
  }

  lemma Phase1RequiresAllKeys() ensures RequiresAllKeys(Phase1) {
    RequiresAllKeysIntro(Props(Phase1), Phase1.required.value);
  }

  lemma Phase2RequiresAllKeys() ensures RequiresAllKeys(Phase2) {
    RequiresAllKeysIntro(Props(Phase2), Phase2.required.value);
  }

  lemma Phase3RequiresAllKeys() ensures RequiresAllKeys(Phase3) {
    RequiresAllKeysIntro(Props(Phase3), Phase3.required.value);
  }

  lemma PhysicalSpecsRequiresAllKeys() ensures RequiresAllKeys(PhysicalSpecs) {
    RequiresAllKeysIntro(Props(PhysicalSpecs), PhysicalSpecs.required.value);
  }

  lemma Phase4RequiresAllKeys() ensures RequiresAllKeys(Phase4) {
    RequiresAllKeysIntro(Props(Phase4), Phase4.required.value);
  }

  lemma RecipeRequiresAllKeys() ensures RequiresAllKeys(Recipe) {
    RequiresAllKeysIntro(Props(Recipe), Recipe.required.value);
  }

  lemma RootRequiresAllKeys() ensures RequiresAllKeys(CineRecipeSchema) {
    RequiresAllKeysIntro(Props(CineRecipeSchema), CineRecipeSchema.required.value);
  }

  /** `items` only on arrays, `properties`/`required` only on objects, `enum` only on strings. */
  lemma CineKeywordsFitType()
    ensures EveryNode(CineRecipeSchema, KeywordsFitType)
  {
    CineEveryNode(KeywordsFitType);
  }

  /** Every array node has `items`, and its items are strings. */
  lemma CineArraysOfStrings()
    ensures EveryNode(CineRecipeSchema, ArrayOfStrings)
  {
    CineEveryNode(ArrayOfStrings);
  }

  /** Every type token is object, array, string or integer. */
  lemma CineStandardTypes()
    ensures EveryNode(CineRecipeSchema, StandardType)
  {
    CineEveryNode(StandardType);
  }

  const FramingTypePath: seq<Step> :=
    [Key("cinematography_recipe"), Key("phase_1_subject_retention"), Key("framing_type")]

  /** framing_type is a string restricted to the four framing literals. */
  lemma CineFramingType()
    ensures NodeAt(CineRecipeSchema, FramingTypePath)
      == Some(Schema("string", None, None, None, Some(["close-up", "portrait", "half-body", "full-body"]), None))
  {
  }

  const IsoPath: seq<Step> :=
    [Key("cinematography_recipe"), Key("phase_2_technical_override"), Key("iso")]

  /** The schema has exactly one integer node, and it is phase_2_technical_override.iso. */
  lemma CineSingleInteger()
    ensures CountTyped(CineRecipeSchema, "integer") == 1
    ensures NodeAt(CineRecipeSchema, IsoPath) == Some(Leaf("integer"))
  {
    RecipeSingleInteger();
    CountTypedOne("cinematography_recipe", Recipe, ["cinematography_recipe"], "integer");
    CineIsoPath();
  }

  lemma CountTypedOne(k: string, a: Schema, required: seq<string>, t: string)
    requires t != "object"
    ensures CountTyped(ClosedObject([Property(k, a)], required), t) == CountTyped(a, t)
  {
    var s := ClosedObject([Property(k, a)], required);
    assert CountTypedFrom(s, 1, t) == 0;
  }

  lemma CineIsoPath()
    ensures NodeAt(CineRecipeSchema, IsoPath) == Some(Leaf("integer"))
  {
    assert Child(Props(Phase2), "iso") == Some(Leaf("integer"));
    assert NodeAt(Phase2, [Key("iso")]) == Some(Leaf("integer"));
    assert Child(Props(Recipe), "phase_2_technical_override") == Some(Phase2);
  }

  /** One key step: NodeAt descends into the child under that key. */
  lemma NodeAtKey(s: Schema, k: string, rest: seq<Step>)
    ensures NodeAt(s, [Key(k)] + rest) ==
      (if Child(Props(s), k).Some? then NodeAt(Child(Props(s), k).value, rest) else None)
  {
    assert ([Key(k)] + rest)[1..] == rest;
  }

  /** With distinct keys, looking up the key at index i finds the child at index i. */
  lemma {:induction false} ChildOfDistinct(props: seq<Property>, i: nat)
    requires i < |props|
    requires Distinct(Keys(props))
    ensures Child(props, props[i].key) == Some(props[i].schema)
  {
    if i > 0 {
      assert Keys(props)[0] != Keys(props)[i];
      assert Keys(props[1..]) == Keys(props)[1..];
      ChildOfDistinct(props[1..], i - 1);
    }
  }

  /** Following a phase key from the root reaches that phase's object. */
  lemma CinePhaseAt(i: nat)
    requires i < 4
    ensures NodeAt(CineRecipeSchema, [Key("cinematography_recipe"), Key(PhaseKeys[i])]) == Some(Props(Recipe)[i].schema)
  {
    RecipeRequiresAllKeys();
    ChildOfDistinct(Props(Recipe), i);
    NodeAtKey(Recipe, PhaseKeys[i], []);
    assert [Key("cinematography_recipe"), Key(PhaseKeys[i])] == [Key("cinematography_recipe")] + [Key(PhaseKeys[i])];
    NodeAtKey(CineRecipeSchema, "cinematography_recipe", [Key(PhaseKeys[i])]);
  }

  lemma Phase1NoInteger()
    ensures CountTyped(Phase1, "integer") == 0
  {
    var t := "integer";
    assert CountTyped(FourByFour, t) == 0;
    assert CountTyped(EnvironmentOverride, t) == 0;
    assert CountTypedFrom(Phase1, 4, t) == 0;
    assert Props(Phase1)[3].schema == EnvironmentOverride;
    assert CountTypedFrom(Phase1, 3, t) == 0;
    assert Props(Phase1)[2].schema == FourByFour;
    assert CountTypedFrom(Phase1, 2, t) == 0;
    assert Props(Phase1)[1].schema == StringEnum(FramingTypes);
    assert CountTypedFrom(Phase1, 1, t) == 0;
    assert Props(Phase1)[0].schema == Leaf("string");
  }

  lemma Phase4NoInteger()
    ensures CountTyped(Phase4, "integer") == 0
  {
    var t := "integer";
    assert CountTyped(PhysicalSpecs, t) == 0;
    assert CountTypedFrom(Phase4, 3, t) == 0;
    assert Props(Phase4)[2].schema == Leaf("string");
    assert CountTypedFrom(Phase4, 2, t) == 0;
    assert Props(Phase4)[1].schema == PhysicalSpecs;
    assert CountTypedFrom(Phase4, 1, t) == 0;
    assert Props(Phase4)[0].schema == Leaf("string");
  }

  lemma RecipeSingleInteger()
    ensures CountTyped(Recipe, "integer") == 1
  {
    var t := "integer";
    Phase1NoInteger();
    Phase4NoInteger();
    assert CountTyped(Phase2, t) == 1;
    assert CountTyped(Phase3, t) == 0;
    CountTypedFour(PhaseKeys[0], PhaseKeys[1], PhaseKeys[2], PhaseKeys[3], Phase1, Phase2, Phase3, Phase4, PhaseKeys, t);
  }

  /** The count over an object with four properties is the sum over its four children. */
  lemma CountTypedFour(k0: string, k1: string, k2: string, k3: string,
                       a: Schema, b: Schema, c: Schema, d: Schema, required: seq<string>, t: string)
    requires t != "object"
    ensures CountTyped(ClosedObject([Property(k0, a), Property(k1, b), Property(k2, c), Property(k3, d)], required), t)
      == CountTyped(a, t) + CountTyped(b, t) + CountTyped(c, t) + CountTyped(d, t)
  {
    var s := ClosedObject([Property(k0, a), Property(k1, b), Property(k2, c), Property(k3, d)], required);
    assert CountTypedFrom(s, 4, t) == 0;
    assert CountTypedFrom(s, 3, t) == CountTyped(d, t);
    assert CountTypedFrom(s, 2, t) == CountTyped(c, t) + CountTyped(d, t);
    assert CountTypedFrom(s, 1, t) == CountTyped(b, t) + CountTyped(c, t) + CountTyped(d, t);
  }

  /**
   * The root requires only cinematography_recipe, which requires the four
   * phase objects, in order.
   */
  lemma CineRootShape()
    ensures CineRecipeSchema.required == Some(["cinematography_recipe"])
    ensures NodeAt(CineRecipeSchema, [Key("cinematography_recipe")]) == Some(Recipe)
    ensures Recipe.required == Some(["phase_1_subject_retention", "phase_2_technical_override",
                                     "phase_3_artistic_dna", "phase_4_lighting_physics"])
    ensures NodeAt(CineRecipeSchema, [Key("cinematography_recipe"), Key("phase_1_subject_retention")]) == Some(Phase1)
    ensures NodeAt(CineRecipeSchema, [Key("cinematography_recipe"), Key("phase_2_technical_override")]) == Some(Phase2)
    ensures NodeAt(CineRecipeSchema, [Key("cinematography_recipe"), Key("phase_3_artistic_dna")]) == Some(Phase3)
    ensures NodeAt(CineRecipeSchema, [Key("cinematography_recipe"), Key("phase_4_lighting_physics")]) == Some(Phase4)
    ensures Phase1.typeName == Phase2.typeName == Phase3.typeName == Phase4.typeName == "object"
  {
    CinePhaseAt(0);
    CinePhaseAt(1);
    CinePhaseAt(2);
    CinePhaseAt(3);
  }
}
