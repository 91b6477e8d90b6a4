/** Where slimming twice is not slimming once: an unnatural schema, with `required` beside a null union. */
module SlimUntamed {
  import opened JsonSchema
  import opened SchemaSlim
  import opened SlimProofs

  const PERMISSIVE := Obj(map[])
  const UNION := Obj(map["anyOf" := Arr([NULL_SCHEMA, PERMISSIVE])])

  lemma FieldsOf(m: map<string, Json>, key: string)
    requires key in m && key != "title"
    ensures key in SlimFields(m) && SlimFields(m)[key] == SlimField(key, m[key], RequiredNames(m))
    ensures SlimFields(m).Keys == m.Keys - {"title"}
  {
    hide SlimField, Slim;
  }

  lemma NullFixed()
    ensures Slim(NULL_SCHEMA, true) == NULL_SCHEMA
  {
    var m: map<string, Json> := map["type" := Str("null")];
    SlimFieldIs("type", Str("null"), RequiredNames(m));
    SlimKeepsKind(Str("null"), true);
    hide SlimField, Slim, RequiredNames;
    FieldsOf(m, "type");
    SlimUnfold(m, true);
    assert SlimFields(m) == m;
  }

  lemma UnionCollapses()
    ensures Slim(UNION, true) == PERMISSIVE && Slim(UNION, false) == UNION
  {
    var arms := Arr([NULL_SCHEMA, PERMISSIVE]);
    var m: map<string, Json> := map["anyOf" := arms];
    SlimFieldIs("anyOf", arms, RequiredNames(m));
    ArmsFixed(PERMISSIVE);
    hide SlimField, Slim, RequiredNames;
    FieldsOf(m, "anyOf");
    SlimUnfold(m, true);
    SlimUnfold(m, false);
    assert SlimFields(m) == m;
    assert "type" in NULL_SCHEMA.fields && "type" !in PERMISSIVE.fields;
    assert Collapsible(m);
    assert PERMISSIVE.fields + (m - {"anyOf"}) == map[];
  }

  function Shape(union: Json, required: Json): map<string, Json> {
    map["properties" := Obj(map["p" := union]), "required" := required]
  }

  lemma RequiresP(union: Json, names: seq<Json>)
    requires names == [] || names == [Str("p")]
    ensures "p" in RequiredNames(Shape(union, Arr(names))) <==> names != []
  {
    var m := Shape(union, Arr(names));
    assert m["required"] == Arr(names);
    assert names != [] ==> m["required"].items[0].s == "p";
  }

  lemma PropertySlims(names: seq<Json>)
    requires names == [] || names == [Str("p")]
    ensures SlimField("properties", Obj(map["p" := UNION]), RequiredNames(Shape(UNION, Arr(names)))) ==
            Obj(map["p" := if names == [] then PERMISSIVE else UNION])
  {
    var props: Json := Obj(map["p" := UNION]);
    var required := RequiredNames(Shape(UNION, Arr(names)));
    RequiresP(UNION, names);
    UnionCollapses();
    SlimFieldIs("properties", props, required);
    hide *;
    assert SlimField("properties", props, required).fields == map["p" := if names == [] then PERMISSIVE else UNION];
  }

  /** The optional property's union collapses; a required one's stays. */
  lemma ShapeSlims(names: seq<Json>)
    requires names == [] || names == [Str("p")]
    ensures Slim(Obj(Shape(UNION, Arr(names))), true) == Obj(Shape(if names == [] then PERMISSIVE
        else UNION, Arr(names)))
  {
    var m, r := Shape(UNION, Arr(names)), Arr(names);
    PropertySlims(names);
    SlimFieldIs("required", r, RequiredNames(m));
    HashableFixed(r);
    hide SlimField, Slim, RequiredNames;
    FieldsOf(m, "properties");
    FieldsOf(m, "required");
    var out := Shape(if names == [] then PERMISSIVE else UNION, r);
    assert SlimFields(m) == out by { hide *; TwoEntries(m, out, SlimFields(m)); }
    hide SlimFields;
    SlimUnfold(m, true);
    NoUnionNoDefault(if names == [] then PERMISSIVE else UNION, r);
    hide Shape;
  }

  lemma NoUnionNoDefault(union: Json, required: Json)
    ensures Finish(Shape(union, required), true) == Shape(union, required)
  {
  }

  lemma TwoEntries(m: map<string, Json>, a: map<string, Json>, b: map<string, Json>)
    requires a.Keys == b.Keys == {"properties", "required"}
    requires a["properties"] == b["properties"] && a["required"] == b["required"]
    ensures a == b
  {
  }

  lemma ArmsFixed(arm: Json)
    requires Slim(arm, true) == arm
    ensures Slim(Arr([NULL_SCHEMA, arm]), true) == Arr([NULL_SCHEMA, arm])
  {
    var arms := Arr([NULL_SCHEMA, arm]);
    NullFixed();
    SlimKeepsKind(arms, true);
    hide *;
    assert Slim(arms, true).items == arms.items;
  }

  lemma UnionsDiffer()
    ensures UNION != PERMISSIVE
  {
    assert "anyOf" in UNION.fields && "anyOf" !in PERMISSIVE.fields;
  }

  lemma UnionFields(m: map<string, Json>, arms: Json, none: Json)
    requires m == map["anyOf" := arms, "required" := none] && none == Arr([])
    requires arms.Arr? && Slim(arms, true) == arms
    ensures SlimFields(m) == m
  {
    SlimFieldIs("anyOf", arms, RequiredNames(m));
    SlimFieldIs("required", none, RequiredNames(m));
    HashableFixed(none);
    hide SlimField, Slim, RequiredNames;
    FieldsOf(m, "anyOf");
    FieldsOf(m, "required");
  }

  lemma CollapsesTo(m: map<string, Json>, arm: Json)
    requires SlimFields(m) == m && "anyOf" in m && m["anyOf"] == Arr([NULL_SCHEMA, arm])
    requires arm.Obj? && arm != NULL_SCHEMA && "default" !in arm.fields + (m - {"anyOf"})
    ensures Slim(Obj(m), true) == Obj(arm.fields + (m - {"anyOf"}))
  {
    hide Slim, SlimFields;
    SlimUnfold(m, true);
  }

  /** What stands beside a collapsing union wins over the surviving arm. */
  lemma EmptyRequiredWins(arm: Json)
    requires arm.Obj? && arm != NULL_SCHEMA && "default" !in arm.fields && Slim(arm, true) == arm
    ensures Slim(Obj(map["anyOf" := Arr([NULL_SCHEMA, arm]), "required" := Arr([])]), true) ==
            Obj(arm.fields["required" := Arr([])])
  {
    hide Slim, SlimFields;
    var m: map<string, Json> := map["anyOf" := Arr([NULL_SCHEMA, arm]), "required" := Arr([])];
    ArmsFixed(arm);
    UnionFields(m, m["anyOf"], m["required"]);
    assert m - {"anyOf"} == map["required" := Arr([])];
    assert arm.fields + (m - {"anyOf"}) == arm.fields["required" := Arr([])];
    CollapsesTo(m, arm);
  }

  lemma ArmIsFit(arm: Json)
    requires arm == Obj(Shape(UNION, Arr([Str("p")])))
    ensures arm != NULL_SCHEMA && "default" !in arm.fields
    ensures arm.fields["required" := Arr([])] == Shape(UNION, Arr([]))
  {
    assert "type" in NULL_SCHEMA.fields && "type" !in arm.fields;
  }

  /** An empty `required` beside a union overrides the one of the surviving arm: the arm's
      required property keeps its union at first and loses it when slimmed again. */
  lemma UntamedSlimsTwice()
    ensures var arm := Obj(Shape(UNION, Arr([Str("p")])));
            var node := Obj(map["anyOf" := Arr([NULL_SCHEMA, arm]), "required" := Arr([])]);
            && Slim(node, true) == Obj(Shape(UNION, Arr([])))
            && Slim(Slim(node, true), true) == Obj(Shape(PERMISSIVE, Arr([])))
            && UNION != PERMISSIVE
  {
    var arm := Obj(Shape(UNION, Arr([Str("p")])));
    ArmIsFit(arm);
    ShapeSlims([Str("p")]);
    ShapeSlims([]);
    UnionsDiffer();
    hide Slim, Shape;
    EmptyRequiredWins(arm);
  }
}
