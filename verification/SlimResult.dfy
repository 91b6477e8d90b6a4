/** What slimming removes, everywhere in a schema, and what it leaves in place. */
module SlimResult {
  import opened JsonSchema
  import opened SchemaSlim
  import opened SlimProofs
  import opened SlimTwice

  // ----- What is gone -----

  /** A union of two object schemas, one of them the null schema. */
  ghost predicate NullUnion(m: map<string, Json>) {
    && "anyOf" in m && m["anyOf"].Arr? && |m["anyOf"].items| == 2
    && (forall k :: 0 <= k < 2 ==> m["anyOf"].items[k].Obj?)
    && (exists k :: 0 <= k < 2 && m["anyOf"].items[k] == Obj(map["type" := Str("null")]))
  }

  /** The keys whose values map names to schemas. */
  ghost predicate NameMap(key: string) {
    key == "properties" || key == "$defs" || key == "definitions" || key == "patternProperties"
  }

  /** No `title` that is not a name, no null default, and no null union where it is not `free` to
      stand: below, a property is free if it is required, or, when not `sharp`, in any case. */
  ghost predicate Lean(node: Json, free: bool, sharp: bool)
    decreases node, 0
  {
    match node
    case Arr(items) => forall k :: 0 <= k < |items| ==> Lean(items[k], false, sharp)
    case Obj(m) =>
      && "title" !in m
      && ("default" in m ==> m["default"] != Null)
      && (!free ==> !NullUnion(m))
      && forall key :: key in m ==> LeanField(key, m[key], RequiredNames(m), sharp)
    case _ => true
  }

  ghost predicate LeanField(key: string, v: Json, required: set<string>, sharp: bool)
    decreases v, 1
  {
    if NameMap(key) && v.Obj? then
      forall name :: name in v.fields ==>
        Lean(v.fields[name], key == "properties" && (!sharp || name in required), sharp)
    else Lean(v, false, sharp)
  }

  lemma NullUnionIsLoose(m: map<string, Json>)
    ensures NullUnion(m) <==> Loose(m)
  {
    if "anyOf" in m && m["anyOf"].Arr? && |m["anyOf"].items| == 2 {
      var arms := m["anyOf"].items;
      assert arms == [arms[0], arms[1]];
    }
  }

  /** What only matters to `properties`, and there only for names that are not free. */
  lemma MoreRequired(key: string, v: Json, required: set<string>, required': set<string>, sharp: bool)
    requires LeanField(key, v, required, sharp)
    requires key != "properties" || required <= required'
    ensures LeanField(key, v, required', sharp)
  {
    if NameMap(key) && v.Obj? {
      forall name | name in v.fields
        ensures Lean(v.fields[name], key == "properties" && (!sharp || name in required'), sharp)
      {
        Freer(v.fields[name], key == "properties" && (!sharp || name in required), sharp);
      }
    }
  }

  lemma Freer(node: Json, free: bool, sharp: bool)
    requires Lean(node, free, sharp)
    ensures Lean(node, true, sharp)
  {
  }

  /** The fields of a slimmed object, before the end of `_slim`. */
  ghost predicate FieldsLean(m: map<string, Json>, sharp: bool) {
    forall key :: key in SlimFields(m) ==> LeanField(key, SlimFields(m)[key], RequiredNames(m), sharp)
  }

  /** An object that is not collapsed. */
  lemma PlainIsLean(m: map<string, Json>, collapse: bool, sharp: bool)
    requires FieldsLean(m, sharp) && !Raises(Obj(m), collapse)
    requires !(collapse && Collapsible(SlimFields(m)))
    ensures Lean(Slim(Obj(m), collapse), !collapse, sharp)
  {
    hide Slim, SlimField, Raises, FieldRaises, LeanField, SlimFields, NullUnion, Unhashable;
    var out := SlimFields(m);
    NotRaised(m, collapse);
    RequiredKept(m);
    SlimFieldsKeys(m);
    SlimUnfold(m, collapse);
    var result := WithoutNullDefault(out);
    RequiredNamesOf(result, out);
    NullUnionIsLoose(result);
    assert Loose(result) == Loose(out) by { SameUnion(result, out); }
  }

  /** The arm's properties under the `required` beside the union. */
  lemma ArmPropertiesLean(m: map<string, Json>, other: map<string, Json>, sharp: bool)
    requires "properties" in other && "properties" !in m && "required" in m
    requires LeanField("properties", other["properties"], RequiredNames(other), sharp)
    ensures LeanField("properties", other["properties"], RequiredNames(m), sharp) <==>
            !(sharp && exists name :: Overridden(m, other, name))
  {
    var v := other["properties"];
    if v.Obj? && sharp {
      hide RequiredNames, NullUnion, Loose;
      forall name | name in v.fields
        ensures Lean(v.fields[name], name in RequiredNames(m), sharp) <==> !Overridden(m, other, name)
      {
        assert Lean(v.fields[name], name in RequiredNames(other), sharp);
        if v.fields[name].Obj? {
          NullUnionIsLoose(v.fields[name].fields);
        }
      }
    }
  }

  lemma MergedPropertiesLean(m: map<string, Json>, other: map<string, Json>, required: set<string>, sharp: bool)
    requires "properties" in m ==> "properties" in SlimFields(m)
    requires "properties" in m ==> LeanField("properties", SlimFields(m)["properties"], RequiredNames(m), sharp)
    requires "properties" in other ==> LeanField("properties", other["properties"], RequiredNames(other), sharp)
    requires required == RequiredNames(if "required" in m then m else other)
    requires "properties" in m || "properties" in other
    ensures var v := if "properties" in m then SlimFields(m)["properties"] else other["properties"];
            LeanField("properties", v, required, sharp) <==> !(sharp && exists name :: Overridden(m, other, name))
  {
    hide SlimFields, LeanField;
    if "properties" in m {
      assert "required" !in m ==> RequiredNames(m) == {};
      MoreRequired("properties", SlimFields(m)["properties"], RequiredNames(m), required, sharp);
    } else if "required" in m {
      ArmPropertiesLean(m, other, sharp);
    }
  }

  /** An object whose union is collapsed, the surviving arm being lean: so is the object, unless
      the `required` beside the union overrides the arm's. */
  lemma CollapsedIsLeanExactlyWhen(m: map<string, Json>, sharp: bool)
    requires FieldsLean(m, sharp) && !Raises(Obj(m), true) && Collapsible(SlimFields(m))
    requires Lean(OtherArm(SlimFields(m)["anyOf"].items), false, sharp)
    ensures Lean(Slim(Obj(m), true), false, sharp) <==> !(sharp && Overrides(m))
  {
    var other := OtherArm(SlimFields(m)["anyOf"].items).fields;
    var result := Merged(m, other);
    assert Obj(other) == OtherArm(SlimFields(m)["anyOf"].items);
    NotRaised(m, true);
    RequiredKept(m);
    SlimFieldsKeys(m);
    SlimUnfold(m, true);
    MergedEntries(m, other);
    NullUnionIsLoose(other);
    NullUnionIsLoose(result);
    assert Loose(result) == Loose(other) by { SameUnion(result, other); }
    assert Slim(Obj(m), true) == Obj(result);
    hide Slim, SlimField, Raises, FieldRaises, LeanField, SlimFields, NullUnion, Unhashable, Loose, Merged, Collapsible,
        RequiredNames, Overridden;
    if "properties" in result {
      MergedPropertiesLean(m, other, RequiredNames(result), sharp);
    }
    forall key | key in result && key != "properties"
      ensures LeanField(key, result[key], RequiredNames(result), sharp)
    {
      if key in m && key != "anyOf" {
        MoreRequired(key, result[key], RequiredNames(m), RequiredNames(result), sharp);
      } else {
        MoreRequired(key, result[key], RequiredNames(other), RequiredNames(result), sharp);
      }
    }
    NotOverriddenWithout(m, other);
  }

  lemma NotOverriddenWithout(m: map<string, Json>, other: map<string, Json>)
    ensures "properties" !in m && "properties" !in other ==> !exists name :: Overridden(m, other, name)
  {
  }

  /** Slimming leaves no title and no null default anywhere, and null unions on properties only;
      in a tame schema, on required properties only. */
  lemma {:induction false} SlimIsLean(node: Json, collapse: bool, sharp: bool)
    requires !Raises(node, collapse) && (sharp ==> Tame(node, collapse))
    ensures Lean(Slim(node, collapse), !collapse, sharp)
    decreases node, 0
  {
    match node
    case Arr(items) =>
      forall k | 0 <= k < |items| ensures Lean(Slim(items[k], true), false, sharp) {
        assert !Raises(items[k], true);
        SlimIsLean(items[k], true, sharp);
      }
    case Obj(m) =>
      assert node == Obj(m);
      NotRaised(m, collapse);
      SlimFieldsKeys(m);
      forall key | key in SlimFields(m) ensures LeanField(key, SlimFields(m)[key], RequiredNames(m), sharp) {
        FieldOf(m, key);
        SlimFieldIsLean(key, m[key], RequiredNames(m), sharp);
      }
      hide Slim, SlimField, SlimFields, LeanField, NullUnion, RequiredNames;
      if collapse && Collapsible(SlimFields(m)) {
        var arm := SurvivingArm(m);
        ArmDoesNotRaise(m, arm, true);
        ArmIsTame(m, arm, sharp);
        SlimIsLean(arm, true, sharp);
        CollapsedIsLeanExactlyWhen(m, sharp);
      } else {
        PlainIsLean(m, collapse, sharp);
      }
    case _ =>
  }

  lemma ArmIsTame(m: map<string, Json>, arm: Json, sharp: bool)
    requires sharp ==> Tame(Obj(m), true)
    requires "anyOf" in m && m["anyOf"].Arr? && arm in m["anyOf"].items
    ensures sharp ==> Tame(arm, true)
  {
    if sharp {
      assert TameField("anyOf", m["anyOf"], RequiredNames(m));
      var k :| 0 <= k < |m["anyOf"].items| && m["anyOf"].items[k] == arm;
      assert Tame(m["anyOf"].items[k], true);
    }
  }

  lemma {:induction false} SlimFieldIsLean(key: string, v: Json, required: set<string>, sharp: bool)
    requires !FieldRaises(key, v, required) && (sharp ==> TameField(key, v, required))
    ensures LeanField(key, SlimField(key, v, required), required, sharp)
    decreases v, 1
  {
    if key in NAME_MAPS && v.Obj? {
      forall name | name in v.fields
        ensures Lean(Slim(v.fields[name], !(key == "properties" && name in required)),
                     key == "properties" && (!sharp || name in required), sharp)
      {
        var collapse := !(key == "properties" && name in required);
        assert !Raises(v.fields[name], collapse);
        SlimIsLean(v.fields[name], collapse, sharp);
        if collapse {
          Freer(Slim(v.fields[name], collapse), false, sharp);
        }
      }
    } else {
      SlimIsLean(v, true, sharp);
      SlimKeepsKind(v, true);
    }
  }

  // ----- What stays -----

  /** What slimming makes of the value of a keyword: text, numbers and the like stay, lists and maps
      of names keep their shape. */
  lemma FieldSurvives(key: string, v: Json, required: set<string>)
    ensures var w := SlimField(key, v, required);
            && (!v.Obj? && !v.Arr? ==> w == v)
            && (v.Arr? ==> w.Arr? && |w.items| == |v.items|
                           && forall k :: 0 <= k < |v.items| ==> w.items[k] == Slim(v.items[k], true))
            && (v.Obj? && !NameMap(key) ==> w == Slim(v, true))
            && (v.Obj? && NameMap(key) ==>
                  w.Obj? && w.fields.Keys == v.fields.Keys
                  && forall name :: name in v.fields ==>
                       w.fields[name] == Slim(v.fields[name], !(key == "properties" && name in required)))
  {
    SlimKeepsKind(v, true);
    hide Slim;
  }

  /** The union goes, under `collapse`, if one arm is the null schema and the other an object. */
  ghost predicate Goes(m: map<string, Json>, collapse: bool) {
    collapse && Collapsible(SlimFields(m))
  }

  /** Every keyword of an object but its title, a null default and a union that goes is there
      afterwards, and wins over the surviving arm's; the other keywords are that arm's. */
  lemma KeywordsSurvive(m: map<string, Json>, collapse: bool, key: string)
    ensures var r := Slim(Obj(m), collapse);
            && r.Obj?
            && (key in m && key != "title" && !(key == "default" && m[key] == Null)
                && !(key == "anyOf" && Goes(m, collapse)) ==>
                  key in r.fields && r.fields[key] == SlimField(key, m[key], RequiredNames(m)))
            && (Goes(m, collapse) && (key !in m || key == "anyOf") ==>
                  var arm := OtherArm(SlimFields(m)["anyOf"].items).fields;
                  key in r.fields <==> key in arm && !(key == "default" && arm[key] == Null))
            && (Goes(m, collapse) && (key !in m || key == "anyOf") && key in r.fields ==>
                  r.fields[key] == OtherArm(SlimFields(m)["anyOf"].items).fields[key])
            && (!Goes(m, collapse) && key !in m ==> key !in r.fields)
  {
    SlimUnfold(m, collapse);
    SlimFieldsKeys(m);
    if key in m && key != "title" {
      FieldOf(m, key);
      FieldSurvives(key, m[key], RequiredNames(m));
      NullStays(m[key]);
      if key == "default" {
        SlimFieldIs(key, m[key], RequiredNames(m));
      }
    }
    hide Slim, SlimField, SlimFields, RequiredNames, Collapsible;
  }

  lemma NullStays(v: Json)
    ensures Slim(v, true) == Null <==> v == Null
  {
    SlimKeepsKind(v, true);
  }

  // ----- Tool schemas -----

  /** The property has no description. */
  ghost predicate Undescribed(body: Json) {
    body.Obj? && "properties" in body.fields && body.fields["properties"].Obj? ==>
      forall p :: p in body.fields["properties"].fields && body.fields["properties"].fields[p].Obj? ==>
        "description" !in body.fields["properties"].fields[p].fields
  }

  ghost predicate Shared(name: string) {
    name == "FilterSpec" || name == "ChartSpec" || name == "ChartCompareSpec" || name == "ChartOptionsSpec"
  }

  /** Dropping a keyword that no condition looks at. */
  lemma StripKeepsLean(before: map<string, Json>, after: map<string, Json>, free: bool, sharp: bool)
    requires Lean(Obj(before), free, sharp)
    requires forall key :: key in after ==> key in before
    requires forall key :: key in before && key != "description" ==> key in after
    requires forall key :: key in after ==> LeanField(key, after[key], RequiredNames(before), sharp)
    requires forall key :: key in after && key != "properties" && key != "$defs" ==> after[key] == before[key]
    ensures Lean(Obj(after), free, sharp)
  {
    RequiredNamesOf(before, after);
    NullUnionIsLoose(before);
    NullUnionIsLoose(after);
    SameUnion(before, after);
    hide LeanField, NullUnion, RequiredNames;
  }

  lemma WithoutDescriptionLean(prop: Json, free: bool, sharp: bool)
    requires Lean(prop, free, sharp)
    ensures Lean(WithoutDescription(prop), free, sharp)
  {
    if prop.Obj? {
      StripKeepsLean(prop.fields, prop.fields - {"description"}, free, sharp);
    }
  }

  lemma DroppedIsLean(body: Json, free: bool, sharp: bool)
    requires Lean(body, free, sharp)
    ensures Lean(DropPropertyDescriptions(body), free, sharp) && Undescribed(DropPropertyDescriptions(body))
  {
    if body.Obj? && "properties" in body.fields && body.fields["properties"].Obj? {
      hide WithoutDescription, Lean;
      var properties, required := body.fields["properties"].fields, RequiredNames(body.fields);
      assert LeanField("properties", body.fields["properties"], required, sharp);
      var after := DropPropertyDescriptions(body);
      forall name | name in properties
        ensures Lean(WithoutDescription(properties[name]), !sharp || name in required, sharp)
      {
        WithoutDescriptionLean(properties[name], !sharp || name in required, sharp);
      }
      StripKeepsLean(body.fields, after.fields, free, sharp);
    }
  }

  lemma StrippedIsLean(schema: Json, sharp: bool)
    requires Lean(schema, false, sharp)
    ensures var t := StripDefDescriptions(schema, SHARED_SPEC_NAMES);
            Lean(t, false, sharp) && forall name :: name in Defs(t) && Shared(name) ==> Undescribed(Defs(t)[name])
  {
    if schema.Obj? && "$defs" in schema.fields && schema.fields["$defs"].Obj? {
      hide DropPropertyDescriptions, Lean, Undescribed;
      var defs, required := schema.fields["$defs"].fields, RequiredNames(schema.fields);
      var t := StripDefDescriptions(schema, SHARED_SPEC_NAMES);
      assert LeanField("$defs", schema.fields["$defs"], required, sharp);
      forall name | name in defs
        ensures Lean(DropPropertyDescriptions(defs[name]), false, sharp)
            && Undescribed(DropPropertyDescriptions(defs[name]))
      {
        DroppedIsLean(defs[name], false, sharp);
      }
      StripKeepsLean(schema.fields, t.fields, false, sharp);
    }
  }

  /** What a tool advertises: no title, no null default, null unions on properties only - on required
      ones only, if the schema is tame - and no property prose in the shared definitions. */
  lemma AdvertisedIsLean(schema: Json)
    requires SlimToolSchema(schema).Ok?
    ensures var t := SlimToolSchema(schema).schema;
            && Lean(t, false, false)
            && (Tame(schema, true) ==> Lean(t, false, true))
            && forall name :: name in Defs(t) && Shared(name) ==> Undescribed(Defs(t)[name])
  {
    hide Slim, Raises, StripDefDescriptions, Tame, Lean, Undescribed, Shared;
    SlimIsLean(schema, true, false);
    StrippedIsLean(Slim(schema, true), false);
    if Tame(schema, true) {
      SlimIsLean(schema, true, true);
      StrippedIsLean(Slim(schema, true), true);
    }
  }

  /** And what it keeps: everything slimming keeps, other definitions' prose included. */
  lemma AdvertisedKeeps(schema: Json, name: string)
    requires SlimToolSchema(schema).Ok? && schema.Obj?
    ensures var t, slim := SlimToolSchema(schema).schema, Slim(schema, true);
            && t.Obj? && slim.Obj? && t.fields - {"$defs"} == slim.fields - {"$defs"}
            && Defs(t).Keys == Defs(slim).Keys
            && (name in Defs(slim) ==>
                  if Shared(name) then OnlyProseDropped(Defs(slim)[name], Defs(t)[name])
                  else Defs(t)[name] == Defs(slim)[name])
            && (!Goes(schema.fields, true) ==>
                  && Defs(slim).Keys == Defs(schema).Keys
                  && (name in Defs(schema) ==> Defs(slim)[name] == Slim(Defs(schema)[name], true)))
  {
    hide Slim, Raises, StripDefDescriptions, OnlyProseDropped, SlimFields, Collapsible;
    var slim := Slim(schema, true);
    if !Goes(schema.fields, true) {
      DefsSlimmed(schema);
    }
    SlimKeepsKind(schema, true);
    if "$defs" in slim.fields && slim.fields["$defs"].Obj? {
      if name in Defs(slim) {
        StrippingIsExact(slim, SHARED_SPEC_NAMES, name);
      }
      StrippingTouchesDefs(slim);
    } else {
      NothingToStrip(slim);
    }
  }

  lemma StrippingTouchesDefs(schema: Json)
    requires schema.Obj?
    ensures var t := StripDefDescriptions(schema, SHARED_SPEC_NAMES);
            && t.Obj? && t.fields - {"$defs"} == schema.fields - {"$defs"} && Defs(t).Keys == Defs(schema).Keys
  {
    hide DropPropertyDescriptions;
  }

  lemma NothingToStrip(schema: Json)
    requires schema.Obj? && !("$defs" in schema.fields && schema.fields["$defs"].Obj?)
    ensures StripDefDescriptions(schema, SHARED_SPEC_NAMES) == schema && Defs(schema) == map[]
  {
  }

  // ----- When slimming raises -----

  /** The names `required` lists. */
  lemma RequiredNamesAre(m: map<string, Json>, name: string)
    ensures name in RequiredNames(m) <==> "required" in m && m["required"].Arr? && Str(name) in m["required"].items
  {
    if "required" in m && m["required"].Arr? {
      var items := m["required"].items;
      assert Str(name) in items <==> exists k :: 0 <= k < |items| && items[k] == Str(name);
    }
  }

  /** The arm says more than that it is null. */
  ghost predicate Telling(arm: Json) {
    arm.Obj? ==>
      || ("type" in arm.fields && arm.fields["type"] != Str("null"))
      || exists key :: key in arm.fields && key != "type" && key != "title" && key != "default" && key != "anyOf"
  }

  /** As schemas are written: `required` lists names, and of two arms one is telling.  What stands
      under `title` does not matter. */
  ghost predicate Ordinary(node: Json)
    decreases node, 0
  {
    match node
    case Arr(items) => forall k :: 0 <= k < |items| ==> Ordinary(items[k])
    case Obj(m) =>
      && ("required" in m && m["required"].Arr? ==>
            forall k :: 0 <= k < |m["required"].items| ==> m["required"].items[k].Str?)
      && ("anyOf" in m && m["anyOf"].Arr? && |m["anyOf"].items| == 2 ==>
            exists k :: 0 <= k < 2 && Telling(m["anyOf"].items[k]))
      && forall key :: key in m && key != "title" ==> OrdinaryField(key, m[key])
    case _ => true
  }

  ghost predicate OrdinaryField(key: string, v: Json)
    decreases v, 1
  {
    if NameMap(key) && v.Obj? then forall name :: name in v.fields ==> Ordinary(v.fields[name])
    else Ordinary(v)
  }

  lemma TellingStays(arm: Json)
    requires Telling(arm)
    ensures Slim(arm, true) != NULL_SCHEMA
  {
    SlimKeepsKind(arm, true);
    if arm.Obj? {
      var m := arm.fields;
      assert arm == Obj(m);
      var key :| key in m && (if key == "type" then m[key] != Str("null") else
                              key != "title" && key != "default" && key != "anyOf");
      KeywordsSurvive(m, true, key);
      FieldSurvives(key, m[key], RequiredNames(m));
      if key == "type" {
        SlimFieldIs(key, m[key], RequiredNames(m));
        SlimKeepsKind(m[key], true);
      }
      hide Slim, SlimField;
      assert key in Slim(arm, true).fields;
      assert key != "type" ==> key !in NULL_SCHEMA.fields;
    }
  }

  lemma {:induction false} OrdinaryDoesNotRaise(node: Json, collapse: bool)
    requires Ordinary(node)
    ensures !Raises(node, collapse)
    decreases node, 0
  {
    match node
    case Arr(items) =>
      forall k | 0 <= k < |items| ensures !Raises(items[k], true) {
        OrdinaryDoesNotRaise(items[k], true);
      }
    case Obj(m) =>
      forall key | key in m && key != "title" ensures !FieldRaises(key, m[key], RequiredNames(m)) {
        OrdinaryFieldDoesNotRaise(key, m[key], RequiredNames(m));
      }
      ArmsAreNotBothNull(m);
    case _ =>
  }

  lemma ArmsAreNotBothNull(m: map<string, Json>)
    requires "anyOf" in m && m["anyOf"].Arr? && |m["anyOf"].items| == 2 ==>
               exists k :: 0 <= k < 2 && Telling(m["anyOf"].items[k])
    ensures !TwoNulls(SlimFields(m))
  {
    SlimFieldsKeys(m);
    if "anyOf" in m {
      var v := m["anyOf"];
      FieldOf(m, "anyOf");
      SlimFieldIs("anyOf", v, RequiredNames(m));
      SlimKeepsKind(v, true);
      hide Slim, SlimField, SlimFields, Telling;
      if v.Arr? && |v.items| == 2 {
        var k :| 0 <= k < 2 && Telling(v.items[k]);
        TellingStays(v.items[k]);
        assert Slim(v, true).items[k] != NULL_SCHEMA;
      }
    }
  }

  lemma {:induction false} OrdinaryFieldDoesNotRaise(key: string, v: Json, required: set<string>)
    requires OrdinaryField(key, v)
    ensures !FieldRaises(key, v, required)
    decreases v, 1
  {
    if NameMap(key) && v.Obj? {
      forall name | name in v.fields ensures !Raises(v.fields[name], !(key == "properties" && name in required)) {
        OrdinaryDoesNotRaise(v.fields[name], !(key == "properties" && name in required));
      }
    } else {
      OrdinaryDoesNotRaise(v, true);
    }
  }

  /** Every ordinary schema is slimmed; a union of two nulls and a list in `required` raise. */
  lemma OrdinaryIsSlimmed(schema: Json)
    ensures Ordinary(schema) ==> SlimToolSchema(schema).Ok?
    ensures SlimToolSchema(Obj(map["anyOf" := Arr([NULL_SCHEMA, NULL_SCHEMA])])).Raised?
    ensures SlimToolSchema(Obj(map["required" := Arr([Arr([])])])).Raised?
  {
    if Ordinary(schema) {
      OrdinaryDoesNotRaise(schema, true);
    }
    var m := map["anyOf" := Arr([NULL_SCHEMA, NULL_SCHEMA])];
    NullSchemaStays();
    FieldOf(m, "anyOf");
    SlimFieldIs("anyOf", m["anyOf"], RequiredNames(m));
    SlimKeepsKind(m["anyOf"], true);
    assert Slim(m["anyOf"], true).items == m["anyOf"].items;
    assert TwoNulls(SlimFields(m));
    var bad := map["required" := Arr([Arr([])])];
    assert bad["required"].items[0].Arr?;
    assert Unhashable(bad["required"]);
  }

  lemma NullSchemaStays()
    ensures Slim(NULL_SCHEMA, true) == NULL_SCHEMA
  {
    var m := NULL_SCHEMA.fields;
    SlimUnfold(m, true);
    SlimFieldsKeys(m);
    FieldOf(m, "type");
    SlimFieldIs("type", m["type"], RequiredNames(m));
    assert SlimFields(m) == m;
  }
}
