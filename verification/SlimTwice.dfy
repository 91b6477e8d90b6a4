/** Slimming a slimmed schema: when it changes nothing, and when it does. */
module SlimTwice {
  import opened JsonSchema
  import opened SchemaSlim
  import opened SlimProofs

  /** Slimming neither raises nor changes anything. */
  ghost predicate Stays(node: Json, collapse: bool) {
    !Raises(node, collapse) && Slim(node, collapse) == node
  }

  ghost predicate FieldStays(key: string, v: Json, required: set<string>) {
    !FieldRaises(key, v, required) && SlimField(key, v, required) == v
  }

  /** A union that slimming collapses, or raises on. */
  ghost predicate Loose(out: map<string, Json>) {
    Collapsible(out) || TwoNulls(out)
  }

  /** `out` is a finished object: `_slim` can do nothing but collapse its union, and nothing
      to its properties but collapse theirs. */
  ghost predicate Finished(out: map<string, Json>) {
    && "title" !in out
    && ("default" in out ==> out["default"] != Null)
    && ("required" in out ==> !Unhashable(out["required"]))
    && (forall key :: key in out ==> FieldStays(key, out[key], RequiredNames(out)))
    && PropertiesFinished(out)
  }

  ghost predicate PropertiesFinished(out: map<string, Json>) {
    "properties" in out && out["properties"].Obj? ==>
      forall name :: name in out["properties"].fields ==> Stays(out["properties"].fields[name], false)
  }

  /** A finished object is its own slimming, unless its union may still collapse. */
  lemma FinishedStays(out: map<string, Json>, collapse: bool)
    requires Finished(out)
    requires collapse ==> !Loose(out)
    ensures Stays(Obj(out), collapse)
  {
    hide Slim, SlimField, RequiredNames, FieldRaises, PropertiesFinished;
    SlimUnfold(out, collapse);
    assert SlimFields(out) == out;
  }

  // ----- No union is left -----

  /** A union that was collapsed away leaves no collapsible union behind. */
  lemma {:induction false} NothingLeftToCollapse(node: Json)
    requires node.Obj?
    ensures !Collapsible(Slim(node, true).fields)
    decreases node
  {
    var m := node.fields;
    var out := SlimFields(m);
    SlimUnfold(m, true);
    assert Obj(m) == node;
    if Collapsible(out) {
      var arm := SurvivingArm(m);
      NothingLeftToCollapse(arm);
    }
  }

  /** Nor one that would raise. */
  lemma {:induction false} NothingLeftToRaise(node: Json)
    requires node.Obj? && !Raises(node, true)
    ensures !TwoNulls(Slim(node, true).fields)
    decreases node
  {
    var m := node.fields;
    var out := SlimFields(m);
    SlimUnfold(m, true);
    assert Obj(m) == node;
    if Collapsible(out) {
      var arm := SurvivingArm(m);
      ArmDoesNotRaise(m, arm, true);
      NothingLeftToRaise(arm);
      UnionOfMerged(Slim(arm, true).fields, out - {"anyOf"});
    }
  }

  /** The arm of the original union that survives, itself slimmed. */
  lemma SurvivingArm(m: map<string, Json>) returns (arm: Json)
    requires Collapsible(SlimFields(m))
    ensures arm.Obj? && Slim(arm, true) == OtherArm(SlimFields(m)["anyOf"].items)
    ensures "anyOf" in m && m["anyOf"].Arr? && arm in m["anyOf"].items
    ensures arm < Obj(m)
  {
    hide Slim;
    var v := m["anyOf"];
    SlimFieldIs("anyOf", v, RequiredNames(m));
    SlimKeepsKind(v, true);
    var arms := SlimFields(m)["anyOf"].items;
    assert arms == Slim(v, true).items;
    var k := if arms[0] != NULL_SCHEMA then 0 else 1;
    arm := v.items[k];
    SlimKeepsKind(arm, true);
    assert v < Obj(m);
  }

  lemma ArmDoesNotRaise(m: map<string, Json>, arm: Json, collapse: bool)
    requires !Raises(Obj(m), collapse)
    requires "anyOf" in m && m["anyOf"].Arr? && arm in m["anyOf"].items
    ensures !Raises(arm, true)
  {
    var v := m["anyOf"];
    assert !FieldRaises("anyOf", v, RequiredNames(m));
    var k :| 0 <= k < |v.items| && v.items[k] == arm;
    assert !Raises(v.items[k], true);
  }

  lemma UnionOfMerged(other: map<string, Json>, siblings: map<string, Json>)
    requires "anyOf" !in siblings
    ensures var merged := WithoutNullDefault(other + siblings);
            ("anyOf" in merged <==> "anyOf" in other) && ("anyOf" in merged ==> merged["anyOf"] == other["anyOf"])
  {
  }

  // ----- What `required` does -----

  lemma RequiredNamesOf(a: map<string, Json>, b: map<string, Json>)
    requires "required" in a <==> "required" in b
    requires "required" in a ==> a["required"] == b["required"]
    ensures RequiredNames(a) == RequiredNames(b)
  {
  }

  /** `required` is the same before and after slimming. */
  lemma RequiredKept(m: map<string, Json>)
    requires "required" in m ==> !Unhashable(m["required"])
    ensures "required" in m && m["required"].Arr? ==> SlimFields(m)["required"] == m["required"]
    ensures "required" in m ==> !Unhashable(SlimFields(m)["required"])
    ensures RequiredNames(SlimFields(m)) == RequiredNames(m)
  {
    hide Slim, SlimField;
    if "required" in m {
      SlimFieldIs("required", m["required"], RequiredNames(m));
      SlimKeepsKind(m["required"], true);
      if m["required"].Arr? {
        HashableFixed(m["required"]);
      }
    }
  }

  /** A field depends on `required` only when it is `properties`. */
  lemma OnlyPropertiesReadRequired(key: string, v: Json, required: set<string>, required': set<string>)
    requires key != "properties"
    ensures SlimField(key, v, required) == SlimField(key, v, required')
    ensures FieldRaises(key, v, required) == FieldRaises(key, v, required')
  {
    hide Slim, Raises;
  }

  // ----- Settled children -----

  /** One slimming settles the schema: a second one neither raises nor changes anything. */
  ghost predicate Settled(node: Json, collapse: bool)
    decreases node
  {
    match node
    case Arr(items) => forall k :: 0 <= k < |items| ==> Settled(items[k], true)
    case Obj(_) => Stays(Slim(node, collapse), collapse) && Finished(Slim(node, collapse).fields)
    case _ => true
  }

  ghost predicate FieldSettled(key: string, v: Json, required: set<string>) {
    if key in NAME_MAPS && v.Obj? then
      forall name :: name in v.fields ==> Settled(v.fields[name], !(key == "properties" && name in required))
    else Settled(v, true)
  }

  lemma {:induction false} SettledStays(node: Json, collapse: bool)
    requires Settled(node, collapse)
    ensures Stays(Slim(node, collapse), collapse)
    decreases node
  {
    if node.Arr? {
      forall k | 0 <= k < |node.items| ensures Stays(Slim(node.items[k], true), true) {
        SettledStays(node.items[k], true);
      }
    }
  }

  /** A schema slimmed where unions collapse is settled where they do not as well. */
  lemma EitherWay(node: Json, collapse: bool)
    requires Settled(node, true) && !Raises(node, true)
    ensures Stays(Slim(node, true), collapse)
  {
    SettledStays(node, true);
    SlimKeepsKind(node, true);
    if node.Obj? {
      NothingLeftToCollapse(node);
      NothingLeftToRaise(node);
      hide Slim, Raises;
      var out := Slim(node, true).fields;
      assert Obj(out) == Slim(node, true);
      FinishedStays(out, collapse);
    }
  }

  /** A property slimmed one way stays where unions do not collapse. */
  lemma PropertyStays(node: Json, collapse: bool)
    requires Settled(node, collapse) && !Raises(node, collapse)
    ensures Stays(Slim(node, collapse), false)
  {
    if collapse {
      EitherWay(node, false);
    } else {
      SettledStays(node, false);
    }
  }

  lemma FieldSettledStays(key: string, v: Json, required: set<string>)
    requires FieldSettled(key, v, required)
    ensures FieldStays(key, SlimField(key, v, required), required)
  {
    if key in NAME_MAPS && v.Obj? {
      forall name | name in v.fields
        ensures var c := !(key == "properties" && name in required);
                Stays(Slim(v.fields[name], c), c)
      {
        SettledStays(v.fields[name], !(key == "properties" && name in required));
      }
    } else {
      SettledStays(v, true);
      SlimKeepsKind(v, true);
    }
  }

  // ----- One object -----

  ghost predicate ChildrenSettled(m: map<string, Json>) {
    forall key :: key in m && key != "title" ==> FieldSettled(key, m[key], RequiredNames(m))
  }

  /** What slimming the fields of an object leaves. */
  lemma FieldsSettled(m: map<string, Json>, collapse: bool)
    requires !Raises(Obj(m), collapse) && ChildrenSettled(m)
    ensures var out := SlimFields(m);
            && out.Keys == m.Keys - {"title"}
            && RequiredNames(out) == RequiredNames(m)
            && ("required" in out ==> !Unhashable(out["required"]))
            && (forall key :: key in out ==> FieldStays(key, out[key], RequiredNames(m)))
            && PropertiesFinished(out)
            && (collapse ==> !TwoNulls(out))
  {
    hide Slim, SlimField, Raises, FieldRaises, FieldStays, FieldSettled, SlimFields, RequiredNames, Unhashable,
        TwoNulls, Stays;
    var out := SlimFields(m);
    NotRaised(m, collapse);
    RequiredKept(m);
    SlimFieldsKeys(m);
    forall key | key in out ensures FieldStays(key, out[key], RequiredNames(m)) {
      FieldOf(m, key);
      FieldSettledStays(key, m[key], RequiredNames(m));
    }
    if "properties" in m {
      FieldOf(m, "properties");
      PropertiesSettled(m["properties"], RequiredNames(m));
    }
  }

  lemma FieldOf(m: map<string, Json>, key: string)
    requires key in m && key != "title"
    ensures key in SlimFields(m) && SlimFields(m)[key] == SlimField(key, m[key], RequiredNames(m))
  {
    hide SlimField, Slim;
  }

  lemma NotRaised(m: map<string, Json>, collapse: bool)
    requires !Raises(Obj(m), collapse)
    ensures "required" in m ==> !Unhashable(m["required"])
    ensures forall key :: key in m && key != "title" ==> !FieldRaises(key, m[key], RequiredNames(m))
    ensures collapse ==> !TwoNulls(SlimFields(m))
  {
  }

  lemma PropertiesSettled(v: Json, required: set<string>)
    requires FieldSettled("properties", v, required) && !FieldRaises("properties", v, required)
    ensures var w := SlimField("properties", v, required);
            w.Obj? ==> forall name :: name in w.fields ==> Stays(w.fields[name], false)
  {
    SlimFieldIs("properties", v, required);
    SlimKeepsKind(v, true);
    if v.Obj? {
      assert "properties" in NAME_MAPS;
      forall name | name in v.fields ensures Stays(Slim(v.fields[name], name !in required), false) {
        PropertyStays(v.fields[name], name !in required);
      }
    }
  }

  /** `properties` stays exactly when each property does, required or not. */
  lemma PropertiesStay(v: Json, required: set<string>)
    requires v.Obj?
    ensures FieldStays("properties", v, required) <==>
            forall name :: name in v.fields ==> Stays(v.fields[name], name !in required)
  {
    hide Slim, Raises;
    assert "properties" in NAME_MAPS;
    var w := SlimField("properties", v, required);
    assert w == Obj(map name | name in v.fields :: Slim(v.fields[name], name !in required));
    if w == v {
      assert forall name :: name in v.fields ==> w.fields[name] == v.fields[name];
    } else {
      assert w.fields != v.fields;
    }
  }

  /** A schema that stays where unions do not collapse stays where they do, unless it is a
      loose union itself. */
  lemma StaysUnlessLoose(w: Json)
    requires Stays(w, false)
    ensures Stays(w, true) <==> !(w.Obj? && Loose(w.fields))
  {
    if w.Obj? {
      var f, g := w.fields, SlimFields(w.fields);
      SlimUnfold(f, false);
      SlimUnfold(f, true);
      assert w == Obj(f);
      assert Obj(WithoutNullDefault(g)) == Obj(f);
      assert ("anyOf" in g <==> "anyOf" in f) && ("anyOf" in g ==> g["anyOf"] == f["anyOf"]);
      if Collapsible(g) {
        LooseChanges(f, g);
      }
    } else if w.Arr? {
      SlimKeepsKind(w, true);
      SlimKeepsKind(w, false);
      hide Slim;
      assert Slim(w, true).items == Slim(w, false).items;
    }
  }

  /** The surviving arm's own union is not the union it came from. */
  lemma LooseChanges(f: map<string, Json>, g: map<string, Json>)
    requires Collapsible(g) && WithoutNullDefault(g) == f
    ensures Obj(Finish(g, true)) != Obj(f)
  {
    var arm := OtherArm(g["anyOf"].items);
    UnionOfMerged(arm.fields, g - {"anyOf"});
    var k :| 0 <= k < |g["anyOf"].items| && g["anyOf"].items[k] == arm;
    assert arm < g["anyOf"];
    if "anyOf" in arm.fields {
      assert arm.fields["anyOf"] < arm;
    }
  }

  // ----- A collapsed object -----

  /** The surviving arm supplies `properties` and requires property `name`, but the `required`
      beside the union does not, and the property is a union that slimming still touches. */
  ghost predicate Overridden(m: map<string, Json>, other: map<string, Json>, name: string) {
    && "required" in m && "properties" !in m
    && "properties" in other && other["properties"].Obj? && name in other["properties"].fields
    && name in RequiredNames(other) && name !in RequiredNames(m)
    && other["properties"].fields[name].Obj? && Loose(other["properties"].fields[name].fields)
  }

  ghost predicate Overrides(m: map<string, Json>) {
    && Collapsible(SlimFields(m))
    && exists name :: Overridden(m, OtherArm(SlimFields(m)["anyOf"].items).fields, name)
  }

  /** The arm's properties under the `required` beside the union. */
  lemma ArmPropertiesStay(m: map<string, Json>, other: map<string, Json>)
    requires Finished(other) && "properties" in other && "properties" !in m && "required" in m
    ensures FieldStays("properties", other["properties"], RequiredNames(m)) <==>
            forall name :: !Overridden(m, other, name)
  {
    var v := other["properties"];
    assert FieldStays("properties", v, RequiredNames(other));
    if v.Obj? {
      PropertiesStay(v, RequiredNames(other));
      PropertiesStay(v, RequiredNames(m));
      hide Stays, Loose, FieldStays;
      forall name | name in v.fields
        ensures Stays(v.fields[name], name !in RequiredNames(m)) <==> !Overridden(m, other, name)
      {
        assert Stays(v.fields[name], false) && Stays(v.fields[name], name !in RequiredNames(other));
        StaysUnlessLoose(v.fields[name]);
      }
      if forall name :: !Overridden(m, other, name) {
      } else {
        var name :| Overridden(m, other, name);
        assert name in v.fields;
      }
    } else {
      hide Slim, Raises;
    }
  }

  /** Properties that stand beside the union stay under any `required` they can meet. */
  lemma OwnPropertiesStay(m: map<string, Json>, collapse: bool, required: set<string>)
    requires !Raises(Obj(m), collapse) && ChildrenSettled(m) && "properties" in m
    requires "required" in m ==> required == RequiredNames(m)
    ensures FieldStays("properties", SlimFields(m)["properties"], required)
  {
    FieldsSettled(m, collapse);
    NotRaised(m, collapse);
    FieldOf(m, "properties");
    var v, w := m["properties"], SlimFields(m)["properties"];
    SlimFieldIs("properties", v, RequiredNames(m));
    SlimKeepsKind(v, true);
    if "required" !in m && v.Obj? {
      assert "properties" in NAME_MAPS;
      assert RequiredNames(m) == {};
      forall name | name in w.fields ensures Stays(w.fields[name], name !in required) {
        EitherWay(v.fields[name], name !in required);
      }
      PropertiesStay(w, required);
    } else if "required" !in m {
      hide Slim, Raises;
    }
  }

  ghost function Merged(m: map<string, Json>, other: map<string, Json>): map<string, Json> {
    WithoutNullDefault(other + (SlimFields(m) - {"anyOf"}))
  }

  /** Where the entries of the collapsed object come from. */
  lemma MergedEntries(m: map<string, Json>, other: map<string, Json>)
    requires "title" !in other && SlimFields(m).Keys == m.Keys - {"title"}
    requires RequiredNames(SlimFields(m)) == RequiredNames(m)
    ensures var result, out := Merged(m, other), SlimFields(m);
            && "title" !in result && ("default" in result ==> result["default"] != Null)
            && ("anyOf" in result <==> "anyOf" in other) && ("anyOf" in result ==> result["anyOf"] == other["anyOf"])
            && (forall key :: key in result && key in m && key != "anyOf" ==> result[key] == out[key])
            && (forall key :: key in result && (key !in m || key == "anyOf") ==>
                key in other && result[key] == other[key])
            && (forall key :: key in result ==> key in other || (key in m && key != "anyOf" && key in out))
            && ("properties" in result <==> "properties" in other || "properties" in m)
            && RequiredNames(result) == RequiredNames(if "required" in m then m else other)
  {
    hide Slim, SlimField, SlimFields, FieldStays, PropertiesFinished, Unhashable;
    UnionOfMerged(other, SlimFields(m) - {"anyOf"});
    RequiredNamesOf(Merged(m, other), if "required" in m then SlimFields(m) else other);
  }

  /** All but the properties of a collapsed object stay. */
  lemma MergedStays(m: map<string, Json>, other: map<string, Json>)
    requires !Raises(Obj(m), true) && ChildrenSettled(m) && Finished(other)
    ensures var result := Merged(m, other);
            && PropertiesFinished(result)
            && ("required" in result ==> !Unhashable(result["required"]))
            && forall key :: key in result && key != "properties" ==>
                FieldStays(key, result[key], RequiredNames(result))
  {
    var result := Merged(m, other);
    FieldsSettled(m, true);
    MergedEntries(m, other);
    hide Merged, SlimFields, Raises, ChildrenSettled, RequiredNames, Unhashable, Stays;
    forall key | key in result && key != "properties" ensures FieldStays(key, result[key], RequiredNames(result)) {
      if key in m && key != "anyOf" {
        assert FieldStays(key, result[key], RequiredNames(m));
        OnlyPropertiesReadRequired(key, result[key], RequiredNames(m), RequiredNames(result));
      } else {
        assert FieldStays(key, result[key], RequiredNames(other));
        OnlyPropertiesReadRequired(key, result[key], RequiredNames(other), RequiredNames(result));
      }
    }
  }

  lemma MergedPropertiesStay(m: map<string, Json>, other: map<string, Json>)
    requires !Raises(Obj(m), true) && ChildrenSettled(m) && Finished(other) && "properties" in Merged(m, other)
    ensures FieldStays("properties", Merged(m, other)["properties"], RequiredNames(Merged(m, other))) <==>
            forall name :: !Overridden(m, other, name)
  {
    var result := Merged(m, other);
    FieldsSettled(m, true);
    MergedEntries(m, other);
    if "properties" in m {
      OwnPropertiesStay(m, true, RequiredNames(result));
    } else if "required" in m {
      ArmPropertiesStay(m, other);
    } else {
      assert FieldStays("properties", other["properties"], RequiredNames(other));
    }
  }

  /** An object whose fields would not stay does not stay. */
  lemma StaysFieldByField(out: map<string, Json>)
    requires "title" !in out && ("default" in out ==> out["default"] != Null) && !Loose(out)
    requires "anyOf" in out ==> FieldStays("anyOf", out["anyOf"], RequiredNames(out))
    requires "properties" in out && Stays(Obj(out), true)
    ensures FieldStays("properties", out["properties"], RequiredNames(out))
  {
    hide Slim, SlimField, Raises, FieldRaises;
    NotRaised(out, true);
    SlimUnfold(out, true);
    FieldOf(out, "properties");
    SlimFieldsKeys(out);
    var again := SlimFields(out);
    if "anyOf" in out {
      FieldOf(out, "anyOf");
    }
    assert Collapsible(again) == Collapsible(out);
    assert WithoutNullDefault(again) == out;
  }

  /** The surviving arm, slimmed: finished, and no union itself. */
  lemma SettledArm(m: map<string, Json>) returns (other: map<string, Json>)
    requires !Raises(Obj(m), true) && ChildrenSettled(m) && Collapsible(SlimFields(m))
    ensures Finished(other) && !Loose(other)
    ensures Obj(other) == OtherArm(SlimFields(m)["anyOf"].items)
    ensures Slim(Obj(m), true) == Obj(Merged(m, other))
  {
    var arm := SurvivingArm(m);
    ArmDoesNotRaise(m, arm, true);
    assert FieldSettled("anyOf", m["anyOf"], RequiredNames(m));
    var k :| 0 <= k < |m["anyOf"].items| && m["anyOf"].items[k] == arm;
    assert Settled(m["anyOf"], true) && Settled(arm, true);
    hide Slim, Raises, Finished, SlimFields, ChildrenSettled;
    NothingLeftToCollapse(arm);
    NothingLeftToRaise(arm);
    other := Slim(arm, true).fields;
    SlimKeepsKind(Obj(m), true);
    assert Slim(Obj(m), true) == Obj(Merged(m, other));
  }

  /** An object with a collapsing union whose children are settled is settled, unless the
      `required` beside the union overrides its arm. */
  lemma CollapsedStaysExactlyWhen(m: map<string, Json>)
    requires !Raises(Obj(m), true) && ChildrenSettled(m) && Collapsible(SlimFields(m))
    ensures Stays(Slim(Obj(m), true), true) <==> !Overrides(m)
    ensures !Overrides(m) ==> Settled(Obj(m), true)
  {
    var other := SettledArm(m);
    var result := Merged(m, other);
    FieldsSettled(m, true);
    MergedEntries(m, other);
    MergedStays(m, other);
    if "properties" in result {
      MergedPropertiesStay(m, other);
    }
    hide Slim, Raises, SlimFields, Merged, FieldStays, PropertiesFinished, Unhashable, ChildrenSettled,
        RequiredNames, Collapsible, TwoNulls;
    assert !Loose(result) by { SameUnion(result, other); }
    if !Overrides(m) {
      assert Finished(result);
      FinishedStays(result, true);
    } else {
      assert "properties" in result;
      if Stays(Obj(result), true) {
        StaysFieldByField(result);
      }
    }
  }

  lemma SameUnion(a: map<string, Json>, b: map<string, Json>)
    requires ("anyOf" in a <==> "anyOf" in b) && ("anyOf" in a ==> a["anyOf"] == b["anyOf"])
    ensures Loose(a) == Loose(b)
  {
  }

  /** Slimming an object twice, its children settled: nothing changes and nothing raises,
      unless a collapsed union's arm is overridden. */
  lemma ObjectStaysExactlyWhen(m: map<string, Json>, collapse: bool)
    requires !Raises(Obj(m), collapse) && ChildrenSettled(m)
    ensures Stays(Slim(Obj(m), collapse), collapse) <==> !(collapse && Overrides(m))
    ensures !(collapse && Overrides(m)) ==> Settled(Obj(m), collapse)
  {
    if collapse && Collapsible(SlimFields(m)) {
      CollapsedStaysExactlyWhen(m);
    } else {
      var out := SlimFields(m);
      FieldsSettled(m, collapse);
      SlimUnfold(m, collapse);
      var result := WithoutNullDefault(out);
      assert Slim(Obj(m), collapse) == Obj(result);
      hide Slim, Raises, SlimFields, FieldStays, ChildrenSettled, Unhashable, RequiredNames;
      RequiredNamesOf(result, out);
      assert Finished(result);
      FinishedStays(result, collapse);
    }
  }

  // ----- Whole schemas -----

  /** Wherever slimming collapses a union, the arm is not overridden. */
  ghost predicate Tame(node: Json, collapse: bool)
    decreases node, 0
  {
    match node
    case Arr(items) => forall k :: 0 <= k < |items| ==> Tame(items[k], true)
    case Obj(m) =>
      && !(collapse && Overrides(m))
      && forall key :: key in m && key != "title" ==> TameField(key, m[key], RequiredNames(m))
    case _ => true
  }

  ghost predicate TameField(key: string, v: Json, required: set<string>)
    decreases v, 1
  {
    if key in NAME_MAPS && v.Obj? then
      forall name :: name in v.fields ==> Tame(v.fields[name], !(key == "properties" && name in required))
    else Tame(v, true)
  }

  /** A tame schema is settled by one slimming. */
  lemma {:induction false} TameSettles(node: Json, collapse: bool)
    requires Tame(node, collapse) && !Raises(node, collapse)
    ensures Settled(node, collapse)
    decreases node, 0
  {
    match node
    case Arr(items) =>
      forall k | 0 <= k < |items| ensures Settled(items[k], true) {
        assert !Raises(items[k], true);
        TameSettles(items[k], true);
      }
    case Obj(m) =>
      NotRaised(m, collapse);
      forall key | key in m && key != "title" ensures FieldSettled(key, m[key], RequiredNames(m)) {
        TameFieldSettles(key, m[key], RequiredNames(m));
      }
      ObjectStaysExactlyWhen(m, collapse);
    case _ =>
  }

  lemma {:induction false} TameFieldSettles(key: string, v: Json, required: set<string>)
    requires TameField(key, v, required) && !FieldRaises(key, v, required)
    ensures FieldSettled(key, v, required)
    decreases v, 1
  {
    if key in NAME_MAPS && v.Obj? {
      forall name | name in v.fields
        ensures Settled(v.fields[name], !(key == "properties" && name in required))
      {
        assert !Raises(v.fields[name], !(key == "properties" && name in required));
        TameSettles(v.fields[name], !(key == "properties" && name in required));
      }
    } else {
      TameSettles(v, true);
    }
  }

  /** Slimming a tame schema twice is slimming it once, and the second time does not raise. */
  lemma SlimIsIdempotent(schema: Json)
    requires Tame(schema, true) && SlimSchema(schema).Ok?
    ensures SlimSchema(SlimSchema(schema).schema) == SlimSchema(schema)
  {
    TameSettles(schema, true);
    SettledStays(schema, true);
  }
}
