/** Slimming keeps the meaning of a tool schema. */
module SlimProofs {
  import opened JsonSchema
  import opened SchemaSlim

  // ----- Conditions on a schema -----

  ghost predicate ObjectFree(j: Json) {
    match j
    case Obj(_) => false
    case Arr(items) => forall k :: 0 <= k < |items| ==> ObjectFree(items[k])
    case _ => true
  }

  /** Beside a null union there are annotations only. */
  ghost predicate AnnotatedUnion(m: map<string, Json>) {
    Collapsible(SlimFields(m)) ==> forall key :: key in m && key in KEYWORDS ==> key == "anyOf"
  }

  /** In every schema the validator visits, `type` and `enum` hold no objects and
      null unions stand beside annotations only. */
  ghost predicate Faithful(s: Json)
    decreases s, 1
  {
    match s
    case Obj(m) => AnnotatedUnion(m) && forall key :: key in m ==> FaithfulKeyword(key, m[key])
    case _ => true
  }

  ghost predicate FaithfulKeyword(key: string, v: Json)
    decreases v, 2
  {
    if key == "type" || key == "enum" then ObjectFree(v)
    else if key == "properties" then
      v.Obj? ==> forall name :: name in v.fields ==> Faithful(v.fields[name])
    else if key == "additionalProperties" || key == "items" then Faithful(v)
    else if key == "anyOf" then
      v.Arr? ==> forall k :: 0 <= k < |v.items| ==> Faithful(v.items[k])
    else true
  }

  ghost predicate FaithfulDefs(defs: map<string, Json>) {
    forall name :: name in defs ==> Faithful(defs[name]) && !Raises(defs[name], true)
  }

  function SlimDefs(defs: map<string, Json>): map<string, Json> {
    map name | name in defs :: Slim(defs[name], true)
  }

  // ----- Conditions on an instance -----

  /** No null arrives where a null arm is dropped. */
  ghost predicate Clean(defs: map<string, Json>, fuel: nat, s: Json, i: Json, collapse: bool)
    decreases fuel, s, 1
  {
    match s
    case Obj(m) =>
      && (collapse && Collapsible(SlimFields(m)) ==> i != Null)
      && forall key :: key in m ==> CleanKeyword(defs, fuel, key, m[key], PropertyNames(m), RequiredNames(m), i)
    case _ => true
  }

  ghost predicate CleanKeyword(defs: map<string, Json>, fuel: nat, key: string, v: Json, names: set<string>,
          required: set<string>, i: Json)
    decreases fuel, v, 2
  {
    if key == "properties" then
      v.Obj? && i.Obj? ==>
        forall name :: name in v.fields && name in i.fields ==>
          Clean(defs, fuel, v.fields[name], i.fields[name], name !in required)
    else if key == "additionalProperties" then
      i.Obj? ==> forall name :: name in i.fields && name !in names ==> Clean(defs, fuel, v, i.fields[name], true)
    else if key == "items" then
      i.Arr? ==> forall k :: 0 <= k < |i.items| ==> Clean(defs, fuel, v, i.items[k], true)
    else if key == "anyOf" then
      v.Arr? ==> forall k :: 0 <= k < |v.items| ==> Clean(defs, fuel, v.items[k], i, true)
    else if key == "$ref" then
      v.Str? && REF_PREFIX <= v.s && fuel > 0 && v.s[|REF_PREFIX|..] in defs ==>
        Clean(defs, fuel - 1, defs[v.s[|REF_PREFIX|..]], i, true)
    else true
  }

  /** `slim` implies `full`, and with `clean` they are the same. */
  ghost predicate Refines(slim: bool, full: bool, clean: bool) {
    (slim ==> full) && (clean ==> slim == full)
  }

  // ----- Slimming one node -----

  lemma SlimUnfold(m: map<string, Json>, collapse: bool)
    ensures Slim(Obj(m), collapse) == Obj(Finish(SlimFields(m), collapse))
  {
    var required := RequiredNames(m);
    assert (map key | key in m && key != "title" :: SlimField(key, m[key], required)) == SlimFields(m);
  }

  lemma {:induction false} ObjectFreeFixed(j: Json, collapse: bool)
    requires ObjectFree(j)
    ensures Slim(j, collapse) == j
  {
    match j
    case Arr(items) =>
      forall k | 0 <= k < |items| ensures Slim(items[k], true) == items[k] {
        ObjectFreeFixed(items[k], true);
      }
      assert Slim(j, collapse).items == items;
    case _ =>
  }

  lemma HashableFixed(v: Json)
    requires v.Arr? && !Unhashable(v)
    ensures Slim(v, true) == v
  {
    forall k | 0 <= k < |v.items| ensures ObjectFree(v.items[k]) {
      assert !v.items[k].Obj? && !v.items[k].Arr?;
    }
    ObjectFreeFixed(v, true);
  }

  lemma SlimKeepsKind(s: Json, collapse: bool)
    ensures s.Obj? == Slim(s, collapse).Obj?
    ensures s.Arr? ==> Slim(s, collapse).Arr? && |Slim(s, collapse).items| == |s.items|
                       && forall k :: 0 <= k < |s.items| ==> Slim(s, collapse).items[k] == Slim(s.items[k], true)
    ensures !s.Obj? && !s.Arr? ==> Slim(s, collapse) == s
  {
  }

  lemma SlimFieldIs(key: string, v: Json, required: set<string>)
    ensures key !in NAME_MAPS ==> SlimField(key, v, required) == Slim(v, true)
    ensures key == "properties" && v.Obj? ==>
              var w := SlimField(key, v, required);
              w.Obj? && w.fields.Keys == v.fields.Keys
              && forall name :: name in v.fields ==> w.fields[name] == Slim(v.fields[name], name !in required)
    ensures !v.Obj? ==> SlimField(key, v, required) == Slim(v, true)
  {
    hide Slim;
  }

  lemma PropertyNamesKept(m: map<string, Json>)
    ensures PropertyNames(SlimFields(m)) == PropertyNames(m)
  {
    hide Slim, SlimField;
    if "properties" in m {
      SlimFieldIs("properties", m["properties"], RequiredNames(m));
      SlimKeepsKind(m["properties"], true);
    }
  }

  lemma ArmsDoNotRaise(v: Json)
    requires v.Arr? && !Raises(v, true)
    ensures forall k :: 0 <= k < |v.items| ==> !Raises(v.items[k], true)
  {
  }

  lemma AnnotationOk(defs: map<string, Json>, fuel: nat, key: string, v: Json, names: set<string>, i: Json)
    requires key !in KEYWORDS
    ensures KeywordOk(defs, fuel, key, v, names, i)
  {
  }

  lemma TitleIsAnnotation()
    ensures "title" !in KEYWORDS && "default" !in KEYWORDS && "description" !in KEYWORDS && "properties" in KEYWORDS
  {
  }

  // ----- Meaning -----

  /** Slimming a schema narrows it at most by the null arms it drops. */
  lemma {:induction false} SlimMeaning(defs: map<string, Json>, fuel: nat, s: Json, i: Json, collapse: bool)
    requires Faithful(s) && FaithfulDefs(defs) && !Raises(s, collapse)
    ensures Refines(Accepts(SlimDefs(defs), fuel, Slim(s, collapse), i), Accepts(defs, fuel, s, i),
                    Clean(defs, fuel, s, i, collapse))
    decreases fuel, s, 1
  {
    if s.Obj? {
      var m := s.fields;
      var out := SlimFields(m);
      forall key | key in out
        ensures Refines(KeywordOk(SlimDefs(defs), fuel, key, out[key], PropertyNames(m), i),
                        KeywordOk(defs, fuel, key, m[key], PropertyNames(m), i),
                        CleanKeyword(defs, fuel, key, m[key], PropertyNames(m), RequiredNames(m), i))
      {
        assert FaithfulKeyword(key, m[key]);
        KeywordMeaning(defs, fuel, key, m[key], PropertyNames(m), RequiredNames(m), i);
        if key == "required" && m[key].Arr? {
          HashableFixed(m[key]);
        }
      }
      FieldsMeaning(defs, fuel, m, i);
      SlimUnfold(m, collapse);
      FinishMeaning(defs, fuel, m, i, collapse);
    } else {
      SlimKeepsKind(s, collapse);
    }
  }

  /** The keywords one by one, before the end of `_slim`. */
  lemma FieldsMeaning(defs: map<string, Json>, fuel: nat, m: map<string, Json>, i: Json)
    requires forall key :: key in SlimFields(m) ==>
      Refines(KeywordOk(SlimDefs(defs), fuel, key, SlimFields(m)[key], PropertyNames(m), i),
              KeywordOk(defs, fuel, key, m[key], PropertyNames(m), i),
              CleanKeyword(defs, fuel, key, m[key], PropertyNames(m), RequiredNames(m), i))
    ensures Refines(Accepts(SlimDefs(defs), fuel, Obj(SlimFields(m)), i), Accepts(defs, fuel, Obj(m), i),
                    Clean(defs, fuel, Obj(m), i, false))
  {
    hide KeywordOk, CleanKeyword, SlimField, PropertyNames, RequiredNames;
    PropertyNamesKept(m);
    TitleIsAnnotation();
    if "title" in m {
      AnnotationOk(defs, fuel, "title", m["title"], PropertyNames(m), i);
    }
    var out := SlimFields(m);
    if Accepts(SlimDefs(defs), fuel, Obj(out), i) {
      forall key | key in m ensures KeywordOk(defs, fuel, key, m[key], PropertyNames(m), i) {
        if key != "title" {
          assert key in out;
          assert KeywordOk(SlimDefs(defs), fuel, key, out[key], PropertyNames(out), i);
        }
      }
    }
    if Clean(defs, fuel, Obj(m), i, false) && Accepts(defs, fuel, Obj(m), i) {
      forall key | key in out ensures KeywordOk(SlimDefs(defs), fuel, key, out[key], PropertyNames(out), i) {
        assert key in m;
        assert CleanKeyword(defs, fuel, key, m[key], PropertyNames(m), RequiredNames(m), i);
      }
    }
  }

  /** One keyword. */
  lemma {:induction false} KeywordMeaning(defs: map<string, Json>, fuel: nat, key: string, v: Json,
          names: set<string>, required: set<string>, i: Json)
    requires FaithfulKeyword(key, v) && FaithfulDefs(defs) && !FieldRaises(key, v, required)
    requires key == "required" && v.Arr? ==> !Unhashable(v)
    ensures Refines(KeywordOk(SlimDefs(defs), fuel, key, SlimField(key, v, required), names, i),
                    KeywordOk(defs, fuel, key, v, names, i),
                    CleanKeyword(defs, fuel, key, v, names, required, i))
    decreases fuel, v, 2
  {
    hide Accepts, Clean, Slim, Raises, Faithful, SlimField, ObjectFree, HasType;
    var sd := SlimDefs(defs);
    SlimKeepsKind(v, true);
    SlimFieldIs(key, v, required);
    if key == "type" || key == "enum" {
      ObjectFreeFixed(v, true);
    } else if key == "required" {
      if v.Arr? {
        HashableFixed(v);
      }
    } else if key == "properties" {
      if v.Obj? && i.Obj? {
        var w := SlimField(key, v, required);
        forall name | name in v.fields && name in i.fields
          ensures Refines(Accepts(sd, fuel, w.fields[name], i.fields[name]),
                          Accepts(defs, fuel, v.fields[name], i.fields[name]),
                          Clean(defs, fuel, v.fields[name], i.fields[name], name !in required))
        {
          SlimMeaning(defs, fuel, v.fields[name], i.fields[name], name !in required);
        }
      }
    } else if key == "additionalProperties" {
      if i.Obj? {
        forall name | name in i.fields && name !in names
          ensures Refines(Accepts(sd, fuel, Slim(v, true), i.fields[name]), Accepts(defs, fuel, v, i.fields[name]),
                          Clean(defs, fuel, v, i.fields[name], true))
        {
          SlimMeaning(defs, fuel, v, i.fields[name], true);
        }
      }
    } else if key == "items" {
      if i.Arr? {
        forall k | 0 <= k < |i.items|
          ensures Refines(Accepts(sd, fuel, Slim(v, true), i.items[k]), Accepts(defs, fuel, v, i.items[k]),
                          Clean(defs, fuel, v, i.items[k], true))
        {
          SlimMeaning(defs, fuel, v, i.items[k], true);
        }
      }
    } else if key == "anyOf" {
      if v.Arr? {
        ArmsDoNotRaise(v);
        forall k | 0 <= k < |v.items|
          ensures Refines(Accepts(sd, fuel, Slim(v, true).items[k], i), Accepts(defs, fuel, v.items[k], i),
                          Clean(defs, fuel, v.items[k], i, true))
        {
          SlimMeaning(defs, fuel, v.items[k], i, true);
        }
      }
    } else if key == "$ref" {
      if v.Str? && REF_PREFIX <= v.s && fuel > 0 && v.s[|REF_PREFIX|..] in defs {
        var name := v.s[|REF_PREFIX|..];
        SlimMeaning(defs, fuel - 1, defs[name], i, true);
      }
    }
  }

  lemma NullSchemaMeans(defs: map<string, Json>, fuel: nat, i: Json)
    ensures Accepts(defs, fuel, NULL_SCHEMA, i) <==> i == Null
  {
    assert NULL_SCHEMA.fields["type"] == Str("null");
    assert Accepts(defs, fuel, NULL_SCHEMA, i) <==> KeywordOk(defs, fuel, "type", Str("null"), {}, i);
  }

  /** Annotations can be added and dropped freely. */
  lemma SameKeywords(defs: map<string, Json>, fuel: nat, a: map<string, Json>, b: map<string, Json>, i: Json)
    requires forall key :: key in KEYWORDS ==> (key in a <==> key in b)
    requires forall key :: key in KEYWORDS && key in a ==> a[key] == b[key]
    ensures Accepts(defs, fuel, Obj(a), i) == Accepts(defs, fuel, Obj(b), i)
  {
    hide Accepts;
    if Accepts(defs, fuel, Obj(a), i) {
      KeywordsDecide(defs, fuel, a, b, i);
    }
    if Accepts(defs, fuel, Obj(b), i) {
      KeywordsDecide(defs, fuel, b, a, i);
    }
  }

  lemma KeywordsDecide(defs: map<string, Json>, fuel: nat, a: map<string, Json>, b: map<string, Json>, i: Json)
    requires forall key :: key in KEYWORDS ==> (key in a <==> key in b)
    requires forall key :: key in KEYWORDS && key in a ==> a[key] == b[key]
    requires Accepts(defs, fuel, Obj(a), i)
    ensures Accepts(defs, fuel, Obj(b), i)
  {
    assert PropertyNames(a) == PropertyNames(b) by { assert "properties" in KEYWORDS; }
    hide KeywordOk, PropertyNames;
    forall key | key in b ensures KeywordOk(defs, fuel, key, b[key], PropertyNames(b), i) {
      if key in KEYWORDS {
        assert KeywordOk(defs, fuel, key, a[key], PropertyNames(a), i);
      } else {
        AnnotationOk(defs, fuel, key, b[key], PropertyNames(b), i);
      }
    }
  }

  /** A union standing among annotations accepts what one of its arms accepts. */
  lemma OnlyUnion(defs: map<string, Json>, fuel: nat, out: map<string, Json>, i: Json)
    requires "anyOf" in out && out["anyOf"].Arr?
    requires forall key :: key in out && key in KEYWORDS ==> key == "anyOf"
    ensures Accepts(defs, fuel, Obj(out), i) <==>
            exists k :: 0 <= k < |out["anyOf"].items| && Accepts(defs, fuel, out["anyOf"].items[k], i)
  {
    assert KeywordOk(defs, fuel, "anyOf", out["anyOf"], PropertyNames(out), i) <==>
           exists k :: 0 <= k < |out["anyOf"].items| && Accepts(defs, fuel, out["anyOf"].items[k], i);
    forall key | key in out && key != "anyOf" ensures KeywordOk(defs, fuel, key, out[key], PropertyNames(out), i) {
      assert key !in KEYWORDS;
    }
  }

  /** Collapsing a null union takes away null and nothing else. */
  lemma CollapseMeaning(defs: map<string, Json>, fuel: nat, out: map<string, Json>, i: Json)
    requires Collapsible(out)
    requires forall key :: key in out && key in KEYWORDS ==> key == "anyOf"
    ensures var merged := OtherArm(out["anyOf"].items).fields + (out - {"anyOf"});
            && (Accepts(defs, fuel, Obj(merged), i) ==> Accepts(defs, fuel, Obj(out), i))
            && (i != Null ==> Accepts(defs, fuel, Obj(merged), i) == Accepts(defs, fuel, Obj(out), i))
  {
    hide Accepts;
    var arms := out["anyOf"].items;
    var other := OtherArm(arms);
    var merged := other.fields + (out - {"anyOf"});
    SameKeywords(defs, fuel, merged, other.fields, i);
    assert Obj(other.fields) == other;
    OnlyUnion(defs, fuel, out, i);
    NullSchemaMeans(defs, fuel, i);
    assert forall k :: 0 <= k < 2 ==> arms[k] == other || arms[k] == NULL_SCHEMA;
    assert arms[0] == other || arms[1] == other;
  }

  lemma DefaultIsAnnotation(defs: map<string, Json>, fuel: nat, out: map<string, Json>, i: Json)
    ensures Accepts(defs, fuel, Obj(WithoutNullDefault(out)), i) == Accepts(defs, fuel, Obj(out), i)
  {
    assert "default" !in KEYWORDS;
    SameKeywords(defs, fuel, WithoutNullDefault(out), out, i);
  }

  /** The end of `_slim`, given what its keywords mean. */
  lemma FinishMeaning(defs: map<string, Json>, fuel: nat, m: map<string, Json>, i: Json, collapse: bool)
    requires AnnotatedUnion(m)
    requires Refines(Accepts(SlimDefs(defs), fuel, Obj(SlimFields(m)), i), Accepts(defs, fuel, Obj(m), i),
                     Clean(defs, fuel, Obj(m), i, false))
    ensures Refines(Accepts(SlimDefs(defs), fuel, Obj(Finish(SlimFields(m), collapse)), i),
                    Accepts(defs, fuel, Obj(m), i),
                    Clean(defs, fuel, Obj(m), i, collapse))
  {
    hide Accepts, Slim, SlimFields;
    var out, sd := SlimFields(m), SlimDefs(defs);
    assert Clean(defs, fuel, Obj(m), i, collapse) ==> Clean(defs, fuel, Obj(m), i, false);
    if collapse && Collapsible(out) {
      var merged := OtherArm(out["anyOf"].items).fields + (out - {"anyOf"});
      assert forall key :: key in out ==> key in m by { SlimFieldsKeys(m); }
      CollapseMeaning(sd, fuel, out, i);
      DefaultIsAnnotation(sd, fuel, merged, i);
    } else {
      DefaultIsAnnotation(sd, fuel, out, i);
    }
  }

  lemma SlimFieldsKeys(m: map<string, Json>)
    ensures SlimFields(m).Keys == m.Keys - {"title"}
  {
  }

  // ----- Whole tool schemas -----

  /** What a tool accepts: its schema, with references into its own definitions. */
  ghost predicate ToolAccepts(schema: Json, fuel: nat, i: Json) {
    Accepts(Defs(schema), fuel, schema, i)
  }

  ghost predicate ToolClean(schema: Json, fuel: nat, i: Json) {
    Clean(Defs(schema), fuel, schema, i, true)
  }

  /** A tool's parameter schema is an object schema, not a union with null. */
  ghost predicate ToolSchema(schema: Json) {
    schema.Obj? && Faithful(schema) && FaithfulDefs(Defs(schema)) && !Collapsible(SlimFields(schema.fields))
  }

  lemma DefsSlimmed(schema: Json)
    requires schema.Obj? && !Collapsible(SlimFields(schema.fields))
    ensures Defs(Slim(schema, true)) == SlimDefs(Defs(schema))
  {
    hide Slim, SlimField, Collapsible, RequiredNames;
    var m := schema.fields;
    assert Obj(m) == schema;
    SlimUnfold(m, true);
    FinishKeeps(SlimFields(m), "$defs");
    if "$defs" in m {
      SlimKeepsKind(m["$defs"], true);
      DefsField(m["$defs"], RequiredNames(m));
    } else {
      assert SlimDefs(map[]) == map[];
    }
  }

  lemma FinishKeeps(out: map<string, Json>, key: string)
    requires !Collapsible(out) && key != "default"
    ensures key in Finish(out, true) <==> key in out
    ensures key in out ==> Finish(out, true)[key] == out[key]
  {
    hide Collapsible;
  }

  lemma DefsField(v: Json, required: set<string>)
    ensures v.Obj? ==> SlimField("$defs", v, required) == Obj(SlimDefs(v.fields))
    ensures !v.Obj? ==> SlimField("$defs", v, required) == Slim(v, true)
  {
    hide Slim;
  }

  /** `slim_schema` narrows a tool schema at most by the null arms it drops: it never admits
      more, and it accepts the same instances when no dropped arm is given a null. */
  lemma SlimSchemaKeepsMeaning(schema: Json, fuel: nat, i: Json)
    requires ToolSchema(schema) && SlimSchema(schema).Ok?
    ensures Refines(ToolAccepts(SlimSchema(schema).schema, fuel, i), ToolAccepts(schema, fuel, i),
                    ToolClean(schema, fuel, i))
  {
    hide Accepts, Clean, Slim, Raises;
    DefsSlimmed(schema);
    SlimMeaning(Defs(schema), fuel, schema, i, true);
  }

  // ----- When no dropped arm can be given a null -----

  /** Null unions sit on object properties only. */
  ghost predicate UnionsOnProperties(s: Json, onProperty: bool)
    decreases s, 1
  {
    match s
    case Obj(m) =>
      && (!onProperty ==> !Collapsible(SlimFields(m)))
      && forall key :: key in m ==> UnionsInKeyword(key, m[key])
    case _ => true
  }

  ghost predicate UnionsInKeyword(key: string, v: Json)
    decreases v, 2
  {
    if key == "properties" then
      v.Obj? ==> forall name :: name in v.fields ==> UnionsOnProperties(v.fields[name], true)
    else if key == "additionalProperties" || key == "items" then UnionsOnProperties(v, false)
    else if key == "anyOf" then
      v.Arr? ==> forall k :: 0 <= k < |v.items| ==> UnionsOnProperties(v.items[k], false)
    else true
  }

  ghost predicate UnionsInDefs(defs: map<string, Json>) {
    forall name :: name in defs ==> UnionsOnProperties(defs[name], false)
  }

  /** Where the schema describes an object, the instance has no explicit null on a property
      that is not required. */
  ghost predicate NoStrayNull(defs: map<string, Json>, fuel: nat, s: Json, i: Json)
    decreases fuel, s, 1
  {
    match s
    case Obj(m) =>
      forall key :: key in m ==> NoStrayNullIn(defs, fuel, key, m[key], PropertyNames(m), RequiredNames(m), i)
    case _ => true
  }

  ghost predicate NoStrayNullIn(defs: map<string, Json>, fuel: nat, key: string, v: Json, names: set<string>,
          required: set<string>, i: Json)
    decreases fuel, v, 2
  {
    if key == "properties" then
      v.Obj? && i.Obj? ==>
        forall name :: name in v.fields && name in i.fields ==>
          (name !in required ==> i.fields[name] != Null) && NoStrayNull(defs, fuel, v.fields[name], i.fields[name])
    else if key == "additionalProperties" then
      i.Obj? ==> forall name :: name in i.fields && name !in names ==> NoStrayNull(defs, fuel, v, i.fields[name])
    else if key == "items" then
      i.Arr? ==> forall k :: 0 <= k < |i.items| ==> NoStrayNull(defs, fuel, v, i.items[k])
    else if key == "anyOf" then
      v.Arr? ==> forall k :: 0 <= k < |v.items| ==> NoStrayNull(defs, fuel, v.items[k], i)
    else if key == "$ref" then
      v.Str? && REF_PREFIX <= v.s && fuel > 0 && v.s[|REF_PREFIX|..] in defs ==>
        NoStrayNull(defs, fuel - 1, defs[v.s[|REF_PREFIX|..]], i)
    else true
  }

  lemma {:induction false} NoStrayNullIsClean(defs: map<string, Json>, fuel: nat, s: Json, i: Json, onProperty: bool,
          collapse: bool)
    requires UnionsOnProperties(s, onProperty) && UnionsInDefs(defs)
    requires NoStrayNull(defs, fuel, s, i)
    requires onProperty && collapse ==> i != Null
    ensures Clean(defs, fuel, s, i, collapse)
    decreases fuel, s, 1
  {
    if s.Obj? {
      var m := s.fields;
      forall key | key in m
        ensures CleanKeyword(defs, fuel, key, m[key], PropertyNames(m), RequiredNames(m), i)
      {
        assert UnionsInKeyword(key, m[key]);
        assert NoStrayNullIn(defs, fuel, key, m[key], PropertyNames(m), RequiredNames(m), i);
        NoStrayNullInKeyword(defs, fuel, key, m[key], PropertyNames(m), RequiredNames(m), i);
      }
    }
  }

  lemma {:induction false} NoStrayNullInKeyword(defs: map<string, Json>, fuel: nat, key: string, v: Json,
          names: set<string>, required: set<string>, i: Json)
    requires UnionsInKeyword(key, v) && UnionsInDefs(defs)
    requires NoStrayNullIn(defs, fuel, key, v, names, required, i)
    ensures CleanKeyword(defs, fuel, key, v, names, required, i)
    decreases fuel, v, 2
  {
    hide Clean, NoStrayNull, UnionsOnProperties;
    if key == "properties" {
      if v.Obj? && i.Obj? {
        forall name | name in v.fields && name in i.fields
          ensures Clean(defs, fuel, v.fields[name], i.fields[name], name !in required)
        {
          NoStrayNullIsClean(defs, fuel, v.fields[name], i.fields[name], true, name !in required);
        }
      }
    } else if key == "additionalProperties" {
      if i.Obj? {
        forall name | name in i.fields && name !in names ensures Clean(defs, fuel, v, i.fields[name], true) {
          NoStrayNullIsClean(defs, fuel, v, i.fields[name], false, true);
        }
      }
    } else if key == "items" {
      if i.Arr? {
        forall k | 0 <= k < |i.items| ensures Clean(defs, fuel, v, i.items[k], true) {
          NoStrayNullIsClean(defs, fuel, v, i.items[k], false, true);
        }
      }
    } else if key == "anyOf" {
      if v.Arr? {
        forall k | 0 <= k < |v.items| ensures Clean(defs, fuel, v.items[k], i, true) {
          NoStrayNullIsClean(defs, fuel, v.items[k], i, false, true);
        }
      }
    } else if key == "$ref" {
      if v.Str? && REF_PREFIX <= v.s && fuel > 0 && v.s[|REF_PREFIX|..] in defs {
        NoStrayNullIsClean(defs, fuel - 1, defs[v.s[|REF_PREFIX|..]], i, false, true);
      }
    }
  }

  // ----- The definitions' prose -----

  lemma PropertyProseIsAnnotation(defs: map<string, Json>, fuel: nat, prop: Json, i: Json)
    ensures Accepts(defs, fuel, WithoutDescription(prop), i) == Accepts(defs, fuel, prop, i)
  {
    if prop.Obj? {
      TitleIsAnnotation();
      SameKeywords(defs, fuel, prop.fields - {"description"}, prop.fields, i);
      assert Obj(prop.fields) == prop;
    }
  }

  lemma BodyProseIsAnnotation(defs: map<string, Json>, fuel: nat, body: Json, i: Json)
    ensures Accepts(defs, fuel, DropPropertyDescriptions(body), i) == Accepts(defs, fuel, body, i)
  {
    if body.Obj? && "properties" in body.fields && body.fields["properties"].Obj? {
      hide WithoutDescription;
      var m := body.fields;
      var properties := m["properties"].fields;
      var stripped := Obj(map name | name in properties :: WithoutDescription(properties[name]));
      var t := m["properties" := stripped];
      forall name | name in properties && i.Obj? && name in i.fields
        ensures Accepts(defs, fuel, stripped.fields[name], i.fields[name]) ==
            Accepts(defs, fuel, properties[name], i.fields[name])
      {
        PropertyProseIsAnnotation(defs, fuel, properties[name], i.fields[name]);
      }
      PropertiesMatter(defs, fuel, m, t, i);
    }
  }

  /** Two schemas that differ in `properties` only, with the same names and the same meaning there. */
  lemma PropertiesMatter(defs: map<string, Json>, fuel: nat, m: map<string, Json>, t: map<string, Json>, i: Json)
    requires "properties" in m && m["properties"].Obj? && "properties" in t && t["properties"].Obj?
    requires t == m["properties" := t["properties"]]
    requires m["properties"].fields.Keys == t["properties"].fields.Keys
    requires i.Obj? ==> forall name :: name in m["properties"].fields && name in i.fields ==>
               Accepts(defs, fuel, t["properties"].fields[name], i.fields[name]) ==
               Accepts(defs, fuel, m["properties"].fields[name], i.fields[name])
    ensures Accepts(defs, fuel, Obj(t), i) == Accepts(defs, fuel, Obj(m), i)
  {
    assert PropertyNames(m) == PropertyNames(t);
    var names := PropertyNames(m);
    assert KeywordOk(defs, fuel, "properties", m["properties"], names, i) ==
        KeywordOk(defs, fuel, "properties", t["properties"], names, i);
    hide KeywordOk, PropertyNames;
    assert forall key :: key in m && key != "properties" ==> t[key] == m[key];
    if Accepts(defs, fuel, Obj(m), i) {
      forall key | key in t ensures KeywordOk(defs, fuel, key, t[key], names, i) {
        assert KeywordOk(defs, fuel, key, m[key], names, i);
      }
    }
    if Accepts(defs, fuel, Obj(t), i) {
      forall key | key in m ensures KeywordOk(defs, fuel, key, m[key], names, i) {
        assert KeywordOk(defs, fuel, key, t[key], names, i);
      }
    }
  }

  /** Definitions that mean the same can be exchanged. */
  ghost predicate SameDefs(defs: map<string, Json>, defs': map<string, Json>) {
    && defs.Keys == defs'.Keys
    && forall name :: name in defs ==> defs'[name] == defs[name] || defs'[name] == DropPropertyDescriptions(defs[name])
  }

  lemma {:induction false} ExchangeDefs(defs: map<string, Json>, defs': map<string, Json>, fuel: nat, s: Json, i: Json)
    requires SameDefs(defs, defs')
    ensures Accepts(defs', fuel, s, i) == Accepts(defs, fuel, s, i)
    decreases fuel, s, 1
  {
    if s.Obj? {
      var m := s.fields;
      forall key | key in m
        ensures KeywordOk(defs', fuel, key, m[key], PropertyNames(m), i) ==
            KeywordOk(defs, fuel, key, m[key], PropertyNames(m), i)
      {
        ExchangeDefsIn(defs, defs', fuel, key, m[key], PropertyNames(m), i);
      }
    }
  }

  lemma {:induction false} ExchangeDefsIn(defs: map<string, Json>, defs': map<string, Json>, fuel: nat, key: string,
          v: Json, names: set<string>, i: Json)
    requires SameDefs(defs, defs')
    ensures KeywordOk(defs', fuel, key, v, names, i) == KeywordOk(defs, fuel, key, v, names, i)
    decreases fuel, v, 2
  {
    hide Accepts, TypeOk, EnumOk, RequiredOk, DropPropertyDescriptions;
    if key == "properties" {
      if v.Obj? && i.Obj? {
        forall name | name in v.fields && name in i.fields
          ensures Accepts(defs', fuel, v.fields[name], i.fields[name]) ==
              Accepts(defs, fuel, v.fields[name], i.fields[name])
        {
          ExchangeDefs(defs, defs', fuel, v.fields[name], i.fields[name]);
        }
      }
    } else if key == "additionalProperties" {
      if i.Obj? {
        forall name | name in i.fields && name !in names
          ensures Accepts(defs', fuel, v, i.fields[name]) == Accepts(defs, fuel, v, i.fields[name])
        {
          ExchangeDefs(defs, defs', fuel, v, i.fields[name]);
        }
      }
    } else if key == "items" {
      if i.Arr? {
        forall k | 0 <= k < |i.items|
          ensures Accepts(defs', fuel, v, i.items[k]) == Accepts(defs, fuel, v, i.items[k])
        {
          ExchangeDefs(defs, defs', fuel, v, i.items[k]);
        }
      }
    } else if key == "anyOf" {
      if v.Arr? {
        forall k | 0 <= k < |v.items|
          ensures Accepts(defs', fuel, v.items[k], i) == Accepts(defs, fuel, v.items[k], i)
        {
          ExchangeDefs(defs, defs', fuel, v.items[k], i);
        }
      }
    } else if key == "$ref" {
      if v.Str? && REF_PREFIX <= v.s && fuel > 0 && v.s[|REF_PREFIX|..] in defs {
        var name := v.s[|REF_PREFIX|..];
        ExchangeDefs(defs, defs', fuel - 1, defs[name], i);
        BodyProseIsAnnotation(defs', fuel - 1, defs[name], i);
      }
    }
  }

  /** Moving the definitions' prose elsewhere changes no tool's meaning. */
  lemma StrippingKeepsMeaning(schema: Json, names: set<string>, fuel: nat, i: Json)
    ensures ToolAccepts(StripDefDescriptions(schema, names), fuel, i) == ToolAccepts(schema, fuel, i)
  {
    if schema.Obj? && "$defs" in schema.fields && schema.fields["$defs"].Obj? {
      hide DropPropertyDescriptions, Accepts;
      var t := StripDefDescriptions(schema, names);
      assert SameDefs(Defs(schema), Defs(t));
      ExchangeDefs(Defs(schema), Defs(t), fuel, schema, i);
      assert "$defs" !in KEYWORDS;
      SameKeywords(Defs(t), fuel, t.fields, schema.fields, i);
      assert Obj(schema.fields) == schema;
    }
  }

  /** What stripping takes away: the descriptions of the properties of the named definitions,
      and nothing else. */
  lemma StrippingIsExact(schema: Json, names: set<string>, name: string)
    requires schema.Obj? && "$defs" in schema.fields && schema.fields["$defs"].Obj?
        && name in schema.fields["$defs"].fields
    ensures var t := StripDefDescriptions(schema, names);
            && t.Obj? && t.fields.Keys == schema.fields.Keys && t.fields - {"$defs"} == schema.fields - {"$defs"}
            && Defs(t).Keys == Defs(schema).Keys
            && (name !in names ==> Defs(t)[name] == Defs(schema)[name])
            && (name in names ==> OnlyProseDropped(Defs(schema)[name], Defs(t)[name]))
  {
    hide DropPropertyDescriptions;
    var body := schema.fields["$defs"].fields[name];
    DroppingIsExact(body);
    hide OnlyProseDropped;
  }

  ghost predicate OnlyProseDropped(body: Json, stripped: Json) {
    if body.Obj? && "properties" in body.fields && body.fields["properties"].Obj? then
      && stripped.Obj? && stripped.fields.Keys == body.fields.Keys
      && (forall key :: key in body.fields && key != "properties" ==> stripped.fields[key] == body.fields[key])
      && stripped.fields["properties"].Obj?
      && var before, after := body.fields["properties"].fields, stripped.fields["properties"].fields;
         before.Keys == after.Keys
         && forall p :: p in before ==>
              if before[p].Obj? then
                after[p] == Obj(map key | key in before[p].fields && key != "description" :: before[p].fields[key])
              else after[p] == before[p]
    else stripped == body
  }

  lemma DroppingIsExact(body: Json)
    ensures OnlyProseDropped(body, DropPropertyDescriptions(body))
  {
    if body.Obj? && "properties" in body.fields && body.fields["properties"].Obj? {
      var before := body.fields["properties"].fields;
      forall p | p in before && before[p].Obj?
        ensures WithoutDescription(before[p]) ==
                Obj(map key | key in before[p].fields && key != "description" :: before[p].fields[key])
      {
        assert before[p].fields - {"description"} ==
               map key | key in before[p].fields && key != "description" :: before[p].fields[key];
      }
    }
  }

  /** Both transforms together: the advertised schema admits nothing the full one rejects, and
      with null unions on properties only it accepts an instance without stray nulls exactly
      when the full one does. */
  lemma SlimToolSchemaKeepsMeaning(schema: Json, fuel: nat, i: Json)
    requires ToolSchema(schema) && SlimToolSchema(schema).Ok?
    ensures var slim := SlimToolSchema(schema).schema;
            && (ToolAccepts(slim, fuel, i) ==> ToolAccepts(schema, fuel, i))
            && (UnionsOnProperties(schema, false) && UnionsInDefs(Defs(schema))
                && NoStrayNull(Defs(schema), fuel, schema, i) ==>
                  ToolAccepts(slim, fuel, i) == ToolAccepts(schema, fuel, i))
  {
    hide Accepts, Clean, Slim, Raises, StripDefDescriptions, NoStrayNull, UnionsOnProperties, Defs;
    SlimSchemaKeepsMeaning(schema, fuel, i);
    StrippingKeepsMeaning(SlimSchema(schema).schema, SHARED_SPEC_NAMES, fuel, i);
    if UnionsOnProperties(schema, false) && UnionsInDefs(Defs(schema)) && NoStrayNull(Defs(schema), fuel, schema, i) {
      NoStrayNullIsClean(Defs(schema), fuel, schema, i, false, true);
    }
  }

  // ----- Required properties -----

  /** On a required property the union stays, and null stays admissible. */
  lemma RequiredKeepsNull(defs: map<string, Json>, fuel: nat, m: map<string, Json>)
    requires AnnotatedUnion(m) && Collapsible(SlimFields(m))
    ensures Accepts(defs, fuel, Slim(Obj(m), false), Null)
  {
    hide Accepts, Slim, SlimField;
    var out := SlimFields(m);
    SlimUnfold(m, false);
    DefaultIsAnnotation(defs, fuel, out, Null);
    OnlyUnion(defs, fuel, out, Null);
    NullSchemaMeans(defs, fuel, Null);
    var arms := out["anyOf"].items;
    var k :| 0 <= k < |arms| && arms[k] == NULL_SCHEMA;
    assert Accepts(defs, fuel, arms[k], Null);
  }

  /** Off a required property, null stays admissible only if the other arm admits it. */
  lemma OptionalDropsNull(defs: map<string, Json>, fuel: nat, m: map<string, Json>)
    requires AnnotatedUnion(m) && Collapsible(SlimFields(m))
    ensures Accepts(defs, fuel, Slim(Obj(m), true), Null) <==>
            Accepts(defs, fuel, OtherArm(SlimFields(m)["anyOf"].items), Null)
  {
    var out := SlimFields(m);
    SlimUnfold(m, true);
    SlimFieldsKeys(m);
    var other := OtherArm(out["anyOf"].items);
    hide Accepts, Slim, SlimField, SlimFields;
    var merged := other.fields + (out - {"anyOf"});
    DefaultIsAnnotation(defs, fuel, merged, Null);
    SameKeywords(defs, fuel, merged, other.fields, Null);
    assert Obj(other.fields) == other;
  }
}
