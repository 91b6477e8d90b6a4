/** Shrinking advertised tool schemas (`src/vestigo/agent/schema_slim.py`). */
module SchemaSlim {
  import opened JsonSchema

  const NULL_SCHEMA := Obj(map["type" := Str("null")])

  const NAME_MAPS: set<string> := {"properties", "$defs", "definitions", "patternProperties"}

  const SHARED_SPEC_NAMES: set<string> := {"FilterSpec", "ChartSpec", "ChartCompareSpec", "ChartOptionsSpec"}

  function RequiredNames(m: map<string, Json>): set<string> {
    if "required" in m && m["required"].Arr? then
      set k | 0 <= k < |m["required"].items| && m["required"].items[k].Str? :: m["required"].items[k].s
    else {}
  }

  /** `_slim`, where it does not raise. */
  function Slim(node: Json, collapse: bool): Json
    decreases node, 0
  {
    match node
    case Arr(items) => Arr(seq(|items|, k requires 0 <= k < |items| => Slim(items[k], true)))
    case Obj(m) =>
      var required := RequiredNames(m);
      var out := map key | key in m && key != "title" :: SlimField(key, m[key], required);
      Obj(Finish(out, collapse))
    case _ => node
  }

  /** One entry: in a map from names to schemas every name survives. */
  function SlimField(key: string, v: Json, required: set<string>): Json
    decreases v, 1
  {
    if key in NAME_MAPS && v.Obj? then
      Obj(map name | name in v.fields :: Slim(v.fields[name], !(key == "properties" && name in required)))
    else Slim(v, true)
  }

  function SlimFields(m: map<string, Json>): map<string, Json> {
    var required := RequiredNames(m);
    map key | key in m && key != "title" :: SlimField(key, m[key], required)
  }

  /** A two-armed union with a null arm and an object arm. */
  predicate Collapsible(out: map<string, Json>) {
    "anyOf" in out && out["anyOf"].Arr? && IsNullUnion(out["anyOf"].items)
  }

  predicate IsNullUnion(arms: seq<Json>) {
    |arms| == 2 && NULL_SCHEMA in arms && OtherArm(arms) != NULL_SCHEMA && OtherArm(arms).Obj?
  }

  /** The first arm that is not the null arm. */
  function OtherArm(arms: seq<Json>): Json
    requires |arms| == 2
  {
    if arms[0] != NULL_SCHEMA then arms[0] else arms[1]
  }

  function WithoutNullDefault(out: map<string, Json>): map<string, Json> {
    if "default" in out && out["default"] == Null then out - {"default"} else out
  }

  /** The end of `_slim`: merge the surviving arm under its siblings, drop a null default. */
  function Finish(out: map<string, Json>, collapse: bool): map<string, Json> {
    if collapse && Collapsible(out) then
      WithoutNullDefault(OtherArm(out["anyOf"].items).fields + (out - {"anyOf"}))
    else WithoutNullDefault(out)
  }

  /** The source raises here: a union of two null arms has no surviving arm, and a
      list or object in `required` cannot be put in a set. */
  predicate Raises(node: Json, collapse: bool)
    decreases node, 0
  {
    match node
    case Arr(items) => exists k :: 0 <= k < |items| && Raises(items[k], true)
    case Obj(m) =>
      || ("required" in m && Unhashable(m["required"]))
      || (exists key :: key in m && key != "title" && FieldRaises(key, m[key], RequiredNames(m)))
      || (collapse && TwoNulls(SlimFields(m)))
    case _ => false
  }

  predicate Unhashable(v: Json) {
    v.Arr? && exists k :: 0 <= k < |v.items| && (v.items[k].Arr? || v.items[k].Obj?)
  }

  predicate TwoNulls(out: map<string, Json>) {
    "anyOf" in out && out["anyOf"] == Arr([NULL_SCHEMA, NULL_SCHEMA])
  }

  predicate FieldRaises(key: string, v: Json, required: set<string>)
    decreases v, 1
  {
    if key in NAME_MAPS && v.Obj? then
      exists name :: name in v.fields && Raises(v.fields[name], !(key == "properties" && name in required))
    else Raises(v, true)
  }

  datatype Slimmed = Ok(schema: Json) | Raised

  /** `slim_schema` */
  function SlimSchema(node: Json): Slimmed {
    if Raises(node, true) then Raised else Ok(Slim(node, true))
  }

  /** `strip_def_descriptions` */
  function StripDefDescriptions(schema: Json, names: set<string>): Json {
    if schema.Obj? && "$defs" in schema.fields && schema.fields["$defs"].Obj? then
      var defs := schema.fields["$defs"].fields;
      Obj(schema.fields["$defs" :=
        Obj(map name | name in defs :: if name in names then DropPropertyDescriptions(defs[name]) else defs[name])])
    else schema
  }

  function DropPropertyDescriptions(body: Json): Json {
    if body.Obj? && "properties" in body.fields && body.fields["properties"].Obj? then
      var properties := body.fields["properties"].fields;
      Obj(body.fields["properties" := Obj(map name | name in properties :: WithoutDescription(properties[name]))])
    else body
  }

  function WithoutDescription(prop: Json): Json {
    if prop.Obj? then Obj(prop.fields - {"description"}) else prop
  }

  /** `slim_tool_schema` */
  function SlimToolSchema(schema: Json): Slimmed {
    var slim := SlimSchema(schema);
    if slim.Raised? then Raised else Ok(StripDefDescriptions(slim.schema, SHARED_SPEC_NAMES))
  }
}
