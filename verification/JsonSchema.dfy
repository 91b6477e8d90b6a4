/** A small JSON Schema validator: what an advertised tool schema means.

    The keywords are `type` and `enum` (sections 6.1.1 and 6.1.2 of JSON Schema
    Validation 2020-12), `required` (section 6.5.3 of the same), `properties`,
    `additionalProperties`, `items` and `anyOf` (sections 10.3.2.1, 10.3.2.3,
    10.3.1.2 and 10.2.1.2 of JSON Schema Core 2020-12) and `$ref` into `$defs`
    (sections 8.2.3.1 and 8.2.4).  Every other keyword is an annotation. */
module JsonSchema {

  datatype Json =
    | Null
    | Bool(b: bool)
    | Num(n: real)
    | Str(s: string)
    | Arr(items: seq<Json>)
    | Obj(fields: map<string, Json>)

  const KEYWORDS: set<string> :=
    {"type", "enum", "properties", "required", "items", "additionalProperties", "anyOf", "$ref"}

  const REF_PREFIX := "#/$defs/"

  predicate HasType(name: string, i: Json) {
    match i
    case Null => name == "null"
    case Bool(_) => name == "boolean"
    case Num(n) => name == "number" || (name == "integer" && n == n.Floor as real)
    case Str(_) => name == "string"
    case Arr(_) => name == "array"
    case Obj(_) => name == "object"
  }

  ghost predicate TypeOk(v: Json, i: Json) {
    match v
    case Str(name) => HasType(name, i)
    case Arr(names) => exists k :: 0 <= k < |names| && names[k].Str? && HasType(names[k].s, i)
    case _ => true
  }

  ghost predicate EnumOk(v: Json, i: Json) {
    v.Arr? ==> exists k :: 0 <= k < |v.items| && v.items[k] == i
  }

  ghost predicate RequiredOk(v: Json, i: Json) {
    v.Arr? && i.Obj? ==> forall k :: 0 <= k < |v.items| && v.items[k].Str? ==> v.items[k].s in i.fields
  }

  /** `s` accepts `i`, following at most `fuel` references in a row. */
  ghost predicate Accepts(defs: map<string, Json>, fuel: nat, s: Json, i: Json)
    decreases fuel, s, 1
  {
    match s
    case Bool(b) => b
    case Obj(m) => forall key :: key in m ==> KeywordOk(defs, fuel, key, m[key], PropertyNames(m), i)
    case _ => true
  }

  function PropertyNames(m: map<string, Json>): set<string> {
    if "properties" in m && m["properties"].Obj? then m["properties"].fields.Keys else {}
  }

  /** One keyword with its value; only `additionalProperties` looks at a neighbour. */
  ghost predicate KeywordOk(defs: map<string, Json>, fuel: nat, key: string, v: Json, names: set<string>, i: Json)
    decreases fuel, v, 2
  {
    if key == "type" then TypeOk(v, i)
    else if key == "enum" then EnumOk(v, i)
    else if key == "required" then RequiredOk(v, i)
    else if key == "properties" then
      v.Obj? && i.Obj? ==>
        forall name :: name in v.fields && name in i.fields ==> Accepts(defs, fuel, v.fields[name], i.fields[name])
    else if key == "additionalProperties" then
      i.Obj? ==> forall name :: name in i.fields && name !in names ==> Accepts(defs, fuel, v, i.fields[name])
    else if key == "items" then
      i.Arr? ==> forall k :: 0 <= k < |i.items| ==> Accepts(defs, fuel, v, i.items[k])
    else if key == "anyOf" then
      v.Arr? ==> exists k :: 0 <= k < |v.items| && Accepts(defs, fuel, v.items[k], i)
    else if key == "$ref" then
      v.Str? && REF_PREFIX <= v.s ==>
        fuel > 0 && v.s[|REF_PREFIX|..] in defs && Accepts(defs, fuel - 1, defs[v.s[|REF_PREFIX|..]], i)
    else true
  }

  /** The definitions a schema's references point into. */
  function Defs(schema: Json): map<string, Json> {
    if schema.Obj? && "$defs" in schema.fields && schema.fields["$defs"].Obj? then schema.fields["$defs"].fields
    else map[]
  }
}
