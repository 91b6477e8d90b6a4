/** The Explorer's filter state: agent specs, the URL, and the session overlays that the
    URL leaves out (`frontend/src/api/agent.ts`, `frontend/src/lib/queryParams.ts`,
    `frontend/src/lib/effectiveFilters.ts`).

    `None` stands for an absent, `undefined` or `null` field.  A URL parameter that holds
    JSON is modelled by the parsed value; one that does not parse is absent. */
module FilterState {
  import opened Options
  import opened JsonSchema
  import opened CommaLists

  datatype Mode = Wildcard | Regex

  type ValueMap = map<string, seq<string>>
  type ModeMap = map<string, Mode>

  datatype Filters = Filters(
    q: Option<string>,
    semantic: bool,
    qRegex: bool,
    artifact: Option<string>,
    artifacts: Option<seq<string>>,
    sourceId: Option<string>,
    tag: Option<string>,
    excludeTag: Option<string>,
    tagsInclude: Option<seq<string>>,
    tagsExclude: Option<seq<string>>,
    start: Option<string>,
    end: Option<string>,
    filters: Option<ValueMap>,
    exclusions: Option<ValueMap>,
    filterModes: Option<ModeMap>,
    exclusionModes: Option<ModeMap>,
    annotated: Option<seq<string>>,
    annotationTagValue: Option<string>,
    anomalyRunId: Option<string>,
    ids: Option<seq<string>>,
    collapseRoutine: bool)

  const NO_FILTERS := Filters(None, false, false, None, None, None, None, None, None, None, None, None,
                              None, None, None, None, None, None, None, None, false)

  /** What a finding carries. */
  datatype Spec = Spec(
    q: Option<string>,
    qRegex: bool,
    artifacts: Option<seq<string>>,
    sourceId: Option<string>,
    start: Option<string>,
    end: Option<string>,
    filters: Option<ValueMap>,
    exclusions: Option<ValueMap>,
    filterModes: Option<map<string, string>>,
    exclusionModes: Option<map<string, string>>,
    tagsInclude: Option<seq<string>>,
    tagsExclude: Option<seq<string>>,
    annotated: Option<seq<string>>,
    annotationTagValue: Option<string>,
    runId: Option<string>,
    eventIds: Option<seq<string>>,
    collapseRoutine: bool)

  // ----- Truthiness -----

  function TruthyText(s: Option<string>): Option<string> {
    if s == Some("") then None else s
  }

  function NonEmptyList(xs: Option<seq<string>>): Option<seq<string>> {
    if xs == Some([]) then None else xs
  }

  function NonEmptyMap<V>(m: Option<map<string, V>>): Option<map<string, V>> {
    if m.Some? && m.value.Keys == {} then None else m
  }

  // ----- Sanitizers -----

  function ModeOf(v: Json): Option<Mode> {
    if v == Str("wildcard") then Some(Wildcard) else if v == Str("regex") then Some(Regex) else None
  }

  function ModeName(m: Mode): string {
    match m
    case Wildcard => "wildcard"
    case Regex => "regex"
  }

  /** The match modes of an untrusted value: anything but the two names is dropped. */
  function CleanModes(raw: Json): Option<ModeMap> {
    if !raw.Obj? then None
    else NonEmptyMap(Some(map k | k in raw.fields && ModeOf(raw.fields[k]).Some? :: ModeOf(raw.fields[k]).value))
  }

  function Strings(vs: seq<Json>): seq<string> {
    if vs == [] then []
    else (if vs[0].Str? then [vs[0].s] else []) + Strings(vs[1..])
  }

  /** The values of one key: a scalar is a one-element list, empty lists are dropped. */
  function ValuesOf(v: Json): seq<string> {
    match v
    case Str(s) => [s]
    case Arr(items) => Strings(items)
    case _ => []
  }

  function CleanValues(raw: Json): Option<ValueMap> {
    if !raw.Obj? then None
    else NonEmptyMap(Some(map k | k in raw.fields && ValuesOf(raw.fields[k]) != [] :: ValuesOf(raw.fields[k])))
  }

  method SanitizeModes(raw: Json) returns (modes: Option<ModeMap>)
    ensures modes == CleanModes(raw)
  {
    if !raw.Obj? {
      return None;
    }
    var out: ModeMap := map[];
    var todo := raw.fields.Keys;
    while todo != {}
      invariant todo <= raw.fields.Keys
      invariant out == map k | k in raw.fields && k !in todo
          && ModeOf(raw.fields[k]).Some? :: ModeOf(raw.fields[k]).value
      decreases |todo|
    {
      var k :| k in todo;
      todo := todo - {k};
      if ModeOf(raw.fields[k]).Some? {
        out := out[k := ModeOf(raw.fields[k]).value];
      }
    }
    assert out == map k | k in raw.fields && ModeOf(raw.fields[k]).Some? :: ModeOf(raw.fields[k]).value;
    return if out.Keys != {} then Some(out) else None;
  }

  method SanitizeValueMap(raw: Json) returns (values: Option<ValueMap>)
    ensures values == CleanValues(raw)
  {
    if !raw.Obj? {
      return None;
    }
    var out: ValueMap := map[];
    var todo := raw.fields.Keys;
    while todo != {}
      invariant todo <= raw.fields.Keys
      invariant out == map k | k in raw.fields && k !in todo && ValuesOf(raw.fields[k]) != [] :: ValuesOf(raw.fields[k])
      decreases |todo|
    {
      var k :| k in todo;
      todo := todo - {k};
      var v := raw.fields[k];
      if v.Str? {
        out := out[k := [v.s]];
      } else if v.Arr? {
        var texts := Strings(v.items);
        if |texts| > 0 {
          out := out[k := texts];
        }
      }
    }
    assert out == map k | k in raw.fields && ValuesOf(raw.fields[k]) != [] :: ValuesOf(raw.fields[k]);
    return if out.Keys != {} then Some(out) else None;
  }

  // ----- JSON of the two maps -----

  function ValuesJson(m: ValueMap): Json {
    Obj(map k | k in m :: Arr(seq(|m[k]|, i requires 0 <= i < |m[k]| => Str(m[k][i]))))
  }

  function ModesJson(m: ModeMap): Json {
    Obj(map k | k in m :: Str(ModeName(m[k])))
  }

  ghost predicate NoEmptyLists(m: ValueMap) {
    forall k :: k in m ==> m[k] != []
  }

  lemma {:induction false} StringsOfStrings(xs: seq<string>)
    ensures Strings(seq(|xs|, i requires 0 <= i < |xs| => Str(xs[i]))) == xs
  {
    var js := seq(|xs|, i requires 0 <= i < |xs| => Str(xs[i]));
    if xs != [] {
      var rest := xs[1..];
      StringsOfStrings(rest);
      assert js[1..] == seq(|rest|, i requires 0 <= i < |rest| => Str(rest[i]));
    }
  }

  /** A non-empty map of values survives exactly when it holds no empty list. */
  lemma ValueMapRoundTrip(m: ValueMap)
    requires m.Keys != {}
    ensures CleanValues(ValuesJson(m)) == Some(m) <==> NoEmptyLists(m)
  {
    var raw := ValuesJson(m);
    forall k | k in m ensures ValuesOf(raw.fields[k]) == m[k] {
      StringsOfStrings(m[k]);
    }
    var clean := map k | k in raw.fields && ValuesOf(raw.fields[k]) != [] :: ValuesOf(raw.fields[k]);
    if NoEmptyLists(m) {
      assert clean == m;
    } else {
      var k :| k in m && m[k] == [];
      assert k !in clean;
    }
  }

  lemma ModeMapRoundTrip(m: ModeMap)
    requires m.Keys != {}
    ensures CleanModes(ModesJson(m)) == Some(m)
  {
    var raw := ModesJson(m);
    forall k | k in m ensures ModeOf(raw.fields[k]) == Some(m[k]) {
    }
    assert (map k | k in raw.fields && ModeOf(raw.fields[k]).Some? :: ModeOf(raw.fields[k]).value) == m;
  }

  lemma {:induction false} StringsAre(vs: seq<Json>)
    ensures forall s: string :: s in Strings(vs) <==> Str(s) in vs
  {
    if vs != [] {
      StringsAre(vs[1..]);
      assert vs == [vs[0]] + vs[1..];
    }
  }

  /** What is left of an untrusted value map, key by key: a string as a one-element list, a list cut
      down to its strings, unless there are none; and nothing at all rather than an empty map. */
  lemma SanitizedValues(raw: Json, k: string)
    ensures CleanValues(raw).Some? ==> raw.Obj? && CleanValues(raw).value.Keys != {}
    ensures raw.Obj? && k in raw.fields && (raw.fields[k].Str? ||
              (raw.fields[k].Arr? && exists s: string :: Str(s) in raw.fields[k].items)) <==>
            CleanValues(raw).Some? && k in CleanValues(raw).value
    ensures CleanValues(raw).Some? && k in CleanValues(raw).value ==>
              var values := CleanValues(raw).value[k];
              && (raw.fields[k].Str? ==> values == [raw.fields[k].s])
              && (raw.fields[k].Arr? ==> forall s: string :: s in values <==> Str(s) in raw.fields[k].items)
  {
    if raw.Obj? && k in raw.fields {
      if raw.fields[k].Arr? {
        StringsAre(raw.fields[k].items);
        var strings := Strings(raw.fields[k].items);
        if strings != [] {
          assert strings[0] in strings;
        }
      }
      var clean := map k | k in raw.fields && ValuesOf(raw.fields[k]) != [] :: ValuesOf(raw.fields[k]);
      assert k in clean <==> ValuesOf(raw.fields[k]) != [];
    }
  }

  /** The legacy shape: one string a key. */
  lemma LegacyValues(m: map<string, string>)
    requires m.Keys != {}
    ensures CleanValues(Obj(map k | k in m :: Str(m[k]))) == Some(map k | k in m :: [m[k]])
  {
    var raw := Obj(map k | k in m :: Str(m[k]));
    var clean := map k | k in raw.fields && ValuesOf(raw.fields[k]) != [] :: ValuesOf(raw.fields[k]);
    assert clean == map k | k in m :: [m[k]];
    assert clean.Keys == m.Keys;
  }

  /** Sanitizing what was sanitized changes nothing. */
  lemma SanitizedOnce(raw: Json)
    requires CleanValues(raw).Some?
    ensures CleanValues(ValuesJson(CleanValues(raw).value)) == CleanValues(raw)
  {
    ValueMapRoundTrip(CleanValues(raw).value);
  }

  /** What is left of untrusted match modes, key by key. */
  lemma SanitizedModes(raw: Json, k: string)
    ensures CleanModes(raw).Some? ==> raw.Obj? && CleanModes(raw).value.Keys != {}
    ensures CleanModes(raw).Some? && k in CleanModes(raw).value <==>
            raw.Obj? && k in raw.fields && (raw.fields[k] == Str("wildcard") || raw.fields[k] == Str("regex"))
    ensures CleanModes(raw).Some? && k in CleanModes(raw).value ==>
              (CleanModes(raw).value[k] == Wildcard <==> raw.fields[k] == Str("wildcard"))
  {
    assert "wildcard"[0] != "regex"[0];
    if raw.Obj? && k in raw.fields {
      var clean := map k | k in raw.fields && ModeOf(raw.fields[k]).Some? :: ModeOf(raw.fields[k]).value;
      assert k in clean <==> ModeOf(raw.fields[k]).Some?;
    }
  }

  // ----- The URL -----

  datatype Name =
    | Q | QMode | QRegex | Artifact | Artifacts | SourceId | Tag | ExcludeTag | TagsInclude | TagsExclude
    | Start | End | FilterMap | ExclusionMap | FilterModes | ExclusionModes | Annotated | AnnotationTagValue

  datatype Param = Plaintext(text: string) | Data(json: Json)

  type Params = map<Name, Param>

  /** What `filtersToParams` puts under a name. */
  function Printed(f: Filters, n: Name): Option<Param> {
    match n
    case Q => TextParam(f.q)
    case QMode => if f.semantic then Some(Plaintext("semantic")) else None
    case QRegex => if f.qRegex then Some(Plaintext("1")) else None
    case Artifact => TextParam(f.artifact)
    case Artifacts => ListParam(f.artifacts)
    case SourceId => TextParam(f.sourceId)
    case Tag => TextParam(f.tag)
    case ExcludeTag => TextParam(f.excludeTag)
    case TagsInclude => ListParam(f.tagsInclude)
    case TagsExclude => ListParam(f.tagsExclude)
    case Start => TextParam(f.start)
    case End => TextParam(f.end)
    case FilterMap => ValuesParam(f.filters)
    case ExclusionMap => ValuesParam(f.exclusions)
    case FilterModes => ModesParam(f.filterModes)
    case ExclusionModes => ModesParam(f.exclusionModes)
    case Annotated => ListParam(f.annotated)
    case AnnotationTagValue => TextParam(f.annotationTagValue)
  }

  function TextParam(s: Option<string>): Option<Param> {
    if s.Some? && s.value != "" then Some(Plaintext(s.value)) else None
  }

  function ListParam(xs: Option<seq<string>>): Option<Param> {
    if xs.Some? && xs.value != [] then Some(Plaintext(Join(xs.value))) else None
  }

  function ValuesParam(m: Option<ValueMap>): Option<Param> {
    if m.Some? && m.value.Keys != {} then Some(Data(ValuesJson(m.value))) else None
  }

  function ModesParam(m: Option<ModeMap>): Option<Param> {
    if m.Some? && m.value.Keys != {} then Some(Data(ModesJson(m.value))) else None
  }

  /** The order in which the parameters are set. */
  ghost function Turn(n: Name): nat {
    match n
    case Q => 0
    case QMode => 1
    case QRegex => 2
    case Artifact => 3
    case Artifacts => 4
    case SourceId => 5
    case Tag => 6
    case ExcludeTag => 7
    case TagsInclude => 8
    case TagsExclude => 9
    case Start => 10
    case End => 11
    case FilterMap => 12
    case ExclusionMap => 13
    case FilterModes => 14
    case ExclusionModes => 15
    case Annotated => 16
    case AnnotationTagValue => 17
  }

  /** `p` holds what is printed under the names whose turn is over, and nothing else. */
  ghost predicate PrintedBefore(f: Filters, p: Params, turn: nat) {
    && (forall n :: n in p <==> Turn(n) < turn && Printed(f, n).Some?)
    && (forall n :: n in p ==> p[n] == Printed(f, n).value)
  }

  lemma TurnIsOrder(n: Name, n': Name)
    ensures Turn(n) == Turn(n') <==> n == n'
    ensures Turn(n) < 18
  {
  }

  /** `if (...) p.set(n, ...)` */
  method Put(f: Filters, p: Params, ghost turn: nat, n: Name, v: Option<Param>) returns (p': Params)
    requires PrintedBefore(f, p, turn) && Turn(n) == turn && v == Printed(f, n)
    ensures PrintedBefore(f, p', turn + 1)
  {
    hide Printed, Turn;
    p' := if v.Some? then p[n := v.value] else p;
    forall n' ensures n' in p' <==> Turn(n') < turn + 1 && Printed(f, n').Some? {
      TurnIsOrder(n, n');
    }
  }

  /** The search and the source. */
  method PutSearch(f: Filters, p: Params) returns (p': Params)
    requires PrintedBefore(f, p, 0)
    ensures PrintedBefore(f, p', 6)
  {
    hide PrintedBefore, TextParam, ListParam, ValuesParam, ModesParam;
    p' := Put(f, p, 0, Q, TextParam(f.q));
    p' := Put(f, p', 1, QMode, if f.semantic then Some(Plaintext("semantic")) else None);
    p' := Put(f, p', 2, QRegex, if f.qRegex then Some(Plaintext("1")) else None);
    p' := Put(f, p', 3, Artifact, TextParam(f.artifact));
    p' := Put(f, p', 4, Artifacts, ListParam(f.artifacts));
    p' := Put(f, p', 5, SourceId, TextParam(f.sourceId));
  }

  /** The tags and the time range. */
  method PutTags(f: Filters, p: Params) returns (p': Params)
    requires PrintedBefore(f, p, 6)
    ensures PrintedBefore(f, p', 12)
  {
    hide PrintedBefore, TextParam, ListParam, ValuesParam, ModesParam;
    p' := Put(f, p, 6, Tag, TextParam(f.tag));
    p' := Put(f, p', 7, ExcludeTag, TextParam(f.excludeTag));
    p' := Put(f, p', 8, TagsInclude, ListParam(f.tagsInclude));
    p' := Put(f, p', 9, TagsExclude, ListParam(f.tagsExclude));
    p' := Put(f, p', 10, Start, TextParam(f.start));
    p' := Put(f, p', 11, End, TextParam(f.end));
  }

  /** The field filters. */
  method PutMaps(f: Filters, p: Params) returns (p': Params)
    requires PrintedBefore(f, p, 12)
    ensures PrintedBefore(f, p', 16)
  {
    hide PrintedBefore, TextParam, ListParam, ValuesParam, ModesParam;
    p' := Put(f, p, 12, FilterMap, ValuesParam(f.filters));
    p' := Put(f, p', 13, ExclusionMap, ValuesParam(f.exclusions));
    p' := Put(f, p', 14, FilterModes, ModesParam(f.filterModes));
    p' := Put(f, p', 15, ExclusionModes, ModesParam(f.exclusionModes));
  }

  /** The annotations. */
  method PutAnnotations(f: Filters, p: Params) returns (p': Params)
    requires PrintedBefore(f, p, 16)
    ensures PrintedBefore(f, p', 18)
  {
    hide PrintedBefore, TextParam, ListParam, ValuesParam, ModesParam;
    p' := Put(f, p, 16, Annotated, ListParam(f.annotated));
    p' := Put(f, p', 17, AnnotationTagValue, TextParam(f.annotationTagValue));
  }

  /** `filtersToParams`: one parameter after the other. */
  method FiltersToParams(f: Filters) returns (p: Params)
    ensures IsPrinted(f, p)
  {
    hide PrintedBefore, IsPrinted;
    NothingPrinted(f);
    p := PutSearch(f, map[]);
    p := PutTags(f, p);
    p := PutMaps(f, p);
    p := PutAnnotations(f, p);
    AllPrinted(f, p);
  }

  lemma NothingPrinted(f: Filters)
    ensures PrintedBefore(f, map[], 0)
  {
  }

  lemma AllPrinted(f: Filters, p: Params)
    requires PrintedBefore(f, p, 18)
    ensures IsPrinted(f, p)
  {
    hide Printed;
  }

  /** `params.get(n)`, when it holds text that is not empty. */
  function TextOf(p: Params, n: Name): Option<string> {
    if n in p && p[n].Plaintext? && p[n].text != "" then Some(p[n].text) else None
  }

  function ListOf(p: Params, n: Name): Option<seq<string>> {
    if TextOf(p, n).Some? then Some(ParseList(TextOf(p, n).value)) else None
  }

  function ValuesIn(p: Params, n: Name): Option<ValueMap> {
    if n in p && p[n].Data? then CleanValues(p[n].json) else None
  }

  function ModesIn(p: Params, n: Name): Option<ModeMap> {
    if n in p && p[n].Data? then CleanModes(p[n].json) else None
  }

  predicate IsAnnotation(t: string) {
    t == "tag" || t == "anomaly"
  }

  function AnnotatedIn(p: Params): Option<seq<string>> {
    var text := TextOf(p, Annotated);
    if text.Some? then Some(Filter(IsAnnotation, TrimAll(Split(text.value)))) else None
  }

  /** What `paramsToFilters` reads. */
  function Parsed(p: Params): Filters {
    var semantic := TextOf(p, QMode) == Some("semantic");
    Filters(
      TextOf(p, Q), semantic, TextOf(p, QRegex) == Some("1") && !semantic,
      TextOf(p, Artifact), ListOf(p, Artifacts), TextOf(p, SourceId), TextOf(p, Tag), TextOf(p, ExcludeTag),
      ListOf(p, TagsInclude), ListOf(p, TagsExclude), TextOf(p, Start), TextOf(p, End),
      ValuesIn(p, FilterMap), ValuesIn(p, ExclusionMap), ModesIn(p, FilterModes), ModesIn(p, ExclusionModes),
      AnnotatedIn(p),
      TextOf(p, AnnotationTagValue), None, None, false)
  }

  /** `paramsToFilters`: one field after the other. */
  method ParamsToFilters(p: Params) returns (f: Filters)
    ensures f == Parsed(p)
  {
    hide CleanValues, CleanModes, ParseList, Filter, Split, TextOf;
    f := NO_FILTERS;
    f := f.(q := TextOf(p, Q));
    f := f.(semantic := TextOf(p, QMode) == Some("semantic"));
    f := f.(qRegex := TextOf(p, QRegex) == Some("1") && !f.semantic);
    f := f.(artifact := TextOf(p, Artifact));
    f := f.(artifacts := ListOf(p, Artifacts));
    f := f.(sourceId := TextOf(p, SourceId), tag := TextOf(p, Tag), excludeTag := TextOf(p, ExcludeTag));
    f := f.(tagsInclude := ListOf(p, TagsInclude), tagsExclude := ListOf(p, TagsExclude));
    f := f.(start := TextOf(p, Start), end := TextOf(p, End));
    var filters := ReadValues(p, FilterMap);
    var exclusions := ReadValues(p, ExclusionMap);
    f := f.(filters := filters, exclusions := exclusions);
    var filterModes := ReadModeMap(p, FilterModes);
    var exclusionModes := ReadModeMap(p, ExclusionModes);
    f := f.(filterModes := filterModes, exclusionModes := exclusionModes);
    f := f.(annotated := AnnotatedIn(p));
    f := f.(annotationTagValue := TextOf(p, AnnotationTagValue));
  }

  method ReadValues(p: Params, n: Name) returns (m: Option<ValueMap>)
    ensures m == ValuesIn(p, n)
  {
    m := None;
    if n in p && p[n].Data? {
      m := SanitizeValueMap(p[n].json);
    }
  }

  method ReadModeMap(p: Params, n: Name) returns (m: Option<ModeMap>)
    ensures m == ModesIn(p, n)
  {
    m := None;
    if n in p && p[n].Data? {
      m := SanitizeModes(p[n].json);
    }
  }

  // ----- Overlays -----

  datatype Overlays = Overlays(anomalyRunId: Option<string>, appliedIds: Option<seq<string>>,
                               semanticSearchIds: Option<seq<string>>, collapseRoutine: bool)

  /** `computeEffectiveFilters` */
  function Effective(f: Filters, o: Overlays): Filters {
    var f1 := if f.annotated.Some? && "anomaly" in f.annotated.value && TruthyText(o.anomalyRunId).Some?
              then f.(anomalyRunId := o.anomalyRunId) else f;
    var f2 := if o.appliedIds.Some? then f1.(ids := o.appliedIds)
              else if o.semanticSearchIds.Some? then f1.(q := None, ids := o.semanticSearchIds)
              else f1;
    if o.collapseRoutine then f2.(collapseRoutine := true) else f2
  }

  /** `overlaysFromApplied`, with no semantic search running. */
  function OverlaysFromApplied(f: Filters): Overlays {
    Overlays(f.anomalyRunId, NonEmptyList(f.ids), None, f.collapseRoutine)
  }

  /** What the overlays change, and when: nothing but these four fields, and nothing at all without
      an overlay. */
  lemma OverlaysMerge(f: Filters, o: Overlays)
    ensures var g := Effective(f, o);
            && UrlPart(g.(q := f.q)) == UrlPart(f)
            && g.anomalyRunId == (if f.annotated.Some? && "anomaly" in f.annotated.value
                                     && o.anomalyRunId != None && o.anomalyRunId != Some("")
                                  then o.anomalyRunId else f.anomalyRunId)
            && (o.appliedIds.Some? ==> g.ids == o.appliedIds)
            && (o.appliedIds == None && o.semanticSearchIds.Some? ==> g.ids == o.semanticSearchIds && g.q == None)
            && (o.appliedIds.Some? || o.semanticSearchIds == None ==> g.q == f.q)
            && (o.appliedIds == None && o.semanticSearchIds == None ==> g.ids == f.ids)
            && g.collapseRoutine == (f.collapseRoutine || o.collapseRoutine)
  {
  }

  // ----- Findings -----

  function SpecModes(m: Option<map<string, string>>): Option<ModeMap> {
    if m.None? then None
    else NonEmptyMap(Some(map k | k in m.value && ModeOf(Str(m.value[k])).Some? :: ModeOf(Str(m.value[k])).value))
  }

  /** What `specToEventFilters` makes of a finding. */
  function FromSpec(s: Spec): Filters {
    Filters(
      TruthyText(s.q), false, s.qRegex,
      None, NonEmptyList(s.artifacts), TruthyText(s.sourceId), None, None,
      NonEmptyList(s.tagsInclude), NonEmptyList(s.tagsExclude), TruthyText(s.start), TruthyText(s.end),
      NonEmptyMap(s.filters), NonEmptyMap(s.exclusions), SpecModes(s.filterModes), SpecModes(s.exclusionModes),
      NonEmptyList(s.annotated), TruthyText(s.annotationTagValue), TruthyText(s.runId), NonEmptyList(s.eventIds),
      s.collapseRoutine)
  }

  /** A finding without empty fields is taken over as it is, its modes as far as they are known. */
  lemma FindingIsTakenOver(s: Spec, k: string)
    requires s.q != Some("") && s.sourceId != Some("") && s.start != Some("") && s.end != Some("")
    requires s.annotationTagValue != Some("") && s.runId != Some("")
    requires s.artifacts != Some([]) && s.tagsInclude != Some([]) && s.tagsExclude != Some([])
    requires s.annotated != Some([]) && s.eventIds != Some([])
    requires (s.filters.Some? ==> s.filters.value.Keys != {}) && (s.exclusions.Some? ==> s.exclusions.value.Keys != {})
    ensures var f := FromSpec(s);
            && f.q == s.q && f.qRegex == s.qRegex && !f.semantic && f.sourceId == s.sourceId
            && f.artifacts == s.artifacts && f.tagsInclude == s.tagsInclude && f.tagsExclude == s.tagsExclude
            && f.start == s.start && f.end == s.end && f.filters == s.filters && f.exclusions == s.exclusions
            && f.annotated == s.annotated && f.annotationTagValue == s.annotationTagValue
            && f.anomalyRunId == s.runId && f.ids == s.eventIds && f.collapseRoutine == s.collapseRoutine
            && f.artifact == f.tag == f.excludeTag == None
            && KnownMode(s.filterModes, f.filterModes, k) && KnownMode(s.exclusionModes, f.exclusionModes, k)
  {
    hide ModeOf, KnownMode;
    SpecModesAre(s.filterModes, k);
    SpecModesAre(s.exclusionModes, k);
  }

  /** A key has a mode exactly when its text names one, and then that one. */
  ghost predicate KnownMode(given: Option<map<string, string>>, read: Option<ModeMap>, k: string) {
    && (read.Some? && k in read.value <==>
          given.Some? && k in given.value && (given.value[k] == "wildcard" || given.value[k] == "regex"))
    && (read.Some? && k in read.value ==>
          given.Some? && k in given.value && (read.value[k] == Wildcard <==> given.value[k] == "wildcard"))
  }

  lemma SpecModesAre(m: Option<map<string, string>>, k: string)
    ensures KnownMode(m, SpecModes(m), k)
  {
    assert "wildcard"[0] != "regex"[0];
    if m.Some? {
      var clean := map k | k in m.value && ModeOf(Str(m.value[k])).Some? :: ModeOf(Str(m.value[k])).value;
      assert k in clean <==> k in m.value && ModeOf(Str(m.value[k])).Some?;
    }
  }

  /** `specToEventFilters` */
  method SpecToEventFilters(s: Spec) returns (f: Filters)
    ensures f == FromSpec(s)
  {
    hide SpecModes, NonEmptyMap, NonEmptyList, TruthyText;
    f := NO_FILTERS;
    f := f.(q := TruthyText(s.q), qRegex := s.qRegex);
    f := f.(artifacts := NonEmptyList(s.artifacts));
    f := f.(sourceId := TruthyText(s.sourceId), start := TruthyText(s.start), end := TruthyText(s.end));
    f := f.(filters := NonEmptyMap(s.filters), exclusions := NonEmptyMap(s.exclusions));
    var filterModes := ReadModes(s.filterModes);
    var exclusionModes := ReadModes(s.exclusionModes);
    f := f.(filterModes := filterModes, exclusionModes := exclusionModes);
    f := f.(tagsInclude := NonEmptyList(s.tagsInclude), tagsExclude := NonEmptyList(s.tagsExclude));
    f := f.(annotated := NonEmptyList(s.annotated), annotationTagValue := TruthyText(s.annotationTagValue));
    f := f.(anomalyRunId := TruthyText(s.runId), ids := NonEmptyList(s.eventIds));
    f := f.(collapseRoutine := s.collapseRoutine);
  }

  /** The helper `modes` of `specToEventFilters`. */
  method ReadModes(m: Option<map<string, string>>) returns (modes: Option<ModeMap>)
    ensures modes == SpecModes(m)
  {
    if m.None? {
      return None;
    }
    var out: ModeMap := map[];
    var todo := m.value.Keys;
    while todo != {}
      invariant todo <= m.value.Keys
      invariant out == map k | k in m.value && k !in todo
          && ModeOf(Str(m.value[k])).Some? :: ModeOf(Str(m.value[k])).value
      decreases |todo|
    {
      var k :| k in todo;
      todo := todo - {k};
      if ModeOf(Str(m.value[k])).Some? {
        out := out[k := ModeOf(Str(m.value[k])).value];
      }
    }
    assert out == map k | k in m.value && ModeOf(Str(m.value[k])).Some? :: ModeOf(Str(m.value[k])).value;
    return if out.Keys != {} then Some(out) else None;
  }

  // ----- The round trip through the URL -----

  ghost predicate PlainList(xs: Option<seq<string>>) {
    xs.Some? ==> xs.value != [] && AllPlain(xs.value)
  }

  ghost predicate GoodText(s: Option<string>) {
    s != Some("")
  }

  ghost predicate GoodValues(m: Option<ValueMap>) {
    m.Some? ==> m.value.Keys != {} && NoEmptyLists(m.value)
  }

  ghost predicate GoodModes(m: Option<ModeMap>) {
    m.Some? ==> m.value.Keys != {}
  }

  ghost predicate KnownAnnotations(xs: seq<string>) {
    forall k :: 0 <= k < |xs| ==> xs[k] == "tag" || xs[k] == "anomaly"
  }

  lemma KnownIs(xs: seq<string>)
    ensures KnownAnnotations(xs) <==> forall k :: 0 <= k < |xs| ==> IsAnnotation(xs[k])
  {
  }

  ghost predicate AnnotationList(xs: Option<seq<string>>) {
    xs.Some? ==> xs.value != [] && KnownAnnotations(xs.value)
  }

  /** What the URL can carry. */
  ghost predicate Carried(f: Filters) {
    && GoodText(f.q) && GoodText(f.artifact) && GoodText(f.sourceId) && GoodText(f.tag) && GoodText(f.excludeTag)
    && GoodText(f.start) && GoodText(f.end) && GoodText(f.annotationTagValue)
    && PlainList(f.artifacts) && PlainList(f.tagsInclude) && PlainList(f.tagsExclude)
    && GoodValues(f.filters) && GoodValues(f.exclusions) && GoodModes(f.filterModes) && GoodModes(f.exclusionModes)
    && AnnotationList(f.annotated)
    && !(f.semantic && f.qRegex)
  }

  /** The fields the URL leaves out, removed. */
  function UrlPart(f: Filters): Filters {
    f.(anomalyRunId := None, ids := None, collapseRoutine := false)
  }

  ghost predicate IsPrinted(f: Filters, p: Params) {
    && (forall n :: n in p <==> Printed(f, n).Some?)
    && (forall n :: n in p ==> p[n] == Printed(f, n).value)
  }

  lemma TextSurvives(p: Params, n: Name, s: Option<string>)
    requires if TextParam(s).Some? then n in p && p[n] == TextParam(s).value else n !in p
    ensures TextOf(p, n) == s <==> GoodText(s)
  {
  }

  lemma ListSurvives(p: Params, n: Name, xs: Option<seq<string>>)
    requires if ListParam(xs).Some? then n in p && p[n] == ListParam(xs).value else n !in p
    ensures ListOf(p, n) == xs <==> PlainList(xs)
  {
    hide ParseList, Join;
    if xs.Some? && xs.value != [] {
      ListRoundTrip(xs.value);
    }
  }

  lemma ValuesSurvive(p: Params, n: Name, m: Option<ValueMap>)
    requires if ValuesParam(m).Some? then n in p && p[n] == ValuesParam(m).value else n !in p
    ensures ValuesIn(p, n) == m <==> GoodValues(m)
  {
    hide CleanValues, ValuesJson;
    if m.Some? && m.value.Keys != {} {
      ValueMapRoundTrip(m.value);
    }
  }

  lemma ModesSurvive(p: Params, n: Name, m: Option<ModeMap>)
    requires if ModesParam(m).Some? then n in p && p[n] == ModesParam(m).value else n !in p
    ensures ModesIn(p, n) == m <==> GoodModes(m)
  {
    hide CleanModes, ModesJson;
    if m.Some? && m.value.Keys != {} {
      ModeMapRoundTrip(m.value);
    }
  }

  lemma AnnotationIsPlain(t: string)
    requires IsAnnotation(t)
    ensures Plain(t) && Trimmed(t)
  {
  }

  lemma AnnotatedSurvives(p: Params, xs: Option<seq<string>>)
    requires if ListParam(xs).Some? then Annotated in p && p[Annotated] == ListParam(xs).value else Annotated !in p
    ensures AnnotatedIn(p) == xs <==> AnnotationList(xs)
  {
    hide IsAnnotation, Plain, Join, Split, KnownAnnotations;
    if xs.Some? && xs.value != [] {
      KnownIs(xs.value);
      if AnnotationList(xs) {
        forall k | 0 <= k < |xs.value| ensures Plain(xs.value[k]) && Trimmed(xs.value[k]) {
          AnnotationIsPlain(xs.value[k]);
        }
        JoinOfPlain(xs.value);
        SplitJoin(xs.value);
        TrimAllKeeps(xs.value);
        FilterKeepsAll(IsAnnotation, xs.value);
      }
      FilterMembers(IsAnnotation, TrimAll(Split(Join(xs.value))));
    }
  }

  lemma SwitchesSurvive(f: Filters, p: Params)
    requires IsPrinted(f, p)
    ensures TextOf(p, QMode) == Some("semantic") <==> f.semantic
    ensures TextOf(p, QRegex) == Some("1") <==> f.qRegex
  {
    assert QMode in p <==> Printed(f, QMode).Some?;
    assert QRegex in p <==> Printed(f, QRegex).Some?;
  }

  /** A filter state survives the URL exactly when the URL can carry it. */
  lemma UrlRoundTrip(f: Filters, p: Params)
    requires IsPrinted(f, p)
    ensures Parsed(p) == UrlPart(f) <==> Carried(f)
  {
    PrintedAt(f, p, Artifacts);
    PrintedAt(f, p, TagsInclude);
    PrintedAt(f, p, TagsExclude);
    PrintedAt(f, p, Annotated);
    hide TextOf, ListOf, ValuesIn, ModesIn, AnnotatedIn, TextParam, ListParam, IsPrinted;
    ListSurvives(p, Artifacts, f.artifacts);
    ListSurvives(p, TagsInclude, f.tagsInclude);
    ListSurvives(p, TagsExclude, f.tagsExclude);
    AnnotatedSurvives(p, f.annotated);
    hide Printed;
    hide GoodText, PlainList, GoodValues, GoodModes, AnnotationList, Parsed, UrlPart;
    SwitchesSurvive(f, p);
    FieldByField(f, p);
    PrintedText(f, p);
    PrintedMaps(f, p);
  }

  /** No list came out empty, as one does from a parameter that holds only commas or blanks. */
  ghost predicate NoBlankList(f: Filters) {
    f.artifacts != Some([]) && f.tagsInclude != Some([]) && f.tagsExclude != Some([]) && f.annotated != Some([])
  }

  lemma ReadIsPlain(p: Params, n: Name)
    ensures GoodText(TextOf(p, n))
    ensures PlainList(ListOf(p, n)) <==> ListOf(p, n) != Some([])
    ensures GoodValues(ValuesIn(p, n)) && GoodModes(ModesIn(p, n))
  {
    hide ParseList, CleanModes, CleanValues, ValuesJson;
    if TextOf(p, n).Some? {
      ParsedIsPlain(TextOf(p, n).value);
    }
    if ValuesIn(p, n).Some? {
      var raw := p[n].json;
      SanitizedValues(raw, "");
      CleanHasNoEmptyLists(raw);
    }
    if ModesIn(p, n).Some? {
      SanitizedModes(p[n].json, "");
    }
  }

  lemma CleanHasNoEmptyLists(raw: Json)
    ensures CleanValues(raw).Some? ==> NoEmptyLists(CleanValues(raw).value)
  {
    hide ValuesOf;
  }

  lemma ReadAnnotations(p: Params)
    ensures AnnotationList(AnnotatedIn(p)) <==> AnnotatedIn(p) != Some([])
  {
    hide IsAnnotation, Split, KnownAnnotations;
    if TextOf(p, Annotated).Some? {
      KnownIs(AnnotatedIn(p).value);
      FilterMembers(IsAnnotation, TrimAll(Split(TextOf(p, Annotated).value)));
    }
  }

  /** Whatever stands in the URL, reading it, printing what was read and reading that again changes
      nothing, if and only if no list came out empty. */
  lemma UrlSettles(p: Params, again: Params)
    requires IsPrinted(Parsed(p), again)
    ensures Parsed(again) == Parsed(p) <==> NoBlankList(Parsed(p))
  {
    forall n ensures GoodText(TextOf(p, n)) && (PlainList(ListOf(p, n)) <==> ListOf(p, n) != Some([]))
        && GoodValues(ValuesIn(p, n)) && GoodModes(ModesIn(p, n)) {
      ReadIsPlain(p, n);
    }
    ReadAnnotations(p);
    hide TextOf, ListOf, ValuesIn, ModesIn, AnnotatedIn, IsPrinted, GoodText, PlainList, GoodValues, GoodModes,
        AnnotationList;
    assert UrlPart(Parsed(p)) == Parsed(p);
    UrlRoundTrip(Parsed(p), again);
  }

  /** No empty text and no empty map is printed; an empty text can only come from a list of one. */
  lemma NothingEmptyIsPrinted(f: Filters, n: Name)
    requires Printed(f, n).Some?
    ensures Printed(f, n) == Some(Plaintext("")) ==>
              || f.artifacts == Some([""]) || f.tagsInclude == Some([""]) || f.tagsExclude == Some([""])
              || f.annotated == Some([""])
    ensures Printed(f, n).value.Data? ==>
              Printed(f, n).value.json.Obj? && Printed(f, n).value.json.fields.Keys != {}
  {
    ListPrintsText(f.artifacts);
    ListPrintsText(f.tagsInclude);
    ListPrintsText(f.tagsExclude);
    ListPrintsText(f.annotated);
    hide ListParam;
  }

  lemma ListPrintsText(xs: Option<seq<string>>)
    ensures ListParam(xs) == Some(Plaintext("")) ==> xs == Some([""])
    ensures ListParam(xs).Some? ==> ListParam(xs).value.Plaintext?
  {
    if ListParam(xs) == Some(Plaintext("")) {
      assert |Join(xs.value)| == 0;
      assert |xs.value| == 1;
      assert xs.value == [""];
    }
  }

  lemma PrintedAt(f: Filters, p: Params, n: Name)
    requires IsPrinted(f, p)
    ensures if Printed(f, n).Some? then n in p && p[n] == Printed(f, n).value else n !in p
  {
    hide Printed;
  }

  lemma PrintedMaps(f: Filters, p: Params)
    requires IsPrinted(f, p)
    ensures ValuesIn(p, FilterMap) == f.filters <==> GoodValues(f.filters)
    ensures ValuesIn(p, ExclusionMap) == f.exclusions <==> GoodValues(f.exclusions)
    ensures ModesIn(p, FilterModes) == f.filterModes <==> GoodModes(f.filterModes)
    ensures ModesIn(p, ExclusionModes) == f.exclusionModes <==> GoodModes(f.exclusionModes)
  {
    hide ValuesIn, ModesIn, ValuesParam, ModesParam, IsPrinted, GoodValues, GoodModes;
    PrintedAt(f, p, FilterMap);
    ValuesSurvive(p, FilterMap, f.filters);
    PrintedAt(f, p, ExclusionMap);
    ValuesSurvive(p, ExclusionMap, f.exclusions);
    PrintedAt(f, p, FilterModes);
    ModesSurvive(p, FilterModes, f.filterModes);
    PrintedAt(f, p, ExclusionModes);
    ModesSurvive(p, ExclusionModes, f.exclusionModes);
  }

  /** Two filter states are equal when their fields are. */
  lemma FieldByField(f: Filters, p: Params)
    ensures Parsed(p) == UrlPart(f) <==>
            && TextOf(p, Q) == f.q && (TextOf(p, QMode) == Some("semantic")) == f.semantic
            && (TextOf(p, QRegex) == Some("1") && TextOf(p, QMode) != Some("semantic")) == f.qRegex
            && TextOf(p, Artifact) == f.artifact && ListOf(p, Artifacts) == f.artifacts
            && TextOf(p, SourceId) == f.sourceId && TextOf(p, Tag) == f.tag && TextOf(p, ExcludeTag) == f.excludeTag
            && ListOf(p, TagsInclude) == f.tagsInclude && ListOf(p, TagsExclude) == f.tagsExclude
            && TextOf(p, Start) == f.start && TextOf(p, End) == f.end
            && ValuesIn(p, FilterMap) == f.filters && ValuesIn(p, ExclusionMap) == f.exclusions
            && ModesIn(p, FilterModes) == f.filterModes && ModesIn(p, ExclusionModes) == f.exclusionModes
            && AnnotatedIn(p) == f.annotated
            && TextOf(p, AnnotationTagValue) == f.annotationTagValue
  {
    hide TextOf, ListOf, ValuesIn, ModesIn, AnnotatedIn;
  }

  lemma PrintedText(f: Filters, p: Params)
    requires IsPrinted(f, p)
    ensures TextOf(p, Q) == f.q <==> GoodText(f.q)
    ensures TextOf(p, Artifact) == f.artifact <==> GoodText(f.artifact)
    ensures TextOf(p, SourceId) == f.sourceId <==> GoodText(f.sourceId)
    ensures TextOf(p, Tag) == f.tag <==> GoodText(f.tag)
    ensures TextOf(p, ExcludeTag) == f.excludeTag <==> GoodText(f.excludeTag)
    ensures TextOf(p, Start) == f.start <==> GoodText(f.start)
    ensures TextOf(p, End) == f.end <==> GoodText(f.end)
    ensures TextOf(p, AnnotationTagValue) == f.annotationTagValue <==> GoodText(f.annotationTagValue)
  {
    hide TextOf, TextParam, ListParam, ValuesParam, ModesParam, GoodText, IsPrinted;
    PrintedAt(f, p, Q);
    TextSurvives(p, Q, f.q);
    PrintedAt(f, p, Artifact);
    TextSurvives(p, Artifact, f.artifact);
    PrintedAt(f, p, SourceId);
    TextSurvives(p, SourceId, f.sourceId);
    PrintedAt(f, p, Tag);
    TextSurvives(p, Tag, f.tag);
    PrintedAt(f, p, ExcludeTag);
    TextSurvives(p, ExcludeTag, f.excludeTag);
    PrintedAt(f, p, Start);
    TextSurvives(p, Start, f.start);
    PrintedAt(f, p, End);
    TextSurvives(p, End, f.end);
    PrintedAt(f, p, AnnotationTagValue);
    TextSurvives(p, AnnotationTagValue, f.annotationTagValue);
  }

  // ----- Applying a finding -----

  /** What a finding must be like for nothing to get lost: list entries trimmed, non-empty and
      free of commas, no empty value list, and a run id only beside the anomaly branch. */
  ghost predicate Canonical(s: Spec) {
    && EntriesPlain(s.artifacts) && EntriesPlain(s.tagsInclude) && EntriesPlain(s.tagsExclude)
    && (s.filters.Some? ==> NoEmptyLists(s.filters.value))
    && (s.exclusions.Some? ==> NoEmptyLists(s.exclusions.value))
    && (s.annotated.Some? ==> KnownAnnotations(s.annotated.value))
    && (TruthyText(s.runId).Some? ==> s.annotated.Some? && "anomaly" in s.annotated.value)
  }

  ghost predicate EntriesPlain(xs: Option<seq<string>>) {
    xs.Some? ==> AllPlain(xs.value)
  }

  lemma CarriedSpec(s: Spec)
    ensures Carried(FromSpec(s)) <==>
            && EntriesPlain(s.artifacts) && EntriesPlain(s.tagsInclude) && EntriesPlain(s.tagsExclude)
            && (s.filters.Some? ==> NoEmptyLists(s.filters.value))
            && (s.exclusions.Some? ==> NoEmptyLists(s.exclusions.value))
            && (s.annotated.Some? ==> KnownAnnotations(s.annotated.value))
  {
    hide Plain, ModeOf;
  }

  /** The finding's filters as the grid ends up with them: printed to the URL, parsed back,
      and merged with the overlays taken from the finding and a running semantic search. */
  function Applied(f: Filters, p: Params, semantic: Option<seq<string>>): Filters {
    Effective(Parsed(p), OverlaysFromApplied(f).(semanticSearchIds := semantic))
  }

  lemma OverlaysRestore(f: Filters, parsed: Filters, semantic: Option<seq<string>>)
    requires parsed.anomalyRunId == None && parsed.ids == None && !parsed.collapseRoutine
    requires f.anomalyRunId != Some("") && f.ids != Some([])
    ensures Effective(parsed, OverlaysFromApplied(f).(semanticSearchIds := semantic)) == f <==>
            && parsed == UrlPart(f)
            && (semantic.Some? ==> f.ids.Some?)
            && (f.anomalyRunId.Some? ==> f.annotated.Some? && "anomaly" in f.annotated.value)
  {
  }

  /** Applying a finding reproduces exactly the filters the agent ran, if and only if the
      finding is canonical and, while a semantic search is running, lists the events itself. */
  lemma ApplyingLosesNothing(s: Spec, p: Params, semantic: Option<seq<string>>)
    requires IsPrinted(FromSpec(s), p)
    ensures Applied(FromSpec(s), p, semantic) == FromSpec(s) <==>
            Canonical(s) && (semantic.Some? ==> NonEmptyList(s.eventIds).Some?)
  {
    hide Carried, IsPrinted, EntriesPlain, NoEmptyLists, KnownAnnotations;
    var f := FromSpec(s);
    UrlRoundTrip(f, p);
    CarriedSpec(s);
    ParsedHasNoOverlays(p);
    OverlaysRestore(f, Parsed(p), semantic);
    assert f.annotated == NonEmptyList(s.annotated) && f.anomalyRunId == TruthyText(s.runId);
    assert "anomaly" !in [];
  }

  lemma ParsedHasNoOverlays(p: Params)
    ensures Parsed(p).anomalyRunId == None && Parsed(p).ids == None && !Parsed(p).collapseRoutine
  {
  }
}
