/** Filter state saved in a view and loaded back (`filtersToViewPayload` and
    `viewPayloadToFilters`, `frontend/src/lib/queryParams.ts`). */
module SavedViews {
  import opened Options
  import opened JsonSchema
  import opened CommaLists
  import opened FilterState

  type Payload = map<Name, Json>

  function TextJson(s: Option<string>): Json {
    if s.Some? then Str(s.value) else Null
  }

  function ListJson(xs: Option<seq<string>>): Json {
    if xs.Some? then Arr(seq(|xs.value|, i requires 0 <= i < |xs.value| => Str(xs.value[i]))) else Arr([])
  }

  function ValuesOrEmpty(m: Option<ValueMap>): Json {
    if m.Some? then ValuesJson(m.value) else Obj(map[])
  }

  function ModesOrEmpty(m: Option<ModeMap>): Json {
    if m.Some? then ModesJson(m.value) else Obj(map[])
  }

  /** What is saved under a name. */
  function Saved(f: Filters, n: Name): Json {
    match n
    case Q => TextJson(f.q)
    case QMode => if f.semantic then Str("semantic") else Null
    case QRegex => Bool(f.qRegex)
    case Artifact => TextJson(f.artifact)
    case Artifacts => ListJson(f.artifacts)
    case SourceId => TextJson(f.sourceId)
    case Tag => TextJson(f.tag)
    case ExcludeTag => TextJson(f.excludeTag)
    case TagsInclude => ListJson(f.tagsInclude)
    case TagsExclude => ListJson(f.tagsExclude)
    case Start => TextJson(f.start)
    case End => TextJson(f.end)
    case FilterMap => ValuesOrEmpty(f.filters)
    case ExclusionMap => ValuesOrEmpty(f.exclusions)
    case FilterModes => ModesOrEmpty(f.filterModes)
    case ExclusionModes => ModesOrEmpty(f.exclusionModes)
    case Annotated => ListJson(f.annotated)
    case AnnotationTagValue => TextJson(f.annotationTagValue)
  }

  /** The payload of a view: every name is present. */
  ghost predicate IsPayload(f: Filters, p: Payload) {
    forall n :: n in p && p[n] == Saved(f, n)
  }

  /** `filtersToViewPayload` */
  function ToPayload(f: Filters): (p: Payload)
    ensures IsPayload(f, p)
  {
    map n: Name | true :: Saved(f, n)
  }

  function LoadText(p: Payload, n: Name): Option<string> {
    if n in p && p[n].Str? && p[n].s != "" then Some(p[n].s) else None
  }

  function LoadList(p: Payload, n: Name): Option<seq<string>> {
    if n in p && p[n].Arr? && |p[n].items| > 0 then Some(Filter(NonEmpty, Strings(p[n].items))) else None
  }

  function LoadAnnotated(p: Payload): Option<seq<string>> {
    if Annotated in p && p[Annotated].Arr? && |p[Annotated].items| > 0
        then Some(Filter(IsAnnotation, Strings(p[Annotated].items))) else None
  }

  function LoadValues(p: Payload, n: Name): Option<ValueMap> {
    if n in p then CleanValues(p[n]) else None
  }

  function LoadModes(p: Payload, n: Name): Option<ModeMap> {
    if n in p then CleanModes(p[n]) else None
  }

  /** `viewPayloadToFilters` */
  function Loaded(p: Payload): Filters {
    var semantic := QMode in p && p[QMode] == Str("semantic");
    Filters(
      LoadText(p, Q), semantic, QRegex in p && p[QRegex] == Bool(true) && !semantic,
      LoadText(p, Artifact), LoadList(p, Artifacts), LoadText(p, SourceId), LoadText(p, Tag), LoadText(p, ExcludeTag),
      LoadList(p, TagsInclude), LoadList(p, TagsExclude), LoadText(p, Start), LoadText(p, End),
      LoadValues(p, FilterMap), LoadValues(p, ExclusionMap), LoadModes(p, FilterModes), LoadModes(p, ExclusionModes),
      LoadAnnotated(p), LoadText(p, AnnotationTagValue), None, None, false)
  }

  ghost predicate FullList(xs: Option<seq<string>>) {
    xs.Some? ==> xs.value != [] && forall k :: 0 <= k < |xs.value| ==> xs.value[k] != ""
  }

  /** What a view can hold: unlike the URL it takes commas and outer blanks. */
  ghost predicate Savable(f: Filters) {
    && GoodText(f.q) && GoodText(f.artifact) && GoodText(f.sourceId) && GoodText(f.tag) && GoodText(f.excludeTag)
    && GoodText(f.start) && GoodText(f.end) && GoodText(f.annotationTagValue)
    && FullList(f.artifacts) && FullList(f.tagsInclude) && FullList(f.tagsExclude)
    && GoodValues(f.filters) && GoodValues(f.exclusions) && GoodModes(f.filterModes) && GoodModes(f.exclusionModes)
    && AnnotationList(f.annotated)
    && !(f.semantic && f.qRegex)
  }

  lemma SavedAt(f: Filters, p: Payload, n: Name)
    requires IsPayload(f, p)
    ensures n in p && p[n] == Saved(f, n)
  {
  }

  lemma TextLoads(p: Payload, n: Name, s: Option<string>)
    requires n in p && p[n] == TextJson(s)
    ensures LoadText(p, n) == s <==> GoodText(s)
  {
  }

  lemma ListLoads(p: Payload, n: Name, xs: Option<seq<string>>)
    requires n in p && p[n] == ListJson(xs)
    ensures LoadList(p, n) == xs <==> FullList(xs)
  {
    if xs.Some? {
      StringsOfStrings(xs.value);
      FilterKeepsAll(NonEmpty, xs.value);
    }
  }

  lemma AnnotatedLoads(p: Payload, xs: Option<seq<string>>)
    requires Annotated in p && p[Annotated] == ListJson(xs)
    ensures LoadAnnotated(p) == xs <==> AnnotationList(xs)
  {
    hide IsAnnotation, KnownAnnotations;
    if xs.Some? {
      KnownIs(xs.value);
      StringsOfStrings(xs.value);
      FilterKeepsAll(IsAnnotation, xs.value);
    }
  }

  lemma ValuesLoad(p: Payload, n: Name, m: Option<ValueMap>)
    requires n in p && p[n] == ValuesOrEmpty(m)
    ensures LoadValues(p, n) == m <==> GoodValues(m)
  {
    if m.Some? && m.value.Keys != {} {
      ValueMapRoundTrip(m.value);
    } else {
      assert p[n].fields == map[];
    }
  }

  lemma ModesLoad(p: Payload, n: Name, m: Option<ModeMap>)
    requires n in p && p[n] == ModesOrEmpty(m)
    ensures LoadModes(p, n) == m <==> GoodModes(m)
  {
    if m.Some? && m.value.Keys != {} {
      ModeMapRoundTrip(m.value);
    } else {
      assert p[n].fields == map[];
    }
  }

  lemma TextsLoad(f: Filters, p: Payload)
    requires IsPayload(f, p)
    ensures LoadText(p, Q) == f.q <==> GoodText(f.q)
    ensures LoadText(p, Artifact) == f.artifact <==> GoodText(f.artifact)
    ensures LoadText(p, SourceId) == f.sourceId <==> GoodText(f.sourceId)
    ensures LoadText(p, Tag) == f.tag <==> GoodText(f.tag)
    ensures LoadText(p, ExcludeTag) == f.excludeTag <==> GoodText(f.excludeTag)
    ensures LoadText(p, Start) == f.start <==> GoodText(f.start)
    ensures LoadText(p, End) == f.end <==> GoodText(f.end)
    ensures LoadText(p, AnnotationTagValue) == f.annotationTagValue <==> GoodText(f.annotationTagValue)
  {
    hide LoadText, GoodText, IsPayload, TextJson;
    SavedAt(f, p, Q);
    TextLoads(p, Q, f.q);
    SavedAt(f, p, Artifact);
    TextLoads(p, Artifact, f.artifact);
    SavedAt(f, p, SourceId);
    TextLoads(p, SourceId, f.sourceId);
    SavedAt(f, p, Tag);
    TextLoads(p, Tag, f.tag);
    SavedAt(f, p, ExcludeTag);
    TextLoads(p, ExcludeTag, f.excludeTag);
    SavedAt(f, p, Start);
    TextLoads(p, Start, f.start);
    SavedAt(f, p, End);
    TextLoads(p, End, f.end);
    SavedAt(f, p, AnnotationTagValue);
    TextLoads(p, AnnotationTagValue, f.annotationTagValue);
  }

  lemma CollectionsLoad(f: Filters, p: Payload)
    requires IsPayload(f, p)
    ensures LoadList(p, Artifacts) == f.artifacts <==> FullList(f.artifacts)
    ensures LoadList(p, TagsInclude) == f.tagsInclude <==> FullList(f.tagsInclude)
    ensures LoadList(p, TagsExclude) == f.tagsExclude <==> FullList(f.tagsExclude)
    ensures LoadValues(p, FilterMap) == f.filters <==> GoodValues(f.filters)
    ensures LoadValues(p, ExclusionMap) == f.exclusions <==> GoodValues(f.exclusions)
    ensures LoadModes(p, FilterModes) == f.filterModes <==> GoodModes(f.filterModes)
    ensures LoadModes(p, ExclusionModes) == f.exclusionModes <==> GoodModes(f.exclusionModes)
    ensures LoadAnnotated(p) == f.annotated <==> AnnotationList(f.annotated)
  {
    hide LoadList, LoadValues, LoadModes, LoadAnnotated, ListJson, ValuesOrEmpty, ModesOrEmpty, IsPayload;
    hide FullList, GoodValues, GoodModes, AnnotationList;
    SavedAt(f, p, Artifacts);
    ListLoads(p, Artifacts, f.artifacts);
    SavedAt(f, p, TagsInclude);
    ListLoads(p, TagsInclude, f.tagsInclude);
    SavedAt(f, p, TagsExclude);
    ListLoads(p, TagsExclude, f.tagsExclude);
    SavedAt(f, p, FilterMap);
    ValuesLoad(p, FilterMap, f.filters);
    SavedAt(f, p, ExclusionMap);
    ValuesLoad(p, ExclusionMap, f.exclusions);
    SavedAt(f, p, FilterModes);
    ModesLoad(p, FilterModes, f.filterModes);
    SavedAt(f, p, ExclusionModes);
    ModesLoad(p, ExclusionModes, f.exclusionModes);
    SavedAt(f, p, Annotated);
    AnnotatedLoads(p, f.annotated);
  }

  /** A saved view reproduces the filter state, without the session overlays, exactly when
      the state is one a view can hold. */
  lemma ViewRoundTrip(f: Filters)
    ensures Loaded(ToPayload(f)) == UrlPart(f) <==> Savable(f)
  {
    var p := ToPayload(f);
    SavedAt(f, p, QMode);
    SavedAt(f, p, QRegex);
    hide LoadText, LoadList, LoadValues, LoadModes, LoadAnnotated, IsPayload, ToPayload;
    hide GoodText, FullList, GoodValues, GoodModes, AnnotationList;
    TextsLoad(f, p);
    CollectionsLoad(f, p);
  }
}
