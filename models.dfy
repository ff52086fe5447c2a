/**
 * The request and response shapes of models.py that carry constraints beyond
 * their types: each is a datatype with a `Valid()` predicate, and a `Make…`
 * function plays the pydantic constructor, which either builds a valid value
 * or raises a `ValidationError` naming every field that failed.
 */
module Models {
  import opened Wrappers
  import opened Json

  /** A pydantic `ValidationError`: the failing fields, in declaration order. */
  datatype ValidationError = ValidationError(fields: seq<string>)

  /** The field name, when the check on it failed. */
  function FailIf(bad: bool, field: string): seq<string> {
    if bad then [field] else []
  }

  // --- CursorParam ----------------------------------------------------------------

  datatype CursorParam = CursorParam(cursor: string) {
    /** `cursor: str = Field(min_length=1)`. */
    predicate Valid() {
      cursor != ""
    }
  }

  function MakeCursorParam(cursor: string): (r: Result<CursorParam, ValidationError>)
    ensures r.Success? <==> cursor != ""
    ensures r.Success? ==> r.value.Valid() && r.value.cursor == cursor
    ensures r.Failure? ==> r.error.fields == ["cursor"]
  {
    if cursor == "" then Failure(ValidationError(["cursor"])) else Success(CursorParam(cursor))
  }

  // --- LocationParam --------------------------------------------------------------

  datatype Priority = CanHave | MustHave | DoesntHave
  datatype Scope = Current | OpenToRelocateOnly | CurrentOrOpenToRelocate

  const PRIORITY_NAMES: set<string> := {"CAN_HAVE", "MUST_HAVE", "DOESNT_HAVE"}
  const SCOPE_NAMES: set<string> := {"CURRENT", "OPEN_TO_RELOCATE_ONLY", "CURRENT_OR_OPEN_TO_RELOCATE"}

  function PriorityName(p: Priority): (s: string)
    ensures s in PRIORITY_NAMES
  {
    match p
    case CanHave => "CAN_HAVE"
    case MustHave => "MUST_HAVE"
    case DoesntHave => "DOESNT_HAVE"
  }

  /** Validation of the `priority` literal: accepted exactly for the listed names. */
  function ParsePriority(s: string): (r: Option<Priority>)
    ensures r.Some? <==> s in PRIORITY_NAMES
    ensures r.Some? ==> PriorityName(r.value) == s
  {
    if s == "CAN_HAVE" then Some(CanHave)
    else if s == "MUST_HAVE" then Some(MustHave)
    else if s == "DOESNT_HAVE" then Some(DoesntHave)
    else None
  }

  function ScopeName(sc: Scope): (s: string)
    ensures s in SCOPE_NAMES
  {
    match sc
    case Current => "CURRENT"
    case OpenToRelocateOnly => "OPEN_TO_RELOCATE_ONLY"
    case CurrentOrOpenToRelocate => "CURRENT_OR_OPEN_TO_RELOCATE"
  }

  /** Validation of the `scope` literal: accepted exactly for the listed names. */
  function ParseScope(s: string): (r: Option<Scope>)
    ensures r.Some? <==> s in SCOPE_NAMES
    ensures r.Some? ==> ScopeName(r.value) == s
  {
    if s == "CURRENT" then Some(Current)
    else if s == "OPEN_TO_RELOCATE_ONLY" then Some(OpenToRelocateOnly)
    else if s == "CURRENT_OR_OPEN_TO_RELOCATE" then Some(CurrentOrOpenToRelocate)
    else None
  }

  /** Every literal value is accepted back as itself. */
  lemma LiteralRoundTrips(p: Priority, sc: Scope)
    ensures ParsePriority(PriorityName(p)) == Some(p)
    ensures ParseScope(ScopeName(sc)) == Some(sc)
  {
  }

  datatype LocationParam = LocationParam(id: string, priority: Option<Priority>, scope: Option<Scope>) {
    /** `id: str = Field(min_length=1)`; the literals are enforced by the types. */
    predicate Valid() {
      id != ""
    }
  }

  /** `LocationParam(id=…, priority=…, scope=…)` from plain strings. */
  function MakeLocationParam(id: string, priority: Option<string>, scope: Option<string>)
    : (r: Result<LocationParam, ValidationError>)
    ensures r.Success? <==>
              id != "" && (priority.None? || priority.value in PRIORITY_NAMES)
              && (scope.None? || scope.value in SCOPE_NAMES)
    ensures r.Success? ==> r.value.Valid() && r.value.id == id
    ensures r.Success? ==> (r.value.priority.None? <==> priority.None?)
    ensures r.Success? && priority.Some? ==> PriorityName(r.value.priority.value) == priority.value
    ensures r.Success? ==> (r.value.scope.None? <==> scope.None?)
    ensures r.Success? && scope.Some? ==> ScopeName(r.value.scope.value) == scope.value
    ensures r.Failure? ==> ("id" in r.error.fields <==> id == "")
  {
    var p := if priority.Some? then ParsePriority(priority.value) else None;
    var s := if scope.Some? then ParseScope(scope.value) else None;
    var errs := FailIf(id == "", "id")
              + FailIf(priority.Some? && p.None?, "priority")
              + FailIf(scope.Some? && s.None?, "scope");
    if errs != [] then Failure(ValidationError(errs))
    else Success(LocationParam(id, p, s))
  }

  // --- BadRequestResponse ---------------------------------------------------------

  datatype BadRequestType =
    | InvalidParameters | MalformedRequest | ContentTooLarge | InvalidUrl
    | TooManyCharacters | UnescapedCharacters | MissingParameters

  const BAD_REQUEST_TYPES: set<string> := {
    "errors/invalid_parameters", "errors/malformed_request", "errors/content_too_large",
    "errors/invalid_url", "errors/too_many_characters", "errors/unescaped_characters",
    "errors/missing_parameters"
  }

  function BadRequestTypeName(t: BadRequestType): (s: string)
    ensures s in BAD_REQUEST_TYPES
  {
    match t
    case InvalidParameters => "errors/invalid_parameters"
    case MalformedRequest => "errors/malformed_request"
    case ContentTooLarge => "errors/content_too_large"
    case InvalidUrl => "errors/invalid_url"
    case TooManyCharacters => "errors/too_many_characters"
    case UnescapedCharacters => "errors/unescaped_characters"
    case MissingParameters => "errors/missing_parameters"
  }

  /** Validation of the `type` literal: accepted exactly for the seven names. */
  function ParseBadRequestType(s: string): (r: Option<BadRequestType>)
    ensures r.Some? <==> s in BAD_REQUEST_TYPES
    ensures r.Some? ==> BadRequestTypeName(r.value) == s
  {
    if s == "errors/invalid_parameters" then Some(InvalidParameters)
    else if s == "errors/malformed_request" then Some(MalformedRequest)
    else if s == "errors/content_too_large" then Some(ContentTooLarge)
    else if s == "errors/invalid_url" then Some(InvalidUrl)
    else if s == "errors/too_many_characters" then Some(TooManyCharacters)
    else if s == "errors/unescaped_characters" then Some(UnescapedCharacters)
    else if s == "errors/missing_parameters" then Some(MissingParameters)
    else None
  }

  /** The seven names are distinct: the literal determines the error type. */
  lemma BadRequestTypeNamesInjective(t1: BadRequestType, t2: BadRequestType)
    ensures BadRequestTypeName(t1) == BadRequestTypeName(t2) ==> t1 == t2
  {
    if BadRequestTypeName(t1) == BadRequestTypeName(t2) {
      assert ParseBadRequestType(BadRequestTypeName(t1)) == Some(t1);
    }
  }

  /** `ErrorResponse` narrowed by `BadRequestResponse`. */
  datatype BadRequestResponse = BadRequestResponse(
    title: string,
    detail: Option<string>,
    instance: Option<string>,
    status: int,
    errorType: BadRequestType)
  {
    /** `status: Literal[400]`; the type literal is enforced by its datatype. */
    predicate Valid() {
      status == 400
    }
  }

  function MakeBadRequestResponse(title: string, detail: Option<string>, instance: Option<string>,
                                  status: int, errorType: string)
    : (r: Result<BadRequestResponse, ValidationError>)
    ensures r.Success? <==> status == 400 && errorType in BAD_REQUEST_TYPES
    ensures r.Success? ==> r.value.Valid() && BadRequestTypeName(r.value.errorType) == errorType
    ensures r.Success? ==> r.value.title == title && r.value.detail == detail && r.value.instance == instance
    ensures r.Failure? ==> ("status" in r.error.fields <==> status != 400)
    ensures r.Failure? ==> ("type" in r.error.fields <==> errorType !in BAD_REQUEST_TYPES)
  {
    var t := ParseBadRequestType(errorType);
    var errs := FailIf(status != 400, "status") + FailIf(t.None?, "type");
    if errs != [] then Failure(ValidationError(errs))
    else Success(BadRequestResponse(title, detail, instance, status, t.value))
  }

  // --- SearchResultsPaging --------------------------------------------------------

  datatype SearchResultsPaging = SearchResultsPaging(start: int, pageCount: int, totalCount: int) {
    /** Each counter is `Field(ge=0)`. */
    predicate Valid() {
      start >= 0 && pageCount >= 0 && totalCount >= 0
    }
  }

  function MakeSearchResultsPaging(start: int, pageCount: int, totalCount: int)
    : (r: Result<SearchResultsPaging, ValidationError>)
    ensures r.Success? <==> start >= 0 && pageCount >= 0 && totalCount >= 0
    ensures r.Success? ==> r.value.Valid() && r.value == SearchResultsPaging(start, pageCount, totalCount)
    ensures r.Failure? ==> ("start" in r.error.fields <==> start < 0)
    ensures r.Failure? ==> ("page_count" in r.error.fields <==> pageCount < 0)
    ensures r.Failure? ==> ("total_count" in r.error.fields <==> totalCount < 0)
  {
    var errs := FailIf(start < 0, "start") + FailIf(pageCount < 0, "page_count")
              + FailIf(totalCount < 0, "total_count");
    if errs != [] then Failure(ValidationError(errs))
    else Success(SearchResultsPaging(start, pageCount, totalCount))
  }

  // --- SearchResponse -------------------------------------------------------------

  /** `SearchResponse`; the items stay undecoded JSON. */
  datatype SearchResponse = SearchResponse(
    items: seq<JValue>,
    config: map<string, JValue>,
    paging: map<string, JValue>,
    cursor: Option<string>)

  /** `SearchResponse(**response)`: required fields checked, `cursor` optional. */
  function DecodeSearchResponse(m: map<string, JValue>): (r: Result<SearchResponse, ValidationError>)
    ensures r.Success? <==>
              && "object" in m && m["object"] == JStr("LinkedinSearch")
              && "items" in m && m["items"].JArr?
              && "config" in m && m["config"].JObj?
              && "paging" in m && m["paging"].JObj?
              && ("cursor" !in m || m["cursor"].JNull? || m["cursor"].JStr?)
    ensures r.Success? ==> r.value.items == m["items"].items
    ensures r.Success? ==> r.value.config == m["config"].fields && r.value.paging == m["paging"].fields
    ensures r.Success? ==> (r.value.cursor.None? <==> "cursor" !in m || m["cursor"] == JNull)
    ensures r.Success? && r.value.cursor.Some? ==> m["cursor"] == JStr(r.value.cursor.value)
  {
    var badCursor := "cursor" in m && !(m["cursor"].JNull? || m["cursor"].JStr?);
    var errs := FailIf(!("object" in m && m["object"] == JStr("LinkedinSearch")), "object")
              + FailIf(!("items" in m && m["items"].JArr?), "items")
              + FailIf(!("config" in m && m["config"].JObj?), "config")
              + FailIf(!("paging" in m && m["paging"].JObj?), "paging")
              + FailIf(badCursor, "cursor");
    if errs != [] then Failure(ValidationError(errs))
    else
      var cursor := if "cursor" in m && m["cursor"].JStr? then Some(m["cursor"].s) else None;
      Success(SearchResponse(m["items"].items, m["config"].fields, m["paging"].fields, cursor))
  }

  // --- CommonSearchParameter ----------------------------------------------------

  /** The kinds of search parameter the parameter lookup accepts. */
  datatype CommonSearchParameter =
    | LocationParameter | PeopleParameter | CompanyParameter | SchoolParameter
    | IndustryParameter | ServiceParameter | JobFunctionParameter | JobTitleParameter
    | EmploymentTypeParameter | SkillParameter

  /** The enum member's `value`. */
  function CommonSearchParameterName(t: CommonSearchParameter): string {
    match t
    case LocationParameter => "LOCATION"
    case PeopleParameter => "PEOPLE"
    case CompanyParameter => "COMPANY"
    case SchoolParameter => "SCHOOL"
    case IndustryParameter => "INDUSTRY"
    case ServiceParameter => "SERVICE"
    case JobFunctionParameter => "JOB_FUNCTION"
    case JobTitleParameter => "JOB_TITLE"
    case EmploymentTypeParameter => "EMPLOYMENT_TYPE"
    case SkillParameter => "SKILL"
  }

  /** `CommonSearchParameter(s)`: the member whose value is `s`, if any. */
  function ParseCommonSearchParameter(s: string): (r: Option<CommonSearchParameter>)
    ensures r.Some? ==> CommonSearchParameterName(r.value) == s
  {
    if s == "LOCATION" then Some(LocationParameter)
    else if s == "PEOPLE" then Some(PeopleParameter)
    else if s == "COMPANY" then Some(CompanyParameter)
    else if s == "SCHOOL" then Some(SchoolParameter)
    else if s == "INDUSTRY" then Some(IndustryParameter)
    else if s == "SERVICE" then Some(ServiceParameter)
    else if s == "JOB_FUNCTION" then Some(JobFunctionParameter)
    else if s == "JOB_TITLE" then Some(JobTitleParameter)
    else if s == "EMPLOYMENT_TYPE" then Some(EmploymentTypeParameter)
    else if s == "SKILL" then Some(SkillParameter)
    else None
  }

  /** Every member is found again from its value, so distinct members have distinct values. */
  lemma CommonSearchParameterRoundTrip(t: CommonSearchParameter)
    ensures ParseCommonSearchParameter(CommonSearchParameterName(t)) == Some(t)
  {
  }

  // --- LinkedinSearchPayload ------------------------------------------------------

  datatype OpenTo = ProBono | BoardMember

  function OpenToName(o: OpenTo): string {
    match o
    case ProBono => "proBono"
    case BoardMember => "boardMember"
  }

  function ParseOpenTo(v: JValue): (r: Option<OpenTo>)
    ensures r.Some? ==> v == JStr(OpenToName(r.value))
    ensures v == JStr("proBono") || v == JStr("boardMember") ==> r.Some?
  {
    if v == JStr("proBono") then Some(ProBono)
    else if v == JStr("boardMember") then Some(BoardMember)
    else None
  }

  datatype AdvancedKeywords = AdvancedKeywords(
    firstName: Option<string>,
    lastName: Option<string>,
    title: Option<string>,
    company: Option<string>,
    school: Option<string>)

  /** The classic people search payload (`network_distance` is not modelled). */
  datatype LinkedinSearchPayload = LinkedinSearchPayload(
    keywords: Option<string>,
    industry: Option<seq<string>>,
    location: Option<seq<string>>,
    profileLanguage: Option<seq<string>>,
    company: Option<seq<string>>,
    pastCompany: Option<seq<string>>,
    school: Option<seq<string>>,
    service: Option<seq<string>>,
    connectionsOf: Option<seq<string>>,
    followersOf: Option<seq<string>>,
    openTo: Option<seq<OpenTo>>,
    advancedKeywords: Option<AdvancedKeywords>)
  {
    /**
     * The list filters with `min_length=1` are non-empty when present, and
     * `profile_language` holds exactly two codes when present.
     */
    predicate Valid() {
      && NonEmptyIfPresent(industry) && NonEmptyIfPresent(location)
      && NonEmptyIfPresent(company) && NonEmptyIfPresent(pastCompany)
      && NonEmptyIfPresent(school) && NonEmptyIfPresent(service)
      && NonEmptyIfPresent(connectionsOf) && NonEmptyIfPresent(followersOf)
      && (profileLanguage.None? || |profileLanguage.value| == 2)
    }
  }

  predicate NonEmptyIfPresent(xs: Option<seq<string>>) {
    xs.None? || |xs.value| >= 1
  }

  /** `LinkedinSearchPayload()`: every filter absent. */
  const DEFAULT_SEARCH_PAYLOAD: LinkedinSearchPayload :=
    LinkedinSearchPayload(None, None, None, None, None, None, None, None, None, None, None, None)

  function OptStrs(xs: Option<seq<string>>): JValue {
    match xs
    case None => JNull
    case Some(v) => JArr(Strs(v))
  }

  function OpenTos(xs: seq<OpenTo>): (r: seq<JValue>)
    ensures |r| == |xs|
    ensures forall i :: 0 <= i < |xs| ==> r[i] == JStr(OpenToName(xs[i]))
  {
    if xs == [] then [] else [JStr(OpenToName(xs[0]))] + OpenTos(xs[1..])
  }

  function OptOpenTos(xs: Option<seq<OpenTo>>): JValue {
    match xs
    case None => JNull
    case Some(v) => JArr(OpenTos(v))
  }

  function DumpAdvancedKeywords(a: AdvancedKeywords): map<string, JValue> {
    ExcludeNone(map[
      "first_name" := OptStr(a.firstName),
      "last_name" := OptStr(a.lastName),
      "title" := OptStr(a.title),
      "company" := OptStr(a.company),
      "school" := OptStr(a.school)])
  }

  /** Every field of the payload, `None` ones as `null`, keyed by its JSON name. */
  function SearchPayloadFields(p: LinkedinSearchPayload): map<string, JValue> {
    map[
      "api" := JStr("classic"),
      "category" := JStr("people"),
      "keywords" := OptStr(p.keywords),
      "industry" := OptStrs(p.industry),
      "location" := OptStrs(p.location),
      "profile_language" := OptStrs(p.profileLanguage),
      "company" := OptStrs(p.company),
      "past_company" := OptStrs(p.pastCompany),
      "school" := OptStrs(p.school),
      "service" := OptStrs(p.service),
      "connections_of" := OptStrs(p.connectionsOf),
      "followers_of" := OptStrs(p.followersOf),
      "open_to" := OptOpenTos(p.openTo),
      "advanced_keywords" :=
        if p.advancedKeywords.None? then JNull else JObj(DumpAdvancedKeywords(p.advancedKeywords.value))]
  }

  /** `payload.model_dump(exclude_none=True)`: the two literals and every filter that is set. */
  function DumpSearchPayload(p: LinkedinSearchPayload): map<string, JValue> {
    ExcludeNone(SearchPayloadFields(p))
  }

  /** The keys a dump of the payload holds: the two literals and every filter that is set. */
  const SEARCH_PAYLOAD_KEYS: set<string> := {
    "api", "category", "keywords", "industry", "location", "profile_language", "company",
    "past_company", "school", "service", "connections_of", "followers_of", "open_to",
    "advanced_keywords"
  }

  lemma DumpNoNull(p: LinkedinSearchPayload)
    ensures NoNullFields(DumpSearchPayload(p))
  {
  }

  lemma DumpKeys(p: LinkedinSearchPayload)
    ensures DumpSearchPayload(p).Keys <= SEARCH_PAYLOAD_KEYS
  {
  }

  /** The default payload is valid and dumps to the two literals alone. */
  lemma DefaultSearchPayload()
    ensures DEFAULT_SEARCH_PAYLOAD.Valid()
    ensures DumpSearchPayload(DEFAULT_SEARCH_PAYLOAD) == map["api" := JStr("classic"), "category" := JStr("people")]
  {
    var f := SearchPayloadFields(DEFAULT_SEARCH_PAYLOAD);
    assert forall k :: k in f && k != "api" && k != "category" ==> f[k] == JNull;
  }

  // Loading a payload back, as `LinkedinSearchPayload(**fields)` validates it.

  /** The strings of a JSON array, if every element is a string. */
  function StringsOf(items: seq<JValue>): (r: Option<seq<string>>)
    ensures r.Some? ==> |r.value| == |items|
    ensures r.Some? ==> forall i :: 0 <= i < |items| ==> items[i] == JStr(r.value[i])
  {
    if items == [] then Some([])
    else if !items[0].JStr? then None
    else
      match StringsOf(items[1..])
      case None => None
      case Some(rest) => Some([items[0].s] + rest)
  }

  /** A list that reads as strings is the JSON form of those strings. */
  lemma StrsOfStringsOf(items: seq<JValue>)
    requires StringsOf(items).Some?
    ensures Strs(StringsOf(items).value) == items
  {
  }

  lemma {:induction false} StringsOfStrs(xs: seq<string>)
    ensures StringsOf(Strs(xs)) == Some(xs)
  {
    if xs != [] {
      StringsOfStrs(xs[1..]);
      assert Strs(xs)[1..] == Strs(xs[1..]);
      assert [xs[0]] + xs[1..] == xs;
    }
  }

  function OpenTosOf(items: seq<JValue>): (r: Option<seq<OpenTo>>)
    ensures r.Some? ==> |r.value| == |items|
    ensures r.Some? ==> forall i :: 0 <= i < |items| ==> items[i] == JStr(OpenToName(r.value[i]))
  {
    if items == [] then Some([])
    else
      match (ParseOpenTo(items[0]), OpenTosOf(items[1..]))
      case (Some(o), Some(rest)) => Some([o] + rest)
      case _ => None
  }

  lemma ParseOpenToName(o: OpenTo)
    ensures ParseOpenTo(JStr(OpenToName(o))) == Some(o)
  {
    match o
    case ProBono =>
    case BoardMember =>
  }

  lemma {:induction false} OpenTosOfOpenTos(xs: seq<OpenTo>)
    ensures OpenTosOf(OpenTos(xs)) == Some(xs)
  {
    if xs != [] {
      var items := OpenTos(xs);
      OpenTosOfOpenTos(xs[1..]);
      assert items[1..] == OpenTos(xs[1..]);
      ParseOpenToName(xs[0]);
      assert items[0] == JStr(OpenToName(xs[0]));
      assert OpenTosOf(items) == Some([xs[0]] + xs[1..]);
      assert [xs[0]] + xs[1..] == xs;
    }
  }

  /** A field that is absent or `null` is `None`. */
  predicate Absent(m: map<string, JValue>, key: string) {
    key !in m || m[key] == JNull
  }

  /** An optional string field: `None` for absent, otherwise it must be a string. */
  function StrField(m: map<string, JValue>, key: string): (r: Option<Option<string>>)
    ensures r.Some? ==> Carries(m, key, OptStr(r.value))
    ensures r.None? <==> !Absent(m, key) && !m[key].JStr?
  {
    if Absent(m, key) then Some(None)
    else if m[key].JStr? then Some(Some(m[key].s))
    else None
  }

  /** An optional list-of-strings field with its length bounds. */
  function ListField(m: map<string, JValue>, key: string, minLen: nat, maxLen: Option<nat>)
    : (r: Option<Option<seq<string>>>)
    ensures r.Some? && r.value.Some? ==> minLen <= |r.value.value|
    ensures r.Some? && r.value.Some? && maxLen.Some? ==> |r.value.value| <= maxLen.value
    // what loads is exactly what the object holds
    ensures r.Some? ==> Carries(m, key, OptStrs(r.value))
    // a present value is rejected when it is not a list of strings or its length is out of bounds
    ensures r.None? <==>
              && !Absent(m, key)
              && (|| !m[key].JArr?
                  || StringsOf(m[key].items).None?
                  || |m[key].items| < minLen
                  || (maxLen.Some? && |m[key].items| > maxLen.value))
  {
    if Absent(m, key) then Some(None)
    else if !m[key].JArr? then None
    else
      match StringsOf(m[key].items)
      case None => None
      case Some(xs) =>
        StrsOfStringsOf(m[key].items);
        if |xs| < minLen || (maxLen.Some? && |xs| > maxLen.value) then None else Some(Some(xs))
  }

  function OpenToField(m: map<string, JValue>): (r: Option<Option<seq<OpenTo>>>)
    ensures r.Some? ==> Carries(m, "open_to", OptOpenTos(r.value))
    ensures r.None? <==>
              !Absent(m, "open_to") && (!m["open_to"].JArr? || OpenTosOf(m["open_to"].items).None?)
  {
    if Absent(m, "open_to") then Some(None)
    else if !m["open_to"].JArr? then None
    else
      match OpenTosOf(m["open_to"].items)
      case None => None
      case Some(xs) =>
        assert OpenTos(xs) == m["open_to"].items;
        Some(Some(xs))
  }

  function AdvancedKeywordsOf(a: map<string, JValue>): Option<AdvancedKeywords> {
    var f := StrField(a, "first_name");
    var l := StrField(a, "last_name");
    var t := StrField(a, "title");
    var c := StrField(a, "company");
    var s := StrField(a, "school");
    if f.Some? && l.Some? && t.Some? && c.Some? && s.Some? then
      Some(AdvancedKeywords(f.value, l.value, t.value, c.value, s.value))
    else None
  }

  function AdvancedField(m: map<string, JValue>): (r: Option<Option<AdvancedKeywords>>)
    ensures r.Some? ==> (r.value.None? <==> Absent(m, "advanced_keywords"))
    ensures r.Some? && r.value.Some? ==>
              m["advanced_keywords"].JObj? && AdvancedKeywordsOf(m["advanced_keywords"].fields) == r.value
    ensures r.None? <==>
              && !Absent(m, "advanced_keywords")
              && (!m["advanced_keywords"].JObj? || AdvancedKeywordsOf(m["advanced_keywords"].fields).None?)
  {
    if Absent(m, "advanced_keywords") then Some(None)
    else if !m["advanced_keywords"].JObj? then None
    else
      match AdvancedKeywordsOf(m["advanced_keywords"].fields)
      case None => None
      case Some(a) => Some(Some(a))
  }

  /** A literal field with a default: absent, or exactly that string. */
  predicate LiteralOk(m: map<string, JValue>, key: string, literal: string) {
    key !in m || m[key] == JStr(literal)
  }

  /** `LinkedinSearchPayload(**m)`: extra keys are ignored, every failing field is reported. */
  function LoadSearchPayload(m: map<string, JValue>): (r: Result<LinkedinSearchPayload, ValidationError>)
    ensures r.Success? ==> r.value.Valid()
    ensures r.Success? ==> LiteralOk(m, "api", "classic") && LiteralOk(m, "category", "people")
  {
    var kw := StrField(m, "keywords");
    var ind := ListField(m, "industry", 1, None);
    var loc := ListField(m, "location", 1, None);
    var lang := ListField(m, "profile_language", 2, Some(2));
    var com := ListField(m, "company", 1, None);
    var past := ListField(m, "past_company", 1, None);
    var sch := ListField(m, "school", 1, None);
    var ser := ListField(m, "service", 1, None);
    var conn := ListField(m, "connections_of", 1, None);
    var fol := ListField(m, "followers_of", 1, None);
    var open := OpenToField(m);
    var adv := AdvancedField(m);
    if && LiteralOk(m, "api", "classic") && LiteralOk(m, "category", "people")
       && kw.Some? && ind.Some? && loc.Some? && lang.Some? && com.Some? && past.Some?
       && sch.Some? && ser.Some? && conn.Some? && fol.Some? && open.Some? && adv.Some?
    then
      Success(LinkedinSearchPayload(kw.value, ind.value, loc.value, lang.value, com.value, past.value,
                                    sch.value, ser.value, conn.value, fol.value, open.value, adv.value))
    else
      Failure(ValidationError(
        FailIf(!LiteralOk(m, "api", "classic"), "api")
        + FailIf(!LiteralOk(m, "category", "people"), "category")
        + FailIf(kw.None?, "keywords") + FailIf(ind.None?, "industry") + FailIf(loc.None?, "location")
        + FailIf(lang.None?, "profile_language") + FailIf(com.None?, "company")
        + FailIf(past.None?, "past_company") + FailIf(sch.None?, "school") + FailIf(ser.None?, "service")
        + FailIf(conn.None?, "connections_of") + FailIf(fol.None?, "followers_of")
        + FailIf(open.None?, "open_to") + FailIf(adv.None?, "advanced_keywords")))
  }

  /**
   * A payload that loads is the one the object holds, field by field: a
   * present value that is not of its field's type, or a list out of its
   * bounds, is rejected rather than taken as absent.
   */
  lemma LoadedIsHeld(m: map<string, JValue>)
    requires LoadSearchPayload(m).Success?
    ensures LoadedFrom(m, LoadSearchPayload(m).value)
  {
  }

  /** An empty `industry` list is rejected, not loaded as an absent filter. */
  lemma LoadRejectsEmptyList(m: map<string, JValue>)
    requires "industry" in m && m["industry"] == JArr([])
    ensures LoadSearchPayload(m).Failure?
  {
    if LoadSearchPayload(m).Success? {
      LoadedIsHeld(m);
    }
  }

  /**
   * Every filter of `p` is what `m` holds under its name: the strings and
   * lists exactly, the advanced keywords as an object that loads to them.
   */
  predicate LoadedFrom(m: map<string, JValue>, p: LinkedinSearchPayload) {
    && Carries(m, "keywords", OptStr(p.keywords))
    && Carries(m, "industry", OptStrs(p.industry))
    && Carries(m, "location", OptStrs(p.location))
    && Carries(m, "profile_language", OptStrs(p.profileLanguage))
    && Carries(m, "company", OptStrs(p.company))
    && Carries(m, "past_company", OptStrs(p.pastCompany))
    && Carries(m, "school", OptStrs(p.school))
    && Carries(m, "service", OptStrs(p.service))
    && Carries(m, "connections_of", OptStrs(p.connectionsOf))
    && Carries(m, "followers_of", OptStrs(p.followersOf))
    && Carries(m, "open_to", OptOpenTos(p.openTo))
    && (p.advancedKeywords.None? <==> Absent(m, "advanced_keywords"))
    && (p.advancedKeywords.Some? ==>
          m["advanced_keywords"].JObj?
          && AdvancedKeywordsOf(m["advanced_keywords"].fields) == p.advancedKeywords)
  }

  /** `m` holds `v` under `key`, where a `null` value may also be left out. */
  predicate Carries(m: map<string, JValue>, key: string, v: JValue) {
    && (v == JNull ==> Absent(m, key))
    && (v != JNull ==> key in m && m[key] == v)
  }

  /** `m` holds every field of `p`, whatever else it holds. */
  predicate CarriesFields(m: map<string, JValue>, p: LinkedinSearchPayload) {
    forall key :: key in SearchPayloadFields(p) ==> Carries(m, key, SearchPayloadFields(p)[key])
  }

  lemma DumpCarriesFields(p: LinkedinSearchPayload)
    ensures CarriesFields(DumpSearchPayload(p), p)
  {
  }

  lemma ListFieldOf(m: map<string, JValue>, key: string, xs: Option<seq<string>>, minLen: nat, maxLen: Option<nat>)
    requires Carries(m, key, OptStrs(xs))
    requires xs.Some? ==> minLen <= |xs.value| && (maxLen.Some? ==> |xs.value| <= maxLen.value)
    ensures ListField(m, key, minLen, maxLen) == Some(xs)
  {
    if xs.Some? {
      StringsOfStrs(xs.value);
    }
  }

  lemma StrFieldOf(m: map<string, JValue>, key: string, v: Option<string>)
    requires Carries(m, key, OptStr(v))
    ensures StrField(m, key) == Some(v)
  {
  }

  lemma AdvancedOfDump(a: AdvancedKeywords)
    ensures AdvancedKeywordsOf(DumpAdvancedKeywords(a)) == Some(a)
  {
    var d := DumpAdvancedKeywords(a);
    StrFieldOf(d, "first_name", a.firstName);
    StrFieldOf(d, "last_name", a.lastName);
    StrFieldOf(d, "title", a.title);
    StrFieldOf(d, "company", a.company);
    StrFieldOf(d, "school", a.school);
  }

  lemma LoadListsA(m: map<string, JValue>, p: LinkedinSearchPayload)
    requires p.Valid() && CarriesFields(m, p)
    ensures ListField(m, "industry", 1, None) == Some(p.industry)
    ensures ListField(m, "location", 1, None) == Some(p.location)
    ensures ListField(m, "profile_language", 2, Some(2)) == Some(p.profileLanguage)
  {
    assert Carries(m, "industry", SearchPayloadFields(p)["industry"]);
    ListFieldOf(m, "industry", p.industry, 1, None);
    assert Carries(m, "location", SearchPayloadFields(p)["location"]);
    ListFieldOf(m, "location", p.location, 1, None);
    assert Carries(m, "profile_language", SearchPayloadFields(p)["profile_language"]);
    ListFieldOf(m, "profile_language", p.profileLanguage, 2, Some(2));
  }

  lemma LoadListsB(m: map<string, JValue>, p: LinkedinSearchPayload)
    requires p.Valid() && CarriesFields(m, p)
    ensures ListField(m, "company", 1, None) == Some(p.company)
    ensures ListField(m, "past_company", 1, None) == Some(p.pastCompany)
    ensures ListField(m, "school", 1, None) == Some(p.school)
  {
    assert Carries(m, "company", SearchPayloadFields(p)["company"]);
    ListFieldOf(m, "company", p.company, 1, None);
    assert Carries(m, "past_company", SearchPayloadFields(p)["past_company"]);
    ListFieldOf(m, "past_company", p.pastCompany, 1, None);
    assert Carries(m, "school", SearchPayloadFields(p)["school"]);
    ListFieldOf(m, "school", p.school, 1, None);
  }

  lemma LoadListsC(m: map<string, JValue>, p: LinkedinSearchPayload)
    requires p.Valid() && CarriesFields(m, p)
    ensures ListField(m, "service", 1, None) == Some(p.service)
    ensures ListField(m, "connections_of", 1, None) == Some(p.connectionsOf)
    ensures ListField(m, "followers_of", 1, None) == Some(p.followersOf)
  {
    assert Carries(m, "service", SearchPayloadFields(p)["service"]);
    ListFieldOf(m, "service", p.service, 1, None);
    assert Carries(m, "connections_of", SearchPayloadFields(p)["connections_of"]);
    ListFieldOf(m, "connections_of", p.connectionsOf, 1, None);
    assert Carries(m, "followers_of", SearchPayloadFields(p)["followers_of"]);
    ListFieldOf(m, "followers_of", p.followersOf, 1, None);
  }

  lemma LoadLiterals(m: map<string, JValue>, p: LinkedinSearchPayload)
    requires CarriesFields(m, p)
    ensures LiteralOk(m, "api", "classic") && LiteralOk(m, "category", "people")
    ensures StrField(m, "keywords") == Some(p.keywords)
  {
    assert Carries(m, "api", SearchPayloadFields(p)["api"]);
    assert Carries(m, "category", SearchPayloadFields(p)["category"]);
    assert Carries(m, "keywords", SearchPayloadFields(p)["keywords"]);
    StrFieldOf(m, "keywords", p.keywords);
  }

  lemma LoadOpenTo(m: map<string, JValue>, p: LinkedinSearchPayload)
    requires CarriesFields(m, p)
    ensures OpenToField(m) == Some(p.openTo)
  {
    assert Carries(m, "open_to", SearchPayloadFields(p)["open_to"]);
    if p.openTo.Some? {
      OpenTosOfOpenTos(p.openTo.value);
    }
  }

  lemma LoadAdvanced(m: map<string, JValue>, p: LinkedinSearchPayload)
    requires CarriesFields(m, p)
    ensures AdvancedField(m) == Some(p.advancedKeywords)
  {
    assert Carries(m, "advanced_keywords", SearchPayloadFields(p)["advanced_keywords"]);
    if p.advancedKeywords.Some? {
      AdvancedOfDump(p.advancedKeywords.value);
    }
  }

  /** Any object holding the fields of a valid payload loads back to it; other keys are ignored. */
  lemma LoadCarried(m: map<string, JValue>, p: LinkedinSearchPayload)
    requires p.Valid() && CarriesFields(m, p)
    ensures LoadSearchPayload(m) == Success(p)
  {
    LoadListsA(m, p);
    LoadListsB(m, p);
    LoadListsC(m, p);
    LoadLiterals(m, p);
    LoadOpenTo(m, p);
    LoadAdvanced(m, p);
  }

  /** An empty object loads as the default payload: both literals and every filter take their defaults. */
  lemma LoadEmptyObject()
    ensures LoadSearchPayload(map[]) == Success(DEFAULT_SEARCH_PAYLOAD)
  {
  }

  /** Loading a dump of a valid payload gives the payload back. */
  lemma LoadDumpRoundTrip(p: LinkedinSearchPayload)
    requires p.Valid()
    ensures LoadSearchPayload(DumpSearchPayload(p)) == Success(p)
  {
    DumpCarriesFields(p);
    LoadCarried(DumpSearchPayload(p), p);
  }
}
