/** The TestRail gateway (`TestRailClient`): configuration checks, request
    dispatch, the endpoint and payload builders and the normalisation of
    listing responses. Each operation is specified by a pure function of
    the conversation state (`Wire`); the `Client` class carries them out
    against a `Transport`. */
module TestRailGateway {
  import opened Common
  import opened Strings
  import opened Json
  import opened Http

  // TestRail status ids.
  const STATUS_PASSED: int := 1
  const STATUS_BLOCKED: int := 2
  const STATUS_UNTESTED: int := 3
  const STATUS_RETEST: int := 4
  const STATUS_FAILED: int := 5

  const MISSING_CONFIG: string :=
    "Missing required TestRail configuration parameters: base_url, username, and api_key are required"

  const API: string := "/index.php?/api/v2/"
  const PROJECTS_ENDPOINT: string := API + "get_projects"

  // ---------------------------------------------------------------------------
  // Construction

  /** The validated, normalised connection values a client keeps. */
  datatype Credentials = Credentials(baseUrl: string, username: string, apiKey: string)

  /** The value a constructor argument takes: from `config` when `config` is
      a non-empty dict (an absent key giving None), else the argument. */
  function Effective(arg: Option<string>, config: map<string, string>, key: string): (r: Option<string>)
    ensures config == map[] ==> r == arg
    ensures config != map[] ==> (r.Some? <==> key in config) && (key in config ==> r == Some(config[key]))
  {
    if config != map[] then (if key in config then Some(config[key]) else None) else arg
  }

  /** The validation and normalisation of the three effective values: all
      must be truthy, then the base URL loses its trailing slashes and the
      username and key their surrounding whitespace. */
  function Validate(b: Option<string>, u: Option<string>, k: Option<string>): (r: Result<Credentials>)
    ensures r.Ok? <==> TruthyStr(b) && TruthyStr(u) && TruthyStr(k)
    ensures r.Err? ==> r.error.ValueError?
    ensures r.Ok? ==> r.value.baseUrl == StripTrailing(b.value, '/')
    ensures r.Ok? ==> r.value.username == Strip(u.value) && r.value.apiKey == Strip(k.value)
  {
    if !(TruthyStr(b) && TruthyStr(u) && TruthyStr(k)) then
      Err(ValueError(MISSING_CONFIG))
    else
      var base := StripTrailing(b.value, '/');
      Ok(Credentials(base, Strip(u.value), Strip(k.value)))
  }

  /** `__init__` up to the connection test: a truthy config overrides the
      arguments, then the effective values are validated. */
  function Configure(baseUrl: Option<string>, username: Option<string>, apiKey: Option<string>,
                     config: map<string, string>): (r: Result<Credentials>)
  {
    Validate(Effective(baseUrl, config, "base_url"), Effective(username, config, "username"),
             Effective(apiKey, config, "api_key"))
  }

  /** What the constructor accepts: without a config the arguments are
      validated; with one, its three entries must exist and be non-empty,
      and the credentials are those entries normalised. */
  lemma ConfigureOutcome(baseUrl: Option<string>, username: Option<string>, apiKey: Option<string>,
                         config: map<string, string>)
    ensures config == map[] ==> Configure(baseUrl, username, apiKey, config) == Validate(baseUrl, username, apiKey)
    ensures var r := Configure(baseUrl, username, apiKey, config);
      config != map[] ==>
        (&& (r.Ok? <==> (&& "base_url" in config && config["base_url"] != ""
                         && "username" in config && config["username"] != ""
                         && "api_key" in config && config["api_key"] != ""))
         && (r.Ok? ==> r.value == Credentials(StripTrailing(config["base_url"], '/'), Strip(config["username"]),
                                              Strip(config["api_key"]))))
    ensures var r := Configure(baseUrl, username, apiKey, config);
      r.Err? ==> r.error.ValueError?
  {
  }

  /** A key made only of whitespace passes validation and is then stripped to "". */
  lemma WhitespaceKeyAccepted(baseUrl: string, username: string, key: string)
    requires baseUrl != "" && username != "" && key != ""
    requires forall i :: 0 <= i < |key| ==> IsSpace(key[i])
    ensures var r := Configure(Some(baseUrl), Some(username), Some(key), map[]);
      r.Ok? && r.value.apiKey == ""
  {
    StripBlank(key);
  }

  /** With a non-empty config the explicit arguments play no part. */
  lemma ConfigOverridesArguments(b1: Option<string>, u1: Option<string>, k1: Option<string>,
                                 b2: Option<string>, u2: Option<string>, k2: Option<string>,
                                 config: map<string, string>)
    requires config != map[]
    ensures Configure(b1, u1, k1, config) == Configure(b2, u2, k2, config)
  {
  }

  // ---------------------------------------------------------------------------
  // Requests

  /** One request with an already recognised verb: the URL is the base URL
      followed by the endpoint, the credentials go as Basic auth, and a GET
      carries no body. */
  function Dispatch(c: Credentials, v: Verb, endpoint: string, data: Option<Json>, w: Wire)
    : (out: (Result<Option<Json>>, Wire))
    ensures out.1.log == w.log + [Request(v, c.baseUrl + endpoint, (c.username, c.apiKey), if v == GET then None else data)]
    ensures out.0 == Interpret(NextReply(w.script)) && out.1.script == Remaining(w.script)
  {
    Exchange(w, Request(v, c.baseUrl + endpoint, (c.username, c.apiKey), if v == GET then None else data))
  }

  /** `_make_request`: an unsupported verb is a ValueError raised before
      anything is sent; otherwise the request is dispatched. */
  function MakeRequest(c: Credentials, verb: string, endpoint: string, data: Option<Json>, w: Wire)
    : (out: (Result<Option<Json>>, Wire))
    ensures ParseVerb(verb).Err? ==> out == (Err(ParseVerb(verb).error), w)
    ensures ParseVerb(verb).Ok? ==> out == Dispatch(c, ParseVerb(verb).value, endpoint, data, w)
  {
    match ParseVerb(verb)
    case Err(e) => (Err(e), w)
    case Ok(v) => Dispatch(c, v, endpoint, data, w)
  }

  /** The verbs the gateway itself uses are the recognised ones. */
  lemma LiteralVerbs(c: Credentials, endpoint: string, data: Option<Json>, w: Wire)
    ensures MakeRequest(c, "GET", endpoint, data, w) == Dispatch(c, GET, endpoint, None, w)
    ensures MakeRequest(c, "POST", endpoint, data, w) == Dispatch(c, POST, endpoint, data, w)
  {
    assert Upper("GET") == "GET";
    assert Upper("POST") == "POST";
  }

  /** Verbs are matched case-insensitively, and anything else is refused. */
  lemma VerbsAreCaseInsensitive(c: Credentials, endpoint: string, data: Option<Json>, w: Wire)
    ensures MakeRequest(c, "get", endpoint, data, w) == Dispatch(c, GET, endpoint, None, w)
    ensures MakeRequest(c, "Post", endpoint, data, w) == Dispatch(c, POST, endpoint, data, w)
    ensures MakeRequest(c, "put", endpoint, data, w) == Dispatch(c, PUT, endpoint, data, w)
    ensures MakeRequest(c, "DELETE", endpoint, data, w).1 == w
    ensures MakeRequest(c, "DELETE", endpoint, data, w).0.Err?
  {
    assert Upper("get") == "GET";
    assert Upper("Post") == "POST";
    assert Upper("put") == "PUT";
    assert Upper("DELETE") == "DELETE";
  }

  /** `__init__` as a whole: validation, then one probing GET of the project
      list whose failure is re-raised. Nothing is sent when validation fails. */
  function ConnectOutcome(baseUrl: Option<string>, username: Option<string>, apiKey: Option<string>,
                          config: map<string, string>, w: Wire): (out: (Result<Credentials>, Wire))
    ensures var c := Configure(baseUrl, username, apiKey, config);
      && (c.Err? ==> out == (Err(c.error), w))
      && (c.Ok? ==> out.1 == Dispatch(c.value, GET, PROJECTS_ENDPOINT, None, w).1)
      && (c.Ok? ==> (out.0.Ok? <==> Dispatch(c.value, GET, PROJECTS_ENDPOINT, None, w).0.Ok?))
      && (out.0.Ok? ==> out.0 == c)
  {
    match Configure(baseUrl, username, apiKey, config)
    case Err(e) => (Err(e), w)
    case Ok(c) =>
      var (probe, w1) := Dispatch(c, GET, PROJECTS_ENDPOINT, None, w);
      if probe.Err? then (Err(probe.error), w1) else (Ok(c), w1)
  }

  // ---------------------------------------------------------------------------
  // Listings

  /** The list a listing endpoint answers with: the value under `key` of an
      enveloped (paginated) answer, a bare list itself, and [] for anything
      else (None included). An envelope's value is passed on as it is. */
  function Listing(response: Option<Json>, key: string): (r: Json)
    ensures response.Some? && response.value.JObj? && key in response.value.fields ==>
      r == response.value.fields[key]
    ensures response.Some? && response.value.JArr? ==> r == response.value
    ensures !(response.Some? && (response.value.JArr? || (response.value.JObj? && key in response.value.fields))) ==>
      r == JArr([])
  {
    match response
    case Some(JObj(m)) => if key in m then m[key] else JArr([])
    case Some(JArr(xs)) => JArr(xs)
    case _ => JArr([])
  }

  /** Both shapes of a list answer normalise to the same list. */
  lemma ListingShapesAgree(items: seq<Json>, key: string)
    ensures Listing(Some(JArr(items)), key) == Listing(Some(JObj(map[key := JArr(items)])), key) == JArr(items)
  {
  }

  /** `isinstance(p, dict) and p.get('name') == name`. */
  predicate Named(p: Json, field: string, name: string) {
    p.JObj? && field in p.fields && p.fields[field] == JStr(name)
  }

  /** The first project named `name` in a list, None when there is none. */
  function FirstNamed(items: seq<Json>, name: string): (r: Option<map<string, Json>>)
    ensures r.Some? ==> exists i :: 0 <= i < |items| && items[i] == JObj(r.value) && Named(items[i], "name", name)
                               && forall j :: 0 <= j < i ==> !Named(items[j], "name", name)
    ensures r.None? ==> forall i :: 0 <= i < |items| ==> !Named(items[i], "name", name)
  {
    if items == [] then None
    else if Named(items[0], "name", name) then Some(items[0].fields)
    else
      var r := FirstNamed(items[1..], name);
      assert forall i :: 1 <= i < |items| ==> items[i] == items[1..][i - 1];
      r
  }

  /** `get_project_by_name` after the GET: a falsy answer finds nothing;
      iterating a list scans its dicts; iterating a string or a dict yields
      strings, none of which is a project; anything else cannot be iterated. */
  function FindProject(response: Option<Json>, name: string): (r: Result<Option<map<string, Json>>>)
    ensures !TruthyOpt(response) ==> r == Ok(None)
    ensures TruthyOpt(response) && Listing(response, "projects").JArr? ==>
      r == Ok(FirstNamed(Listing(response, "projects").items, name))
    ensures TruthyOpt(response) && (Listing(response, "projects").JStr? || Listing(response, "projects").JObj?) ==>
      r == Ok(None)
    ensures r.Err? <==> (TruthyOpt(response) &&
      (Listing(response, "projects").JNull? || Listing(response, "projects").JBool? || Listing(response, "projects").JInt?))
    ensures r.Err? ==> r.error == TypeError
  {
    if !TruthyOpt(response) then Ok(None)
    else match Listing(response, "projects")
      case JArr(xs) => Ok(FirstNamed(xs, name))
      case JStr(_) => Ok(None)
      case JObj(_) => Ok(None)
      case _ => Err(TypeError)
  }

  /** `get_project_by_name`: one GET of the project list; a project it
      returns carries the name asked for. */
  function ProjectCall(c: Credentials, name: string, w: Wire): (out: (Result<Option<map<string, Json>>>, Wire))
    ensures out.1 == Dispatch(c, GET, PROJECTS_ENDPOINT, None, w).1
    ensures out.0.Ok? && out.0.value.Some? ==> Named(JObj(out.0.value.value), "name", name)
  {
    var (resp, w1) := Dispatch(c, GET, PROJECTS_ENDPOINT, None, w);
    match resp
    case Err(e) => (Err(e), w1)
    case Ok(body) =>
      var r := FindProject(body, name);
      assert r.Ok? && r.value.Some? ==> Named(JObj(r.value.value), "name", name);
      (r, w1)
  }

  /** The `suite_id` qualifier of a listing endpoint, present only for a truthy suite. */
  function SuiteQualifier(suiteId: Option<int>): (q: string)
    ensures q == "" <==> !TruthyInt(suiteId)
  {
    if TruthyInt(suiteId) then "&suite_id=" + IntToString(suiteId.value) else ""
  }

  /** The qualifier carries the suite id in a form that reads back as it. */
  lemma SuiteQualifierRoundTrip(suiteId: Option<int>)
    requires TruthyInt(suiteId)
    ensures var q := SuiteQualifier(suiteId);
      |q| > 10 && q[..10] == "&suite_id=" && ParseInt(q[10..]) == suiteId
  {
    ParseIntToString(suiteId.value);
    var q := SuiteQualifier(suiteId);
    assert q[10..] == IntToString(suiteId.value);
  }

  function SectionsEndpoint(projectId: Id, suiteId: Option<int>): string {
    API + "get_sections/" + IdText(projectId) + SuiteQualifier(suiteId)
  }

  function CasesEndpoint(projectId: Id, suiteId: Option<int>): string {
    API + "get_cases/" + IdText(projectId) + SuiteQualifier(suiteId)
  }

  /** A listing call: one GET, its answer normalised under `key`. */
  function ListCall(c: Credentials, endpoint: string, key: string, w: Wire): (out: (Result<Json>, Wire))
    ensures out.1 == Dispatch(c, GET, endpoint, None, w).1
    ensures out.0.Ok? <==> Dispatch(c, GET, endpoint, None, w).0.Ok?
    ensures out.0.Ok? ==> out.0.value == Listing(Dispatch(c, GET, endpoint, None, w).0.value, key)
  {
    var (resp, w1) := Dispatch(c, GET, endpoint, None, w);
    match resp
    case Err(e) => (Err(e), w1)
    case Ok(body) => (Ok(Listing(body, key)), w1)
  }

  // ---------------------------------------------------------------------------
  // Payloads

  /** The body of `add_run`: always `case_ids` and `name` (by default a
      timestamped "Test Run - ..." literal); the optional fields only when truthy. */
  function RunPayload(caseIds: seq<Id>, suiteId: Option<int>, name: Option<string>, description: Option<string>,
                      milestoneId: Option<int>, assignedToId: Option<int>, now: string): (p: map<string, Json>)
    ensures "case_ids" in p && p["case_ids"] == JArr(seq(|caseIds|, i requires 0 <= i < |caseIds| => IdJson(caseIds[i])))
    ensures "name" in p && p["name"] == JStr(if TruthyStr(name) then name.value else "Test Run - " + now)
    ensures ("suite_id" in p <==> TruthyInt(suiteId)) && ("suite_id" in p ==> p["suite_id"] == JInt(suiteId.value))
    ensures ("description" in p <==> TruthyStr(description)) && ("description" in p ==> p["description"] == JStr(description.value))
    ensures ("milestone_id" in p <==> TruthyInt(milestoneId)) && ("milestone_id" in p ==> p["milestone_id"] == JInt(milestoneId.value))
    ensures ("assignedto_id" in p <==> TruthyInt(assignedToId)) && ("assignedto_id" in p ==> p["assignedto_id"] == JInt(assignedToId.value))
    ensures p.Keys <= {"case_ids", "name", "suite_id", "description", "milestone_id", "assignedto_id"}
  {
    var p := map["case_ids" := JArr(seq(|caseIds|, i requires 0 <= i < |caseIds| => IdJson(caseIds[i])))];
    var p := if TruthyInt(suiteId) then p["suite_id" := JInt(suiteId.value)] else p;
    var p := p["name" := JStr(if TruthyStr(name) then name.value else "Test Run - " + now)];
    var p := if TruthyStr(description) then p["description" := JStr(description.value)] else p;
    var p := if TruthyInt(milestoneId) then p["milestone_id" := JInt(milestoneId.value)] else p;
    if TruthyInt(assignedToId) then p["assignedto_id" := JInt(assignedToId.value)] else p
  }

  /** The body of `add_result_for_case`: always `status_id`, the rest only when truthy. */
  function ResultPayload(status: int, comment: Option<string>, elapsed: Option<string>,
                         defects: Option<string>, version: Option<string>): (p: map<string, Json>)
    ensures "status_id" in p && p["status_id"] == JInt(status)
    ensures ("comment" in p <==> TruthyStr(comment)) && ("comment" in p ==> p["comment"] == JStr(comment.value))
    ensures ("elapsed" in p <==> TruthyStr(elapsed)) && ("elapsed" in p ==> p["elapsed"] == JStr(elapsed.value))
    ensures ("defects" in p <==> TruthyStr(defects)) && ("defects" in p ==> p["defects"] == JStr(defects.value))
    ensures ("version" in p <==> TruthyStr(version)) && ("version" in p ==> p["version"] == JStr(version.value))
    ensures p.Keys <= {"status_id", "comment", "elapsed", "defects", "version"}
  {
    var p := map["status_id" := JInt(status)];
    var p := if TruthyStr(comment) then p["comment" := JStr(comment.value)] else p;
    var p := if TruthyStr(elapsed) then p["elapsed" := JStr(elapsed.value)] else p;
    var p := if TruthyStr(defects) then p["defects" := JStr(defects.value)] else p;
    if TruthyStr(version) then p["version" := JStr(version.value)] else p
  }

  /** The body of `add_section`: `name`, and `suite_id`/`parent_id` only when truthy. */
  function SectionPayload(name: string, suiteId: Option<int>, parentId: Option<int>): (p: map<string, Json>)
    ensures "name" in p && p["name"] == JStr(name)
    ensures ("suite_id" in p <==> TruthyInt(suiteId)) && ("suite_id" in p ==> p["suite_id"] == JInt(suiteId.value))
    ensures ("parent_id" in p <==> TruthyInt(parentId)) && ("parent_id" in p ==> p["parent_id"] == JInt(parentId.value))
    ensures p.Keys <= {"name", "suite_id", "parent_id"}
  {
    var p := map["name" := JStr(name)];
    var p := if TruthyInt(suiteId) then p["suite_id" := JInt(suiteId.value)] else p;
    if TruthyInt(parentId) then p["parent_id" := JInt(parentId.value)] else p
  }

  /** The body of `add_case`: `title` merged with the extra fields. Python
      refuses a second `title` keyword with a TypeError. */
  function CasePayload(title: string, extra: map<string, Json>): (r: Result<map<string, Json>>)
    ensures r.Ok? <==> "title" !in extra
    ensures r.Ok? ==> (r.value.Keys == extra.Keys + {"title"} && r.value["title"] == JStr(title)
                       && forall k :: k in extra ==> r.value[k] == extra[k])
  {
    if "title" in extra then Err(TypeError) else Ok(extra["title" := JStr(title)])
  }


  // ---------------------------------------------------------------------------
  // Endpoints of the single-request operations

  function RunEndpoint(projectId: Id): string {
    API + "add_run/" + IdText(projectId)
  }

  function ResultEndpoint(runId: Id, caseId: Id): string {
    API + "add_result_for_case/" + IdText(runId) + "/" + IdText(caseId)
  }

  function BatchEndpoint(runId: Id): string {
    API + "add_results_for_cases/" + IdText(runId)
  }

  function SectionEndpoint(projectId: Id): string {
    API + "add_section/" + IdText(projectId)
  }

  function CaseEndpoint(sectionId: Id): string {
    API + "add_case/" + IdText(sectionId)
  }

  /** The body of `add_results_for_cases`: the results, unchanged, under `results`. */
  function BatchPayload(results: seq<Json>): (p: map<string, Json>)
    ensures p.Keys == {"results"} && p["results"] == JArr(results)
  {
    map["results" := JArr(results)]
  }

  function NotFound(projectName: string): string {
    "Project '" + projectName + "' not found"
  }

  /** The success message of `create_test_run`, `add_section` and `add_case`
      reads the `id` of a truthy answer, which raises an AttributeError when
      the answer is not a dict; any other answer is passed on. */
  function Announced(r: Result<Option<Json>>): (a: Result<Option<Json>>)
    ensures (a.Err? && r.Ok?) <==> (r.Ok? && TruthyOpt(r.value) && !r.value.value.JObj?)
    ensures a.Err? && r.Ok? ==> a.error == AttributeError
    ensures a.Ok? || r.Err? ==> a == r
  {
    match r
    case Ok(Some(j)) => if Truthy(j) && !j.JObj? then Err(AttributeError) else r
    case _ => r
  }

  // ---------------------------------------------------------------------------
  // Operations made of more than one step

  /** `create_test_run`: look the project up, raise a ValueError when there
      is none, then POST the run payload to `add_run/<project id>`. */
  function CreateRunCall(c: Credentials, projectName: string, caseIds: seq<Id>, suiteId: Option<int>,
                         name: Option<string>, description: Option<string>, milestoneId: Option<int>,
                         assignedToId: Option<int>, now: string, w: Wire): (out: (Result<Option<Json>>, Wire))
    ensures var (p, w1) := ProjectCall(c, projectName, w);
      && (p.Err? ==> out == (Err(p.error), w1))
      && (p == Ok(None) ==> out == (Err(ValueError(NotFound(projectName))), w1))
      && (p.Ok? && p.value.Some? ==> |out.1.log| <= |w1.log| + 1)
  {
    var (p, w1) := ProjectCall(c, projectName, w);
    match p
    case Err(e) => (Err(e), w1)
    case Ok(None) => (Err(ValueError(NotFound(projectName))), w1)
    case Ok(Some(project)) =>
      match OptionalIdOf(if "id" in project then Some(project["id"]) else None)
      case Err(e) => (Err(e), w1)
      case Ok(pid) =>
        var payload := RunPayload(caseIds, suiteId, name, description, milestoneId, assignedToId, now);
        var (r, w2) := Dispatch(c, POST, RunEndpoint(pid), Some(JObj(payload)), w1);
        (Announced(r), w2)
  }

  /** A run created for a found project is posted to that project's id with
      the run payload, right after the project lookup. */
  lemma CreateRunPostsPayload(c: Credentials, projectName: string, caseIds: seq<Id>, suiteId: Option<int>,
                              name: Option<string>, description: Option<string>, milestoneId: Option<int>,
                              assignedToId: Option<int>, now: string, w: Wire, pid: int)
    requires var p := ProjectCall(c, projectName, w).0;
      p.Ok? && p.value.Some? && "id" in p.value.value && p.value.value["id"] == JInt(pid)
    ensures CreateRunCall(c, projectName, caseIds, suiteId, name, description, milestoneId, assignedToId, now, w).1.log
      == w.log + [Request(GET, c.baseUrl + PROJECTS_ENDPOINT, (c.username, c.apiKey), None),
                  Request(POST, c.baseUrl + RunEndpoint(Some(pid)), (c.username, c.apiKey),
                    Some(JObj(RunPayload(caseIds, suiteId, name, description, milestoneId, assignedToId, now))))]
  {
  }

  /** `add_section`: one POST of the section payload. */
  function AddSectionCall(c: Credentials, projectId: Id, name: string, suiteId: Option<int>, parentId: Option<int>,
                          w: Wire): (out: (Result<Option<Json>>, Wire))
    ensures var (r, w1) := Dispatch(c, POST, SectionEndpoint(projectId), Some(JObj(SectionPayload(name, suiteId, parentId))), w);
      out == (Announced(r), w1)
  {
    var (r, w1) := Dispatch(c, POST, SectionEndpoint(projectId), Some(JObj(SectionPayload(name, suiteId, parentId))), w);
    (Announced(r), w1)
  }

  /** `add_case`: the TypeError of a duplicate `title` is raised before
      anything is sent; otherwise one POST of the case payload. */
  function AddCaseCall(c: Credentials, sectionId: Id, title: string, extra: map<string, Json>, w: Wire)
    : (out: (Result<Option<Json>>, Wire))
    ensures "title" in extra ==> out == (Err(TypeError), w)
    ensures "title" !in extra ==>
      var (r, w1) := Dispatch(c, POST, CaseEndpoint(sectionId), Some(JObj(CasePayload(title, extra).value)), w);
      out == (Announced(r), w1)
  {
    match CasePayload(title, extra)
    case Err(e) => (Err(e), w)
    case Ok(body) =>
      var (r, w1) := Dispatch(c, POST, CaseEndpoint(sectionId), Some(JObj(body)), w);
      (Announced(r), w1)
  }

  // ---------------------------------------------------------------------------
  // The client object

  class Client {
    const baseUrl: string
    const username: string
    const apiKey: string
    const transport: Transport

    function Creds(): Credentials {
      Credentials(baseUrl, username, apiKey)
    }

    constructor (c: Credentials, transport: Transport)
      ensures Creds() == c && this.transport == transport
    {
      baseUrl := c.baseUrl;
      username := c.username;
      apiKey := c.apiKey;
      this.transport := transport;
    }

    /** `_make_request`. */
    method Request(verb: string, endpoint: string, data: Option<Json>) returns (r: Result<Option<Json>>)
      modifies transport
      ensures (r, transport.State()) == MakeRequest(Creds(), verb, endpoint, data, old(transport.State()))
    {
      var url := baseUrl + endpoint;
      var v := ParseVerb(verb);
      if v.Err? {
        return Err(v.error);
      }
      var body := if v.value == GET then None else data;
      r := transport.Send(Http.Request(v.value, url, (username, apiKey), body));
    }

    /** `get_project_by_name`: the answer is scanned in a loop for the first
        dict whose name matches. */
    method GetProjectByName(name: string) returns (r: Result<Option<map<string, Json>>>)
      modifies transport
      ensures (r, transport.State()) == ProjectCall(Creds(), name, old(transport.State()))
    {
      LiteralVerbs(Creds(), PROJECTS_ENDPOINT, None, transport.State());
      var resp := Request("GET", PROJECTS_ENDPOINT, None);
      if resp.Err? {
        return Err(resp.error);
      }
      if !TruthyOpt(resp.value) {
        return Ok(None);
      }
      var projects := Listing(resp.value, "projects");
      if !projects.JArr? {
        return if projects.JStr? || projects.JObj? then Ok(None) else Err(TypeError);
      }
      var items := projects.items;
      var i := 0;
      while i < |items|
        invariant 0 <= i <= |items|
        invariant FirstNamed(items, name) == FirstNamed(items[i..], name)
      {
        if Named(items[i], "name", name) {
          return Ok(Some(items[i].fields));
        }
        assert items[i..][1..] == items[i + 1..];
        i := i + 1;
      }
      return Ok(None);
    }

    /** `create_test_run`. */
    method CreateTestRun(projectName: string, caseIds: seq<Id>, suiteId: Option<int>, name: Option<string>,
                         description: Option<string>, milestoneId: Option<int>, assignedToId: Option<int>,
                         now: string) returns (r: Result<Option<Json>>)
      modifies transport
      ensures (r, transport.State()) ==
        CreateRunCall(Creds(), projectName, caseIds, suiteId, name, description, milestoneId, assignedToId, now,
                      old(transport.State()))
    {
      var project := GetProjectByName(projectName);
      if project.Err? {
        return Err(project.error);
      }
      if project.value.None? {
        return Err(ValueError(NotFound(projectName)));
      }
      var fields := project.value.value;
      var pid := OptionalIdOf(if "id" in fields then Some(fields["id"]) else None);
      if pid.Err? {
        return Err(pid.error);
      }
      var data := RunPayload(caseIds, suiteId, name, description, milestoneId, assignedToId, now);
      LiteralVerbs(Creds(), RunEndpoint(pid.value), Some(JObj(data)), transport.State());
      var testRun := Request("POST", RunEndpoint(pid.value), Some(JObj(data)));
      r := Announced(testRun);
    }

    /** `update_test_case_status`. */
    method UpdateTestCaseStatus(runId: Id, caseId: Id, status: int, comment: Option<string>,
                                elapsed: Option<string>, defects: Option<string>, version: Option<string>)
      returns (r: Result<Option<Json>>)
      modifies transport
      ensures (r, transport.State()) == Dispatch(Creds(), POST, ResultEndpoint(runId, caseId),
        Some(JObj(ResultPayload(status, comment, elapsed, defects, version))), old(transport.State()))
    {
      var data := ResultPayload(status, comment, elapsed, defects, version);
      LiteralVerbs(Creds(), ResultEndpoint(runId, caseId), Some(JObj(data)), transport.State());
      r := Request("POST", ResultEndpoint(runId, caseId), Some(JObj(data)));
    }

    /** `update_test_case_status_batch`. */
    method UpdateTestCaseStatusBatch(runId: Id, results: seq<Json>) returns (r: Result<Option<Json>>)
      modifies transport
      ensures (r, transport.State()) ==
        Dispatch(Creds(), POST, BatchEndpoint(runId), Some(JObj(BatchPayload(results))), old(transport.State()))
    {
      LiteralVerbs(Creds(), BatchEndpoint(runId), Some(JObj(BatchPayload(results))), transport.State());
      r := Request("POST", BatchEndpoint(runId), Some(JObj(BatchPayload(results))));
    }

    /** `get_sections`. */
    method GetSections(projectId: Id, suiteId: Option<int>) returns (r: Result<Json>)
      modifies transport
      ensures (r, transport.State()) == ListCall(Creds(), SectionsEndpoint(projectId, suiteId), "sections", old(transport.State()))
    {
      var endpoint := API + "get_sections/" + IdText(projectId);
      ghost var base := endpoint;
      if TruthyInt(suiteId) {
        var q := "&suite_id=" + IntToString(suiteId.value);
        assert q == SuiteQualifier(suiteId);
        endpoint := endpoint + q;
      } else {
        assert SuiteQualifier(suiteId) == "";
      }
      assert endpoint == base + SuiteQualifier(suiteId);
      LiteralVerbs(Creds(), endpoint, None, transport.State());
      var resp := Request("GET", endpoint, None);
      if resp.Err? {
        return Err(resp.error);
      }
      return Ok(Listing(resp.value, "sections"));
    }

    /** `add_section`. */
    method AddSection(projectId: Id, name: string, suiteId: Option<int>, parentId: Option<int>)
      returns (r: Result<Option<Json>>)
      modifies transport
      ensures (r, transport.State()) == AddSectionCall(Creds(), projectId, name, suiteId, parentId, old(transport.State()))
    {
      var data := SectionPayload(name, suiteId, parentId);
      LiteralVerbs(Creds(), SectionEndpoint(projectId), Some(JObj(data)), transport.State());
      var section := Request("POST", SectionEndpoint(projectId), Some(JObj(data)));
      r := Announced(section);
    }

    /** `get_cases`. */
    method GetCases(projectId: Id, suiteId: Option<int>) returns (r: Result<Json>)
      modifies transport
      ensures (r, transport.State()) == ListCall(Creds(), CasesEndpoint(projectId, suiteId), "cases", old(transport.State()))
    {
      var endpoint := API + "get_cases/" + IdText(projectId);
      ghost var base := endpoint;
      if TruthyInt(suiteId) {
        var q := "&suite_id=" + IntToString(suiteId.value);
        assert q == SuiteQualifier(suiteId);
        endpoint := endpoint + q;
      } else {
        assert SuiteQualifier(suiteId) == "";
      }
      assert endpoint == base + SuiteQualifier(suiteId);
      LiteralVerbs(Creds(), endpoint, None, transport.State());
      var resp := Request("GET", endpoint, None);
      if resp.Err? {
        return Err(resp.error);
      }
      return Ok(Listing(resp.value, "cases"));
    }

    /** `add_case`. */
    method AddCase(sectionId: Id, title: string, extra: map<string, Json>) returns (r: Result<Option<Json>>)
      modifies transport
      ensures (r, transport.State()) == AddCaseCall(Creds(), sectionId, title, extra, old(transport.State()))
    {
      if "title" in extra {
        return Err(TypeError);
      }
      var data := CasePayload(title, extra).value;
      LiteralVerbs(Creds(), CaseEndpoint(sectionId), Some(JObj(data)), transport.State());
      var created := Request("POST", CaseEndpoint(sectionId), Some(JObj(data)));
      r := Announced(created);
    }

    /** `get_test_run`. */
    method GetTestRun(runId: Id) returns (r: Result<Option<Json>>)
      modifies transport
      ensures (r, transport.State()) == Dispatch(Creds(), GET, API + "get_run/" + IdText(runId), None, old(transport.State()))
    {
      LiteralVerbs(Creds(), API + "get_run/" + IdText(runId), None, transport.State());
      r := Request("GET", API + "get_run/" + IdText(runId), None);
    }

    /** `get_tests_in_run`. */
    method GetTestsInRun(runId: Id) returns (r: Result<Option<Json>>)
      modifies transport
      ensures (r, transport.State()) == Dispatch(Creds(), GET, API + "get_tests/" + IdText(runId), None, old(transport.State()))
    {
      LiteralVerbs(Creds(), API + "get_tests/" + IdText(runId), None, transport.State());
      r := Request("GET", API + "get_tests/" + IdText(runId), None);
    }
  }

  /** `TestRailClient(...)`: validate, build the client, probe the connection. */
  method Connect(baseUrl: Option<string>, username: Option<string>, apiKey: Option<string>,
                 config: map<string, string>, transport: Transport) returns (r: Result<Client>)
    modifies transport
    ensures r.Ok? ==> fresh(r.value) && r.value.transport == transport
    ensures (if r.Ok? then Ok(r.value.Creds()) else Err(r.error), transport.State())
            == ConnectOutcome(baseUrl, username, apiKey, config, old(transport.State()))
  {
    var creds := Configure(baseUrl, username, apiKey, config);
    if creds.Err? {
      return Err(creds.error);
    }
    var client := new Client(creds.value, transport);
    LiteralVerbs(creds.value, PROJECTS_ENDPOINT, None, transport.State());
    var probe := client.Request("GET", PROJECTS_ENDPOINT, None);
    if probe.Err? {
      return Err(probe.error);
    }
    return Ok(client);
  }
}
