/** The TestRail integration object (`TestRail`): its settings, read from the
    `[testrail]` section of an INI configuration; `connect`, which builds a
    client and looks the project up; and `run`, which loads the report,
    lists the sections and cases, creates the missing ones, creates the run
    and posts every result in one batch. Every failure of `run` is turned
    into the answer false. */
module TestRailManager {
  import opened Common
  import opened Strings
  import opened Json
  import opened Http
  import opened Assoc
  import opened Reports
  import opened TestRailGateway
  import opened TestInfoExtraction
  import opened Reconciler
  import opened IniConfig

  // ---------------------------------------------------------------------------
  // Settings

  const SECTION: string := "testrail"

  /** The `suite_id` setting: a truthy text that is not blank goes through
      `int()`; an absent, empty or blank one means no suite. (An empty text is
      kept as "" by the source, which every later use treats like None.) */
  function SuiteIdOf(raw: Option<string>): (r: Result<Option<int>>)
    ensures (!TruthyStr(raw) || Strip(raw.value) == "") ==> r == Ok(None)
    ensures TruthyStr(raw) && Strip(raw.value) != "" ==>
      && (r.Ok? <==> ParseInt(raw.value).Some?)
      && (r.Ok? ==> r.value == ParseInt(raw.value))
      && (r.Err? ==> r.error.ValueError?)
  {
    if !TruthyStr(raw) || Strip(raw.value) == "" then Ok(None)
    else match IntOf(raw.value)
      case Err(e) => Err(e)
      case Ok(n) => Ok(Some(n))
  }

  /** A suite id written in decimal reads back as itself; a blank one means no suite. */
  lemma SuiteIdRoundTrip(n: int, blank: string)
    requires forall i :: 0 <= i < |blank| ==> IsSpace(blank[i])
    ensures SuiteIdOf(Some(IntToString(n))) == Ok(Some(n))
    ensures SuiteIdOf(Some(blank)) == Ok(None)
  {
    ParseIntToString(n);
    IntToStringUnpadded(n);
    StripBlank(blank);
  }

  /** What `__init__` keeps. */
  datatype Settings = Settings(
    testrailConfig: map<string, string>,
    projectName: string,
    suiteId: Option<int>,
    runName: Option<string>,
    runDescription: Option<string>)

  /** `__init__` up to the state fields. The four required options are read
      in order, the first missing one raising; `suite_id` may then fail to
      convert. */
  function ReadSettings(cfg: ConfigFile): (r: Result<Settings>)
    ensures r.Ok? <==> && SECTION in cfg
                       && "base_url" in cfg[SECTION] && "username" in cfg[SECTION]
                       && "api_key" in cfg[SECTION] && "project_name" in cfg[SECTION]
                       && SuiteIdOf(ConfigFallback(cfg, SECTION, "suite_id")).Ok?
    ensures SECTION !in cfg ==> r == Err(NoSection(SECTION))
    ensures SECTION in cfg ==>
      var opts := cfg[SECTION];
      && ("base_url" !in opts ==> r == Err(NoOption(SECTION, "base_url")))
      && ("base_url" in opts && "username" !in opts ==> r == Err(NoOption(SECTION, "username")))
      && ("base_url" in opts && "username" in opts && "api_key" !in opts ==> r == Err(NoOption(SECTION, "api_key")))
      && ("base_url" in opts && "username" in opts && "api_key" in opts && "project_name" !in opts ==>
            r == Err(NoOption(SECTION, "project_name")))
    ensures r.Ok? ==>
      var opts := cfg[SECTION];
      && r.value.testrailConfig == map["base_url" := opts["base_url"], "username" := opts["username"],
                                       "api_key" := opts["api_key"]]
      && r.value.projectName == opts["project_name"]
      && SuiteIdOf(ConfigFallback(cfg, SECTION, "suite_id")) == Ok(r.value.suiteId)
      && r.value.runName == ConfigFallback(cfg, SECTION, "run_name")
      && r.value.runDescription == ConfigFallback(cfg, SECTION, "run_description")
  {
    var baseUrl :- ConfigGet(cfg, SECTION, "base_url");
    var username :- ConfigGet(cfg, SECTION, "username");
    var apiKey :- ConfigGet(cfg, SECTION, "api_key");
    var projectName :- ConfigGet(cfg, SECTION, "project_name");
    var suiteId :- SuiteIdOf(ConfigFallback(cfg, SECTION, "suite_id"));
    Ok(Settings(map["base_url" := baseUrl, "username" := username, "api_key" := apiKey], projectName, suiteId,
                ConfigFallback(cfg, SECTION, "run_name"), ConfigFallback(cfg, SECTION, "run_description")))
  }

  // ---------------------------------------------------------------------------
  // The state `connect` and `run` act on

  /** The integration object's mutable state and what it talks to: its
      client (by the credentials it holds), project, project id, run id and
      report cache, the conversation with the service, and the file accesses. */
  datatype Session = Session(
    client: Option<Credentials>,
    project: Option<map<string, Json>>,
    projectId: Id,
    runId: Id,
    cache: Option<Report>,
    wire: Wire,
    accesses: seq<Access>)

  function MissingProject(projectName: string): string {
    "Project '" + projectName + "' not found in TestRail"
  }

  /** `connect`: a client is built from the stored config (validation and
      probe included) and kept, then the project is looked up and kept, and
      its id is read with `.get("id")`. A missing project raises a ValueError
      after the client and the (empty) project have been stored. */
  function ConnectSpec(st: Settings, s: Session): (out: (Result<bool>, Session))
    ensures out.1.cache == s.cache && out.1.accesses == s.accesses && out.1.runId == s.runId
    ensures out.0.Ok? ==> out.0.value && out.1.client.Some? && out.1.project.Some?
                          && Named(JObj(out.1.project.value), "name", st.projectName)
    ensures Configure(None, None, None, st.testrailConfig).Err? ==>
      out == (Err(Configure(None, None, None, st.testrailConfig).error), s)
  {
    var (c, w1) := ConnectOutcome(None, None, None, st.testrailConfig, s.wire);
    match c
    case Err(e) => (Err(e), s.(wire := w1))
    case Ok(creds) => LookupSpec(st, s.(client := Some(creds), wire := w1))
  }

  /** The part of `connect` after the client is stored: the project is looked
      up and kept, and its id is read with `.get("id")`. A missing project
      raises a ValueError after the (empty) project has been stored. */
  function LookupSpec(st: Settings, s: Session): (out: (Result<bool>, Session))
    requires s.client.Some?
    ensures out.1.client == s.client && out.1.cache == s.cache && out.1.accesses == s.accesses
    ensures out.1.runId == s.runId
    ensures out.0.Ok? ==> out.0.value && out.1.project.Some?
                          && Named(JObj(out.1.project.value), "name", st.projectName)
  {
    var (p, w2) := ProjectCall(s.client.value, st.projectName, s.wire);
    var s1 := s.(wire := w2);
    match p
    case Err(e) => (Err(e), s1)
    case Ok(project) =>
      var s2 := s1.(project := project);
      if project.None? || project.value == map[] then (Err(ValueError(MissingProject(st.projectName))), s2)
      else match OptionalIdOf(if "id" in project.value then Some(project.value["id"]) else None)
        case Err(e) => (Err(e), s2)
        case Ok(id) => (Ok(true), s2.(projectId := id))
  }

  /** `ConnectSpec` from the outcome of building the client. */
  lemma ConnectSpecSplit(st: Settings, s: Session, c: Result<Credentials>, w1: Wire)
    requires ConnectOutcome(None, None, None, st.testrailConfig, s.wire) == (c, w1)
    ensures c.Err? ==> ConnectSpec(st, s) == (Err(c.error), s.(wire := w1))
    ensures c.Ok? ==> ConnectSpec(st, s) == LookupSpec(st, s.(client := Some(c.value), wire := w1))
  {
  }

  /** When the project is not found, `connect` raises but the client stays
      set, so a later `run` skips `connect` and goes on with the old project id. */
  lemma ConnectKeepsClientWhenProjectMissing(st: Settings, s: Session)
    requires var (c, w1) := ConnectOutcome(None, None, None, st.testrailConfig, s.wire);
      c.Ok? && ProjectCall(c.value, st.projectName, w1).0 == Ok(None)
    ensures var out := ConnectSpec(st, s);
      && out.0 == Err(ValueError(MissingProject(st.projectName)))
      && out.1.client.Some? && out.1.project.None? && out.1.projectId == s.projectId
  {
  }

  /** The lookup of `connect` sends exactly one request, the GET of the projects. */
  lemma LookupSendsOne(st: Settings, s: Session)
    requires s.client.Some?
    ensures var c := s.client.value;
      LookupSpec(st, s).1.wire.log ==
        s.wire.log + [Request(GET, c.baseUrl + PROJECTS_ENDPOINT, (c.username, c.apiKey), None)]
  {
  }

  /** `connect` sends at most two requests: the probe and the lookup. */
  lemma ConnectSendsAtMostTwo(st: Settings, s: Session)
    ensures |s.wire.log| <= |ConnectSpec(st, s).1.wire.log| <= |s.wire.log| + 2
  {
    var (c, w1) := ConnectOutcome(None, None, None, st.testrailConfig, s.wire);
    ConnectSpecSplit(st, s, c, w1);
    if c.Ok? {
      LookupSendsOne(st, s.(client := Some(c.value), wire := w1));
    }
  }

  // ---------------------------------------------------------------------------
  // The results batch

  /** One entry of the batch: case id and status, and the failure text as the
      comment when it is truthy. */
  function ResultEntry(caseId: Id, info: TestInfo): (j: Json)
    ensures j.JObj?
    ensures j.fields.Keys == if TruthyStr(info.failureReason) then {"case_id", "status_id", "comment"}
                             else {"case_id", "status_id"}
    ensures j.fields["case_id"] == IdJson(caseId) && j.fields["status_id"] == JInt(info.status)
    ensures TruthyStr(info.failureReason) ==> j.fields["comment"] == JStr(info.failureReason.value)
  {
    var r := map["case_id" := IdJson(caseId), "status_id" := JInt(info.status)];
    JObj(if TruthyStr(info.failureReason) then r["comment" := JStr(info.failureReason.value)] else r)
  }

  /** The batch for the case-to-test dict, in its order. */
  function ResultsOf(latest: seq<(Id, TestInfo)>): seq<Json> {
    seq(|latest|, i requires 0 <= i < |latest| => ResultEntry(latest[i].0, latest[i].1))
  }

  /** The second loop of `run`: one entry per entry of the case-to-test dict. */
  method BuildResults(latest: seq<(Id, TestInfo)>) returns (results: seq<Json>)
    ensures |results| == |latest|
    ensures forall i :: 0 <= i < |latest| ==> results[i] == ResultEntry(latest[i].0, latest[i].1)
  {
    results := [];
    var i := 0;
    while i < |latest|
      invariant 0 <= i <= |latest| && |results| == i
      invariant forall k :: 0 <= k < i ==> results[k] == ResultEntry(latest[k].0, latest[k].1)
    {
      var (caseId, info) := latest[i];
      var result := map["case_id" := IdJson(caseId), "status_id" := JInt(info.status)];
      if TruthyStr(info.failureReason) {
        result := result["comment" := JStr(info.failureReason.value)];
      }
      results := results + [JObj(result)];
      i := i + 1;
    }
  }

  /** The batch has one entry per distinct case id, in the order the ids were
      first used. */
  lemma BatchCoversEachCaseOnce(caseIds: seq<Id>, infos: seq<TestInfo>)
    requires |caseIds| == |infos|
    ensures var rs := ResultsOf(FromPairs(caseIds, infos));
      && |rs| == |Dedup(caseIds)|
      && forall k :: 0 <= k < |rs| ==> rs[k].JObj? && rs[k].fields["case_id"] == IdJson(Dedup(caseIds)[k])
  {
    FromPairsKeys(caseIds, infos);
  }

  /** A case used by several tests is reported with the last of them. */
  lemma BatchReportsLastTest(caseIds: seq<Id>, infos: seq<TestInfo>, i: nat)
    requires |caseIds| == |infos| && i < |caseIds|
    requires forall j :: i < j < |caseIds| ==> caseIds[j] != caseIds[i]
    ensures ResultEntry(caseIds[i], infos[i]) in ResultsOf(FromPairs(caseIds, infos))
  {
    var d := FromPairs(caseIds, infos);
    FromPairsLast(caseIds, infos, i);
    LookupFound(d, caseIds[i], infos[i]);
    var k :| 0 <= k < |d| && d[k] == (caseIds[i], infos[i]);
    assert ResultsOf(d)[k] == ResultEntry(caseIds[i], infos[i]);
  }

  // ---------------------------------------------------------------------------
  // `run`, stage by stage

  const DEFAULT_RUN_NAME: string := "Automation Run - "

  /** The name of the run: the configured one when truthy, else a
      timestamped default (`now` is the formatted current time). */
  function RunName(configured: Option<string>, now: string): (name: string)
    ensures name != ""
    ensures TruthyStr(configured) ==> name == configured.value
    ensures !TruthyStr(configured) ==> name == DEFAULT_RUN_NAME + now
  {
    if TruthyStr(configured) then configured.value else DEFAULT_RUN_NAME + now
  }

  /** `test_run.get("id")`. */
  function RunIdOf(run: Json): (r: Result<Id>)
    ensures !run.JObj? ==> r == Err(AttributeError)
    ensures run.JObj? ==> r == OptionalIdOf(if "id" in run.fields then Some(run.fields["id"]) else None)
  {
    match GetKey(run, "id")
    case Err(e) => Err(e)
    case Ok(x) => OptionalIdOf(x)
  }

  /** The test records of the report, decomposed. */
  function Infos(tests: seq<TestRecord>): (infos: seq<TestInfo>)
    ensures |infos| == |tests| && forall i :: 0 <= i < |tests| ==> infos[i] == ExtractTestInfo(tests[i])
  {
    seq(|tests|, i requires 0 <= i < |tests| => ExtractTestInfo(tests[i]))
  }

  /** Creating the run and posting the batch: a failing or falsy answer to
      the creation ends the run with false; otherwise the run id is stored
      and the batch is posted, its failure ending the run with false. */
  function FinishSpec(st: Settings, s: Session, creds: Credentials, caseIds: seq<Id>, latest: seq<(Id, TestInfo)>,
                  now: string): (out: (bool, Session))
    ensures out.1 == s.(wire := out.1.wire, runId := out.1.runId)
  {
    var (r, w1) := CreateRunCall(creds, st.projectName, caseIds, st.suiteId, Some(RunName(st.runName, now)),
                                 st.runDescription, None, None, now, s.wire);
    if r.Err? || !TruthyOpt(r.value) then (false, s.(wire := w1))
    else match RunIdOf(r.value.value)
      case Err(_) => (false, s.(wire := w1))
      case Ok(rid) =>
        var (b, w2) := Dispatch(creds, POST, BatchEndpoint(rid), Some(JObj(BatchPayload(ResultsOf(latest)))), w1);
        (b.Ok?, s.(wire := w2, runId := rid))
  }

  /** Listing, creating what is missing, then `FinishSpec`. */
  function PublishSpec(st: Settings, s: Session, creds: Credentials, infos: seq<TestInfo>, now: string): (out: (bool, Session))
    ensures out.1 == s.(wire := out.1.wire, runId := out.1.runId)
  {
    var (ls, w1) := ListCall(creds, SectionsEndpoint(s.projectId, st.suiteId), "sections", s.wire);
    if ls.Err? then (false, s.(wire := w1))
    else
      var sm := NameMap(ls.value, "name");
      if sm.Err? then (false, s.(wire := w1))
      else
        var (lc, w2) := ListCall(creds, CasesEndpoint(s.projectId, st.suiteId), "cases", w1);
        if lc.Err? then (false, s.(wire := w2))
        else
          var cm := NameMap(lc.value, "title");
          if cm.Err? then (false, s.(wire := w2))
          else
            var p := Fold(Target(creds, s.projectId, st.suiteId), Start(sm.value, cm.value, w2), infos);
            if p.error.Some? then (false, s.(wire := p.wire))
            else FinishSpec(st, s.(wire := p.wire), creds, p.caseIds, p.latest, now)
  }

  /** Everything after `connect`: load the report (a report without tests
      ends the run with false), then `PublishSpec`. */
  function SyncSpec(st: Settings, s: Session, files: map<string, FileContent>, now: string): (out: (bool, Session))
    requires s.client.Some?
    ensures out.1 == s.(cache := out.1.cache, accesses := out.1.accesses, wire := out.1.wire, runId := out.1.runId)
    ensures out.0 ==> var r := LoadOutcome(s.cache, files);
      r.Ok? && Tests(r.value) != [] && out.1.cache == Some(r.value)
  {
    var r := LoadOutcome(s.cache, files);
    var s1 := s.(cache := if r.Ok? then Some(r.value) else s.cache, accesses := s.accesses + LoadAccesses(s.cache, files));
    if r.Err? || Tests(r.value) == [] then (false, s1)
    else PublishSpec(st, s1, s.client.value, Infos(Tests(r.value)), now)
  }

  /** `run`: connect first when there is no client yet. */
  function RunSpec(st: Settings, s: Session, files: map<string, FileContent>, now: string): (out: (bool, Session)) {
    if s.client.Some? then SyncSpec(st, s, files, now)
    else
      var (c, s1) := ConnectSpec(st, s);
      if c.Err? then (false, s1) else SyncSpec(st, s1, files, now)
  }

  // ---------------------------------------------------------------------------
  // What `run` guarantees

  /** A run whose connection fails neither reads the report nor sends
      anything beyond the connection attempt. */
  lemma RunStopsWhenConnectFails(st: Settings, s: Session, files: map<string, FileContent>, now: string)
    requires s.client.None? && ConnectSpec(st, s).0.Err?
    ensures RunSpec(st, s, files, now) == (false, ConnectSpec(st, s).1)
    ensures RunSpec(st, s, files, now).1.accesses == s.accesses
  {
  }

  /** A report without tests makes the run fail after the connection, with
      no listing, creation, run or result request. */
  lemma RunWithoutTestsSendsNothing(st: Settings, s: Session, files: map<string, FileContent>, now: string)
    requires LoadOutcome(s.cache, files).Ok? && Tests(LoadOutcome(s.cache, files).value) == []
    ensures var out := RunSpec(st, s, files, now);
      && !out.0
      && out.1.wire == (if s.client.Some? then s.wire else ConnectSpec(st, s).1.wire)
  {
  }

  /** `FinishSpec` succeeds only after creating the run and posting the batch for
      the stored run id: its last three requests are the project lookup, the
      run creation and the batch. */
  lemma FinishPostsBatch(st: Settings, s: Session, creds: Credentials, caseIds: seq<Id>,
                         latest: seq<(Id, TestInfo)>, now: string)
    requires FinishSpec(st, s, creds, caseIds, latest, now).0
    ensures var s' := FinishSpec(st, s, creds, caseIds, latest, now).1;
      && |s'.wire.log| == |s.wire.log| + 3
      && s'.wire.log[|s.wire.log|] == Request(GET, creds.baseUrl + PROJECTS_ENDPOINT, (creds.username, creds.apiKey), None)
      && s'.wire.log[|s.wire.log| + 1].verb == POST
      && s'.wire.log[|s.wire.log| + 2] == Request(POST, creds.baseUrl + BatchEndpoint(s'.runId),
                                            (creds.username, creds.apiKey),
                                            Some(JObj(BatchPayload(ResultsOf(latest)))))
  {
  }

  /** A successful publication ends with the batch for the stored run id;
      the batch holds the entries of the case-to-test dict built from one case
      id per test. Before it come the two listings, the project lookup and the
      run creation. */
  lemma PublishPostsBatch(st: Settings, s: Session, creds: Credentials, infos: seq<TestInfo>, now: string)
    requires PublishSpec(st, s, creds, infos, now).0
    ensures var s' := PublishSpec(st, s, creds, infos, now).1;
      && |s'.wire.log| >= |s.wire.log| + 4
      && exists caseIds: seq<Id> {:trigger FromPairs(caseIds, infos)} :: |caseIds| == |infos| &&
           s'.wire.log[|s'.wire.log| - 1] ==
             Request(POST, creds.baseUrl + BatchEndpoint(s'.runId), (creds.username, creds.apiKey),
                     Some(JObj(BatchPayload(ResultsOf(FromPairs(caseIds, infos))))))
  {
    var (ls, w1) := ListCall(creds, SectionsEndpoint(s.projectId, st.suiteId), "sections", s.wire);
    var sm := NameMap(ls.value, "name");
    var (lc, w2) := ListCall(creds, CasesEndpoint(s.projectId, st.suiteId), "cases", w1);
    var cm := NameMap(lc.value, "title");
    var t := Target(creds, s.projectId, st.suiteId);
    var p := Fold(t, Start(sm.value, cm.value, w2), infos);
    WalkSendsOnlyCreations(t, sm.value, cm.value, w2, infos);
    WalkRecordsEveryTest(t, sm.value, cm.value, w2, infos);
    FinishPostsBatch(st, s.(wire := p.wire), creds, p.caseIds, p.latest, now);
  }

  /** The session `after` extends a log of at least `n` requests by four or
      more, the last being the POST of the batch for the stored run id with
      the credentials `c`. */
  predicate EndsWithBatch(c: Credentials, n: nat, after: Session) {
    && |after.wire.log| >= n + 4
    && var last := after.wire.log[|after.wire.log| - 1];
       last.verb == POST && last.url == c.baseUrl + BatchEndpoint(after.runId) && last.auth == (c.username, c.apiKey)
  }

  /** The shape of the last request of a successful publication. */
  lemma PublishEndsWithBatchPost(st: Settings, s: Session, creds: Credentials, infos: seq<TestInfo>, now: string)
    requires PublishSpec(st, s, creds, infos, now).0
    ensures EndsWithBatch(creds, |s.wire.log|, PublishSpec(st, s, creds, infos, now).1)
  {
    PublishPostsBatch(st, s, creds, infos, now);
  }

  /** `SyncSpec` answers true only after posting the batch last. */
  lemma SyncPostsBatch(st: Settings, s: Session, files: map<string, FileContent>, now: string)
    requires s.client.Some? && SyncSpec(st, s, files, now).0
    ensures EndsWithBatch(s.client.value, |s.wire.log|, SyncSpec(st, s, files, now).1)
  {
    var rep := LoadOutcome(s.cache, files);
    var s1 := s.(cache := Some(rep.value), accesses := s.accesses + LoadAccesses(s.cache, files));
    var infos := Infos(Tests(rep.value));
    assert SyncSpec(st, s, files, now) == PublishSpec(st, s1, s.client.value, infos, now);
    PublishEndsWithBatchPost(st, s1, s.client.value, infos, now);
  }

  /** A run that answers true had a report with tests, which it cached, and
      its last request is the POST of the batch for the stored run id. */
  lemma RunSuccessPostsBatch(st: Settings, s: Session, files: map<string, FileContent>, now: string)
    requires RunSpec(st, s, files, now).0
    ensures var s' := RunSpec(st, s, files, now).1;
      var rep := LoadOutcome(s.cache, files);
      && s'.client.Some? && rep.Ok? && Tests(rep.value) != [] && s'.cache == Some(rep.value)
      && EndsWithBatch(s'.client.value, |s.wire.log|, s')
  {
    if s.client.Some? {
      assert RunSpec(st, s, files, now) == SyncSpec(st, s, files, now);
      SyncPostsBatch(st, s, files, now);
    } else {
      var (c, s1) := ConnectSpec(st, s);
      if c.Err? {
        assert false;
      }
      ConnectSendsAtMostTwo(st, s);
      assert RunSpec(st, s, files, now) == SyncSpec(st, s1, files, now);
      SyncPostsBatch(st, s1, files, now);
    }
  }

  // ---------------------------------------------------------------------------
  // The integration object

  class TestRail {
    const settings: Settings
    const loader: ReportLoader
    const transport: Transport
    var client: Option<Client>
    var project: Option<map<string, Json>>
    var projectId: Id
    var runId: Id

    /** The client, once there is one, talks to this object's service. */
    predicate Valid()
      reads this
    {
      client.Some? ==> client.value.transport == transport
    }

    function State(): Session
      reads this, loader, loader.fs, transport
    {
      Session(if client.Some? then Some(client.value.Creds()) else None, project, projectId, runId,
              loader.cached, transport.State(), loader.fs.accesses)
    }

    /** `__init__` once the settings are read: no client, project or run yet,
        and an empty report cache. */
    constructor (settings: Settings, fs: FileSystem, transport: Transport)
      ensures this.settings == settings && this.transport == transport && loader.fs == fs && fresh(loader)
      ensures Valid() && State() == Session(None, None, None, None, None, transport.State(), fs.accesses)
    {
      this.settings := settings;
      this.transport := transport;
      loader := new ReportLoader(fs);
      client := None;
      project := None;
      projectId := None;
      runId := None;
    }

    /** `connect`. */
    method Connect() returns (r: Result<bool>)
      requires Valid()
      modifies this, transport
      ensures Valid()
      ensures (r, State()) == ConnectSpec(settings, old(State()))
    {
      ghost var s0 := State();
      var c := TestRailGateway.Connect(None, None, None, settings.testrailConfig, transport);
      ghost var w1 := transport.State();
      if c.Err? {
        ConnectSpecSplit(settings, s0, Err(c.error), w1);
        assert State() == s0.(wire := w1);
        return Err(c.error);
      }
      client := Some(c.value);
      ghost var s1 := State();
      assert s1 == s0.(client := Some(c.value.Creds()), wire := w1);
      ConnectSpecSplit(settings, s0, Ok(c.value.Creds()), w1);
      r := Lookup();
    }

    /** The project lookup of `connect`, once the client is stored. */
    method Lookup() returns (r: Result<bool>)
      requires Valid() && client.Some?
      modifies this, transport
      ensures Valid()
      ensures (r, State()) == LookupSpec(settings, old(State()))
    {
      var found := client.value.GetProjectByName(settings.projectName);
      if found.Err? {
        return Err(found.error);
      }
      project := found.value;
      if project.None? || project.value == map[] {
        return Err(ValueError(MissingProject(settings.projectName)));
      }
      var id := OptionalIdOf(if "id" in project.value then Some(project.value["id"]) else None);
      if id.Err? {
        return Err(id.error);
      }
      projectId := id.value;
      return Ok(true);
    }

    /** The first loop of `run`: get or create the section and the case of
        every test, collecting the case ids and the case-to-test dict. */
    method CreateMissing(cl: Client, infos: seq<TestInfo>, sections: map<string, Id>, cases: map<string, Id>)
      returns (caseIds: seq<Id>, latest: seq<(Id, TestInfo)>, err: Option<Error>)
      requires cl.transport == transport
      modifies transport
      ensures var p := Fold(Target(cl.Creds(), projectId, settings.suiteId),
                            Start(sections, cases, old(transport.State())), infos);
        && transport.State() == p.wire && err == p.error
        && (err.None? ==> caseIds == p.caseIds && latest == p.latest)
    {
      ghost var t := Target(cl.Creds(), projectId, settings.suiteId);
      ghost var p0 := Start(sections, cases, transport.State());
      var sectionMap, caseMap := sections, cases;
      caseIds, latest := [], [];
      ghost var issued: seq<Creation> := [];
      var i := 0;
      while i < |infos|
        invariant 0 <= i <= |infos|
        invariant Fold(t, p0, infos[..i]) == Progress(sectionMap, caseMap, caseIds, latest, issued, transport.State(), None)
      {
        var info := infos[i];
        FoldSnoc(t, p0, infos, i);
        ghost var before := Progress(sectionMap, caseMap, caseIds, latest, issued, transport.State(), None);
        ghost var mid := EnsureSection(t, before, info.sectionName);
        var e;
        sectionMap, e := SectionStep(cl, t, before, sectionMap, info.sectionName);
        if e.Some? {
          err := e;
          FoldStopped(t, p0, infos, i + 1);
          return;
        }
        issued := mid.issued;
        ghost var after := EnsureCase(t, mid, info, i);
        caseMap, e := CaseStep(cl, t, mid, caseMap, sectionMap[info.sectionName], info, i);
        if e.Some? {
          err := e;
          FoldStopped(t, p0, infos, i + 1);
          return;
        }
        issued := after.issued;
        var caseId := caseMap[info.testName];
        caseIds := caseIds + [caseId];
        latest := Put(latest, caseId, info);
        i := i + 1;
      }
      assert infos[..|infos|] == infos;
      err := None;
    }

    /** The section part of one iteration: `add_section` when the name is not
        in the section map. */
    method SectionStep(cl: Client, ghost t: Target, ghost p: Progress, sections: map<string, Id>, name: string)
      returns (sections': map<string, Id>, err: Option<Error>)
      requires cl.transport == transport && t == Target(cl.Creds(), projectId, settings.suiteId)
      requires p.error.None? && p.sections == sections && p.wire == transport.State()
      modifies transport
      ensures var q := EnsureSection(t, p, name);
        && transport.State() == q.wire && err == q.error && (err.None? ==> sections' == q.sections)
    {
      sections', err := sections, None;
      if name !in sections {
        var section := cl.AddSection(projectId, name, settings.suiteId, None);
        var sid := CreatedId(section);
        if sid.Err? {
          err := Some(sid.error);
        } else {
          sections' := sections[name := sid.value];
        }
      }
    }

    /** The case part of one iteration: `add_case` when the title is not in
        the case map. */
    method CaseStep(cl: Client, ghost t: Target, ghost p: Progress, cases: map<string, Id>, sectionId: Id,
                    info: TestInfo, ghost at: nat)
      returns (cases': map<string, Id>, err: Option<Error>)
      requires cl.transport == transport && t == Target(cl.Creds(), projectId, settings.suiteId)
      requires p.error.None? && info.sectionName in p.sections && sectionId == p.sections[info.sectionName]
      requires p.cases == cases && p.wire == transport.State()
      modifies transport
      ensures var q := EnsureCase(t, p, info, at);
        && transport.State() == q.wire && err == q.error && (err.None? ==> cases' == q.cases)
    {
      cases', err := cases, None;
      if info.testName !in cases {
        var created := cl.AddCase(sectionId, info.testName, map[]);
        var cid := CreatedId(created);
        if cid.Err? {
          err := Some(cid.error);
        } else {
          cases' := cases[info.testName := cid.value];
        }
      }
    }

    /** `run`: connect when there is no client yet, then the rest. */
    method Run(now: string) returns (ok: bool)
      requires Valid()
      modifies this, transport, loader, loader.fs`accesses
      ensures Valid()
      ensures (ok, State()) == RunSpec(settings, old(State()), loader.fs.files, now)
    {
      if client.None? {
        var connected := Connect();
        if connected.Err? {
          return false;
        }
      }
      ok := Sync(now);
    }

    /** `run` once there is a client: load the report, then publish its tests. */
    method Sync(now: string) returns (ok: bool)
      requires Valid() && client.Some?
      modifies this, transport, loader, loader.fs`accesses
      ensures Valid()
      ensures (ok, State()) == SyncSpec(settings, old(State()), loader.fs.files, now)
    {
      var report := loader.Load();
      if report.Err? || Tests(report.value) == [] {
        return false;
      }
      var infos := Infos(Tests(report.value));
      ok := Publish(client.value, infos, now);
    }

    /** List the sections and the cases, create what is missing, then finish. */
    method Publish(cl: Client, infos: seq<TestInfo>, now: string) returns (ok: bool)
      requires Valid() && client == Some(cl)
      modifies this, transport
      ensures Valid()
      ensures (ok, State()) == PublishSpec(settings, old(State()), cl.Creds(), infos, now)
    {
      var listedSections := cl.GetSections(projectId, settings.suiteId);
      if listedSections.Err? {
        return false;
      }
      var sections := NameMap(listedSections.value, "name");
      if sections.Err? {
        return false;
      }
      var listedCases := cl.GetCases(projectId, settings.suiteId);
      if listedCases.Err? {
        return false;
      }
      var cases := NameMap(listedCases.value, "title");
      if cases.Err? {
        return false;
      }
      var caseIds, latest, err := CreateMissing(cl, infos, sections.value, cases.value);
      if err.Some? {
        return false;
      }
      ok := Finish(cl, caseIds, latest, now);
    }

    /** Create the run, store its id and post the batch. */
    method Finish(cl: Client, caseIds: seq<Id>, latest: seq<(Id, TestInfo)>, now: string) returns (ok: bool)
      requires Valid() && client == Some(cl)
      modifies this, transport
      ensures Valid()
      ensures (ok, State()) == FinishSpec(settings, old(State()), cl.Creds(), caseIds, latest, now)
    {
      var testRun := cl.CreateTestRun(settings.projectName, caseIds, settings.suiteId,
                                      Some(RunName(settings.runName, now)), settings.runDescription, None, None, now);
      if testRun.Err? || !TruthyOpt(testRun.value) {
        return false;
      }
      var rid := RunIdOf(testRun.value.value);
      if rid.Err? {
        return false;
      }
      runId := rid.value;
      var results := BuildResults(latest);
      assert results == ResultsOf(latest);
      var posted := cl.UpdateTestCaseStatusBatch(runId, results);
      ok := posted.Ok?;
    }
  }

  /** `TestRail()`: the settings are read from the parsed configuration, and
      the object starts with no client, project, project id, run id or report. */
  method NewTestRail(cfg: ConfigFile, fs: FileSystem, transport: Transport) returns (r: Result<TestRail>)
    ensures r.Ok? <==> ReadSettings(cfg).Ok?
    ensures r.Err? ==> r.error == ReadSettings(cfg).error
    ensures r.Ok? ==> && fresh(r.value) && fresh(r.value.loader)
                      && r.value.settings == ReadSettings(cfg).value
                      && r.value.transport == transport && r.value.loader.fs == fs && r.value.Valid()
                      && r.value.State() == Session(None, None, None, None, None, transport.State(), fs.accesses)
  {
    var settings := ReadSettings(cfg);
    if settings.Err? {
      return Err(settings.error);
    }
    var tr := new TestRail(settings.value, fs, transport);
    return Ok(tr);
  }
}
