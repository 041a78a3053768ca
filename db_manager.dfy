/** The DB integration object (`DB`): its settings, read from the
    `[database]`, `[SSH_Database]` and `[test_run_data]` sections of an INI
    configuration; `connect`, which tries the SSH tunnel before a direct
    connection; `insert_test_run`, which inserts one `automation_run` row; and
    `insert_test_case_executions`, which inserts one `test_case_execution`
    row per test. The database behind the engine is abstract state that logs
    every insert and answers it with the next scripted id. Timestamps are
    integer seconds: the columns that hold a formatted time here hold the
    instant itself. */
module DbManager {
  import opened Common
  import opened Strings
  import opened Values
  import opened Reports
  import opened IniConfig
  import opened DbConnection
  import TestInfoExtraction

  const TABLE_AUTOMATION_RUN: string := "automation_run"
  const TABLE_TEST_CASE_EXECUTION: string := "test_case_execution"
  const DB_SECTION: string := "database"
  const SSH_SECTION: string := "SSH_Database"
  const RUN_DATA_SECTION: string := "test_run_data"

  // ---------------------------------------------------------------------------
  // Settings

  datatype SshConfig = SshConfig(host: string, user: string, pemPath: string)

  /** What `__init__` reads: the database options (the port through
      `int()`), the SSH options when that section exists, and the raw
      options of `[test_run_data]`. */
  datatype DbSettings = DbSettings(host: string, user: string, password: string, database: string, port: int,
                                   ssh: Option<SshConfig>, runData: map<string, string>)

  function ReadSsh(cfg: ConfigFile): (r: Result<Option<SshConfig>>)
    ensures SSH_SECTION !in cfg ==> r == Ok(None)
    ensures SSH_SECTION in cfg ==>
      (r.Ok? <==> "ssh_host" in cfg[SSH_SECTION] && "ssh_user" in cfg[SSH_SECTION] && "ssh_pem_path" in cfg[SSH_SECTION])
    ensures r.Ok? && SSH_SECTION in cfg ==>
      r.value == Some(SshConfig(cfg[SSH_SECTION]["ssh_host"], cfg[SSH_SECTION]["ssh_user"], cfg[SSH_SECTION]["ssh_pem_path"]))
  {
    if SSH_SECTION !in cfg then Ok(None)
    else
      var host :- ConfigGet(cfg, SSH_SECTION, "ssh_host");
      var user :- ConfigGet(cfg, SSH_SECTION, "ssh_user");
      var pem :- ConfigGet(cfg, SSH_SECTION, "ssh_pem_path");
      Ok(Some(SshConfig(host, user, pem)))
  }

  /** The `[database]` options in the order `__init__` reads them. */
  datatype DbOptions = DbOptions(host: string, user: string, password: string, database: string, port: int)

  predicate HasDbOptions(cfg: ConfigFile) {
    && DB_SECTION in cfg && "host" in cfg[DB_SECTION] && "user" in cfg[DB_SECTION]
    && "password" in cfg[DB_SECTION] && "database" in cfg[DB_SECTION] && "port" in cfg[DB_SECTION]
  }

  /** The `[database]` section: the first missing option raises, and so
      does a port that is not an integer. */
  function ReadDatabase(cfg: ConfigFile): (r: Result<DbOptions>)
    ensures r.Ok? <==> HasDbOptions(cfg) && ParseInt(cfg[DB_SECTION]["port"]).Some?
    ensures DB_SECTION !in cfg ==> r == Err(NoSection(DB_SECTION))
    ensures DB_SECTION in cfg && "host" !in cfg[DB_SECTION] ==> r == Err(NoOption(DB_SECTION, "host"))
    ensures HasDbOptions(cfg) && r.Err? ==> r.error == ValueError(INVALID_INT + cfg[DB_SECTION]["port"])
    ensures r.Ok? ==>
      && HasDbOptions(cfg) && cfg[DB_SECTION]["host"] == r.value.host
      && cfg[DB_SECTION]["user"] == r.value.user && cfg[DB_SECTION]["password"] == r.value.password
      && cfg[DB_SECTION]["database"] == r.value.database && ParseInt(cfg[DB_SECTION]["port"]) == Some(r.value.port)
  {
    var host :- ConfigGet(cfg, DB_SECTION, "host");
    var user :- ConfigGet(cfg, DB_SECTION, "user");
    var password :- ConfigGet(cfg, DB_SECTION, "password");
    var database :- ConfigGet(cfg, DB_SECTION, "database");
    var portText :- ConfigGet(cfg, DB_SECTION, "port");
    var port :- IntOf(portText);
    Ok(DbOptions(host, user, password, database, port))
  }

  /** The settings part of `__init__`: `[database]`, then `[SSH_Database]`
      when present, then the raw `[test_run_data]` options. */
  function ReadDbSettings(cfg: ConfigFile): (r: Result<DbSettings>)
    ensures r.Ok? <==> ReadDatabase(cfg).Ok? && ReadSsh(cfg).Ok?
    ensures ReadDatabase(cfg).Err? ==> r == Err(ReadDatabase(cfg).error)
    ensures r.Ok? ==> var o := ReadDatabase(cfg).value;
      && r.value == DbSettings(o.host, o.user, o.password, o.database, o.port, ReadSsh(cfg).value,
                               SectionItems(cfg, RUN_DATA_SECTION))
  {
    var o :- ReadDatabase(cfg);
    var ssh :- ReadSsh(cfg);
    Ok(DbSettings(o.host, o.user, o.password, o.database, o.port, ssh, SectionItems(cfg, RUN_DATA_SECTION)))
  }

  /** `self.db_config`, the dict handed to `create_db_connection`. */
  function DbDict(st: DbSettings): Dict {
    map["host" := Str(st.host), "user" := Str(st.user), "password" := Str(st.password),
        "database" := Str(st.database), "port" := Int(st.port)]
  }

  /** A `[test_run_data]` value: an int when `int()` accepts it, the text otherwise. */
  function Coerce(text: string): (v: Value)
    ensures v.Int? || v.Str?
    ensures v.Int? <==> ParseInt(text).Some?
    ensures v.Int? ==> ParseInt(text) == Some(v.n)
    ensures v.Str? ==> v.s == text
  {
    match ParseInt(text)
    case Some(n) => Int(n)
    case None => Str(text)
  }

  /** A decimal integer is stored as that integer, and any text is stored as
      something that renders back to a value `int()` or `str()` agrees with. */
  lemma CoerceRoundTrip(n: int, text: string)
    ensures Coerce(IntToString(n)) == Int(n)
    ensures Coerce(text).Str? ==> Text(Coerce(text)) == text
  {
    ParseIntToString(n);
  }

  /** The coercion loop of `__init__` over the `[test_run_data]` options. */
  method CoerceAll(data: map<string, string>) returns (d: Dict)
    ensures d.Keys == data.Keys
    ensures forall k :: k in data ==> d[k] == Coerce(data[k])
  {
    d := map[];
    var todo := data.Keys;
    while todo != {}
      invariant todo <= data.Keys
      invariant d.Keys == data.Keys - todo
      invariant forall k :: k in d ==> d[k] == Coerce(data[k])
      decreases |todo|
    {
      var key :| key in todo;
      var value := Coerce(data[key]);
      d := d[key := value];
      todo := todo - {key};
    }
  }

  // ---------------------------------------------------------------------------
  // The database behind the engine

  /** An inserted row: the columns of an `automation_run` row, built from
      the configuration, or a `test_case_execution` row, held as the run id,
      the test it describes, its window and the time of recording; its other
      four columns are functions of the test (below). */
  datatype Row =
    | Columns(columns: Dict)
    | Execution(automationRunId: int, test: TestRecord, testStartTime: int, testEndTime: int, recordedAt: int)

  /** The inserts made so far (table and row) and the ids still to be returned. */
  datatype Store = Store(log: seq<(string, Row)>, ids: seq<Option<int>>)

  /** `insert_data`: the row is logged and the next scripted id returned;
      once the script is exhausted every insert fails (None). */
  function InsertRow(st: Store, table: string, row: Row): (out: (Option<int>, Store))
    ensures out.1.log == st.log + [(table, row)]
    ensures st.ids != [] ==> out == (st.ids[0], Store(out.1.log, st.ids[1..]))
    ensures st.ids == [] ==> out == (None, Store(out.1.log, []))
  {
    if st.ids == [] then (None, Store(st.log + [(table, row)], []))
    else (st.ids[0], Store(st.log + [(table, row)], st.ids[1..]))
  }

  /** The id the `i`-th insert from now returns. */
  function Returned(ids: seq<Option<int>>, i: nat): Option<int> {
    if i < |ids| then ids[i] else None
  }

  /** Insert `rows` in order, counting the inserts that returned a truthy id. */
  function InsertAll(st: Store, table: string, rows: seq<Row>): (out: (nat, Store))
    ensures out.0 <= |rows|
    decreases |rows|
  {
    if rows == [] then (0, st)
    else
      var n := |rows| - 1;
      var (count, st1) := InsertAll(st, table, rows[..n]);
      var (id, st2) := InsertRow(st1, table, rows[n]);
      (count + (if TruthyInt(id) then 1 else 0), st2)
  }

  /** The rows tagged with their table, as the log shows them. */
  function Tagged(table: string, rows: seq<Row>): (t: seq<(string, Row)>)
    ensures |t| == |rows| && forall i :: 0 <= i < |rows| ==> t[i] == (table, rows[i])
  {
    seq(|rows|, i requires 0 <= i < |rows| => (table, rows[i]))
  }

  /** Inserting a batch logs every row in order and consumes one scripted id
      per row; the count is the number of truthy ids among those returned, so
      it is all of them exactly when every insert returned a truthy id. */
  lemma {:induction false} InsertAllEffect(st: Store, table: string, rows: seq<Row>)
    ensures var (count, st') := InsertAll(st, table, rows);
      && st'.log == st.log + Tagged(table, rows)
      && st'.ids == st.ids[if |rows| <= |st.ids| then |rows| else |st.ids|..]
      && (count == |rows| <==> forall i :: 0 <= i < |rows| ==> TruthyInt(Returned(st.ids, i)))
    decreases |rows|
  {
    if rows != [] {
      var n := |rows| - 1;
      InsertAllEffect(st, table, rows[..n]);
      var (count, st1) := InsertAll(st, table, rows[..n]);
      var (id, st2) := InsertRow(st1, table, rows[n]);
      assert id == Returned(st.ids, n);
      assert Tagged(table, rows) == Tagged(table, rows[..n]) + [(table, rows[n])];
      if count + (if TruthyInt(id) then 1 else 0) == |rows| {
        assert count == n && TruthyInt(id);
      }
    }
  }

  /** One more row extends the batch by one insert. */
  lemma InsertAllSnoc(st: Store, table: string, rows: seq<Row>, row: Row)
    ensures InsertAll(st, table, rows + [row]) ==
      var (count, st1) := InsertAll(st, table, rows);
      var (id, st2) := InsertRow(st1, table, row);
      (count + (if TruthyInt(id) then 1 else 0), st2)
  {
    assert (rows + [row])[..|rows|] == rows;
  }

  class Database {
    var log: seq<(string, Row)>
    var ids: seq<Option<int>>

    constructor (ids: seq<Option<int>>)
      ensures log == [] && this.ids == ids
    {
      log := [];
      this.ids := ids;
    }

    function State(): Store
      reads this
    {
      Store(log, ids)
    }

    /** `insert_data(engine, table, row)`. */
    method Insert(table: string, row: Row) returns (id: Option<int>)
      modifies this
      ensures (id, State()) == InsertRow(old(State()), table, row)
    {
      id := Returned(ids, 0);
      log := log + [(table, row)];
      ids := if ids == [] then [] else ids[1..];
    }
  }

  // ---------------------------------------------------------------------------
  // Rows

  /** What `_parse_summary` extracts: the four counts and the run's window. */
  datatype RunStats = RunStats(total: int, passed: int, failed: int, skipped: int, start: int, end: int)

  /** `_parse_summary`: the four counts, 0 when absent, and the run's start
      and end, `created` and `created + duration`, each 0 when absent. */
  function SummaryStats(rep: Report): (r: RunStats)
    ensures var s := rep.summary.GetOr(Summary(None, None, None, None));
      && r.total == s.total.GetOr(0) && r.passed == s.passed.GetOr(0)
      && r.failed == s.failed.GetOr(0) && r.skipped == s.skipped.GetOr(0)
    ensures r.start == rep.created.GetOr(0) && r.end - r.start == rep.duration.GetOr(0)
  {
    var s := rep.summary.GetOr(Summary(None, None, None, None));
    var created, duration := rep.created.GetOr(0), rep.duration.GetOr(0);
    RunStats(s.total.GetOr(0), s.passed.GetOr(0), s.failed.GetOr(0), s.skipped.GetOr(0), created, created + duration)
  }

  /** The stats as the columns of the run row. */
  function StatsColumns(r: RunStats): Dict {
    map["total_test_cases" := Int(r.total), "total_test_passed" := Int(r.passed),
        "total_test_failed" := Int(r.failed), "total_test_skipped" := Int(r.skipped),
        "execution_start_time" := Int(r.start), "execution_end_time" := Int(r.end)]
  }

  /** The `automation_run` row: `{**test_run_config, **stats}` with
      `executed_at` set last; the stats win over the configuration. */
  function RunRow(config: Dict, stats: Dict, now: int): (row: Dict)
    ensures row.Keys == config.Keys + stats.Keys + {"executed_at"}
    ensures row["executed_at"] == Int(now)
    ensures forall k :: k in stats && k != "executed_at" ==> row[k] == stats[k]
    ensures forall k :: k in config && k !in stats && k != "executed_at" ==> row[k] == config[k]
  {
    (config + stats)["executed_at" := Int(now)]
  }

  /** The test name of the DB rows: the last `::` segment up to its first
      `[` when the nodeid has a `::`, the whole nodeid otherwise. */
  function DbTestName(nodeid: string): string {
    if Contains(nodeid, "::") then
      var parts := Split(nodeid, "::");
      Split(parts[|parts| - 1], "[")[0]
    else nodeid
  }

  /** The DB and TestRail integrations name a test alike when its nodeid
      has a `::`. */
  lemma DbNameWithSeparator(nodeid: string)
    requires Contains(nodeid, "::")
    ensures DbTestName(nodeid) == TestInfoExtraction.TestName(nodeid)
  {
    assert TestInfoExtraction.Segments(nodeid) == Split(nodeid, "::");
  }

  /** Without a `::` the DB name is the whole nodeid, while the TestRail
      name drops a `[...]` suffix. */
  lemma DbNameWithoutSeparator(nodeid: string)
    requires !Contains(nodeid, "::")
    ensures DbTestName(nodeid) == nodeid
    ensures TestInfoExtraction.TestName(nodeid) == Split(nodeid, "[")[0]
  {
    TestInfoExtraction.NoSeparatorGivesGeneral(nodeid);
  }

  /** The seconds a test took: setup, call and teardown, each 0 when absent. */
  function Duration(t: TestRecord): int {
    (if t.setup.Some? then t.setup.value.duration.GetOr(0) else 0)
    + (if t.call.Some? then t.call.value.duration.GetOr(0) else 0)
    + (if t.teardown.Some? then t.teardown.value.duration.GetOr(0) else 0)
  }

  /** The durations of the first `i` tests added up. */
  function Elapsed(tests: seq<TestRecord>, i: nat): int
    requires i <= |tests|
  {
    if i == 0 then 0 else Elapsed(tests, i - 1) + Duration(tests[i - 1])
  }

  /** The `test_case_id` column: the nodeid. */
  function TestCaseId(row: Row): string
    requires row.Execution?
  {
    NodeId(row.test)
  }

  /** The `test_case_name` column. */
  function TestCaseName(row: Row): string
    requires row.Execution?
  {
    DbTestName(NodeId(row.test))
  }

  /** The `test_case_status` column: the outcome, "unknown" when absent. */
  function TestCaseStatus(row: Row): string
    requires row.Execution?
  {
    Outcome(row.test)
  }

  /** The `failure_reason` column, None unless the test failed. */
  function FailureReasonColumn(row: Row): (r: Option<string>)
    requires row.Execution?
    ensures r.None? <==> TestCaseStatus(row) != "failed"
  {
    FailureReason(row.test)
  }

  /** The rows of the first `n` tests of `insert_test_case_executions`: each
      test starts after the tests before it, counted from `created`, and ends
      after its own duration. */
  function RowsUpTo(runId: int, created: int, tests: seq<TestRecord>, now: int, n: nat): (rows: seq<Row>)
    requires n <= |tests|
    ensures |rows| == n
  {
    if n == 0 then []
    else RowsUpTo(runId, created, tests, now, n - 1)
           + [Execution(runId, tests[n - 1], created + Elapsed(tests, n - 1), created + Elapsed(tests, n), now)]
  }

  /** One more test adds the row that starts where the earlier ones ended. */
  lemma RowsStep(runId: int, created: int, tests: seq<TestRecord>, now: int, i: nat)
    requires i < |tests|
    ensures var start := created + Elapsed(tests, i);
      RowsUpTo(runId, created, tests, now, i + 1)
        == RowsUpTo(runId, created, tests, now, i) + [Execution(runId, tests[i], start, start + Duration(tests[i]), now)]
  {
  }

  /** The rows of every test. */
  function ExecutionRows(runId: int, created: int, tests: seq<TestRecord>, now: int): (rows: seq<Row>)
    ensures |rows| == |tests|
  {
    RowsUpTo(runId, created, tests, now, |tests|)
  }

  /** Row `k` of any longer prefix is the row of test `k`. */
  lemma {:induction false} RowsUpToAt(runId: int, created: int, tests: seq<TestRecord>, now: int, n: nat, k: nat)
    requires k < n <= |tests|
    ensures RowsUpTo(runId, created, tests, now, n)[k]
      == Execution(runId, tests[k], created + Elapsed(tests, k), created + Elapsed(tests, k + 1), now)
    decreases n
  {
    if k < n - 1 {
      RowsUpToAt(runId, created, tests, now, n - 1, k);
    }
  }

  /** The windows chain: the first test starts at `created`, each test ends
      where the next one starts, and each lasts its own duration. */
  lemma WindowsChain(runId: int, created: int, tests: seq<TestRecord>, now: int, i: nat)
    requires i + 1 < |tests|
    ensures var rows := ExecutionRows(runId, created, tests, now);
      && rows[0].Execution? && rows[i].Execution? && rows[i + 1].Execution?
      && rows[0].testStartTime == created
      && rows[i + 1].testStartTime == rows[i].testEndTime
      && rows[i].testEndTime == rows[i].testStartTime + Duration(tests[i])
  {
    RowsUpToAt(runId, created, tests, now, |tests|, 0);
    RowsUpToAt(runId, created, tests, now, |tests|, i);
    RowsUpToAt(runId, created, tests, now, |tests|, i + 1);
  }

  /** Each row describes its own test: the run it belongs to, the nodeid and
      name, the outcome, a failure text exactly for failed tests, and the
      time of recording. */
  lemma ExecutionRowContents(runId: int, created: int, tests: seq<TestRecord>, now: int, i: nat)
    requires i < |tests|
    ensures var row := ExecutionRows(runId, created, tests, now)[i];
      && row.Execution? && row.test == tests[i] && row.automationRunId == runId && row.recordedAt == now
      && TestCaseId(row) == NodeId(tests[i]) && TestCaseName(row) == DbTestName(NodeId(tests[i]))
      && TestCaseStatus(row) == Outcome(tests[i])
      && (FailureReasonColumn(row).None? <==> Outcome(tests[i]) != "failed")
  {
    RowsUpToAt(runId, created, tests, now, |tests|, i);
  }

  // ---------------------------------------------------------------------------
  // The object's state and what its methods do to it

  /** The object's mutable state and what it talks to: engine, tunnel,
      automation run id, report cache, file accesses and the database. */
  datatype DbState = DbState(engine: Option<Engine>, tunnel: Option<Tunnel>, runId: Option<int>,
                             cache: Option<Report>, accesses: seq<Access>, store: Store)

  /** The tunnel half of `connect`. */
  function TunnelAttempt(st: DbSettings, ssh: SshConfig, be: Backend): Result<(Option<Engine>, Tunnel)> {
    CreateDbConnectionWithTunnel(Str(ssh.host), Str(ssh.user), ssh.pemPath, Str(st.host), Int(st.port),
                                 Str(st.user), Str(st.password), Str(st.database),
                                 Int(DEFAULT_LOCAL_BIND_PORT), Int(DEFAULT_SSH_PORT), be)
  }

  /** The direct half of `connect`: an exception leaves the engine as it was. */
  function DirectAttempt(st: DbSettings, be: Backend, s: DbState): (out: (bool, DbState)) {
    match CreateDbConnection(NO_PARAMS, Some(DbDict(st)), be)
    case Err(_) => (false, s)
    case Ok(e) => (e.Some?, s.(engine := e))
  }

  /** `connect`: with SSH settings the tunnel first, whose answer stands
      unless it raised; then a direct connection from the stored config. */
  function ConnectSpec(st: DbSettings, be: Backend, s: DbState): (out: (bool, DbState))
    ensures out.1 == s.(engine := out.1.engine, tunnel := out.1.tunnel)
    ensures out.0 ==> out.1.engine.Some?
  {
    if st.ssh.Some? && TunnelAttempt(st, st.ssh.value, be).Ok? then
      var (e, t) := TunnelAttempt(st, st.ssh.value, be).value;
      (e.Some?, s.(engine := e, tunnel := Some(t)))
    else DirectAttempt(st, be, s)
  }

  /** The tunnel is tried first; the direct connection only when there are no
      SSH settings or the tunnel raised, and an engine-less tunnel is final. */
  lemma ConnectFallbackOrder(st: DbSettings, be: Backend, s: DbState)
    ensures st.ssh.None? ==> ConnectSpec(st, be, s) == DirectAttempt(st, be, s)
    ensures st.ssh.Some? && TunnelAttempt(st, st.ssh.value, be).Err? ==>
      ConnectSpec(st, be, s) == DirectAttempt(st, be, s)
    ensures st.ssh.Some? && TunnelAttempt(st, st.ssh.value, be).Ok? ==>
      && ConnectSpec(st, be, s).1.tunnel == Some(TunnelAttempt(st, st.ssh.value, be).value.1)
      && ConnectSpec(st, be, s).1.engine == TunnelAttempt(st, st.ssh.value, be).value.0
  {
  }

  /** A key file that does not exist always sends `connect` down the direct path. */
  lemma MissingKeyFallsBack(st: DbSettings, be: Backend, s: DbState)
    requires st.ssh.Some? && st.ssh.value.pemPath !in be.keyFiles
    ensures ConnectSpec(st, be, s) == DirectAttempt(st, be, s)
  {
    var ssh := st.ssh.value;
    assert CreateSshTunnel(TunnelArgs(Str(ssh.host), Str(ssh.user), ssh.pemPath, Str(st.host), Int(st.port),
                                      Int(DEFAULT_LOCAL_BIND_PORT), Int(DEFAULT_SSH_PORT)), be).Err?;
  }

  /** `connect` unless there is an engine already. */
  function EnsureEngine(st: DbSettings, be: Backend, s: DbState): (s': DbState)
    ensures s'.engine.None? ==> s.engine.None?
  {
    if s.engine.None? then ConnectSpec(st, be, s).1 else s
  }

  /** `insert_test_run`: load the report (a failure answers None), build the
      row, make sure of an engine (none answers None), insert and keep the id. */
  function InsertTestRunSpec(st: DbSettings, config: Dict, be: Backend, s: DbState, files: map<string, FileContent>,
                             now: int): (out: (Option<int>, DbState))
  {
    var rep := LoadOutcome(s.cache, files);
    var s1 := s.(cache := if rep.Ok? then Some(rep.value) else s.cache, accesses := s.accesses + LoadAccesses(s.cache, files));
    if rep.Err? then (None, s1)
    else
      var row := Columns(RunRow(config, StatsColumns(SummaryStats(rep.value)), now));
      var s2 := EnsureEngine(st, be, s1);
      if s2.engine.None? then (None, s2)
      else
        var (id, store) := InsertRow(s2.store, TABLE_AUTOMATION_RUN, row);
        (id, s2.(runId := id, store := store))
  }

  /** `insert_test_run` answers None, inserting nothing, when the report
      cannot be loaded or there is still no engine after `connect`; otherwise
      it inserts exactly the merged row and keeps the returned id. */
  lemma InsertTestRunOutcome(st: DbSettings, config: Dict, be: Backend, s: DbState, files: map<string, FileContent>,
                             now: int)
    ensures var (id, s') := InsertTestRunSpec(st, config, be, s, files, now);
      var rep := LoadOutcome(s.cache, files);
      && (rep.Err? ==> id.None? && s'.store == s.store && s'.engine == s.engine)
      && (rep.Ok? && EnsureEngine(st, be, s).engine.None? ==> id.None? && s'.store == s.store)
      && (rep.Ok? && EnsureEngine(st, be, s).engine.Some? ==>
            && s'.store.log == s.store.log
                 + [(TABLE_AUTOMATION_RUN, Columns(RunRow(config, StatsColumns(SummaryStats(rep.value)), now)))]
            && id == Returned(s.store.ids, 0) && s'.runId == id)
  {
  }

  /** `insert_test_case_executions`: nothing without a truthy run id or an
      engine or a report; otherwise every test's row is inserted and the
      answer says whether all inserts returned a truthy id. */
  function InsertExecutionsSpec(st: DbSettings, be: Backend, s: DbState, files: map<string, FileContent>, now: int)
    : (out: (bool, DbState))
    ensures !TruthyInt(s.runId) ==> out == (false, s)
  {
    if !TruthyInt(s.runId) then (false, s)
    else
      var s1 := EnsureEngine(st, be, s);
      if s1.engine.None? then (false, s1)
      else
        var rep := LoadOutcome(s1.cache, files);
        var s2 := s1.(cache := if rep.Ok? then Some(rep.value) else s1.cache,
                      accesses := s1.accesses + LoadAccesses(s1.cache, files));
        if rep.Err? then (false, s2)
        else
          var tests := Tests(rep.value);
          var rows := ExecutionRows(s.runId.value, rep.value.created.GetOr(0), tests, now);
          var (count, store) := InsertAll(s2.store, TABLE_TEST_CASE_EXECUTION, rows);
          (count == |tests|, s2.(store := store))
  }

  /** With a run id, an engine and a report, the executions call logs one row
      per test, in order, and answers true exactly when every one of those
      inserts returned a truthy id. */
  lemma ExecutionsVerdict(st: DbSettings, be: Backend, s: DbState, files: map<string, FileContent>, now: int)
    requires TruthyInt(s.runId) && s.engine.Some? && LoadOutcome(s.cache, files).Ok?
    ensures var rep := LoadOutcome(s.cache, files).value;
      var tests := Tests(rep);
      var (ok, s') := InsertExecutionsSpec(st, be, s, files, now);
      && s'.store.log == s.store.log + Tagged(TABLE_TEST_CASE_EXECUTION,
                                               ExecutionRows(s.runId.value, rep.created.GetOr(0), tests, now))
      && (ok <==> forall i :: 0 <= i < |tests| ==> TruthyInt(Returned(s.store.ids, i)))
  {
    var rep := LoadOutcome(s.cache, files).value;
    var rows := ExecutionRows(s.runId.value, rep.created.GetOr(0), Tests(rep), now);
    InsertAllEffect(s.store, TABLE_TEST_CASE_EXECUTION, rows);
  }

  /** The loop of `insert_test_case_executions`: each test runs from the
      current time for its duration, its row is inserted, and the current
      time moves to its end. */
  method InsertRows(database: Database, runId: int, tests: seq<TestRecord>, created: int, now: int) returns (inserted: nat)
    modifies database
    ensures (inserted, database.State()) ==
      InsertAll(old(database.State()), TABLE_TEST_CASE_EXECUTION, ExecutionRows(runId, created, tests, now))
  {
    ghost var s0 := database.State();
    ghost var rows: seq<Row> := [];
    var current := created;
    inserted := 0;
    var i := 0;
    while i < |tests|
      invariant 0 <= i <= |tests|
      invariant current == created + Elapsed(tests, i)
      invariant rows == RowsUpTo(runId, created, tests, now, i)
      invariant (inserted, database.State()) == InsertAll(s0, TABLE_TEST_CASE_EXECUTION, rows)
    {
      var test := tests[i];
      var testEnd := current + Duration(test);
      var row := Execution(runId, test, current, testEnd, now);
      RowsStep(runId, created, tests, now, i);
      InsertAllSnoc(s0, TABLE_TEST_CASE_EXECUTION, rows, row);
      var id := database.Insert(TABLE_TEST_CASE_EXECUTION, row);
      if TruthyInt(id) {
        inserted := inserted + 1;
      }
      rows := rows + [row];
      current := testEnd;
      i := i + 1;
    }
  }

  // ---------------------------------------------------------------------------
  // The integration object

  class DB {
    const settings: DbSettings
    const loader: ReportLoader
    const database: Database
    const be: Backend
    var testRunConfig: Dict
    var engine: Option<Engine>
    var tunnel: Option<Tunnel>
    var automationRunId: Option<int>

    function State(): DbState
      reads this, loader, loader.fs, database
    {
      DbState(engine, tunnel, automationRunId, loader.cached, loader.fs.accesses, database.State())
    }

    /** `__init__` once the settings are read: every `[test_run_data]`
        option is coerced; no engine, tunnel, run id or report yet. */
    constructor (settings: DbSettings, fs: FileSystem, database: Database, be: Backend)
      ensures this.settings == settings && this.database == database && this.be == be
      ensures fresh(loader) && loader.fs == fs
      ensures testRunConfig.Keys == settings.runData.Keys
      ensures forall k :: k in settings.runData ==> testRunConfig[k] == Coerce(settings.runData[k])
      ensures State() == DbState(None, None, None, None, fs.accesses, database.State())
    {
      this.settings := settings;
      this.database := database;
      this.be := be;
      loader := new ReportLoader(fs);
      var coerced := CoerceAll(settings.runData);
      testRunConfig := coerced;
      engine := None;
      tunnel := None;
      automationRunId := None;
    }

    /** `connect`. */
    method Connect() returns (ok: bool)
      modifies this
      ensures testRunConfig == old(testRunConfig)
      ensures (ok, State()) == ConnectSpec(settings, be, old(State()))
    {
      if settings.ssh.Some? {
        var ssh := settings.ssh.value;
        var attempt := CreateDbConnectionWithTunnel(Str(ssh.host), Str(ssh.user), ssh.pemPath, Str(settings.host),
                                                    Int(settings.port), Str(settings.user), Str(settings.password),
                                                    Str(settings.database), Int(DEFAULT_LOCAL_BIND_PORT),
                                                    Int(DEFAULT_SSH_PORT), be);
        if attempt.Ok? {
          engine, tunnel := attempt.value.0, Some(attempt.value.1);
          return engine.Some?;
        }
      }
      var direct := CreateDbConnection(NO_PARAMS, Some(DbDict(settings)), be);
      if direct.Err? {
        return false;
      }
      engine := direct.value;
      ok := engine.Some?;
    }

    /** `insert_test_run`. */
    method InsertTestRun(now: int) returns (id: Option<int>)
      modifies this, loader, loader.fs`accesses, database
      ensures testRunConfig == old(testRunConfig)
      ensures (id, State()) == InsertTestRunSpec(settings, testRunConfig, be, old(State()), loader.fs.files, now)
    {
      var rep := loader.Load();
      if rep.Err? {
        return None;
      }
      var row := Columns(RunRow(testRunConfig, StatsColumns(SummaryStats(rep.value)), now));
      if engine.None? {
        var _ := Connect();
      }
      if engine.None? {
        return None;
      }
      id := database.Insert(TABLE_AUTOMATION_RUN, row);
      automationRunId := id;
    }

    /** `insert_test_case_executions`. */
    method InsertTestCaseExecutions(now: int) returns (ok: bool)
      modifies this, loader, loader.fs`accesses, database
      ensures testRunConfig == old(testRunConfig)
      ensures (ok, State()) == InsertExecutionsSpec(settings, be, old(State()), loader.fs.files, now)
    {
      if !TruthyInt(automationRunId) {
        return false;
      }
      if engine.None? {
        var _ := Connect();
      }
      if engine.None? {
        return false;
      }
      var rep := loader.Load();
      if rep.Err? {
        return false;
      }
      var tests := Tests(rep.value);
      var inserted := InsertRows(database, automationRunId.value, tests, rep.value.created.GetOr(0), now);
      ok := inserted == |tests|;
    }
  }

  /** `DB()`: the settings are read from the parsed configuration. */
  method NewDB(cfg: ConfigFile, fs: FileSystem, database: Database, be: Backend) returns (r: Result<DB>)
    ensures r.Ok? <==> ReadDbSettings(cfg).Ok?
    ensures r.Err? ==> r.error == ReadDbSettings(cfg).error
    ensures r.Ok? ==> && fresh(r.value) && r.value.settings == ReadDbSettings(cfg).value
                      && r.value.database == database && r.value.loader.fs == fs
                      && r.value.State() == DbState(None, None, None, None, fs.accesses, database.State())
  {
    var settings := ReadDbSettings(cfg);
    if settings.Err? {
      return Err(settings.error);
    }
    var db := new DB(settings.value, fs, database, be);
    return Ok(db);
  }
}
