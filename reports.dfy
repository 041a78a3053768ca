/** The pytest JSON report the three integrations read, the file system it
    is read from, and the per-integration report cache (`_load_report`,
    written identically in the TestRail, DB and mail integrations). */
module Reports {
  import opened Common

  const SUMMARY_FILE: string := "reports/test_summary.json"

  datatype Summary = Summary(total: Option<int>, passed: Option<int>, failed: Option<int>, skipped: Option<int>)

  datatype Crash = Crash(message: Option<string>)

  /** The `call` phase of a test: its duration and, for failures, the crash
      message and the long representation of the error. */
  datatype CallPhase = CallPhase(duration: Option<int>, crash: Option<Crash>, longrepr: Option<string>)

  datatype Phase = Phase(duration: Option<int>)

  /** One entry of `tests`; every key may be absent. */
  datatype TestRecord = TestRecord(
    nodeid: Option<string>,
    outcome: Option<string>,
    setup: Option<Phase>,
    call: Option<CallPhase>,
    teardown: Option<Phase>)

  /** The report; `created` and `duration` in whole seconds. */
  datatype Report = Report(
    summary: Option<Summary>,
    created: Option<int>,
    duration: Option<int>,
    tests: Option<seq<TestRecord>>)

  /** `report.get("tests", [])`. */
  function Tests(r: Report): seq<TestRecord> {
    r.tests.GetOr([])
  }

  /** `test.get("nodeid", "")`. */
  function NodeId(t: TestRecord): string {
    t.nodeid.GetOr("")
  }

  /** `test.get("outcome", "unknown")`. */
  function Outcome(t: TestRecord): string {
    t.outcome.GetOr("unknown")
  }

  /** The failure text of a test: None unless the outcome is `failed`; then
      `call.crash.message` when present, else `call.longrepr`, else "". */
  function FailureReason(t: TestRecord): (r: Option<string>)
    ensures Outcome(t) != "failed" <==> r.None?
    ensures r.Some? && t.call.Some? && t.call.value.crash.Some? && t.call.value.crash.value.message.Some? ==>
      r.value == t.call.value.crash.value.message.value
    ensures r.Some? && (t.call.None? || t.call.value.crash.None? || t.call.value.crash.value.message.None?) ==>
      r.value == (if t.call.Some? then t.call.value.longrepr.GetOr("") else "")
  {
    if Outcome(t) != "failed" then None
    else
      var call := t.call.GetOr(CallPhase(None, None, None));
      var crash := call.crash.GetOr(Crash(None));
      Some(crash.message.GetOr(call.longrepr.GetOr("")))
  }

  /** What a file holds: a report, something `json.load` rejects, or a
      document such as the HTML report, kept as its bytes. */
  datatype FileContent = ReportJson(report: Report) | Unparsable | Document(bytes: seq<bv8>)

  /** The kinds of access the model tracks. */
  datatype Access = Probe(path: string) | Open(path: string)

  /** The local file system: its files and the log of every access made. */
  class FileSystem {
    var files: map<string, FileContent>
    var accesses: seq<Access>

    constructor (files: map<string, FileContent>)
      ensures this.files == files && accesses == []
    {
      this.files := files;
      this.accesses := [];
    }

    /** `os.path.exists(path)`. */
    method Exists(path: string) returns (b: bool)
      modifies this`accesses
      ensures b <==> path in files
      ensures accesses == old(accesses) + [Probe(path)]
    {
      b := path in files;
      accesses := accesses + [Probe(path)];
    }

    /** `open(path)` followed by `json.load`. */
    method ReadReport(path: string) returns (r: Result<Report>)
      modifies this`accesses
      ensures path !in files ==> r == Err(FileNotFound(path))
      ensures path in files && files[path].ReportJson? ==> r == Ok(files[path].report)
      ensures path in files && !files[path].ReportJson? ==> r == Err(JsonDecodeError)
      ensures accesses == old(accesses) + [Open(path)]
    {
      accesses := accesses + [Open(path)];
      if path !in files {
        r := Err(FileNotFound(path));
      } else if files[path].ReportJson? {
        r := Ok(files[path].report);
      } else {
        r := Err(JsonDecodeError);
      }
    }

    /** `open(path, "rb").read()`: the whole file. */
    method ReadFile(path: string) returns (r: Result<FileContent>)
      modifies this`accesses
      ensures path !in files ==> r == Err(FileNotFound(path))
      ensures path in files ==> r == Ok(files[path])
      ensures accesses == old(accesses) + [Open(path)]
    {
      accesses := accesses + [Open(path)];
      if path !in files {
        r := Err(FileNotFound(path));
      } else {
        r := Ok(files[path]);
      }
    }
  }

  /** What `_load_report` does, given the cache and the file system: the
      cached report, else the file's report (cached from then on). */
  function LoadOutcome(cache: Option<Report>, files: map<string, FileContent>): (r: Result<Report>)
    ensures cache.Some? ==> r == Ok(cache.value)
    ensures cache.None? && SUMMARY_FILE !in files ==> r == Err(FileNotFound(SUMMARY_FILE))
    ensures cache.None? && SUMMARY_FILE in files ==>
      (r.Ok? <==> files[SUMMARY_FILE].ReportJson?)
  {
    if cache.Some? then Ok(cache.value)
    else if SUMMARY_FILE !in files then Err(FileNotFound(SUMMARY_FILE))
    else match files[SUMMARY_FILE]
      case ReportJson(rep) => Ok(rep)
      case _ => Err(JsonDecodeError)
  }

  /** The accesses `_load_report` makes: none once a report is cached. */
  function LoadAccesses(cache: Option<Report>, files: map<string, FileContent>): seq<Access> {
    if cache.Some? then []
    else if SUMMARY_FILE !in files then [Probe(SUMMARY_FILE)]
    else [Probe(SUMMARY_FILE), Open(SUMMARY_FILE)]
  }

  /** The report cache of one integration object (its `_report` field). */
  class ReportLoader {
    var cached: Option<Report>
    const fs: FileSystem

    constructor (fs: FileSystem)
      ensures this.fs == fs && cached == None
    {
      this.fs := fs;
      cached := None;
    }

    /** `_load_report`. */
    method Load() returns (r: Result<Report>)
      modifies this, fs`accesses
      ensures r == LoadOutcome(old(cached), fs.files)
      ensures fs.accesses == old(fs.accesses) + LoadAccesses(old(cached), fs.files)
      ensures cached == (if r.Ok? then Some(r.value) else old(cached))
    {
      if cached.Some? {
        return Ok(cached.value);
      }
      var present := fs.Exists(SUMMARY_FILE);
      if !present {
        return Err(FileNotFound(SUMMARY_FILE));
      }
      r := fs.ReadReport(SUMMARY_FILE);
      if r.Ok? {
        cached := Some(r.value);
      }
    }
  }

  /** A second load after a successful one returns the same report and leaves
      the file system untouched. */
  lemma LoadIsCached(cache: Option<Report>, files: map<string, FileContent>)
    requires LoadOutcome(cache, files).Ok?
    ensures var rep := LoadOutcome(cache, files).value;
      LoadOutcome(Some(rep), files) == Ok(rep) && LoadAccesses(Some(rep), files) == []
  {
  }
}
