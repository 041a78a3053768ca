# my_qa_packages in Dafny

A model of the reporting helpers of `my_qa_packages`. After a pytest run they
take the JSON summary the run leaves behind, together with `config.ini`, and use
them in three ways:

- **TestRail integration.** It pushes the results to a TestRail instance. It
  looks up the project, lists the existing sections and cases, creates the
  missing ones, opens a test run and posts one batch of results.
- **Database integration.** It records the run in a MySQL database. That is one
  `automation_run` row, then one `test_case_execution` row per test. The
  connection goes directly or through an SSH tunnel.
- **Mail integration.** It mails a summary. It validates the template data,
  computes the failure rate, renders the body, attaches the HTML report and
  runs an SMTP session.

The outside world is state the model can see:

- **TestRail** is a `Http.Transport`. It holds the log of requests sent and
  the script of replies still to come.
- **The database** is a `DbManager.Database`. It holds the log of inserted rows
  and the ids the inserts return.
- **The SMTP server** is a `Mailers.SmtpServer`. It holds the log of commands
  and the set of commands it refuses.
- **The file system** is a `Reports.FileSystem`. It holds the files and the log
  of probes and opens.
- **SQLAlchemy, SSH and `quote_plus`** are abstract through `DbConnection.Backend`.
  It gives the connection strings an engine accepts, the key files on disk,
  whether a tunnel starts, and the encoder.
- **Timestamps and clocks** are parameters: the `now` strings, `stamp` and the
  integer seconds.

Each integration object is a class with the source's mutable fields: the
client, the project, the run id, the engine, the tunnel, the report cache and
the template's data dict. Each method is proved equal to a specification
function of the old state (`RunSpec`, `InsertTestRunSpec`, `SendSpec`, …).
What the source promises is then proved of those functions. The loops of the
source are loops here with their invariants:

- the reconciliation loop of `run`;
- the results loop;
- the project scan;
- the `test_run_data` coercion;
- the attachment loop;
- the per-test insert loop.

Modules follow the source:

- `TestRailGateway` is `testrail_client.py`. `TestInfoExtraction`,
  `Reconciler` and `TestRailManager` are `testrail_manager.py`.
- `DbConnection` and `DbManager` are the `db` package.
- `EmailTemplates`, `Mailers` and `MailManager` are the `mailify` package.
- Shared pieces: `Strings` (Python string operations), `Json`, `Values`
  (Python values in the dicts), `IniConfig` (`configparser`), `Reports`,
  `Http`, `Assoc` (insertion-ordered dicts) and `Common`.

## Model

| member | source | states |
|---|---|---|
| TestRailGateway.Effective | my_qa_packages/testrail/testrail_client.py:36-39 | a non-empty config replaces each argument by its config entry (None when absent); an empty or missing config keeps the arguments |
| TestRailGateway.ConfigOverridesArguments | my_qa_packages/testrail/testrail_client.py:36-39 | with a non-empty config the explicit arguments make no difference to the resulting credentials or error |
| TestRailGateway.Validate | my_qa_packages/testrail/testrail_client.py:42-49 | credentials exist iff base_url, username and api_key are all truthy, otherwise a ValueError; the URL loses every trailing `/`, username and key are stripped |
| TestRailGateway.ConfigureOutcome | my_qa_packages/testrail/testrail_client.py:36-49 | with an empty config the arguments are validated; with a non-empty one, credentials exist iff `base_url`, `username` and `api_key` are present and non-empty in it, and are those entries normalised; every failure is a ValueError |
| TestRailGateway.WhitespaceKeyAccepted | my_qa_packages/testrail/testrail_client.py:42-49 | a whitespace-only api key passes validation (truthiness is decided before the strip) and becomes the empty key |
| TestRailGateway.ConnectOutcome | my_qa_packages/testrail/testrail_client.py:19-85 | a configuration error raises before any request; otherwise exactly the `get_projects` probe is sent and the client exists iff the probe did not raise |
| TestRailGateway.Connect | my_qa_packages/testrail/testrail_client.py:19-59 | the new client carries the validated credentials and the transport holds the state `ConnectOutcome` gives |
| TestRailGateway.Client.constructor | my_qa_packages/testrail/testrail_client.py:45-53 | the client stores the normalised credentials and the transport |
| Http.ParseVerb | my_qa_packages/testrail/testrail_client.py:102-109 | GET, POST, PUT are recognised from the upper-cased method exactly; any other method is a ValueError |
| Http.Interpret | my_qa_packages/testrail/testrail_client.py:111-126 | an unreachable server is a connection error, a status in 400..599 an HTTP error, an empty body None, a JSON body its value, a non-JSON body a decode error |
| Http.Exchange | my_qa_packages/testrail/testrail_client.py:103-107 | a request is appended to the log and answered by the next scripted reply, or by a connection error when none is left |
| Http.Transport.Send | my_qa_packages/testrail/testrail_client.py:103-107 | the transport's new log and script, and the answer, are those of `Exchange` |
| TestRailGateway.Dispatch | my_qa_packages/testrail/testrail_client.py:99-112 | the URL is base_url + endpoint, the auth is (username, key), a GET carries no body; the answer is the interpreted next reply |
| TestRailGateway.MakeRequest | my_qa_packages/testrail/testrail_client.py:87-112 | an unsupported method raises without sending anything; a supported one is dispatched |
| TestRailGateway.LiteralVerbs | my_qa_packages/testrail/testrail_client.py:102-105 | `GET` sends no body, `POST` sends the data |
| TestRailGateway.VerbsAreCaseInsensitive | my_qa_packages/testrail/testrail_client.py:102-109 | `get`, `Post`, `put` dispatch as GET, POST, PUT; `DELETE` raises and leaves the wire unchanged |
| TestRailGateway.Client.Request | my_qa_packages/testrail/testrail_client.py:87-126 | answer and new transport state equal `MakeRequest` on the old state |
| TestRailGateway.Listing | my_qa_packages/testrail/testrail_client.py:142-147 | a dict holding the key yields its value, a list itself, anything else the empty list |
| TestRailGateway.ListingShapesAgree | my_qa_packages/testrail/testrail_client.py:142-147 | a bare list and the same list enveloped under the key normalise to the same list |
| TestRailGateway.FirstNamed | my_qa_packages/testrail/testrail_client.py:150-156 | the result is the first item that is a dict whose `name` equals the argument exactly, None iff no item is |
| TestRailGateway.FindProject | my_qa_packages/testrail/testrail_client.py:139-156 | a falsy answer finds nothing; a normalised list is scanned with `FirstNamed`; a string or dict listing finds nothing; null, bool or int listings raise a TypeError |
| TestRailGateway.ProjectCall | my_qa_packages/testrail/testrail_client.py:128-159 | one GET of `get_projects` is sent; a project returned carries the name asked for |
| TestRailGateway.Client.GetProjectByName | my_qa_packages/testrail/testrail_client.py:128-159 | the loop over the listing returns what `ProjectCall` returns, with the same wire |
| TestRailGateway.SuiteQualifier | my_qa_packages/testrail/testrail_client.py:328-330 | the `&suite_id=` qualifier is empty iff the suite id is falsy |
| TestRailGateway.SuiteQualifierRoundTrip | my_qa_packages/testrail/testrail_client.py:328-330 | a truthy suite id is appended as `&suite_id=` followed by text that reads back as that id |
| TestRailGateway.ListCall | my_qa_packages/testrail/testrail_client.py:325-339 | one GET of the endpoint; its error propagates, its answer is normalised under the key |
| TestRailGateway.Client.GetSections | my_qa_packages/testrail/testrail_client.py:325-339 | equals `ListCall` on `get_sections/{project_id}` plus qualifier, under `sections` |
| TestRailGateway.Client.GetCases | my_qa_packages/testrail/testrail_client.py:358-372 | equals `ListCall` on `get_cases/{project_id}` plus qualifier, under `cases` |
| TestRailGateway.RunPayload | my_qa_packages/testrail/testrail_client.py:192-212 | `case_ids` always (unchanged, in order), `name` always (the given truthy name or "Test Run - " + now), suite/description/milestone/assignee exactly when truthy, no other key |
| TestRailGateway.Announced | my_qa_packages/testrail/testrail_client.py:218-219 | the success message's `.get("id")` raises an AttributeError exactly for a truthy non-dict answer; other answers pass unchanged |
| TestRailGateway.CreateRunCall | my_qa_packages/testrail/testrail_client.py:186-216 | a failed project lookup propagates and a missing project raises ValueError "Project '…' not found" with no `add_run` request; otherwise at most one more request |
| TestRailGateway.CreateRunPostsPayload | my_qa_packages/testrail/testrail_client.py:186-216 | for a found project with id pid the wire receives exactly the project GET and a POST of the run payload to `add_run/pid` |
| TestRailGateway.Client.CreateTestRun | my_qa_packages/testrail/testrail_client.py:161-227 | answer and new transport state equal `CreateRunCall` |
| TestRailGateway.ResultPayload | my_qa_packages/testrail/testrail_client.py:255-269 | `status_id` always; comment, elapsed, defects, version exactly when truthy; no other key |
| TestRailGateway.Client.UpdateTestCaseStatus | my_qa_packages/testrail/testrail_client.py:229-289 | one POST of the result payload to `add_result_for_case/{run_id}/{case_id}` |
| TestRailGateway.BatchPayload | my_qa_packages/testrail/testrail_client.py:313-314 | the body is exactly `{"results": results}`, the results unchanged |
| TestRailGateway.Client.UpdateTestCaseStatusBatch | my_qa_packages/testrail/testrail_client.py:291-323 | one POST of the batch payload to `add_results_for_cases/{run_id}` |
| TestRailGateway.SectionPayload | my_qa_packages/testrail/testrail_client.py:344-348 | `name` always, suite_id and parent_id exactly when truthy, no other key |
| TestRailGateway.AddSectionCall | my_qa_packages/testrail/testrail_client.py:341-353 | one POST of the section payload to `add_section/{project_id}`, the answer passed through `Announced` |
| TestRailGateway.Client.AddSection | my_qa_packages/testrail/testrail_client.py:341-356 | answer and new transport state equal `AddSectionCall` |
| TestRailGateway.CasePayload | my_qa_packages/testrail/testrail_client.py:384 | the body is `title` merged with the extra fields; an extra `title` is refused (a duplicate keyword argument) |
| TestRailGateway.AddCaseCall | my_qa_packages/testrail/testrail_client.py:374-389 | an extra `title` raises TypeError before sending; otherwise one POST of the merged payload to `add_case/{section_id}` |
| TestRailGateway.Client.AddCase | my_qa_packages/testrail/testrail_client.py:374-392 | answer and new transport state equal `AddCaseCall` |
| TestRailGateway.Client.GetTestRun | my_qa_packages/testrail/testrail_client.py:394-410 | one GET of `get_run/{run_id}`, its answer returned as is |
| TestRailGateway.Client.GetTestsInRun | my_qa_packages/testrail/testrail_client.py:412-428 | one GET of `get_tests/{run_id}`, its answer returned as is |
| Json.Subscript | my_qa_packages/testrail/testrail_manager.py:129 | `x[key]` is the value when x is a dict holding key, a KeyError for a dict without it, a TypeError otherwise |
| Json.GetKey | my_qa_packages/testrail/testrail_manager.py:82 | `x.get(key)` is the value or None on a dict and an AttributeError on anything else |
| Json.IdTextRoundTrip | my_qa_packages/testrail/testrail_client.py:215 | an integer id rendered into an endpoint reads back as the id; a None id renders as text that is no integer |
| TestInfoExtraction.Segments | my_qa_packages/testrail/testrail_manager.py:48 | the `::` split has at least one segment and joins back to the nodeid |
| TestInfoExtraction.StatusOf | my_qa_packages/testrail/testrail_manager.py:55-61 | passed→1, failed→5, skipped→2, every other outcome→3, each an if-and-only-if |
| TestInfoExtraction.ExtractTestInfo | my_qa_packages/testrail/testrail_manager.py:45-75 | the record keeps the nodeid, the status of the outcome and the failure text of the record; it is untested iff the outcome is none of the three; the failure text is None iff the outcome is not `failed` |
| TestInfoExtraction.MissingOutcomeIsUntested | my_qa_packages/testrail/testrail_manager.py:55-61 | a record without an outcome is untested with no failure text |
| TestInfoExtraction.SectionOfJoinedNodeId | my_qa_packages/testrail/testrail_manager.py:47-53 | for a nodeid of two or more colon-free segments the section is the second segment and the name comes from the last |
| TestInfoExtraction.NoSeparatorGivesGeneral | my_qa_packages/testrail/testrail_manager.py:51-53 | without `::` the section is "General" and the name is still cut at the first `[` |
| TestInfoExtraction.TestNameShape | my_qa_packages/testrail/testrail_manager.py:52-53 | the name is the longest `[`-free prefix of the last segment |
| Reports.FailureReason | my_qa_packages/testrail/testrail_manager.py:63-67 | None iff the outcome is not `failed`; then `call.crash.message` when present, else `call.longrepr`, else "" |
| Reports.FileSystem.Exists | my_qa_packages/testrail/testrail_manager.py:38 | true iff the file exists; one probe is logged |
| Reports.FileSystem.ReadReport | my_qa_packages/testrail/testrail_manager.py:41-42 | a missing file is FileNotFound, a non-JSON file a decode error, a JSON file its report; one open is logged |
| Reports.FileSystem.ReadFile | my_qa_packages/mailify/mailer.py:69 | a missing file is FileNotFound, otherwise its contents; one open is logged |
| Reports.LoadOutcome | my_qa_packages/testrail/testrail_manager.py:34-43 | a cached report is returned; without one a missing summary is FileNotFound and a present one loads iff it is JSON |
| Reports.ReportLoader.Load | my_qa_packages/db/db_manager.py:48-57 | the result is `LoadOutcome`; the cache is set on success and kept on error; the file system sees no access when cached, one probe when the file is missing, a probe and an open otherwise |
| Reports.LoadIsCached | my_qa_packages/mailify/mail_manager.py:38-47 | after a successful load a second load returns the same report without touching the file system |
| Reconciler.Entry | my_qa_packages/testrail/testrail_manager.py:110 | `{s[field]: s["id"]}` on one listed item: TypeError for a non-dict, KeyError for the missing field or id, an entry exactly for a string name with an integer or null id |
| Reconciler.NameMapOf | my_qa_packages/testrail/testrail_manager.py:110 | the map exists iff every item gives an entry; otherwise the error is that of the first failing item |
| Reconciler.NameMapKeys | my_qa_packages/testrail/testrail_manager.py:110 | the map's keys are exactly the names some listed item carries |
| Reconciler.NameMapSnoc | my_qa_packages/testrail/testrail_manager.py:110 | one more item updates the map with its entry, overwriting |
| Reconciler.NameMapLastWins | my_qa_packages/testrail/testrail_manager.py:110 | a name listed twice maps to the id of its last occurrence |
| Reconciler.NameMap | my_qa_packages/testrail/testrail_manager.py:109-110 | a list is mapped item by item; an empty string or dict gives the empty map; a truthy non-list or a null, bool or int listing raises TypeError |
| Reconciler.CreatedId | my_qa_packages/testrail/testrail_manager.py:129 | `section["id"]` of a creation answer is an id exactly for a dict with an integer or null `id`; a failed request is passed on |
| Reconciler.EnsureSection | my_qa_packages/testrail/testrail_manager.py:125-129 | a known section changes nothing; an unknown one sends exactly one `add_section` request and, on success, adds only that name |
| Reconciler.EnsureCase | my_qa_packages/testrail/testrail_manager.py:134-136 | a known title changes nothing; an unknown one sends exactly one `add_case` under the section's id and, on success, adds only that title |
| Reconciler.Step | my_qa_packages/testrail/testrail_manager.py:120-140 | after an exception nothing changes; otherwise one case id is appended, the one the case map holds for the test's name |
| Reconciler.FoldSnoc | my_qa_packages/testrail/testrail_manager.py:120-140 | the loop over one more test is one more step |
| Reconciler.FoldStopped | my_qa_packages/testrail/testrail_manager.py:120-140 | once an iteration raises, the remaining tests change nothing |
| Reconciler.StepInv | my_qa_packages/testrail/testrail_manager.py:120-140 | each iteration preserves the loop invariant: the maps only grow, the wire log is the creation requests in order, creations are distinct, absent before, named by the tests, cases placed under their recorded section, ids recorded and the case-to-test dict in step |
| Reconciler.FoldInv | my_qa_packages/testrail/testrail_manager.py:117-140 | the invariant holds after the whole loop |
| Reconciler.WalkSendsOnlyCreations | my_qa_packages/testrail/testrail_manager.py:117-140 | the loop sends nothing but its `add_section`/`add_case` requests, in order; an exception is raised only by one of them |
| Reconciler.WalkCreatesOnlyMissing | my_qa_packages/testrail/testrail_manager.py:125-136 | each section and each title is created at most once, only when it was not listed and only when some test names it |
| Reconciler.WalkRequestBound | my_qa_packages/testrail/testrail_manager.py:125-136 | the loop sends at most (distinct unlisted sections + distinct unlisted titles) requests |
| Reconciler.WalkWithEverythingListed | my_qa_packages/testrail/testrail_manager.py:120-140 | when every name was listed nothing is created or sent and the case ids are the listed ids of the tests, in order |
| Reconciler.WalkCreatesCaseAtFirstUse | my_qa_packages/testrail/testrail_manager.py:131-136 | a created case is created at the first test with its title, under that test's section and the id that section has |
| Reconciler.WalkRecordsEveryTest | my_qa_packages/testrail/testrail_manager.py:138-140 | without an exception there is one case id per test in input order (duplicates kept), each the final map's id for the test's title, the listed id for listed titles, and the case-to-test dict is the last-wins dict of those pairs |
| Assoc.FromPairsKeys | my_qa_packages/testrail/testrail_manager.py:140 | the keys of the case-to-test dict are the case ids deduplicated in first-occurrence order |
| Assoc.FromPairsLast | my_qa_packages/testrail/testrail_manager.py:140 | each key of that dict maps to the test of its last occurrence |
| Assoc.DedupProperties | my_qa_packages/testrail/testrail_manager.py:140 | the deduplicated ids are distinct and are exactly the ids that occur |
| Assoc.DedupOrder | my_qa_packages/testrail/testrail_manager.py:140 | deduplication keeps first occurrences in their order |
| TestRailManager.SuiteIdOf | my_qa_packages/testrail/testrail_manager.py:22-24 | a falsy or blank suite id is None; otherwise `int()` of it, a ValueError when it is not an integer |
| TestRailManager.SuiteIdRoundTrip | my_qa_packages/testrail/testrail_manager.py:22-24 | an integer's text reads as that suite id; whitespace reads as None |
| TestRailManager.ReadSettings | my_qa_packages/testrail/testrail_manager.py:12-32 | settings exist iff the section and the four required options exist and the suite id parses; the first missing one is the error; the values are the configured ones and the optional ones fall back to None |
| TestRailManager.NewTestRail | my_qa_packages/testrail/testrail_manager.py:12-32 | construction fails exactly as `ReadSettings`; a new object has no client, project, ids or cached report |
| TestRailManager.TestRail.constructor | my_qa_packages/testrail/testrail_manager.py:28-32 | the fields start empty |
| TestRailManager.ConnectSpec | my_qa_packages/testrail/testrail_manager.py:77-83 | a configuration error raises and changes nothing; success stores a client and a project with the configured name; cache and run id untouched |
| TestRailManager.LookupSpec | my_qa_packages/testrail/testrail_manager.py:79-82 | the lookup keeps the client; success stores a project with the configured name |
| TestRailManager.ConnectKeepsClientWhenProjectMissing | my_qa_packages/testrail/testrail_manager.py:78-81 | a missing project raises "Project '…' not found in TestRail" after the client (and an empty project) were stored, project id unchanged |
| TestRailManager.LookupSendsOne | my_qa_packages/testrail/testrail_manager.py:79 | the lookup sends exactly one GET of `get_projects` |
| TestRailManager.ConnectSendsAtMostTwo | my_qa_packages/testrail/testrail_manager.py:77-83 | connecting sends at most the probe and the lookup |
| TestRailManager.TestRail.Connect | my_qa_packages/testrail/testrail_manager.py:77-83 | the new object state equals `ConnectSpec` of the old |
| TestRailManager.TestRail.Lookup | my_qa_packages/testrail/testrail_manager.py:79-83 | the new object state equals `LookupSpec` of the old |
| TestRailManager.Infos | my_qa_packages/testrail/testrail_manager.py:106 | one extracted record per test, in order |
| TestRailManager.TestRail.CreateMissing | my_qa_packages/testrail/testrail_manager.py:117-140 | the loop leaves the wire, error, case ids and case-to-test dict that `Fold` specifies |
| TestRailManager.TestRail.SectionStep | my_qa_packages/testrail/testrail_manager.py:125-131 | one get-or-create of a section, as `EnsureSection` |
| TestRailManager.TestRail.CaseStep | my_qa_packages/testrail/testrail_manager.py:134-138 | one get-or-create of a case, as `EnsureCase` |
| TestRailManager.ResultEntry | my_qa_packages/testrail/testrail_manager.py:161-166 | the entry has `case_id` and `status_id`, and `comment` (the failure text) exactly when that text is truthy |
| TestRailManager.BuildResults | my_qa_packages/testrail/testrail_manager.py:159-167 | one entry per entry of the case-to-test dict, in its order |
| TestRailManager.BatchCoversEachCaseOnce | my_qa_packages/testrail/testrail_manager.py:140-167 | the batch has one entry per distinct case id, in first-occurrence order |
| TestRailManager.BatchReportsLastTest | my_qa_packages/testrail/testrail_manager.py:140-167 | the entry for a case id is built from the last test mapped to it |
| TestRailManager.RunName | my_qa_packages/testrail/testrail_manager.py:143 | the configured name when truthy, else "Automation Run - " + now; never empty |
| TestRailManager.RunIdOf | my_qa_packages/testrail/testrail_manager.py:156 | `test_run.get("id")`: an AttributeError for a non-dict, the id (None when absent) otherwise |
| TestRailManager.FinishSpec | my_qa_packages/testrail/testrail_manager.py:143-171 | creating the run and posting the batch change only the wire and the run id |
| TestRailManager.FinishPostsBatch | my_qa_packages/testrail/testrail_manager.py:143-169 | a successful finish sends exactly three requests: the project GET, a POST creating the run, and the batch of the case-to-test dict to the stored run id |
| TestRailManager.TestRail.Finish | my_qa_packages/testrail/testrail_manager.py:143-171 | the new object state equals `FinishSpec` of the old |
| TestRailManager.PublishSpec | my_qa_packages/testrail/testrail_manager.py:106-171 | listing, reconciling and finishing change only the wire and the run id |
| TestRailManager.PublishPostsBatch | my_qa_packages/testrail/testrail_manager.py:106-169 | a successful publication sends at least four requests and ends with the batch of the case-to-test dict built from one case id per test |
| TestRailManager.PublishEndsWithBatchPost | my_qa_packages/testrail/testrail_manager.py:106-169 | its last request is a POST to `add_results_for_cases/{run_id}` with the client's auth |
| TestRailManager.TestRail.Publish | my_qa_packages/testrail/testrail_manager.py:106-171 | the new object state equals `PublishSpec` of the old |
| TestRailManager.SyncSpec | my_qa_packages/testrail/testrail_manager.py:98-171 | success needs a loaded report with tests, which is then cached; client and project are untouched |
| TestRailManager.SyncPostsBatch | my_qa_packages/testrail/testrail_manager.py:98-171 | a successful run from a connected client ends with the batch POST |
| TestRailManager.TestRail.Sync | my_qa_packages/testrail/testrail_manager.py:98-171 | the new object state equals `SyncSpec` of the old |
| TestRailManager.RunStopsWhenConnectFails | my_qa_packages/testrail/testrail_manager.py:94-96 | a failed connection returns False without reading the report or sending more |
| TestRailManager.RunWithoutTestsSendsNothing | my_qa_packages/testrail/testrail_manager.py:98-103 | an empty test list returns False after connecting, with no listing, creation, run or result request |
| TestRailManager.RunSuccessPostsBatch | my_qa_packages/testrail/testrail_manager.py:85-175 | `run` returns True only with a client, a cached report with tests and the batch POST as last request |
| TestRailManager.TestRail.Run | my_qa_packages/testrail/testrail_manager.py:85-175 | the verdict and the new object state equal `RunSpec` of the old |
| IniConfig.ConfigGet | my_qa_packages/testrail/testrail_manager.py:17 | `config.get`: the value, NoSectionError for a missing section, NoOptionError for a missing option |
| IniConfig.ConfigFallback | my_qa_packages/testrail/testrail_manager.py:22 | `fallback=None`: the value exactly when `config.get` would find it, else None |
| IniConfig.ConfigGetOr | my_qa_packages/mailify/mail_manager.py:27 | a string fallback replaces a missing value |
| IniConfig.IntOf | my_qa_packages/db/db_manager.py:24 | `int(text)` is the parsed integer, a ValueError naming the text otherwise |
| IniConfig.ConfigGetInt | my_qa_packages/mailify/mail_manager.py:20 | `getint` with fallback: the default when missing, `int()` of the value otherwise |
| IniConfig.ConfigGetBool | my_qa_packages/mailify/mail_manager.py:23 | `getboolean` with fallback: true and false exactly for the boolean words, a ValueError for other text |
| IniConfig.SectionItems | my_qa_packages/db/db_manager.py:36-37 | the options of a present section, nothing for an absent one |
| Values.Get | my_qa_packages/mailify/mailer.py:21-26 | `d.get(key, default)` |
| Values.FloatText | my_qa_packages/mailify/email_template.py:105 | the text of a two-decimal rate: at least three characters, a minus sign iff negative, no trailing zero unless the value ends in 0 |
| Values.FloatTextReadsBack | my_qa_packages/mailify/email_template.py:105 | after the sign, the text splits at `.` into the whole part of \|h\| / 100 and one or two decimals that, padded to two digits, are the hundredths |
| Values.FloatTextWhole | my_qa_packages/mailify/email_template.py:105 | a whole rate prints with `.0`, as Python prints `round(x, 2)` |
| Values.TextRoundTrip | my_qa_packages/db/db_connection.py:37 | an int formats as text that reads back as it; a string formats as itself |
| Strings.JoinSplit | my_qa_packages/testrail/testrail_manager.py:48 | the pieces of `split` joined by the separator give the string back |
| Strings.SplitJoin | my_qa_packages/testrail/testrail_manager.py:48 | pieces free of the separator are recovered by splitting their join |
| Strings.SplitHead | my_qa_packages/testrail/testrail_manager.py:53 | `split("[")[0]` is the longest `[`-free prefix |
| Strings.SplitCount | my_qa_packages/mailify/mailer.py:50 | splitting on a character yields one more piece than it has occurrences |
| Strings.Strip | my_qa_packages/testrail/testrail_client.py:48-49 | `strip()` is an infix surrounded only by whitespace, with non-whitespace ends |
| Strings.StripTrailing | my_qa_packages/testrail/testrail_client.py:46 | `rstrip('/')` removes exactly the trailing `/` characters |
| Strings.Upper | my_qa_packages/testrail/testrail_client.py:102 | maps each ASCII letter a–z to A–Z and keeps every other character (ASCII subset of `upper()`) |
| Strings.ParseIntToString | my_qa_packages/db/db_manager.py:39 | `int()` reads the text of every integer back |
| Strings.Find | my_qa_packages/db/db_manager.py:156 | the first occurrence of a pattern, None when it does not occur |
| Strings.Basename | my_qa_packages/mailify/mailer.py:70 | `os.path.basename`: the part after the last `/` |
| DbConnection.ResolveParams | my_qa_packages/db/db_connection.py:18-23 | a non-empty config replaces every parameter by its entry (None, port 3306 when absent); otherwise the arguments stand |
| DbConnection.ConfigOverridesArguments | my_qa_packages/db/db_connection.py:18-23 | with a non-empty config the explicit arguments make no difference |
| DbConnection.LocalhostIgnoresPassword | my_qa_packages/db/db_connection.py:26-28 | on host `localhost` the parameters are acceptable iff user and database are truthy, whatever the password |
| DbConnection.RemoteNeedsPassword | my_qa_packages/db/db_connection.py:29-31 | on any other host a falsy password is refused |
| DbConnection.EncodedPassword | my_qa_packages/db/db_connection.py:34 | a falsy password encodes to "", a string through `quote_plus`, an int raises TypeError |
| DbConnection.CreateDbConnection | my_qa_packages/db/db_connection.py:8-54 | unacceptable parameters give None without an engine; a non-string password raises; an engine exists iff the connection string is accepted, and it is that string's engine |
| DbConnection.ConnectionStringRoundTrip | my_qa_packages/db/db_connection.py:37 | the string `mysql+mysqlconnector://user:pw@host:port/db` parses back into its five parts when those are separator-free |
| DbConnection.EngineUrlRoundTrip | my_qa_packages/db/db_connection.py:34-46 | the engine's URL names the resolved user, host, port and database |
| DbConnection.EmptyPasswordUrl | my_qa_packages/db/db_connection.py:34-37 | a None or empty password appears as "" in the URL |
| DbConnection.CreateSshTunnel | my_qa_packages/db/db_connection.py:57-94 | an empty or absent key path raises FileNotFound before a tunnel exists; a tunnel binds 127.0.0.1:local port to the remote host and port over the SSH host and port |
| DbConnection.TunnelParams | my_qa_packages/db/db_connection.py:137-143 | the tunnelled connection uses host 127.0.0.1, the local bind port and the given credentials |
| DbConnection.CreateDbConnectionWithTunnel | my_qa_packages/db/db_connection.py:97-145 | a tunnel error propagates; otherwise the result pairs the tunnelled connection's engine with the tunnel |
| DbConnection.TunnelNeedsPassword | my_qa_packages/db/db_connection.py:127-145 | through a tunnel the host is not `localhost`, so a missing DB password yields no engine while the tunnel stays up |
| DbManager.ReadDatabase | my_qa_packages/db/db_manager.py:19-25 | settings exist iff all five `[database]` options exist and the port reads with `int()`; a missing section or host raises NoSection/NoOption, a bad port a ValueError naming it; the values are the configured ones |
| DbManager.ReadSsh | my_qa_packages/db/db_manager.py:27-33 | no section gives no SSH settings; a section needs all three options |
| DbManager.ReadDbSettings | my_qa_packages/db/db_manager.py:15-41 | construction fails exactly when the database or SSH options do; the run data is the `[test_run_data]` section |
| DbManager.Coerce | my_qa_packages/db/db_manager.py:38-41 | an int exactly when `int()` accepts the text, the text itself otherwise |
| DbManager.CoerceRoundTrip | my_qa_packages/db/db_manager.py:38-41 | an integer's text is stored as that int; kept text is stored unchanged |
| DbManager.CoerceAll | my_qa_packages/db/db_manager.py:35-41 | the loop stores every option, coerced, and no other key |
| DbManager.DB.constructor | my_qa_packages/db/db_manager.py:15-46 | the coerced run data and empty engine, tunnel, run id and cache |
| DbManager.NewDB | my_qa_packages/db/db_manager.py:15-46 | construction fails exactly as `ReadDbSettings`; the new object starts empty |
| DbManager.SummaryStats | my_qa_packages/db/db_manager.py:59-76 | counts default to 0 without a summary or key; start is `created` (0 by default) and end is start + duration |
| DbManager.RunRow | my_qa_packages/db/db_manager.py:108-110 | the row has the keys of config, stats and `executed_at`; stats win over config and `executed_at` is now |
| DbManager.InsertRow | my_qa_packages/db/db_manager.py:119 | an insert is logged and returns the next scripted id, None when none is left |
| DbManager.Database.Insert | my_qa_packages/db/db_manager.py:185 | the database's new state and the id equal `InsertRow` |
| DbManager.InsertAllEffect | my_qa_packages/db/db_manager.py:153-187 | inserting rows logs each in order, consumes one id each, and the count is all rows iff every insert returned a truthy id |
| DbManager.EnsureEngine | my_qa_packages/db/db_manager.py:112-113 | connecting only when there is no engine never loses one |
| DbManager.ConnectSpec | my_qa_packages/db/db_manager.py:78-101 | `connect` changes only engine and tunnel and returns True only with an engine |
| DbManager.ConnectFallbackOrder | my_qa_packages/db/db_manager.py:79-101 | without SSH settings the direct connection; with them the tunnel, whose result stands unless it raised, in which case the direct connection |
| DbManager.MissingKeyFallsBack | my_qa_packages/db/db_manager.py:79-97 | a missing key file means a direct connection |
| DbManager.DB.Connect | my_qa_packages/db/db_manager.py:78-101 | the new state equals `ConnectSpec` of the old |
| DbManager.InsertTestRunOutcome | my_qa_packages/db/db_manager.py:103-128 | a report error or no engine returns None and inserts nothing; otherwise exactly the merged row is inserted and its id stored and returned |
| DbManager.DB.InsertTestRun | my_qa_packages/db/db_manager.py:103-128 | the new state equals the specification of `insert_test_run` |
| DbManager.DbNameWithSeparator | my_qa_packages/db/db_manager.py:156 | with `::` the stored test name is the TestRail test name |
| DbManager.DbNameWithoutSeparator | my_qa_packages/db/db_manager.py:156 | without `::` the stored name is the whole nodeid, while TestRail still cuts it at `[` |
| DbManager.FailureReasonColumn | my_qa_packages/db/db_manager.py:168-172 | the failure column is None iff the status is not `failed` |
| DbManager.RowsStep | my_qa_packages/db/db_manager.py:153-189 | each iteration appends one row whose window starts where the previous ended and lasts the test's duration |
| DbManager.RowsUpToAt | my_qa_packages/db/db_manager.py:158-164 | row k spans from created + the durations before k to created + the durations up to k |
| DbManager.WindowsChain | my_qa_packages/db/db_manager.py:149-164 | the first test starts at `created`, each ends after its own duration and the next starts where it ended |
| DbManager.ExecutionRowContents | my_qa_packages/db/db_manager.py:154-183 | each row carries the run id, the nodeid, the derived name, the outcome, the failure text exactly for failures and the recording time |
| DbManager.InsertExecutionsSpec | my_qa_packages/db/db_manager.py:136-138 | without a run id nothing is inserted and False is returned |
| DbManager.ExecutionsVerdict | my_qa_packages/db/db_manager.py:147-192 | one row per test is inserted in order and the verdict is True iff every insert returned a truthy id |
| DbManager.InsertRows | my_qa_packages/db/db_manager.py:153-189 | the loop's count and database state equal inserting the execution rows |
| DbManager.DB.InsertTestCaseExecutions | my_qa_packages/db/db_manager.py:130-196 | the new state and verdict equal `InsertExecutionsSpec` |
| EmailTemplates.MissingAmong | my_qa_packages/mailify/email_template.py:95 | the missing fields are exactly the required fields absent from the data |
| EmailTemplates.MissingInOrder | my_qa_packages/mailify/email_template.py:95 | they are listed in the order of the required list |
| EmailTemplates.FieldCheck | my_qa_packages/mailify/email_template.py:89-97 | validation passes iff all eleven required keys are present; otherwise the error lists the missing ones joined by ", " |
| EmailTemplates.EmailTemplate.ValidateData | my_qa_packages/mailify/email_template.py:87-97 | the method's answer is `FieldCheck` of the data |
| EmailTemplates.RoundDiv | my_qa_packages/mailify/email_template.py:105 | rounding a quotient to the nearest integer, ties to even |
| EmailTemplates.RoundDivExact | my_qa_packages/mailify/email_template.py:105 | an exact quotient is unchanged and a ratio within 0..10000 stays there |
| EmailTemplates.FailRate | my_qa_packages/mailify/email_template.py:99-107 | 0.0 when total is at most 0; otherwise failed/total×100 to two decimals; a non-numeric total or failed raises TypeError |
| EmailTemplates.FailRateIsPercentage | my_qa_packages/mailify/email_template.py:101-105 | for 0 ≤ failed ≤ total the rate lies between 0 and 100 and is within half a hundredth of failed/total×100 |
| EmailTemplates.EmailTemplate.CalculateFailureRate | my_qa_packages/mailify/email_template.py:99-107 | the data gains `fail_rate` exactly when the rate is computable, otherwise it is unchanged |
| EmailTemplates.NewEmailTemplate | my_qa_packages/mailify/email_template.py:63-85 | construction fails as validation, then as the rate; a built template shares the caller's dict, which has gained `fail_rate` |
| EmailTemplates.EmailTemplate.constructor | my_qa_packages/mailify/email_template.py:83 | the template holds the caller's dict itself |
| EmailTemplates.WithDate | my_qa_packages/mailify/email_template.py:117-118 | a truthy date is kept; an absent or falsy one becomes now |
| EmailTemplates.Render | my_qa_packages/mailify/email_template.py:121-125 | formatting succeeds iff every placeholder has a value, else a KeyError for a missing one |
| EmailTemplates.Body | my_qa_packages/mailify/email_template.py:109-125 | a failure is "Missing template variable" naming a placeholder absent from the dated data |
| EmailTemplates.PlaceholdersCovered | my_qa_packages/mailify/email_template.py:10-61 | every placeholder is a required field, `date` or `fail_rate` |
| EmailTemplates.PrepareBodyTotal | my_qa_packages/mailify/email_template.py:109-125 | validated data with a failure rate always renders |
| EmailTemplates.BuiltTemplateRenders | my_qa_packages/mailify/email_template.py:84-125 | after a successful construction `prepare_body` never fails |
| EmailTemplates.EmailTemplate.PrepareBody | my_qa_packages/mailify/email_template.py:109-125 | the data is dated in place and the answer is `Body` |
| EmailTemplates.Attachments | my_qa_packages/mailify/email_template.py:134-141 | `[html_report_path]` when it is truthy, `[]` otherwise |
| EmailTemplates.EmailTemplate.GetAttachments | my_qa_packages/mailify/email_template.py:127-141 | the method's answer is `Attachments` of the data |
| EmailTemplates.EmailTemplate.PrepareEmailData | my_qa_packages/mailify/email_template.py:143-153 | the body and the attachments of the dated data, or the body's error |
| Mailers.Effective | my_qa_packages/mailify/mailer.py:20-26 | a non-empty config replaces every argument by its entry; port defaults to 587 and use_tls to True |
| Mailers.ConfigOverridesArguments | my_qa_packages/mailify/mailer.py:20-26 | with a non-empty config the explicit arguments make no difference |
| Mailers.SettingsCheck | my_qa_packages/mailify/mailer.py:29-30 | a ValueError iff server, username, password or sender is falsy; port and TLS are not checked |
| Mailers.NewMailer | my_qa_packages/mailify/mailer.py:9-38 | a mailer exists iff the effective settings pass `SettingsCheck`, and stores them |
| Mailers.Mailer.constructor | my_qa_packages/mailify/mailer.py:33-38 | the checked settings are stored |
| Mailers.StripEach | my_qa_packages/mailify/mailer.py:50 | every piece stripped, count and order kept |
| Mailers.RecipientList | my_qa_packages/mailify/mailer.py:49-54 | only an empty list raises; a recipients string is split on `,` and stripped |
| Mailers.RecipientLineCount | my_qa_packages/mailify/mailer.py:49-54 | a string gives commas + 1 recipients and `""` gives `[""]` |
| Mailers.RecipientLineRoundTrip | my_qa_packages/mailify/mailer.py:50 | comma-free stripped addresses joined by `,` are read back exactly |
| Mailers.Subtype | my_qa_packages/mailify/mailer.py:62 | `html` iff html, else `plain` |
| Mailers.PartOf | my_qa_packages/mailify/mailer.py:68-74 | an openable path is attached under its basename with the attachment disposition; any other contributes nothing |
| Mailers.FailedAttachmentSkipped | my_qa_packages/mailify/mailer.py:66-74 | a path that cannot be opened is skipped and the others are still attached |
| Mailers.OpenableAttached | my_qa_packages/mailify/mailer.py:66-72 | when every path opens, each is attached in order with its file's contents |
| Mailers.Mailer.AttachFiles | my_qa_packages/mailify/mailer.py:66-74 | the loop attaches `Parts` of the paths and opens each string path once |
| Mailers.SessionCommands | my_qa_packages/mailify/mailer.py:78-82 | connect, STARTTLS only when use_tls is truthy, login, send |
| Mailers.DeliveredUpTo | my_qa_packages/mailify/mailer.py:77-86 | a session stops right after its first refused command |
| Mailers.DeliveredAll | my_qa_packages/mailify/mailer.py:77-86 | a session with no refusal runs every command |
| Mailers.SmtpServer.Command | my_qa_packages/mailify/mailer.py:78-82 | a command is logged and succeeds iff the server does not refuse it |
| Mailers.DeliveredIsPrefix | my_qa_packages/mailify/mailer.py:77-86 | the server sees a prefix of the session ending at the first refusal |
| Mailers.MessageSentOnlyOnSuccess | my_qa_packages/mailify/mailer.py:78-86 | the session succeeds iff every command is accepted, the message included |
| Mailers.Mailer.Deliver | my_qa_packages/mailify/mailer.py:77-86 | the server log grows by the delivered prefix; success iff accepted, otherwise an SMTP error is raised |
| Mailers.Mailer.SendMail | my_qa_packages/mailify/mailer.py:40-86 | a recipient error touches neither the files nor the server; otherwise the message from the sender to the joined recipients, with the body subtype and the attachable parts, goes through the session |
| MailManager.ReadMailSettings | my_qa_packages/mailify/mail_manager.py:14-36 | reading succeeds iff `[mail]` exists with `smtp_server`, `username`, `password`, `sender`, `your_name` and `your_position` and with a port and use-tls that convert; otherwise the error is NoSection, or the first missing option's NoOption or the conversion's ValueError, in the order the code reads them; the settings are the `[mail]` values (port and TLS with their fallbacks) and the `[suite_info]` values with their defaults |
| MailManager.NewMail | my_qa_packages/mailify/mail_manager.py:14-36 | construction fails exactly as `ReadMailSettings`; the cache starts empty |
| MailManager.Mail.constructor | my_qa_packages/mailify/mail_manager.py:36 | the report cache starts empty |
| MailManager.SmtpConfigAsMailer | my_qa_packages/mailify/mail_manager.py:105 | the mailer built from the stored SMTP dict uses exactly the configured values and refuses it iff server, username, password or sender is empty |
| MailManager.DurationText | my_qa_packages/mailify/mail_manager.py:55-56 | the duration text ends in `s` |
| MailManager.DurationReadsBack | my_qa_packages/mailify/mail_manager.py:55-56 | for every integer, including negatives, the text is `{q}m {r}s` or `{r}s` with seconds == 60q + r, 0 <= r < 60 and the minutes part absent iff q == 0, as Python's floor `divmod` gives |
| MailManager.DurationShowsMinutes | my_qa_packages/mailify/mail_manager.py:55-56 | minutes are shown iff the duration is at least a minute; under a minute it is the seconds and `s` |
| MailManager.SummaryOf | my_qa_packages/mailify/mail_manager.py:49-69 | the date is "" for a falsy `created` and its formatting otherwise; the counts default to 0 |
| MailManager.Mail.ParseSummary | my_qa_packages/mailify/mail_manager.py:49-69 | the summary of the loaded report, the cache and file accesses as `Load` |
| MailManager.MailDataFitsTemplate | my_qa_packages/mailify/mail_manager.py:82-98 | the data always passes validation and holds the HTML report path iff the report exists |
| MailManager.MailDataCounts | my_qa_packages/mailify/mail_manager.py:89-92 | total and failed are the report's counts and the rate is computable |
| MailManager.MailAttachments | my_qa_packages/mailify/mail_manager.py:97-101 | the only attachment is the HTML report, iff it exists |
| MailManager.SubjectReadsBack | my_qa_packages/mailify/mail_manager.py:103 | the subject is "Test Report - " + suite + " \| " … " Passed", and its middle splits on `/` into the passed and total counts |
| MailManager.CountsReadBack | my_qa_packages/mailify/mail_manager.py:103 | `passed/total` splits back into the two counts |
| MailManager.PreparedDataOutcome | my_qa_packages/mailify/mail_manager.py:100-101 | the template never fails on that data: the body is the rendered template and the attachment list is the report iff it exists |
| MailManager.Mail.PrepareData | my_qa_packages/mailify/mail_manager.py:82-101 | the method's answer is the prepared template data |
| MailManager.DispatchIncomplete | my_qa_packages/mailify/mail_manager.py:105 | an empty server, username, password or sender fails before any file or server access |
| MailManager.DispatchSession | my_qa_packages/mailify/mail_manager.py:105-111 | otherwise the attachments are opened, the server sees the delivered session, and the send succeeds iff every command is accepted |
| MailManager.OutgoingRecipients | my_qa_packages/mailify/mail_manager.py:106-111 | the To header is the configured recipients split, stripped and joined by ", ", and the body is plain text |
| MailManager.Mail.Dispatch | my_qa_packages/mailify/mail_manager.py:105-111 | the file and server logs grow as the dispatch specification says |
| MailManager.SendFailsEarly | my_qa_packages/mailify/mail_manager.py:79-118 | a report error or incomplete SMTP settings return False with nothing sent to the server |
| MailManager.SendDispatches | my_qa_packages/mailify/mail_manager.py:80-111 | with a report, the data always prepares and `send` is the dispatch of it |
| MailManager.SendReachesServer | my_qa_packages/mailify/mail_manager.py:79-114 | with a report and complete settings the server is contacted at the configured host and port, and `send` returns True iff the session is accepted |
| MailManager.Mail.Send | my_qa_packages/mailify/mail_manager.py:71-118 | verdict, cache, file and server logs equal `SendSpec` |

## Left out

- All `print` diagnostics, and the error-message matching `_test_connection` does. Only the exception each step raises is modelled.
- `datetime.now`, `fromtimestamp` and `strftime` are not modelled. Formatted times are `now` strings or a `stamp` function, and timestamps are integer seconds.
- Float durations are taken as whole seconds: `int(duration)`, the per-phase sums and `timedelta` work on integers.
- `setup`/`call`/`teardown` phases without a `duration`, and non-numeric durations, are not distinguished from 0.
- EmailTemplates.FailRate: the rate is an exact rational rounded to hundredths with ties to even. Python's float division and `round` can differ from that in the last digit.
- HTTP, SMTP, MIME, SSH and SQLAlchemy are scripted state: replies, refused commands, accepted connection strings, key files, and a tunnel that starts or not. The SMTP `QUIT`, the `with` blocks and engine disposal are not modelled.
- `quote_plus` is an abstract encoder. Nothing is claimed about it beyond being applied to a truthy string password.
- `open` errors other than a missing file (permissions, directories) are not modelled. A report is JSON or not.
- `configparser` is a map of sections to options whose names are already lower-cased. The DEFAULT section, interpolation and reading of the file are not modelled.
- Identifiers that are neither integers nor null become a MalformedId error, where Python would carry any value.
- TestRailManager.SuiteIdOf: a truthy suite id that strips to nothing is None, as written.
- Strings.ParseInt / IniConfig.IntOf: `int()` parsing follows Python's rules for ASCII digits, signs, underscores and surrounding whitespace, but not non-ASCII digits.
- Strings.Upper: only ASCII letters are case-mapped; Python's `upper()` is Unicode (é to É, ß to SS, ſ to S), so a verb such as `poſt` that Python accepts is refused here. Every call site passes an ASCII literal.
- Values.FloatText: Python prints floats of 1e16 or more in exponent form; the rate is at most 100.0, so that never arises here.
- Reports.Report, Reports.FailureReason: report fields carry the types pytest-json-report writes or are absent. Null or mistyped values (a null crash message, nodeid, summary, duration or created) and the exceptions they cause are not modelled.
- `db_operations.insert_data` is not part of this model. It is a scripted list of returned ids, with each insert logged.
- `DB.close` is not modelled. It only disposes the engine and stops the tunnel.
- `runner.py` is not part of this model: it dispatches by configuration through dynamic imports.
- Reconciler: only one kind of exception is followed inside the loop, the first error. What an exception prints is left out.
- TestRailManager.FinishPostsBatch: states only the verb of the run-creation request. Its body and endpoint are those `CreateRunPostsPayload` states, and that lemma needs the found project's id to be an integer.
- Mailers.Mailer.AttachFiles: a path that is not a string (such as None in the list) is skipped without an open. Python would raise inside the `try` and print.
