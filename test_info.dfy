/** `_extract_test_info` of the TestRail integration: every pytest record is
    decomposed into a section name, a test name, a TestRail status and a
    failure text. The decomposition is total. */
module TestInfoExtraction {
  import opened Common
  import opened Strings
  import opened Reports
  import opened TestRailGateway

  /** What the reconciler needs to know about one test. */
  datatype TestInfo = TestInfo(
    sectionName: string,
    testName: string,
    status: int,
    failureReason: Option<string>,
    nodeid: string)

  const NODE_SEPARATOR: string := "::"

  /** The segments of a nodeid, `nodeid.split("::")`. */
  function Segments(nodeid: string): (parts: seq<string>)
    ensures |parts| >= 1 && Join(parts, NODE_SEPARATOR) == nodeid
  {
    JoinSplit(nodeid, NODE_SEPARATOR);
    Split(nodeid, NODE_SEPARATOR)
  }

  /** The section: the second segment, "General" for a nodeid with one segment. */
  function SectionName(nodeid: string): string {
    var parts := Segments(nodeid);
    if |parts| > 1 then parts[1] else "General"
  }

  /** The last segment without its parameter suffix: the text before its first `[`. */
  function TestName(nodeid: string): string {
    var parts := Segments(nodeid);
    Split(parts[|parts| - 1], "[")[0]
  }

  /** The TestRail status of a pytest outcome. */
  function StatusOf(outcome: string): (status: int)
    ensures status == STATUS_PASSED <==> outcome == "passed"
    ensures status == STATUS_FAILED <==> outcome == "failed"
    ensures status == STATUS_BLOCKED <==> outcome == "skipped"
    ensures status == STATUS_UNTESTED <==> outcome !in {"passed", "failed", "skipped"}
  {
    if outcome == "passed" then STATUS_PASSED
    else if outcome == "failed" then STATUS_FAILED
    else if outcome == "skipped" then STATUS_BLOCKED
    else STATUS_UNTESTED
  }

  /** `_extract_test_info`. */
  function ExtractTestInfo(t: TestRecord): (info: TestInfo)
    ensures info.nodeid == NodeId(t)
    ensures info.status == StatusOf(Outcome(t))
    ensures info.status == STATUS_UNTESTED <==> Outcome(t) !in {"passed", "failed", "skipped"}
    ensures info.failureReason.None? <==> Outcome(t) != "failed"
    ensures info.failureReason == FailureReason(t)
  {
    var nodeid := NodeId(t);
    TestInfo(SectionName(nodeid), TestName(nodeid), StatusOf(Outcome(t)), FailureReason(t), nodeid)
  }

  /** A record without an outcome counts as untested. */
  lemma MissingOutcomeIsUntested(t: TestRecord)
    requires t.outcome.None?
    ensures ExtractTestInfo(t).status == STATUS_UNTESTED && ExtractTestInfo(t).failureReason.None?
  {
  }

  /** For a nodeid assembled from two or more segments without colons, the
      section is the second segment and the test name comes from the last. */
  lemma {:induction false} SectionOfJoinedNodeId(parts: seq<string>)
    requires |parts| >= 2
    requires forall k :: 0 <= k < |parts| ==> Free(parts[k], ':')
    ensures SectionName(Join(parts, NODE_SEPARATOR)) == parts[1]
    ensures TestName(Join(parts, NODE_SEPARATOR)) == Split(parts[|parts| - 1], "[")[0]
  {
    SplitJoin(parts, NODE_SEPARATOR);
  }

  /** A nodeid without `::` lies in section "General", and its test name is
      still cut at the first `[`. */
  lemma NoSeparatorGivesGeneral(nodeid: string)
    requires !Contains(nodeid, NODE_SEPARATOR)
    ensures SectionName(nodeid) == "General"
    ensures TestName(nodeid) == Split(nodeid, "[")[0]
  {
    assert Segments(nodeid) == [nodeid];
  }

  /** The test name is the longest `[`-free prefix of the last segment. */
  lemma TestNameShape(nodeid: string)
    ensures var parts := Segments(nodeid);
      var last, name := parts[|parts| - 1], TestName(nodeid);
      name <= last && Free(name, '[') && (name == last || last[|name|] == '[')
  {
    var parts := Segments(nodeid);
    SplitHead(parts[|parts| - 1], '[');
  }
}
