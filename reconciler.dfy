/** The get-or-create pass of a TestRail run: the maps from the names of
    the listed sections and the titles of the listed cases to their ids,
    and the walk over the tests that creates whatever is missing, in the
    order of the tests, stopping at the first failure. */
module Reconciler {
  import opened Common
  import opened Json
  import opened Http
  import opened Assoc
  import opened TestRailGateway
  import opened TestInfoExtraction

  // ---------------------------------------------------------------------------
  // Name maps (`{s["name"]: s["id"] for s in existing_sections}`)

  /** One listed item as a map entry. Both `s[field]` and `s["id"]` are read
      for every item; an item that is not a dict raises a TypeError, a missing
      key a KeyError, and a list or dict under `field` cannot be hashed. A key
      that is not a string can never equal a section or test name, so such
      an entry is left out. */
  function Entry(s: Json, field: string): (r: Result<Option<(string, Id)>>)
    ensures !s.JObj? ==> r == Err(TypeError)
    ensures s.JObj? && field !in s.fields ==> r == Err(KeyError(field))
    ensures s.JObj? && field in s.fields && "id" !in s.fields ==> r == Err(KeyError("id"))
    ensures r.Ok? ==> s.JObj? && field in s.fields && "id" in s.fields
    ensures r.Ok? && r.value.Some? <==> s.JObj? && field in s.fields && s.fields[field].JStr?
                                         && "id" in s.fields && IdOf(s.fields["id"]).Ok?
    ensures r.Ok? && r.value.Some? ==> r.value.value == (s.fields[field].s, IdOf(s.fields["id"]).value)
  {
    if !s.JObj? then Err(TypeError)
    else if field !in s.fields then Err(KeyError(field))
    else if "id" !in s.fields then Err(KeyError("id"))
    else match s.fields[field]
      case JStr(name) =>
        (match IdOf(s.fields["id"])
         case Err(e) => Err(e)
         case Ok(id) => Ok(Some((name, id))))
      case JArr(_) => Err(TypeError)
      case JObj(_) => Err(TypeError)
      case _ => Ok(None)
  }

  /** The dict comprehension over a list of items: left to right, a later
      item overriding an earlier one with the same name; the first item that
      fails raises. */
  function NameMapOf(items: seq<Json>, field: string): (r: Result<map<string, Id>>)
    ensures r.Ok? <==> forall i :: 0 <= i < |items| ==> Entry(items[i], field).Ok?
    ensures r.Err? ==> exists i :: 0 <= i < |items| && Entry(items[i], field) == Err(r.error)
                                 && forall j :: 0 <= j < i ==> Entry(items[j], field).Ok?
  {
    if items == [] then Ok(map[])
    else
      var n := |items| - 1;
      var front := items[..n];
      assert forall i :: 0 <= i < n ==> items[i] == front[i];
      match NameMapOf(front, field)
      case Err(e) => Err(e)
      case Ok(m) =>
        match Entry(items[n], field)
        case Err(e) => Err(e)
        case Ok(None) => Ok(m)
        case Ok(Some(entry)) => Ok(m[entry.0 := entry.1])
  }

  /** The names in the map are exactly the names of the listed items. */
  lemma {:induction false} NameMapKeys(items: seq<Json>, field: string)
    requires NameMapOf(items, field).Ok?
    ensures forall k :: k in NameMapOf(items, field).value <==> exists i :: 0 <= i < |items| && Named(items[i], field, k)
  {
    if items != [] {
      var n := |items| - 1;
      NameMapSnoc(items, field);
      NameMapKeys(items[..n], field);
      assert forall i :: 0 <= i < n ==> items[..n][i] == items[i];
    }
  }

  /** The map of a non-empty list is the map of all items but the last,
      updated with the last item's entry. */
  lemma NameMapSnoc(items: seq<Json>, field: string)
    requires |items| > 0 && NameMapOf(items, field).Ok?
    ensures var n := |items| - 1;
      var r, e := NameMapOf(items[..n], field), Entry(items[n], field);
      && r.Ok? && e.Ok?
      && NameMapOf(items, field).value == if e.value.Some? then r.value[e.value.value.0 := e.value.value.1] else r.value
  {
    var n := |items| - 1;
    assert forall j :: 0 <= j < n ==> items[j] == items[..n][j];
  }

  /** Each name maps to the id of the last item listing it. */
  lemma {:induction false} NameMapLastWins(items: seq<Json>, field: string, i: nat, k: string)
    requires NameMapOf(items, field).Ok?
    requires i < |items| && Named(items[i], field, k)
    requires forall j :: i < j < |items| ==> !Named(items[j], field, k)
    ensures k in NameMapOf(items, field).value
    ensures NameMapOf(items, field).value[k] == IdOf(items[i].fields["id"]).value
  {
    var n := |items| - 1;
    var front := items[..n];
    NameMapSnoc(items, field);
    var e := Entry(items[n], field);
    if i < n {
      NameMapLastWins(front, field, i, k);
      assert e.value.Some? ==> e.value.value.0 != k;
    }
  }

  /** Iterating what a listing call returned: the items of a list; an empty
      string or dict yields nothing; a non-empty string or dict yields
      strings, which cannot be subscripted by a key; anything else cannot
      be iterated. */
  function NameMap(listing: Json, field: string): (r: Result<map<string, Id>>)
    ensures listing.JArr? ==> r == NameMapOf(listing.items, field)
    ensures (listing.JStr? || listing.JObj?) && !Truthy(listing) ==> r == Ok(map[])
    ensures !listing.JArr? && Truthy(listing) ==> r == Err(TypeError)
    ensures (listing.JNull? || listing.JBool? || listing.JInt?) ==> r == Err(TypeError)
  {
    match listing
    case JArr(items) => NameMapOf(items, field)
    case JStr(s) => if s == "" then Ok(map[]) else Err(TypeError)
    case JObj(m) => if m == map[] then Ok(map[]) else Err(TypeError)
    case _ => Err(TypeError)
  }

  // ---------------------------------------------------------------------------
  // The walk over the tests

  /** What the walk needs of its surroundings: the client's credentials, the
      project and the suite. */
  datatype Target = Target(creds: Credentials, projectId: Id, suiteId: Option<int>)

  /** A creation request the walk issued; `at` is the index of the test that
      caused a case to be created. */
  datatype Creation =
    | SectionCreated(name: string)
    | CaseCreated(title: string, section: string, sectionId: Id, at: nat)

  /** The walk's state: the two maps, the case ids and the case-to-test dict
      built so far, the creations issued, the conversation, and the error
      that stopped the walk. */
  datatype Progress = Progress(
    sections: map<string, Id>,
    cases: map<string, Id>,
    caseIds: seq<Id>,
    latest: seq<(Id, TestInfo)>,
    issued: seq<Creation>,
    wire: Wire,
    error: Option<Error>)

  /** The request `add_section` sends for a missing section. */
  function SectionRequest(t: Target, name: string): Request {
    Request(POST, t.creds.baseUrl + SectionEndpoint(t.projectId), (t.creds.username, t.creds.apiKey),
            Some(JObj(SectionPayload(name, t.suiteId, None))))
  }

  /** The request `add_case` sends for a missing case. */
  function CaseRequest(t: Target, sectionId: Id, title: string): Request {
    Request(POST, t.creds.baseUrl + CaseEndpoint(sectionId), (t.creds.username, t.creds.apiKey),
            Some(JObj(map["title" := JStr(title)])))
  }

  function CreationRequest(t: Target, c: Creation): Request {
    match c
    case SectionCreated(name) => SectionRequest(t, name)
    case CaseCreated(title, _, sid, _) => CaseRequest(t, sid, title)
  }

  function CreationRequests(t: Target, cs: seq<Creation>): (rs: seq<Request>)
    ensures |rs| == |cs|
  {
    if cs == [] then [] else CreationRequests(t, cs[..|cs| - 1]) + [CreationRequest(t, cs[|cs| - 1])]
  }

  /** The names of the sections created, in order. */
  function SectionsOf(cs: seq<Creation>): (names: seq<string>)
    ensures forall k :: k in names <==> SectionCreated(k) in cs
  {
    if cs == [] then []
    else
      var front := cs[..|cs| - 1];
      assert cs == front + [cs[|cs| - 1]];
      var names := SectionsOf(front);
      if cs[|cs| - 1].SectionCreated? then names + [cs[|cs| - 1].name] else names
  }

  /** The titles of the cases created, in order. */
  function TitlesOf(cs: seq<Creation>): (titles: seq<string>)
    ensures forall k :: k in titles <==> exists c :: c in cs && c.CaseCreated? && c.title == k
  {
    if cs == [] then []
    else
      var front := cs[..|cs| - 1];
      assert cs == front + [cs[|cs| - 1]];
      var titles := TitlesOf(front);
      if cs[|cs| - 1].CaseCreated? then titles + [cs[|cs| - 1].title] else titles
  }

  /** Every creation is of a section or of a case. */
  lemma {:induction false} CreationsSplit(cs: seq<Creation>)
    ensures |cs| == |SectionsOf(cs)| + |TitlesOf(cs)|
  {
    if cs != [] {
      CreationsSplit(cs[..|cs| - 1]);
    }
  }

  /** `section["id"]` of the answer to a creation, as an id. */
  function CreatedId(r: Result<Option<Json>>): (id: Result<Id>)
    ensures r.Err? ==> id == Err(r.error)
    ensures id.Ok? <==> r.Ok? && r.value.Some? && r.value.value.JObj? && "id" in r.value.value.fields
                        && IdOf(r.value.value.fields["id"]).Ok?
  {
    match r
    case Err(e) => Err(e)
    case Ok(x) =>
      match Subscript(x, "id")
      case Err(e) => Err(e)
      case Ok(j) => IdOf(j)
  }

  /** Get or create the section of a test. */
  function EnsureSection(t: Target, p: Progress, name: string): (q: Progress)
    requires p.error.None?
    ensures name in p.sections ==> q == p
    ensures name !in p.sections ==>
      && q.issued == p.issued + [SectionCreated(name)]
      && q.wire.log == p.wire.log + [SectionRequest(t, name)]
    ensures q.error.None? ==> name in q.sections && q.sections - {name} == p.sections - {name}
    ensures q.error.Some? ==> q.sections == p.sections
    ensures q.error.None? && name in p.sections ==> q.sections[name] == p.sections[name]
    ensures q.cases == p.cases && q.caseIds == p.caseIds && q.latest == p.latest
  {
    if name in p.sections then p
    else
      var (r, w) := AddSectionCall(t.creds, t.projectId, name, t.suiteId, None, p.wire);
      var issued := p.issued + [SectionCreated(name)];
      match CreatedId(r)
      case Err(e) => p.(wire := w, issued := issued, error := Some(e))
      case Ok(id) => p.(sections := p.sections[name := id], wire := w, issued := issued)
  }

  /** Get or create the case of a test, in the test's section. */
  function EnsureCase(t: Target, p: Progress, info: TestInfo, at: nat): (q: Progress)
    requires p.error.None? && info.sectionName in p.sections
    ensures info.testName in p.cases ==> q == p
    ensures info.testName !in p.cases ==>
      var sid := p.sections[info.sectionName];
      && q.issued == p.issued + [CaseCreated(info.testName, info.sectionName, sid, at)]
      && q.wire.log == p.wire.log + [CaseRequest(t, sid, info.testName)]
    ensures q.error.None? ==> info.testName in q.cases && q.cases - {info.testName} == p.cases - {info.testName}
    ensures q.error.Some? ==> q.cases == p.cases
    ensures q.error.None? && info.testName in p.cases ==> q.cases[info.testName] == p.cases[info.testName]
    ensures q.sections == p.sections && q.caseIds == p.caseIds && q.latest == p.latest
  {
    var title := info.testName;
    if title in p.cases then p
    else
      var sid := p.sections[info.sectionName];
      assert CasePayload(title, map[]).value == map["title" := JStr(title)];
      var (r, w) := AddCaseCall(t.creds, sid, title, map[], p.wire);
      var issued := p.issued + [CaseCreated(title, info.sectionName, sid, at)];
      match CreatedId(r)
      case Err(e) => p.(wire := w, issued := issued, error := Some(e))
      case Ok(id) => p.(cases := p.cases[title := id], wire := w, issued := issued)
  }

  /** One iteration of the loop: section, case, then the case id is
      appended and the test recorded under it. A stopped walk stays stopped. */
  function Step(t: Target, p: Progress, info: TestInfo, at: nat): (q: Progress)
    ensures p.error.Some? ==> q == p
    ensures q.error.None? ==> && |q.caseIds| == |p.caseIds| + 1
                              && info.testName in q.cases && q.caseIds[|p.caseIds|] == q.cases[info.testName]
                              && info.sectionName in q.sections
  {
    if p.error.Some? then p else Advance(t, p, info, at)
  }

  /** `Step` on a walk that has not failed. */
  function Advance(t: Target, p: Progress, info: TestInfo, at: nat): (q: Progress)
    requires p.error.None?
  {
    var p1 := EnsureSection(t, p, info.sectionName);
    if p1.error.Some? then p1
    else
      var p2 := EnsureCase(t, p1, info, at);
      if p2.error.Some? then p2
      else
        var cid := p2.cases[info.testName];
        p2.(caseIds := p2.caseIds + [cid], latest := Put(p2.latest, cid, info))
  }

  /** The loop over all the tests, from a starting state. */
  function Fold(t: Target, p0: Progress, infos: seq<TestInfo>): Progress {
    if infos == [] then p0
    else
      var n := |infos| - 1;
      Step(t, Fold(t, p0, infos[..n]), infos[n], n)
  }

  /** The state in which the loop starts: the listed maps, nothing built yet. */
  function Start(sections: map<string, Id>, cases: map<string, Id>, w: Wire): Progress {
    Progress(sections, cases, [], [], [], w, None)
  }

  /** One more test is one more step. */
  lemma FoldSnoc(t: Target, p0: Progress, infos: seq<TestInfo>, i: nat)
    requires i < |infos|
    ensures Fold(t, p0, infos[..i + 1]) == Step(t, Fold(t, p0, infos[..i]), infos[i], i)
  {
    assert infos[..i + 1][..i] == infos[..i];
  }

  /** Once the walk has failed, the remaining tests change nothing. */
  lemma FoldStopped(t: Target, p0: Progress, infos: seq<TestInfo>, j: nat)
    requires j <= |infos| && Fold(t, p0, infos[..j]).error.Some?
    ensures Fold(t, p0, infos) == Fold(t, p0, infos[..j])
  {
    var m := j;
    while m < |infos|
      invariant j <= m <= |infos|
      invariant Fold(t, p0, infos[..m]) == Fold(t, p0, infos[..j])
    {
      FoldSnoc(t, p0, infos, m);
      m := m + 1;
    }
    assert infos[..m] == infos;
  }

  // ---------------------------------------------------------------------------
  // What the walk keeps true

  function SectionNames(infos: seq<TestInfo>): set<string> {
    set i | 0 <= i < |infos| :: infos[i].sectionName
  }

  function TestNames(infos: seq<TestInfo>): set<string> {
    set i | 0 <= i < |infos| :: infos[i].testName
  }

  /** Nothing the starting maps held is lost or changed. */
  predicate Grown(p0: Progress, p: Progress) {
    && (forall k :: k in p0.sections ==> k in p.sections && p.sections[k] == p0.sections[k])
    && (forall k :: k in p0.cases ==> k in p.cases && p.cases[k] == p0.cases[k])
  }

  /** Everything sent is a creation request, in the order issued. */
  predicate Logged(t: Target, p0: Progress, p: Progress) {
    p.wire.log == p0.wire.log + CreationRequests(t, p.issued)
  }

  /** Each creation that succeeded is in the maps, and the walk only fails
      on a creation. */
  predicate Known(p: Progress) {
    && (p.error.Some? ==> p.issued != [])
    && (p.error.None? ==>
         && (forall k :: k in SectionsOf(p.issued) ==> k in p.sections)
         && (forall k :: k in TitlesOf(p.issued) ==> k in p.cases))
  }

  /** Creations are of names of the tests that were not listed, each at most once. */
  predicate Fresh(p0: Progress, infos: seq<TestInfo>, p: Progress) {
    && NoDuplicates(SectionsOf(p.issued))
    && NoDuplicates(TitlesOf(p.issued))
    && (forall k :: k in SectionsOf(p.issued) ==> k !in p0.sections && k in SectionNames(infos))
    && (forall k :: k in TitlesOf(p.issued) ==> k !in p0.cases && k in TestNames(infos))
  }

  /** A case is created for the first test with its title, in that test's
      section, whose id the section map keeps. */
  predicate Placed(p0: Progress, infos: seq<TestInfo>, p: Progress) {
    forall c :: c in p.issued && c.CaseCreated? ==>
      && c.at < |infos| && infos[c.at].testName == c.title && infos[c.at].sectionName == c.section
      && (forall j :: 0 <= j < c.at ==> infos[j].testName != c.title)
      && c.title !in p0.cases
      && c.section in p.sections && p.sections[c.section] == c.sectionId
  }

  /** After a walk without failure every test has its case id, section and
      record, and the case-to-test dict is the one the loop builds. */
  predicate Recorded(infos: seq<TestInfo>, p: Progress) {
    p.error.None? ==>
      && |p.caseIds| == |infos|
      && (forall i :: 0 <= i < |infos| ==>
            && infos[i].testName in p.cases && p.caseIds[i] == p.cases[infos[i].testName]
            && infos[i].sectionName in p.sections)
      && p.latest == FromPairs(p.caseIds, infos)
  }

  predicate Inv(t: Target, p0: Progress, infos: seq<TestInfo>, p: Progress) {
    Grown(p0, p) && Logged(t, p0, p) && Known(p) && Fresh(p0, infos, p) && Placed(p0, infos, p) && Recorded(infos, p)
  }

  lemma SingleCreation(t: Target, cs: seq<Creation>, c: Creation)
    ensures CreationRequests(t, cs + [c]) == CreationRequests(t, cs) + [CreationRequest(t, c)]
    ensures SectionsOf(cs + [c]) == SectionsOf(cs) + (if c.SectionCreated? then [c.name] else [])
    ensures TitlesOf(cs + [c]) == TitlesOf(cs) + (if c.CaseCreated? then [c.title] else [])
  {
    assert (cs + [c])[..|cs|] == cs;
  }

  lemma {:induction false} NamesGrow(infos: seq<TestInfo>, info: TestInfo)
    ensures SectionNames(infos + [info]) == SectionNames(infos) + {info.sectionName}
    ensures TestNames(infos + [info]) == TestNames(infos) + {info.testName}
  {
    var all := infos + [info];
    assert all[|infos|] == info;
    forall k | k in SectionNames(infos) ensures k in SectionNames(all) {
      var i :| 0 <= i < |infos| && infos[i].sectionName == k;
      assert all[i] == infos[i];
    }
    forall k | k in TestNames(infos) ensures k in TestNames(all) {
      var i :| 0 <= i < |infos| && infos[i].testName == k;
      assert all[i] == infos[i];
    }
    forall k | k in SectionNames(all) ensures k in SectionNames(infos) + {info.sectionName} {
      var i :| 0 <= i < |all| && all[i].sectionName == k;
      if i < |infos| { assert all[i] == infos[i]; }
    }
    forall k | k in TestNames(all) ensures k in TestNames(infos) + {info.testName} {
      var i :| 0 <= i < |all| && all[i].testName == k;
      if i < |infos| { assert all[i] == infos[i]; }
    }
  }

  /** Getting a section keeps the invariant's clauses that do not speak of
      the current test. */
  lemma EnsureSectionInv(t: Target, p0: Progress, infos: seq<TestInfo>, p: Progress, info: TestInfo)
    requires p.error.None? && Inv(t, p0, infos, p)
    ensures var q := EnsureSection(t, p, info.sectionName);
      && Grown(p0, q) && Logged(t, p0, q) && Known(q) && Fresh(p0, infos + [info], q) && Placed(p0, infos, q)
      && Recorded(infos, q)
  {
    NamesGrow(infos, info);
    if info.sectionName !in p.sections {
      SectionCreatedInv(t, p0, infos, p, info);
    }
  }

  lemma SectionCreatedInv(t: Target, p0: Progress, infos: seq<TestInfo>, p: Progress, info: TestInfo)
    requires p.error.None? && info.sectionName !in p.sections
    requires Grown(p0, p) && Logged(t, p0, p) && Known(p) && Fresh(p0, infos, p) && Placed(p0, infos, p)
    requires SectionNames(infos + [info]) == SectionNames(infos) + {info.sectionName}
    requires TestNames(infos + [info]) == TestNames(infos) + {info.testName}
    ensures var q := EnsureSection(t, p, info.sectionName);
      && Grown(p0, q) && Logged(t, p0, q) && Known(q) && Fresh(p0, infos + [info], q) && Placed(p0, infos, q)
  {
    var name := info.sectionName;
    var q := EnsureSection(t, p, name);
    SingleCreation(t, p.issued, SectionCreated(name));
    SectionCreatedGrown(t, p0, p, q, name);
    SectionCreatedLogged(t, p0, p, q, name);
    SectionCreatedKnown(p, q, name);
    SectionCreatedFresh(p0, infos, info, p, q);
    SectionCreatedPlaced(p0, infos, p, q, name);
  }

  lemma SectionCreatedGrown(t: Target, p0: Progress, p: Progress, q: Progress, name: string)
    requires p.error.None? && name !in p.sections && q == EnsureSection(t, p, name)
    requires Grown(p0, p)
    ensures Grown(p0, q)
  {
  }

  lemma SectionCreatedLogged(t: Target, p0: Progress, p: Progress, q: Progress, name: string)
    requires p.error.None? && name !in p.sections && q == EnsureSection(t, p, name)
    requires Logged(t, p0, p)
    requires CreationRequests(t, q.issued) == CreationRequests(t, p.issued) + [SectionRequest(t, name)]
    ensures Logged(t, p0, q)
  {
  }

  lemma SectionCreatedKnown(p: Progress, q: Progress, name: string)
    requires q.issued == p.issued + [SectionCreated(name)] && q.cases == p.cases
    requires SectionsOf(q.issued) == SectionsOf(p.issued) + [name] && TitlesOf(q.issued) == TitlesOf(p.issued)
    requires q.error.None? ==> p.error.None? && name in q.sections && p.sections.Keys <= q.sections.Keys
    requires Known(p)
    ensures Known(q)
  {
  }

  lemma SectionCreatedFresh(p0: Progress, infos: seq<TestInfo>, info: TestInfo, p: Progress, q: Progress)
    requires p.error.None? && info.sectionName !in p.sections && Known(p) && Grown(p0, p)
    requires SectionsOf(q.issued) == SectionsOf(p.issued) + [info.sectionName] && TitlesOf(q.issued) == TitlesOf(p.issued)
    requires SectionNames(infos + [info]) == SectionNames(infos) + {info.sectionName}
    requires TestNames(infos + [info]) == TestNames(infos) + {info.testName}
    requires Fresh(p0, infos, p)
    ensures Fresh(p0, infos + [info], q)
  {
    var olds := SectionsOf(p.issued);
    assert info.sectionName !in olds;
    assert NoDuplicates(olds + [info.sectionName]);
  }

  lemma SectionCreatedPlaced(p0: Progress, infos: seq<TestInfo>, p: Progress, q: Progress, name: string)
    requires q.issued == p.issued + [SectionCreated(name)] && name !in p.sections
    requires forall k :: k in p.sections ==> k in q.sections && q.sections[k] == p.sections[k]
    requires Placed(p0, infos, p)
    ensures Placed(p0, infos, q)
  {
    forall c | c in q.issued && c.CaseCreated?
      ensures c in p.issued
    {
    }
  }

  /** Getting a case keeps the invariant, now including the current test
      among those a case may have been created for. */
  lemma EnsureCaseInv(t: Target, p0: Progress, infos: seq<TestInfo>, p: Progress, info: TestInfo)
    requires p.error.None? && info.sectionName in p.sections
    requires Grown(p0, p) && Logged(t, p0, p) && Known(p) && Fresh(p0, infos + [info], p) && Placed(p0, infos, p)
    requires Recorded(infos, p)
    ensures var q := EnsureCase(t, p, info, |infos|);
      && Grown(p0, q) && Logged(t, p0, q) && Known(q) && Fresh(p0, infos + [info], q)
      && Placed(p0, infos + [info], q) && Recorded(infos, q)
  {
    var q := EnsureCase(t, p, info, |infos|);
    PlacedExtends(p0, infos, info, p);
    NamesGrow(infos, info);
    if info.testName !in p.cases {
      var c := CaseCreated(info.testName, info.sectionName, p.sections[info.sectionName], |infos|);
      SingleCreation(t, p.issued, c);
      CaseCreatedGrown(t, p0, p, q, info, |infos|);
      CaseCreatedLogged(t, p0, infos, p, q, info);
      CaseCreatedKnown(p, q, info, c);
      CaseCreatedFresh(p0, infos, info, p, q);
      CaseCreatedPlaced(p0, infos, info, p, q);
      CaseCreatedRecorded(t, infos, info, p, q);
    }
  }

  /** Creations placed among the first tests stay placed when a test is added. */
  lemma PlacedExtends(p0: Progress, infos: seq<TestInfo>, info: TestInfo, p: Progress)
    requires Placed(p0, infos, p)
    ensures Placed(p0, infos + [info], p)
  {
    var all := infos + [info];
    forall c | c in p.issued && c.CaseCreated?
      ensures c.at < |all| && all[c.at] == infos[c.at]
      ensures forall j :: 0 <= j < c.at ==> all[j].testName != c.title
    {
      assert forall j :: 0 <= j < c.at ==> all[j] == infos[j];
    }
  }

  lemma CaseCreatedGrown(t: Target, p0: Progress, p: Progress, q: Progress, info: TestInfo, at: nat)
    requires p.error.None? && info.sectionName in p.sections && info.testName !in p.cases
    requires q == EnsureCase(t, p, info, at)
    requires Grown(p0, p)
    ensures Grown(p0, q)
  {
  }

  lemma CaseCreatedLogged(t: Target, p0: Progress, infos: seq<TestInfo>, p: Progress, q: Progress, info: TestInfo)
    requires p.error.None? && info.sectionName in p.sections && info.testName !in p.cases
    requires q == EnsureCase(t, p, info, |infos|)
    requires Logged(t, p0, p)
    requires CreationRequests(t, q.issued) ==
      CreationRequests(t, p.issued) + [CaseRequest(t, p.sections[info.sectionName], info.testName)]
    ensures Logged(t, p0, q)
  {
  }

  lemma CaseCreatedKnown(p: Progress, q: Progress, info: TestInfo, c: Creation)
    requires c.CaseCreated? && c.title == info.testName
    requires q.issued == p.issued + [c] && q.sections == p.sections
    requires SectionsOf(q.issued) == SectionsOf(p.issued) && TitlesOf(q.issued) == TitlesOf(p.issued) + [c.title]
    requires q.error.None? ==> p.error.None? && info.testName in q.cases && p.cases.Keys <= q.cases.Keys
    requires Known(p)
    ensures Known(q)
  {
  }

  lemma CaseCreatedFresh(p0: Progress, infos: seq<TestInfo>, info: TestInfo, p: Progress, q: Progress)
    requires p.error.None? && info.testName !in p.cases && Known(p) && Grown(p0, p)
    requires SectionsOf(q.issued) == SectionsOf(p.issued) && TitlesOf(q.issued) == TitlesOf(p.issued) + [info.testName]
    requires info.testName in TestNames(infos + [info])
    requires Fresh(p0, infos + [info], p)
    ensures Fresh(p0, infos + [info], q)
  {
    var olds := TitlesOf(p.issued);
    assert info.testName !in olds;
    assert NoDuplicates(olds + [info.testName]);
  }

  lemma CaseCreatedPlaced(p0: Progress, infos: seq<TestInfo>, info: TestInfo, p: Progress, q: Progress)
    requires p.error.None? && info.sectionName in p.sections && info.testName !in p.cases
    requires q.issued == p.issued + [CaseCreated(info.testName, info.sectionName, p.sections[info.sectionName], |infos|)]
    requires q.sections == p.sections
    requires Grown(p0, p) && Recorded(infos, p)
    requires Placed(p0, infos + [info], p)
    ensures Placed(p0, infos + [info], q)
  {
    var all := infos + [info];
    assert all[|infos|] == info;
    forall j | 0 <= j < |infos|
      ensures all[j].testName != info.testName
    {
      assert all[j] == infos[j];
    }
  }

  lemma CaseCreatedRecorded(t: Target, infos: seq<TestInfo>, info: TestInfo, p: Progress, q: Progress)
    requires p.error.None? && info.sectionName in p.sections && info.testName !in p.cases
    requires q == EnsureCase(t, p, info, |infos|)
    requires Recorded(infos, p)
    ensures Recorded(infos, q)
  {
    if q.error.None? {
      forall i | 0 <= i < |infos|
        ensures infos[i].testName in q.cases && q.caseIds[i] == q.cases[infos[i].testName]
      {
        assert infos[i].testName != info.testName;
      }
    }
  }

  /** One iteration keeps the invariant. */
  lemma StepInv(t: Target, p0: Progress, infos: seq<TestInfo>, p: Progress, info: TestInfo)
    requires Inv(t, p0, infos, p)
    ensures Inv(t, p0, infos + [info], Step(t, p, info, |infos|))
  {
    NamesGrow(infos, info);
    PlacedExtends(p0, infos, info, p);
    if p.error.None? {
      EnsureSectionInv(t, p0, infos, p, info);
      var p1 := EnsureSection(t, p, info.sectionName);
      if p1.error.Some? {
        PlacedExtends(p0, infos, info, p1);
      } else {
        StepCaseInv(t, p0, infos, p, p1, info);
      }
    }
  }

  lemma StepCaseInv(t: Target, p0: Progress, infos: seq<TestInfo>, p: Progress, p1: Progress, info: TestInfo)
    requires p.error.None? && p1.error.None? && p1 == EnsureSection(t, p, info.sectionName)
    requires Grown(p0, p1) && Logged(t, p0, p1) && Known(p1) && Fresh(p0, infos + [info], p1) && Placed(p0, infos, p1)
    requires Recorded(infos, p1)
    ensures Inv(t, p0, infos + [info], Step(t, p, info, |infos|))
  {
    EnsureCaseInv(t, p0, infos, p1, info);
    var p2 := EnsureCase(t, p1, info, |infos|);
    if p2.error.None? {
      var cid := p2.cases[info.testName];
      FromPairsSnoc(p2.caseIds, infos, cid, info);
      AppendRecorded(infos, info, p2, Step(t, p, info, |infos|));
    }
  }

  /** Appending the case id of the current test and recording the test under it. */
  lemma AppendRecorded(infos: seq<TestInfo>, info: TestInfo, p: Progress, q: Progress)
    requires p.error.None? && Recorded(infos, p) && info.testName in p.cases && info.sectionName in p.sections
    requires q.error.None? && q.cases == p.cases && q.sections == p.sections
    requires q.caseIds == p.caseIds + [p.cases[info.testName]]
    requires q.latest == FromPairs(q.caseIds, infos + [info])
    ensures Recorded(infos + [info], q)
  {
    var vs := infos + [info];
    forall i | 0 <= i < |vs|
      ensures vs[i].testName in q.cases && q.caseIds[i] == q.cases[vs[i].testName] && vs[i].sectionName in q.sections
    {
      if i < |infos| {
        assert vs[i] == infos[i] && q.caseIds[i] == p.caseIds[i];
      }
    }
  }

  lemma InvStart(t: Target, p0: Progress)
    requires p0.error.None? && p0.issued == [] && p0.caseIds == [] && p0.latest == []
    ensures Inv(t, p0, [], p0)
  {
    assert p0.wire.log + CreationRequests(t, []) == p0.wire.log;
  }

  /** The invariant holds after the whole loop. */
  lemma {:induction false} FoldInv(t: Target, p0: Progress, infos: seq<TestInfo>)
    requires p0.error.None? && p0.issued == [] && p0.caseIds == [] && p0.latest == []
    ensures Inv(t, p0, infos, Fold(t, p0, infos))
  {
    if infos == [] {
      InvStart(t, p0);
    } else {
      var n := |infos| - 1;
      FoldInv(t, p0, infos[..n]);
      StepInv(t, p0, infos[..n], Fold(t, p0, infos[..n]), infos[n]);
      assert infos[..n] + [infos[n]] == infos;
    }
  }

  // ---------------------------------------------------------------------------
  // What the walk does, starting from the listed maps

  /** The walk sends nothing but its creation requests, in the order they
      were issued, and fails only on a creation. */
  lemma WalkSendsOnlyCreations(t: Target, sections: map<string, Id>, cases: map<string, Id>, w: Wire,
                               infos: seq<TestInfo>)
    ensures var p := Fold(t, Start(sections, cases, w), infos);
      && p.wire.log == w.log + CreationRequests(t, p.issued)
      && (p.error.Some? ==> p.issued != [])
  {
    FoldInv(t, Start(sections, cases, w), infos);
  }

  /** Only sections and cases missing from the listings are created, each
      name at most once, and only names the tests use. */
  lemma WalkCreatesOnlyMissing(t: Target, sections: map<string, Id>, cases: map<string, Id>, w: Wire,
                               infos: seq<TestInfo>)
    ensures var p := Fold(t, Start(sections, cases, w), infos);
      && NoDuplicates(SectionsOf(p.issued)) && NoDuplicates(TitlesOf(p.issued))
      && (forall k :: k in SectionsOf(p.issued) ==> k !in sections && k in SectionNames(infos))
      && (forall k :: k in TitlesOf(p.issued) ==> k !in cases && k in TestNames(infos))
  {
    FoldInv(t, Start(sections, cases, w), infos);
  }

  /** The walk sends at most one request per missing section name and one
      per missing test name, however many tests share them. */
  lemma WalkRequestBound(t: Target, sections: map<string, Id>, cases: map<string, Id>, w: Wire,
                         infos: seq<TestInfo>)
    ensures var p := Fold(t, Start(sections, cases, w), infos);
      |p.wire.log| <= |w.log| + |SectionNames(infos) - sections.Keys| + |TestNames(infos) - cases.Keys|
  {
    FoldInv(t, Start(sections, cases, w), infos);
    var p := Fold(t, Start(sections, cases, w), infos);
    IssuedBound(p.issued, SectionNames(infos) - sections.Keys, TestNames(infos) - cases.Keys);
  }

  /** Creations of distinct names drawn from two pools are at most as many as
      the pools hold. */
  lemma IssuedBound(cs: seq<Creation>, sectionPool: set<string>, titlePool: set<string>)
    requires NoDuplicates(SectionsOf(cs)) && NoDuplicates(TitlesOf(cs))
    requires forall k :: k in SectionsOf(cs) ==> k in sectionPool
    requires forall k :: k in TitlesOf(cs) ==> k in titlePool
    ensures |cs| <= |sectionPool| + |titlePool|
  {
    CreationsSplit(cs);
    DistinctNamesBound(SectionsOf(cs), sectionPool);
    DistinctNamesBound(TitlesOf(cs), titlePool);
  }

  /** `DistinctBound` for a sequence whose elements all lie in the pool. */
  lemma DistinctNamesBound(names: seq<string>, pool: set<string>)
    requires NoDuplicates(names)
    requires forall k :: k in names ==> k in pool
    ensures |names| <= |pool|
  {
    assert forall i :: 0 <= i < |names| ==> names[i] in pool;
    DistinctBound(names, pool);
  }

  /** When every section and every test name is already listed, nothing is
      sent, nothing fails, and each test gets the listed id of its title. */
  lemma WalkWithEverythingListed(t: Target, sections: map<string, Id>, cases: map<string, Id>, w: Wire,
                                 infos: seq<TestInfo>)
    requires forall i :: 0 <= i < |infos| ==> infos[i].sectionName in sections && infos[i].testName in cases
    ensures var p := Fold(t, Start(sections, cases, w), infos);
      && p.issued == [] && p.wire.log == w.log && p.error.None?
      && |p.caseIds| == |infos|
      && forall i :: 0 <= i < |infos| ==> p.caseIds[i] == cases[infos[i].testName]
  {
    var p := Fold(t, Start(sections, cases, w), infos);
    WalkRequestBound(t, sections, cases, w, infos);
    assert SectionNames(infos) - sections.Keys == {};
    assert TestNames(infos) - cases.Keys == {};
    FoldInv(t, Start(sections, cases, w), infos);
  }

  /** A case is created for the first test that uses its title, in that
      test's section, under the id the section map holds for it. */
  lemma WalkCreatesCaseAtFirstUse(t: Target, sections: map<string, Id>, cases: map<string, Id>, w: Wire,
                                  infos: seq<TestInfo>)
    ensures var p := Fold(t, Start(sections, cases, w), infos);
      forall c :: c in p.issued && c.CaseCreated? ==>
        && c.at < |infos| && infos[c.at].testName == c.title && infos[c.at].sectionName == c.section
        && (forall j :: 0 <= j < c.at ==> infos[j].testName != c.title)
        && c.section in p.sections && p.sections[c.section] == c.sectionId
  {
    FoldInv(t, Start(sections, cases, w), infos);
  }

  /** After a walk without failure every test has the case id of its title
      (the listed one when its title was listed), and the case-to-test dict
      is the one assigning each test to its case id in turn. */
  lemma WalkRecordsEveryTest(t: Target, sections: map<string, Id>, cases: map<string, Id>, w: Wire,
                             infos: seq<TestInfo>)
    ensures var p := Fold(t, Start(sections, cases, w), infos);
      p.error.None? ==>
        && |p.caseIds| == |infos|
        && (forall i :: 0 <= i < |infos| ==>
              infos[i].testName in p.cases && p.caseIds[i] == p.cases[infos[i].testName])
        && (forall i :: 0 <= i < |infos| && infos[i].testName in cases ==> p.caseIds[i] == cases[infos[i].testName])
        && p.latest == FromPairs(p.caseIds, infos)
  {
    FoldInv(t, Start(sections, cases, w), infos);
  }
}
