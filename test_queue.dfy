/** The test execution pipeline: for one parsed document it runs the compiled
    tests over every activity and organisation node, turns predicate outcomes
    into result codes, buffers the results of one unit and writes them as one
    batch, and records the info metrics of each organisation. */
module TestQueue {
  import opened Base

  datatype Level = Activity | Transaction | Organisation

  /** The `test_result` codes. */
  datatype Code = PASS | FAIL | ERROR | SKIP

  /** What `test_functions[test_id](xmldata)[0]` yields when it does not raise. */
  datatype Value = PyTrue | PyFalse | PyNone | PyOther

  /** The fields of a test row that the pipeline reads. */
  datatype Test = Test(id: int, active: bool, level: Level)

  /** The compiled test functions, by test id; `Raise` is any exception. */
  type TestFunctions<!N> = map<int, N -> Result<Value>>

  /** `tests_by_level`: the active tests of one level that have a compiled function. */
  function TestsByLevel<N>(fns: TestFunctions<N>, tests: seq<Test>, level: Level): (r: seq<Test>)
    ensures |r| <= |tests|
    ensures forall t :: t in r <==> t in tests && t.active && t.level == level && t.id in fns
  {
    if tests == [] then []
    else
      var t := tests[0];
      (if t.active && t.level == level && t.id in fns then [t] else []) + TestsByLevel(fns, tests[1..], level)
  }

  /** `execute_test`.  The override wins over the predicate; otherwise True is
      PASS, None is SKIP, False is FAIL and an exception is ERROR.  A value that is
      none of these falls off the end of the function, which returns Python's
      None (here `None`). */
  function ExecuteTest<N>(fns: TestFunctions<N>, testId: int, unit: N, override: Option<Code>): (r: Option<Code>)
    ensures override.Some? ==> r == override
    ensures override.None? && testId !in fns ==> r == Some(ERROR)
  {
    if override.Some? then override
    else if testId !in fns then Some(ERROR)
    else match fns[testId](unit)
      case Raise => Some(ERROR)
      case Ok(PyTrue) => Some(PASS)
      case Ok(PyNone) => Some(SKIP)
      case Ok(PyFalse) => Some(FAIL)
      case Ok(PyOther) => None
  }

  /** One `add_result(test_id, the_result)` call. */
  datatype Entry = Entry(testId: int, code: Option<Code>)

  /** `execute_and_record` over the tests, in test order: every outcome except
      SKIP is added once. */
  function Recorded<N>(fns: TestFunctions<N>, tests: seq<Test>, unit: N, override: Option<Code>): (r: seq<Entry>)
    ensures |r| <= |tests|
    ensures forall e :: e in r ==> e.code != Some(SKIP)
    ensures forall e :: e in r ==> exists t :: t in tests && t.id == e.testId
  {
    if tests == [] then []
    else
      var init := tests[..|tests| - 1];
      var t := tests[|tests| - 1];
      var c := ExecuteTest(fns, t.id, unit, override);
      var r0 := Recorded(fns, init, unit, override);
      assert forall e :: e in r0 ==> exists u :: u in tests && u.id == e.testId by {
        forall e | e in r0 ensures exists u :: u in tests && u.id == e.testId {
          var u :| u in init && u.id == e.testId;
          assert u in tests;
        }
      }
      r0 + (if c != Some(SKIP) then [Entry(t.id, c)] else [])
  }

  /** `_test_elements`: runs the tests on one unit and adds each result to the
      unit's buffer through the `add_result` closure. */
  method ExecuteTests<N>(fns: TestFunctions<N>, tests: seq<Test>, unit: N, override: Option<Code>)
    returns (buffer: seq<Entry>)
    ensures buffer == Recorded(fns, tests, unit, override)
  {
    buffer := [];
    for i := 0 to |tests|
      invariant buffer == Recorded(fns, tests[..i], unit, override)
    {
      assert tests[..i + 1][..i] == tests[..i];
      var theResult := ExecuteTest(fns, tests[i].id, unit, override);
      if theResult != Some(SKIP) {
        buffer := buffer + [Entry(tests[i].id, theResult)];
      }
    }
    assert tests[..|tests|] == tests;
  }

  /** `test_elements`: builds the (activity tests, activity) and (transaction
      tests, transactions) pairs, but the loop over them returns from its first
      iteration, so only the activity tests are run. */
  method TestElements<N>(fns: TestFunctions<N>, tests: seq<Test>, activity: N, override: Option<Code>)
    returns (buffer: seq<Entry>)
    ensures buffer == Recorded(fns, TestsByLevel(fns, tests, Activity), activity, override)
    ensures forall e :: e in buffer ==> exists t :: t in tests && t.id == e.testId && t.level == Activity && t.active
  {
    var activityTests := TestsByLevel(fns, tests, Activity);
    var transactionTests := TestsByLevel(fns, tests, Transaction);
    var sources := [activityTests, transactionTests];
    buffer := ExecuteTests(fns, sources[0], activity, override);
    forall e | e in buffer
      ensures exists t :: t in tests && t.id == e.testId && t.level == Activity && t.active
    {
      var t :| t in activityTests && t.id == e.testId;
    }
  }

  /** `test_organisation_data`: the organisation tests on an organisation node. */
  method TestOrganisationData<N>(fns: TestFunctions<N>, tests: seq<Test>, node: N)
    returns (buffer: seq<Entry>)
    ensures buffer == Recorded(fns, TestsByLevel(fns, tests, Organisation), node, None)
  {
    var organisationTests := TestsByLevel(fns, tests, Organisation);
    buffer := ExecuteTests(fns, organisationTests, node, None);
  }

  /** The `hierarchy` written with a result: the attribute text, or the default 0. */
  datatype Hierarchy = Zero | Attribute(text: string)

  /** `get_result_hierarchy`: a missing or empty attribute gives 0. The
      identity test `hierarchy is ""` is read as string equality: in CPython
      the empty `str` is a single shared object, so an empty attribute value
      is that object. */
  function GetResultHierarchy(attr: Option<string>): (h: Hierarchy)
    ensures h == Zero <==> attr.None? || attr == Some("")
    ensures h.Attribute? ==> attr == Some(h.text) && h.text != ""
  {
    match attr
    case None => Zero
    case Some(s) => if s == "" then Zero else Attribute(s)
  }

  /** A row of the result table. */
  datatype ResultRow = ResultRow(runtimeId: int, packageId: int, testId: int, resultData: Option<Code>,
                                 identifier: Option<string>, hierarchy: Hierarchy, organisationId: int)

  /** A row of the info-result table. */
  datatype InfoRow = InfoRow(runtimeId: int, packageId: int, organisationId: int, infoId: int, resultData: real)

  /** Calls into collaborators that are not part of this model, in call order:
      the VALID_XML hardcoded result, the aggregation step and the TESTED status. */
  datatype Event =
    | ValidXmlRecorded(runtimeId: int, packageId: int, parsed: bool)
    | ResultsAggregated(runtimeId: int, packageId: int)
    | PackageTested(packageId: int)

  /** The datastore and the process state the pipeline changes: the result
      batches (one per flushed unit), the info results, the `missing_result_id`
      counter and the calls made to other components. */
  datatype Store = Store(batches: seq<seq<ResultRow>>, info: seq<InfoRow>, missing: nat, events: seq<Event>)

  /** `get_organisations_for_testing` gives these. */
  datatype OrgSelector = OrgSelector(organisationId: int, activitiesXPath: string)

  /** A row of the info-type table. */
  datatype InfoType = InfoType(id: int, name: string, level: Level)

  /** The metrics of the `hack` registry. */
  datatype Metric = Coverage | CoverageCurrent | TotalCountryBudgets | CountryStrategyPapers

  /** What a metric is given: the activities of an organisation, or one
      `iati-organisation` node. */
  datatype MetricInput<N> = ActivityList(activities: seq<N>) | OrganisationNode(node: N)

  /** A parsed document as the pipeline queries it: `data.xpath(expr)` (None for
      an XPathEvalError), the `//iati-organisation` nodes, the text of an
      activity's `iati-identifier` (None when reading it raises) and its
      `hierarchy` attribute. */
  datatype Document<!N> = Document(select: string -> Option<seq<N>>, organisations: seq<N>,
                                  identifier: N -> Option<string>, hierarchy: N -> Option<string>)

  /** One job: its ids, the compiled test functions, the test and info-type
      tables, and the metric implementations (`Raise` when one raises). */
  datatype Job<!N> = Job(runtimeId: int, packageId: int, fns: TestFunctions<N>, tests: seq<Test>,
                        infoTypes: seq<InfoType>, metric: (Metric, MetricInput<N>) -> Result<real>)

  /** The exceptions that escape `check_data`: the assertion on an empty
      organisation list, InvalidXPath, and the KeyError of an unknown metric. */
  datatype Abort = EmptyOrganisations | InvalidXPath(xpath: string) | UnknownMetric(name: string)

  datatype Progress = Progress(store: Store, abort: Option<Abort>)

  /** The key a metric has in the `hack` dict. */
  function MetricName(m: Metric): string
  {
    match m
    case Coverage => "coverage"
    case CoverageCurrent => "coverage_current"
    case TotalCountryBudgets => "total_country_budgets"
    case CountryStrategyPapers => "country_strategy_papers"
  }

  /** `info_lam_by_name`: the `hack` dict lookup; it finds exactly the metric
      registered under the name, and nothing for a name not registered. */
  function InfoLamByName(name: string): (r: Option<Metric>)
    ensures r.Some? ==> MetricName(r.value) == name
    ensures r.None? ==> forall m: Metric :: MetricName(m) != name
  {
    if name == "coverage" then Some(Coverage)
    else if name == "coverage_current" then Some(CoverageCurrent)
    else if name == "total_country_budgets" then Some(TotalCountryBudgets)
    else if name == "country_strategy_papers" then Some(CountryStrategyPapers)
    else None
  }

  /** `"MISSING-%d" % n` */
  function MissingId(n: nat): string
  {
    "MISSING-" + NatToString(n)
  }

  /** The rows `add_results` writes for a buffer. */
  function Rows(runtimeId: int, packageId: int, buffer: seq<Entry>, identifier: Option<string>,
                hierarchy: Hierarchy, organisationId: int): (rows: seq<ResultRow>)
    ensures |rows| == |buffer|
    ensures forall i :: 0 <= i < |rows| ==>
      rows[i] == ResultRow(runtimeId, packageId, buffer[i].testId, buffer[i].code, identifier, hierarchy, organisationId)
  {
    if buffer == [] then []
    else Rows(runtimeId, packageId, buffer[..|buffer| - 1], identifier, hierarchy, organisationId) +
         [ResultRow(runtimeId, packageId, buffer[|buffer| - 1].testId, buffer[|buffer| - 1].code,
                    identifier, hierarchy, organisationId)]
  }

  /** The state after `run_test_activity` on one activity: an activity whose
      identifier cannot be read takes the next counter value, the identifier
      MISSING-<counter> and a FAIL override. */
  function AfterActivity<N>(st: Store, job: Job<N>, doc: Document<N>, organisationId: int, activity: N): Store
  {
    var hierarchy := GetResultHierarchy(doc.hierarchy(activity));
    var ident := doc.identifier(activity);
    var missing := if ident.None? then st.missing + 1 else st.missing;
    var identifier := if ident.Some? then ident.value else MissingId(missing);
    var override := if ident.None? then Some(FAIL) else None;
    var buffer := Recorded(job.fns, TestsByLevel(job.fns, job.tests, Activity), activity, override);
    st.(missing := missing,
        batches := st.batches + [Rows(job.runtimeId, job.packageId, buffer, Some(identifier), hierarchy, organisationId)])
  }

  /** The activities of one organisation, in document order. */
  function AfterActivities<N>(st: Store, job: Job<N>, doc: Document<N>, organisationId: int, activities: seq<N>): Store
  {
    if activities == [] then st
    else AfterActivity(AfterActivities(st, job, doc, organisationId, activities[..|activities| - 1]),
                       job, doc, organisationId, activities[|activities| - 1])
  }

  /** The info rows other than the one for (`infoId`, `organisationId`). */
  function Without(info: seq<InfoRow>, infoId: int, organisationId: int): (r: seq<InfoRow>)
    ensures forall x :: x in r <==> x in info && !(x.infoId == infoId && x.organisationId == organisationId)
  {
    if info == [] then []
    else (if info[0].infoId == infoId && info[0].organisationId == organisationId then [] else [info[0]]) +
         Without(info[1..], infoId, organisationId)
  }

  /** `add_info_result`: delete the rows for the same info id and organisation,
      then insert the new one. */
  function Upsert(info: seq<InfoRow>, row: InfoRow): (r: seq<InfoRow>)
    ensures |r| > 0 && r[|r| - 1] == row
    ensures forall x :: x in r <==>
      x == row || (x in info && !(x.infoId == row.infoId && x.organisationId == row.organisationId))
  {
    Without(info, row.infoId, row.organisationId) + [row]
  }

  /** A metric that raises is recorded as 0. */
  function MetricValue(r: Result<real>): (v: real)
    ensures r.Ok? ==> v == r.value
    ensures r.Raise? ==> v == 0.0
  {
    match r
    case Raise => 0.0
    case Ok(v) => v
  }

  /** The info types of one level (the `InfoType.query.filter_by(level=...)` result). */
  function OfLevel(infoTypes: seq<InfoType>, level: Level): (r: seq<InfoType>)
    ensures forall it :: it in r <==> it in infoTypes && it.level == level
  {
    if infoTypes == [] then []
    else (if infoTypes[0].level == level then [infoTypes[0]] else []) + OfLevel(infoTypes[1..], level)
  }

  /** The loop of `run_info_results` over some info types. */
  function AfterInfoTypes<N>(st: Store, job: Job<N>, infoTypes: seq<InfoType>, input: MetricInput<N>,
                             organisationId: int): Progress
  {
    if infoTypes == [] then Progress(st, None)
    else
      var p := AfterInfoTypes(st, job, infoTypes[..|infoTypes| - 1], input, organisationId);
      var it := infoTypes[|infoTypes| - 1];
      if p.abort.Some? then p
      else match InfoLamByName(it.name)
        case None => Progress(p.store, Some(UnknownMetric(it.name)))
        case Some(m) =>
          var row := InfoRow(job.runtimeId, job.packageId, organisationId, it.id, MetricValue(job.metric(m, input)));
          Progress(p.store.(info := Upsert(p.store.info, row)), None)
  }

  /** `run_info_results` at one level. */
  function AfterInfoResults<N>(st: Store, job: Job<N>, input: MetricInput<N>, level: Level, organisationId: int): Progress
  {
    AfterInfoTypes(st, job, OfLevel(job.infoTypes, level), input, organisationId)
  }

  /** `test_organisation`: one batch of organisation results, with no identifier
      and hierarchy 0. */
  function AfterOrganisationTests<N>(st: Store, job: Job<N>, organisationId: int, node: N): Store
  {
    var buffer := Recorded(job.fns, TestsByLevel(job.fns, job.tests, Organisation), node, None);
    st.(batches := st.batches + [Rows(job.runtimeId, job.packageId, buffer, None, Zero, organisationId)])
  }

  /** `run_test_organisation`: the organisation-level metrics, then the
      organisation tests. */
  function AfterOrganisationNode<N>(st: Store, job: Job<N>, organisationId: int, node: N): Progress
  {
    var p := AfterInfoResults(st, job, OrganisationNode(node), Organisation, organisationId);
    if p.abort.Some? then p else Progress(AfterOrganisationTests(p.store, job, organisationId, node), None)
  }

  function AfterOrganisationNodes<N>(st: Store, job: Job<N>, organisationId: int, nodes: seq<N>): Progress
  {
    if nodes == [] then Progress(st, None)
    else
      var p := AfterOrganisationNodes(st, job, organisationId, nodes[..|nodes| - 1]);
      if p.abort.Some? then p else AfterOrganisationNode(p.store, job, organisationId, nodes[|nodes| - 1])
  }

  /** `run_tests_for_organisation`: the organisation's activities, the
      activity-level metrics when there is at least one activity, then every
      `//iati-organisation` node of the document. */
  function AfterOrganisation<N>(st: Store, job: Job<N>, doc: Document<N>, org: OrgSelector): Progress
  {
    match doc.select(org.activitiesXPath)
    case None => Progress(st, Some(InvalidXPath(org.activitiesXPath)))
    case Some(activities) =>
      var s1 := AfterActivities(st, job, doc, org.organisationId, activities);
      var p2 := if |activities| > 0 then AfterInfoResults(s1, job, ActivityList(activities), Activity, org.organisationId)
                else Progress(s1, None);
      if p2.abort.Some? then p2 else AfterOrganisationNodes(p2.store, job, org.organisationId, doc.organisations)
  }

  function AfterOrganisations<N>(st: Store, job: Job<N>, doc: Document<N>, orgs: seq<OrgSelector>): Progress
  {
    if orgs == [] then Progress(st, None)
    else
      var p := AfterOrganisations(st, job, doc, orgs[..|orgs| - 1]);
      if p.abort.Some? then p else AfterOrganisation(p.store, job, doc, orgs[|orgs| - 1])
  }

  /** `check_data` */
  function AfterCheckData<N>(st: Store, job: Job<N>, doc: Document<N>, orgs: seq<OrgSelector>): Progress
  {
    if |orgs| == 0 then Progress(st, Some(EmptyOrganisations))
    else
      var p := AfterOrganisations(st, job, doc, orgs);
      if p.abort.Some? then p
      else Progress(p.store.(events := p.store.events + [ResultsAggregated(job.runtimeId, job.packageId),
                                                         PackageTested(job.packageId)]), None)
  }

  /** What `unguarded_check_file` ends with: it returns a flag, or an exception
      escapes from `check_data`. */
  datatype FileOutcome = Returned(store: Store, valid: bool) | Raised(store: Store, reason: Abort)

  /** `unguarded_check_file`, given the parse result: VALID_XML is recorded with
      the parse flag; a parse failure returns False, otherwise `check_data` runs. */
  function AfterCheckFile<N>(st: Store, job: Job<N>, parsed: Option<Document<N>>, orgs: seq<OrgSelector>): FileOutcome
  {
    var st1 := st.(events := st.events + [ValidXmlRecorded(job.runtimeId, job.packageId, parsed.Some?)]);
    match parsed
    case None => Returned(st1, false)
    case Some(doc) =>
      var p := AfterCheckData(st1, job, doc, orgs);
      if p.abort.Some? then Raised(p.store, p.abort.value) else Returned(p.store, true)
  }

  /** The pipeline's state: the datastore tables and the missing-identifier counter. */
  class Pipeline {
    var batches: seq<seq<ResultRow>>
    var infoResults: seq<InfoRow>
    var missingResultId: nat
    var events: seq<Event>

    function Model(): Store
      reads this
    {
      Store(batches, infoResults, missingResultId, events)
    }

    constructor ()
      ensures Model() == Store([], [], 0, [])
    {
      batches, infoResults, missingResultId, events := [], [], 0, [];
    }

    /** `add_results`: the buffered results of one unit, written inside one
        transaction, become one batch. */
    method AddResults(runtimeId: int, packageId: int, buffer: seq<Entry>, identifier: Option<string>,
                      hierarchy: Hierarchy, organisationId: int)
      modifies this
      ensures Model() == old(Model()).(batches := old(batches) +
                                       [Rows(runtimeId, packageId, buffer, identifier, hierarchy, organisationId)])
    {
      var batch: seq<ResultRow> := [];
      for i := 0 to |buffer|
        invariant batch == Rows(runtimeId, packageId, buffer[..i], identifier, hierarchy, organisationId)
      {
        assert buffer[..i + 1][..i] == buffer[..i];
        batch := batch + [ResultRow(runtimeId, packageId, buffer[i].testId, buffer[i].code,
                                    identifier, hierarchy, organisationId)];
      }
      assert buffer[..|buffer|] == buffer;
      batches := batches + [batch];
    }

    /** `test_activity` */
    method TestActivity<N>(job: Job<N>, doc: Document<N>, activity: N, resultHierarchy: Hierarchy, organisationId: int)
      requires resultHierarchy == GetResultHierarchy(doc.hierarchy(activity))
      modifies this
      ensures Model() == AfterActivity(old(Model()), job, doc, organisationId, activity)
    {
      ghost var st0 := Model();
      var overrideResult: Option<Code> := None;
      var resultIdentifier: string;
      var ident := doc.identifier(activity);
      if ident.Some? {
        resultIdentifier := ident.value;
      } else {
        overrideResult := Some(FAIL);
        missingResultId := missingResultId + 1;
        resultIdentifier := MissingId(missingResultId);
      }
      ghost var st1 := Model();
      assert st1 == st0.(missing := if ident.None? then st0.missing + 1 else st0.missing);
      var results := TestElements(job.fns, job.tests, activity, overrideResult);
      AddResults(job.runtimeId, job.packageId, results, Some(resultIdentifier), resultHierarchy, organisationId);
    }

    /** `test_organisation` */
    method TestOrganisation<N>(job: Job<N>, node: N, organisationId: int)
      modifies this
      ensures Model() == AfterOrganisationTests(old(Model()), job, organisationId, node)
    {
      var results := TestOrganisationData(job.fns, job.tests, node);
      AddResults(job.runtimeId, job.packageId, results, None, Zero, organisationId);
    }

    /** `add_info_result` */
    method AddInfoResult(row: InfoRow)
      modifies this
      ensures Model() == old(Model()).(info := Upsert(old(infoResults), row))
    {
      var rows := infoResults;
      var kept: seq<InfoRow> := [];
      for i := 0 to |rows|
        invariant kept == Without(rows[..i], row.infoId, row.organisationId)
        invariant Model() == old(Model())
      {
        WithoutSnoc(rows[..i], rows[i], row.infoId, row.organisationId);
        assert rows[..i + 1] == rows[..i] + [rows[i]];
        if !(rows[i].infoId == row.infoId && rows[i].organisationId == row.organisationId) {
          kept := kept + [rows[i]];
        }
      }
      assert rows[..|rows|] == rows;
      infoResults := kept + [row];
    }

    /** `run_info_results` */
    method RunInfoResults<N>(job: Job<N>, input: MetricInput<N>, level: Level, organisationId: int)
      returns (abort: Option<Abort>)
      modifies this
      ensures Progress(Model(), abort) == AfterInfoResults(old(Model()), job, input, level, organisationId)
    {
      ghost var st0 := Model();
      var infoTypes := OfLevel(job.infoTypes, level);
      abort := None;
      for i := 0 to |infoTypes|
        invariant Progress(Model(), None) == AfterInfoTypes(st0, job, infoTypes[..i], input, organisationId)
      {
        AfterInfoTypesStep(st0, job, infoTypes, i, input, organisationId);
        var it := infoTypes[i];
        var lam := InfoLamByName(it.name);
        if lam.None? {
          abort := Some(UnknownMetric(it.name));
          InfoTypesAbortStays(st0, job, infoTypes, i + 1, input, organisationId);
          return;
        }
        var result := MetricValue(job.metric(lam.value, input));
        AddInfoResult(InfoRow(job.runtimeId, job.packageId, organisationId, it.id, result));
      }
      assert infoTypes[..|infoTypes|] == infoTypes;
    }

    /** `run_test_organisation` */
    method RunTestOrganisation<N>(job: Job<N>, node: N, organisationId: int) returns (abort: Option<Abort>)
      modifies this
      ensures Progress(Model(), abort) == AfterOrganisationNode(old(Model()), job, organisationId, node)
    {
      abort := RunInfoResults(job, OrganisationNode(node), Organisation, organisationId);
      if abort.Some? {
        return;
      }
      TestOrganisation(job, node, organisationId);
    }

    /** The `for activity in activities` loop of `run_tests_for_organisation`. */
    method TestActivities<N>(job: Job<N>, doc: Document<N>, organisationId: int, activities: seq<N>)
      modifies this
      ensures Model() == AfterActivities(old(Model()), job, doc, organisationId, activities)
    {
      ghost var st0 := Model();
      for i := 0 to |activities|
        invariant Model() == AfterActivities(st0, job, doc, organisationId, activities[..i])
      {
        assert activities[..i + 1][..i] == activities[..i];
        var resultHierarchy := GetResultHierarchy(doc.hierarchy(activities[i]));
        TestActivity(job, doc, activities[i], resultHierarchy, organisationId);
      }
      assert activities[..|activities|] == activities;
    }

    /** The `for org in data.xpath("//iati-organisation")` loop of
        `run_tests_for_organisation`. */
    method TestOrganisationNodes<N>(job: Job<N>, organisationId: int, nodes: seq<N>) returns (abort: Option<Abort>)
      modifies this
      ensures Progress(Model(), abort) == AfterOrganisationNodes(old(Model()), job, organisationId, nodes)
    {
      ghost var st0 := Model();
      abort := None;
      for i := 0 to |nodes|
        invariant abort.None?
        invariant Progress(Model(), None) == AfterOrganisationNodes(st0, job, organisationId, nodes[..i])
      {
        assert nodes[..i + 1][..i] == nodes[..i];
        ghost var before := Model();
        abort := RunTestOrganisation(job, nodes[i], organisationId);
        assert AfterOrganisationNodes(st0, job, organisationId, nodes[..i + 1]) ==
               AfterOrganisationNode(before, job, organisationId, nodes[i]);
        if abort.Some? {
          OrganisationNodesAbortStays(st0, job, organisationId, nodes, i + 1);
          return;
        }
      }
      assert nodes[..|nodes|] == nodes;
    }

    /** `run_tests_for_organisation` */
    method RunTestsForOrganisation<N>(job: Job<N>, doc: Document<N>, org: OrgSelector) returns (abort: Option<Abort>)
      modifies this
      ensures Progress(Model(), abort) == AfterOrganisation(old(Model()), job, doc, org)
    {
      var activities := doc.select(org.activitiesXPath);
      if activities.None? {
        return Some(InvalidXPath(org.activitiesXPath));
      }
      var acts := activities.value;
      TestActivities(job, doc, org.organisationId, acts);
      if |acts| > 0 {
        abort := RunInfoResults(job, ActivityList(acts), Activity, org.organisationId);
        if abort.Some? {
          return;
        }
      }
      abort := TestOrganisationNodes(job, org.organisationId, doc.organisations);
    }

    /** The `for org in organisations` loop of `check_data`. */
    method RunOrganisations<N>(job: Job<N>, doc: Document<N>, orgs: seq<OrgSelector>) returns (abort: Option<Abort>)
      modifies this
      ensures Progress(Model(), abort) == AfterOrganisations(old(Model()), job, doc, orgs)
    {
      ghost var st0 := Model();
      abort := None;
      for i := 0 to |orgs|
        invariant abort.None?
        invariant Progress(Model(), None) == AfterOrganisations(st0, job, doc, orgs[..i])
      {
        assert orgs[..i + 1][..i] == orgs[..i];
        ghost var before := Model();
        abort := RunTestsForOrganisation(job, doc, orgs[i]);
        assert AfterOrganisations(st0, job, doc, orgs[..i + 1]) == AfterOrganisation(before, job, doc, orgs[i]);
        if abort.Some? {
          OrganisationsAbortStays(st0, job, doc, orgs, i + 1);
          return;
        }
      }
      assert orgs[..|orgs|] == orgs;
    }

    /** `check_data` */
    method CheckData<N>(job: Job<N>, doc: Document<N>, orgs: seq<OrgSelector>) returns (abort: Option<Abort>)
      modifies this
      ensures Progress(Model(), abort) == AfterCheckData(old(Model()), job, doc, orgs)
    {
      if |orgs| == 0 {
        return Some(EmptyOrganisations);
      }
      abort := RunOrganisations(job, doc, orgs);
      if abort.Some? {
        return;
      }
      events := events + [ResultsAggregated(job.runtimeId, job.packageId), PackageTested(job.packageId)];
    }

    /** `unguarded_check_file`, given the outcome of `parse_xml`. */
    method UnguardedCheckFile<N>(job: Job<N>, parsed: Option<Document<N>>, orgs: seq<OrgSelector>)
      returns (valid: bool, abort: Option<Abort>)
      modifies this
      ensures var r := AfterCheckFile(old(Model()), job, parsed, orgs);
        Model() == r.store && (if r.Returned? then abort.None? && valid == r.valid else abort == Some(r.reason))
    {
      events := events + [ValidXmlRecorded(job.runtimeId, job.packageId, parsed.Some?)];
      if parsed.None? {
        return false, None;
      }
      abort := CheckData(job, parsed.value, orgs);
      valid := abort.None?;
    }
  }

  // ---------------------------------------------------------------------
  // Folding helpers used by the methods

  lemma WithoutSnoc(info: seq<InfoRow>, x: InfoRow, infoId: int, organisationId: int)
    ensures Without(info + [x], infoId, organisationId) ==
      Without(info, infoId, organisationId) + (if x.infoId == infoId && x.organisationId == organisationId then [] else [x])
  {
    if info != [] {
      assert (info + [x])[1..] == info[1..] + [x];
      WithoutSnoc(info[1..], x, infoId, organisationId);
    }
  }

  /** One more info type, once the earlier ones ran without an abort. */
  lemma AfterInfoTypesStep<N>(st: Store, job: Job<N>, its: seq<InfoType>, i: nat, input: MetricInput<N>, organisationId: int)
    requires i < |its| && AfterInfoTypes(st, job, its[..i], input, organisationId).abort.None?
    ensures var p := AfterInfoTypes(st, job, its[..i], input, organisationId);
      AfterInfoTypes(st, job, its[..i + 1], input, organisationId) ==
        match InfoLamByName(its[i].name)
        case None => Progress(p.store, Some(UnknownMetric(its[i].name)))
        case Some(m) =>
          Progress(p.store.(info := Upsert(p.store.info, InfoRow(job.runtimeId, job.packageId, organisationId, its[i].id,
                                                                   MetricValue(job.metric(m, input))))), None)
  {
    assert its[..i + 1][..i] == its[..i];
  }

  lemma {:induction false} InfoTypesAbortStays<N>(st: Store, job: Job<N>, its: seq<InfoType>, i: nat,
                                                 input: MetricInput<N>, organisationId: int)
    requires i <= |its| && AfterInfoTypes(st, job, its[..i], input, organisationId).abort.Some?
    ensures AfterInfoTypes(st, job, its, input, organisationId) == AfterInfoTypes(st, job, its[..i], input, organisationId)
    decreases |its| - i
  {
    if i < |its| {
      assert its[..i + 1][..i] == its[..i];
      InfoTypesAbortStays(st, job, its, i + 1, input, organisationId);
    } else {
      assert its[..i] == its;
    }
  }

  lemma {:induction false} OrganisationNodesAbortStays<N>(st: Store, job: Job<N>, organisationId: int, nodes: seq<N>, i: nat)
    requires i <= |nodes| && AfterOrganisationNodes(st, job, organisationId, nodes[..i]).abort.Some?
    ensures AfterOrganisationNodes(st, job, organisationId, nodes) == AfterOrganisationNodes(st, job, organisationId, nodes[..i])
    decreases |nodes| - i
  {
    if i < |nodes| {
      assert nodes[..i + 1][..i] == nodes[..i];
      OrganisationNodesAbortStays(st, job, organisationId, nodes, i + 1);
    } else {
      assert nodes[..i] == nodes;
    }
  }

  lemma {:induction false} OrganisationsAbortStays<N>(st: Store, job: Job<N>, doc: Document<N>, orgs: seq<OrgSelector>, i: nat)
    requires i <= |orgs| && AfterOrganisations(st, job, doc, orgs[..i]).abort.Some?
    ensures AfterOrganisations(st, job, doc, orgs) == AfterOrganisations(st, job, doc, orgs[..i])
    decreases |orgs| - i
  {
    if i < |orgs| {
      assert orgs[..i + 1][..i] == orgs[..i];
      OrganisationsAbortStays(st, job, doc, orgs, i + 1);
    } else {
      assert orgs[..i] == orgs;
    }
  }

  // ---------------------------------------------------------------------
  // Properties of the pipeline

  /** An entry is recorded exactly when one of the tests has its id and its
      outcome is not SKIP; the entry then carries that outcome. */
  lemma {:induction false} RecordedEntries<N>(fns: TestFunctions<N>, tests: seq<Test>, unit: N, override: Option<Code>, e: Entry)
    ensures e in Recorded(fns, tests, unit, override) <==>
      e.code == ExecuteTest(fns, e.testId, unit, override) && e.code != Some(SKIP) &&
      exists t :: t in tests && t.id == e.testId
  {
    if tests != [] {
      var init := tests[..|tests| - 1];
      var t := tests[|tests| - 1];
      RecordedEntries(fns, init, unit, override, e);
      assert forall u :: u in tests <==> u in init || u == t by {
        assert tests == init + [t];
      }
    }
  }

  /** The outcome codes: with an override no predicate is consulted; without
      one, PASS, FAIL and SKIP come exactly from True, False and None, and ERROR
      exactly from a missing or raising predicate. */
  lemma ExecuteTestOutcomes<N>(fns: TestFunctions<N>, other: TestFunctions<N>, testId: int, unit: N, override: Option<Code>)
    ensures override.Some? ==> ExecuteTest(fns, testId, unit, override) == override == ExecuteTest(other, testId, unit, override)
    ensures override.None? ==> var r := ExecuteTest(fns, testId, unit, override);
      (r == Some(ERROR) <==> testId !in fns || fns[testId](unit).Raise?) &&
      (r == Some(PASS) <==> testId in fns && fns[testId](unit) == Ok(PyTrue)) &&
      (r == Some(FAIL) <==> testId in fns && fns[testId](unit) == Ok(PyFalse)) &&
      (r == Some(SKIP) <==> testId in fns && fns[testId](unit) == Ok(PyNone)) &&
      (r == None <==> testId in fns && fns[testId](unit) == Ok(PyOther))
  {
  }

  /** With the FAIL override every test is recorded, in order, as FAIL. */
  lemma {:induction false} FailOverrideRecordsEveryTest<N>(fns: TestFunctions<N>, tests: seq<Test>, unit: N)
    ensures |Recorded(fns, tests, unit, Some(FAIL))| == |tests|
    ensures forall i :: 0 <= i < |tests| ==> Recorded(fns, tests, unit, Some(FAIL))[i] == Entry(tests[i].id, Some(FAIL))
  {
    if tests != [] {
      var init := tests[..|tests| - 1];
      FailOverrideRecordsEveryTest(fns, init, unit);
      var r0 := Recorded(fns, init, unit, Some(FAIL));
      var r := r0 + [Entry(tests[|tests| - 1].id, Some(FAIL))];
      assert Recorded(fns, tests, unit, Some(FAIL)) == r;
      forall i | 0 <= i < |tests|
        ensures r[i] == Entry(tests[i].id, Some(FAIL))
      {
        if i < |init| {
          assert r[i] == r0[i] && init[i] == tests[i];
        }
      }
    }
  }

  /** A row of a flushed batch is exactly an entry of the buffer with the unit's
      identifier, hierarchy and organisation. */
  lemma RowsMembership(runtimeId: int, packageId: int, buffer: seq<Entry>, identifier: Option<string>,
                       hierarchy: Hierarchy, organisationId: int, e: Entry)
    ensures (ResultRow(runtimeId, packageId, e.testId, e.code, identifier, hierarchy, organisationId)
               in Rows(runtimeId, packageId, buffer, identifier, hierarchy, organisationId)) <==> e in buffer
  {
    var rows := Rows(runtimeId, packageId, buffer, identifier, hierarchy, organisationId);
    var r := ResultRow(runtimeId, packageId, e.testId, e.code, identifier, hierarchy, organisationId);
    if r in rows {
      var i :| 0 <= i < |rows| && rows[i] == r;
      assert buffer[i] == e;
    }
    if e in buffer {
      var i :| 0 <= i < |buffer| && buffer[i] == e;
      assert rows[i] == r;
    }
  }

  /** The MISSING-<n> identifiers of different counter values differ. */
  lemma MissingIdInjective(a: nat, b: nat)
    requires MissingId(a) == MissingId(b)
    ensures a == b
  {
    assert MissingId(a)[8..] == NatToString(a);
    assert MissingId(b)[8..] == NatToString(b);
    NatToStringInjective(a, b);
  }

  /** An activity without a readable identifier takes the next counter value
      and gets one FAIL row per activity test, in test order, under the
      identifier MISSING-<counter>. */
  lemma MissingIdentifierFailsEveryActivityTest<N>(st: Store, job: Job<N>, doc: Document<N>, organisationId: int, activity: N)
    requires doc.identifier(activity).None?
    ensures var after := AfterActivity(st, job, doc, organisationId, activity);
      var tests := TestsByLevel(job.fns, job.tests, Activity);
      var batch := after.batches[|after.batches| - 1];
      after.missing == st.missing + 1 && after.batches[..|after.batches| - 1] == st.batches &&
      |batch| == |tests| &&
      forall i :: 0 <= i < |batch| ==>
        batch[i] == ResultRow(job.runtimeId, job.packageId, tests[i].id, Some(FAIL), Some(MissingId(st.missing + 1)),
                              GetResultHierarchy(doc.hierarchy(activity)), organisationId)
  {
    FailOverrideRecordsEveryTest(job.fns, TestsByLevel(job.fns, job.tests, Activity), activity);
    var after := AfterActivity(st, job, doc, organisationId, activity);
    assert after.batches[..|after.batches| - 1] == st.batches;
  }

  /** An activity with identifier `x` leaves the counter alone and gets one row
      per active activity-level test whose outcome is not SKIP, carrying that
      outcome and `x`; transaction and organisation tests never appear. */
  lemma IdentifiedActivityRecordsOutcomes<N>(st: Store, job: Job<N>, doc: Document<N>, organisationId: int, activity: N, x: string)
    requires doc.identifier(activity) == Some(x)
    ensures var after := AfterActivity(st, job, doc, organisationId, activity);
      var batch := after.batches[|after.batches| - 1];
      var h := GetResultHierarchy(doc.hierarchy(activity));
      after.missing == st.missing && after.batches[..|after.batches| - 1] == st.batches &&
      (forall r :: r in batch ==> r.identifier == Some(x) && r.hierarchy == h && r.organisationId == organisationId) &&
      forall id, c :: ResultRow(job.runtimeId, job.packageId, id, c, Some(x), h, organisationId) in batch <==>
        c == ExecuteTest(job.fns, id, activity, None) && c != Some(SKIP) &&
        exists t :: t in job.tests && t.id == id && t.active && t.level == Activity && id in job.fns
  {
    var after := AfterActivity(st, job, doc, organisationId, activity);
    assert after.batches[..|after.batches| - 1] == st.batches;
    var tests := TestsByLevel(job.fns, job.tests, Activity);
    var buffer := Recorded(job.fns, tests, activity, None);
    var h := GetResultHierarchy(doc.hierarchy(activity));
    forall id, c
      ensures ResultRow(job.runtimeId, job.packageId, id, c, Some(x), h, organisationId) in after.batches[|after.batches| - 1] <==>
        c == ExecuteTest(job.fns, id, activity, None) && c != Some(SKIP) &&
        exists t :: t in job.tests && t.id == id && t.active && t.level == Activity && id in job.fns
    {
      RowsMembership(job.runtimeId, job.packageId, buffer, Some(x), h, organisationId, Entry(id, c));
      RecordedEntries(job.fns, tests, activity, None, Entry(id, c));
    }
  }

  /** The stored results never hold a SKIP. */
  predicate NoSkip(st: Store)
  {
    forall b, r :: b in st.batches && r in b ==> r.resultData != Some(SKIP)
  }

  /** At most one info row per (info type, organisation). */
  predicate UniqueKeys(info: seq<InfoRow>)
  {
    forall i, j :: 0 <= i < j < |info| ==>
      !(info[i].infoId == info[j].infoId && info[i].organisationId == info[j].organisationId)
  }

  /** The invariant of the datastore. */
  predicate Sound(st: Store)
  {
    NoSkip(st) && UniqueKeys(st.info)
  }

  /** `b` extends `a`: batches are only appended, no event is added, the counter
      does not go down, and the invariant is kept. */
  predicate Grows(a: Store, b: Store)
  {
    b.events == a.events && a.batches <= b.batches && a.missing <= b.missing && (Sound(a) ==> Sound(b))
  }

  lemma GrowsTrans(a: Store, b: Store, c: Store)
    requires Grows(a, b) && Grows(b, c)
    ensures Grows(a, c)
  {
  }

  lemma {:induction false} WithoutUnique(info: seq<InfoRow>, infoId: int, organisationId: int)
    requires UniqueKeys(info)
    ensures UniqueKeys(Without(info, infoId, organisationId))
  {
    if info != [] {
      WithoutUnique(info[1..], infoId, organisationId);
      var rest := Without(info[1..], infoId, organisationId);
      if !(info[0].infoId == infoId && info[0].organisationId == organisationId) {
        forall j | 0 <= j < |rest|
          ensures !(info[0].infoId == rest[j].infoId && info[0].organisationId == rest[j].organisationId)
        {
          assert rest[j] in info[1..];
          var k :| 0 <= k < |info[1..]| && info[1..][k] == rest[j];
          assert info[k + 1] == rest[j];
        }
        assert Without(info, infoId, organisationId) == [info[0]] + rest;
      }
    }
  }

  /** `add_info_result` keeps one row per key: a rerun replaces the row. */
  lemma UpsertKeepsKeysUnique(info: seq<InfoRow>, row: InfoRow)
    requires UniqueKeys(info)
    ensures UniqueKeys(Upsert(info, row))
    ensures row in Upsert(info, row)
    ensures forall x :: x in Upsert(info, row) && x.infoId == row.infoId && x.organisationId == row.organisationId ==> x == row
  {
    WithoutUnique(info, row.infoId, row.organisationId);
    var w := Without(info, row.infoId, row.organisationId);
    var u := Upsert(info, row);
    forall i, j | 0 <= i < j < |u|
      ensures !(u[i].infoId == u[j].infoId && u[i].organisationId == u[j].organisationId)
    {
      if j == |w| {
        assert u[i] == w[i] && w[i] in w;
      } else {
        assert u[i] == w[i] && u[j] == w[j];
      }
    }
  }

  /** The metrics touch only the info table. */
  lemma {:induction false} InfoTypesOnlyTouchInfo<N>(st: Store, job: Job<N>, its: seq<InfoType>, input: MetricInput<N>, organisationId: int)
    ensures var p := AfterInfoTypes(st, job, its, input, organisationId);
      p.store == st.(info := p.store.info) && (UniqueKeys(st.info) ==> UniqueKeys(p.store.info))
  {
    if its != [] {
      var p := AfterInfoTypes(st, job, its[..|its| - 1], input, organisationId);
      InfoTypesOnlyTouchInfo(st, job, its[..|its| - 1], input, organisationId);
      var it := its[|its| - 1];
      if p.abort.None? && InfoLamByName(it.name).Some? {
        var row := InfoRow(job.runtimeId, job.packageId, organisationId, it.id,
                           MetricValue(job.metric(InfoLamByName(it.name).value, input)));
        if UniqueKeys(st.info) {
          UpsertKeepsKeysUnique(p.store.info, row);
        }
      }
    }
  }

  lemma NewBatchNoSkip(st: Store, batch: seq<ResultRow>)
    requires NoSkip(st) && forall r :: r in batch ==> r.resultData != Some(SKIP)
    ensures NoSkip(st.(batches := st.batches + [batch]))
  {
  }

  lemma RowsNoSkip(runtimeId: int, packageId: int, buffer: seq<Entry>, identifier: Option<string>,
                   hierarchy: Hierarchy, organisationId: int)
    requires forall e :: e in buffer ==> e.code != Some(SKIP)
    ensures forall r :: r in Rows(runtimeId, packageId, buffer, identifier, hierarchy, organisationId) ==> r.resultData != Some(SKIP)
  {
    var rows := Rows(runtimeId, packageId, buffer, identifier, hierarchy, organisationId);
    forall r | r in rows
      ensures r.resultData != Some(SKIP)
    {
      var i :| 0 <= i < |rows| && rows[i] == r;
      assert buffer[i] in buffer;
    }
  }

  /** The number of activities whose identifier cannot be read. */
  function CountMissing<N>(doc: Document<N>, activities: seq<N>): nat
  {
    if activities == [] then 0
    else CountMissing(doc, activities[..|activities| - 1]) + (if doc.identifier(activities[|activities| - 1]).None? then 1 else 0)
  }

  /** Each activity adds one batch and the counter advances once per activity
      without an identifier. */
  lemma {:induction false} ActivitiesGrow<N>(st: Store, job: Job<N>, doc: Document<N>, organisationId: int, activities: seq<N>)
    ensures var after := AfterActivities(st, job, doc, organisationId, activities);
      Grows(st, after) && after.info == st.info &&
      |after.batches| == |st.batches| + |activities| &&
      after.missing == st.missing + CountMissing(doc, activities)
  {
    if activities != [] {
      var mid := AfterActivities(st, job, doc, organisationId, activities[..|activities| - 1]);
      ActivitiesGrow(st, job, doc, organisationId, activities[..|activities| - 1]);
      ActivityGrows(mid, job, doc, organisationId, activities[|activities| - 1]);
      GrowsTrans(st, mid, AfterActivity(mid, job, doc, organisationId, activities[|activities| - 1]));
    }
  }

  /** One activity adds one batch, and moves the counter iff it has no identifier. */
  lemma ActivityGrows<N>(st: Store, job: Job<N>, doc: Document<N>, organisationId: int, a: N)
    ensures var after := AfterActivity(st, job, doc, organisationId, a);
      Grows(st, after) && after.info == st.info && |after.batches| == |st.batches| + 1 &&
      after.missing == st.missing + (if doc.identifier(a).None? then 1 else 0)
  {
    var ident := doc.identifier(a);
    var override := if ident.None? then Some(FAIL) else None;
    var buffer := Recorded(job.fns, TestsByLevel(job.fns, job.tests, Activity), a, override);
    var identifier := if ident.Some? then ident.value else MissingId(st.missing + 1);
    var batch := Rows(job.runtimeId, job.packageId, buffer, Some(identifier), GetResultHierarchy(doc.hierarchy(a)), organisationId);
    RowsNoSkip(job.runtimeId, job.packageId, buffer, Some(identifier), GetResultHierarchy(doc.hierarchy(a)), organisationId);
    if Sound(st) {
      NewBatchNoSkip(st, batch);
    }
  }

  /** Each organisation node adds one batch, with no identifier and hierarchy 0. */
  lemma OrganisationNodeGrows<N>(st: Store, job: Job<N>, organisationId: int, node: N)
    ensures var p := AfterOrganisationNode(st, job, organisationId, node);
      Grows(st, p.store) && (p.abort.None? ==> |p.store.batches| == |st.batches| + 1) &&
      (p.abort.None? ==> forall r :: r in p.store.batches[|st.batches|] ==>
         r.identifier.None? && r.hierarchy == Zero && r.organisationId == organisationId)
  {
    var p := AfterInfoResults(st, job, OrganisationNode(node), Organisation, organisationId);
    InfoTypesOnlyTouchInfo(st, job, OfLevel(job.infoTypes, Organisation), OrganisationNode(node), organisationId);
    if p.abort.None? {
      var buffer := Recorded(job.fns, TestsByLevel(job.fns, job.tests, Organisation), node, None);
      RowsNoSkip(job.runtimeId, job.packageId, buffer, None, Zero, organisationId);
      if Sound(p.store) {
        NewBatchNoSkip(p.store, Rows(job.runtimeId, job.packageId, buffer, None, Zero, organisationId));
      }
    }
  }

  lemma {:induction false} OrganisationNodesGrow<N>(st: Store, job: Job<N>, organisationId: int, nodes: seq<N>)
    ensures var p := AfterOrganisationNodes(st, job, organisationId, nodes);
      Grows(st, p.store) && (p.abort.None? ==> |p.store.batches| == |st.batches| + |nodes|)
  {
    if nodes != [] {
      var p := AfterOrganisationNodes(st, job, organisationId, nodes[..|nodes| - 1]);
      OrganisationNodesGrow(st, job, organisationId, nodes[..|nodes| - 1]);
      if p.abort.None? {
        OrganisationNodeGrows(p.store, job, organisationId, nodes[|nodes| - 1]);
        GrowsTrans(st, p.store, AfterOrganisationNode(p.store, job, organisationId, nodes[|nodes| - 1]).store);
      }
    }
  }

  /** An organisation that completes adds one batch per activity and one per
      organisation node of the document. */
  lemma OrganisationGrows<N>(st: Store, job: Job<N>, doc: Document<N>, org: OrgSelector)
    ensures var p := AfterOrganisation(st, job, doc, org);
      Grows(st, p.store) &&
      (doc.select(org.activitiesXPath).None? ==> p == Progress(st, Some(InvalidXPath(org.activitiesXPath)))) &&
      (p.abort.None? ==>
         (doc.select(org.activitiesXPath).Some? &&
          |p.store.batches| == |st.batches| + |doc.select(org.activitiesXPath).value| + |doc.organisations|))
  {
    match doc.select(org.activitiesXPath)
    case None =>
    case Some(activities) =>
      var s1 := AfterActivities(st, job, doc, org.organisationId, activities);
      ActivitiesGrow(st, job, doc, org.organisationId, activities);
      var p2 := if |activities| > 0 then AfterInfoResults(s1, job, ActivityList(activities), Activity, org.organisationId)
                else Progress(s1, None);
      InfoTypesOnlyTouchInfo(s1, job, OfLevel(job.infoTypes, Activity), ActivityList(activities), org.organisationId);
      if p2.abort.None? {
        OrganisationNodesGrow(p2.store, job, org.organisationId, doc.organisations);
        GrowsTrans(st, p2.store, AfterOrganisationNodes(p2.store, job, org.organisationId, doc.organisations).store);
      }
  }

  lemma {:induction false} OrganisationsGrow<N>(st: Store, job: Job<N>, doc: Document<N>, orgs: seq<OrgSelector>)
    ensures Grows(st, AfterOrganisations(st, job, doc, orgs).store)
  {
    if orgs != [] {
      var p := AfterOrganisations(st, job, doc, orgs[..|orgs| - 1]);
      OrganisationsGrow(st, job, doc, orgs[..|orgs| - 1]);
      if p.abort.None? {
        OrganisationGrows(p.store, job, doc, orgs[|orgs| - 1]);
        GrowsTrans(st, p.store, AfterOrganisation(p.store, job, doc, orgs[|orgs| - 1]).store);
      }
    }
  }

  /** `check_file` on one document: VALID_XML is recorded first with the parse
      flag; a document that does not parse writes nothing else and gives False;
      an empty organisation list raises before any test; the aggregation and the
      TESTED status follow only a run in which every organisation completed;
      results are only appended and the datastore invariant is kept. */
  lemma CheckFileOutcome<N>(st: Store, job: Job<N>, parsed: Option<Document<N>>, orgs: seq<OrgSelector>)
    ensures var r := AfterCheckFile(st, job, parsed, orgs);
      var completed := r.Returned? && r.valid;
      r.store.events == st.events + [ValidXmlRecorded(job.runtimeId, job.packageId, parsed.Some?)] +
        (if completed then [ResultsAggregated(job.runtimeId, job.packageId), PackageTested(job.packageId)] else []) &&
      st.batches <= r.store.batches &&
      (Sound(st) ==> Sound(r.store)) &&
      (parsed.None? ==> r.Returned? && !r.valid && r.store.batches == st.batches && r.store.info == st.info) &&
      (parsed.Some? && orgs == [] ==> r.Raised? && r.reason == EmptyOrganisations && r.store.batches == st.batches) &&
      (completed ==> parsed.Some?)
  {
    var st1 := st.(events := st.events + [ValidXmlRecorded(job.runtimeId, job.packageId, parsed.Some?)]);
    if parsed.Some? && orgs != [] {
      OrganisationsGrow(st1, job, parsed.value, orgs);
    }
  }
}
