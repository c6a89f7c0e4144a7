# IATI data quality: rule compiler, test pipeline, organisation metrics and activity predicates

This project models, in Dafny, the core of the IATI data quality tool. The tool
checks aid-activity XML files published to the International Aid Transparency
Initiative registry. The model covers four parts.

- **Rule compiler** (`Foxpath`). Each test row carries a one-line rule sentence,
  such as `title/text() exists?` or `only one of a or b exists?`. The compiler
  tries an ordered list of templates against the sentence. The first template
  that matches decides which predicate over an activity the rule becomes. The
  model covers:
  - the `re.match` templates, as string matchers;
  - the first-match dispatch;
  - the handlers, as an evaluator over an abstract selector;
  - the loop that builds the id → function dict.
- **Test pipeline** (`TestQueue`). For one parsed package, the pipeline does
  the following:
  1. It runs the compiled activity tests on every activity of every
     organisation.
  2. It turns predicate outcomes into result codes: PASS, FAIL, ERROR or SKIP.
  3. It buffers one unit's results and writes them as one batch.
  4. It numbers `MISSING-<n>` the activities that have no identifier, and
     forces their results to FAIL.
  5. It runs the organisation tests and the info metrics, keeping one info row
     per (info type, organisation).
  6. It records the VALID_XML result, the aggregation and the TESTED status.

  The datastore and the global counter are the fields of a `Pipeline` class.
  Its methods are proved against state-transformer functions, and the lemmas
  are about those functions.
- **Organisation metrics** (`InfoResultOrgTests`). These are the forward-looking
  scores of an organisation file:
  - total budgets available for the next three years;
  - recipient-country budgets as a CPA-adjusted share of total budgets;
  - sector budget lines as a share of total budgets;
  - sector strategy papers;
  - country strategy papers for every active recipient country.

  Each metric is a specification function over an abstract document record.
  Each loop of the source is a method proved equal to that function.
- **Activity predicates** (`ActivityTests`). These are the hand-written checks
  on one activity: title and description lengths, recipient percentages, dates
  and sectors. They are modelled as the code behaves, bugs included. A corrected
  version sits beside each bug (see Findings).

`Base` holds what these parts share:
- `Option`;
- `Result`, whose `Raise` stands for any Python exception;
- the abstract `float()` and `int()` parsers;
- the string operations the source uses (`strip` whitespace, ASCII `lower`,
  `replace`, substring search, `"%d"`).

Three behaviours of the code that are easy to misread:
- **Unmatched rule sentences** (`iatidataquality/foxpath.py:91-93`, `:113-116`).
  The last template, `(.*)`, matches every sentence. So the `StopIteration`
  branch that raises `TestSyntaxError` is never taken. A sentence no other
  template matches compiles to the catch-all, which gives `None`
  (`Foxpath.FunctionForTest`).
- **Zero total budget** (`iatidq/inforesult_orgtests.py:143-156`). The comment
  at line 156 says "current year's budget". The fallback denominator the code
  computes is the first strictly positive amount in year order 0 to 3
  (`InfoResultOrgTests.FirstPositive`).
- **Other predicate values** (`iatidq/test_queue.py:66-76`). A predicate value
  that is not `True`, `False` or `None` matches none of the `is` tests. It falls
  off the end of `execute_test`, which returns `None`, and that is recorded as
  a NULL result, not as an error (`TestQueue.ExecuteTestOutcomes`).

## Model

| member | source | states |
|---|---|---|
| Base.RemoveChar | iatidq/inforesult_orgtests.py:14 | `replace(',', '')` leaves no comma, never lengthens the text, and is the identity on text without commas |
| Base.RemoveDotZero | iatidq/inforesult_orgtests.py:18 | `replace('.0', '')` never lengthens the text (its exact effect: `Base.RemoveDotZeroUnchangedIff` and `Base.RemoveDotZeroTakesPairs`) |
| Base.RemoveDotZeroUnchangedIff | iatidq/inforesult_orgtests.py:18 | `replace('.0', '')` leaves the text unchanged iff `.0` does not occur in it |
| Base.RemoveDotZeroTakesPairs | iatidq/inforesult_orgtests.py:18 | each removal takes out one `.` and one `0`: the text shrinks by two characters per removed dot, the `0`s drop by the same number, and every other character keeps its count |
| Base.Lower | iatidq/inforesult_orgtests.py:205 | `lower()`: the same length, with each ASCII capital replaced by its small letter |
| Base.Token | iatidataquality/foxpath.py:31 | the text a greedy `(\S*)` captures before a space: a whitespace-free prefix that ends at whitespace or at the end |
| Base.FirstLine | iatidataquality/foxpath.py:31 | the reach of `.`: the prefix before the first newline |
| Base.LastIndexOf | iatidataquality/foxpath.py:31 | the last position of a character, or None when the text does not contain it (where a backtracking `...\?` ends) |
| Foxpath.After | iatidataquality/foxpath.py:77-89 | a template's literal prefix matches iff the sentence starts with it, and what follows is the rest of the sentence |
| Foxpath.IgnoreLine | iatidataquality/foxpath.py:7-11 | a sentence is skipped when it starts with `#` or is blank (`^$`: empty, or a lone newline); its cases are stated in `Foxpath.IgnoreLineCases` |
| Foxpath.IgnoreLineCases | iatidataquality/foxpath.py:7-11 | a sentence starting with `#` is skipped, and so are `""` and `"\n"`; a lone space or a tab before a newline is not skipped |
| Foxpath.Match | iatidataquality/foxpath.py:96-98 | `re.match` of one template at the start of the sentence; what it accepts is stated in `Foxpath.FirstMatchAt`, `Foxpath.LeadingToken`, `Foxpath.OnlyOneOfSkipsEarlierTemplates` and `Foxpath.XorBeforeOr` |
| Foxpath.FunctionForTest | iatidataquality/foxpath.py:91-118 | the handler of the first matching template; it always compiles, because the catch-all `(.*)` accepts every sentence, so `TestSyntaxError` is never raised |
| Foxpath.Eval | iatidataquality/foxpath.py:31-89 | a predicate whose first selector fails raises; `is an integer?` is never True |
| Foxpath.CompileAll | iatidataquality/foxpath.py:102-127 | the dict built over the selected tests; its keys and which test wins are stated in `Foxpath.CompiledKeys` and `Foxpath.LastTestWins`, and no prefix of the tests fails to compile (`Foxpath.FunctionForTest`) |
| Base.NatToString | iatidq/test_queue.py:119 | `"%d"`: a non-empty string of decimal digits, one digit exactly below 10 |
| Base.NatToStringInjective | iatidq/test_queue.py:119 | different counter values have different decimal texts |
| Foxpath.FirstMatch | iatidataquality/foxpath.py:96-118 | the first template in `mappings` order that accepts the sentence: it matches, and no earlier template does; None only when no template matches |
| Foxpath.FirstMatchAt | iatidataquality/foxpath.py:96-114 | the template at position k decides exactly when it accepts the sentence and no earlier template does |
| Foxpath.Handler | iatidataquality/foxpath.py:31-47 | a handler returns its rule's predicate or None, and never a different predicate |
| Foxpath.RemoveBlank | iatidataquality/foxpath.py:56-57 | `rm_blank` keeps exactly the values that differ from `''` |
| Foxpath.ExistCheck | iatidataquality/foxpath.py:74-75 | a failing selector raises; otherwise True iff some selected value is non-blank |
| Foxpath.SumValues | iatidataquality/foxpath.py:60-64 | the sum is defined iff every value converts to a number |
| Foxpath.GenerateTestFunctions | iatidataquality/foxpath.py:102-127 | the dict-building loop equals the left-to-right fold over the selected tests |
| Foxpath.UnmatchedMapsToNone | iatidataquality/foxpath.py:91-93 | a sentence that no real template accepts compiles to None |
| Foxpath.CompiledKeys | iatidataquality/foxpath.py:104-105 | the dict has exactly the ids of the tests of level 1 whose name is neither a comment nor blank |
| Foxpath.LastTestWins | iatidataquality/foxpath.py:127 | for a repeated id, the function of the last such test is kept |
| Foxpath.LeadingToken | iatidataquality/foxpath.py:31 | the `(\S*)` group of a sentence is its text up to the first whitespace |
| Foxpath.OnlyOneOfSkipsEarlierTemplates | iatidataquality/foxpath.py:31-72 | the five templates listed before xor never accept an `only one of ...` sentence |
| Foxpath.XorBeforeOr | iatidataquality/foxpath.py:77-89 | a sentence the xor template accepts compiles to xor and never to or |
| Foxpath.XorExample | iatidataquality/foxpath.py:77-80 | example: `only one of a or b exists?` compiles to the xor predicate on `a` and `b` |
| Foxpath.PairExample | iatidataquality/foxpath.py:77-85 | example: the two `(\S*)` groups of `a or b exists?` are `a` and `b` |
| Foxpath.IsATypeNames | iatidataquality/foxpath.py:31-47 | of the type names only `integer` gives a predicate; `iso date` and all others give None |
| Foxpath.IsAnIntegerNeverTrue | iatidataquality/foxpath.py:42-46 | `is an integer?` folds `and` from False: it raises when the selector fails and is False on every selection otherwise |
| Foxpath.ExistsIff | iatidataquality/foxpath.py:74-75 | `exists?` is True iff some selected value is not `''` |
| Foxpath.OrIsDisjunction | iatidataquality/foxpath.py:82-85 | `a or b exists?` is the short-circuit disjunction of the two presence checks |
| Foxpath.XorIsExclusive | iatidataquality/foxpath.py:77-80 | `only one of a or b exists?` is True iff exactly one of the two is present |
| Foxpath.ExistsTimesCounts | iatidataquality/foxpath.py:66-72 | `exists N times?` compares the number of non-blank values with `int(N)` by `==`, and `exists more than N times?` by `>`; a bad N raises |
| Foxpath.RemoveBlankCount | iatidataquality/foxpath.py:56-57 | the length of `rm_blank` is the number of non-blank values |
| Foxpath.MoreCharsExistential | iatidataquality/foxpath.py:49-54 | `has more than N characters?` is False on an empty selection and otherwise True iff some value is longer than `int(N)` |
| Foxpath.SomeLongerIff | iatidataquality/foxpath.py:51-54 | the `or` fold of `len(x) > n` is True iff some value is longer than `n` |
| Foxpath.SumToEmptyIsZero | iatidataquality/foxpath.py:59-64 | an empty or all-blank selection sums to 0 |
| Foxpath.SumToExample | iatidataquality/foxpath.py:59-64 | example: values `""`, `"2"` and `"3.5"` sum to 5.5 and not to 6 |
| Foxpath.MoreCharsExample | iatidataquality/foxpath.py:49-54 | example: of the values `ab` and `abcdef`, `abcdef` has more than 3 characters |
| TestQueue.TestsByLevel | iatidq/test_queue.py:50-55 | a test is kept iff it is active, of the level and has a compiled function |
| TestQueue.ExecuteTest | iatidq/test_queue.py:61-76 | an override is returned as given; with no override, a test id that has no compiled function gives ERROR (every case, both ways: `TestQueue.ExecuteTestOutcomes`) |
| TestQueue.ExecuteTestOutcomes | iatidq/test_queue.py:61-76 | an override is returned without consulting any predicate; otherwise True→PASS, False→FAIL, None→SKIP, a missing or raising predicate→ERROR, and any other value→NULL, each both ways |
| TestQueue.Recorded | iatidq/test_queue.py:78-83 | no more entries than tests, never a SKIP, and only ids of the given tests |
| TestQueue.RecordedEntries | iatidq/test_queue.py:78-83 | an entry is added iff a test has its id and its outcome is not SKIP, and it carries that outcome |
| TestQueue.FailOverrideRecordsEveryTest | iatidq/test_queue.py:62-63 | with the FAIL override, every test is recorded as FAIL, in test order |
| TestQueue.ExecuteTests | iatidq/test_queue.py:58-83 | the list-comprehension loop fills the buffer with exactly the recorded entries |
| TestQueue.TestElements | iatidq/test_queue.py:86-104 | because the loop returns in its first iteration, only the active activity-level tests run; transaction tests never do |
| TestQueue.TestOrganisationData | iatidq/test_queue.py:146-160 | the organisation-level tests run on the node, with no override |
| TestQueue.GetResultHierarchy | iatidq/test_queue.py:197-201 | a missing or empty `hierarchy` gives 0; otherwise the attribute text is kept |
| TestQueue.Rows | iatidq/test_queue.py:128-139 | one row per buffered entry, in order, carrying the entry and the unit's ids, identifier, hierarchy and organisation |
| TestQueue.RowsMembership | iatidq/test_queue.py:128-139 | a row is in the flushed batch iff its entry is in the buffer |
| TestQueue.MissingIdInjective | iatidq/test_queue.py:119 | different counter values give different `MISSING-<n>` identifiers |
| TestQueue.MissingIdentifierFailsEveryActivityTest | iatidq/test_queue.py:110-119 | an activity with no identifier moves the counter up by exactly one and gets one FAIL row per activity test, in order, under `MISSING-<counter>` |
| TestQueue.IdentifiedActivityRecordsOutcomes | iatidq/test_queue.py:107-143 | an identified activity leaves the counter alone; its batch holds exactly the non-SKIP outcomes of the active activity tests, under its identifier and hierarchy |
| TestQueue.AfterActivity | iatidq/test_queue.py:107-143 | the state after `run_test_activity`; stated by `TestQueue.ActivityGrows`, `TestQueue.MissingIdentifierFailsEveryActivityTest` and `TestQueue.IdentifiedActivityRecordsOutcomes` |
| TestQueue.AfterActivities | iatidq/test_queue.py:232-233 | the activities in document order; stated by `TestQueue.ActivitiesGrow` |
| TestQueue.AfterInfoTypes | iatidq/test_queue.py:407-417 | the metric loop: upsert one info row per info type, or UnknownMetric for a name outside the registry; stated by `TestQueue.InfoTypesOnlyTouchInfo` and `TestQueue.UpsertKeepsKeysUnique` |
| TestQueue.AfterInfoResults | iatidq/test_queue.py:378-420 | the metric loop over the info types of one level (`TestQueue.OfLevel`) |
| TestQueue.AfterOrganisationTests | iatidq/test_queue.py:163-185 | one batch of organisation results; stated by `TestQueue.OrganisationNodeGrows` |
| TestQueue.AfterOrganisationNode | iatidq/test_queue.py:211-219 | the organisation metrics, then the organisation tests unless a metric aborted; stated by `TestQueue.OrganisationNodeGrows` |
| TestQueue.AfterOrganisationNodes | iatidq/test_queue.py:238-241 | the organisation nodes in order, stopping at the first abort; stated by `TestQueue.OrganisationNodesGrow` |
| TestQueue.AfterOrganisation | iatidq/test_queue.py:221-241 | InvalidXPath for a bad selector; else the activities, the activity metrics when there is an activity, then the nodes; stated by `TestQueue.OrganisationGrows` |
| TestQueue.AfterOrganisations | iatidq/test_queue.py:243-247 | the organisations in order, stopping at the first abort; stated by `TestQueue.OrganisationsGrow` |
| TestQueue.AfterCheckData | iatidq/test_queue.py:196-251 | an empty organisation list aborts; otherwise the organisations run, then aggregation and TESTED are recorded; stated by `TestQueue.CheckFileOutcome` |
| TestQueue.AfterCheckFile | iatidq/test_queue.py:254-271 | VALID_XML with the parse flag, then False on a parse failure or `check_data`; stated by `TestQueue.CheckFileOutcome` |
| TestQueue.Without | iatidq/test_queue.py:384-387 | the delete removes exactly the rows of that (info id, organisation) |
| TestQueue.Upsert | iatidq/test_queue.py:382-395 | `add_info_result` ends with the new row, and keeps every other row except those with the same (info id, organisation) |
| TestQueue.InfoLamByName | iatidq/test_queue.py:398-405 | the lookup returns the metric registered under exactly that name, and nothing for an unregistered name |
| TestQueue.MetricValue | iatidq/test_queue.py:411-415 | a metric that returns records its value; one that raises records 0 |
| TestQueue.WithoutUnique | iatidq/test_queue.py:384-387 | deleting rows keeps the keys unique |
| TestQueue.UpsertKeepsKeysUnique | iatidq/test_queue.py:382-395 | after `add_info_result`, exactly one row has that key, and it is the new row; the keys stay unique |
| TestQueue.OfLevel | iatidq/test_queue.py:408-409 | the info types run are exactly those of the level |
| TestQueue.InfoTypesOnlyTouchInfo | iatidq/test_queue.py:407-417 | the metric loop changes only the info table; batches, counter and events stay the same |
| TestQueue.RowsNoSkip | iatidq/test_queue.py:80-81 | no SKIP ever reaches a result row |
| TestQueue.NewBatchNoSkip | iatidq/test_queue.py:128-139 | adding a batch without SKIP rows keeps a datastore without SKIP rows |
| TestQueue.ActivityGrows | iatidq/test_queue.py:107-143 | one activity appends one batch, leaves the info table alone, and moves the counter iff it has no identifier |
| TestQueue.ActivitiesGrow | iatidq/test_queue.py:232-233 | the activities add one batch each, and the counter moves up once per activity without an identifier |
| TestQueue.OrganisationNodeGrows | iatidq/test_queue.py:163-185 | an organisation node adds one batch, each row with identifier None, hierarchy 0 and the organisation's id |
| TestQueue.OrganisationNodesGrow | iatidq/test_queue.py:238-241 | the organisation nodes add one batch each |
| TestQueue.OrganisationGrows | iatidq/test_queue.py:221-241 | a bad activities XPath raises InvalidXPath; a completed organisation adds one batch per activity and one per organisation node |
| TestQueue.OrganisationsGrow | iatidq/test_queue.py:243-247 | the organisation loop only appends batches and keeps the datastore invariant |
| TestQueue.CheckFileOutcome | iatidq/test_queue.py:254-271 | VALID_XML is recorded first with the parse flag; a parse failure returns False and writes nothing else; an empty organisation list raises; aggregation and TESTED follow only a completed run on a parsed file; results are only appended |
| TestQueue.Pipeline.AddResults | iatidq/test_queue.py:128-139 | the write loop appends exactly one batch, the buffer's rows |
| TestQueue.Pipeline.TestActivity | iatidq/test_queue.py:107-143 | the new state is the activity step: a counter move for a missing identifier, then one batch |
| TestQueue.Pipeline.TestOrganisation | iatidq/test_queue.py:163-185 | the new state is one organisation batch |
| TestQueue.Pipeline.AddInfoResult | iatidq/test_queue.py:382-395 | the info table becomes the table without that key, plus the new row |
| TestQueue.Pipeline.RunInfoResults | iatidq/test_queue.py:378-420 | the loop over the level's info types gives the specified state, or UnknownMetric for a name outside the registry |
| TestQueue.Pipeline.RunTestOrganisation | iatidq/test_queue.py:211-219 | the organisation metrics, then the organisation tests |
| TestQueue.Pipeline.TestActivities | iatidq/test_queue.py:232-233 | the activity loop gives the specified state |
| TestQueue.Pipeline.TestOrganisationNodes | iatidq/test_queue.py:238-241 | the node loop gives the specified state, and stops at the first abort |
| TestQueue.Pipeline.RunTestsForOrganisation | iatidq/test_queue.py:228-241 | the activities, then the activity metrics only if there is an activity, then the nodes; InvalidXPath on a bad selector |
| TestQueue.Pipeline.RunOrganisations | iatidq/test_queue.py:246-247 | the organisation loop gives the specified state, and stops at the first abort |
| TestQueue.Pipeline.CheckData | iatidq/test_queue.py:196-251 | an empty organisation list aborts; otherwise all organisations run, then aggregation and TESTED are recorded |
| TestQueue.Pipeline.UnguardedCheckFile | iatidq/test_queue.py:254-271 | the returned flag and abort match the file outcome, and so does the new state |
| InfoResultOrgTests.FixVal | iatidq/inforesult_orgtests.py:8-18 | the first of three parses that succeeds: the text, the text without commas, then that without `.0`; the last failure and a missing text raise |
| InfoResultOrgTests.FixValDropsCommas | iatidq/inforesult_orgtests.py:13-15 | `"1,234.00"` is read as 1234 |
| InfoResultOrgTests.FixValDropsDotZeros | iatidq/inforesult_orgtests.py:18 | `"1.000.00"` is read as 1000 |
| InfoResultOrgTests.RemoveDotZerosExample | iatidq/inforesult_orgtests.py:18 | example: `replace('.0', '')` turns `1.000.00` into `1000`, removing non-overlapping occurrences left to right |
| InfoResultOrgTests.DateLaterThanNow | iatidq/inforesult_orgtests.py:20-27 | True iff the date parses and lies strictly after UTC now |
| InfoResultOrgTests.BudgetWithinYearScope | iatidq/inforesult_orgtests.py:29-52 | True iff the end date parses and lies strictly between `now + (180 + 365(y-1))` days and 365 days later |
| InfoResultOrgTests.WindowStartStep | iatidq/inforesult_orgtests.py:42-43 | the windows of later years start at least 365 days later |
| InfoResultOrgTests.ScopedYearIsUnique | iatidq/inforesult_orgtests.py:29-52 | an end date falls in at most one year |
| InfoResultOrgTests.WindowStartIsInNoYear | iatidq/inforesult_orgtests.py:45-46 | both bounds are strict: an end date exactly on a window start is in no year |
| InfoResultOrgTests.DatedTotalBudgets | iatidq/inforesult_orgtests.py:59 | exactly the total budgets with a period-end date |
| InfoResultOrgTests.YearBudgetFrom | iatidq/inforesult_orgtests.py:63-72 | a returned entry is the starting one or an available one, and it is returned only when every budget has a `period-start` |
| InfoResultOrgTests.FutureBudgetsFrom | iatidq/inforesult_orgtests.py:74-78 | the entries so far are kept and one is added per year: entry i is the per-budget loop of year i starting from `{available: False, amount: 0}`; it raises iff some year's loop raises |
| InfoResultOrgTests.TotalFutureBudgets | iatidq/inforesult_orgtests.py:54-82 | four entries; entry y is the per-budget loop of year y over the dated total budgets, from `{available: False, amount: 0}`; it raises iff the loop of some year raises |
| InfoResultOrgTests.LastInScopeBudgetWins | iatidq/inforesult_orgtests.py:63-77 | the last in-scope budget in document order supplies the year's amount, and the year is available |
| InfoResultOrgTests.NoInScopeBudgetKeepsEntry | iatidq/inforesult_orgtests.py:74-77 | a year with no budget in scope keeps `{available: False, amount: 0}` |
| InfoResultOrgTests.MissingPeriodStartRaises | iatidq/inforesult_orgtests.py:64 | a dated total budget without `period-start` makes the metric raise |
| InfoResultOrgTests.NoBudgetInYearIsUnavailable | iatidq/inforesult_orgtests.py:54-82 | a year in which no dated total budget ends gets `{available: False, amount: 0}` |
| InfoResultOrgTests.LastBudgetInYearSuppliesAmount | iatidq/inforesult_orgtests.py:63-77 | otherwise the year is available and its amount is `fixVal` of the last dated total budget that ends in it |
| InfoResultOrgTests.ComputeTotalFutureBudgets | iatidq/inforesult_orgtests.py:54-82 | the nested comprehension loops equal the specification |
| InfoResultOrgTests.CountAvailable | iatidq/inforesult_orgtests.py:276-279 | the number available is at most the number of years, and equals it iff every year is available |
| InfoResultOrgTests.TotalBudgetsAvailable | iatidq/inforesult_orgtests.py:270-280 | `100 · available / 3` over years 1..3 only |
| InfoResultOrgTests.TotalBudgetsAvailableValues | iatidq/inforesult_orgtests.py:270-280 | the score is 0, 100/3, 200/3 or 100, and it is 100 iff years 1, 2 and 3 are all available |
| InfoResultOrgTests.ComputeTotalBudgetsAvailable | iatidq/inforesult_orgtests.py:270-280 | the counting loop equals the specification |
| InfoResultOrgTests.Amounts | iatidq/inforesult_orgtests.py:146 | the amounts of the year entries, in year order |
| InfoResultOrgTests.FirstPositive | iatidq/inforesult_orgtests.py:143-148 | the first strictly positive amount in year order, or 0 exactly when none is positive |
| InfoResultOrgTests.GetATotalBudgetOverZero | iatidq/inforesult_orgtests.py:143-148 | the early-returning loop gives the first positive amount |
| InfoResultOrgTests.CpaAdjustedPercentage | iatidq/inforesult_orgtests.py:133-141 | raises (ZeroDivisionError) iff the total is 0; otherwise the CPA-adjusted percentage, with only values above 100 clamped to 100 |
| InfoResultOrgTests.YearPercentage | iatidq/inforesult_orgtests.py:150-161 | a year's percentage is at most 100 |
| InfoResultOrgTests.YearPercentageDenominator | iatidq/inforesult_orgtests.py:153-161 | a non-zero total is used; a zero total falls back to the first positive amount; when both are zero the year gets 0 |
| InfoResultOrgTests.DatedCountryBudgets | iatidq/inforesult_orgtests.py:92-93 | exactly the recipient-country budgets with a period-end date |
| InfoResultOrgTests.CountryYearFrom | iatidq/inforesult_orgtests.py:105-123 | the per-year totals keep one entry per year (what it adds: `InfoResultOrgTests.CountryYearTotals`) |
| InfoResultOrgTests.CountryYearsFrom | iatidq/inforesult_orgtests.py:125-131 | the year loop keeps one total per year (what it adds: `InfoResultOrgTests.CountryYearsTotals`) |
| InfoResultOrgTests.CountryYearTotals | iatidq/inforesult_orgtests.py:105-128 | one year over the budgets succeeds iff every in-scope amount parses; the year's total grows by exactly the sum of the in-scope amounts, the other years are unchanged, and the country keys gain exactly the in-scope recipient codes |
| InfoResultOrgTests.CountryYearsTotals | iatidq/inforesult_orgtests.py:125-131 | over distinct years: succeeds iff every year's in-scope sum does; each listed year grows by its in-scope sum, other years are unchanged, and the keys gain the in-scope codes of all listed years |
| InfoResultOrgTests.Percentages | iatidq/inforesult_orgtests.py:150-161 | each year's percentage uses that year's total and the shared fallback |
| InfoResultOrgTests.TotalCountryBudgets | iatidq/inforesult_orgtests.py:84-175 | four totals and four percentages; `num_countries` is the number of distinct countries (what each total and percentage is: `InfoResultOrgTests.CountryBudgetTotals`) |
| InfoResultOrgTests.CountryBudgetTotals | iatidq/inforesult_orgtests.py:84-175 | defined iff every year's in-scope amounts parse; then year y's `total_amount` is the sum of the amounts of the recipient-country budgets ending in year y, its `total_pct` uses that sum, the year's total and the first positive total, and the countries are exactly the codes of budgets ending in some year 0..3 |
| InfoResultOrgTests.FourYearsTotals | iatidq/inforesult_orgtests.py:125-131 | the same facts for the year loop over years 0..3, starting from no countries and zero totals |
| InfoResultOrgTests.YearsCodesOfFourYears | iatidq/inforesult_orgtests.py:125-131 | the codes gathered over years 0..3 are the union of the four years' in-scope codes |
| InfoResultOrgTests.CountryPercentagesAtMost100 | iatidq/inforesult_orgtests.py:165-174 | every year's percentage is at most 100; `total_pct_all_years` is the mean of years 1..3 only, and also at most 100 |
| InfoResultOrgTests.AddCountryData | iatidq/inforesult_orgtests.py:105-123 | one `get_country_data` call equals one step of the fold |
| InfoResultOrgTests.CountryYearFromStep | iatidq/inforesult_orgtests.py:127-128 | the fold over budgets goes one budget at a time |
| InfoResultOrgTests.MakeCountryBudget | iatidq/inforesult_orgtests.py:125-128 | the per-budget loop for one year equals the fold |
| InfoResultOrgTests.GenerateTotalYearsData | iatidq/inforesult_orgtests.py:150-165 | the year loop writes each year's percentage |
| InfoResultOrgTests.ComputeTotalCountryBudgets | iatidq/inforesult_orgtests.py:84-175 | the loops equal the specification |
| InfoResultOrgTests.Min100 | iatidq/inforesult_orgtests.py:307-310 | `min(x, 100)` is at most both and is one of them |
| InfoResultOrgTests.BudgetLinesFrom | iatidq/inforesult_orgtests.py:298-306 | the budget-line loop leaves `budget_total` and `budgetlines_pct` alone; which line each ref keeps is stated by `InfoResultOrgTests.BudgetLinesLastPerRef` |
| InfoResultOrgTests.BudgetLinesLastPerRef | iatidq/inforesult_orgtests.py:298-306 | every line needs a name and a numeric value; the `budget-lines` keys are the old ones plus every ref, each ref maps to the name and value of its LAST line, and untouched keys keep their entry |
| InfoResultOrgTests.BudgetLinesAddUp | iatidq/inforesult_orgtests.py:298-306 | `budgetlines_total` grows by exactly the sum of the line values |
| InfoResultOrgTests.SectorBudgetFrom | iatidq/inforesult_orgtests.py:292-310 | one year succeeds only when every total budget has a `period-end/@iso-date` (the `[0]` raises otherwise); its totals are stated by `InfoResultOrgTests.SectorLastBudgetSetsTotal` and `InfoResultOrgTests.SectorNoBudgetInScope` |
| InfoResultOrgTests.SectorNoBudgetInScope | iatidq/inforesult_orgtests.py:292-310 | with no total budget in the year's scope, the year's entry is left as it was |
| InfoResultOrgTests.SectorLastBudgetSetsTotal | iatidq/inforesult_orgtests.py:292-310 | `budget_total` is the value of the LAST in-scope total budget, which is non-zero, and `budgetlines_pct` is `min(budgetlines_total / budget_total * 100, 100)` for it |
| InfoResultOrgTests.SectorBudgetsFrom | iatidq/inforesult_orgtests.py:287-310 | the entries so far are kept and one is added per year: entry i is the per-budget loop of year i from the empty year; it raises iff some year's loop raises |
| InfoResultOrgTests.TotalSectorBudgets | iatidq/inforesult_orgtests.py:282-311 | four entries; entry y is the per-budget loop of year y over all total budgets from the empty year; it raises iff the loop of some year raises |
| InfoResultOrgTests.SectorLinesAccumulateAcrossBudgets | iatidq/inforesult_orgtests.py:292-310 | a year's `budgetlines_total` is the sum of the lines of every in-scope total budget (not only the last), and its percentage stays at most 100 |
| InfoResultOrgTests.SectorYearLinesTotal | iatidq/inforesult_orgtests.py:282-311 | in the metric's result, year y's `budgetlines_total` is the sum of the lines of every total budget ending in year y, and its `budgetlines_pct` is at most 100; the other fields are stated by `InfoResultOrgTests.SectorYearLastBudget` and `InfoResultOrgTests.SectorYearWithoutBudgetIsEmpty` |
| InfoResultOrgTests.SectorYearLastBudget | iatidq/inforesult_orgtests.py:282-311 | in the metric's result, year y's `budget_total` is the value of the last total budget ending in year y, and its `budgetlines_pct` is `min(lines sum / budget_total * 100, 100)` |
| InfoResultOrgTests.SectorYearWithoutBudgetIsEmpty | iatidq/inforesult_orgtests.py:282-311 | a year no total budget falls in keeps the initial entry: no lines and every amount 0 |
| InfoResultOrgTests.SectorYearsAtMost100 | iatidq/inforesult_orgtests.py:307-310 | every year's `budgetlines_pct` is at most 100 |
| InfoResultOrgTests.TotalSectorBudgetsSingleResult | iatidq/inforesult_orgtests.py:313-315 | defined exactly when the sector budgets are, and then the mean of the four years' `budgetlines_pct` |
| InfoResultOrgTests.SectorScoreZeroWithoutBudgets | iatidq/inforesult_orgtests.py:313-315 | with no total budget in any of the four years, the score is 0 |
| InfoResultOrgTests.SectorBudgetsSingleResultAtMost100 | iatidq/inforesult_orgtests.py:313-315 | the mean over the four years is at most 100 |
| InfoResultOrgTests.TotalCountryBudgetsSingleResult | iatidq/inforesult_orgtests.py:177-180 | the country-budget mean when it is positive, else the sector-budget score; `InfoResultOrgTests.CountryBudgetsSingleResultAtMost100` bounds it by 100 |
| InfoResultOrgTests.CountryBudgetsSingleResultAtMost100 | iatidq/inforesult_orgtests.py:177-180 | the result is at most 100: the country mean when it is positive, and the sector-budget mean otherwise |
| InfoResultOrgTests.AddBudgetLines | iatidq/inforesult_orgtests.py:298-306 | the line loop equals the fold |
| InfoResultOrgTests.ComputeTotalSectorBudgets | iatidq/inforesult_orgtests.py:282-311 | the loops equal the specification |
| InfoResultOrgTests.Present | iatidq/inforesult_orgtests.py:321 | `text()` gives exactly the texts that exist |
| InfoResultOrgTests.FoundNames | iatidq/inforesult_orgtests.py:323-327 | exactly the sector names that some title contains |
| InfoResultOrgTests.TotalSectorStrategyPapers | iatidq/inforesult_orgtests.py:317-329 | the share of sector names found in a sector-strategy title; no names raise; `InfoResultOrgTests.SectorStrategyPapersRange` bounds it |
| InfoResultOrgTests.SectorTitles | iatidq/inforesult_orgtests.py:321 | the titles searched are exactly the narrative texts of B11 links and of B12 links that are children of the node |
| InfoResultOrgTests.ShareRange | iatidq/inforesult_orgtests.py:329 | a share of a set, as a percentage, lies in 0..100 and is 100 iff it is the whole set |
| InfoResultOrgTests.ShareBounds | iatidq/inforesult_orgtests.py:329 | `found / total * 100` lies in 0..100 when `found <= total`, and is 100 iff they are equal |
| InfoResultOrgTests.SectorStrategyPapersRange | iatidq/inforesult_orgtests.py:317-329 | the score lies in 0..100, and it is 100 iff every sector name occurs in some title |
| InfoResultOrgTests.FoundNamesAdd | iatidq/inforesult_orgtests.py:324-327 | one more name adds one to the count iff some title contains it |
| InfoResultOrgTests.FindInTitles | iatidq/inforesult_orgtests.py:324-327 | the inner title loop, with its `break`, finds the name iff some title contains it |
| InfoResultOrgTests.CountFoundNames | iatidq/inforesult_orgtests.py:322-327 | the loop with its `break` counts each found name once |
| InfoResultOrgTests.ComputeTotalSectorStrategyPapers | iatidq/inforesult_orgtests.py:317-329 | the loops equal the specification |
| InfoResultOrgTests.BudgetHasValue | iatidq/inforesult_orgtests.py:235-241 | True iff the value text parses as a float of at least 1 (so `int()` of it is positive) |
| InfoResultOrgTests.PutCountry | iatidq/inforesult_orgtests.py:267 | dict assignment: the key set gains the code, the entry holds the new name, and the keys stay unique |
| InfoResultOrgTests.AllCountriesFromCodes | iatidq/inforesult_orgtests.py:251-267 | the loop's keys are the keys so far plus the codes of the active budgets |
| InfoResultOrgTests.AllCountries | iatidq/inforesult_orgtests.py:243-268 | the loop over the dated recipient-country budgets from no countries; its contents are stated by `InfoResultOrgTests.AllCountriesAreActiveRecipients` |
| InfoResultOrgTests.AllCountriesAreActiveRecipients | iatidq/inforesult_orgtests.py:243-268 | each code once, and a code appears iff a dated budget for it ends after now and has a value |
| InfoResultOrgTests.ComputeAllCountries | iatidq/inforesult_orgtests.py:243-268 | the loop equals the specification |
| InfoResultOrgTests.GetCountryName | iatidq/inforesult_orgtests.py:226-233 | a given name wins; otherwise the code list's name when the code is in it, else None |
| InfoResultOrgTests.StrategyPapers | iatidq/inforesult_orgtests.py:193 | exactly the document links with category B03 |
| InfoResultOrgTests.CodeMatches | iatidq/inforesult_orgtests.py:202-209 | a paper without `recipient-country` does not match; a missing country code raises (`None.lower()`); a paper whose recipient code is the country's code matches |
| InfoResultOrgTests.PaperMatches | iatidq/inforesult_orgtests.py:202-219 | a raising code test raises, a code match matches without looking at the title, and with no country name only the code decides |
| InfoResultOrgTests.PaperTitleText | iatidq/inforesult_orgtests.py:211-213 | a non-blank title text is searched; an empty or blank one falls back to the first narrative; no title gives the error |
| InfoResultOrgTests.CountryMatchedFrom | iatidq/inforesult_orgtests.py:202-219 | the paper loop keeps a match once made and returns the flag it started with when there are no papers; its meaning is `InfoResultOrgTests.CountryMatchedFromMeaning` |
| InfoResultOrgTests.CountryMatchedFromMeaning | iatidq/inforesult_orgtests.py:202-219 | the paper loop succeeds iff no paper's test raises, and then matches iff some paper matches by recipient code or by name in the title |
| InfoResultOrgTests.RemoveCode | iatidq/inforesult_orgtests.py:207-209 | `pop` removes exactly the entries with that code, and a missing key changes nothing |
| InfoResultOrgTests.UnmatchedFrom | iatidq/inforesult_orgtests.py:197-219 | the country loop only removes countries: what remains is a subset of what was there, no longer |
| InfoResultOrgTests.UnmatchedShrinks | iatidq/inforesult_orgtests.py:197-219 | the remaining countries never outnumber the starting ones |
| InfoResultOrgTests.UnmatchedAreThoseNoPaperMatches | iatidq/inforesult_orgtests.py:197-219 | a country remains iff no strategy paper matches it, by recipient code or by name in the title |
| InfoResultOrgTests.CountryStrategyPapers | iatidq/inforesult_orgtests.py:182-224 | the covered share of the active countries; its range and fallback are stated by `InfoResultOrgTests.CountryStrategyPapersRange` and `InfoResultOrgTests.CountryStrategyPapersFallback` |
| InfoResultOrgTests.CountryStrategyPapersRange | iatidq/inforesult_orgtests.py:182-224 | the score lies in 0..100 |
| InfoResultOrgTests.CountryStrategyPapersFallback | iatidq/inforesult_orgtests.py:221-224 | with no country covered the sector proxy is used; otherwise the result is `100 - 100 · unmatched / total` |
| InfoResultOrgTests.MatchCountry | iatidq/inforesult_orgtests.py:202-219 | the paper loop, with its `continue`, pops the country iff some paper matches it, and raises where the source would |
| InfoResultOrgTests.ComputeCountryStrategyPapers | iatidq/inforesult_orgtests.py:182-224 | the nested loops equal the specification |
| ActivityTests.Find | tests/activity_tests.py:10 | `find` gives the first child, or None exactly when there is none |
| ActivityTests.FirstText | tests/activity_tests.py:10 | `.text` of `find` raises exactly when the child is missing |
| ActivityTests.TextExists | tests/activity_tests.py:5-14 | raises when the element is missing; True iff the first one has a text |
| ActivityTests.TextLongerThan | tests/activity_tests.py:16-25 | raises when the element is missing; True iff the first one has a text longer than `n` |
| ActivityTests.TitleExists | tests/activity_tests.py:5-14 | raises iff there is no `title`; True iff the first `title` has a text |
| ActivityTests.TitleGreaterThan10Characters | tests/activity_tests.py:16-25 | raises iff there is no `title`; True iff the first `title` has a text longer than 10 |
| ActivityTests.DescriptionExists | tests/activity_tests.py:27-36 | raises iff there is no `description`; True iff the first `description` has a text |
| ActivityTests.DescriptionGreaterThan40Characters | tests/activity_tests.py:38-47 | raises iff there is no `description`; True iff the first `description` has a text longer than 40 |
| ActivityTests.LengthChecks | tests/activity_tests.py:16-47 | the title (> 10) and description (> 40) checks: True iff the text exists and is long enough; they raise exactly where the existence checks do |
| ActivityTests.ActivityStatusExists | tests/activity_tests.py:60-69 | True iff there is an `activity-status` child |
| ActivityTests.SectorExists | tests/activity_tests.py:280-289 | True iff there is a `sector` child |
| ActivityTests.DatesOfType | tests/activity_tests.py:92 | exactly the dates of that type |
| ActivityTests.OrgsOfRole | tests/activity_tests.py:136 | exactly the organisations of that role |
| ActivityTests.RecipientRegionAndCountryExists | tests/activity_tests.py:187-200 | False iff the first recipient country and the first recipient region both have child elements (lxml element truthiness) |
| ActivityTests.CheckPercentagesAreValid | tests/activity_tests.py:202-218 | the loop equals the fold in which every element overwrites `check` |
| ActivityTests.PercentagesValidFromLast | tests/activity_tests.py:208-216 | whatever `check` starts as, the loop's answer is decided by the last element alone |
| ActivityTests.LastPercentageDecides | tests/activity_tests.py:202-218 | no elements give True; otherwise False iff the last element has a non-empty percentage that is not an integer |
| ActivityTests.RecipientCountryPercentagesAreValid | tests/activity_tests.py:202-218 | True with no recipient country; otherwise False iff the last one has a non-empty percentage that is not an integer |
| ActivityTests.RecipientRegionPercentagesAreValid | tests/activity_tests.py:241-257 | True with no recipient region; otherwise False iff the last one has a non-empty percentage that is not an integer |
| ActivityTests.CheckPercentagesAddUpTo100 | tests/activity_tests.py:220-239 | the loop equals the fold over (exists, check, amount) |
| ActivityTests.AddUpFromTally | tests/activity_tests.py:229-236 | the fold ends with: some percentage given, all given ones are integers, and the sum of the integer ones |
| ActivityTests.AddUpTo100Iff | tests/activity_tests.py:220-239 | True iff every given percentage is an integer and, when any is given, they sum to exactly 100 (regions: lines 259-278) |
| ActivityTests.RecipientCountryPercentagesAddUpTo100 | tests/activity_tests.py:220-239 | True iff every given country percentage is an integer and, when any is given, they sum to exactly 100 |
| ActivityTests.RecipientRegionPercentagesAddUpTo100 | tests/activity_tests.py:259-278 | True iff every given region percentage is an integer and, when any is given, they sum to exactly 100 |
| ActivityTests.CheckActivityDateIsoDates | tests/activity_tests.py:71-85 | the loop equals the fold, returning at the first raise |
| ActivityTests.IsoDatesFromRaises | tests/activity_tests.py:78-85 | from any starting `check`, the loop raises iff some date has an `iso-date`, and otherwise answers `check` only for no dates |
| ActivityTests.ActivityDateIsoDateExists | tests/activity_tests.py:71-85 | as written, it raises iff some date has an `iso-date`; otherwise it answers True only for an activity without dates |
| ActivityTests.OnlyOneActivityStatus | tests/activity_tests.py:49-58 | always raises: `count` is not defined |
| ActivityTests.MultipleSectorsExist | tests/activity_tests.py:291-300 | always raises: `count` is not defined |
| ActivityTests.OnlyOneActivityStatusCorrected | tests/activity_tests.py:49-58 | with `len`, True iff there is at most one status |
| ActivityTests.MultipleSectorsExistCorrected | tests/activity_tests.py:291-300 | with `len`, True iff there is more than one sector |
| ActivityTests.CountUsersRaise | tests/activity_tests.py:49-58 | one status and two sectors: both as-written checks raise, and both corrected ones answer True |
| ActivityTests.ActivityDateOfTypeExists | tests/activity_tests.py:87-129 | as written, always True |
| ActivityTests.OrganisationOfRoleExists | tests/activity_tests.py:131-173 | as written, always True |
| ActivityTests.ActivityDateOfTypeExistsCorrected | tests/activity_tests.py:87-129 | True iff a date of that type exists |
| ActivityTests.OrganisationOfRoleExistsCorrected | tests/activity_tests.py:131-173 | True iff an organisation of that role exists |
| ActivityTests.XPathChecksAlwaysPass | tests/activity_tests.py:87-173 | an activity with no dates and no organisations passes the as-written checks and fails the corrected ones |
| ActivityTests.RecipientRegionOrCountryExists | tests/activity_tests.py:175-185 | as written: False iff the first recipient country or the first recipient region has child elements |
| ActivityTests.RecipientRegionOrCountryExistsCorrected | tests/activity_tests.py:175-185 | True iff a recipient country or region exists |
| ActivityTests.RecipientCheckInverted | tests/activity_tests.py:175-185 | an activity with neither passes the as-written check; one with a country that has child elements fails it |
| ActivityTests.EarlierBadPercentageIgnored | tests/activity_tests.py:202-218 | percentages `fifty` then `50` pass the as-written loop and fail the all-valid check |
| ActivityTests.AllPercentagesValid | tests/activity_tests.py:202-218 | corrected: every given percentage is an integer; whatever it accepts the as-written loop accepts too |
| ActivityTests.WellFormedDateRaises | tests/activity_tests.py:84 | a well-formed `iso-date` makes the as-written check raise, while the corrected one answers True |
| ActivityTests.IsoDatesCorrectedFromMeaning | tests/activity_tests.py:78-85 | corrected loop from any `check`: raises iff some `iso-date` is malformed; otherwise `check` and every date has an `iso-date` |
| ActivityTests.IsoDateExistsCorrected | tests/activity_tests.py:71-85 | corrected: raises iff some `iso-date` is malformed; otherwise True iff every date has an `iso-date` |

## Left out

- **Modules that are not part of this model: `dqparsetests`, `dqprocessing`, `dqfunctions`, `dqpackages`, `inforesult` and `dqcodelists`.**
  - The calls the pipeline makes into them are recorded as events in call order: VALID_XML, aggregation and TESTED.
  - The four metrics of the `hack` registry are one function parameter of the job. The two organisation metrics are modelled on their own in `InfoResultOrgTests`.
  - The country code list is a map parameter.
- **lxml.** Parsing, serialisation and XPath evaluation are replaced by abstract records and selectors:
  - the rule selector returns None where XPath evaluation raises;
  - the document returns its activities, organisation nodes, identifiers and hierarchy attributes.

  The `//` in the activity predicates and in `total_sector_strategy_papers` searches the whole document. The model takes the elements of the record it is given.
- **The `re` engine.**
  - The five rule templates are modelled as string matchers. These cover the `(\S*)`, `(.*)` and `\?` captures under `re.match`.
  - `re.search(name, title)` in `country_strategy_papers` uses the country name as a regular expression. It is modelled as a literal, ASCII case-insensitive substring test.
- **Strings.** Unicode case folding and Unicode whitespace in `lower()` and `strip()` are not modelled; both are ASCII here.
- **Number parsing and arithmetic.**
  - `float()`, `int()` and `strptime` are abstract partial functions. Their `None` is the ValueError.
  - IEEE rounding, infinities and NaN are not modelled: all arithmetic is on exact reals.
  - The OverflowError of `int(float('inf'))` in `budget_has_value` is not modelled either.
- **Dates.** Dates are integer microseconds. `datetime.now()` and `datetime.utcnow()` are two clock parameters. Datetime overflow is not modelled.
- **Database sessions and transactions.** A flushed `add_results` is one appended batch. `InfoResult` is a list of rows with delete-then-insert. Not modelled:
  - `delete_results`;
  - `record_testrun` and its raw SQL;
  - the queue helpers;
  - the subprocess dispatch of `check_file`;
  - JSON decoding in `dequeue_download`;
  - `print` and `traceback`.
- **Single child elements.**
  - Each budget is taken to have a single `period-end` and a single `value`.
  - The recipient-country text and the first narrative are the only texts read.
  - A missing `value` text and a missing `value` element are one case (`None`). Both raise, or both give False, wherever the source reads them.
- **Transaction tests.** The selection of `transaction` children in `test_elements` is not modelled, because those tests never run.
- **Test levels.** Only the activity level (1) is compiled by `generate_test_functions`. The other level codes are the `Level` datatype.
- **TestQueue.Pipeline.\* method contracts relate the new state to `old` state.** The properties of the pipeline are stated on the specification functions and proved in the lemmas beside them.

## Findings

| source | as written | input that shows it | evidently intended | confidence | as-written member | corrected member |
|---|---|---|---|---|---|---|
| tests/activity_tests.py:49-58 | `count(thestatus)` calls a function that is not defined, so the check always raises a NameError | an activity with one `activity-status` | `len(thestatus) <= 1` | high, not executed | ActivityTests.OnlyOneActivityStatus | ActivityTests.OnlyOneActivityStatusCorrected |
| tests/activity_tests.py:291-300 | `count(thesector)` is undefined, so the check always raises | an activity with two `sector` children | `len(thesector) > 1` | high, not executed | ActivityTests.MultipleSectorsExist | ActivityTests.MultipleSectorsExistCorrected |
| tests/activity_tests.py:87-173 | `xpath` returns a list, so `thedate is None` / `theorg is None` never holds and all eight checks return True | an activity with no `activity-date` and no `participating-org` | True iff the selection is non-empty | high, not executed | ActivityTests.ActivityDateOfTypeExists | ActivityTests.ActivityDateOfTypeExistsCorrected |
| tests/activity_tests.py:131-173 | as the row above, for the four organisation roles | an activity with no `participating-org` | True iff an organisation of the role exists | high, not executed | ActivityTests.OrganisationOfRoleExists | ActivityTests.OrganisationOfRoleExistsCorrected |
| tests/activity_tests.py:175-185 | the answers are the wrong way round: True when neither a country nor a region is there; and element truthiness means child elements, not presence | an activity with no recipient country or region gives True | True iff a recipient country or region exists | high, not executed | ActivityTests.RecipientRegionOrCountryExists | ActivityTests.RecipientRegionOrCountryExistsCorrected |
| tests/activity_tests.py:202-218 | every element overwrites `check`, so only the last element's percentage decides | percentages `fifty`, then `50`, give True | False when any given percentage is not an integer | high, not executed | ActivityTests.EarlierBadPercentageIgnored | ActivityTests.AllPercentagesValid |
| tests/activity_tests.py:1, 84 | `time` is `datetime.time`, which has no `strptime`, so every date with an `iso-date` raises an AttributeError | one date with `iso-date="2012-01-01"` | `time.strptime` of the `time` module: a malformed date raises, and the check is True iff every date has an `iso-date` | high, not executed | ActivityTests.WellFormedDateRaises | ActivityTests.IsoDateExistsCorrected |
