/** The organisation-level info metrics: forward budgets per year, recipient
    country budgets as a share of the total budget, country strategy papers,
    and the sector proxies used when a publisher reports no country data.
    Dates are integer microseconds; `now` and `utcnow` are given. */
module InfoResultOrgTests {
  import opened Base

  /** One day, in microseconds. */
  const DAY: int := 86_400_000_000

  /** The years a forward budget can fall in: the current one (0) and the next three. */
  const Years: seq<nat> := [0, 1, 2, 3]

  /** `datetime.datetime.now()` and `datetime.datetime.utcnow()`. */
  datatype Clock = Clock(now: int, utcNow: int)

  /** What the metrics take from outside: the clock, `float()`/`int()`,
      `strptime(s, "%Y-%m-%d")` (None when it raises) and the `countriesbasic`
      code list. */
  datatype Env = Env(clock: Clock, parsers: Parsers, isoDate: string -> Option<int>, countryNames: map<string, string>)

  /** A `budget-line`: its `ref`, the first `narrative` text and the `value`
      text (None where an element or its text is missing). */
  datatype BudgetLine = BudgetLine(ref: Option<string>, name: Option<string>, value: Option<string>)

  /** A `total-budget`: whether it has a `period-start`, the `iso-date` of its
      `period-end`, the text of its `value`, and its budget lines. */
  datatype TotalBudget = TotalBudget(hasPeriodStart: bool, periodEnd: Option<string>, value: Option<string>, lines: seq<BudgetLine>)

  /** A `recipient-country` element: `code`, its own text, and the text of its
      first `narrative` (outer None when it has none). */
  datatype Recipient = Recipient(code: Option<string>, text: Option<string>, narrative: Option<Option<string>>)

  /** A `recipient-country-budget`. */
  datatype CountryBudget = CountryBudget(periodEnd: Option<string>, value: Option<string>, recipient: Option<Recipient>)

  /** A `title`: its own text and the texts of its `narrative` children. */
  datatype Title = Title(text: Option<string>, narratives: seq<Option<string>>)

  /** A `document-link`: its category codes, the `code` of its first
      `recipient-country` (outer None when it has none), its titles, and
      whether it is a direct child of the node the metric is given. */
  datatype DocumentLink = DocumentLink(categories: seq<string>, recipient: Option<Option<string>>, titles: seq<Title>, isChild: bool)

  /** The parts of an organisation file the metrics read, in document order. */
  datatype OrgDoc = OrgDoc(totalBudgets: seq<TotalBudget>, countryBudgets: seq<CountryBudget>, documentLinks: seq<DocumentLink>)

  // ---------------------------------------------------------------------
  // Values and dates

  /** `fixVal`: parse the text; else parse it without commas; else parse that
      without `.0` (an error there propagates).  No text at all is a TypeError,
      which the first step does not catch. */
  function FixVal(p: Parsers, value: Option<string>): (r: Result<real>)
    ensures value.None? ==> r == Raise
    ensures value.Some? ==>
      var s := value.value;
      var noCommas := RemoveChar(s, ',');
      (p.toFloat(s).Some? ==> r == Ok(p.toFloat(s).value)) &&
      (p.toFloat(s).None? && p.toFloat(noCommas).Some? ==> r == Ok(p.toFloat(noCommas).value)) &&
      (p.toFloat(s).None? && p.toFloat(noCommas).None? ==> r == (match p.toFloat(RemoveDotZero(noCommas))
                                                                  case None => Raise
                                                                  case Some(v) => Ok(v)))
  {
    match value
    case None => Raise
    case Some(s) =>
      match p.toFloat(s)
      case Some(v) => Ok(v)
      case None =>
        var noCommas := RemoveChar(s, ',');
        match p.toFloat(noCommas)
        case Some(v) => Ok(v)
        case None =>
          match p.toFloat(RemoveDotZero(noCommas))
          case Some(v) => Ok(v)
          case None => Raise
  }

  lemma RemoveCommaAfterOne(s: string)
    requires |s| == 8 && s[0] == '1' && s[1] == ',' && s[2..] == "234.00"
    ensures RemoveChar(s, ',') == "1234.00"
  {
    assert s[1..][1..] == s[2..];
    assert RemoveChar(s[2..], ',') == s[2..];
  }

  /** "1,234.00" is read after its comma is dropped. */
  lemma FixValDropsCommas(p: Parsers)
    requires p.toFloat("1,234.00").None? && p.toFloat("1234.00") == Some(1234.0)
    ensures FixVal(p, Some("1,234.00")) == Ok(1234.0)
  {
    RemoveCommaAfterOne("1,234.00");
  }

  /** "1.000.00", which no float parser accepts, is read as "1000". */
  lemma FixValDropsDotZeros(p: Parsers)
    requires p.toFloat("1.000.00").None? && p.toFloat("1000") == Some(1000.0)
    ensures FixVal(p, Some("1.000.00")) == Ok(1000.0)
  {
    var s := "1.000.00";
    assert RemoveChar(s, ',') == s by {
      assert ',' !in s;
    }
    RemoveDotZerosExample();
  }

  lemma RemoveDotZerosExample()
    ensures RemoveDotZero("1.000.00") == "1000"
  {
    DotZeroKeep("0");
    assert "0"[1..] == [];
    DotZeroSkip(".00");
    assert ".00"[2..] == "0";
    DotZeroKeep("0.00");
    assert "0.00"[1..] == ".00";
    DotZeroKeep("00.00");
    assert "00.00"[1..] == "0.00";
    DotZeroSkip(".000.00");
    assert ".000.00"[2..] == "00.00";
    DotZeroKeep("1.000.00");
    assert "1.000.00"[1..] == ".000.00";
  }

  lemma DotZeroSkip(s: string)
    requires |s| >= 2 && s[0] == '.' && s[1] == '0'
    ensures RemoveDotZero(s) == RemoveDotZero(s[2..])
  {
  }

  lemma DotZeroKeep(s: string)
    requires s != [] && !(|s| >= 2 && s[0] == '.' && s[1] == '0')
    ensures RemoveDotZero(s) == [s[0]] + RemoveDotZero(s[1..])
  {
  }

  /** `date_later_than_now`: a date that does not parse is not later. */
  function DateLaterThanNow(env: Env, date: Option<string>): (r: bool)
    ensures r <==> date.Some? && env.isoDate(date.value).Some? && env.isoDate(date.value).value > env.clock.utcNow
  {
    match date
    case None => false
    case Some(d) =>
      match env.isoDate(d)
      case None => false
      case Some(t) => t > env.clock.utcNow
  }

  /** The start of the window of `year`: `now + (180 + 365 * (year - 1))` days. */
  function WindowStart(now: int, year: int): int
  {
    now + (180 + 365 * (year - 1)) * DAY
  }

  /** `budget_within_year_scope`: the end date lies strictly inside the 365-day
      window that starts `180 + 365 * (year - 1)` days from now. */
  function BudgetWithinYearScope(env: Env, budgetEnd: Option<string>, year: int): (r: bool)
    ensures r <==> (budgetEnd.Some? && env.isoDate(budgetEnd.value).Some? &&
                    WindowStart(env.clock.now, year) < env.isoDate(budgetEnd.value).value < WindowStart(env.clock.now, year) + 365 * DAY)
  {
    match budgetEnd
    case None => false
    case Some(e) =>
      match env.isoDate(e)
      case None => false
      case Some(t) =>
        var future := (180 + 365 * (year - 1)) * DAY;
        var futurePlusOneYear := future + 365 * DAY;
        t > env.clock.now + future && t < env.clock.now + futurePlusOneYear
  }

  lemma WindowStartStep(now: int, a: int, b: int)
    requires a < b
    ensures WindowStart(now, a) + 365 * DAY <= WindowStart(now, b)
  {
    assert (180 + 365 * (b - 1)) * DAY - (180 + 365 * (a - 1)) * DAY == 365 * (b - a) * DAY;
  }

  /** A budget end falls in at most one year. */
  lemma ScopedYearIsUnique(env: Env, budgetEnd: Option<string>, y1: int, y2: int)
    requires BudgetWithinYearScope(env, budgetEnd, y1) && BudgetWithinYearScope(env, budgetEnd, y2)
    ensures y1 == y2
  {
    if y1 < y2 {
      WindowStartStep(env.clock.now, y1, y2);
    } else if y2 < y1 {
      WindowStartStep(env.clock.now, y2, y1);
    }
  }

  /** The bounds are exclusive: an end date exactly on a window start is in no year. */
  lemma WindowStartIsInNoYear(env: Env, budgetEnd: string, year: int, other: int)
    requires env.isoDate(budgetEnd) == Some(WindowStart(env.clock.now, year))
    ensures !BudgetWithinYearScope(env, Some(budgetEnd), other)
  {
    if other < year {
      WindowStartStep(env.clock.now, other, year);
    } else if year < other {
      WindowStartStep(env.clock.now, year, other);
    }
  }

  // ---------------------------------------------------------------------
  // total_future_budgets

  /** `out[year]`: whether a total budget ends in that year, and its amount. */
  datatype YearBudget = YearBudget(available: bool, amount: real)

  /** `//total-budget[period-end/@iso-date]` */
  function DatedTotalBudgets(budgets: seq<TotalBudget>): (r: seq<TotalBudget>)
    ensures forall b :: b in r <==> b in budgets && b.periodEnd.Some?
  {
    if budgets == [] then []
    else (if budgets[0].periodEnd.Some? then [budgets[0]] else []) + DatedTotalBudgets(budgets[1..])
  }

  /** `get_budget_per_year` over the remaining budgets, from the entry so far:
      reading a missing `period-start` raises, and each in-scope budget
      replaces the entry. */
  function YearBudgetFrom(env: Env, entry: YearBudget, budgets: seq<TotalBudget>, year: int): (r: Result<YearBudget>)
    ensures r.Ok? ==> r.value == entry || r.value.available
    ensures r.Ok? ==> forall j :: 0 <= j < |budgets| ==> budgets[j].hasPeriodStart
    decreases |budgets|
  {
    if budgets == [] then Ok(entry)
    else
      var tb := budgets[0];
      if !tb.hasPeriodStart then Raise
      else if BudgetWithinYearScope(env, tb.periodEnd, year) then
        match FixVal(env.parsers, tb.value)
        case Raise => Raise
        case Ok(amount) => YearBudgetFrom(env, YearBudget(true, amount), budgets[1..], year)
      else YearBudgetFrom(env, entry, budgets[1..], year)
  }

  /** `get_budgets` for the remaining years, after the entries so far: each
      year's entry is the fold of that year from `{available: False, amount: 0}`,
      and the metric raises iff some year's fold does. */
  function FutureBudgetsFrom(env: Env, budgets: seq<TotalBudget>, years: seq<nat>, out: seq<YearBudget>): (r: Result<seq<YearBudget>>)
    ensures r.Ok? ==> |r.value| == |out| + |years| && r.value[..|out|] == out
    ensures r.Ok? ==> forall i :: 0 <= i < |years| ==>
      YearBudgetFrom(env, YearBudget(false, 0.0), budgets, years[i]) == Ok(r.value[|out| + i])
    ensures r.Raise? <==> exists i :: 0 <= i < |years| && YearBudgetFrom(env, YearBudget(false, 0.0), budgets, years[i]).Raise?
    decreases |years|
  {
    if years == [] then Ok(out)
    else
      match YearBudgetFrom(env, YearBudget(false, 0.0), budgets, years[0])
      case Raise => Raise
      case Ok(entry) =>
        var r := FutureBudgetsFrom(env, budgets, years[1..], out + [entry]);
        assert r.Ok? ==> r.value[..|out|] == (r.value[..|out| + 1])[..|out|] && r.value[|out|] == entry;
        assert forall i :: 1 <= i < |years| ==> years[i] == years[1..][i - 1];
        r
  }

  /** `total_future_budgets`: entry `y` of the result is `out[y]`, the fold of
      year `y` over the dated total budgets, and the metric raises iff one of
      the four folds does. */
  function TotalFutureBudgets(env: Env, doc: OrgDoc): (r: Result<seq<YearBudget>>)
    ensures r.Ok? ==> |r.value| == 4
    ensures r.Ok? ==> forall y :: 0 <= y < 4 ==>
      YearBudgetFrom(env, YearBudget(false, 0.0), DatedTotalBudgets(doc.totalBudgets), y) == Ok(r.value[y])
    ensures r.Raise? ==> exists y :: 0 <= y < 4 && YearBudgetFrom(env, YearBudget(false, 0.0), DatedTotalBudgets(doc.totalBudgets), y).Raise?
    ensures (exists y :: 0 <= y < 4 && YearBudgetFrom(env, YearBudget(false, 0.0), DatedTotalBudgets(doc.totalBudgets), y).Raise?) ==> r.Raise?
  {
    var dated := DatedTotalBudgets(doc.totalBudgets);
    var r := FutureBudgetsFrom(env, dated, Years, []);
    assert forall i :: 0 <= i < 4 ==> Years[i] == i;
    assert r.Raise? ==> exists y :: 0 <= y < 4 && YearBudgetFrom(env, YearBudget(false, 0.0), dated, y).Raise? by {
      if r.Raise? {
        var i :| 0 <= i < |Years| && YearBudgetFrom(env, YearBudget(false, 0.0), dated, Years[i]).Raise?;
        assert Years[i] == i;
      }
    }
    assert (exists y :: 0 <= y < 4 && YearBudgetFrom(env, YearBudget(false, 0.0), dated, y).Raise?) ==> r.Raise? by {
      if exists y :: 0 <= y < 4 && YearBudgetFrom(env, YearBudget(false, 0.0), dated, y).Raise? {
        var y :| 0 <= y < 4 && YearBudgetFrom(env, YearBudget(false, 0.0), dated, y).Raise?;
        assert YearBudgetFrom(env, YearBudget(false, 0.0), dated, Years[y]).Raise?;
      }
    }
    r
  }

  /** The last in-scope budget, in document order, supplies the year's amount. */
  lemma {:induction false} LastInScopeBudgetWins(env: Env, entry: YearBudget, budgets: seq<TotalBudget>, year: int, k: nat)
    requires k < |budgets| && BudgetWithinYearScope(env, budgets[k].periodEnd, year)
    requires forall j :: k < j < |budgets| ==> !BudgetWithinYearScope(env, budgets[j].periodEnd, year)
    requires YearBudgetFrom(env, entry, budgets, year).Ok?
    ensures FixVal(env.parsers, budgets[k].value).Ok?
    ensures YearBudgetFrom(env, entry, budgets, year) == Ok(YearBudget(true, FixVal(env.parsers, budgets[k].value).value))
    decreases k
  {
    var tb := budgets[0];
    if k == 0 {
      var amount := FixVal(env.parsers, tb.value).value;
      NoInScopeBudgetKeepsEntry(env, YearBudget(true, amount), budgets[1..], year);
    } else if BudgetWithinYearScope(env, tb.periodEnd, year) {
      LastInScopeBudgetWins(env, YearBudget(true, FixVal(env.parsers, tb.value).value), budgets[1..], year, k - 1);
    } else {
      LastInScopeBudgetWins(env, entry, budgets[1..], year, k - 1);
    }
  }

  /** A year no budget falls in keeps its entry. */
  lemma {:induction false} NoInScopeBudgetKeepsEntry(env: Env, entry: YearBudget, budgets: seq<TotalBudget>, year: int)
    requires forall j :: 0 <= j < |budgets| ==> !BudgetWithinYearScope(env, budgets[j].periodEnd, year)
    requires YearBudgetFrom(env, entry, budgets, year).Ok?
    ensures YearBudgetFrom(env, entry, budgets, year) == Ok(entry)
  {
    if budgets != [] {
      NoInScopeBudgetKeepsEntry(env, entry, budgets[1..], year);
    }
  }

  /** A dated total budget without `period-start` makes the metric raise. */
  lemma {:induction false} MissingPeriodStartRaises(env: Env, entry: YearBudget, budgets: seq<TotalBudget>, year: int, k: nat)
    requires k < |budgets| && !budgets[k].hasPeriodStart
    ensures YearBudgetFrom(env, entry, budgets, year) == Raise
    decreases k
  {
    var tb := budgets[0];
    if k > 0 && tb.hasPeriodStart {
      if BudgetWithinYearScope(env, tb.periodEnd, year) && FixVal(env.parsers, tb.value).Ok? {
        MissingPeriodStartRaises(env, YearBudget(true, FixVal(env.parsers, tb.value).value), budgets[1..], year, k - 1);
      } else if !BudgetWithinYearScope(env, tb.periodEnd, year) {
        MissingPeriodStartRaises(env, entry, budgets[1..], year, k - 1);
      }
    }
  }

  /** A year in which no dated total budget ends is `{available: False, amount: 0}`. */
  lemma NoBudgetInYearIsUnavailable(env: Env, doc: OrgDoc, y: nat)
    requires y < 4 && TotalFutureBudgets(env, doc).Ok?
    requires forall b :: b in doc.totalBudgets && b.periodEnd.Some? ==> !BudgetWithinYearScope(env, b.periodEnd, y)
    ensures TotalFutureBudgets(env, doc).value[y] == YearBudget(false, 0.0)
  {
    var dated := DatedTotalBudgets(doc.totalBudgets);
    assert forall j :: 0 <= j < |dated| ==> dated[j] in dated;
    NoInScopeBudgetKeepsEntry(env, YearBudget(false, 0.0), dated, y);
  }

  /** The last dated total budget, in document order, that ends in year `y`
      supplies that year's amount. */
  lemma LastBudgetInYearSuppliesAmount(env: Env, doc: OrgDoc, y: nat, k: nat)
    requires y < 4 && TotalFutureBudgets(env, doc).Ok?
    requires var dated := DatedTotalBudgets(doc.totalBudgets);
      k < |dated| && BudgetWithinYearScope(env, dated[k].periodEnd, y) &&
      forall j :: k < j < |dated| ==> !BudgetWithinYearScope(env, dated[j].periodEnd, y)
    ensures FixVal(env.parsers, DatedTotalBudgets(doc.totalBudgets)[k].value).Ok?
    ensures TotalFutureBudgets(env, doc).value[y] ==
      YearBudget(true, FixVal(env.parsers, DatedTotalBudgets(doc.totalBudgets)[k].value).value)
  {
    LastInScopeBudgetWins(env, YearBudget(false, 0.0), DatedTotalBudgets(doc.totalBudgets), y, k);
  }

  /** `total_future_budgets`, with its loops. */
  method ComputeTotalFutureBudgets(env: Env, doc: OrgDoc) returns (out: Result<seq<YearBudget>>)
    ensures out == TotalFutureBudgets(env, doc)
  {
    var totalBudgets := DatedTotalBudgets(doc.totalBudgets);
    var years := Years;
    var table: seq<YearBudget> := [];
    for y := 0 to |years|
      invariant FutureBudgetsFrom(env, totalBudgets, years[y..], table) == TotalFutureBudgets(env, doc)
    {
      var year := years[y];
      var entry := YearBudget(false, 0.0);
      for i := 0 to |totalBudgets|
        invariant YearBudgetFrom(env, entry, totalBudgets[i..], year) ==
                  YearBudgetFrom(env, YearBudget(false, 0.0), totalBudgets, year)
      {
        var tb := totalBudgets[i];
        if !tb.hasPeriodStart {
          return Raise;
        }
        if BudgetWithinYearScope(env, tb.periodEnd, year) {
          var amount := FixVal(env.parsers, tb.value);
          if amount.Raise? {
            return Raise;
          }
          entry := YearBudget(true, amount.value);
        }
        assert totalBudgets[i..][1..] == totalBudgets[i + 1..];
      }
      table := table + [entry];
    }
    return Ok(table);
  }

  // ---------------------------------------------------------------------
  // total_budgets_available

  /** How many of the entries are available. */
  function CountAvailable(entries: seq<YearBudget>): (n: nat)
    ensures n <= |entries|
    ensures n == |entries| <==> forall i :: 0 <= i < |entries| ==> entries[i].available
  {
    if entries == [] then 0 else (if entries[0].available then 1 else 0) + CountAvailable(entries[1..])
  }

  /** `total_budgets_available`: the share of the three forward years (year 0
      excluded) that have a budget. */
  function TotalBudgetsAvailable(env: Env, doc: OrgDoc): (r: Result<real>)
    ensures r.Ok? <==> TotalFutureBudgets(env, doc).Ok?
    ensures r.Ok? ==> r.value == CountAvailable(TotalFutureBudgets(env, doc).value[1..]) as real / 3.0 * 100.0
  {
    match TotalFutureBudgets(env, doc)
    case Raise => Raise
    case Ok(futureYears) => Ok(CountAvailable(futureYears[1..]) as real / 3.0 * 100.0)
  }

  /** The score is one of 0, 100/3, 200/3 and 100; it is 100 exactly when each
      forward year has a budget. */
  lemma TotalBudgetsAvailableValues(env: Env, doc: OrgDoc)
    requires TotalBudgetsAvailable(env, doc).Ok?
    ensures var v := TotalBudgetsAvailable(env, doc).value;
      v == 0.0 || v == 100.0 / 3.0 || v == 200.0 / 3.0 || v == 100.0
    ensures TotalBudgetsAvailable(env, doc).value == 100.0 <==>
      forall y :: 1 <= y <= 3 ==> TotalFutureBudgets(env, doc).value[y].available
  {
    var fy := TotalFutureBudgets(env, doc).value;
    var n := CountAvailable(fy[1..]);
    assert n <= 3;
    assert n == 3 <==> forall i :: 0 <= i < 3 ==> fy[1..][i].available;
    if n == 3 {
      forall y | 1 <= y <= 3 ensures fy[y].available {
        assert fy[1..][y - 1] == fy[y];
      }
    }
    if forall y :: 1 <= y <= 3 ==> fy[y].available {
      forall i | 0 <= i < 3 ensures fy[1..][i].available {
        assert fy[1..][i] == fy[i + 1];
      }
    }
  }

  /** `total_budgets_available`, with its counting loop. */
  method ComputeTotalBudgetsAvailable(env: Env, doc: OrgDoc) returns (r: Result<real>)
    ensures r == TotalBudgetsAvailable(env, doc)
  {
    var futureYears := ComputeTotalFutureBudgets(env, doc);
    if futureYears.Raise? {
      return Raise;
    }
    var entries := futureYears.value[1..];
    var available := 0;
    for i := 0 to |entries|
      invariant available + CountAvailable(entries[i..]) == CountAvailable(entries)
    {
      assert entries[i..][1..] == entries[i + 1..];
      if entries[i].available {
        available := available + 1;
      }
    }
    return Ok(available as real / 3.0 * 100.0);
  }

  // ---------------------------------------------------------------------
  // total_country_budgets

  /** The amounts of the year entries, in year order. */
  function Amounts(entries: seq<YearBudget>): (r: seq<real>)
    ensures |r| == |entries| && forall i :: 0 <= i < |r| ==> r[i] == entries[i].amount
  {
    seq(|entries|, i requires 0 <= i < |entries| => entries[i].amount)
  }

  /** `get_a_total_budget_over_zero`: the first positive amount in year order,
      or 0 when there is none. */
  function FirstPositive(amounts: seq<real>): (r: real)
    ensures r >= 0.0
    ensures r == 0.0 <==> forall i :: 0 <= i < |amounts| ==> amounts[i] <= 0.0
    ensures r > 0.0 ==> exists i :: 0 <= i < |amounts| && amounts[i] == r && forall j :: 0 <= j < i ==> amounts[j] <= 0.0
  {
    if amounts == [] then 0.0
    else if amounts[0] > 0.0 then amounts[0]
    else
      var r := FirstPositive(amounts[1..]);
      assert r > 0.0 ==> exists i :: 0 <= i < |amounts| && amounts[i] == r && forall j :: 0 <= j < i ==> amounts[j] <= 0.0 by {
        if r > 0.0 {
          var i :| 0 <= i < |amounts[1..]| && amounts[1..][i] == r && forall j :: 0 <= j < i ==> amounts[1..][j] <= 0.0;
          assert forall j :: 0 <= j < i + 1 ==> amounts[j] <= 0.0 by {
            forall j | 0 <= j < i + 1 ensures amounts[j] <= 0.0 {
              if j > 0 {
                assert amounts[j] == amounts[1..][j - 1];
              }
            }
          }
        }
      }
      assert r == 0.0 <==> forall i :: 0 <= i < |amounts| ==> amounts[i] <= 0.0 by {
        assert forall i :: 0 < i < |amounts| ==> amounts[i] == amounts[1..][i - 1];
      }
      r
  }

  /** `get_a_total_budget_over_zero`, with its early-returning loop. */
  method GetATotalBudgetOverZero(totalBudgets: seq<YearBudget>) returns (r: real)
    ensures r == FirstPositive(Amounts(totalBudgets))
  {
    ghost var amounts := Amounts(totalBudgets);
    for i := 0 to |totalBudgets|
      invariant FirstPositive(amounts[i..]) == FirstPositive(amounts)
    {
      if totalBudgets[i].amount > 0.0 {
        return totalBudgets[i].amount;
      }
      assert amounts[i..][1..] == amounts[i + 1..];
    }
    return 0.0;
  }

  /** The share of a total budget given to countries that `getCPAAdjustedPercentage` works with. */
  const CPA: real := 0.2136

  /** `getCPAAdjustedPercentage`: the country sum as a percentage of the
      CPA-adjusted total, with values above 100 brought down to 100; a zero total
      is a ZeroDivisionError. */
  function CpaAdjustedPercentage(totalCountries: real, totalYear: real): (r: Result<real>)
    ensures r.Raise? <==> totalYear == 0.0
    ensures r.Ok? ==> r.value <= 100.0
    ensures r.Ok? && totalCountries / (totalYear * CPA) * 100.0 <= 100.0 ==> r.value == totalCountries / (totalYear * CPA) * 100.0
    ensures r.Ok? && totalCountries / (totalYear * CPA) * 100.0 > 100.0 ==> r.value == 100.0
  {
    var totalCpaAdjusted := totalYear * CPA;
    if totalCpaAdjusted == 0.0 then Raise
    else
      var percentage := totalCountries / totalCpaAdjusted * 100.0;
      if percentage > 100.0 then Ok(100.0) else Ok(percentage)
  }

  /** The `total_pct` of one year in `generate_total_years_data`: a zero total
      retries with the fallback denominator, and a zero fallback gives 0. */
  function YearPercentage(countrySum: real, total: real, fallback: real): (r: real)
    ensures r <= 100.0
  {
    match CpaAdjustedPercentage(countrySum, total)
    case Ok(p) => p
    case Raise =>
      match CpaAdjustedPercentage(countrySum, fallback)
      case Ok(p) => p
      case Raise => 0.0
  }

  /** Which denominator a year's percentage uses. */
  lemma YearPercentageDenominator(countrySum: real, total: real, fallback: real)
    ensures total != 0.0 ==> Ok(YearPercentage(countrySum, total, fallback)) == CpaAdjustedPercentage(countrySum, total)
    ensures total == 0.0 && fallback != 0.0 ==>
      Ok(YearPercentage(countrySum, total, fallback)) == CpaAdjustedPercentage(countrySum, fallback)
    ensures total == 0.0 && fallback == 0.0 ==> YearPercentage(countrySum, total, fallback) == 0.0
  {
  }

  /** `budgetdata['countries'][code]`: the name seen first and the value text per year. */
  datatype CountryEntry = CountryEntry(name: Option<string>, values: map<nat, string>)

  /** The parts of `budgetdata` the year loops fill in. */
  datatype CountryTotals = CountryTotals(countries: map<Option<string>, CountryEntry>, totalAmount: seq<real>)

  /** What `total_country_budgets` returns. */
  datatype CountryBudgetData = CountryBudgetData(numCountries: nat, totalAmount: seq<real>, totalPct: seq<real>,
                                                 totalPctAllYears: real, countries: map<Option<string>, CountryEntry>)

  /** `//recipient-country-budget[period-end/@iso-date]` */
  function DatedCountryBudgets(budgets: seq<CountryBudget>): (r: seq<CountryBudget>)
    ensures forall b :: b in r <==> b in budgets && b.periodEnd.Some?
  {
    if budgets == [] then []
    else (if budgets[0].periodEnd.Some? then [budgets[0]] else []) + DatedCountryBudgets(budgets[1..])
  }

  /** The `code` of the budget's `recipient-country`, or None. */
  function RecipientCode(b: CountryBudget): Option<string>
  {
    if b.recipient.Some? then b.recipient.value.code else None
  }

  /** The text of the budget's `recipient-country`, or None. */
  function RecipientText(b: CountryBudget): Option<string>
  {
    if b.recipient.Some? then b.recipient.value.text else None
  }

  /** `get_country_data` over the remaining budgets for one year. */
  function CountryYearFrom(env: Env, acc: CountryTotals, budgets: seq<CountryBudget>, year: nat): (r: Result<CountryTotals>)
    requires year < |acc.totalAmount|
    ensures r.Ok? ==> |r.value.totalAmount| == |acc.totalAmount|
    decreases |budgets|
  {
    if budgets == [] then Ok(acc)
    else
      var b := budgets[0];
      if !BudgetWithinYearScope(env, b.periodEnd, year) then CountryYearFrom(env, acc, budgets[1..], year)
      else
        match b.value
        case None => Raise
        case Some(v) =>
          var code := RecipientCode(b);
          var entry := if code in acc.countries then acc.countries[code].(values := acc.countries[code].values[year := v])
                       else CountryEntry(RecipientText(b), map[year := v]);
          match FixVal(env.parsers, b.value)
          case Raise => Raise
          case Ok(amount) =>
            CountryYearFrom(env, CountryTotals(acc.countries[code := entry], acc.totalAmount[year := acc.totalAmount[year] + amount]),
                            budgets[1..], year)
  }

  /** `make_country_budget` for the remaining years. */
  function CountryYearsFrom(env: Env, acc: CountryTotals, budgets: seq<CountryBudget>, years: seq<nat>): (r: Result<CountryTotals>)
    requires forall i :: 0 <= i < |years| ==> years[i] < |acc.totalAmount|
    ensures r.Ok? ==> |r.value.totalAmount| == |acc.totalAmount|
    decreases |years|
  {
    if years == [] then Ok(acc)
    else
      match CountryYearFrom(env, acc, budgets, years[0])
      case Raise => Raise
      case Ok(next) => CountryYearsFrom(env, next, budgets, years[1..])
  }

  /** The sum of `fixVal` of the values of the budgets in scope for `year`;
      it raises where one of those `fixVal` calls does. */
  function InScopeCountrySum(env: Env, budgets: seq<CountryBudget>, year: nat): Result<real>
  {
    if budgets == [] then Ok(0.0)
    else if !BudgetWithinYearScope(env, budgets[0].periodEnd, year) then InScopeCountrySum(env, budgets[1..], year)
    else
      match FixVal(env.parsers, budgets[0].value)
      case Raise => Raise
      case Ok(amount) =>
        match InScopeCountrySum(env, budgets[1..], year)
        case Raise => Raise
        case Ok(rest) => Ok(amount + rest)
  }

  /** The recipient codes of the budgets in scope for `year`. */
  function InScopeCodes(env: Env, budgets: seq<CountryBudget>, year: nat): set<Option<string>>
  {
    set b | b in budgets && BudgetWithinYearScope(env, b.periodEnd, year) :: RecipientCode(b)
  }

  lemma InScopeCodesCons(env: Env, budgets: seq<CountryBudget>, year: nat)
    requires budgets != []
    ensures InScopeCodes(env, budgets, year) ==
      (if BudgetWithinYearScope(env, budgets[0].periodEnd, year) then {RecipientCode(budgets[0])} else {}) +
      InScopeCodes(env, budgets[1..], year)
  {
    assert forall b :: b in budgets <==> b == budgets[0] || b in budgets[1..];
  }

  /** One year of `get_country_data` calls: it raises iff the in-scope sum
      does (a missing value raises as `fixVal` does); otherwise that year's
      total grows by exactly the in-scope sum, the other years keep theirs, and
      the countries gain exactly the codes of the in-scope budgets. */
  lemma {:induction false} CountryYearTotals(env: Env, acc: CountryTotals, budgets: seq<CountryBudget>, year: nat)
    requires year < |acc.totalAmount|
    ensures CountryYearFrom(env, acc, budgets, year).Ok? <==> InScopeCountrySum(env, budgets, year).Ok?
    ensures CountryYearFrom(env, acc, budgets, year).Ok? ==>
      var t := CountryYearFrom(env, acc, budgets, year).value;
      t.totalAmount[year] == acc.totalAmount[year] + InScopeCountrySum(env, budgets, year).value &&
      (forall y :: 0 <= y < |acc.totalAmount| && y != year ==> t.totalAmount[y] == acc.totalAmount[y]) &&
      t.countries.Keys == acc.countries.Keys + InScopeCodes(env, budgets, year)
    decreases |budgets|
  {
    if budgets != [] {
      var b := budgets[0];
      InScopeCodesCons(env, budgets, year);
      if !BudgetWithinYearScope(env, b.periodEnd, year) {
        CountryYearTotals(env, acc, budgets[1..], year);
      } else if b.value.Some? && FixVal(env.parsers, b.value).Ok? {
        var v := b.value.value;
        var code := RecipientCode(b);
        var entry := if code in acc.countries then acc.countries[code].(values := acc.countries[code].values[year := v])
                     else CountryEntry(RecipientText(b), map[year := v]);
        var amount := FixVal(env.parsers, b.value).value;
        CountryYearTotals(env, CountryTotals(acc.countries[code := entry], acc.totalAmount[year := acc.totalAmount[year] + amount]),
                          budgets[1..], year);
      }
    }
  }

  /** The recipient codes of the budgets in scope for one of `years`. */
  function YearsCodes(env: Env, budgets: seq<CountryBudget>, years: seq<nat>): set<Option<string>>
  {
    if years == [] then {} else InScopeCodes(env, budgets, years[0]) + YearsCodes(env, budgets, years[1..])
  }

  predicate Distinct(years: seq<nat>)
  {
    forall i, j :: 0 <= i < j < |years| ==> years[i] != years[j]
  }

  /** `make_country_budget` over the years: it raises iff some year's in-scope
      sum does; otherwise, over distinct years, each visited year's total grows
      by its in-scope sum, every other year keeps its total, and the countries
      gain exactly the codes in scope for one of the years. */
  lemma {:induction false} CountryYearsTotals(env: Env, acc: CountryTotals, budgets: seq<CountryBudget>, years: seq<nat>)
    requires forall i :: 0 <= i < |years| ==> years[i] < |acc.totalAmount|
    ensures CountryYearsFrom(env, acc, budgets, years).Ok? <==>
      forall i :: 0 <= i < |years| ==> InScopeCountrySum(env, budgets, years[i]).Ok?
    ensures CountryYearsFrom(env, acc, budgets, years).Ok? && Distinct(years) ==>
      var t := CountryYearsFrom(env, acc, budgets, years).value;
      (forall i :: 0 <= i < |years| ==>
        t.totalAmount[years[i]] == acc.totalAmount[years[i]] + InScopeCountrySum(env, budgets, years[i]).value) &&
      (forall y :: 0 <= y < |acc.totalAmount| && y !in years ==> t.totalAmount[y] == acc.totalAmount[y]) &&
      t.countries.Keys == acc.countries.Keys + YearsCodes(env, budgets, years)
    decreases |years|
  {
    if years != [] {
      assert forall i :: 1 <= i < |years| ==> years[i] == years[1..][i - 1];
      CountryYearTotals(env, acc, budgets, years[0]);
      if CountryYearFrom(env, acc, budgets, years[0]).Ok? {
        var next := CountryYearFrom(env, acc, budgets, years[0]).value;
        CountryYearsTotals(env, next, budgets, years[1..]);
        assert Distinct(years) ==> Distinct(years[1..]) && years[0] !in years[1..];
      }
    }
  }

  /** The `total_pct` of every year. */
  function Percentages(totals: seq<real>, futureYears: seq<YearBudget>): (r: seq<real>)
    requires |totals| == |futureYears|
    ensures |r| == |totals|
    ensures forall y :: 0 <= y < |r| ==> r[y] == YearPercentage(totals[y], futureYears[y].amount, FirstPositive(Amounts(futureYears)))
  {
    seq(|totals|, y requires 0 <= y < |totals| => YearPercentage(totals[y], futureYears[y].amount, FirstPositive(Amounts(futureYears))))
  }

  /** `total_country_budgets`, given `total_future_budgets`: the per-year
      country sums, their percentages and the mean over the forward years 1..3. */
  function TotalCountryBudgets(env: Env, doc: OrgDoc, futureYears: seq<YearBudget>): (r: Result<CountryBudgetData>)
    requires |futureYears| == 4
    ensures r.Ok? ==> |r.value.totalAmount| == 4 && |r.value.totalPct| == 4 && r.value.numCountries == |r.value.countries|
  {
    match CountryYearsFrom(env, CountryTotals(map[], [0.0, 0.0, 0.0, 0.0]), DatedCountryBudgets(doc.countryBudgets), Years)
    case Raise => Raise
    case Ok(t) =>
      var pct := Percentages(t.totalAmount, futureYears);
      Ok(CountryBudgetData(|t.countries|, t.totalAmount, pct, (pct[1] + pct[2] + pct[3]) / 3.0, t.countries))
  }

  /** `total_country_budgets` raises iff one year's in-scope sum does;
      otherwise `total_amount[y]` is the sum of `fixVal` of the values of the
      dated recipient-country budgets in scope for `y`, `total_pct[y]` is that
      sum as a capped share of the year's total budget, and `countries` holds
      exactly the codes of the budgets in scope for one of the four years. */
  lemma CountryBudgetTotals(env: Env, doc: OrgDoc, futureYears: seq<YearBudget>)
    requires |futureYears| == 4
    ensures TotalCountryBudgets(env, doc, futureYears).Ok? ==>
      forall y :: 0 <= y < 4 ==> InScopeCountrySum(env, DatedCountryBudgets(doc.countryBudgets), y).Ok?
    ensures (forall y :: 0 <= y < 4 ==> InScopeCountrySum(env, DatedCountryBudgets(doc.countryBudgets), y).Ok?) ==>
      TotalCountryBudgets(env, doc, futureYears).Ok?
    ensures TotalCountryBudgets(env, doc, futureYears).Ok? ==>
      var dated := DatedCountryBudgets(doc.countryBudgets);
      var d := TotalCountryBudgets(env, doc, futureYears).value;
      (forall y :: 0 <= y < 4 ==>
        d.totalAmount[y] == InScopeCountrySum(env, dated, y).value &&
        d.totalPct[y] == YearPercentage(d.totalAmount[y], futureYears[y].amount, FirstPositive(Amounts(futureYears)))) &&
      d.countries.Keys == InScopeCodes(env, dated, 0) + InScopeCodes(env, dated, 1) + InScopeCodes(env, dated, 2) + InScopeCodes(env, dated, 3) &&
      d.numCountries == |d.countries|
  {
    FourYearsTotals(env, DatedCountryBudgets(doc.countryBudgets));
  }

  /** The year loops of `total_country_budgets` from the initial `budgetdata`. */
  lemma FourYearsTotals(env: Env, dated: seq<CountryBudget>)
    ensures var r := CountryYearsFrom(env, CountryTotals(map[], [0.0, 0.0, 0.0, 0.0]), dated, Years);
      (r.Ok? <==> forall y :: 0 <= y < 4 ==> InScopeCountrySum(env, dated, y).Ok?) &&
      (r.Ok? ==> |r.value.totalAmount| == 4 &&
                 (forall y :: 0 <= y < 4 ==> r.value.totalAmount[y] == InScopeCountrySum(env, dated, y).value) &&
                 r.value.countries.Keys ==
                   InScopeCodes(env, dated, 0) + InScopeCodes(env, dated, 1) + InScopeCodes(env, dated, 2) + InScopeCodes(env, dated, 3))
  {
    var acc := CountryTotals(map[], [0.0, 0.0, 0.0, 0.0]);
    CountryYearsTotals(env, acc, dated, Years);
    assert forall i :: 0 <= i < 4 ==> Years[i] == i;
    assert Distinct(Years);
    assert (forall i :: 0 <= i < |Years| ==> InScopeCountrySum(env, dated, Years[i]).Ok?) <==>
           (forall y :: 0 <= y < 4 ==> InScopeCountrySum(env, dated, y).Ok?) by {
      if forall y :: 0 <= y < 4 ==> InScopeCountrySum(env, dated, y).Ok? {
        forall i | 0 <= i < |Years| ensures InScopeCountrySum(env, dated, Years[i]).Ok? {
          assert Years[i] == i;
        }
      }
      if forall i :: 0 <= i < |Years| ==> InScopeCountrySum(env, dated, Years[i]).Ok? {
        forall y | 0 <= y < 4 ensures InScopeCountrySum(env, dated, y).Ok? {
          assert Years[y] == y;
        }
      }
    }
    YearsCodesOfFourYears(env, dated);
  }

  lemma YearsCodesOfFourYears(env: Env, budgets: seq<CountryBudget>)
    ensures YearsCodes(env, budgets, Years) ==
      InScopeCodes(env, budgets, 0) + InScopeCodes(env, budgets, 1) + InScopeCodes(env, budgets, 2) + InScopeCodes(env, budgets, 3)
  {
    var s := [1, 2, 3];
    assert Years[1..] == s && s[1..] == [2, 3] && s[1..][1..] == [3] && s[1..][1..][1..] == [];
    assert YearsCodes(env, budgets, [3]) == InScopeCodes(env, budgets, 3);
    assert YearsCodes(env, budgets, [2, 3]) == InScopeCodes(env, budgets, 2) + InScopeCodes(env, budgets, 3);
  }

  /** Every year's percentage is at most 100, and so is their mean over years
      1..3; year 0 has no part in the mean. */
  lemma CountryPercentagesAtMost100(env: Env, doc: OrgDoc, futureYears: seq<YearBudget>)
    requires |futureYears| == 4 && TotalCountryBudgets(env, doc, futureYears).Ok?
    ensures var d := TotalCountryBudgets(env, doc, futureYears).value;
      (forall y :: 0 <= y < 4 ==> d.totalPct[y] <= 100.0) &&
      d.totalPctAllYears <= 100.0 &&
      d.totalPctAllYears == (d.totalPct[1] + d.totalPct[2] + d.totalPct[3]) / 3.0
  {
  }

  /** `get_country_data` for one budget and year, as the method below performs it. */
  method AddCountryData(env: Env, countries: map<Option<string>, CountryEntry>, totalAmount: seq<real>,
                        b: CountryBudget, year: nat)
    returns (r: Result<CountryTotals>)
    requires year < |totalAmount|
    ensures r == CountryYearFrom(env, CountryTotals(countries, totalAmount), [b], year)
  {
    assert [b][0] == b && [b][1..] == [];
    var code := RecipientCode(b);
    var countryName := RecipientText(b);
    if !BudgetWithinYearScope(env, b.periodEnd, year) {
      return Ok(CountryTotals(countries, totalAmount));
    }
    if b.value.None? {
      return Raise;
    }
    var entry: CountryEntry;
    if code in countries {
      entry := countries[code].(values := countries[code].values[year := b.value.value]);
    } else {
      entry := CountryEntry(countryName, map[year := b.value.value]);
    }
    var amount := FixVal(env.parsers, b.value);
    if amount.Raise? {
      return Raise;
    }
    r := Ok(CountryTotals(countries[code := entry], totalAmount[year := totalAmount[year] + amount.value]));
  }

  lemma {:induction false} CountryYearFromStep(env: Env, acc: CountryTotals, budgets: seq<CountryBudget>, i: nat, year: nat)
    requires i < |budgets| && year < |acc.totalAmount|
    ensures CountryYearFrom(env, acc, budgets[i..], year) ==
      match CountryYearFrom(env, acc, [budgets[i]], year)
      case Raise => Raise
      case Ok(next) => CountryYearFrom(env, next, budgets[i + 1..], year)
  {
    assert budgets[i..][0] == budgets[i] && budgets[i..][1..] == budgets[i + 1..];
    assert [budgets[i]][1..] == [];
  }

  /** The `make_country_budget` comprehension for one year. */
  method MakeCountryBudget(env: Env, acc: CountryTotals, recipientCountryBudgets: seq<CountryBudget>, year: nat)
    returns (r: Result<CountryTotals>)
    requires year < |acc.totalAmount|
    ensures r == CountryYearFrom(env, acc, recipientCountryBudgets, year)
  {
    var countries, totalAmount := acc.countries, acc.totalAmount;
    for i := 0 to |recipientCountryBudgets|
      invariant |totalAmount| == |acc.totalAmount|
      invariant CountryYearFrom(env, CountryTotals(countries, totalAmount), recipientCountryBudgets[i..], year) ==
                CountryYearFrom(env, acc, recipientCountryBudgets, year)
    {
      CountryYearFromStep(env, CountryTotals(countries, totalAmount), recipientCountryBudgets, i, year);
      var next := AddCountryData(env, countries, totalAmount, recipientCountryBudgets[i], year);
      if next.Raise? {
        return Raise;
      }
      countries, totalAmount := next.value.countries, next.value.totalAmount;
    }
    return Ok(CountryTotals(countries, totalAmount));
  }

  /** `generate_total_years_data` over the years. */
  method GenerateTotalYearsData(totalAmount: seq<real>, totalBudgets: seq<YearBudget>) returns (totalPct: seq<real>)
    requires |totalAmount| == |totalBudgets|
    ensures totalPct == Percentages(totalAmount, totalBudgets)
  {
    totalPct := [];
    for year := 0 to |totalAmount|
      invariant totalPct == Percentages(totalAmount, totalBudgets)[..year]
    {
      var totalCountries := totalAmount[year];
      var totalAll := totalBudgets[year].amount;
      var pct: real;
      var first := CpaAdjustedPercentage(totalCountries, totalAll);
      if first.Ok? {
        pct := first.value;
      } else {
        var fallback := GetATotalBudgetOverZero(totalBudgets);
        var second := CpaAdjustedPercentage(totalCountries, fallback);
        pct := if second.Ok? then second.value else 0.0;
      }
      totalPct := totalPct + [pct];
    }
  }

  /** `total_country_budgets`, with its loops. */
  method ComputeTotalCountryBudgets(env: Env, doc: OrgDoc, totalBudgets: seq<YearBudget>) returns (r: Result<CountryBudgetData>)
    requires |totalBudgets| == 4
    ensures r == TotalCountryBudgets(env, doc, totalBudgets)
  {
    var recipientCountryBudgets := DatedCountryBudgets(doc.countryBudgets);
    var budgetData := CountryTotals(map[], [0.0, 0.0, 0.0, 0.0]);
    var years := Years;
    for y := 0 to |years|
      invariant |budgetData.totalAmount| == 4
      invariant CountryYearsFrom(env, budgetData, recipientCountryBudgets, years[y..]) ==
                CountryYearsFrom(env, CountryTotals(map[], [0.0, 0.0, 0.0, 0.0]), recipientCountryBudgets, years)
    {
      assert years[y..][0] == years[y] && years[y..][1..] == years[y + 1..];
      var next := MakeCountryBudget(env, budgetData, recipientCountryBudgets, years[y]);
      if next.Raise? {
        return Raise;
      }
      budgetData := next.value;
    }
    var totalPct := GenerateTotalYearsData(budgetData.totalAmount, totalBudgets);
    return Ok(CountryBudgetData(|budgetData.countries|, budgetData.totalAmount, totalPct,
                                (totalPct[1] + totalPct[2] + totalPct[3]) / 3.0, budgetData.countries));
  }

  // ---------------------------------------------------------------------
  // total_sector_budgets

  /** `sout[year]["budget-lines"][ref]` */
  datatype SectorLine = SectorLine(name: string, value: real)

  /** `sout[year]` */
  datatype SectorYear = SectorYear(lines: map<Option<string>, SectorLine>, budgetTotal: real, linesTotal: real, linesPct: real)

  const EmptySectorYear: SectorYear := SectorYear(map[], 0.0, 0.0, 0.0)

  /** `min(x, 100)` */
  function Min100(x: real): (r: real)
    ensures r <= 100.0 && r <= x && (r == x || r == 100.0)
  {
    if 100.0 < x then 100.0 else x
  }

  /** The budget-line loop for one in-scope total budget: a line without a
      narrative text or a value that does not parse raises; a line replaces any
      earlier line with the same `ref`, but its value is always added to the
      running total. */
  function BudgetLinesFrom(p: Parsers, acc: SectorYear, lines: seq<BudgetLine>): (r: Result<SectorYear>)
    ensures r.Ok? ==> r.value.budgetTotal == acc.budgetTotal && r.value.linesPct == acc.linesPct
    decreases |lines|
  {
    if lines == [] then Ok(acc)
    else
      var bl := lines[0];
      match bl.name
      case None => Raise
      case Some(name) =>
        match bl.value
        case None => Raise
        case Some(text) =>
          match p.toFloat(text)
          case None => Raise
          case Some(value) =>
            BudgetLinesFrom(p, acc.(lines := acc.lines[bl.ref := SectorLine(name, value)], linesTotal := acc.linesTotal + value),
                            lines[1..])
  }

  /** The loop over `//total-budget` for one year.  Every total budget must
      have a `period-end/@iso-date` (the `[0]` raises otherwise); each in-scope
      budget sets `budget_total` and recomputes the capped percentage, and a
      zero `budget_total` is a ZeroDivisionError. */
  function SectorBudgetFrom(env: Env, acc: SectorYear, budgets: seq<TotalBudget>, year: int): (r: Result<SectorYear>)
    ensures r.Ok? ==> forall j :: 0 <= j < |budgets| ==> budgets[j].periodEnd.Some?
    decreases |budgets|
  {
    if budgets == [] then Ok(acc)
    else
      var tb := budgets[0];
      if tb.periodEnd.None? then Raise
      else if !BudgetWithinYearScope(env, tb.periodEnd, year) then SectorBudgetFrom(env, acc, budgets[1..], year)
      else
        match tb.value
        case None => Raise
        case Some(text) =>
          match env.parsers.toFloat(text)
          case None => Raise
          case Some(total) =>
            match BudgetLinesFrom(env.parsers, acc.(budgetTotal := total), tb.lines)
            case Raise => Raise
            case Ok(a) =>
              if a.budgetTotal == 0.0 then Raise
              else SectorBudgetFrom(env, a.(linesPct := Min100(a.linesTotal / a.budgetTotal * 100.0)), budgets[1..], year)
  }

  /** The year loop of `total_sector_budgets` for the remaining years, after
      the entries so far: each year's entry is the fold of that year from an
      empty `sout[year]`, and the metric raises iff some year's fold does. */
  function SectorBudgetsFrom(env: Env, budgets: seq<TotalBudget>, years: seq<nat>, out: seq<SectorYear>): (r: Result<seq<SectorYear>>)
    ensures r.Ok? ==> |r.value| == |out| + |years|
    ensures r.Ok? ==> r.value[..|out|] == out
    ensures r.Ok? ==> forall i :: 0 <= i < |years| ==> SectorBudgetFrom(env, EmptySectorYear, budgets, years[i]) == Ok(r.value[|out| + i])
    ensures r.Raise? <==> exists i :: 0 <= i < |years| && SectorBudgetFrom(env, EmptySectorYear, budgets, years[i]).Raise?
    decreases |years|
  {
    if years == [] then Ok(out)
    else
      match SectorBudgetFrom(env, EmptySectorYear, budgets, years[0])
      case Raise => Raise
      case Ok(entry) =>
        var r := SectorBudgetsFrom(env, budgets, years[1..], out + [entry]);
        assert r.Ok? ==> r.value[..|out|] == (r.value[..|out| + 1])[..|out|] && r.value[|out|] == entry;
        assert forall i :: 1 <= i < |years| ==> years[i] == years[1..][i - 1];
        r
  }

  /** `total_sector_budgets`: entry `y` is `sout[y]`, the fold of year `y` over
      every total budget, and the metric raises iff one of the four folds does. */
  function TotalSectorBudgets(env: Env, doc: OrgDoc): (r: Result<seq<SectorYear>>)
    ensures r.Ok? ==> |r.value| == 4
    ensures r.Ok? ==> forall y :: 0 <= y < 4 ==> SectorBudgetFrom(env, EmptySectorYear, doc.totalBudgets, y) == Ok(r.value[y])
    ensures r.Raise? ==> exists y :: 0 <= y < 4 && SectorBudgetFrom(env, EmptySectorYear, doc.totalBudgets, y).Raise?
    ensures (exists y :: 0 <= y < 4 && SectorBudgetFrom(env, EmptySectorYear, doc.totalBudgets, y).Raise?) ==> r.Raise?
  {
    var r := SectorBudgetsFrom(env, doc.totalBudgets, Years, []);
    assert forall i :: 0 <= i < 4 ==> Years[i] == i;
    assert r.Raise? ==> exists y :: 0 <= y < 4 && SectorBudgetFrom(env, EmptySectorYear, doc.totalBudgets, y).Raise? by {
      if r.Raise? {
        var i :| 0 <= i < |Years| && SectorBudgetFrom(env, EmptySectorYear, doc.totalBudgets, Years[i]).Raise?;
        assert Years[i] == i;
      }
    }
    assert (exists y :: 0 <= y < 4 && SectorBudgetFrom(env, EmptySectorYear, doc.totalBudgets, y).Raise?) ==> r.Raise? by {
      if exists y :: 0 <= y < 4 && SectorBudgetFrom(env, EmptySectorYear, doc.totalBudgets, y).Raise? {
        var y :| 0 <= y < 4 && SectorBudgetFrom(env, EmptySectorYear, doc.totalBudgets, y).Raise?;
        assert SectorBudgetFrom(env, EmptySectorYear, doc.totalBudgets, Years[y]).Raise?;
      }
    }
    r
  }

  /** The sum of the values of some budget lines. */
  function LinesSum(p: Parsers, lines: seq<BudgetLine>): real
  {
    if lines == [] then 0.0
    else
      var bl := lines[0];
      (if bl.value.Some? && p.toFloat(bl.value.value).Some? then p.toFloat(bl.value.value).value else 0.0) + LinesSum(p, lines[1..])
  }

  /** The sum of the budget-line values of the budgets in scope for `year`. */
  function InScopeLinesSum(env: Env, budgets: seq<TotalBudget>, year: int): real
  {
    if budgets == [] then 0.0
    else (if BudgetWithinYearScope(env, budgets[0].periodEnd, year) then LinesSum(env.parsers, budgets[0].lines) else 0.0) +
         InScopeLinesSum(env, budgets[1..], year)
  }

  lemma {:induction false} BudgetLinesAddUp(p: Parsers, acc: SectorYear, lines: seq<BudgetLine>)
    requires BudgetLinesFrom(p, acc, lines).Ok?
    ensures BudgetLinesFrom(p, acc, lines).value.linesTotal == acc.linesTotal + LinesSum(p, lines)
    decreases |lines|
  {
    if lines != [] {
      var bl := lines[0];
      var value := p.toFloat(bl.value.value).value;
      BudgetLinesAddUp(p, acc.(lines := acc.lines[bl.ref := SectorLine(bl.name.value, value)], linesTotal := acc.linesTotal + value),
                       lines[1..]);
    }
  }

  /** Line `i` is the last of `lines` with its `ref`. */
  predicate LastWithRef(lines: seq<BudgetLine>, i: int)
  {
    0 <= i < |lines| && forall j :: i < j < |lines| ==> lines[j].ref != lines[i].ref
  }

  /** The `budget-lines` dict after the line loop: every line was read (a
      narrative text and a float value), the keys are the earlier ones plus
      every `ref`, each `ref` holds its last line, and an earlier key no line
      names keeps its entry. */
  lemma {:induction false} BudgetLinesLastPerRef(p: Parsers, acc: SectorYear, lines: seq<BudgetLine>)
    requires BudgetLinesFrom(p, acc, lines).Ok?
    ensures forall i :: 0 <= i < |lines| ==>
      lines[i].name.Some? && lines[i].value.Some? && p.toFloat(lines[i].value.value).Some?
    ensures forall ref :: ref in BudgetLinesFrom(p, acc, lines).value.lines <==>
      ref in acc.lines || exists i :: 0 <= i < |lines| && lines[i].ref == ref
    ensures forall i :: LastWithRef(lines, i) ==>
      BudgetLinesFrom(p, acc, lines).value.lines[lines[i].ref] ==
      SectorLine(lines[i].name.value, p.toFloat(lines[i].value.value).value)
    ensures forall ref :: ref in acc.lines && (forall i :: 0 <= i < |lines| ==> lines[i].ref != ref) ==>
      BudgetLinesFrom(p, acc, lines).value.lines[ref] == acc.lines[ref]
    decreases |lines|
  {
    if lines != [] {
      var bl := lines[0];
      var line := SectorLine(bl.name.value, p.toFloat(bl.value.value).value);
      var next := acc.(lines := acc.lines[bl.ref := line], linesTotal := acc.linesTotal + line.value);
      var rest := lines[1..];
      BudgetLinesLastPerRef(p, next, rest);
      var m := BudgetLinesFrom(p, acc, lines).value.lines;
      assert m == BudgetLinesFrom(p, next, rest).value.lines;
      forall i | 0 <= i < |lines| && i > 0
        ensures lines[i] == rest[i - 1]
      {
      }
      forall ref | ref in m
        ensures ref in acc.lines || exists i :: 0 <= i < |lines| && lines[i].ref == ref
      {
        if ref !in acc.lines && ref != bl.ref {
          var i :| 0 <= i < |rest| && rest[i].ref == ref;
          assert lines[i + 1].ref == ref;
        }
      }
      forall ref | exists i :: 0 <= i < |lines| && lines[i].ref == ref
        ensures ref in m
      {
        var i :| 0 <= i < |lines| && lines[i].ref == ref;
        if i > 0 {
          assert rest[i - 1].ref == ref;
        }
      }
      forall i | LastWithRef(lines, i)
        ensures m[lines[i].ref] == SectorLine(lines[i].name.value, p.toFloat(lines[i].value.value).value)
      {
        if i == 0 {
          assert forall j :: 0 <= j < |rest| ==> rest[j].ref == lines[j + 1].ref;
        } else {
          assert LastWithRef(rest, i - 1) by {
            forall j | i - 1 < j < |rest| ensures rest[j].ref != rest[i - 1].ref {
              assert rest[j] == lines[j + 1];
            }
          }
        }
      }
      forall ref | ref in acc.lines && (forall i :: 0 <= i < |lines| ==> lines[i].ref != ref)
        ensures m[ref] == acc.lines[ref]
      {
        assert lines[0].ref != ref;
        forall i | 0 <= i < |rest| ensures rest[i].ref != ref {
          assert rest[i] == lines[i + 1];
        }
      }
    }
  }

  /** `budgetlines_total` of a year is the sum of the budget lines of every
      in-scope total budget, and `budgetlines_pct` stays within 100
      (`budget_total` comes from the last one: `SectorLastBudgetSetsTotal`). */
  lemma {:induction false} SectorLinesAccumulateAcrossBudgets(env: Env, acc: SectorYear, budgets: seq<TotalBudget>, year: int)
    requires SectorBudgetFrom(env, acc, budgets, year).Ok?
    ensures SectorBudgetFrom(env, acc, budgets, year).value.linesTotal == acc.linesTotal + InScopeLinesSum(env, budgets, year)
    ensures acc.linesPct <= 100.0 ==> SectorBudgetFrom(env, acc, budgets, year).value.linesPct <= 100.0
    decreases |budgets|
  {
    if budgets != [] {
      var tb := budgets[0];
      if !BudgetWithinYearScope(env, tb.periodEnd, year) {
        SectorLinesAccumulateAcrossBudgets(env, acc, budgets[1..], year);
      } else {
        var total := env.parsers.toFloat(tb.value.value).value;
        BudgetLinesAddUp(env.parsers, acc.(budgetTotal := total), tb.lines);
        var a := BudgetLinesFrom(env.parsers, acc.(budgetTotal := total), tb.lines).value;
        SectorLinesAccumulateAcrossBudgets(env, a.(linesPct := Min100(a.linesTotal / a.budgetTotal * 100.0)), budgets[1..], year);
      }
    }
  }

  /** Year `y` of `total_sector_budgets`: `budgetlines_total` is the sum of the
      budget lines of every total budget in scope for `y`, and `budgetlines_pct`
      is at most 100. */
  lemma SectorYearLinesTotal(env: Env, doc: OrgDoc, y: nat)
    requires y < 4 && TotalSectorBudgets(env, doc).Ok?
    ensures TotalSectorBudgets(env, doc).value[y].linesTotal == InScopeLinesSum(env, doc.totalBudgets, y)
    ensures TotalSectorBudgets(env, doc).value[y].linesPct <= 100.0
  {
    SectorLinesAccumulateAcrossBudgets(env, EmptySectorYear, doc.totalBudgets, y);
  }

  /** A year no budget falls in keeps its `sout[year]` as it was. */
  lemma {:induction false} SectorNoBudgetInScope(env: Env, acc: SectorYear, budgets: seq<TotalBudget>, year: int)
    requires forall j :: 0 <= j < |budgets| ==> !BudgetWithinYearScope(env, budgets[j].periodEnd, year)
    requires SectorBudgetFrom(env, acc, budgets, year).Ok?
    ensures SectorBudgetFrom(env, acc, budgets, year) == Ok(acc)
    decreases |budgets|
  {
    if budgets != [] {
      SectorNoBudgetInScope(env, acc, budgets[1..], year);
    }
  }

  /** The last in-scope total budget, in document order, sets `budget_total`
      to its value, and `budgetlines_pct` is the capped share of all the lines
      so far in that total. */
  lemma {:induction false} SectorLastBudgetSetsTotal(env: Env, acc: SectorYear, budgets: seq<TotalBudget>, year: int, k: nat)
    requires k < |budgets| && BudgetWithinYearScope(env, budgets[k].periodEnd, year)
    requires forall j :: k < j < |budgets| ==> !BudgetWithinYearScope(env, budgets[j].periodEnd, year)
    requires SectorBudgetFrom(env, acc, budgets, year).Ok?
    ensures budgets[k].value.Some? && env.parsers.toFloat(budgets[k].value.value).Some?
    ensures var r := SectorBudgetFrom(env, acc, budgets, year).value;
      r.budgetTotal == env.parsers.toFloat(budgets[k].value.value).value && r.budgetTotal != 0.0 &&
      r.linesPct == Min100(r.linesTotal / r.budgetTotal * 100.0)
    decreases k
  {
    var tb := budgets[0];
    if BudgetWithinYearScope(env, tb.periodEnd, year) {
      var total := env.parsers.toFloat(tb.value.value).value;
      var a := BudgetLinesFrom(env.parsers, acc.(budgetTotal := total), tb.lines).value;
      var next := a.(linesPct := Min100(a.linesTotal / a.budgetTotal * 100.0));
      if k == 0 {
        SectorNoBudgetInScope(env, next, budgets[1..], year);
      } else {
        SectorLastBudgetSetsTotal(env, next, budgets[1..], year, k - 1);
      }
    } else {
      SectorLastBudgetSetsTotal(env, acc, budgets[1..], year, k - 1);
    }
  }

  /** Year `y` of `total_sector_budgets` when no total budget ends in it: the
      empty `sout[y]`, so `budgetlines_pct` is 0. */
  lemma SectorYearWithoutBudgetIsEmpty(env: Env, doc: OrgDoc, y: nat)
    requires y < 4 && TotalSectorBudgets(env, doc).Ok?
    requires forall b :: b in doc.totalBudgets ==> !BudgetWithinYearScope(env, b.periodEnd, y)
    ensures TotalSectorBudgets(env, doc).value[y] == EmptySectorYear
  {
    assert forall j :: 0 <= j < |doc.totalBudgets| ==> doc.totalBudgets[j] in doc.totalBudgets;
    SectorNoBudgetInScope(env, EmptySectorYear, doc.totalBudgets, y);
  }

  /** Year `y` of `total_sector_budgets` otherwise: `budget_total` is the value
      of the last total budget ending in `y`, and `budgetlines_pct` is
      `min(budgetlines_total / budget_total * 100, 100)`, with
      `budgetlines_total` the lines of every total budget ending in `y`. */
  lemma SectorYearLastBudget(env: Env, doc: OrgDoc, y: nat, k: nat)
    requires y < 4 && TotalSectorBudgets(env, doc).Ok?
    requires k < |doc.totalBudgets| && BudgetWithinYearScope(env, doc.totalBudgets[k].periodEnd, y)
    requires forall j :: k < j < |doc.totalBudgets| ==> !BudgetWithinYearScope(env, doc.totalBudgets[j].periodEnd, y)
    ensures doc.totalBudgets[k].value.Some? && env.parsers.toFloat(doc.totalBudgets[k].value.value).Some?
    ensures var r := TotalSectorBudgets(env, doc).value[y];
      r.budgetTotal == env.parsers.toFloat(doc.totalBudgets[k].value.value).value && r.budgetTotal != 0.0 &&
      r.linesTotal == InScopeLinesSum(env, doc.totalBudgets, y) &&
      r.linesPct == Min100(InScopeLinesSum(env, doc.totalBudgets, y) / r.budgetTotal * 100.0)
  {
    SectorLastBudgetSetsTotal(env, EmptySectorYear, doc.totalBudgets, y, k);
    SectorLinesAccumulateAcrossBudgets(env, EmptySectorYear, doc.totalBudgets, y);
  }

  /** `total_sector_budgets_single_result`: the mean `budgetlines_pct` of the
      four years: every year's fold succeeds, and the result is the mean of
      their percentages. */
  function TotalSectorBudgetsSingleResult(env: Env, doc: OrgDoc): (r: Result<real>)
    ensures r.Ok? <==> TotalSectorBudgets(env, doc).Ok?
    ensures r.Ok? ==> forall y :: 0 <= y < 4 ==> SectorBudgetFrom(env, EmptySectorYear, doc.totalBudgets, y).Ok?
    ensures r.Ok? ==>
      r.value == (SectorBudgetFrom(env, EmptySectorYear, doc.totalBudgets, 0).value.linesPct +
                  SectorBudgetFrom(env, EmptySectorYear, doc.totalBudgets, 1).value.linesPct +
                  SectorBudgetFrom(env, EmptySectorYear, doc.totalBudgets, 2).value.linesPct +
                  SectorBudgetFrom(env, EmptySectorYear, doc.totalBudgets, 3).value.linesPct) / 4.0
  {
    match TotalSectorBudgets(env, doc)
    case Raise => Raise
    case Ok(years) => Ok((years[0].linesPct + years[1].linesPct + years[2].linesPct + years[3].linesPct) / 4.0)
  }

  lemma {:induction false} SectorYearsAtMost100(env: Env, budgets: seq<TotalBudget>, years: seq<nat>, out: seq<SectorYear>)
    requires forall i :: 0 <= i < |out| ==> out[i].linesPct <= 100.0
    requires SectorBudgetsFrom(env, budgets, years, out).Ok?
    ensures forall i :: 0 <= i < |out| + |years| ==> SectorBudgetsFrom(env, budgets, years, out).value[i].linesPct <= 100.0
    decreases |years|
  {
    if years != [] {
      SectorLinesAccumulateAcrossBudgets(env, EmptySectorYear, budgets, years[0]);
      var entry := SectorBudgetFrom(env, EmptySectorYear, budgets, years[0]).value;
      SectorYearsAtMost100(env, budgets, years[1..], out + [entry]);
    }
  }

  /** The sector-budget score is at most 100. */
  lemma SectorBudgetsSingleResultAtMost100(env: Env, doc: OrgDoc)
    requires TotalSectorBudgetsSingleResult(env, doc).Ok?
    ensures TotalSectorBudgetsSingleResult(env, doc).value <= 100.0
  {
    SectorYearsAtMost100(env, doc.totalBudgets, Years, []);
  }

  /** With no total budget ending in years 0..3, the sector-budget score is 0. */
  lemma SectorScoreZeroWithoutBudgets(env: Env, doc: OrgDoc)
    requires TotalSectorBudgetsSingleResult(env, doc).Ok?
    requires forall b, y :: b in doc.totalBudgets && 0 <= y < 4 ==> !BudgetWithinYearScope(env, b.periodEnd, y)
    ensures TotalSectorBudgetsSingleResult(env, doc).value == 0.0
  {
    SectorYearWithoutBudgetIsEmpty(env, doc, 0);
    SectorYearWithoutBudgetIsEmpty(env, doc, 1);
    SectorYearWithoutBudgetIsEmpty(env, doc, 2);
    SectorYearWithoutBudgetIsEmpty(env, doc, 3);
  }

  /** `total_country_budgets_single_result`: the country-budget mean when it is
      positive, otherwise the sector-budget score. */
  function TotalCountryBudgetsSingleResult(env: Env, doc: OrgDoc): (r: Result<real>)
  {
    match TotalFutureBudgets(env, doc)
    case Raise => Raise
    case Ok(futureYears) =>
      match TotalCountryBudgets(env, doc, futureYears)
      case Raise => Raise
      case Ok(data) =>
        if data.totalPctAllYears > 0.0 then Ok(data.totalPctAllYears) else TotalSectorBudgetsSingleResult(env, doc)
  }

  /** The country-budget score is at most 100, and it comes from the sector
      budgets exactly when the country mean is not positive. */
  lemma CountryBudgetsSingleResultAtMost100(env: Env, doc: OrgDoc)
    requires TotalCountryBudgetsSingleResult(env, doc).Ok?
    ensures TotalCountryBudgetsSingleResult(env, doc).value <= 100.0
    ensures var data := TotalCountryBudgets(env, doc, TotalFutureBudgets(env, doc).value).value;
      data.totalPctAllYears > 0.0 ==> TotalCountryBudgetsSingleResult(env, doc) == Ok(data.totalPctAllYears)
    ensures var data := TotalCountryBudgets(env, doc, TotalFutureBudgets(env, doc).value).value;
      data.totalPctAllYears <= 0.0 ==> TotalCountryBudgetsSingleResult(env, doc) == TotalSectorBudgetsSingleResult(env, doc)
  {
    var futureYears := TotalFutureBudgets(env, doc).value;
    CountryPercentagesAtMost100(env, doc, futureYears);
    if TotalCountryBudgets(env, doc, futureYears).value.totalPctAllYears <= 0.0 {
      SectorBudgetsSingleResultAtMost100(env, doc);
    }
  }

  /** The budget-line loop of `total_sector_budgets`. */
  method AddBudgetLines(p: Parsers, acc: SectorYear, budgetLines: seq<BudgetLine>) returns (r: Result<SectorYear>)
    ensures r == BudgetLinesFrom(p, acc, budgetLines)
  {
    var year := acc;
    for i := 0 to |budgetLines|
      invariant BudgetLinesFrom(p, year, budgetLines[i..]) == BudgetLinesFrom(p, acc, budgetLines)
    {
      var bl := budgetLines[i];
      assert budgetLines[i..][0] == bl && budgetLines[i..][1..] == budgetLines[i + 1..];
      var budgetRef := bl.ref;
      if bl.name.None? || bl.value.None? {
        return Raise;
      }
      var budgetValue := p.toFloat(bl.value.value);
      if budgetValue.None? {
        return Raise;
      }
      year := year.(lines := year.lines[budgetRef := SectorLine(bl.name.value, budgetValue.value)]);
      year := year.(linesTotal := year.linesTotal + budgetValue.value);
    }
    return Ok(year);
  }

  /** `total_sector_budgets`, with its loops. */
  method ComputeTotalSectorBudgets(env: Env, doc: OrgDoc) returns (r: Result<seq<SectorYear>>)
    ensures r == TotalSectorBudgets(env, doc)
  {
    var totalBudgets := doc.totalBudgets;
    var years := Years;
    var sout: seq<SectorYear> := [];
    for y := 0 to |years|
      invariant SectorBudgetsFrom(env, totalBudgets, years[y..], sout) == TotalSectorBudgets(env, doc)
    {
      assert years[y..][0] == years[y] && years[y..][1..] == years[y + 1..];
      var year := years[y];
      var entry := EmptySectorYear;
      for i := 0 to |totalBudgets|
        invariant SectorBudgetFrom(env, entry, totalBudgets[i..], year) == SectorBudgetFrom(env, EmptySectorYear, totalBudgets, year)
      {
        var tb := totalBudgets[i];
        assert totalBudgets[i..][0] == tb && totalBudgets[i..][1..] == totalBudgets[i + 1..];
        if tb.periodEnd.None? {
          return Raise;
        }
        if BudgetWithinYearScope(env, tb.periodEnd, year) {
          if tb.value.None? {
            return Raise;
          }
          var budgetTotal := env.parsers.toFloat(tb.value.value);
          if budgetTotal.None? {
            return Raise;
          }
          entry := entry.(budgetTotal := budgetTotal.value);
          var withLines := AddBudgetLines(env.parsers, entry, tb.lines);
          if withLines.Raise? || withLines.value.budgetTotal == 0.0 {
            return Raise;
          }
          entry := withLines.value;
          entry := entry.(linesPct := Min100(entry.linesTotal / entry.budgetTotal * 100.0));
        }
      }
      sout := sout + [entry];
    }
    return Ok(sout);
  }

  // ---------------------------------------------------------------------
  // total_sector_strategy_papers

  /** The set of `budget_name`s over all years. */
  function SectorNames(years: seq<SectorYear>): set<string>
  {
    set y, ref | y in years && ref in y.lines :: y.lines[ref].name
  }

  /** The narrative texts of some titles. */
  function NarrativeTexts(titles: seq<Title>): seq<string>
  {
    if titles == [] then []
    else
      var own := seq(|titles[0].narratives|, i requires 0 <= i < |titles[0].narratives| => titles[0].narratives[i]);
      Present(own) + NarrativeTexts(titles[1..])
  }

  /** The texts that exist. */
  function Present(texts: seq<Option<string>>): (r: seq<string>)
    ensures forall t :: t in r <==> Some(t) in texts
  {
    if texts == [] then []
    else (if texts[0].Some? then [texts[0].value] else []) + Present(texts[1..])
  }

  /** A sector strategy link: category B11 anywhere, or B12 as a child of the
      node given. */
  predicate SectorLink(l: DocumentLink)
  {
    "B11" in l.categories || (l.isChild && "B12" in l.categories)
  }

  /** The narrative title texts of B11 document links anywhere, and of B12
      links that are children of the node given. */
  function SectorTitles(links: seq<DocumentLink>): (r: seq<string>)
    ensures forall t :: t in r <==>
      exists l :: l in links && SectorLink(l) && t in NarrativeTexts(l.titles)
  {
    if links == [] then []
    else
      var l := links[0];
      (if SectorLink(l) then NarrativeTexts(l.titles) else []) +
      SectorTitles(links[1..])
  }

  /** `sn` occurs, case-sensitively, in one of the titles (`asdt.find(sn) >= 0`). */
  predicate InSomeTitle(sn: string, titles: seq<string>)
  {
    exists t :: t in titles && Contains(t, sn)
  }

  /** The sector names found in some title. */
  function FoundNames(names: set<string>, titles: seq<string>): (r: set<string>)
    ensures r <= names
    ensures forall sn :: sn in r <==> sn in names && InSomeTitle(sn, titles)
  {
    set sn | sn in names && InSomeTitle(sn, titles)
  }

  /** `total_sector_strategy_papers`: the percentage of sector names found in a
      sector strategy title; no sector names is a ZeroDivisionError. */
  function TotalSectorStrategyPapers(env: Env, doc: OrgDoc): (r: Result<real>)
  {
    match TotalSectorBudgets(env, doc)
    case Raise => Raise
    case Ok(years) =>
      var names := SectorNames(years);
      if |names| == 0 then Raise
      else Ok(Share(|FoundNames(names, SectorTitles(doc.documentLinks))|, |names|))
  }

  /** `part / whole * 100` in floating point, read as exact reals. */
  function Share(part: nat, whole: nat): real
    requires whole > 0
  {
    part as real / whole as real * 100.0
  }

  lemma SubsetCardinality<T>(a: set<T>, b: set<T>)
    requires a <= b
    ensures |a| <= |b|
  {
    if a != {} {
      var x :| x in a;
      SubsetCardinality(a - {x}, b - {x});
    }
  }

  /** A share of a set as a percentage lies in 0..100, and is 100 exactly for the whole set. */
  lemma ShareRange<T>(part: set<T>, whole: set<T>)
    requires part <= whole && |whole| > 0
    ensures 0.0 <= Share(|part|, |whole|) <= 100.0
    ensures Share(|part|, |whole|) == 100.0 <==> part == whole
  {
    SubsetCardinality(part, whole);
    if |part| == |whole| && part != whole {
      assert !(whole <= part);
      var x :| x in whole && x !in part;
      SubsetCardinality(part, whole - {x});
    }
    ShareBounds(|part|, |whole|);
  }

  /** `f / n * 100` lies in 0..100 for `f <= n`, and is 100 exactly for `f == n`. */
  lemma ShareBounds(f: nat, n: nat)
    requires f <= n && n > 0
    ensures 0.0 <= Share(f, n) <= 100.0
    ensures Share(f, n) == 100.0 <==> f == n
  {
    var q := f as real / n as real;
    assert q * n as real == f as real;
    assert 0.0 <= q by { if q < 0.0 { assert false; } }
    if f < n {
      assert q < 1.0 by { if q >= 1.0 { assert false; } }
    } else {
      assert q == n as real / n as real;
    }
  }

  /** The sector strategy score lies in 0..100, and it is 100 exactly when
      every sector name is found. */
  lemma SectorStrategyPapersRange(env: Env, doc: OrgDoc)
    requires TotalSectorStrategyPapers(env, doc).Ok?
    ensures 0.0 <= TotalSectorStrategyPapers(env, doc).value <= 100.0
    ensures var names := SectorNames(TotalSectorBudgets(env, doc).value);
      TotalSectorStrategyPapers(env, doc).value == 100.0 <==> FoundNames(names, SectorTitles(doc.documentLinks)) == names
  {
    var names := SectorNames(TotalSectorBudgets(env, doc).value);
    ShareRange(FoundNames(names, SectorTitles(doc.documentLinks)), names);
  }

  lemma FoundNamesAdd(done: set<string>, sn: string, titles: seq<string>)
    requires sn !in done
    ensures InSomeTitle(sn, titles) ==> |FoundNames(done + {sn}, titles)| == |FoundNames(done, titles)| + 1
    ensures !InSomeTitle(sn, titles) ==> FoundNames(done + {sn}, titles) == FoundNames(done, titles)
  {
    if InSomeTitle(sn, titles) {
      assert FoundNames(done + {sn}, titles) == FoundNames(done, titles) + {sn};
    }
  }

  /** The inner `for asdt in all_sector_document_titles` loop, which stops at
      the first title containing the name. */
  method FindInTitles(sn: string, titles: seq<string>) returns (found: bool)
    ensures found <==> InSomeTitle(sn, titles)
  {
    for j := 0 to |titles|
      invariant forall k :: 0 <= k < j ==> !Contains(titles[k], sn)
    {
      if Contains(titles[j], sn) {
        assert titles[j] in titles;
        return true;
      }
    }
    return false;
  }

  /** The `for sn in sector_names` loop of `total_sector_strategy_papers`. */
  method CountFoundNames(sectorNames: set<string>, allSectorDocumentTitles: seq<string>) returns (found: nat)
    ensures found == |FoundNames(sectorNames, allSectorDocumentTitles)|
  {
    found := 0;
    var remaining := sectorNames;
    ghost var done: set<string> := {};
    while remaining != {}
      invariant remaining + done == sectorNames && remaining !! done
      invariant found == |FoundNames(done, allSectorDocumentTitles)|
      decreases |remaining|
    {
      var sn :| sn in remaining;
      FoundNamesAdd(done, sn, allSectorDocumentTitles);
      var inSomeTitle := FindInTitles(sn, allSectorDocumentTitles);
      if inSomeTitle {
        found := found + 1;
      }
      remaining := remaining - {sn};
      done := done + {sn};
    }
    assert done == sectorNames;
  }

  /** `total_sector_strategy_papers` */
  method ComputeTotalSectorStrategyPapers(env: Env, doc: OrgDoc) returns (r: Result<real>)
    ensures r == TotalSectorStrategyPapers(env, doc)
  {
    var allBudgets := ComputeTotalSectorBudgets(env, doc);
    if allBudgets.Raise? {
      return Raise;
    }
    var sectorNames := SectorNames(allBudgets.value);
    var allSectorDocumentTitles := SectorTitles(doc.documentLinks);
    var found := CountFoundNames(sectorNames, allSectorDocumentTitles);
    if |sectorNames| == 0 {
      return Raise;
    }
    return Ok(Share(found, |sectorNames|));
  }

  // ---------------------------------------------------------------------
  // all_countries

  /** An entry of the `countries` dict: a country code and its name. */
  datatype Country = Country(code: Option<string>, name: Option<string>)

  /** Python's `int()` on a float: truncation toward zero. */
  function TruncateTowardZero(x: real): int
  {
    if x >= 0.0 then x.Floor else -((-x).Floor)
  }

  /** `budget_has_value`: the first value parses and truncates to a positive
      integer, that is, it is at least 1. */
  function BudgetHasValue(p: Parsers, b: CountryBudget): (r: bool)
    ensures r <==> b.value.Some? && p.toFloat(b.value.value).Some? && p.toFloat(b.value.value).value >= 1.0
  {
    match b.value
    case None => false
    case Some(v) =>
      match p.toFloat(v)
      case None => false
      case Some(x) => TruncateTowardZero(x) > 0
  }

  /** A recipient country's name: its first narrative's text if it has a
      narrative, else its own text. */
  function CountryNameOf(r: Recipient): Option<string>
  {
    if r.narrative.Some? then r.narrative.value else r.text
  }

  /** The country a budget is for; a budget without `recipient-country` is
      filed under no code and no name. */
  function CountryOf(b: CountryBudget): Country
  {
    Country(RecipientCode(b), if b.recipient.Some? then CountryNameOf(b.recipient.value) else None)
  }

  /** A budget that keeps its country active: it ends after the present and has a value. */
  predicate IsActiveBudget(env: Env, b: CountryBudget)
  {
    DateLaterThanNow(env, b.periodEnd) && BudgetHasValue(env.parsers, b)
  }

  /** The codes of some dict entries. */
  function Codes(cs: seq<Country>): set<Option<string>>
  {
    set c | c in cs :: c.code
  }

  /** A dict holds each key once. */
  predicate UniqueCodes(cs: seq<Country>)
  {
    forall i, j :: 0 <= i < j < |cs| ==> cs[i].code != cs[j].code
  }

  /** `countries[code] = name`: an existing key keeps its place and takes the
      new name; a new key goes last. */
  function PutCountry(cs: seq<Country>, c: Country): (r: seq<Country>)
    ensures Codes(r) == Codes(cs) + {c.code}
    ensures c in r
    ensures UniqueCodes(cs) ==> UniqueCodes(r)
    ensures forall d :: d in r && d.code == c.code && UniqueCodes(cs) ==> d == c
  {
    if cs == [] then [c]
    else if cs[0].code == c.code then
      CodesCons(cs[0], cs[1..]);
      CodesCons(c, cs[1..]);
      assert cs == [cs[0]] + cs[1..];
      assert UniqueCodes(cs) ==> UniqueCodes([c] + cs[1..]) by {
        if UniqueCodes(cs) {
          UniqueTail(cs);
          UniqueCons(c, cs[1..]);
        }
      }
      [c] + cs[1..]
    else
      var rest := PutCountry(cs[1..], c);
      CodesCons(cs[0], cs[1..]);
      CodesCons(cs[0], rest);
      assert cs == [cs[0]] + cs[1..];
      assert UniqueCodes(cs) ==> UniqueCodes([cs[0]] + rest) by {
        if UniqueCodes(cs) {
          UniqueTail(cs);
          UniqueCons(cs[0], rest);
        }
      }
      [cs[0]] + rest
  }

  lemma CodesCons(x: Country, xs: seq<Country>)
    ensures Codes([x] + xs) == {x.code} + Codes(xs)
  {
    assert forall d :: d in [x] + xs <==> d == x || d in xs;
  }

  lemma UniqueTail(cs: seq<Country>)
    requires cs != [] && UniqueCodes(cs)
    ensures UniqueCodes(cs[1..]) && cs[0].code !in Codes(cs[1..])
  {
    forall d | d in cs[1..]
      ensures d.code != cs[0].code
    {
      var j :| 0 <= j < |cs[1..]| && cs[1..][j] == d;
      assert cs[j + 1] == d;
    }
  }

  lemma UniqueCons(x: Country, xs: seq<Country>)
    requires UniqueCodes(xs) && x.code !in Codes(xs)
    ensures UniqueCodes([x] + xs)
  {
    forall j | 0 < j < |[x] + xs|
      ensures ([x] + xs)[0].code != ([x] + xs)[j].code
    {
      assert ([x] + xs)[j] in xs;
    }
  }

  /** The loop of `all_countries` over the remaining budgets. */
  function AllCountriesFrom(env: Env, countries: seq<Country>, budgets: seq<CountryBudget>): seq<Country>
    decreases |budgets|
  {
    if budgets == [] then countries
    else
      var b := budgets[0];
      AllCountriesFrom(env, if IsActiveBudget(env, b) then PutCountry(countries, CountryOf(b)) else countries, budgets[1..])
  }

  /** `all_countries`: every country with an active budget, in order of first
      appearance, with the name of its last active budget. */
  function AllCountries(env: Env, doc: OrgDoc): seq<Country>
  {
    AllCountriesFrom(env, [], DatedCountryBudgets(doc.countryBudgets))
  }

  /** The codes of the countries with an active budget among some budgets. */
  function ActiveCodes(env: Env, budgets: seq<CountryBudget>): set<Option<string>>
  {
    set b | b in budgets && IsActiveBudget(env, b) :: CountryOf(b).code
  }

  lemma {:induction false} AllCountriesFromCodes(env: Env, countries: seq<Country>, budgets: seq<CountryBudget>)
    ensures Codes(AllCountriesFrom(env, countries, budgets)) == Codes(countries) + ActiveCodes(env, budgets)
    ensures UniqueCodes(countries) ==> UniqueCodes(AllCountriesFrom(env, countries, budgets))
    decreases |budgets|
  {
    if budgets != [] {
      var b := budgets[0];
      var next := if IsActiveBudget(env, b) then PutCountry(countries, CountryOf(b)) else countries;
      AllCountriesFromCodes(env, next, budgets[1..]);
      assert ActiveCodes(env, budgets) == ActiveCodes(env, budgets[1..]) + (if IsActiveBudget(env, b) then {CountryOf(b).code} else {}) by {
        assert forall x :: x in budgets <==> x == b || x in budgets[1..];
      }
    }
  }

  /** The result holds each code once, and its codes are exactly those of the
      dated budgets that are active. */
  lemma AllCountriesAreActiveRecipients(env: Env, doc: OrgDoc)
    ensures UniqueCodes(AllCountries(env, doc))
    ensures forall code :: code in Codes(AllCountries(env, doc)) <==>
      exists b :: b in doc.countryBudgets && b.periodEnd.Some? && IsActiveBudget(env, b) && CountryOf(b).code == code
  {
    AllCountriesFromCodes(env, [], DatedCountryBudgets(doc.countryBudgets));
  }

  /** `all_countries`, with its loop. */
  method ComputeAllCountries(env: Env, doc: OrgDoc) returns (countries: seq<Country>)
    ensures countries == AllCountries(env, doc)
  {
    countries := [];
    var recipientCountryBudgets := DatedCountryBudgets(doc.countryBudgets);
    for i := 0 to |recipientCountryBudgets|
      invariant AllCountriesFrom(env, countries, recipientCountryBudgets[i..]) == AllCountries(env, doc)
    {
      var b := recipientCountryBudgets[i];
      assert recipientCountryBudgets[i..][0] == b && recipientCountryBudgets[i..][1..] == recipientCountryBudgets[i + 1..];
      if DateLaterThanNow(env, b.periodEnd) && BudgetHasValue(env.parsers, b) {
        countries := PutCountry(countries, CountryOf(b));
      }
    }
  }

  // ---------------------------------------------------------------------
  // country_strategy_papers

  /** `getCountryName`: the given name, else the code list's, else None. */
  function GetCountryName(env: Env, code: Option<string>, name: Option<string>): (r: Option<string>)
    ensures name.Some? ==> r == name
    ensures name.None? ==> (r.Some? <==> code.Some? && code.value in env.countryNames)
    ensures name.None? && r.Some? ==> r.value == env.countryNames[code.value]
  {
    if name.Some? then name
    else if code.Some? && code.value in env.countryNames then Some(env.countryNames[code.value])
    else None
  }

  /** `//document-link[category/@code='B03']` */
  function StrategyPapers(links: seq<DocumentLink>): (r: seq<DocumentLink>)
    ensures forall l :: l in r <==> l in links && "B03" in l.categories
  {
    if links == [] then []
    else (if "B03" in links[0].categories then [links[0]] else []) + StrategyPapers(links[1..])
  }

  /** The recipient test: a paper without `recipient-country` does not match;
      a missing code on either side raises (`None.lower()`); otherwise the codes
      are compared case-insensitively. */
  function CodeMatches(paper: DocumentLink, code: Option<string>): (r: Result<bool>)
    ensures paper.recipient.None? ==> r == Ok(false)
    ensures paper.recipient.Some? && code.None? ==> r.Raise?
    ensures code.Some? && paper.recipient == Some(code) ==> r == Ok(true)
  {
    match paper.recipient
    case None => Ok(false)
    case Some(recipientCode) =>
      if recipientCode.None? || code.None? then Raise
      else Ok(Lower(recipientCode.value) == Lower(code.value))
  }

  /** The title text searched: the first title's text, or when that is empty
      or blank the text of its first narrative.  None stands for the error a
      missing title, a missing narrative or a missing text raises. */
  function PaperTitleText(paper: DocumentLink): (r: Option<string>)
    ensures r.Some? ==> paper.titles != []
    ensures paper.titles != [] && paper.titles[0].text.Some? && !IsBlank(paper.titles[0].text.value) ==>
      r == paper.titles[0].text
    ensures paper.titles != [] && (paper.titles[0].text.None? || IsBlank(paper.titles[0].text.value)) ==>
      r == (if paper.titles[0].narratives == [] then None else paper.titles[0].narratives[0])
  {
    if paper.titles == [] then None
    else
      var title := paper.titles[0];
      if title.text.None? || IsBlank(title.text.value) then (if title.narratives == [] then None else title.narratives[0])
      else title.text
  }

  /** One paper against one country: a recipient match removes the country and
      skips the title; otherwise a known name found in the title removes it. */
  function PaperMatches(paper: DocumentLink, code: Option<string>, name: Option<string>): (r: Result<bool>)
    ensures CodeMatches(paper, code).Raise? ==> r.Raise?
    ensures CodeMatches(paper, code) == Ok(true) ==> r == Ok(true)
    ensures CodeMatches(paper, code) == Ok(false) && name.None? ==> r == Ok(false)
  {
    match CodeMatches(paper, code)
    case Raise => Raise
    case Ok(true) => Ok(true)
    case Ok(false) =>
      if name.None? then Ok(false)
      else
        match PaperTitleText(paper)
        case None => Raise
        case Some(text) => Ok(ContainsIgnoringCase(text, name.value))
  }

  /** The paper loop for one country: every paper is looked at. */
  function CountryMatchedFrom(matched: bool, papers: seq<DocumentLink>, code: Option<string>, name: Option<string>): (r: Result<bool>)
    ensures matched && r.Ok? ==> r.value
    ensures papers == [] ==> r == Ok(matched)
    decreases |papers|
  {
    if papers == [] then Ok(matched)
    else
      match PaperMatches(papers[0], code, name)
      case Raise => Raise
      case Ok(m) => CountryMatchedFrom(matched || m, papers[1..], code, name)
  }

  /** The paper loop for one country succeeds iff no paper's test raises, and
      then the country is matched iff it already was or some paper matches it,
      by recipient code or by name in the title. */
  lemma {:induction false} CountryMatchedFromMeaning(matched: bool, papers: seq<DocumentLink>, code: Option<string>, name: Option<string>)
    ensures CountryMatchedFrom(matched, papers, code, name).Ok? <==>
      forall i :: 0 <= i < |papers| ==> PaperMatches(papers[i], code, name).Ok?
    ensures CountryMatchedFrom(matched, papers, code, name).Ok? ==>
      (CountryMatchedFrom(matched, papers, code, name).value <==>
       matched || exists i :: 0 <= i < |papers| && PaperMatches(papers[i], code, name) == Ok(true))
    decreases |papers|
  {
    if papers != [] {
      var rest := papers[1..];
      assert forall i :: 0 < i < |papers| ==> papers[i] == rest[i - 1];
      match PaperMatches(papers[0], code, name)
      case Raise =>
      case Ok(m) =>
        CountryMatchedFromMeaning(matched || m, rest, code, name);
        if exists i :: 0 <= i < |rest| && PaperMatches(rest[i], code, name) == Ok(true) {
          var i :| 0 <= i < |rest| && PaperMatches(rest[i], code, name) == Ok(true);
          assert PaperMatches(papers[i + 1], code, name) == Ok(true);
        }
        if forall i :: 0 <= i < |rest| ==> PaperMatches(rest[i], code, name).Ok? {
          assert forall i :: 0 <= i < |papers| ==> PaperMatches(papers[i], code, name).Ok? by {
            forall i | 0 <= i < |papers| ensures PaperMatches(papers[i], code, name).Ok? {
              if i > 0 { assert PaperMatches(rest[i - 1], code, name).Ok?; }
            }
          }
        }
    }
  }

  /** `countries.pop(code)` with the KeyError ignored. */
  function RemoveCode(cs: seq<Country>, code: Option<string>): (r: seq<Country>)
    ensures forall c :: c in r <==> c in cs && c.code != code
    ensures |r| <= |cs|
    ensures (forall c :: c in cs ==> c.code != code) ==> r == cs
  {
    if cs == [] then []
    else (if cs[0].code == code then [] else [cs[0]]) + RemoveCode(cs[1..], code)
  }

  /** The country loop: each pending country that some paper matches is
      removed from the remaining ones. */
  function UnmatchedFrom(env: Env, papers: seq<DocumentLink>, pending: seq<Country>, remaining: seq<Country>): (r: Result<seq<Country>>)
    ensures r.Ok? ==> |r.value| <= |remaining| && forall c :: c in r.value ==> c in remaining
    ensures pending == [] ==> r == Ok(remaining)
    decreases |pending|
  {
    if pending == [] then Ok(remaining)
    else
      var c := pending[0];
      match CountryMatchedFrom(false, papers, c.code, GetCountryName(env, c.code, c.name))
      case Raise => Raise
      case Ok(m) => UnmatchedFrom(env, papers, pending[1..], if m then RemoveCode(remaining, c.code) else remaining)
  }

  /** `country_strategy_papers`: the percentage of active countries some
      strategy paper covers; with no active country, or none covered, the
      sector proxy is used. */
  function CountryStrategyPapers(env: Env, doc: OrgDoc): Result<real>
  {
    var countries := AllCountries(env, doc);
    if |countries| == 0 then TotalSectorStrategyPapers(env, doc)
    else
      match UnmatchedFrom(env, StrategyPapers(doc.documentLinks), countries, countries)
      case Raise => Raise
      case Ok(rest) =>
        var csp := 100.0 - (|rest| as real / |countries| as real) * 100.0;
        if csp > 0.0 then Ok(csp) else TotalSectorStrategyPapers(env, doc)
  }

  lemma {:induction false} UnmatchedShrinks(env: Env, papers: seq<DocumentLink>, pending: seq<Country>, remaining: seq<Country>)
    requires UnmatchedFrom(env, papers, pending, remaining).Ok?
    ensures |UnmatchedFrom(env, papers, pending, remaining).value| <= |remaining|
    decreases |pending|
  {
    if pending != [] {
      var c := pending[0];
      var m := CountryMatchedFrom(false, papers, c.code, GetCountryName(env, c.code, c.name)).value;
      UnmatchedShrinks(env, papers, pending[1..], if m then RemoveCode(remaining, c.code) else remaining);
    }
  }

  /** A remaining country is exactly one that no paper matched, by code or by name. */
  lemma {:induction false} UnmatchedAreThoseNoPaperMatches(env: Env, papers: seq<DocumentLink>, pending: seq<Country>,
                                                           remaining: seq<Country>, c: Country)
    requires UnmatchedFrom(env, papers, pending, remaining).Ok?
    ensures c in UnmatchedFrom(env, papers, pending, remaining).value <==>
      c in remaining && forall d :: d in pending && d.code == c.code ==>
        CountryMatchedFrom(false, papers, d.code, GetCountryName(env, d.code, d.name)) == Ok(false)
    decreases |pending|
  {
    if pending != [] {
      var d0 := pending[0];
      var m := CountryMatchedFrom(false, papers, d0.code, GetCountryName(env, d0.code, d0.name)).value;
      UnmatchedAreThoseNoPaperMatches(env, papers, pending[1..], if m then RemoveCode(remaining, d0.code) else remaining, c);
      assert forall d :: d in pending <==> d == d0 || d in pending[1..];
    }
  }

  /** The country strategy score lies in 0..100. */
  lemma CountryStrategyPapersRange(env: Env, doc: OrgDoc)
    requires CountryStrategyPapers(env, doc).Ok?
    ensures 0.0 <= CountryStrategyPapers(env, doc).value <= 100.0
  {
    var countries := AllCountries(env, doc);
    if |countries| > 0 {
      var papers := StrategyPapers(doc.documentLinks);
      UnmatchedShrinks(env, papers, countries, countries);
      var rest := UnmatchedFrom(env, papers, countries, countries).value;
      var f, n := |rest| as real, |countries| as real;
      assert f / n * n == f;
      if 100.0 - f / n * 100.0 <= 0.0 {
        SectorStrategyPapersRange(env, doc);
      }
    } else {
      SectorStrategyPapersRange(env, doc);
    }
  }

  /** `100 - f / n * 100` is positive exactly when `f < n`. */
  lemma UncoveredShare(f: real, n: real)
    requires 0.0 <= f <= n && n > 0.0
    ensures f < n ==> 100.0 - f / n * 100.0 > 0.0
    ensures f == n ==> 100.0 - f / n * 100.0 == 0.0
  {
    if f < n {
      var q := f / n;
      assert q * n == f;
      assert q < 1.0 by {
        if q >= 1.0 {
          assert false;
        }
      }
      assert q * 100.0 < 100.0;
    } else {
      assert f / n == n / n;
    }
  }

  /** The sector proxy is used exactly when no active country is covered. */
  lemma CountryStrategyPapersFallback(env: Env, doc: OrgDoc)
    requires |AllCountries(env, doc)| > 0
    requires UnmatchedFrom(env, StrategyPapers(doc.documentLinks), AllCountries(env, doc), AllCountries(env, doc)).Ok?
    ensures var countries := AllCountries(env, doc);
      var rest := UnmatchedFrom(env, StrategyPapers(doc.documentLinks), countries, countries).value;
      (|rest| == |countries| ==> CountryStrategyPapers(env, doc) == TotalSectorStrategyPapers(env, doc)) &&
      (|rest| < |countries| ==> CountryStrategyPapers(env, doc) == Ok(100.0 - (|rest| as real / |countries| as real) * 100.0))
  {
    var countries := AllCountries(env, doc);
    var papers := StrategyPapers(doc.documentLinks);
    UnmatchedShrinks(env, papers, countries, countries);
    var rest := UnmatchedFrom(env, papers, countries, countries).value;
    UncoveredShare(|rest| as real, |countries| as real);
  }

  /** The paper loop of `country_strategy_papers` for one country, with its
      `continue` and its pops. */
  method MatchCountry(papers: seq<DocumentLink>, code: Option<string>, name: Option<string>, countries: seq<Country>)
    returns (r: Result<seq<Country>>)
    ensures match CountryMatchedFrom(false, papers, code, name)
            case Raise => r.Raise?
            case Ok(m) => r == Ok(if m then RemoveCode(countries, code) else countries)
  {
    var remaining := countries;
    ghost var matched := false;
    for j := 0 to |papers|
      invariant remaining == if matched then RemoveCode(countries, code) else countries
      invariant CountryMatchedFrom(matched, papers[j..], code, name) == CountryMatchedFrom(false, papers, code, name)
    {
      var strategyPaper := papers[j];
      assert papers[j..][0] == strategyPaper && papers[j..][1..] == papers[j + 1..];
      var recipient := strategyPaper.recipient;
      if recipient.Some? {
        if recipient.value.None? || code.None? {
          return Raise;
        }
        if Lower(recipient.value.value) == Lower(code.value) {
          remaining := RemoveCode(remaining, code);
          matched := true;
          continue;
        }
      }
      if name.Some? {
        var title := PaperTitleText(strategyPaper);
        if title.None? {
          return Raise;
        }
        if ContainsIgnoringCase(title.value, name.value) {
          remaining := RemoveCode(remaining, code);
          matched := true;
        }
      }
    }
    return Ok(remaining);
  }

  /** `country_strategy_papers`, with its loops. */
  method ComputeCountryStrategyPapers(env: Env, doc: OrgDoc) returns (r: Result<real>)
    ensures r == CountryStrategyPapers(env, doc)
  {
    var countries := ComputeAllCountries(env, doc);
    if |countries| == 0 {
      r := ComputeTotalSectorStrategyPapers(env, doc);
      return;
    }
    var totalCountries := |countries|;
    var strategyPapers := StrategyPapers(doc.documentLinks);
    var items := countries;
    for i := 0 to |items|
      invariant UnmatchedFrom(env, strategyPapers, items[i..], countries) == UnmatchedFrom(env, strategyPapers, items, items)
    {
      var code := items[i].code;
      assert items[i..][0] == items[i] && items[i..][1..] == items[i + 1..];
      var name := GetCountryName(env, code, items[i].name);
      var next := MatchCountry(strategyPapers, code, name, countries);
      if next.Raise? {
        return Raise;
      }
      countries := next.value;
    }
    var csp := 100.0 - (|countries| as real / totalCountries as real) * 100.0;
    if csp > 0.0 {
      return Ok(csp);
    }
    r := ComputeTotalSectorStrategyPapers(env, doc);
  }
}
