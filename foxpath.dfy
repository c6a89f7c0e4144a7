/** The rule compiler: one-line rule sentences ("title/text() exists?") become
    predicates over an activity.  The grammar is an ordered list of templates and
    the first template that accepts the sentence decides the rule. */
module Foxpath {
  import opened Base

  /** The fields of a test row that the compiler reads. */
  datatype TestRow = TestRow(id: int, name: string, testLevel: int)

  /** A document unit as the rules see it: `activity.xpath(expr)` gives the
      selected text values, or `None` when evaluating the expression raises. */
  type Selector = string -> Option<seq<string>>

  /** `ignore_line`: the line starts with '#', or `^$` matches it.  `$` also
      matches just before a final newline, so a lone "\n" counts as blank. */
  predicate IgnoreLine(line: string)
  {
    (line != [] && line[0] == '#') || line == "" || line == "\n"
  }

  /** `ignore_line` skips comments and the two texts `^$` matches, but not a
      line of spaces. */
  lemma IgnoreLineCases(line: string)
    ensures line != [] && line[0] == '#' ==> IgnoreLine(line)
    ensures IgnoreLine("") && IgnoreLine("\n")
    ensures !IgnoreLine(" ") && !IgnoreLine("\t\n")
  {
  }

  /** A rule as the first matching template reads it; the fields are the
      template's captured groups. */
  datatype Rule =
    | IsA(selector: string, typeName: string)             // (\S*) is an? (.*)\?
    | MoreChars(selector: string, limit: string)          // (\S*) has more than (\S*) characters\?
    | SumTo(selector: string, total: string)              // (\S*) sum to (\S*)\?
    | ExistsN(selector: string, times: string)            // (\S*) exists (\S*) times?\?
    | ExistsMoreThan(selector: string, times: string)     // (\S*) exists more than (\S*) times?\?
    | Xor(first: string, second: string)                  // only one of (\S*) or (\S*) exists\?
    | Or(first: string, second: string)                   // (\S*) or (\S*) exists\?
    | Exists(selector: string)                            // (\S*) exists\?
    | CatchAll(text: string)                              // (.*)

  /** The templates, one per decorated handler. */
  datatype Template =
    | IsATemplate | MoreCharsTemplate | SumToTemplate | ExistsNTemplate
    | ExistsMoreThanTemplate | XorTemplate | OrTemplate | ExistsTemplate | CatchAllTemplate

  /** The `mappings` list, in the order the decorators append to it. */
  const Mappings: seq<Template> := [IsATemplate, MoreCharsTemplate, SumToTemplate, ExistsNTemplate,
                                    ExistsMoreThanTemplate, XorTemplate, OrTemplate, ExistsTemplate,
                                    CatchAllTemplate]

  /** The text after the literal prefix `lit`, if `s` starts with it. */
  function After(s: string, lit: string): (r: Option<string>)
    ensures r.Some? <==> lit <= s
    ensures r.Some? ==> s == lit + r.value
  {
    if lit <= s then Some(s[|lit|..]) else None
  }

  /** `(\S*) is an? (.*)\?` under `re.match`: the selector is the leading token,
      `n?` is tried with the 'n' first, and the greedy `(.*)` stops at the last
      '?' of the first line. */
  function MatchIsA(line: string): Option<Rule>
  {
    var sel := Token(line);
    match After(line[|sel|..], " is a")
    case None => None
    case Some(r) =>
      if !("n " <= r || " " <= r) then None
      else
        var body := FirstLine(if "n " <= r then r[2..] else r[1..]);
        match LastIndexOf(body, '?')
        case None => None
        case Some(k) => Some(IsA(sel, body[..k]))
  }

  /** `(\S*) has more than (\S*) characters\?` */
  function MatchMoreChars(line: string): Option<Rule>
  {
    var sel := Token(line);
    match After(line[|sel|..], " has more than ")
    case None => None
    case Some(r) =>
      var n := Token(r);
      if " characters?" <= r[|n|..] then Some(MoreChars(sel, n)) else None
  }

  /** `(\S*) sum to (\S*)\?`: '?' is not whitespace, so the second group is the
      token up to its last '?'. */
  function MatchSumTo(line: string): Option<Rule>
  {
    var sel := Token(line);
    match After(line[|sel|..], " sum to ")
    case None => None
    case Some(r) =>
      var t := Token(r);
      match LastIndexOf(t, '?')
      case None => None
      case Some(k) => Some(SumTo(sel, t[..k]))
  }

  /** ` time` followed by `s?\?`: "s?" or "?". */
  predicate TimesSuffix(r: string)
  {
    match After(r, " time")
    case None => false
    case Some(q) => "s?" <= q || "?" <= q
  }

  /** `(\S*) exists (\S*) times?\?` */
  function MatchExistsN(line: string): Option<Rule>
  {
    var sel := Token(line);
    match After(line[|sel|..], " exists ")
    case None => None
    case Some(r) =>
      var n := Token(r);
      if TimesSuffix(r[|n|..]) then Some(ExistsN(sel, n)) else None
  }

  /** `(\S*) exists more than (\S*) times?\?` */
  function MatchExistsMoreThan(line: string): Option<Rule>
  {
    var sel := Token(line);
    match After(line[|sel|..], " exists more than ")
    case None => None
    case Some(r) =>
      var n := Token(r);
      if TimesSuffix(r[|n|..]) then Some(ExistsMoreThan(sel, n)) else None
  }

  /** `(\S*) or (\S*) exists\?` on `s`, giving the two selectors. */
  function MatchPair(s: string): Option<(string, string)>
  {
    var a := Token(s);
    match After(s[|a|..], " or ")
    case None => None
    case Some(r) =>
      var b := Token(r);
      if " exists?" <= r[|b|..] then Some((a, b)) else None
  }

  /** `only one of (\S*) or (\S*) exists\?` */
  function MatchXor(line: string): Option<Rule>
  {
    match After(line, "only one of ")
    case None => None
    case Some(r) =>
      match MatchPair(r)
      case None => None
      case Some((a, b)) => Some(Xor(a, b))
  }

  /** `(\S*) or (\S*) exists\?` */
  function MatchOr(line: string): Option<Rule>
  {
    match MatchPair(line)
    case None => None
    case Some((a, b)) => Some(Or(a, b))
  }

  /** `(\S*) exists\?` */
  function MatchExists(line: string): Option<Rule>
  {
    var sel := Token(line);
    if " exists?" <= line[|sel|..] then Some(Exists(sel)) else None
  }

  /** The first captured group: the selector a handler evaluates first. */
  function FirstSelector(r: Rule): string
  {
    match r
    case IsA(sel, _) => sel
    case MoreChars(sel, _) => sel
    case SumTo(sel, _) => sel
    case ExistsN(sel, _) => sel
    case ExistsMoreThan(sel, _) => sel
    case Xor(a, _) => a
    case Or(a, _) => a
    case Exists(sel) => sel
    case CatchAll(text) => text
  }

  /** `re.match` of one template against a rule sentence (matches at the start
      only; trailing text is allowed). */
  function Match(t: Template, line: string): Option<Rule>
  {
    match t
    case IsATemplate => MatchIsA(line)
    case MoreCharsTemplate => MatchMoreChars(line)
    case SumToTemplate => MatchSumTo(line)
    case ExistsNTemplate => MatchExistsN(line)
    case ExistsMoreThanTemplate => MatchExistsMoreThan(line)
    case XorTemplate => MatchXor(line)
    case OrTemplate => MatchOr(line)
    case ExistsTemplate => MatchExists(line)
    case CatchAllTemplate => Some(CatchAll(FirstLine(line)))
  }

  /** The first template of `ms` that accepts `line`, with its position. */
  function FirstMatch(ms: seq<Template>, line: string): (r: Option<(nat, Rule)>)
    ensures r.Some? ==> r.value.0 < |ms| && Match(ms[r.value.0], line) == Some(r.value.1)
    ensures r.Some? ==> forall j :: 0 <= j < r.value.0 ==> Match(ms[j], line).None?
    ensures r.None? ==> forall j :: 0 <= j < |ms| ==> Match(ms[j], line).None?
  {
    if ms == [] then None
    else match Match(ms[0], line)
      case Some(rule) => Some((0, rule))
      case None =>
        match FirstMatch(ms[1..], line)
        case None => None
        case Some((i, rule)) => Some((i + 1, rule))
  }

  /** What the handler of a rule returns: `is_an` builds a predicate only for
      "integer" (None for "iso date" and, by falling off its end, for any other
      type name), `fail` returns None, and every `add_partial` handler becomes a
      predicate with its groups bound. */
  function Handler(r: Rule): (f: Option<Rule>)
    ensures f.Some? ==> f.value == r
  {
    match r
    case IsA(_, typeName) => if typeName == "iso date" then None else if typeName == "integer" then Some(r) else None
    case CatchAll(_) => None
    case _ => Some(r)
  }

  datatype CompileOutcome = Compiled(handler: Option<Rule>) | TestSyntaxError(line: string)

  /** `function_for_test`: the handler of the first matching template, or the
      syntax error raised when no template matches.  The catch-all `(.*)`
      accepts every sentence, so the syntax error is never raised. */
  function FunctionForTest(line: string): (r: CompileOutcome)
    ensures r.Compiled?
  {
    assert Match(Mappings[8], line).Some?;
    match FirstMatch(Mappings, line)
    case None => TestSyntaxError(line)
    case Some((_, rule)) => Compiled(Handler(rule))
  }

  /** `rm_blank`: the values that differ from ''. */
  function RemoveBlank(vs: seq<string>): (r: seq<string>)
    ensures |r| <= |vs|
    ensures forall v :: v in r <==> v in vs && v != ""
  {
    if vs == [] then [] else (if vs[0] != "" then [vs[0]] else []) + RemoveBlank(vs[1..])
  }

  /** `exist_check`: some selected value is non-blank. */
  function ExistCheck(unit: Selector, path: string): (r: Result<bool>)
    ensures r.Raise? <==> unit(path).None?
    ensures r.Ok? ==> (r.value <==> exists v :: v in unit(path).value && v != "")
  {
    match unit(path)
    case None => Raise
    case Some(vs) =>
      var kept := RemoveBlank(vs);
      assert kept != [] ==> kept[0] in kept;
      Ok(kept != [])
  }

  /** `reduce(lambda x, y: float(x) + float(y), vs, 0)`: the sum of the values,
      or `None` when one of them is not a number. */
  function SumValues(toFloat: string -> Option<real>, vs: seq<string>): (r: Option<real>)
    ensures r.Some? <==> forall i :: 0 <= i < |vs| ==> toFloat(vs[i]).Some?
  {
    if vs == [] then Some(0.0)
    else match SumValues(toFloat, vs[..|vs| - 1])
      case None => None
      case Some(acc) =>
        match toFloat(vs[|vs| - 1])
        case None => None
        case Some(v) => Some(acc + v)
  }

  /** `reduce(lambda x, y: x or y, map(lambda x: len(x) > n, vs), False)` */
  predicate SomeLonger(vs: seq<string>, n: int)
  {
    vs != [] && (|vs[0]| > n || SomeLonger(vs[1..], n))
  }

  /** A compiled predicate applied to a document unit.  Python's `map` is eager,
      so `int(N)` of "has more than N characters" is only evaluated (and can only
      raise) when something is selected; `or` evaluates its second check only
      when the first one is False. */
  function Eval(r: Rule, unit: Selector, p: Parsers): (res: Result<bool>)
    requires Handler(r).Some?
    ensures unit(FirstSelector(r)).None? ==> res == Raise
    ensures r.IsA? ==> res != Ok(true)
  {
    match r
    case IsA(sel, _) =>
      // is_an_integer folds `and` starting from False
      if unit(sel).None? then Raise else Ok(false)
    case MoreChars(sel, limit) =>
      (match unit(sel)
       case None => Raise
       case Some(vs) =>
         if vs == [] then Ok(false)
         else (match p.toInt(limit) case None => Raise case Some(n) => Ok(SomeLonger(vs, n))))
    case SumTo(sel, total) =>
      (match unit(sel)
       case None => Raise
       case Some(vs) =>
         (match SumValues(p.toFloat, RemoveBlank(vs))
          case None => Raise
          case Some(s) => (match p.toFloat(total) case None => Raise case Some(t) => Ok(s == t))))
    case ExistsN(sel, times) =>
      (match unit(sel)
       case None => Raise
       case Some(vs) => (match p.toInt(times) case None => Raise case Some(n) => Ok(|RemoveBlank(vs)| == n)))
    case ExistsMoreThan(sel, times) =>
      (match unit(sel)
       case None => Raise
       case Some(vs) => (match p.toInt(times) case None => Raise case Some(n) => Ok(|RemoveBlank(vs)| > n)))
    case Xor(a, b) =>
      (match ExistCheck(unit, a)
       case Raise => Raise
       case Ok(ea) => (match ExistCheck(unit, b) case Raise => Raise case Ok(eb) => Ok(ea != eb)))
    case Or(a, b) =>
      (match ExistCheck(unit, a)
       case Raise => Raise
       case Ok(ea) => if ea then Ok(true) else ExistCheck(unit, b))
    case Exists(sel) => ExistCheck(unit, sel)
  }

  /** The tests `generate_test_functions` compiles: activity level (1), and a
      name that `ignore_line` does not skip. */
  predicate Selected(t: TestRow)
  {
    t.testLevel == 1 && !IgnoreLine(t.name)
  }

  datatype Generated = Generated(functions: map<int, Option<Rule>>) | GenerationFailed(line: string)

  /** `dict(imap(test_data, tests))` over the selected tests, left to right:
      a later test with the same id replaces an earlier one.  A syntax error
      would stop the whole compilation, but `FunctionForTest` never gives one
      (`CompiledKeys`). */
  function CompileAll(tests: seq<TestRow>): Generated
    decreases |tests|
  {
    if tests == [] then Generated(map[])
    else
      var t := tests[|tests| - 1];
      match CompileAll(tests[..|tests| - 1])
      case GenerationFailed(line) => GenerationFailed(line)
      case Generated(m) =>
        if !Selected(t) then Generated(m)
        else match FunctionForTest(t.name)
          case TestSyntaxError(line) => GenerationFailed(line)
          case Compiled(f) => Generated(m[t.id := f])
  }

  /** `generate_test_functions`: iterates over the tests and fills the dict. */
  method GenerateTestFunctions(tests: seq<TestRow>) returns (g: Generated)
    ensures g == CompileAll(tests)
  {
    var functions: map<int, Option<Rule>> := map[];
    for i := 0 to |tests|
      invariant CompileAll(tests[..i]) == Generated(functions)
    {
      var t := tests[i];
      assert tests[..i + 1][..i] == tests[..i];
      if Selected(t) {
        // The source's `except StopIteration` (raising TestSyntaxError) is
        // unreachable: every sentence compiles.
        var f := FunctionForTest(t.name);
        functions := functions[t.id := f.handler];
      }
    }
    assert tests[..|tests|] == tests;
    g := Generated(functions);
  }

  // ---------------------------------------------------------------------
  // Properties of the compiler

  /** The template at position k decides when it accepts the sentence and no
      earlier one does. */
  lemma {:induction false} FirstMatchAt(ms: seq<Template>, line: string, k: nat)
    requires k < |ms| && Match(ms[k], line).Some?
    requires forall j :: 0 <= j < k ==> Match(ms[j], line).None?
    ensures FirstMatch(ms, line) == Some((k, Match(ms[k], line).value))
    decreases k
  {
    if k > 0 {
      assert Match(ms[0], line).None?;
      FirstMatchAt(ms[1..], line, k - 1);
      assert ms[1..][k - 1] == ms[k];
    }
  }

  /** One step of `CompileAll` once the earlier tests compiled. */
  lemma CompileAllStep(tests: seq<TestRow>)
    requires tests != []
    requires CompileAll(tests[..|tests| - 1]).Generated?
    ensures var t := tests[|tests| - 1];
      var m := CompileAll(tests[..|tests| - 1]).functions;
      CompileAll(tests) == if Selected(t) then Generated(m[t.id := FunctionForTest(t.name).handler]) else Generated(m)
  {
  }

  /** A sentence that no real template accepts falls to the catch-all and maps
      its test to None. */
  lemma UnmatchedMapsToNone(line: string)
    requires forall j :: 0 <= j < 8 ==> Match(Mappings[j], line).None?
    ensures FunctionForTest(line) == Compiled(None)
  {
    assert Mappings[8] == CatchAllTemplate;
    FirstMatchAt(Mappings, line, 8);
  }

  /** Compilation never fails, and exactly the selected test ids are keys. */
  lemma {:induction false} CompiledKeys(tests: seq<TestRow>)
    ensures CompileAll(tests).Generated?
    ensures forall id :: id in CompileAll(tests).functions <==> exists t :: t in tests && Selected(t) && t.id == id
    decreases |tests|
  {
    if tests != [] {
      var init := tests[..|tests| - 1];
      var t := tests[|tests| - 1];
      CompiledKeys(init);
      CompileAllStep(tests);
      forall id | id in CompileAll(tests).functions
        ensures exists u :: u in tests && Selected(u) && u.id == id
      {
        if id != t.id || !Selected(t) {
          var u :| u in init && Selected(u) && u.id == id;
          assert u in tests;
        }
      }
    }
  }

  /** For each key, the value comes from the last selected test with that id. */
  lemma {:induction false} LastTestWins(tests: seq<TestRow>, k: nat)
    requires k < |tests| && Selected(tests[k])
    requires forall j :: k < j < |tests| ==> !(Selected(tests[j]) && tests[j].id == tests[k].id)
    ensures CompileAll(tests).Generated?
    ensures tests[k].id in CompileAll(tests).functions
    ensures Compiled(CompileAll(tests).functions[tests[k].id]) == FunctionForTest(tests[k].name)
    decreases |tests|
  {
    CompiledKeys(tests);
    var init := tests[..|tests| - 1];
    if k < |tests| - 1 {
      LastTestWins(init, k);
    } else {
      CompiledKeys(init);
    }
  }

  /** The token of a sentence is its text up to the first whitespace. */
  lemma LeadingToken(s: string, k: nat)
    requires k < |s| && IsSpace(s[k])
    requires forall i :: 0 <= i < k ==> !IsSpace(s[i])
    ensures Token(s) == s[..k]
  {
  }

  /** A sentence starting "only one of " has the leading token "only", so none
      of the five templates before the xor one accepts it: each needs that token
      to be followed by " is a", " has", " sum" or " exists". */
  lemma OnlyOneOfSkipsEarlierTemplates(line: string)
    requires "only one of " <= line
    ensures forall j :: 0 <= j < 5 ==> Match(Mappings[j], line).None?
  {
    assert line[4] == ' ';
    LeadingToken(line, 4);
    var rest := line[4..];
    assert rest[1] == 'o';
    assert After(rest, " is a").None?;
    assert After(rest, " has more than ").None?;
    assert After(rest, " sum to ").None?;
    assert After(rest, " exists ").None?;
    assert After(rest, " exists more than ").None?;
  }

  /** A sentence that the xor template accepts compiles to the xor predicate,
      never to a handler tried later such as the or template's. */
  lemma XorBeforeOr(line: string)
    requires MatchXor(line).Some?
    ensures FunctionForTest(line) == Compiled(MatchXor(line))
  {
    OnlyOneOfSkipsEarlierTemplates(line);
    assert Mappings[5] == XorTemplate;
    FirstMatchAt(Mappings, line, 5);
  }

  /** The example sentence of the xor template. */
  lemma XorExample()
    ensures FunctionForTest("only one of a or b exists?") == Compiled(Some(Xor("a", "b")))
  {
    var line := "only one of a or b exists?";
    assert line[12..] == "a or b exists?";
    assert After(line, "only one of ") == Some("a or b exists?");
    PairExample();
    assert MatchXor(line) == Some(Xor("a", "b"));
    XorBeforeOr(line);
  }

  /** The two selectors of "a or b exists?". */
  lemma PairExample()
    ensures MatchPair("a or b exists?") == Some(("a", "b"))
  {
    var r := "a or b exists?";
    LeadingToken(r, 1);
    assert r[..1] == "a";
    assert r[1..] == " or b exists?";
    var q := r[1..][4..];
    assert q == "b exists?";
    LeadingToken(q, 1);
    assert q[..1] == "b";
    assert q[1..] == " exists?";
  }

  /** The type names of the is-a template: only "integer" builds a predicate;
      "iso date" and any other name compile to None. */
  lemma IsATypeNames(line: string)
    requires MatchIsA(line).Some?
    ensures var r := MatchIsA(line).value;
      FunctionForTest(line) == Compiled(if r.typeName == "integer" then Some(r) else None)
  {
  }

  /** "is an integer?" folds `and` from False: it is False for every selection,
      and raises only when the selector itself raises. */
  lemma IsAnIntegerNeverTrue(sel: string, unit: Selector, p: Parsers)
    ensures Eval(IsA(sel, "integer"), unit, p) == (if unit(sel).None? then Raise else Ok(false))
  {
  }

  /** "exists?" is True iff some selected value differs from ''. */
  lemma ExistsIff(sel: string, unit: Selector, p: Parsers)
    ensures unit(sel).None? <==> Eval(Exists(sel), unit, p).Raise?
    ensures unit(sel).Some? ==>
      (Eval(Exists(sel), unit, p) == Ok(true) <==> exists v :: v in unit(sel).value && v != "")
  {
    if unit(sel).Some? {
      var vs := unit(sel).value;
      if exists v :: v in vs && v != "" {
        var v :| v in vs && v != "";
        assert v in RemoveBlank(vs);
      }
      if RemoveBlank(vs) != [] {
        assert RemoveBlank(vs)[0] in RemoveBlank(vs);
      }
    }
  }

  /** "a or b exists?" is the disjunction of the two presence checks, and its
      second selector is not evaluated when the first one finds a value. */
  lemma OrIsDisjunction(a: string, b: string, unit: Selector, p: Parsers)
    requires ExistCheck(unit, a).Ok?
    ensures ExistCheck(unit, a).value ==> Eval(Or(a, b), unit, p) == Ok(true)
    ensures ExistCheck(unit, b).Ok? ==>
      Eval(Or(a, b), unit, p) == Ok(ExistCheck(unit, a).value || ExistCheck(unit, b).value)
  {
  }

  /** "only one of a or b exists?" is True iff exactly one of the two is present. */
  lemma XorIsExclusive(a: string, b: string, unit: Selector, p: Parsers)
    requires ExistCheck(unit, a).Ok? && ExistCheck(unit, b).Ok?
    ensures Eval(Xor(a, b), unit, p) == Ok(ExistCheck(unit, a).value != ExistCheck(unit, b).value)
  {
  }

  /** "exists N times?" and "exists more than N times?" compare the number of
      non-blank values with `int(N)`; a non-numeric N raises. */
  lemma {:induction false} ExistsTimesCounts(sel: string, times: string, unit: Selector, p: Parsers)
    requires unit(sel).Some?
    ensures p.toInt(times).None? ==> Eval(ExistsN(sel, times), unit, p).Raise? && Eval(ExistsMoreThan(sel, times), unit, p).Raise?
    ensures p.toInt(times).Some? ==>
      Eval(ExistsN(sel, times), unit, p) == Ok(CountNonBlank(unit(sel).value) == p.toInt(times).value) &&
      Eval(ExistsMoreThan(sel, times), unit, p) == Ok(CountNonBlank(unit(sel).value) > p.toInt(times).value)
  {
    RemoveBlankCount(unit(sel).value);
  }

  /** How many of the values differ from ''. */
  function CountNonBlank(vs: seq<string>): nat
  {
    if vs == [] then 0 else CountNonBlank(vs[..|vs| - 1]) + (if vs[|vs| - 1] != "" then 1 else 0)
  }

  lemma {:induction false} RemoveBlankCount(vs: seq<string>)
    ensures |RemoveBlank(vs)| == CountNonBlank(vs)
  {
    if vs != [] {
      RemoveBlankCount(vs[1..]);
      CountNonBlankFront(vs);
    }
  }

  lemma {:induction false} CountNonBlankFront(vs: seq<string>)
    requires vs != []
    ensures CountNonBlank(vs) == (if vs[0] != "" then 1 else 0) + CountNonBlank(vs[1..])
  {
    if |vs| > 1 {
      assert vs[1..][..|vs[1..]| - 1] == vs[..|vs| - 1][1..];
      CountNonBlankFront(vs[..|vs| - 1]);
    } else {
      assert vs[..0] == [];
    }
  }

  /** "has more than N characters?" is existential: True iff some selected value
      is longer than `int(N)`; an empty selection gives False, whatever N is. */
  lemma {:induction false} MoreCharsExistential(sel: string, limit: string, unit: Selector, p: Parsers)
    requires unit(sel).Some?
    ensures unit(sel).value == [] ==> Eval(MoreChars(sel, limit), unit, p) == Ok(false)
    ensures unit(sel).value != [] && p.toInt(limit).Some? ==>
      (Eval(MoreChars(sel, limit), unit, p) == Ok(true) <==>
       exists i :: 0 <= i < |unit(sel).value| && |unit(sel).value[i]| > p.toInt(limit).value)
  {
    if unit(sel).value != [] && p.toInt(limit).Some? {
      SomeLongerIff(unit(sel).value, p.toInt(limit).value);
    }
  }

  lemma {:induction false} SomeLongerIff(vs: seq<string>, n: int)
    ensures SomeLonger(vs, n) <==> exists i :: 0 <= i < |vs| && |vs[i]| > n
  {
    if vs != [] {
      SomeLongerIff(vs[1..], n);
      if exists i :: 0 <= i < |vs| && |vs[i]| > n {
        var i :| 0 <= i < |vs| && |vs[i]| > n;
        if i > 0 { assert |vs[1..][i - 1]| > n; }
      }
    }
  }

  /** "sum to N?": the blank values are left out, an empty selection sums to 0,
      and the sum is compared for equality with `float(N)`. */
  lemma SumToEmptyIsZero(sel: string, total: string, unit: Selector, p: Parsers)
    requires unit(sel).Some? && RemoveBlank(unit(sel).value) == []
    requires p.toFloat(total).Some?
    ensures Eval(SumTo(sel, total), unit, p) == Ok(p.toFloat(total).value == 0.0)
  {
  }

  /** The example of "sum to" with values "", "2" and "3.5". */
  lemma SumToExample(unit: Selector, p: Parsers)
    requires unit("x") == Some(["", "2", "3.5"])
    requires p.toFloat("2") == Some(2.0) && p.toFloat("3.5") == Some(3.5)
    requires p.toFloat("5.5") == Some(5.5) && p.toFloat("6") == Some(6.0)
    ensures Eval(SumTo("x", "5.5"), unit, p) == Ok(true)
    ensures Eval(SumTo("x", "6"), unit, p) == Ok(false)
  {
    var vs := ["", "2", "3.5"];
    assert RemoveBlank(vs) == ["2", "3.5"] by {
      assert RemoveBlank(vs[2..]) == ["3.5"];
      assert RemoveBlank(vs[1..]) == ["2"] + RemoveBlank(vs[2..]);
    }
    assert ["2", "3.5"][..1] == ["2"];
    assert SumValues(p.toFloat, ["2"]) == Some(2.0);
  }

  /** The example of "has more than 3 characters" with values "ab" and "abcdef". */
  lemma MoreCharsExample(unit: Selector, p: Parsers)
    requires unit("x") == Some(["ab", "abcdef"]) && p.toInt("3") == Some(3)
    ensures Eval(MoreChars("x", "3"), unit, p) == Ok(true)
  {
    assert |["ab", "abcdef"][1]| > 3;
    SomeLongerIff(["ab", "abcdef"], 3);
  }
}
