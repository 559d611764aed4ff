/** The test runner: it picks the repository's test framework, runs that framework's command
    through the command executor and turns the command's output into counts of passed,
    failed and skipped tests. */
module TestRunner {
  import opened Common
  import opened Paths
  import opened CommandExecutor

  datatype Framework = Jest | Mocha | Pytest | GoTest

  /** The name the result carries. */
  function FrameworkName(f: Framework): string {
    match f
    case Jest => "jest"
    case Mocha => "mocha"
    case Pytest => "pytest"
    case GoTest => "go-test"
  }

  // ---------------------------------------------------------------------------
  // Framework detection

  /** The two dependency tables of `package.json`; a missing table is empty. */
  datatype Manifest = Manifest(dependencies: map<string, string>, devDependencies: map<string, string>)

  /** What detection looks at: `package.json` when it can be read and parsed, and whether
      `pytest.ini` and `go.mod` exist. */
  datatype Probe = Probe(manifest: Option<Manifest>, hasPytestIni: bool, hasGoMod: bool)

  /** `{...dependencies, ...devDependencies}`: a development entry overrides. */
  function Dependencies(m: Manifest): (deps: map<string, string>)
    ensures deps.Keys == m.dependencies.Keys + m.devDependencies.Keys
    ensures forall k :: k in m.devDependencies ==> deps[k] == m.devDependencies[k]
  {
    m.dependencies + m.devDependencies
  }

  /** `deps[name]` is truthy: declared with a non-empty version. */
  predicate Declares(deps: map<string, string>, name: string) {
    name in deps && deps[name] != ""
  }

  predicate DeclaresJest(m: Manifest) {
    Declares(Dependencies(m), "jest") || Declares(Dependencies(m), "@types/jest")
  }

  /** The manifest decides the framework by itself. */
  predicate ManifestDecides(p: Probe) {
    p.manifest.Some? && (DeclaresJest(p.manifest.value) || Declares(Dependencies(p.manifest.value), "mocha"))
  }

  /** `detectTestFramework`: jest, then mocha from the manifest, then `pytest.ini`, then
      `go.mod`, and jest when nothing matches. */
  function DetectTestFramework(p: Probe): (f: Framework)
    ensures p.manifest.Some? && DeclaresJest(p.manifest.value) ==> f == Jest
    ensures f == Mocha <==> p.manifest.Some? && !DeclaresJest(p.manifest.value)
                            && Declares(Dependencies(p.manifest.value), "mocha")
    ensures f == Pytest <==> !ManifestDecides(p) && p.hasPytestIni
    ensures f == GoTest <==> !ManifestDecides(p) && !p.hasPytestIni && p.hasGoMod
    ensures f == Jest <==> (p.manifest.Some? && DeclaresJest(p.manifest.value))
                           || (!ManifestDecides(p) && !p.hasPytestIni && !p.hasGoMod)
  {
    if p.manifest.Some? && DeclaresJest(p.manifest.value) then Jest
    else if p.manifest.Some? && Declares(Dependencies(p.manifest.value), "mocha") then Mocha
    else if p.hasPytestIni then Pytest
    else if p.hasGoMod then GoTest
    else Jest
  }

  // ---------------------------------------------------------------------------
  // Commands

  /** The jest command: a `--testPathPattern` only when the tests joined with '|' are not
      empty. */
  function JestCommand(tests: Option<seq<string>>): (cmd: string)
    ensures var pattern := if tests.Some? then Join(tests.value, "|") else "";
      StartsWith(cmd, "npm test -- ")
      && (pattern == "" ==> cmd == "npm test -- --json --coverage")
      && (pattern != "" ==> OccursAt(cmd, "--testPathPattern=\"" + pattern + "\"", 12))
  {
    var pattern := if tests.Some? then Join(tests.value, "|") else "";
    if pattern != "" then
      var cmd := "npm test -- " + ("--testPathPattern=\"" + pattern + "\"" + " --json --coverage");
      assert cmd[12..12 + |"--testPathPattern=\"" + pattern + "\""|] == "--testPathPattern=\"" + pattern + "\"";
      cmd
    else "npm test -- --json --coverage"
  }

  /** The mocha command: the given tests joined with spaces, or the default glob when there
      is no list at all. */
  function MochaCommand(tests: Option<seq<string>>): (cmd: string)
  {
    var pattern := if tests.Some? then Join(tests.value, " ") else "test/**/*.test.js";
    "npx mocha " + pattern + " --reporter json"
  }

  /** The pytest command: the tests joined with spaces, when that is not empty. */
  function PytestCommand(tests: Option<seq<string>>): (cmd: string)
  {
    var pattern := if tests.Some? then Join(tests.value, " ") else "";
    "pytest " + (if pattern != "" then pattern + " --json-report --cov" else "--json-report --cov")
  }

  /** The go command: `-run` with the tests joined with '|', whenever a list is given. */
  function GoCommand(tests: Option<seq<string>>): (cmd: string)
  {
    var filter := if tests.Some? then "-run " + Join(tests.value, "|") else "";
    "go test ./... " + filter + " -json -cover"
  }

  function TestCommand(f: Framework, tests: Option<seq<string>>): string {
    match f
    case Jest => JestCommand(tests)
    case Mocha => MochaCommand(tests)
    case Pytest => PytestCommand(tests)
    case GoTest => GoCommand(tests)
  }

  /** An empty list of tests runs the whole jest suite, exactly like no list; mocha, in
      contrast, then gets no pattern and not its default glob. */
  lemma EmptyListOfTests()
    ensures JestCommand(Some([])) == JestCommand(None)
    ensures PytestCommand(Some([])) == PytestCommand(None)
    ensures MochaCommand(Some([])) != MochaCommand(None)
  {
    assert |MochaCommand(Some([]))| != |MochaCommand(None)|;
  }

  /** A command that starts with a prefix mentioning `test` or `mocha` is a test run. */
  lemma PrefixedTest(cmd: string, prefix: string, word: string, k: nat)
    requires word == "test" || word == "mocha"
    requires StartsWith(cmd, prefix) && OccursAt(prefix, word, k)
    ensures DetectExecutionType(cmd) == TEST
  {
    assert cmd[k..k + |word|] == prefix[k..k + |word|];
    assert OccursAt(cmd, word, k);
    ContainsIff(cmd, word);
  }

  lemma StartsWithConcat(a: string, b: string)
    ensures StartsWith(a + b, a)
  {
    assert (a + b)[..|a|] == a;
  }

  lemma JestCommandIsTest(tests: Option<seq<string>>)
    ensures DetectExecutionType(JestCommand(tests)) == TEST
  {
    assert OccursAt("npm test -- ", "test", 4);
    PrefixedTest(JestCommand(tests), "npm test -- ", "test", 4);
  }

  lemma MochaCommandIsTest(tests: Option<seq<string>>)
    ensures DetectExecutionType(MochaCommand(tests)) == TEST
  {
    var pattern := if tests.Some? then Join(tests.value, " ") else "test/**/*.test.js";
    assert MochaCommand(tests) == "npx mocha " + (pattern + " --reporter json");
    StartsWithConcat("npx mocha ", pattern + " --reporter json");
    assert OccursAt("npx mocha ", "mocha", 4);
    PrefixedTest(MochaCommand(tests), "npx mocha ", "mocha", 4);
  }

  lemma PytestCommandIsTest(tests: Option<seq<string>>)
    ensures DetectExecutionType(PytestCommand(tests)) == TEST
  {
    var pattern := if tests.Some? then Join(tests.value, " ") else "";
    var rest := if pattern != "" then pattern + " --json-report --cov" else "--json-report --cov";
    StartsWithConcat("pytest ", rest);
    assert OccursAt("pytest ", "test", 2);
    PrefixedTest(PytestCommand(tests), "pytest ", "test", 2);
  }

  lemma GoCommandIsTest(tests: Option<seq<string>>)
    ensures DetectExecutionType(GoCommand(tests)) == TEST
  {
    var filter := if tests.Some? then "-run " + Join(tests.value, "|") else "";
    assert GoCommand(tests) == "go test ./... " + (filter + " -json -cover");
    StartsWithConcat("go test ./... ", filter + " -json -cover");
    assert OccursAt("go test ./... ", "test", 3);
    PrefixedTest(GoCommand(tests), "go test ./... ", "test", 3);
  }

  /** Every test command is recorded by the executor as a TEST execution. */
  lemma TestCommandsAreTests(f: Framework, tests: Option<seq<string>>)
    ensures DetectExecutionType(TestCommand(f, tests)) == TEST
  {
    match f {
      case Jest => JestCommandIsTest(tests);
      case Mocha => MochaCommandIsTest(tests);
      case Pytest => PytestCommandIsTest(tests);
      case GoTest => GoCommandIsTest(tests);
    }
  }

  // ---------------------------------------------------------------------------
  // Results

  datatype Coverage = Coverage(lines: int, statements: int, functions: int, branches: int)

  /** An entry of `failures`. `Undefined` is what jest's `flatMap` leaves for a suite that
      has no `assertionResults`. */
  datatype FailureEntry = Failure(test: string, message: string, stack: Option<string>) | Undefined

  datatype TestResult = TestResult(framework: string, passed: int, failed: int, skipped: int, total: int,
                                   duration: int, coverage: Option<Coverage>, failures: seq<FailureEntry>)

  /** `x || 0` on a number field of the report; an absent field is `None`. */
  function OrZero(x: Option<int>): int {
    if x.Some? then x.value else 0
  }

  /** The result both JSON parsers give when the output does not parse. */
  function ParseErrorResult(f: Framework, result: ExecutionResult): TestResult {
    TestResult(FrameworkName(f), 0, 1, 0, 1, 0, None, [Failure("Parse Error", result.stderr, None)])
  }

  // Jest's report, as far as the mapping reads it.
  datatype Assertion = Assertion(title: string, status: string, failureMessages: Option<seq<string>>)
  datatype Suite = Suite(runtime: Option<int>, assertionResults: Option<seq<Assertion>>)
  datatype CoverageTotals = CoverageTotals(lines: Option<int>, statements: Option<int>, functions: Option<int>,
                                           branches: Option<int>)
  datatype JestReport = JestReport(numPassedTests: Option<int>, numFailedTests: Option<int>,
                                   numPendingTests: Option<int>, numTotalTests: Option<int>,
                                   testResults: Option<seq<Suite>>, coverageMap: Option<CoverageTotals>)

  /** `failureMessages?.join('\n') || 'Unknown error'`. */
  function JestMessage(a: Assertion): (m: string)
    ensures m != ""
    ensures a.failureMessages.Some? && Join(a.failureMessages.value, "\n") != "" ==> m == Join(a.failureMessages.value, "\n")
  {
    var joined := if a.failureMessages.Some? then Join(a.failureMessages.value, "\n") else "";
    if joined != "" then joined else "Unknown error"
  }

  /** The failed assertions of one suite, in order. */
  function FailedAssertions(assertions: seq<Assertion>): (r: seq<FailureEntry>)
    ensures |r| <= |assertions|
    ensures forall k :: 0 <= k < |r| ==> r[k].Failure? && r[k].stack.None? && r[k].message != ""
    decreases |assertions|
  {
    if assertions == [] then []
    else
      var rest := FailedAssertions(assertions[1..]);
      if assertions[0].status == "failed" then [Failure(assertions[0].title, JestMessage(assertions[0]), None)] + rest
      else rest
  }

  /** `testResults.flatMap(...)`. */
  function SuiteFailures(suites: seq<Suite>): (r: seq<FailureEntry>)
    decreases |suites|
  {
    if suites == [] then []
    else
      var first := if suites[0].assertionResults.Some? then FailedAssertions(suites[0].assertionResults.value)
                   else [Undefined];
      first + SuiteFailures(suites[1..])
  }

  /** `testResults.reduce((sum, r) => sum + (r.perfStats?.runtime || 0), 0)`. */
  function TotalRuntime(suites: seq<Suite>): int
    decreases |suites|
  {
    if suites == [] then 0 else OrZero(suites[0].runtime) + TotalRuntime(suites[1..])
  }

  /** A suite list reports nothing but failed assertions, and a failure for each of them. */
  lemma {:induction false} SuiteFailuresShape(suites: seq<Suite>)
    requires forall k :: 0 <= k < |suites| ==> suites[k].assertionResults.Some?
    ensures forall k :: 0 <= k < |SuiteFailures(suites)| ==> SuiteFailures(suites)[k].Failure?
    ensures (forall k, j :: 0 <= k < |suites| && 0 <= j < |suites[k].assertionResults.value| ==>
               suites[k].assertionResults.value[j].status != "failed") ==> SuiteFailures(suites) == []
    decreases |suites|
  {
    if suites != [] {
      SuiteFailuresShape(suites[1..]);
      NoFailedAssertions(suites[0].assertionResults.value);
    }
  }

  lemma {:induction false} NoFailedAssertions(assertions: seq<Assertion>)
    ensures (forall j :: 0 <= j < |assertions| ==> assertions[j].status != "failed") ==> FailedAssertions(assertions) == []
    decreases |assertions|
  {
    if assertions != [] {
      NoFailedAssertions(assertions[1..]);
    }
  }

  /** `parseJestResults`; `report` is `JSON.parse(stdout)`, `None` when that throws. */
  function ParseJestResults(result: ExecutionResult, report: Option<JestReport>): (r: TestResult)
    ensures r.framework == "jest"
    ensures report.Some? ==> r.passed == OrZero(report.value.numPassedTests) && r.failed == OrZero(report.value.numFailedTests)
                             && r.skipped == OrZero(report.value.numPendingTests) && r.total == OrZero(report.value.numTotalTests)
    ensures report.Some? ==> (r.coverage.Some? <==> report.value.coverageMap.Some?)
    ensures report.Some? && report.value.testResults.None? ==> r.failures == [] && r.duration == 0
  {
    match report
    case None => ParseErrorResult(Jest, result)
    case Some(data) =>
      var coverage := match data.coverageMap
        case None => None
        case Some(t) => Some(Coverage(OrZero(t.lines), OrZero(t.statements), OrZero(t.functions), OrZero(t.branches)));
      var suites := if data.testResults.Some? then data.testResults.value else [];
      TestResult("jest", OrZero(data.numPassedTests), OrZero(data.numFailedTests), OrZero(data.numPendingTests),
                 OrZero(data.numTotalTests), TotalRuntime(suites), coverage, SuiteFailures(suites))
  }

  // Mocha's report, as far as the mapping reads it.
  datatype MochaStats = MochaStats(passes: Option<int>, failures: Option<int>, pending: Option<int>, tests: Option<int>,
                                   duration: Option<int>)
  datatype MochaError = MochaError(message: Option<string>, stack: Option<string>)
  datatype MochaFailure = MochaFailure(title: string, err: Option<MochaError>)
  datatype MochaReport = MochaReport(stats: Option<MochaStats>, failures: Option<seq<MochaFailure>>)

  /** One failure: `err?.message || 'Unknown error'` and `err?.stack`. */
  function MochaEntry(t: MochaFailure): (e: FailureEntry)
    ensures e.Failure? && e.test == t.title && e.message != ""
    ensures t.err.Some? && t.err.value.message.Some? && t.err.value.message.value != "" ==> e.message == t.err.value.message.value
    ensures e.stack == if t.err.Some? then t.err.value.stack else None
  {
    var message := if t.err.Some? && t.err.value.message.Some? && t.err.value.message.value != "" then t.err.value.message.value
                   else "Unknown error";
    Failure(t.title, message, if t.err.Some? then t.err.value.stack else None)
  }

  /** `parseMochaResults`; `report` is `JSON.parse(stdout)`, `None` when that throws. */
  function ParseMochaResults(result: ExecutionResult, report: Option<MochaReport>): (r: TestResult)
    ensures r.framework == "mocha" && r.coverage.None?
    ensures report.Some? && report.value.failures.Some? ==>
              |r.failures| == |report.value.failures.value|
              && forall k :: 0 <= k < |r.failures| ==> r.failures[k] == MochaEntry(report.value.failures.value[k])
    ensures report.Some? && report.value.failures.None? ==> r.failures == []
    ensures report.Some? && report.value.stats.None? ==> r.passed == 0 && r.failed == 0 && r.skipped == 0 && r.total == 0
  {
    match report
    case None => ParseErrorResult(Mocha, result)
    case Some(data) =>
      var stats := if data.stats.Some? then data.stats.value else MochaStats(None, None, None, None, None);
      var failures := if data.failures.Some?
                      then seq(|data.failures.value|, k requires 0 <= k < |data.failures.value| => MochaEntry(data.failures.value[k]))
                      else [];
      TestResult("mocha", OrZero(stats.passes), OrZero(stats.failures), OrZero(stats.pending), OrZero(stats.tests),
                 OrZero(stats.duration), None, failures)
  }

  /** Output that is not JSON makes jest and mocha report one failed test, named 'Parse
      Error', carrying the command's stderr. */
  lemma UnparsableOutput(result: ExecutionResult)
    ensures var j := ParseJestResults(result, None);
      j.failed == 1 && j.total == 1 && j.passed == 0 && j.failures == [Failure("Parse Error", result.stderr, None)]
    ensures var m := ParseMochaResults(result, None);
      m.failed == 1 && m.total == 1 && m.passed == 0 && m.failures == [Failure("Parse Error", result.stderr, None)]
  {
  }

  // ---------------------------------------------------------------------------
  // pytest's summary lines

  /** Where `/(\d+) <word>/` first matches in `line`, looking from `i`: a digit whose run of
      digits is followed by a space and the word. */
  function MatchFrom(line: string, word: string, i: nat): (r: Option<nat>)
    requires i <= |line|
    ensures r.Some? ==> i <= r.value < |line| && IsDigit(line[r.value])
                        && OccursAt(line, " " + word, SkipDigits(line, r.value))
    decreases |line| - i
  {
    if i == |line| then None
    else if IsDigit(line[i]) && OccursAt(line, " " + word, SkipDigits(line, i)) then Some(i)
    else MatchFrom(line, word, i + 1)
  }

  /** `parseInt(line.match(/(\d+) <word>/)[1])`, `None` when the pattern does not match or
      the line does not mention the word. */
  function LineCount(line: string, word: string): (n: Option<nat>)
  {
    if !Contains(line, word) then None
    else match MatchFrom(line, word, 0)
      case None => None
      case Some(i) =>
        var digits := line[i..SkipDigits(line, i)];
        assert AllDigits(digits);
        Some(DigitsValue(digits))
  }

  /** The count of the last line that has one. */
  function LastCount(lines: seq<string>, word: string): Option<nat>
    decreases |lines|
  {
    if lines == [] then None
    else
      var here := LineCount(lines[|lines| - 1], word);
      if here.Some? then here else LastCount(lines[..|lines| - 1], word)
  }

  /** The line that counts is the last one with a match; earlier ones are overwritten. */
  lemma {:induction false} LastLineWins(lines: seq<string>, word: string, k: nat)
    requires k < |lines| && LineCount(lines[k], word).Some?
    requires forall j :: k < j < |lines| ==> LineCount(lines[j], word).None?
    ensures LastCount(lines, word) == LineCount(lines[k], word)
    decreases |lines|
  {
    if k < |lines| - 1 {
      var init := lines[..|lines| - 1];
      assert init[k] == lines[k];
      LastLineWins(init, word, k);
    }
  }

  /** One more line either carries a count, which wins, or leaves the count as it was. */
  lemma LastCountSnoc(lines: seq<string>, word: string, i: nat)
    requires i < |lines|
    ensures LastCount(lines[..i + 1], word)
            == if LineCount(lines[i], word).Some? then LineCount(lines[i], word) else LastCount(lines[..i], word)
  {
    assert lines[..i + 1][..i] == lines[..i];
  }

  /** Without a matching line the count stays at its initial 0. */
  lemma {:induction false} NoLineNoCount(lines: seq<string>, word: string)
    requires forall j :: 0 <= j < |lines| ==> LineCount(lines[j], word).None?
    ensures LastCount(lines, word) == None
    decreases |lines|
  {
    if lines != [] {
      NoLineNoCount(lines[..|lines| - 1], word);
    }
  }

  lemma ContainsAt(s: string, pat: string, k: nat)
    requires OccursAt(s, pat, k)
    ensures Contains(s, pat)
  {
    ContainsIff(s, pat);
  }

  /** Where the pieces of a line starting with `pre`, `digits`, a space and `word` lie. */
  lemma SummaryLayout(line: string, pre: string, digits: string, word: string)
    requires StartsWith(line, pre + digits + " " + word)
    ensures |pre| + |digits| + 1 + |word| <= |line|
    ensures line[..|pre|] == pre && line[|pre|..|pre| + |digits|] == digits && line[|pre| + |digits|] == ' '
    ensures OccursAt(line, word, |pre| + |digits| + 1)
  {
    var whole := pre + digits + " " + word;
    var e := |pre| + |digits|;
    assert line[..|whole|] == whole;
    assert line[..|pre|] == whole[..|pre|];
    assert line[..|whole|][|pre|..e] == line[|pre|..e];
    assert whole[|pre|..e] == digits;
    assert whole[e + 1..] == word;
    assert line[e + 1..e + 1 + |word|] == whole[e + 1..];
  }

  /** A run of digits from `p` followed by a space and the word is a match at `p`. */
  lemma MatchAtRun(line: string, word: string, p: nat, digits: string)
    requires |digits| >= 1 && AllDigits(digits)
    requires p + |digits| < |line| && line[p..p + |digits|] == digits
    requires line[p + |digits|] == ' ' && OccursAt(line, word, p + |digits| + 1)
    ensures SkipDigits(line, p) == p + |digits| && MatchFrom(line, word, p) == Some(p)
  {
    var e := p + |digits|;
    forall j | p <= j < e
      ensures IsDigit(line[j])
    {
      assert line[p..e][j - p] == line[j];
    }
    SkipDigitsOver(line, p, e);
    assert line[e..e + 1 + |word|] == [' '] + line[e + 1..e + 1 + |word|];
  }

  /** Text without digits in front of `p` holds no match. */
  lemma NoDigitsNoMatch(line: string, word: string, pre: string)
    requires |pre| <= |line| && line[..|pre|] == pre
    requires forall j :: 0 <= j < |pre| ==> !IsDigit(pre[j])
    ensures MatchFrom(line, word, 0) == MatchFrom(line, word, |pre|)
  {
    forall j | 0 <= j < |pre|
      ensures !IsDigit(line[j])
    {
      assert line[..|pre|][j] == line[j];
    }
    NoMatchBefore(line, word, 0, |pre|);
  }

  /** In a line that starts with text without digits, a run of digits, a space and the
      word, the first match is that run. */
  lemma SummaryFacts(line: string, pre: string, digits: string, word: string)
    requires forall j :: 0 <= j < |pre| ==> !IsDigit(pre[j])
    requires |digits| >= 1 && AllDigits(digits)
    requires |pre| + |digits| + 1 + |word| <= |line|
    requires line[..|pre|] == pre && line[|pre|..|pre| + |digits|] == digits && line[|pre| + |digits|] == ' '
    requires OccursAt(line, word, |pre| + |digits| + 1)
    ensures Contains(line, word) && MatchFrom(line, word, 0) == Some(|pre|) && |pre| + |digits| <= |line|
    ensures SkipDigits(line, |pre|) == |pre| + |digits| && line[|pre|..|pre| + |digits|] == digits
  {
    MatchAtRun(line, word, |pre|, digits);
    ContainsAt(line, word, |pre| + |digits| + 1);
    NoDigitsNoMatch(line, word, pre);
  }

  /** A summary line `<n> <word>` after text without digits counts `n`. */
  lemma SummaryCount(line: string, pre: string, n: nat, word: string)
    requires forall j :: 0 <= j < |pre| ==> !IsDigit(pre[j])
    requires StartsWith(line, pre + NatToString(n) + " " + word)
    ensures LineCount(line, word) == Some(n)
  {
    var digits := NatToString(n);
    SummaryLayout(line, pre, digits, word);
    SummaryFacts(line, pre, digits, word);
    LineCountAt(line, word, |pre|, digits);
    DigitsValueOfNatToString(n);
  }

  /** The count of a line whose first match starts at `i`. */
  lemma LineCountAt(line: string, word: string, i: nat, digits: string)
    requires Contains(line, word) && MatchFrom(line, word, 0) == Some(i)
    requires AllDigits(digits) && i + |digits| <= |line| && SkipDigits(line, i) == i + |digits| && line[i..i + |digits|] == digits
    ensures LineCount(line, word) == Some(DigitsValue(digits))
  {
  }

  lemma SkipDigitsOver(line: string, p: nat, e: nat)
    requires p <= e < |line| && line[e] == ' '
    requires forall j :: p <= j < e ==> IsDigit(line[j])
    ensures SkipDigits(line, p) == e
    decreases e - p
  {
    if p < e {
      SkipDigitsOver(line, p + 1, e);
    }
  }

  /** Characters that are not digits cannot start a match. */
  lemma {:induction false} NoMatchBefore(line: string, word: string, i: nat, p: nat)
    requires i <= p <= |line|
    requires forall j :: i <= j < p ==> !IsDigit(line[j])
    ensures MatchFrom(line, word, i) == MatchFrom(line, word, p)
    decreases p - i
  {
    if i < p {
      NoMatchBefore(line, word, i + 1, p);
    }
  }

  /** The three words pytest's summary counts. */
  datatype Tally = Passed | Failed | Skipped

  function Word(t: Tally): string {
    match t
    case Passed => "passed"
    case Failed => "failed"
    case Skipped => "skipped"
  }

  /** The result of pytest's summary: the counts of the last lines mentioning each word. */
  function PytestResult(result: ExecutionResult): (r: TestResult)
    ensures r.framework == "pytest" && r.total == r.passed + r.failed + r.skipped
    ensures r.duration == 0 && r.failures == [] && r.coverage.None?
    ensures r.passed >= 0 && r.failed >= 0 && r.skipped >= 0
  {
    var lines := Split(result.stdout, '\n');
    var passed := LastCount(lines, Word(Passed)).GetOr(0);
    var failed := LastCount(lines, Word(Failed)).GetOr(0);
    var skipped := LastCount(lines, Word(Skipped)).GetOr(0);
    TestResult("pytest", passed, failed, skipped, passed + failed + skipped, 0, None, [])
  }

  /** `parsePytestResults`: one pass over the lines, each counter overwritten by every line
      that has a count for it. */
  method ParsePytestResults(result: ExecutionResult) returns (r: TestResult)
    ensures r == PytestResult(result)
  {
    var lines := Split(result.stdout, '\n');
    var passed, failed, skipped := 0, 0, 0;
    var i := 0;
    while i < |lines|
      invariant i <= |lines|
      invariant passed == LastCount(lines[..i], Word(Passed)).GetOr(0)
      invariant failed == LastCount(lines[..i], Word(Failed)).GetOr(0)
      invariant skipped == LastCount(lines[..i], Word(Skipped)).GetOr(0)
    {
      var line := lines[i];
      var p := LineCount(line, Word(Passed));
      if p.Some? {
        passed := p.value;
      }
      var f := LineCount(line, Word(Failed));
      if f.Some? {
        failed := f.value;
      }
      var s := LineCount(line, Word(Skipped));
      if s.Some? {
        skipped := s.value;
      }
      LastCountSnoc(lines, Word(Passed), i);
      LastCountSnoc(lines, Word(Failed), i);
      LastCountSnoc(lines, Word(Skipped), i);
      i := i + 1;
    }
    assert lines[..i] == lines;
    r := TestResult("pytest", passed, failed, skipped, passed + failed + skipped, 0, None, []);
  }

  /** `parseTestResults`: go has no parser, so its counts stay at zero. */
  function ParseTestResults(result: ExecutionResult, f: Framework, jest: Option<JestReport>, mocha: Option<MochaReport>)
    : (r: TestResult)
    ensures r.framework == FrameworkName(f)
  {
    match f
    case Jest => ParseJestResults(result, jest)
    case Mocha => ParseMochaResults(result, mocha)
    case Pytest => PytestResult(result)
    case GoTest => TestResult("go-test", 0, 0, 0, 0, 0, None, [])
  }

  /** A go run is never reported as failing, whatever its output. */
  lemma GoTestsNeverFail(result: ExecutionResult, jest: Option<JestReport>, mocha: Option<MochaReport>)
    ensures var r := ParseTestResults(result, GoTest, jest, mocha);
      r.failed == 0 && r.total == 0 && r.failures == []
  {
  }

  // ---------------------------------------------------------------------------
  // Test file names

  /** The file name of the test for `base` + `ext`, by the language's convention. */
  function TestName(base: string, ext: string): (name: string)
    requires '/' !in base && '/' !in ext
    ensures IsPlainName(name)
    ensures EndsWith(name, ext) && |name| > |base| + |ext|
  {
    var name := if ext == ".js" || ext == ".ts" || ext == ".jsx" || ext == ".tsx" then base + ".test" + ext
                else if ext == ".py" then "test_" + base + ext
                else if ext == ".go" then base + "_test" + ext
                else base + ".test" + ext;
    assert |name| > 2;
    name
  }

  /** `getTestFileName`. */
  function TestFileName(sourceFile: string): string {
    var ext := ExtName(sourceFile);
    JoinPath(DirName(sourceFile), TestName(BaseNameWithout(sourceFile, ext), ext))
  }

  /** The test file is named by the language's convention from the source's name and
      extension: `base.test.ext` for JavaScript and TypeScript and any unknown extension,
      `test_base.py` for Python, `base_test.go` for Go. */
  lemma TestFileNamed(sourceFile: string)
    ensures var ext := ExtName(sourceFile);
      var base := BaseNameWithout(sourceFile, ext);
      var name := BaseName(TestFileName(sourceFile));
      name == TestName(base, ext)
      && (ext == ".py" ==> name == "test_" + base + ".py")
      && (ext == ".go" ==> name == base + "_test.go")
      && (ext != ".py" && ext != ".go" ==> name == base + ".test" + ext)
  {
    var ext := ExtName(sourceFile);
    var base := BaseNameWithout(sourceFile, ext);
    JoinPlacesNameInDir(DirName(sourceFile), TestName(base, ext));
    TestNameConvention(base, ext);
  }

  lemma TestNameConvention(base: string, ext: string)
    requires '/' !in base && '/' !in ext
    ensures ext == ".py" ==> TestName(base, ext) == "test_" + base + ".py"
    ensures ext == ".go" ==> TestName(base, ext) == base + "_test.go"
    ensures ext != ".py" && ext != ".go" ==> TestName(base, ext) == base + ".test" + ext
  {
  }

  /** The test file lies in the source's directory, normalised, when that directory is written
      without a trailing slash. */
  lemma TestFileBesideSource(sourceFile: string)
    ensures var dir := DirName(sourceFile);
      dir[|dir| - 1] != '/' ==> DirName(TestFileName(sourceFile)) == Normalize(dir)
  {
    var ext := ExtName(sourceFile);
    JoinPlacesNameInDir(DirName(sourceFile), TestName(BaseNameWithout(sourceFile, ext), ext));
  }

  // ---------------------------------------------------------------------------
  // Running

  /** `runTests`: detect, run the framework's command through the executor (its record is
      written whatever happens), and parse; an error thrown by the sandbox is rethrown.
      `jest` and `mocha` are what `JSON.parse` makes of the output. */
  method RunTests(executor: CommandExecutorService, taskId: string, repoPath: string, tests: Option<seq<string>>,
                  probe: Probe, outcome: Result<ExecutionResult>, jest: Option<JestReport>, mocha: Option<MochaReport>)
    returns (r: Result<TestResult>)
    modifies executor
    ensures var f := DetectTestFramework(probe);
      executor.executions
      == old(executor.executions) + [FinishedRecord(taskId, CommandExecution(TestCommand(f, tests), repoPath, None), outcome)]
    ensures outcome.Err? ==> r == Err(outcome.error)
    ensures outcome.Ok? ==> r == Ok(ParseTestResults(outcome.value, DetectTestFramework(probe), jest, mocha))
  {
    var f := DetectTestFramework(probe);
    var command := TestCommand(f, tests);
    var result := executor.ExecuteCommand(taskId, CommandExecution(command, repoPath, None), outcome);
    if result.Err? {
      return Err(result.error);
    }
    if f == Pytest {
      var parsed := ParsePytestResults(result.value);
      return Ok(parsed);
    }
    return Ok(ParseTestResults(result.value, f, jest, mocha));
  }
}
