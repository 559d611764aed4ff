/** The code-quality service: lint findings mapped to issues, an overall score out of 100,
    and a list of suggestions driven by fixed thresholds. */
module CodeQuality {
  import opened Common

  datatype Severity = Error | Warning | Info

  datatype QualityIssue = QualityIssue(file: string, line: int, column: int, severity: Severity, message: string,
                                       rule: string)

  /** The metrics as `calculateMetrics` delivers them, rounded there. The maintainability
      index of a file of at most one line is `Math.round` of an infinite value (its formula
      takes the logarithm of 0); any large enough integer stands for it, since it scores and
      suggests exactly as the infinite index does. */
  datatype Metrics = Metrics(linesOfCode: int, complexity: int, maintainability: int)

  datatype QualityReport = QualityReport(score: int, issues: seq<QualityIssue>, metrics: Metrics,
                                         suggestions: seq<Suggestion>)

  // ---------------------------------------------------------------------------
  // Severity mapping

  /** One ESLint message: severity 2 is an error, anything else a warning; a missing rule id
      reads 'unknown'. */
  datatype EslintMessage = EslintMessage(line: int, column: int, severity: int, message: string, ruleId: Option<string>)

  function EslintIssue(file: string, m: EslintMessage): (issue: QualityIssue)
    ensures issue.severity == Error <==> m.severity == 2
    ensures issue.severity != Info
    ensures issue.rule != "" && (m.ruleId.Some? && m.ruleId.value != "" ==> issue.rule == m.ruleId.value)
    ensures issue.file == file && issue.line == m.line && issue.column == m.column && issue.message == m.message
  {
    var rule := if m.ruleId.Some? && m.ruleId.value != "" then m.ruleId.value else "unknown";
    QualityIssue(file, m.line, m.column, if m.severity == 2 then Error else Warning, m.message, rule)
  }

  /** One pylint result: type 'error' is an error, anything else a warning. */
  datatype PylintResult = PylintResult(path: string, line: int, column: int, kind: string, message: string,
                                       messageId: string)

  function PylintIssue(file: string, r: PylintResult): (issue: QualityIssue)
    ensures issue.severity == Error <==> r.kind == "error"
    ensures issue.severity != Info
    ensures issue.file == file && issue.rule == r.messageId && issue.message == r.message
  {
    QualityIssue(file, r.line, r.column, if r.kind == "error" then Error else Warning, r.message, r.messageId)
  }

  // ---------------------------------------------------------------------------
  // Score

  function CountSeverity(issues: seq<QualityIssue>, s: Severity): (n: nat)
    ensures n <= |issues|
    decreases |issues|
  {
    if issues == [] then 0
    else CountSeverity(issues[..|issues| - 1], s) + (if issues[|issues| - 1].severity == s then 1 else 0)
  }

  /** `Math.max(lo, Math.min(hi, x))`. */
  function Clamp(x: int, lo: int, hi: int): (r: int)
    requires lo <= hi
    ensures lo <= r <= hi
    ensures lo <= x <= hi ==> r == x
  {
    if x < lo then lo else if x > hi then hi else x
  }

  /** `Math.round` on a real: the nearest integer, halves rounded up. */
  function Round(x: real): int {
    (x + 0.5).Floor
  }

  /** The score in integers: halving `100 - 5 errors - 2 warnings + maintainability` and
      rounding the half up, then 2 points off per complexity point above 10, clamped to
      [0, 100]. */
  function Score(errors: nat, warnings: nat, m: Metrics): (r: int)
    ensures 0 <= r <= 100
  {
    var halved := (100 - 5 * errors - 2 * warnings + m.maintainability + 1) / 2;
    var penalty := if m.complexity > 10 then (m.complexity - 10) * 2 else 0;
    Clamp(halved - penalty, 0, 100)
  }

  /** Rounding half of an integer less a whole penalty is the floor of half of its successor
      less the penalty. */
  lemma RoundHalf(y: int, k: int)
    ensures Round(y as real / 2.0 - k as real) == (y + 1) / 2 - k
  {
    var q := (y + 1) / 2;
    assert 2 * q <= y + 1 < 2 * q + 2;
    var x := y as real / 2.0 - k as real + 0.5;
    assert (q - k) as real <= x < (q - k) as real + 1.0;
  }

  /** `calculateScore`: the local score reassigned step by step in floating point. */
  method CalculateScore(report: QualityReport) returns (r: int)
    ensures r == Score(CountSeverity(report.issues, Error), CountSeverity(report.issues, Warning), report.metrics)
  {
    var score: real := 100.0;
    var errors := CountSeverity(report.issues, Error);
    var warnings := CountSeverity(report.issues, Warning);
    score := score - (errors * 5) as real;
    score := score - (warnings * 2) as real;
    score := (score + report.metrics.maintainability as real) / 2.0;
    var penalty := 0;
    if report.metrics.complexity > 10 {
      penalty := (report.metrics.complexity - 10) * 2;
      score := score - penalty as real;
    }
    RoundHalf(100 - 5 * errors - 2 * warnings + report.metrics.maintainability, penalty);
    r := Clamp(Round(score), 0, 100);
  }

  /** The score of a report. */
  function ReportScore(report: QualityReport): (r: int)
    ensures 0 <= r <= 100
  {
    Score(CountSeverity(report.issues, Error), CountSeverity(report.issues, Warning), report.metrics)
  }

  /** More errors, or more warnings, never raise the score. */
  lemma ScoreAntitone(e1: nat, e2: nat, w1: nat, w2: nat, m: Metrics)
    requires e1 <= e2 && w1 <= w2
    ensures Score(e2, w2, m) <= Score(e1, w1, m)
  {
    var y1 := 100 - 5 * e1 - 2 * w1 + m.maintainability;
    var y2 := 100 - 5 * e2 - 2 * w2 + m.maintainability;
    assert y2 <= y1;
    assert (y2 + 1) / 2 <= (y1 + 1) / 2;
  }

  lemma CountSnoc(issues: seq<QualityIssue>, issue: QualityIssue, s: Severity)
    ensures CountSeverity(issues + [issue], s) == CountSeverity(issues, s) + (if issue.severity == s then 1 else 0)
  {
    assert (issues + [issue])[..|issues|] == issues;
  }

  /** One more issue never raises the score, and an 'info' issue leaves it as it is. */
  lemma OneMoreIssue(report: QualityReport, issue: QualityIssue)
    ensures ReportScore(report.(issues := report.issues + [issue])) <= ReportScore(report)
    ensures issue.severity == Info ==> ReportScore(report.(issues := report.issues + [issue])) == ReportScore(report)
  {
    CountSnoc(report.issues, issue, Error);
    CountSnoc(report.issues, issue, Warning);
    ScoreAntitone(CountSeverity(report.issues, Error), CountSeverity(report.issues + [issue], Error),
                  CountSeverity(report.issues, Warning), CountSeverity(report.issues + [issue], Warning), report.metrics);
  }

  /** A clean report with full maintainability and moderate complexity scores 100. */
  lemma CleanCodeScoresFull(m: Metrics)
    requires m.maintainability >= 100 && m.complexity <= 10
    ensures Score(0, 0, m) == 100
  {
  }

  // ---------------------------------------------------------------------------
  // Suggestions

  /** The suggestions `generateSuggestions` can make; `Text` gives each one's wording. */
  datatype Suggestion = TooManyIssues | HighComplexity | LowMaintainability | FixErrors(errorCount: nat) | LargeCodebase

  function Text(s: Suggestion): string {
    match s
    case TooManyIssues => "Consider addressing code quality issues before proceeding"
    case HighComplexity => "High cyclomatic complexity detected. Consider refactoring complex functions"
    case LowMaintainability => "Maintainability index is low. Consider improving code structure and reducing complexity"
    case FixErrors(n) => "Fix " + NatToString(n) + " critical error(s) before deployment"
    case LargeCodebase => "Large codebase detected. Ensure proper modularization and testing"
  }

  /** `if (cond) suggestions.push(s)`. */
  function Push(r: seq<Suggestion>, cond: bool, s: Suggestion): seq<Suggestion> {
    if cond then r + [s] else r
  }

  /** What `generateSuggestions` emits: one message per triggered threshold, in a fixed order. */
  function Suggestions(report: QualityReport): (r: seq<Suggestion>)
  {
    var errors := CountSeverity(report.issues, Error);
    var s1 := Push([], |report.issues| > 20, TooManyIssues);
    var s2 := Push(s1, report.metrics.complexity > 15, HighComplexity);
    var s3 := Push(s2, report.metrics.maintainability < 50, LowMaintainability);
    var s4 := Push(s3, errors > 0, FixErrors(errors));
    Push(s4, report.metrics.linesOfCode > 10000, LargeCodebase)
  }

  /** `generateSuggestions`: the messages pushed one by one onto a local list. */
  method GenerateSuggestions(report: QualityReport) returns (suggestions: seq<Suggestion>)
    ensures suggestions == Suggestions(report)
  {
    suggestions := [];
    if |report.issues| > 20 {
      suggestions := suggestions + [TooManyIssues];
    }
    if report.metrics.complexity > 15 {
      suggestions := suggestions + [HighComplexity];
    }
    if report.metrics.maintainability < 50 {
      suggestions := suggestions + [LowMaintainability];
    }
    var errorCount := CountSeverity(report.issues, Error);
    if errorCount > 0 {
      suggestions := suggestions + [FixErrors(errorCount)];
    }
    if report.metrics.linesOfCode > 10000 {
      suggestions := suggestions + [LargeCodebase];
    }
  }

  /** No threshold met, no suggestion; and at most one message per threshold. */
  lemma SuggestionsCount(report: QualityReport)
    ensures |Suggestions(report)| <= 5
    ensures Suggestions(report) == [] <==>
              |report.issues| <= 20 && report.metrics.complexity <= 15 && report.metrics.maintainability >= 50
              && CountSeverity(report.issues, Error) == 0 && report.metrics.linesOfCode <= 10000
  {
  }

  lemma InPush(r: seq<Suggestion>, cond: bool, s: Suggestion, t: Suggestion)
    ensures t in Push(r, cond, s) <==> t in r || (cond && t == s)
  {
  }

  /** A suggestion is emitted exactly when its own threshold is met. */
  lemma {:induction false} SuggestionMember(report: QualityReport, t: Suggestion)
    ensures var errors := CountSeverity(report.issues, Error);
      t in Suggestions(report) <==>
        (t == TooManyIssues && |report.issues| > 20)
        || (t == HighComplexity && report.metrics.complexity > 15)
        || (t == LowMaintainability && report.metrics.maintainability < 50)
        || (t == FixErrors(errors) && errors > 0)
        || (t == LargeCodebase && report.metrics.linesOfCode > 10000)
  {
    var errors := CountSeverity(report.issues, Error);
    var s1 := Push([], |report.issues| > 20, TooManyIssues);
    var s2 := Push(s1, report.metrics.complexity > 15, HighComplexity);
    var s3 := Push(s2, report.metrics.maintainability < 50, LowMaintainability);
    var s4 := Push(s3, errors > 0, FixErrors(errors));
    InPush([], |report.issues| > 20, TooManyIssues, t);
    InPush(s1, report.metrics.complexity > 15, HighComplexity, t);
    InPush(s2, report.metrics.maintainability < 50, LowMaintainability, t);
    InPush(s3, errors > 0, FixErrors(errors), t);
    InPush(s4, report.metrics.linesOfCode > 10000, LargeCodebase, t);
  }

  /** Each fixed message appears exactly when its threshold is met. */
  lemma SuggestionTriggers(report: QualityReport)
    ensures TooManyIssues in Suggestions(report) <==> |report.issues| > 20
    ensures HighComplexity in Suggestions(report) <==> report.metrics.complexity > 15
    ensures LowMaintainability in Suggestions(report) <==> report.metrics.maintainability < 50
    ensures LargeCodebase in Suggestions(report) <==> report.metrics.linesOfCode > 10000
  {
    SuggestionMember(report, TooManyIssues);
    SuggestionMember(report, HighComplexity);
    SuggestionMember(report, LowMaintainability);
    SuggestionMember(report, LargeCodebase);
  }

  /** The error message appears exactly when there are errors, carrying their number. */
  lemma ErrorSuggestion(report: QualityReport, n: nat)
    ensures FixErrors(n) in Suggestions(report) <==> n == CountSeverity(report.issues, Error) && n > 0
  {
    SuggestionMember(report, FixErrors(n));
  }

  /** The position of each suggestion in the fixed order. */
  function Rank(s: Suggestion): nat {
    match s
    case TooManyIssues => 0
    case HighComplexity => 1
    case LowMaintainability => 2
    case FixErrors(_) => 3
    case LargeCodebase => 4
  }

  predicate Ordered(r: seq<Suggestion>) {
    forall i, j :: 0 <= i < j < |r| ==> Rank(r[i]) < Rank(r[j])
  }

  predicate Below(r: seq<Suggestion>, bound: nat) {
    forall i :: 0 <= i < |r| ==> Rank(r[i]) < bound
  }

  /** A push of a later-ranked suggestion keeps the list ordered. */
  lemma PushOrdered(r: seq<Suggestion>, cond: bool, s: Suggestion)
    requires Ordered(r) && Below(r, Rank(s))
    ensures Ordered(Push(r, cond, s)) && Below(Push(r, cond, s), Rank(s) + 1)
  {
  }

  /** The suggestions come in the order issues, complexity, maintainability, errors, size. */
  lemma SuggestionsOrdered(report: QualityReport)
    ensures Ordered(Suggestions(report))
  {
    var errors := CountSeverity(report.issues, Error);
    var s1 := Push([], |report.issues| > 20, TooManyIssues);
    var s2 := Push(s1, report.metrics.complexity > 15, HighComplexity);
    var s3 := Push(s2, report.metrics.maintainability < 50, LowMaintainability);
    var s4 := Push(s3, errors > 0, FixErrors(errors));
    PushOrdered([], |report.issues| > 20, TooManyIssues);
    PushOrdered(s1, report.metrics.complexity > 15, HighComplexity);
    PushOrdered(s2, report.metrics.maintainability < 50, LowMaintainability);
    PushOrdered(s3, errors > 0, FixErrors(errors));
    PushOrdered(s4, report.metrics.linesOfCode > 10000, LargeCodebase);
  }

  // ---------------------------------------------------------------------------
  // Analysis

  /** `analyzeCode`: ESLint's issues, then pylint's, the metrics, and the score and
      suggestions computed from them. */
  method AnalyzeCode(eslintIssues: seq<QualityIssue>, pylintIssues: seq<QualityIssue>, metrics: Metrics)
    returns (report: QualityReport)
    ensures report.issues == eslintIssues + pylintIssues && report.metrics == metrics
    ensures report.score == ReportScore(report) && 0 <= report.score <= 100
    ensures report.suggestions == Suggestions(report)
  {
    report := QualityReport(100, [], Metrics(0, 0, 100), []);
    report := report.(issues := report.issues + eslintIssues);
    report := report.(issues := report.issues + pylintIssues);
    report := report.(metrics := metrics);
    var score := CalculateScore(report);
    report := report.(score := score);
    var suggestions := GenerateSuggestions(report);
    report := report.(suggestions := suggestions);
  }
}
