/** The record types every part of marvin works on: one run of one checker
    (Result, with its Summary and Issues), and the aggregate the dashboard
    is built from (CheckerStats, DashboardData). */
module Models {

  /** An instant, as nanoseconds since Go's zero time (January 1, year 1,
      00:00 UTC). The zero time, which `time.Time.IsZero` reports, is 0. */
  type Time = int

  const Second: int := 1_000_000_000
  const Minute: int := 60 * Second
  const Hour: int := 60 * Minute

  /** One finding. `context` is "" when the tool gave none (the JSON field
      is omitted then). */
  datatype Issue = Issue(
    file: string,
    line: int,
    column: int,
    severity: string,
    message: string,
    rule: string,
    context: string)

  /** The counters of one run. */
  datatype Summary = Summary(
    totalFiles: int,
    filesWithIssues: int,
    totalIssues: int,
    errorCount: int,
    warningCount: int,
    infoCount: int)

  /** A checker-specific metadata value (the JSON bag holds strings and
      booleans in every result the checkers produce). */
  datatype MetaValue = MetaString(s: string) | MetaBool(b: bool)

  /** One complete run of one checker. */
  datatype Result = Result(
    checker: string,
    timestamp: Time,
    path: string,
    summary: Summary,
    issues: seq<Issue>,
    metadata: map<string, MetaValue>)

  /** The roll-up of every run of one checker. */
  datatype CheckerStats = CheckerStats(
    name: string,
    totalRuns: int,
    latestRun: Time,
    totalIssues: int,
    errorCount: int,
    warningCount: int,
    infoCount: int)

  /** The aggregate the dashboard shows. */
  datatype DashboardData = DashboardData(
    checkers: seq<CheckerStats>,
    totalChecks: int,
    latestResults: map<string, Result>,
    allResults: seq<Result>)

  const ZeroSummary := Summary(0, 0, 0, 0, 0, 0)

  /** The three severities every checker normalises to. */
  predicate IsCanonicalSeverity(s: string) {
    s == "error" || s == "warning" || s == "info"
  }

  /** How many of `issues` carry `severity`. */
  function CountSeverity(issues: seq<Issue>, severity: string): (n: nat)
    ensures n <= |issues|
    ensures n == 0 <==> forall i :: 0 <= i < |issues| ==> issues[i].severity != severity
  {
    if issues == [] then 0
    else CountSeverity(issues[..|issues| - 1], severity)
         + (if issues[|issues| - 1].severity == severity then 1 else 0)
  }

  /** Appending one issue adds one to its own severity's count only. */
  lemma CountSeveritySnoc(issues: seq<Issue>, x: Issue, severity: string)
    ensures CountSeverity(issues + [x], severity)
            == CountSeverity(issues, severity) + (if x.severity == severity then 1 else 0)
  {
    assert (issues + [x])[..|issues|] == issues;
  }

  /** Issues whose severities are all canonical are split exactly among the
      three counters. */
  lemma {:induction false} CanonicalCountsPartition(issues: seq<Issue>)
    requires forall i :: 0 <= i < |issues| ==> IsCanonicalSeverity(issues[i].severity)
    ensures CountSeverity(issues, "error") + CountSeverity(issues, "warning")
            + CountSeverity(issues, "info") == |issues|
  {
    if issues != [] {
      CanonicalCountsPartition(issues[..|issues| - 1]);
    }
  }

  /** The invariant every checker's Summary keeps: the issue total is both
      the length of the issue list and the sum of the per-severity counts,
      and the files with issues are among the files scanned. */
  predicate ConsistentSummary(r: Result) {
    && r.summary.totalIssues == |r.issues|
    && r.summary.errorCount + r.summary.warningCount + r.summary.infoCount == r.summary.totalIssues
    && 0 <= r.summary.filesWithIssues <= r.summary.totalFiles
  }
}
