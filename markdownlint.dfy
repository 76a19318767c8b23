/** The markdownlint adapter: its configuration defaults, the choice of
    which output stream holds the JSON report, and the translation of the
    report (a list of issue objects) into a Result. Running the process and
    decoding the JSON are not part of this model; the two captured streams,
    the decoded report and the current time are parameters. */
module Markdownlint {
  import opened Models
  import opened Text

  /** One entry of markdownlint's JSON report. The optional `errorDetail`
      and `errorContext` are JSON nulls when absent; `fixInfo` is never read
      and is left out. */
  datatype LintIssue = LintIssue(
    fileName: string,
    lineNumber: int,
    ruleNames: seq<string>,
    ruleDescription: string,
    ruleInformation: string,
    errorDetail: Option<string>,
    errorContext: Option<string>,
    errorRange: seq<int>,
    severity: string)

  /** A markdownlint checker's configuration; nothing changes it after
      creation. */
  datatype MarkdownlintChecker = MarkdownlintChecker(
    configFile: string,
    fix: bool,
    markdownlintPath: string)

  /** `NewMarkdownlintChecker`: the executable defaults to "markdownlint";
      given values are kept. */
  function NewMarkdownlintChecker(configFile: string, fix: bool, markdownlintPath: string)
    : (c: MarkdownlintChecker)
    ensures c.configFile == configFile && c.fix == fix
    ensures c.markdownlintPath != ""
    ensures markdownlintPath != "" ==> c.markdownlintPath == markdownlintPath
    ensures markdownlintPath == "" ==> c.markdownlintPath == "markdownlint"
  {
    MarkdownlintChecker(configFile, fix, if markdownlintPath == "" then "markdownlint" else markdownlintPath)
  }

  // ---------------------------------------------------------------------
  // Choosing the output stream

  datatype Selection = Selected(output: string) | SelectFailed(message: string)

  /** `Check`'s choice of output: standard error when it is not empty,
      standard output otherwise; no output at all is an error, and so is an
      output whose trimmed text starts with neither '{' nor '[' (then the
      trimmed text is the error message). */
  method SelectOutput(stderr: string, stdout: string) returns (r: Selection)
    ensures stderr == "" && stdout == "" <==> r == SelectFailed("markdownlint produced no output")
    ensures r.Selected? ==> r.output == (if stderr != "" then stderr else stdout)
    ensures r.Selected? ==> "{" <= TrimSpace(r.output) || "[" <= TrimSpace(r.output)
    ensures (stderr != "" || stdout != "") && r.SelectFailed? ==>
              var chosen := TrimSpace(if stderr != "" then stderr else stdout);
              !("{" <= chosen) && !("[" <= chosen)
              && r.message == "markdownlint execution failed: " + chosen
  {
    var output := stderr;
    if |output| == 0 {
      output := stdout;
    }
    if |output| == 0 {
      return SelectFailed("markdownlint produced no output");
    }
    var trimmed := TrimSpace(output);
    if !("{" <= trimmed) && !("[" <= trimmed) {
      r := SelectFailed("markdownlint execution failed: " + trimmed);
      assert r.message[13] != "markdownlint produced no output"[13];
      return;
    }
    r := Selected(output);
  }

  // ---------------------------------------------------------------------
  // transformResult

  /** The first rule name, or "unknown" without one. */
  function RuleName(m: LintIssue): string {
    if |m.ruleNames| > 0 then m.ruleNames[0] else "unknown"
  }

  /** The rule description, followed by ": " and the detail when there is a
      non-empty detail. */
  function Message(m: LintIssue): string {
    if m.errorDetail.Some? && m.errorDetail.value != "" then m.ruleDescription + ": " + m.errorDetail.value
    else m.ruleDescription
  }

  /** "error" stays "error"; every other severity becomes "warning". */
  function Severity(m: LintIssue): string {
    if m.severity == "error" then "error" else "warning"
  }

  /** The issue of one report entry. */
  function ToIssue(m: LintIssue): Issue {
    Issue(m.fileName, m.lineNumber, if |m.errorRange| >= 1 then m.errorRange[0] else 0,
          Severity(m), Message(m), RuleName(m),
          if m.errorContext.Some? then m.errorContext.value else "")
  }

  /** The issues of a report, one per entry, in report order. */
  function ToIssues(report: seq<LintIssue>): (xs: seq<Issue>)
    ensures |xs| == |report|
  {
    seq(|report|, i requires 0 <= i < |report| => ToIssue(report[i]))
  }

  /** The files named in a report. */
  function Files(report: seq<LintIssue>): set<string> {
    set i | 0 <= i < |report| :: report[i].fileName
  }

  lemma FilesSnoc(report: seq<LintIssue>, i: int)
    requires 0 <= i < |report|
    ensures Files(report[..i + 1]) == Files(report[..i]) + {report[i].fileName}
  {
    var a, b := report[..i], report[..i + 1];
    assert forall j :: 0 <= j < i ==> b[j] == a[j];
    assert b[i] == report[i];
  }

  function LintMetadata(c: MarkdownlintChecker): map<string, MetaValue> {
    map["config_file" := MetaString(c.configFile), "fix_enabled" := MetaBool(c.fix)]
  }

  /** `transformResult`, with the time of the run as `now`: one issue per
      entry in report order; every file named in the report counts once,
      both as scanned and as having issues, since markdownlint reports only
      files with issues; errors and warnings are counted and nothing is
      counted as info. */
  method TransformResult(c: MarkdownlintChecker, report: seq<LintIssue>, path: string, now: Time)
    returns (r: Result)
    ensures r.checker == "markdownlint" && r.timestamp == now && r.path == path
    ensures r.issues == ToIssues(report)
    ensures r.summary == Summary(|Files(report)|, |Files(report)|, |report|,
                                 CountSeverity(r.issues, "error"), CountSeverity(r.issues, "warning"), 0)
    ensures r.metadata == LintMetadata(c)
    ensures ConsistentSummary(r)
  {
    var issues, summary := Collect(report);
    r := Result("markdownlint", now, path, summary, issues, LintMetadata(c));
    CanonicalCountsPartition(issues);
  }

  /** The loop of `transformResult`: every entry becomes an issue, and every
      file named in the report is counted once. */
  method Collect(report: seq<LintIssue>) returns (issues: seq<Issue>, summary: Summary)
    ensures issues == ToIssues(report) && Counted(summary, issues)
    ensures summary.totalFiles == summary.filesWithIssues == |Files(report)|
  {
    summary := ZeroSummary;
    issues := [];
    var filesWithIssues: set<string> := {};
    var filesProcessed: set<string> := {};
    for i := 0 to |report|
      invariant filesProcessed == Files(report[..i])
      invariant filesWithIssues == filesProcessed
      invariant issues == ToIssues(report[..i])
      invariant summary.totalFiles == |filesProcessed| && summary.filesWithIssues == 0
      invariant Counted(summary, issues)
    {
      var entry := report[i];
      FilesSnoc(report, i);
      if entry.fileName !in filesProcessed {
        filesProcessed := filesProcessed + {entry.fileName};
        summary := summary.(totalFiles := summary.totalFiles + 1);
      }
      filesWithIssues := filesWithIssues + {entry.fileName};
      ToIssuesSnoc(report, i);
      issues, summary := AddIssue(entry, issues, summary);
    }
    assert report[..|report|] == report;
    summary := summary.(filesWithIssues := |filesWithIssues|);
  }

  /** The issue and severity counters agree with `issues`, which are all
      errors or warnings. */
  ghost predicate Counted(s: Summary, issues: seq<Issue>) {
    && s.totalIssues == |issues| && s.infoCount == 0
    && s.errorCount == CountSeverity(issues, "error")
    && s.warningCount == CountSeverity(issues, "warning")
    && (forall j :: 0 <= j < |issues| ==> issues[j].severity == "error" || issues[j].severity == "warning")
  }

  /** The body of `transformResult`'s loop after the file bookkeeping: the
      entry's issue is appended and counted as an error or a warning. */
  method AddIssue(entry: LintIssue, issues0: seq<Issue>, summary0: Summary)
    returns (issues: seq<Issue>, summary: Summary)
    requires Counted(summary0, issues0)
    ensures issues == issues0 + [ToIssue(entry)]
    ensures Counted(summary, issues)
    ensures summary.totalFiles == summary0.totalFiles && summary.filesWithIssues == summary0.filesWithIssues
  {
    var issue := ToIssue(entry);
    assert (issues0 + [issue])[..|issues0|] == issues0;
    issues := issues0 + [issue];
    summary := summary0.(totalIssues := summary0.totalIssues + 1);
    if issue.severity == "error" {
      summary := summary.(errorCount := summary.errorCount + 1);
    } else {
      summary := summary.(warningCount := summary.warningCount + 1);
    }
  }

  lemma ToIssuesSnoc(report: seq<LintIssue>, i: int)
    requires 0 <= i < |report|
    ensures ToIssues(report[..i + 1]) == ToIssues(report[..i]) + [ToIssue(report[i])]
  {
  }

  /** The message is the rule description exactly when there is no
      non-empty detail; otherwise it extends the description. */
  lemma MessageDetail(m: LintIssue)
    ensures m.ruleDescription <= Message(m)
    ensures Message(m) == m.ruleDescription <==> m.errorDetail.None? || m.errorDetail.value == ""
  {
    if m.errorDetail.Some? && m.errorDetail.value != "" {
      assert |Message(m)| > |m.ruleDescription|;
      assert Message(m)[..|m.ruleDescription|] == m.ruleDescription;
    }
  }

  /** The rule is the first rule name when there is one, "unknown"
      otherwise; the context is the reported context or empty. */
  lemma IssueFields(m: LintIssue)
    ensures ToIssue(m).rule == "unknown" <==> m.ruleNames == [] || m.ruleNames[0] == "unknown"
    ensures m.errorContext.None? ==> ToIssue(m).context == ""
    ensures m.errorRange == [] ==> ToIssue(m).column == 0
  {
  }
}
