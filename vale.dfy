/** The Vale adapter: its configuration defaults, its severity mapping, and
    the translation of Vale's JSON alerts (a map from file name to alerts)
    into a Result. Running the vale process is not part of this model; its
    decoded output and the current time are parameters. */
module Vale {
  import opened Models
  import opened Grouping

  /** One alert as Vale reports it. `matched` is Vale's `Match` field. */
  datatype ValeAlert = ValeAlert(
    check: string,
    description: string,
    line: int,
    link: string,
    message: string,
    severity: string,
    span: seq<int>,
    matched: string)

  /** Vale's output: the alerts of every file it looked at. */
  type ValeOutput = map<string, seq<ValeAlert>>

  /** A Vale checker's configuration; nothing changes it after creation. */
  datatype ValeChecker = ValeChecker(
    configFile: string,
    minAlertLevel: string,
    valePath: string,
    glob: string)

  /** `NewValeChecker`: the alert level defaults to "suggestion" and the
      executable to "vale"; given values are kept. */
  function NewValeChecker(configFile: string, minAlertLevel: string, valePath: string, glob: string)
    : (c: ValeChecker)
    ensures c.configFile == configFile && c.glob == glob
    ensures c.minAlertLevel != "" && c.valePath != ""
    ensures minAlertLevel != "" ==> c.minAlertLevel == minAlertLevel
    ensures valePath != "" ==> c.valePath == valePath
    ensures minAlertLevel == "" ==> c.minAlertLevel == "suggestion"
    ensures valePath == "" ==> c.valePath == "vale"
  {
    ValeChecker(configFile,
                if minAlertLevel == "" then "suggestion" else minAlertLevel,
                if valePath == "" then "vale" else valePath,
                glob)
  }

  /** `normalizeSeverity`: "error" and "warning" are kept, everything else,
      "suggestion" included, becomes "info". */
  function NormalizeSeverity(severity: string): (r: string)
    ensures IsCanonicalSeverity(r)
    ensures r == "error" <==> severity == "error"
    ensures r == "warning" <==> severity == "warning"
  {
    if severity == "error" then "error"
    else if severity == "warning" then "warning"
    else "info"
  }

  /** The issue of one alert of `file`: the column is the first span
      offset, or 0 without a span. */
  function AlertIssue(file: string, a: ValeAlert): Issue {
    Issue(file, a.line, if |a.span| >= 1 then a.span[0] else 0,
          NormalizeSeverity(a.severity), a.message, a.check, a.matched)
  }

  /** The issues of one file, one per alert, in alert order. */
  function FileIssues(file: string, alerts: seq<ValeAlert>): (xs: seq<Issue>)
    ensures |xs| == |alerts|
    ensures forall i :: 0 <= i < |alerts| ==> xs[i] == AlertIssue(file, alerts[i])
  {
    seq(|alerts|, i requires 0 <= i < |alerts| => AlertIssue(file, alerts[i]))
  }

  /** The issues of the files of `order`, file after file. */
  function IssuesInOrder(output: ValeOutput, order: seq<string>): seq<Issue>
    requires forall f :: f in order ==> f in output
  {
    if order == [] then []
    else IssuesInOrder(output, order[..|order| - 1])
         + FileIssues(order[|order| - 1], output[order[|order| - 1]])
  }

  /** The files with at least one alert. */
  function FilesWithAlerts(output: ValeOutput): set<string> {
    set f | f in output && output[f] != []
  }

  function FileOf(x: Issue): string { x.file }

  function ValeMetadata(c: ValeChecker): map<string, MetaValue> {
    map["config_file" := MetaString(c.configFile), "min_alert_level" := MetaString(c.minAlertLevel)]
  }

  /** `transformResult`, with the time of the run as `now`. Files are
      visited in the unspecified order `order`, each exactly once, and each
      file's alerts in their own order. The summary counts every file,
      alerts or not, the files with alerts, and the issues by normalised
      severity. */
  method TransformResult(c: ValeChecker, output: ValeOutput, path: string, now: Time)
    returns (r: Result, ghost order: seq<string>)
    ensures Distinct(order) && SetOf(order) == output.Keys
    ensures r.checker == "vale" && r.timestamp == now && r.path == path
    ensures r.issues == IssuesInOrder(output, order)
    ensures r.summary == Summary(|output.Keys|, |FilesWithAlerts(output)|, |r.issues|,
                                 CountSeverity(r.issues, "error"), CountSeverity(r.issues, "warning"),
                                 CountSeverity(r.issues, "info"))
    ensures r.metadata == ValeMetadata(c)
    ensures ConsistentSummary(r)
  {
    var summary := ZeroSummary;
    var issues: seq<Issue> := [];
    var filesWithIssues: set<string> := {};
    var remaining := output.Keys;
    order := [];
    while remaining != {}
      invariant remaining <= output.Keys
      invariant Distinct(order) && SetOf(order) == output.Keys - remaining
      invariant forall f :: f in order ==> f in output
      invariant issues == IssuesInOrder(output, order)
      invariant filesWithIssues == set f | f in SetOf(order) && output[f] != []
      invariant summary.totalFiles == |order| && summary.filesWithIssues == 0
      invariant Counted(summary, issues)
      decreases remaining
    {
      var file :| file in remaining;
      var alerts := output[file];
      summary := summary.(totalFiles := summary.totalFiles + 1);
      if |alerts| > 0 {
        filesWithIssues := filesWithIssues + {file};
      }
      issues, summary := AddAlerts(file, alerts, issues, summary);
      DistinctSnoc(order, file);
      assert (order + [file])[..|order|] == order;
      order := order + [file];
      remaining := remaining - {file};
    }
    assert filesWithIssues == FilesWithAlerts(output);
    DistinctCard(order);
    assert |output.Keys| == |order| by {
      SetOfCard(order);
    }
    SubsetCard(FilesWithAlerts(output), output.Keys);
    summary := summary.(filesWithIssues := |filesWithIssues|);
    r := Result("vale", now, path, summary, issues, ValeMetadata(c));
    CanonicalCountsPartition(issues) by {
      IssuesCanonical(output, order);
    }
  }

  /** The issue and severity counters agree with `issues`. */
  ghost predicate Counted(s: Summary, issues: seq<Issue>) {
    && s.totalIssues == |issues|
    && s.errorCount == CountSeverity(issues, "error")
    && s.warningCount == CountSeverity(issues, "warning")
    && s.infoCount == CountSeverity(issues, "info")
  }

  /** The inner loop of `transformResult`: one issue per alert of `file`,
      counted by severity. */
  method AddAlerts(file: string, alerts: seq<ValeAlert>, issues0: seq<Issue>, summary0: Summary)
    returns (issues: seq<Issue>, summary: Summary)
    requires Counted(summary0, issues0)
    ensures issues == issues0 + FileIssues(file, alerts)
    ensures Counted(summary, issues)
    ensures summary.totalFiles == summary0.totalFiles && summary.filesWithIssues == summary0.filesWithIssues
  {
    issues, summary := issues0, summary0;
    for j := 0 to |alerts|
      invariant issues == issues0 + FileIssues(file, alerts[..j])
      invariant Counted(summary, issues)
      invariant summary.totalFiles == summary0.totalFiles && summary.filesWithIssues == summary0.filesWithIssues
    {
      var issue := AlertIssue(file, alerts[j]);
      FileIssuesSnoc(file, alerts, j);
      CountSeveritySnoc(issues, issue, "error");
      CountSeveritySnoc(issues, issue, "warning");
      CountSeveritySnoc(issues, issue, "info");
      issues := issues + [issue];
      summary := summary.(totalIssues := summary.totalIssues + 1);
      if issue.severity == "error" {
        summary := summary.(errorCount := summary.errorCount + 1);
      } else if issue.severity == "warning" {
        summary := summary.(warningCount := summary.warningCount + 1);
      } else if issue.severity == "info" || issue.severity == "suggestion" {
        summary := summary.(infoCount := summary.infoCount + 1);
      }
    }
    assert alerts[..|alerts|] == alerts;
  }

  /** One alert more gives one issue more, at the end. */
  lemma FileIssuesSnoc(file: string, alerts: seq<ValeAlert>, j: nat)
    requires j < |alerts|
    ensures FileIssues(file, alerts[..j + 1]) == FileIssues(file, alerts[..j]) + [AlertIssue(file, alerts[j])]
  {
    assert FileIssues(file, alerts[..j + 1])[j] == AlertIssue(file, alerts[j]);
  }

  /** Every issue the adapter produces carries a normalised severity. */
  lemma {:induction false} IssuesCanonical(output: ValeOutput, order: seq<string>)
    requires forall f :: f in order ==> f in output
    ensures forall i :: 0 <= i < |IssuesInOrder(output, order)| ==>
              IsCanonicalSeverity(IssuesInOrder(output, order)[i].severity)
  {
    if order != [] {
      IssuesCanonical(output, order[..|order| - 1]);
    }
  }

  /** Whatever order the files are visited in, the issues of one file are
      exactly its alerts, in alert order. */
  lemma {:induction false} IssuesOfFile(output: ValeOutput, order: seq<string>, f: string)
    requires Distinct(order) && forall g :: g in order ==> g in output
    ensures Select(IssuesInOrder(output, order), FileOf, f)
            == if f in order then FileIssues(f, output[f]) else []
  {
    if order != [] {
      var order', g := order[..|order| - 1], order[|order| - 1];
      assert order == order' + [g];
      assert Distinct(order');
      IssuesOfFile(output, order', f);
      SelectConcat(IssuesInOrder(output, order'), FileIssues(g, output[g]), FileOf, f);
      SelectOneFile(g, output[g], f);
    }
  }

  /** The issues of one file's alerts all belong to that file. */
  lemma {:induction false} SelectOneFile(g: string, alerts: seq<ValeAlert>, f: string)
    ensures Select(FileIssues(g, alerts), FileOf, f) == if g == f then FileIssues(g, alerts) else []
  {
    if alerts != [] {
      var alerts' := alerts[..|alerts| - 1];
      SelectOneFile(g, alerts', f);
      assert FileIssues(g, alerts)[..|alerts| - 1] == FileIssues(g, alerts');
    }
  }

  /** A list without repeats is as long as its set of elements. */
  lemma SetOfCard(ks: seq<string>)
    requires Distinct(ks)
    ensures |SetOf(ks)| == |ks|
  {
    DistinctCard(ks);
  }

  lemma SubsetCard<T>(a: set<T>, b: set<T>)
    requires a <= b
    ensures |a| <= |b|
  {
    assert b == a + (b - a);
  }
}
