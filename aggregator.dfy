/** The dashboard's aggregation of the run history: grouping runs by checker,
    rolling each group up into CheckerStats, picking each checker's newest
    run, and the accessors the dashboard reads. */
module Aggregator {
  import opened Models
  import opened Text
  import Sorting
  import Grouping

  // ---------------------------------------------------------------------
  // What an aggregate owes its input.

  function CheckerOf(r: Result): string { r.checker }

  /** The runs of checker `name`, in input order. */
  function RunsOf(results: seq<Result>, name: string): seq<Result> {
    Grouping.Select(results, CheckerOf, name)
  }

  /** The checkers that have at least one run in `results`. */
  function CheckerNames(results: seq<Result>): set<string> {
    Grouping.Keys(results, CheckerOf)
  }

  /** The counters a CheckerStats carries, and the per-run quantity each one
      adds up. */
  datatype Counter = Runs | Issues | Errors | Warnings | Infos

  function RunWeight(r: Result): int { 1 }
  function IssuesOf(r: Result): int { r.summary.totalIssues }
  function ErrorsOf(r: Result): int { r.summary.errorCount }
  function WarningsOf(r: Result): int { r.summary.warningCount }
  function InfosOf(r: Result): int { r.summary.infoCount }

  function WeightOf(k: Counter): Result -> int {
    match k
    case Runs => RunWeight
    case Issues => IssuesOf
    case Errors => ErrorsOf
    case Warnings => WarningsOf
    case Infos => InfosOf
  }

  function StatOf(c: CheckerStats, k: Counter): int {
    match k
    case Runs => c.totalRuns
    case Issues => c.totalIssues
    case Errors => c.errorCount
    case Warnings => c.warningCount
    case Infos => c.infoCount
  }

  /** `latest` is a run of checker `name` that no run of `name` is newer
      than. Which of several equally new runs it is, is left open. */
  ghost predicate IsNewest(latest: Result, results: seq<Result>, name: string) {
    && latest in RunsOf(results, name)
    && forall r :: r in RunsOf(results, name) ==> r.timestamp <= latest.timestamp
  }

  /** The statistics owed to checker `name`: its number of runs, the time of
      its newest run, and each issue counter summed over ALL its runs. */
  function ExpectedStats(results: seq<Result>, name: string, latestRun: Time): CheckerStats {
    var runs := RunsOf(results, name);
    CheckerStats(name, |runs|, latestRun,
      Grouping.Total(runs, IssuesOf), Grouping.Total(runs, ErrorsOf),
      Grouping.Total(runs, WarningsOf), Grouping.Total(runs, InfosOf))
  }

  /** The display order of the checkers: by lower-cased name. */
  function LowerNameLe(a: CheckerStats, b: CheckerStats): bool {
    LexLe(ToLower(a.name), ToLower(b.name))
  }

  function Names(cs: seq<CheckerStats>): (ns: seq<string>)
    ensures |ns| == |cs| && forall i :: 0 <= i < |cs| ==> ns[i] == cs[i].name
  {
    seq(|cs|, i requires 0 <= i < |cs| => cs[i].name)
  }

  /** `stats` and `latestResults` hold, for the same checkers and each
      checker once, the statistics and a newest run that `results` owe
      them. */
  ghost predicate RolledUp(results: seq<Result>, stats: seq<CheckerStats>, latestResults: map<string, Result>) {
    && Grouping.Distinct(Names(stats))
    && Grouping.SetOf(Names(stats)) == latestResults.Keys
    && (forall name :: name in latestResults ==> IsNewest(latestResults[name], results, name))
    && (forall c :: c in stats ==>
          c.name in latestResults
          && c == ExpectedStats(results, c.name, latestResults[c.name].timestamp))
  }

  /** `d` is an aggregate of `results`. */
  ghost predicate IsAggregateOf(d: DashboardData, results: seq<Result>) {
    // The input is kept as it is, and counted.
    && d.allResults == results
    && d.totalChecks == |results|
    // One newest run and one CheckerStats for every checker that occurs,
    // and for no other.
    && d.latestResults.Keys == CheckerNames(results)
    && RolledUp(results, d.checkers, d.latestResults)
    // In display order.
    && Sorting.Sorted(d.checkers, LowerNameLe)
  }

  // ---------------------------------------------------------------------
  // aggregateResults

  lemma LowerNameOrder()
    ensures Sorting.TotalPreorder(LowerNameLe)
  {
    forall a, b ensures LowerNameLe(a, b) || LowerNameLe(b, a) {
      LexLeTotal(ToLower(a.name), ToLower(b.name));
    }
    forall a, b, c | LowerNameLe(a, b) && LowerNameLe(b, c) ensures LowerNameLe(a, c) {
      LexLeTrans(ToLower(a.name), ToLower(b.name), ToLower(c.name));
    }
  }

  /** The newest run of a non-empty group (the first element once the group
      is sorted newest first). */
  method Newest(runs: seq<Result>) returns (latest: Result)
    requires runs != []
    ensures latest in runs
    ensures forall r :: r in runs ==> r.timestamp <= latest.timestamp
  {
    latest := runs[0];
    for i := 1 to |runs|
      invariant latest in runs
      invariant forall j :: 0 <= j < i ==> runs[j].timestamp <= latest.timestamp
    {
      if runs[i].timestamp > latest.timestamp {
        latest := runs[i];
      }
    }
  }

  /** The statistics of one group: its size, the given newest time, and the
      issue counters of all its runs added up. */
  method RollUp(name: string, runs: seq<Result>, latestRun: Time) returns (stats: CheckerStats)
    ensures stats.name == name && stats.totalRuns == |runs| && stats.latestRun == latestRun
    ensures stats.totalIssues == Grouping.Total(runs, IssuesOf)
    ensures stats.errorCount == Grouping.Total(runs, ErrorsOf)
    ensures stats.warningCount == Grouping.Total(runs, WarningsOf)
    ensures stats.infoCount == Grouping.Total(runs, InfosOf)
  {
    stats := CheckerStats(name, |runs|, latestRun, 0, 0, 0, 0);
    for i := 0 to |runs|
      invariant stats.name == name && stats.totalRuns == |runs| && stats.latestRun == latestRun
      invariant stats.totalIssues == Grouping.Total(runs[..i], IssuesOf)
      invariant stats.errorCount == Grouping.Total(runs[..i], ErrorsOf)
      invariant stats.warningCount == Grouping.Total(runs[..i], WarningsOf)
      invariant stats.infoCount == Grouping.Total(runs[..i], InfosOf)
    {
      var s := runs[i].summary;
      assert runs[..i + 1][..i] == runs[..i];
      stats := stats.(
        totalIssues := stats.totalIssues + s.totalIssues,
        errorCount := stats.errorCount + s.errorCount,
        warningCount := stats.warningCount + s.warningCount,
        infoCount := stats.infoCount + s.infoCount);
    }
    assert runs[..|runs|] == runs;
  }

  /** Groups the runs by checker in one pass, keeping input order inside
      each group. */
  method GroupByChecker(results: seq<Result>) returns (groups: map<string, seq<Result>>)
    ensures groups.Keys == CheckerNames(results)
    ensures forall name :: name in groups ==> groups[name] == RunsOf(results, name)
  {
    groups := map[];
    for i := 0 to |results|
      invariant groups.Keys == CheckerNames(results[..i])
      invariant forall name :: name in groups ==> groups[name] == RunsOf(results[..i], name)
    {
      var r := results[i];
      var done := results[..i];
      assert results[..i + 1] == done + [r];
      Grouping.KeysSnoc(done, r, CheckerOf);
      Grouping.SelectNonEmpty(done, CheckerOf, r.checker);
      forall name ensures RunsOf(done + [r], name) == RunsOf(done, name) + (if r.checker == name then [r] else []) {
        Grouping.SelectSnoc(done, r, CheckerOf, name);
      }
      var group := if r.checker in groups then groups[r.checker] else [];
      groups := groups[r.checker := group + [r]];
    }
    assert results[..|results|] == results;
  }

  /** A rearrangement of the statistics has the same names and elements. */
  lemma PermutedStats(stats: seq<CheckerStats>, sorted: seq<CheckerStats>)
    requires multiset(sorted) == multiset(stats)
    ensures |sorted| == |stats|
    ensures forall c :: c in sorted ==> c in stats
    ensures Grouping.SetOf(Names(sorted)) == Grouping.SetOf(Names(stats))
  {
    assert |sorted| == |multiset(sorted)| == |multiset(stats)| == |stats|;
    forall c | c in sorted ensures c in stats {
      assert c in multiset(sorted);
    }
    forall n | n in Grouping.SetOf(Names(sorted)) ensures n in Grouping.SetOf(Names(stats)) {
      var i :| 0 <= i < |sorted| && Names(sorted)[i] == n;
      assert sorted[i] in multiset(stats);
      var j :| 0 <= j < |stats| && stats[j] == sorted[i];
      assert Names(stats)[j] == n;
    }
    forall n | n in Grouping.SetOf(Names(stats)) ensures n in Grouping.SetOf(Names(sorted)) {
      var j :| 0 <= j < |stats| && Names(stats)[j] == n;
      assert stats[j] in multiset(sorted);
      var i :| 0 <= i < |sorted| && sorted[i] == stats[j];
      assert Names(sorted)[i] == n;
    }
  }

  /** Rolls every group up, visiting the groups in an unspecified order like
      Go's map iteration: one CheckerStats and one newest run per group. */
  method RollUpGroups(results: seq<Result>, groups: map<string, seq<Result>>)
    returns (stats: seq<CheckerStats>, latestResults: map<string, Result>)
    requires groups.Keys == CheckerNames(results)
    requires forall name :: name in groups ==> groups[name] == RunsOf(results, name)
    ensures latestResults.Keys == groups.Keys
    ensures RolledUp(results, stats, latestResults)
  {
    stats, latestResults := [], map[];
    var remaining := groups.Keys;
    while remaining != {}
      invariant remaining <= groups.Keys
      invariant latestResults.Keys == groups.Keys - remaining
      invariant RolledUp(results, stats, latestResults)
      decreases remaining
    {
      var name :| name in remaining;
      var runs := groups[name];
      Grouping.SelectNonEmpty(results, CheckerOf, name);
      var latest := Newest(runs);
      var st := RollUp(name, runs, latest.timestamp);
      RolledUpStep(results, stats, latestResults, st, latest);
      stats := stats + [st];
      latestResults := latestResults[name := latest];
      remaining := remaining - {name};
    }
  }

  /** Adding the statistics and newest run of one more checker. */
  lemma RolledUpStep(results: seq<Result>, stats: seq<CheckerStats>, latestResults: map<string, Result>,
                     st: CheckerStats, latest: Result)
    requires RolledUp(results, stats, latestResults)
    requires st.name !in latestResults
    requires IsNewest(latest, results, st.name)
    requires st == ExpectedStats(results, st.name, latest.timestamp)
    ensures RolledUp(results, stats + [st], latestResults[st.name := latest])
  {
    assert Names(stats + [st]) == Names(stats) + [st.name];
    Grouping.DistinctSnoc(Names(stats), st.name);
  }

  /** Rearranging the statistics keeps what the roll-up established. */
  lemma SortedStats(results: seq<Result>, stats: seq<CheckerStats>, sorted: seq<CheckerStats>, latestResults: map<string, Result>)
    requires multiset(sorted) == multiset(stats)
    requires RolledUp(results, stats, latestResults)
    ensures RolledUp(results, sorted, latestResults)
  {
    PermutedStats(stats, sorted);
    Grouping.DistinctCard(Names(stats));
    Grouping.DistinctCard(Names(sorted));
  }

  /** `aggregateResults`: groups the runs by checker, rolls each group up and
      picks its newest run, and sorts the statistics by lower-cased name. */
  method AggregateResults(results: seq<Result>) returns (d: DashboardData)
    ensures IsAggregateOf(d, results)
  {
    var groups := GroupByChecker(results);
    var stats, latestResults := RollUpGroups(results, groups);
    LowerNameOrder();
    var sorted := Sorting.Sort(stats, LowerNameLe);
    SortedStats(results, stats, sorted, latestResults);
    d := DashboardData(sorted, |results|, latestResults, results);
  }

  // ---------------------------------------------------------------------
  // What aggregation conserves.

  /** The sum of one counter over a list of checker statistics. */
  function SumStat(cs: seq<CheckerStats>, k: Counter): int {
    if cs == [] then 0 else SumStat(cs[..|cs| - 1], k) + StatOf(cs[|cs| - 1], k)
  }

  lemma {:induction false} TotalOfRuns(xs: seq<Result>)
    ensures Grouping.Total(xs, RunWeight) == |xs|
  {
    if xs != [] {
      TotalOfRuns(xs[..|xs| - 1]);
    }
  }

  /** Summing a counter over statistics that each agree with their group
      is summing the group totals. */
  lemma {:induction false} SumStatGroups(cs: seq<CheckerStats>, results: seq<Result>, latest: map<string, Result>, k: Counter)
    requires forall c :: c in cs ==> c.name in latest && c == ExpectedStats(results, c.name, latest[c.name].timestamp)
    ensures SumStat(cs, k) == Grouping.GroupTotals(results, CheckerOf, WeightOf(k), Names(cs))
  {
    if cs != [] {
      var cs', c := cs[..|cs| - 1], cs[|cs| - 1];
      assert c in cs;
      assert Names(cs)[..|cs| - 1] == Names(cs');
      SumStatGroups(cs', results, latest, k);
      if k == Runs {
        TotalOfRuns(RunsOf(results, c.name));
      }
    }
  }

  /** Aggregation loses and duplicates nothing: the runs of all checkers add
      up to the number of results loaded, and each issue counter, summed
      over the checkers, is that counter summed over every result. */
  lemma CountsConserved(d: DashboardData, results: seq<Result>)
    requires IsAggregateOf(d, results)
    ensures SumStat(d.checkers, Runs) == d.totalChecks
    ensures forall k :: SumStat(d.checkers, k) == Grouping.Total(results, WeightOf(k))
  {
    forall k ensures SumStat(d.checkers, k) == Grouping.Total(results, WeightOf(k)) {
      CounterConserved(d, results, k);
    }
    TotalOfRuns(results);
  }

  lemma {:induction false} CounterConserved(d: DashboardData, results: seq<Result>, k: Counter)
    requires IsAggregateOf(d, results)
    ensures SumStat(d.checkers, k) == Grouping.Total(results, WeightOf(k))
  {
    SumStatGroups(d.checkers, results, d.latestResults, k);
    Grouping.PartitionTotals(results, CheckerOf, WeightOf(k), Names(d.checkers));
  }

  /** Aggregating no runs gives the empty aggregate, whichever way it is
      computed. */
  lemma EmptyAggregate(d: DashboardData)
    requires IsAggregateOf(d, [])
    ensures d == DashboardData([], 0, map[], [])
  {
    assert d.latestResults.Keys == {};
    assert d.latestResults == map[];
    Grouping.DistinctCard(Names(d.checkers));
    assert |d.checkers| == 0;
  }

  // ---------------------------------------------------------------------
  // Accessors.

  /** `GetLatestResultForChecker`: the newest run of `name`, None (Go's nil)
      when the checker has none. */
  function GetLatestResultForChecker(d: DashboardData, name: string): (r: Option<Result>)
    ensures r.Some? <==> name in d.latestResults
    ensures r.Some? ==> r.value == d.latestResults[name]
  {
    if name in d.latestResults then Some(d.latestResults[name]) else None
  }

  /** For an aggregate, every checker tab finds its newest run. */
  lemma EveryCheckerHasLatest(d: DashboardData, results: seq<Result>, i: nat)
    requires IsAggregateOf(d, results) && i < |d.checkers|
    ensures GetLatestResultForChecker(d, d.checkers[i].name).Some?
    ensures GetLatestResultForChecker(d, d.checkers[i].name).value.timestamp == d.checkers[i].latestRun
  {
    assert d.checkers[i] in d.checkers;
  }

  /** `GetCheckerNames`: the checker names in display order. */
  method GetCheckerNames(d: DashboardData) returns (names: seq<string>)
    ensures |names| == |d.checkers|
    ensures forall i :: 0 <= i < |names| ==> names[i] == d.checkers[i].name
  {
    var a := new string[|d.checkers|];
    for i := 0 to |d.checkers|
      invariant forall j :: 0 <= j < i ==> a[j] == d.checkers[j].name
    {
      a[i] := d.checkers[i].name;
    }
    names := a[..];
  }

  function AddSummary(a: Summary, b: Summary): Summary {
    Summary(a.totalFiles + b.totalFiles, a.filesWithIssues + b.filesWithIssues,
      a.totalIssues + b.totalIssues, a.errorCount + b.errorCount,
      a.warningCount + b.warningCount, a.infoCount + b.infoCount)
  }

  /** The field-wise sum of the summaries of the results under `keys`, in
      any order. */
  ghost function SumSummaries(m: map<string, Result>, keys: set<string>): Summary
    requires keys <= m.Keys
    decreases keys
  {
    if keys == {} then ZeroSummary
    else
      var k :| k in keys;
      AddSummary(SumSummaries(m, keys - {k}), m[k].summary)
  }

  /** The sum does not depend on the order the keys are visited in. */
  lemma SumSummariesRemove(m: map<string, Result>, keys: set<string>, k: string)
    requires keys <= m.Keys && k in keys
    ensures SumSummaries(m, keys) == AddSummary(SumSummaries(m, keys - {k}), m[k].summary)
    decreases keys
  {
    var k' :| k' in keys && SumSummaries(m, keys) == AddSummary(SumSummaries(m, keys - {k'}), m[k'].summary);
    if k' != k {
      SumSummariesRemove(m, keys - {k'}, k);
      SumSummariesRemove(m, keys - {k}, k');
      assert keys - {k'} - {k} == keys - {k} - {k'};
      AddSummarySwap(SumSummaries(m, keys - {k'} - {k}), m[k].summary, m[k'].summary);
    }
  }

  lemma AddSummarySwap(a: Summary, b: Summary, c: Summary)
    ensures AddSummary(AddSummary(a, b), c) == AddSummary(AddSummary(a, c), b)
  {
  }

  /** The overall summary: every counter summed over the newest runs only. */
  ghost function OverallSummary(d: DashboardData): Summary {
    SumSummaries(d.latestResults, d.latestResults.Keys)
  }

  /** `GetOverallSummary`, visiting the newest runs in map order. */
  method GetOverallSummary(d: DashboardData) returns (summary: Summary)
    ensures summary == OverallSummary(d)
  {
    var m := d.latestResults;
    summary := ZeroSummary;
    var remaining := m.Keys;
    while remaining != {}
      invariant remaining <= m.Keys
      invariant summary == SumSummaries(m, m.Keys - remaining)
      decreases remaining
    {
      var name :| name in remaining;
      var s := m[name].summary;
      var done := m.Keys - remaining;
      SumSummariesRemove(m, done + {name}, name);
      assert done + {name} - {name} == done;
      summary := summary.(
        totalFiles := summary.totalFiles + s.totalFiles,
        filesWithIssues := summary.filesWithIssues + s.filesWithIssues,
        totalIssues := summary.totalIssues + s.totalIssues,
        errorCount := summary.errorCount + s.errorCount,
        warningCount := summary.warningCount + s.warningCount,
        infoCount := summary.infoCount + s.infoCount);
      remaining := remaining - {name};
      assert m.Keys - remaining == done + {name};
    }
    assert m.Keys - remaining == m.Keys;
  }

  /** Summing summaries that keep the Summary invariant keeps it: the
      overall total is the sum of the overall severity counts, and the
      overall files with issues lie between 0 and the overall files. */
  lemma SumSummariesConsistent(m: map<string, Result>, keys: set<string>)
    requires keys <= m.Keys
    requires forall k :: k in keys ==> ConsistentSummary(m[k])
    ensures var s := SumSummaries(m, keys);
      && s.errorCount + s.warningCount + s.infoCount == s.totalIssues
      && 0 <= s.filesWithIssues <= s.totalFiles
    decreases keys
  {
    if keys != {} {
      var k :| k in keys;
      SumSummariesRemove(m, keys, k);
      SumSummariesConsistent(m, keys - {k});
    }
  }

  /** The newest timestamp among the results under `keys`, or the zero time
      when there is none newer than it. */
  ghost function MaxTimestamp(m: map<string, Result>, keys: set<string>): (t: Time)
    requires keys <= m.Keys
    ensures t >= 0
    ensures forall k :: k in keys ==> m[k].timestamp <= t
    ensures t == 0 || exists k :: k in keys && m[k].timestamp == t
    decreases keys
  {
    if keys == {} then 0
    else
      var k :| k in keys;
      var t := MaxTimestamp(m, keys - {k});
      if m[k].timestamp > t then m[k].timestamp else t
  }

  /** The time of the most recent check: the newest of the newest runs. */
  ghost function LatestCheckTime(d: DashboardData): Time {
    MaxTimestamp(d.latestResults, d.latestResults.Keys)
  }

  /** `GetLatestCheckTime`: starts from the zero time and keeps any newer
      timestamp, visiting the newest runs in map order. */
  method GetLatestCheckTime(d: DashboardData) returns (latest: Time)
    ensures latest == LatestCheckTime(d)
  {
    var m := d.latestResults;
    latest := 0;
    var remaining := m.Keys;
    while remaining != {}
      invariant remaining <= m.Keys
      invariant latest >= 0
      invariant forall k :: k in m.Keys - remaining ==> m[k].timestamp <= latest
      invariant latest == 0 || exists k :: k in m.Keys - remaining && m[k].timestamp == latest
      decreases remaining
    {
      var name :| name in remaining;
      if m[name].timestamp > latest {
        latest := m[name].timestamp;
      }
      remaining := remaining - {name};
    }
    assert m.Keys - remaining == m.Keys;
  }

  /** For an aggregate, the latest check time is at least the time of every
      run loaded. */
  lemma LatestCheckTimeIsNewest(d: DashboardData, results: seq<Result>)
    requires IsAggregateOf(d, results)
    ensures forall r :: r in results ==> r.timestamp <= LatestCheckTime(d)
  {
    forall r | r in results ensures r.timestamp <= LatestCheckTime(d) {
      var i :| 0 <= i < |results| && results[i] == r;
      assert r.checker in CheckerNames(results);
      RunsOfContains(results, i);
    }
  }

  /** Every result is among the runs of its own checker. */
  lemma {:induction false} RunsOfContains(results: seq<Result>, i: nat)
    requires i < |results|
    ensures results[i] in RunsOf(results, results[i].checker)
  {
    var xs', x := results[..|results| - 1], results[|results| - 1];
    assert results == xs' + [x];
    Grouping.SelectSnoc(xs', x, CheckerOf, results[i].checker);
    if i < |results| - 1 {
      assert xs'[i] == results[i];
      RunsOfContains(xs', i);
    }
  }

  // ---------------------------------------------------------------------
  // LoadDashboardData

  /** What reading one result file gave: a result, or a file that could not
      be read or decoded. */
  datatype ParseOutcome = Parsed(result: Result) | Unparsable

  /** What scanning the results directory gave: the outcomes of its `.json`
      files in walk order (none when the directory does not exist), or a
      walk error. */
  datatype Scan = Scanned(files: seq<ParseOutcome>) | ScanFailed(reason: string)

  datatype Loaded = Loaded(data: DashboardData) | LoadFailed(message: string)

  /** What one file contributes: its result, or nothing. */
  function Kept(f: ParseOutcome): seq<Result> {
    match f
    case Parsed(r) => [r]
    case Unparsable => []
  }

  /** The results of the files that parsed, in file order. */
  function ParsedResults(files: seq<ParseOutcome>): seq<Result> {
    if files == [] then []
    else ParsedResults(files[..|files| - 1]) + Kept(files[|files| - 1])
  }

  /** Skipping is file by file: the parsed results of two batches of files
      are those of the first followed by those of the second. */
  lemma {:induction false} ParsedResultsConcat(a: seq<ParseOutcome>, b: seq<ParseOutcome>)
    ensures ParsedResults(a + b) == ParsedResults(a) + ParsedResults(b)
    decreases |b|
  {
    if b != [] {
      var b', x := b[..|b| - 1], b[|b| - 1];
      assert a + b == (a + b') + [x];
      assert (a + b)[..|a + b| - 1] == a + b';
      assert (a + b)[|a + b| - 1] == x;
      ParsedResultsConcat(a, b');
      calc {
        ParsedResults(a + b);
        ParsedResults(a + b') + Kept(x);
        ParsedResults(a) + ParsedResults(b') + Kept(x);
        ParsedResults(a) + (ParsedResults(b') + Kept(x));
        ParsedResults(a) + ParsedResults(b);
      }
    } else {
      assert a + b == a;
    }
  }

  /** `LoadDashboardData`: a walk error fails the load; otherwise every file
      that parses is kept, in order, every other file is skipped, and the
      kept results are aggregated. */
  method LoadDashboardData(scan: Scan) returns (loaded: Loaded)
    ensures scan.ScanFailed? <==> loaded.LoadFailed?
    ensures scan.Scanned? ==> IsAggregateOf(loaded.data, ParsedResults(scan.files))
  {
    if scan.ScanFailed? {
      return LoadFailed("failed to scan results directory: " + scan.reason);
    }
    var files := scan.files;
    if |files| == 0 {
      var empty := DashboardData([], 0, map[], []);
      assert Grouping.Keys([], CheckerOf) == {};
      assert Grouping.SetOf(Names([])) == {};
      return Loaded(empty);
    }
    var allResults: seq<Result> := [];
    for i := 0 to |files|
      invariant allResults == ParsedResults(files[..i])
    {
      assert files[..i + 1][..i] == files[..i];
      match files[i]
      case Parsed(r) =>
        allResults := allResults + [r];
      case Unparsable =>
    }
    assert files[..|files|] == files;
    var d := AggregateResults(allResults);
    return Loaded(d);
  }
}
