# marvin, modelled in Dafny

marvin is a documentation quality tool. A Go command line runs two checkers, Vale (a prose linter) and markdownlint. It normalises their output into one `Result` record (checker, timestamp, path, `Summary` counters, `Issue` list and metadata) and stores each run as a JSON file. A terminal dashboard aggregates the stored runs per checker and lets the user step through tabs:
- an "All" tab with the overall summary;
- one tab per checker, in a summary or a details view.

A Next.js front end serves the same files through `GET /api/results` and formats them with a few helpers.

This project models the logic of that pipeline and proves what it promises:
- how runs are aggregated;
- the dashboard's navigation state machine and the text it renders;
- the two checkers' output normalisers;
- the plain-text and terminal result renderers;
- the search for installed tools and the install instructions;
- the web helpers and the results endpoint.

Modules, one per source file, plus shared ones:

| module | file | models |
|---|---|---|
| `Models` | models.dfy | the record types, severity counting, the Summary invariant |
| `Text` | text.dfy | the standard-library string operations the code calls (`%d`, `Join`, `ToLower` and `Title` on ASCII letters, `TrimSpace`, `indexOf`, …) |
| `Sorting` | sorting.dfy | a sort by a total preorder, standing for `sort.Slice` and `Array.prototype.sort` |
| `Grouping` | grouping.dfy | order-preserving grouping by a key and the fact that it partitions |
| `Tea` | tea.dfy | the event-loop messages and commands both terminal views react to |
| `Report` | report.dfy | the "N (x errors, y warnings, …)" breakdown and indented line lists shared by the renderers |
| `Aggregator` | aggregator.dfy | cli/internal/app/dashboard/aggregator.go |
| `DashboardView` | dashboard_view.dfy | cli/internal/app/tui/dashboard.go (`DashboardModel` is a class whose `Update` changes its fields) |
| `Viewer` | viewer.dfy | cli/internal/app/tui/viewer.go |
| `Formatter` | formatter.dfy | cli/internal/app/output/formatter.go (the `io.Writer` is a class that accumulates) |
| `Vale` | vale.dfy | cli/internal/app/checker/vale.go |
| `Markdownlint` | markdownlint.dfy | cli/internal/app/checker/markdownlint.go |
| `Detector` | detector.dfy | cli/internal/app/dependency/detector.go |
| `WebUtils` | web_utils.dfy | web/lib/utils.ts |
| `ResultsRoute` | results_route.dfy | web/app/api/results/route.ts |

## Conventions

- Time is an integer number of nanoseconds since Go's zero time, so `IsZero` means 0. The web code works in milliseconds since the epoch. "Now" is always a parameter.
- Every lipgloss `Render` is the identity, so a styled string is its text. This is why the selected tab renders like any other.
- Go map iteration is a `:|` choice in the loops. Where a contract needs the visiting order, a ghost out-parameter returns it. `sort.Slice` is a sort that promises only order and permutation.
- External effects are parameters:
  - running processes, and the answers of the Homebrew, npm and PATH detectors;
  - reading files and decoding JSON.

## Choices the code leaves to the model

- **Tab 0 and the view mode.** The code flips `viewMode` on every tab, the "All" tab included (dashboard.go:66-73), and tab 0 ignores the mode when rendering (dashboard.go:106-108). `DashboardView.Step` flips it on every tab, and `DashboardView.AllTabIgnoresMode` proves that the "All" tab's text does not depend on it.
- **Ties in "latest".** The code sorts each group with the unstable `sort.Slice` while ranging over a map (aggregator.go:110-118). So the model promises only that the latest run has the maximum timestamp, not which of several tied runs it is.
- **The info counter's label.** The dashboard's overall summary and checker summary label it "info". The result viewer and the plain-text formatter label it "suggestions". The model keeps each label where the code uses it.

## Model

| member | source | states |
|---|---|---|
| Models.CountSeverity | cli/internal/app/checker/vale.go:169-177 | the number of issues of a severity is at most the number of issues, and 0 exactly when no issue has it |
| Models.CanonicalCountsPartition | cli/internal/app/checker/vale.go:169-177 | when every severity is error, warning or info, the three counts add up to the number of issues |
| Sorting.Sort | cli/internal/app/dashboard/aggregator.go:143-145 | the result is a permutation of the input, ordered by the given total preorder |
| Grouping.PartitionTotals | cli/internal/app/dashboard/aggregator.go:101-104 | summed over distinct keys covering every element's key, the group totals equal the total of the input: grouping loses and duplicates nothing |
| Grouping.SelectNonEmpty | cli/internal/app/dashboard/aggregator.go:101-104 | a key has a non-empty group exactly when some element has that key |
| Aggregator.GroupByChecker | cli/internal/app/dashboard/aggregator.go:100-104 | the map's keys are exactly the checkers that occur, and each checker's group is its runs in input order |
| Aggregator.Newest | cli/internal/app/dashboard/aggregator.go:111-118 | the chosen run is in the group and no run of the group is newer |
| Aggregator.RollUp | cli/internal/app/dashboard/aggregator.go:121-137 | a checker's stats have its name, its number of runs, the newest time, and each counter summed over all its runs |
| Aggregator.RollUpGroups | cli/internal/app/dashboard/aggregator.go:110-140 | visiting the groups in any order yields one stats entry and one newest run per checker, each checker once, with the same names in both |
| Aggregator.SortedStats | cli/internal/app/dashboard/aggregator.go:142-145 | sorting the stats keeps every roll-up fact |
| Aggregator.LowerNameOrder | cli/internal/app/dashboard/aggregator.go:143-145 | comparing lower-cased names is a total preorder |
| Aggregator.AggregateResults | cli/internal/app/dashboard/aggregator.go:99-153 | the input is kept as `AllResults` and counted in `TotalChecks`; `LatestResults` has exactly the checkers that occur, each mapped to a run with the maximum timestamp; `Checkers` lists the same names once each, with summed counters, sorted by lower-cased name |
| Aggregator.CountsConserved | cli/internal/app/dashboard/aggregator.go:123-137 | over all checkers, the run counts add up to `TotalChecks` and every counter adds up to its total over all runs |
| Aggregator.EmptyAggregate | cli/internal/app/dashboard/aggregator.go:23-30 | aggregating no runs gives empty checkers, zero checks, an empty latest map and empty `AllResults` |
| Aggregator.ParsedResultsConcat | cli/internal/app/dashboard/aggregator.go:32-41 | skipping works file by file: the results kept from two batches are those of the first followed by those of the second |
| Aggregator.LoadDashboardData | cli/internal/app/dashboard/aggregator.go:15-47 | a walk error fails the load; otherwise the load succeeds and its data aggregates exactly the files that parsed, in order |
| Aggregator.GetLatestResultForChecker | cli/internal/app/dashboard/aggregator.go:155-158 | there is a result exactly when the checker has an entry in `LatestResults`, and it is that entry |
| Aggregator.EveryCheckerHasLatest | cli/internal/app/dashboard/aggregator.go:116-124 | in an aggregate, every listed checker has a latest result whose timestamp is its `LatestRun` |
| Aggregator.GetCheckerNames | cli/internal/app/dashboard/aggregator.go:160-167 | the names of the checkers, in display order |
| Aggregator.GetOverallSummary | cli/internal/app/dashboard/aggregator.go:169-190 | every counter summed over the latest runs only, whatever order the map is visited in |
| Aggregator.SumSummariesRemove | cli/internal/app/dashboard/aggregator.go:180-187 | the overall sum does not depend on which latest run is added last |
| Aggregator.SumSummariesConsistent | cli/internal/app/dashboard/aggregator.go:169-190 | summing summaries that keep the Summary invariant keeps it |
| Aggregator.MaxTimestamp | cli/internal/app/dashboard/aggregator.go:192-201 | at least every latest run's timestamp, and either the zero time or one of them |
| Aggregator.GetLatestCheckTime | cli/internal/app/dashboard/aggregator.go:192-201 | the newest timestamp among the latest runs, or the zero time when there are none |
| Aggregator.LatestCheckTimeIsNewest | cli/internal/app/dashboard/aggregator.go:192-201 | in an aggregate, no input run is newer than the latest check time |
| DashboardView.NeverAndJustNow | cli/internal/app/tui/dashboard.go:338-346 | "never" exactly for the zero time; a non-zero time less than a minute old reads "just now" |
| DashboardView.MinutesAgo | cli/internal/app/tui/dashboard.go:347-352 | n whole minutes, 1 <= n < 60, read "1 minute ago" or "n minutes ago" |
| DashboardView.HoursAgo | cli/internal/app/tui/dashboard.go:353-358 | n whole hours, 1 <= n < 24, read "1 hour ago" or "n hours ago" |
| DashboardView.DaysAgo | cli/internal/app/tui/dashboard.go:359-365 | n whole days, n >= 1, read "1 day ago" or "n days ago" |
| DashboardView.StepInRange | cli/internal/app/tui/dashboard.go:47-77 | every message keeps the tab in [0, N] and the mode one of the two |
| DashboardView.NextPrevInverse | cli/internal/app/tui/dashboard.go:54-65 | with N > 0, next then previous, and previous then next, restore the state |
| DashboardView.PrevFromAll | cli/internal/app/tui/dashboard.go:60-65 | previous from the "All" tab wraps to the last checker |
| DashboardView.AdvanceTabs | cli/internal/app/tui/dashboard.go:54-59 | k presses of next move to tab (tab + k) mod (N + 1) and change nothing else |
| DashboardView.FullCycle | cli/internal/app/tui/dashboard.go:54-59 | N + 1 presses of next return to the starting state |
| DashboardView.ModeToggles | cli/internal/app/tui/dashboard.go:66-73 | enter always changes the mode, enter twice restores it, and tab moves never change it |
| DashboardView.QuitIsFinal | cli/internal/app/tui/dashboard.go:51-53 | a quit key always quits, and quitting is never undone |
| DashboardView.UnboundIsNoop | cli/internal/app/tui/dashboard.go:48-76 | other keys and other messages leave the state unchanged; with no checkers, tab moves do too |
| DashboardView.TabLabels | cli/internal/app/tui/dashboard.go:126-148 | "All" first, then each checker's title-cased name, one label per tab |
| DashboardView.AllTabIgnoresMode | cli/internal/app/tui/dashboard.go:106-108 | the text of tab 0 is the same in both view modes |
| DashboardView.CheckerTabShowsRun | cli/internal/app/tui/dashboard.go:109-119 | tab k > 0 shows checker k - 1; in the details view, that checker's latest result in the single-result layout |
| DashboardView.AggregateTabsShowRuns | cli/internal/app/tui/dashboard.go:109-119 | for an aggregate, every checker tab shows a run in both views and never the no-results notice |
| DashboardView.PresentRunShown | cli/internal/app/tui/dashboard.go:261-335 | a checker with a latest run shows it in details and does not show the notice in summary |
| DashboardView.MissingRunNotice | cli/internal/app/tui/dashboard.go:326-331 | a checker without a latest run shows "No results available" in both views instead of failing |
| DashboardView.DashboardModel.constructor | cli/internal/app/tui/dashboard.go:32-41 | the "All" tab in summary mode, ready, not quitting, with the content rendered |
| DashboardView.DashboardModel.Update | cli/internal/app/tui/dashboard.go:47-77 | the state moves as `Step` says; a quit key returns the quit command; the content is re-rendered exactly on the messages that re-render in the code and is otherwise kept |
| DashboardView.DashboardModel.Show | cli/internal/app/tui/dashboard.go:57-73 | selects the tab and mode and re-renders the content for them |
| DashboardView.DashboardModel.View | cli/internal/app/tui/dashboard.go:79-90 | empty exactly when quitting; otherwise, once ready, it starts with the content |
| DashboardView.DashboardModel.RenderContent | cli/internal/app/tui/dashboard.go:93-123 | the title, the tab bar, then the overall summary on tab 0 or the selected checker's summary or details |
| DashboardView.DashboardModel.RenderTabs | cli/internal/app/tui/dashboard.go:126-148 | the tab labels joined by spaces |
| DashboardView.DashboardModel.RenderOverallSummary | cli/internal/app/tui/dashboard.go:151-216 | the totals over the latest runs, the latest check time, then one card per checker in display order |
| DashboardView.DashboardModel.WriteCards | cli/internal/app/tui/dashboard.go:200-213 | appends one card per checker, each followed by a blank line |
| DashboardView.DashboardModel.RenderCheckerCard | cli/internal/app/tui/dashboard.go:219-258 | the checker's name, last run, issue counters over all runs and number of runs |
| DashboardView.DashboardModel.RenderCheckerSummary | cli/internal/app/tui/dashboard.go:261-323 | the latest run's summary lines, or the notice when there is none |
| DashboardView.DashboardModel.RenderCheckerDetails | cli/internal/app/tui/dashboard.go:326-335 | the latest run in the viewer's layout, or the notice |
| Viewer.FormatResults | cli/internal/app/tui/viewer.go:65-153 | the title, the four summary lines, then either the no-issues line or the issue blocks separated by blank lines |
| Viewer.WriteIssues | cli/internal/app/tui/viewer.go:128-149 | appends the issue blocks in order, a newline before each one but the first |
| Viewer.WriteIssue | cli/internal/app/tui/viewer.go:133-148 | appends the location line, the severity and rule line, the message, and the context line only when there is a context |
| Viewer.IssueListConcat | cli/internal/app/tui/viewer.go:128-131 | two runs of issues are listed with exactly one separating newline |
| Viewer.IssueBlockLines | cli/internal/app/tui/viewer.go:133-148 | an issue with single-line fields takes three lines, four with a context |
| Viewer.IssueListLines | cli/internal/app/tui/viewer.go:128-149 | n issues take the lines of their blocks plus n - 1 blank lines |
| Viewer.Model.constructor | cli/internal/app/tui/viewer.go:28-34 | the content is the formatted result; ready and not quitting |
| Viewer.Model.Update | cli/internal/app/tui/viewer.go:40-50 | a quit key quits and returns the quit command; anything else changes nothing |
| Viewer.Model.View | cli/internal/app/tui/viewer.go:52-62 | empty exactly when quitting; otherwise, once ready, it starts with the content |
| Report.CountParts | cli/internal/app/tui/viewer.go:90-102 | one part per positive counter, in the order errors, warnings, then the info label; none when no counter is positive |
| Report.CountsText | cli/internal/app/tui/viewer.go:104-107 | the total, followed by the breakdown exactly when some counter is positive |
| Report.BuildCounts | cli/internal/app/output/formatter.go:35-56 | appending the positive counters in turn builds that text |
| Report.WriteIndented | cli/internal/app/tui/viewer.go:114-116 | appends each line indented by two spaces and ended by a newline |
| Formatter.Format | cli/internal/app/output/formatter.go:25-86 | writes exactly the header, the summary and the issues section, and never returns an error |
| Formatter.WriteSummary | cli/internal/app/output/formatter.go:30-57 | writes the path, files scanned, files with issues and total issues lines in that order |
| Formatter.WriteSeparated | cli/internal/app/output/formatter.go:49-54 | writes the parts with ", " between neighbours |
| Formatter.WriteIssues | cli/internal/app/output/formatter.go:59-83 | the "Issues:" header and the blocks when there are issues, otherwise "No issues found! ✓" |
| Formatter.WriteBlocks | cli/internal/app/output/formatter.go:64-80 | writes the issue blocks in input order |
| Formatter.WriteBlock | cli/internal/app/output/formatter.go:65-79 | location, "[severity] rule", the message, the context line only when non-empty, then a blank line |
| Formatter.BlocksConcat | cli/internal/app/output/formatter.go:64-80 | the blocks of two runs of issues are the blocks of each, one after the other |
| Formatter.TotalIssuesAgree | cli/internal/app/output/formatter.go:35-56 | the formatter's total-issues value is the shared breakdown text with the "suggestions" label |
| Formatter.IssuesHeaderIff | cli/internal/app/output/formatter.go:59-83 | the "Issues:" header appears exactly when there are issues, and the no-issues line exactly when there are none |
| Vale.NewValeChecker | cli/internal/app/checker/vale.go:37-50 | an empty alert level becomes "suggestion" and an empty path "vale"; given values are kept |
| Vale.NormalizeSeverity | cli/internal/app/checker/vale.go:191-202 | the result is canonical; it is "error" exactly for "error" and "warning" exactly for "warning" |
| Vale.FileIssues | cli/internal/app/checker/vale.go:150-167 | one issue per alert, in order, with the first span offset as column (0 without a span) |
| Vale.TransformResult | cli/internal/app/checker/vale.go:123-188 | files visited once each in some order; one issue per alert; every file counted as scanned and those with alerts as having issues; counters by normalised severity; a consistent summary |
| Vale.AddAlerts | cli/internal/app/checker/vale.go:150-178 | appends one issue per alert and counts each under its severity |
| Vale.IssuesCanonical | cli/internal/app/checker/vale.go:170-177 | every issue carries a canonical severity, so every one is counted |
| Vale.IssuesOfFile | cli/internal/app/checker/vale.go:143-167 | whatever the visiting order, a file's issues are exactly its alerts, in alert order |
| Markdownlint.NewMarkdownlintChecker | cli/internal/app/checker/markdownlint.go:41-50 | an empty path becomes "markdownlint"; given values are kept |
| Markdownlint.SelectOutput | cli/internal/app/checker/markdownlint.go:114-129 | stderr when non-empty, else stdout; no output fails with its message; a trimmed output starting with neither "{" nor "[" fails with the trimmed text; a selected output passes that guard |
| Markdownlint.TransformResult | cli/internal/app/checker/markdownlint.go:144-231 | one issue per entry in order; distinct file names counted as scanned and as having issues; errors and warnings counted, info 0; a consistent summary |
| Markdownlint.Collect | cli/internal/app/checker/markdownlint.go:161-222 | the loop builds the issues and counts each distinct file once |
| Markdownlint.AddIssue | cli/internal/app/checker/markdownlint.go:197-221 | appends the entry's issue and counts it as an error or a warning |
| Markdownlint.MessageDetail | cli/internal/app/checker/markdownlint.go:180-183 | the message starts with the rule description and equals it exactly when there is no non-empty detail |
| Markdownlint.IssueFields | cli/internal/app/checker/markdownlint.go:173-195 | rule "unknown" without rule names; empty context without one; column 0 without a range |
| Detector.FirstHit | cli/internal/app/dependency/detector.go:65-73 | the first detector that reports the name installed without error, or none when no detector does |
| Detector.Search | cli/internal/app/dependency/detector.go:36-59 | the first hit in name-major order: nothing asked earlier was accepted |
| Detector.IsInstalled | cli/internal/app/dependency/detector.go:34-75 | never an error; installed exactly when some detector accepts some candidate name; empty path when not installed |
| Detector.FirstDetectorWins | cli/internal/app/dependency/detector.go:65-73 | for other tools, the path of the first accepting detector in the order Brew, npm, system |
| Detector.Cli2Preferred | cli/internal/app/dependency/detector.go:36-59 | for markdownlint, any detector with markdownlint-cli2 wins over every answer about the older names |
| Detector.GetInstallInstructions | cli/internal/app/dependency/detector.go:78-108 | the header naming the tool, the tool's options, and the closing line |
| Detector.InstallTextFrame | cli/internal/app/dependency/detector.go:79-106 | the text starts with "Error: <tool> is not installed" and ends with the request to run the command again |
| Detector.UnknownToolGeneric | cli/internal/app/dependency/detector.go:102-104 | a tool without its own options gets the generic PATH line naming it, unlike Vale and markdownlint |
| WebUtils.JustNowIff | web/lib/utils.ts:19-26 | "just now" exactly when less than a minute has passed, future dates included |
| WebUtils.FormattedDateIff | web/lib/utils.ts:38-43 | the formatted date exactly when a week or more has passed |
| WebUtils.MinutesAgo | web/lib/utils.ts:28-31 | k whole minutes, 1 <= k < 60, read "k minute(s) ago", plural only above 1 |
| WebUtils.HoursAgo | web/lib/utils.ts:33-36 | k whole hours, 1 <= k < 24, read "k hour(s) ago" |
| WebUtils.DaysAgo | web/lib/utils.ts:38-41 | k whole days, 1 <= k < 7, read "k day(s) ago" |
| WebUtils.CalculatePassRate | web/lib/utils.ts:82-85 | 100 without files; otherwise the nearest integer to 100 (t - f) / t, halves rounded up |
| WebUtils.PassRateRange | web/lib/utils.ts:82-85 | with 0 <= f <= t the rate lies in [0, 100]: 100 without issues, 0 when every file has some |
| WebUtils.SeverityColorsDistinguish | web/lib/utils.ts:46-70 | both colour maps give the three severities distinct classes, distinct from the fallback that every other string gets |
| WebUtils.AsWrittenBehaviour | web/lib/utils.ts:72-80 | as written, the grouping throws exactly when some file name is an inherited object property, and is the intended grouping otherwise |
| WebUtils.ToStringFileThrows | web/lib/utils.ts:72-80 | an issue in a file named "toString" makes the code as written throw |
| WebUtils.GroupIssuesByFile | web/lib/utils.ts:72-80 | the corrected reduce builds each file's issues in input order, keyed by every file that occurs |
| WebUtils.GroupingPartitions | web/lib/utils.ts:72-80 | the keys are exactly the files that occur; every issue is in its own file's group; groups are non-empty and hold only their file's issues; their sizes add up to the number of issues |
| ResultsRoute.ParseIntRoundTrip | web/app/api/results/route.ts:48-49 | `parseInt` reads back any integer's decimal form, whatever non-digit text follows |
| ResultsRoute.ParamDefaults | web/app/api/results/route.ts:48-49 | absent or empty parameters give limit 20 and offset 0 |
| ResultsRoute.CheckerParam | web/app/api/results/route.ts:47-55 | the results are filtered exactly when a non-empty checker is given |
| ResultsRoute.JsonFiles | web/app/api/results/route.ts:25-26 | exactly the listed files whose names end in ".json" |
| ResultsRoute.ResultIdOfPlainName | web/app/api/results/route.ts:33-36 | a name without other dots has the name less ".json" as its id |
| ResultsRoute.ResultIdFirstOccurrence | web/app/api/results/route.ts:34 | only the first ".json" is removed: "a.json.json" has the id "a.json" |
| ResultsRoute.ReadAll | web/app/api/results/route.ts:29-38 | every file read and parsed, with its id, in order; a failure exactly when some file cannot be read or parsed |
| ResultsRoute.NewerFirstOrder | web/app/api/results/route.ts:41-43 | the comparator's order is a total preorder |
| ResultsRoute.FilterChecker | web/app/api/results/route.ts:53-55 | every kept result has the requested checker |
| ResultsRoute.Get | web/app/api/results/route.ts:8-75 | no directory gives the empty first page; a listing, read or parse failure gives the 500 response; otherwise a newest-first permutation of the results is filtered and sliced, with total, page number and page size as computed |
| ResultsRoute.PageContents | web/app/api/results/route.ts:58 | a page is the stretch of the filtered results starting at the offset position, all of the requested checker, at most `limit` long |
| ResultsRoute.PageNewestFirst | web/app/api/results/route.ts:41-58 | a page of a newest-first list is newest first |
| ResultsRoute.FilterMultiset | web/app/api/results/route.ts:53-55 | the filter keeps exactly the results of the checker, each as often as it occurs |
| ResultsRoute.TotalIgnoresOrder | web/app/api/results/route.ts:60-62 | the total counts the requested checker's results however equal timestamps were ordered |
| ResultsRoute.PageTiling | web/app/api/results/route.ts:58-64 | with a positive limit and an offset of k pages, page k + 1 and size `limit`, holding the results from position k * limit on |

## Left out

- Running Vale and markdownlint, and the Brew, npm and PATH detectors. These run processes or read the file system. The model takes their captured output or their answers as parameters.
- File-system walking, reading files, JSON decoding and encoding, and writing result files (cli/internal/app/output/writer.go). The model takes the outcome of each file read.
- The bubbletea event loop and lipgloss styling. Every `Render` is the identity.
- `Text.Title` follows Go's `strings.Title` for ASCII letters only. Unicode case mapping is not modelled.
- Aggregator.AggregateResults: sorts `Checkers` by names lower-cased with `Text.ToLower`, which maps only A-Z. Go's `strings.ToLower` maps every Unicode letter. For non-ASCII checker names the stated order can differ from the program's: "Éz" and "éa" come out as [Éz, éa] in the model, and as [éa, Éz] in Go.
- Integer width: `int` is unbounded. The wrap-around of Go's 64-bit `int` in the summary counters is not modelled (aggregator.go:131-137 and 180-187, vale.go:169-177, markdownlint.go:213-221).
- DashboardView.DaysAgo: does not model the saturation of `time.Since` at the largest `time.Duration`. In Go, a non-zero time more than about 292 years old reads "106751 days ago"; the model gives the exact number of days.
- `formatDate` (`Intl.DateTimeFormat`): `WebUtils.RelativeTime` returns a marker instead of the formatted date.
- React pages and components, the run-check and single-result API routes, and the command-line plumbing. These are not part of this model.
- DashboardView.FormatRelativeTime: does not model floating-point truncation. Go computes minutes, hours and days from float hours and minutes; the model uses exact integer division, which agrees except where a float rounds across a unit boundary.
- WebUtils.CalculatePassRate: does not model floating-point rounding. It rounds the exact rational percentage, which can differ from `Math.round` of the float product at a half.
- WebUtils.RelativeTime: does not model an unparsable date, where JavaScript's NaN arithmetic falls through to the formatted date.
- ResultsRoute.ParseInt: does not model hexadecimal "0x" prefixes or precision loss for very long digit strings. It also skips `Text.IsSpace`'s white space, which is not exactly JavaScript's (U+0085 versus U+FEFF).
- ResultsRoute.Get: does not state that `Array.prototype.sort` is stable. It promises only a newest-first permutation.
- ResultsRoute.Get: does not model a stored file with its own `id` field, which the spread would let override the file-name id.
- ResultsRoute.Get: does not model an unparsable timestamp, for which the comparator gives NaN.
- ResultsRoute.Get: does not distinguish directory errors. Every failure while listing is the single `Unlistable` case.
- Detector.GetInstallInstructions: appends each tool's option lines as one block of text, where the code appends them line by line. The text is the same.
- Aggregator.AggregateResults: does not say which of several runs with the same newest timestamp becomes the latest. The code leaves it to `sort.Slice` and map order.
- Vale.TransformResult: does not fix the order of the files. The code follows map iteration order; the order of alerts within a file is kept.

## Findings

| source | as written | input that shows it | evidently intended | confidence | as-written member | corrected member |
|---|---|---|---|---|---|---|
| web/lib/utils.ts:72-80 | `groupIssuesByFile` reduces into `{}` and tests `!acc[issue.file]`. For a name that `{}` inherits from Object.prototype, such as "toString", "constructor" or "__proto__", the test sees a truthy inherited value. No array is created, and `acc[issue.file].push` throws a TypeError | one issue whose file is "toString" (`WebUtils.ToStringFileThrows`) | every file name gets a group of its own issues, as `Object.create(null)` or a `Map` would give | high that it throws for such names; not executed | WebUtils.GroupAsWritten | WebUtils.GroupIssuesByFile |
