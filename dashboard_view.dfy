/** The interactive dashboard: a tab per checker after a synthetic "All"
    tab, a summary/details view mode, and the text each state shows. Every
    lipgloss style renders its text unchanged here, so a selected tab reads
    like any other. */
module DashboardView {
  import opened Models
  import opened Text
  import opened Report
  import opened Tea
  import Aggregator
  import Viewer

  // ---------------------------------------------------------------------
  // formatRelativeTime

  /** "1 <unit> ago" or "<n> <unit>s ago". */
  function Ago(n: int, unit: string): string {
    if n == 1 then "1 " + unit + " ago" else IntToString(n) + " " + unit + "s ago"
  }

  /** `formatRelativeTime`, with the current time `now` as a parameter: the
      time elapsed since `t`, in whole minutes, hours or days, rounded
      down. The zero time reads "never"; anything under a minute, future
      times included, reads "just now". */
  function FormatRelativeTime(t: Time, now: Time): string {
    if t == 0 then "never"
    else
      var d := now - t;
      if d < Minute then "just now"
      else if d < Hour then Ago(d / Minute, "minute")
      else if d < 24 * Hour then Ago(d / Hour, "hour")
      else Ago(d / (24 * Hour), "day")
  }

  /** Exactly n whole minutes elapsed, 1 <= n < 60, reads n minutes. */
  lemma MinutesAgo(t: Time, now: Time, n: int)
    requires t != 0 && 1 <= n < 60
    requires n * Minute <= now - t < (n + 1) * Minute
    ensures FormatRelativeTime(t, now) == Ago(n, "minute")
  {
    assert (now - t) / Minute == n;
  }

  /** Exactly n whole hours elapsed, 1 <= n < 24, reads n hours. */
  lemma HoursAgo(t: Time, now: Time, n: int)
    requires t != 0 && 1 <= n < 24
    requires n * Hour <= now - t < (n + 1) * Hour
    ensures FormatRelativeTime(t, now) == Ago(n, "hour")
  {
    assert (now - t) / Hour == n;
  }

  /** Exactly n whole days elapsed, n >= 1, reads n days. */
  lemma DaysAgo(t: Time, now: Time, n: int)
    requires t != 0 && 1 <= n
    requires n * (24 * Hour) <= now - t < (n + 1) * (24 * Hour)
    ensures FormatRelativeTime(t, now) == Ago(n, "day")
  {
    assert (now - t) / (24 * Hour) == n;
  }

  /** The zero time, and only the zero time, reads "never"; a non-zero time
      under a minute old reads "just now". */
  lemma NeverAndJustNow(t: Time, now: Time)
    ensures FormatRelativeTime(t, now) == "never" <==> t == 0
    ensures t != 0 && now - t < Minute ==> FormatRelativeTime(t, now) == "just now"
  {
    if t != 0 {
      var s := FormatRelativeTime(t, now);
      if now - t >= Minute {
        var d := now - t;
        var n := if d < Hour then d / Minute else if d < 24 * Hour then d / Hour else d / (24 * Hour);
        assert n >= 1;
        NatToStringDigits(n);
        assert IntToString(n) == NatToString(n);
        assert s[0] == IntToString(n)[0];
      }
    }
  }

  // ---------------------------------------------------------------------
  // Navigation state

  const SummaryMode := "summary"
  const DetailsMode := "details"

  /** The part of the model a key press changes. */
  datatype NavState = NavState(tab: int, mode: string, quitting: bool)

  /** The state is reachable: a tab in [0, n] and one of the two modes. */
  predicate InRange(s: NavState, n: nat) {
    0 <= s.tab <= n && (s.mode == SummaryMode || s.mode == DetailsMode)
  }

  predicate IsNextKey(k: string) { k == "tab" || k == "right" }
  predicate IsPrevKey(k: string) { k == "shift+tab" || k == "left" }

  /** The tab after `tab` among the n + 1 tabs. */
  function NextTab(tab: int, n: nat): int {
    (tab + 1) % (n + 1)
  }

  /** The tab before `tab` among the n + 1 tabs. The dividend is never
      negative for a tab in range, where Go's remainder agrees with
      Dafny's. */
  function PrevTab(tab: int, n: nat): int {
    (tab - 1 + n + 1) % (n + 1)
  }

  function Toggle(mode: string): string {
    if mode == SummaryMode then DetailsMode else SummaryMode
  }

  /** What `Update` does to the navigation state on `msg`, with n checker
      tabs: quit keys set `quitting`; next/previous move the tab when there
      is a checker; Enter toggles the view mode on every tab; anything else
      changes nothing. */
  function Step(s: NavState, msg: Msg, n: nat): NavState {
    match msg
    case OtherMsg => s
    case KeyMsg(k) =>
      if IsQuitKey(k) then s.(quitting := true)
      else if IsNextKey(k) then (if n > 0 then s.(tab := NextTab(s.tab, n)) else s)
      else if IsPrevKey(k) then (if n > 0 then s.(tab := PrevTab(s.tab, n)) else s)
      else if k == "enter" then s.(mode := Toggle(s.mode))
      else s
  }

  /** Whether `Update` renders the content again on `msg`. */
  predicate Rerenders(msg: Msg, n: nat) {
    msg.KeyMsg? && !IsQuitKey(msg.key)
    && (((IsNextKey(msg.key) || IsPrevKey(msg.key)) && n > 0) || msg.key == "enter")
  }

  /** Every step keeps a reachable state reachable. */
  lemma StepInRange(s: NavState, msg: Msg, n: nat)
    requires InRange(s, n)
    ensures InRange(Step(s, msg, n), n)
  {
  }

  /** With at least one checker, next then previous, and previous then
      next, come back to the same state. */
  lemma NextPrevInverse(s: NavState, n: nat)
    requires InRange(s, n) && n > 0
    ensures Step(Step(s, KeyMsg("tab"), n), KeyMsg("shift+tab"), n) == s
    ensures Step(Step(s, KeyMsg("shift+tab"), n), KeyMsg("tab"), n) == s
  {
    NextTabValue(s.tab, n);
    PrevTabValue(s.tab, n);
    if s.tab < n {
      PrevTabValue(s.tab + 1, n);
    } else {
      PrevTabValue(0, n);
    }
    if s.tab > 0 {
      NextTabValue(s.tab - 1, n);
    } else {
      NextTabValue(n, n);
    }
  }

  /** Previous from the "All" tab wraps round to the last checker. */
  lemma PrevFromAll(s: NavState, n: nat)
    requires s.tab == 0 && n > 0
    ensures Step(s, KeyMsg("left"), n).tab == n
  {
    PrevTabValue(0, n);
  }

  /** k presses of next. */
  function Advance(s: NavState, n: nat, k: nat): NavState {
    if k == 0 then s else Step(Advance(s, n, k - 1), KeyMsg("tab"), n)
  }

  /** k presses of next move k tabs on, round the n + 1 tabs, and change
      nothing else. */
  lemma {:induction false} AdvanceTabs(s: NavState, n: nat, k: nat)
    requires InRange(s, n) && n > 0
    ensures Advance(s, n, k) == s.(tab := (s.tab + k) % (n + 1))
  {
    if k > 0 {
      AdvanceTabs(s, n, k - 1);
      var t := (s.tab + k - 1) % (n + 1);
      assert (t + 1) % (n + 1) == (s.tab + k) % (n + 1) by {
        ModSucc(s.tab + k - 1, n + 1);
      }
    }
  }

  lemma ModSucc(a: nat, m: nat)
    requires m > 0
    ensures (a % m + 1) % m == (a + 1) % m
  {
    var q, r := a / m, a % m;
    if r + 1 < m {
      ModUnique(r + 1, m, 0, r + 1);
      ModUnique(a + 1, m, q, r + 1);
    } else {
      ModUnique(m, m, 1, 0);
      assert (q + 1) * m == q * m + m;
      ModUnique(a + 1, m, q + 1, 0);
    }
  }

  lemma MulAtLeast(k: int, m: int)
    requires k >= 1 && m > 0
    ensures k * m >= m
  {
    var j := k - 1;
    assert k * m == j * m + m;
    assert j * m >= 0;
  }

  /** The remainder is the r of any a == q * m + r with 0 <= r < m. */
  lemma ModUnique(a: int, m: int, q: int, r: int)
    requires m > 0 && 0 <= r < m && a == q * m + r
    ensures a % m == r
  {
    var q', r' := a / m, a % m;
    assert a == q' * m + r';
    assert (q' - q) * m == r - r' by {
      assert (q' - q) * m == q' * m - q * m;
    }
    if q' > q {
      MulAtLeast(q' - q, m);
    } else if q' < q {
      MulAtLeast(q - q', m);
    }
  }

  /** Next moves one tab on and wraps from the last to "All". */
  lemma NextTabValue(t: int, n: nat)
    requires 0 <= t <= n
    ensures NextTab(t, n) == if t == n then 0 else t + 1
  {
    if t == n {
      ModUnique(n + 1, n + 1, 1, 0);
    } else {
      ModUnique(t + 1, n + 1, 0, t + 1);
    }
  }

  /** Previous moves one tab back and wraps from "All" to the last. */
  lemma PrevTabValue(t: int, n: nat)
    requires 0 <= t <= n
    ensures PrevTab(t, n) == if t == 0 then n else t - 1
  {
    if t == 0 {
      ModUnique(n, n + 1, 0, n);
    } else {
      ModUnique(t + n, n + 1, 1, t - 1);
    }
  }

  /** n + 1 presses of next visit every tab and come back. */
  lemma FullCycle(s: NavState, n: nat)
    requires InRange(s, n) && n > 0
    ensures Advance(s, n, n + 1) == s
  {
    AdvanceTabs(s, n, n + 1);
    ModUnique(s.tab + n + 1, n + 1, 1, s.tab);
  }

  /** Enter twice restores the view mode; tab moves never change it. */
  lemma ModeToggles(s: NavState, n: nat, k: string)
    requires InRange(s, n)
    ensures Step(Step(s, KeyMsg("enter"), n), KeyMsg("enter"), n) == s
    ensures Step(s, KeyMsg("enter"), n).mode != s.mode
    ensures IsNextKey(k) || IsPrevKey(k) ==> Step(s, KeyMsg(k), n).mode == s.mode
  {
  }

  /** Once quitting, always quitting; a quit key always quits. */
  lemma QuitIsFinal(s: NavState, msg: Msg, n: nat)
    ensures s.quitting ==> Step(s, msg, n).quitting
    ensures IsQuit(msg) ==> Step(s, msg, n).quitting
  {
  }

  /** Keys the dashboard does not bind, other messages, and tab moves
      without checkers, leave the state as it is. */
  lemma UnboundIsNoop(s: NavState, msg: Msg, n: nat)
    requires msg.KeyMsg? ==> !IsQuitKey(msg.key) && msg.key != "enter"
                             && (n == 0 || (!IsNextKey(msg.key) && !IsPrevKey(msg.key)))
    ensures Step(s, msg, n) == s
  {
  }

  // ---------------------------------------------------------------------
  // The text of each state

  const DashboardTitle := " Marvin Dashboard - Documentation QA Results "
  const Footer := "Tab/Shift+Tab: switch tabs | Enter: toggle view | q: quit"
  const NoResults := "  No results available\n"
  const EnterHint := "  Press Enter to view detailed issues"

  /** "All", then each checker's title-cased name. */
  function TabLabels(cs: seq<CheckerStats>): (labels: seq<string>)
    ensures |labels| == |cs| + 1 && labels[0] == "All"
    ensures forall i :: 0 <= i < |cs| ==> labels[i + 1] == Title(cs[i].name)
  {
    ["All"] + seq(|cs|, i requires 0 <= i < |cs| => Title(cs[i].name))
  }

  function TabsText(cs: seq<CheckerStats>): string {
    Join(TabLabels(cs), " ")
  }

  /** The overall lines; the info counter is labelled "info". */
  function OverallLines(totalChecks: int, s: Summary, latest: Time, now: Time): seq<string> {
    [ "Total Checks Run: " + IntToString(totalChecks),
      "Last Check: " + FormatRelativeTime(latest, now),
      "Total Files: " + IntToString(s.totalFiles),
      "Files with Issues: " + IntToString(s.filesWithIssues),
      "Total Issues: " + CountsText(s.totalIssues, s.errorCount, s.warningCount, s.infoCount, "info") ]
  }

  /** The card of one checker: its name, its last run, its issues over all
      runs, and its number of runs. */
  function CardText(c: CheckerStats, now: Time): string {
    "  " + Title(c.name) + "\n"
    + "  Last run: " + FormatRelativeTime(c.latestRun, now) + "\n"
    + "  Total issues: " + CountsText(c.totalIssues, c.errorCount, c.warningCount, c.infoCount, "info") + "\n"
    + "  Total runs: " + IntToString(c.totalRuns) + "\n"
  }

  /** The cards in order, each followed by a blank line. */
  function Cards(cs: seq<CheckerStats>, now: Time): string {
    if cs == [] then "" else Cards(cs[..|cs| - 1], now) + CardText(cs[|cs| - 1], now) + "\n"
  }

  lemma CardsSnoc(cs: seq<CheckerStats>, i: int, now: Time)
    requires 0 <= i < |cs|
    ensures Cards(cs[..i + 1], now) == Cards(cs[..i], now) + CardText(cs[i], now) + "\n"
  {
    assert cs[..i + 1][..i] == cs[..i];
  }

  function OverallHead(totalChecks: int, s: Summary, latest: Time, now: Time): string {
    "Overall Summary" + "\n" + Indented(OverallLines(totalChecks, s, latest, now))
    + "\n" + "Checkers" + "\n\n"
  }

  /** The "All" tab: totals over the newest runs, then one card per
      checker. */
  ghost function OverallText(d: DashboardData, now: Time): string {
    OverallHead(d.totalChecks, Aggregator.OverallSummary(d), Aggregator.LatestCheckTime(d), now)
    + Cards(d.checkers, now)
  }

  /** The summary lines of a checker's newest run; "info" labels the third
      counter. */
  function RunLines(r: Result, now: Time): seq<string> {
    [ "Path: " + r.path,
      "Last Run: " + FormatRelativeTime(r.timestamp, now),
      "Files Scanned: " + IntToString(r.summary.totalFiles),
      "Files with Issues: " + IntToString(r.summary.filesWithIssues),
      "Total Issues: " + CountsText(r.summary.totalIssues, r.summary.errorCount,
                                    r.summary.warningCount, r.summary.infoCount, "info") ]
  }

  /** The summary view of a checker tab: its newest run, or the notice that
      there is none. */
  function CheckerSummaryText(d: DashboardData, c: CheckerStats, now: Time): string {
    var head := Title(c.name) + " Summary" + "\n";
    match Aggregator.GetLatestResultForChecker(d, c.name)
    case None => head + NoResults
    case Some(r) => head + Indented(RunLines(r, now)) + "\n" + EnterHint + "\n"
  }

  /** The details view of a checker tab: the single-result layout of its
      newest run, or the notice that there is none. */
  function CheckerDetailsText(d: DashboardData, c: CheckerStats): string {
    match Aggregator.GetLatestResultForChecker(d, c.name)
    case None => NoResults
    case Some(r) => Viewer.ResultText(r)
  }

  /** What the selected tab shows: the overall summary on tab 0 whatever the
      mode, and on tab k the k-th checker in the chosen view. */
  ghost function Body(d: DashboardData, tab: int, mode: string, now: Time): string
    requires 0 <= tab
  {
    if tab == 0 then OverallText(d, now)
    else if tab - 1 < |d.checkers| then
      if mode == SummaryMode then CheckerSummaryText(d, d.checkers[tab - 1], now)
      else CheckerDetailsText(d, d.checkers[tab - 1])
    else ""
  }

  /** `renderContent`: the title, the tab bar, and the selected tab's
      body. */
  ghost function ContentText(d: DashboardData, tab: int, mode: string, now: Time): string
    requires 0 <= tab
  {
    DashboardTitle + "\n\n" + TabsText(d.checkers) + "\n\n" + Body(d, tab, mode, now)
  }

  /** The "All" tab does not depend on the view mode. */
  lemma AllTabIgnoresMode(d: DashboardData, m1: string, m2: string, now: Time)
    ensures ContentText(d, 0, m1, now) == ContentText(d, 0, m2, now)
  {
  }

  /** For an aggregate, a checker tab always finds a newest run: its
      details view is that run in the single-result layout, and its
      summary view never shows the no-results notice. */
  lemma AggregateTabsShowRuns(d: DashboardData, results: seq<Result>, k: int, now: Time)
    requires Aggregator.IsAggregateOf(d, results) && 1 <= k <= |d.checkers|
    ensures Body(d, k, DetailsMode, now)
            == Viewer.ResultText(d.latestResults[d.checkers[k - 1].name])
    ensures Body(d, k, SummaryMode, now)
            != Title(d.checkers[k - 1].name) + " Summary" + "\n" + NoResults
  {
    Aggregator.EveryCheckerHasLatest(d, results, k - 1);
    CheckerTabShowsRun(d, k, now);
  }

  /** Tab k > 0 shows checker k - 1 in the form the view mode picks; when
      that checker has a newest run, the details form is the run itself. */
  lemma CheckerTabShowsRun(d: DashboardData, k: int, now: Time)
    requires 1 <= k <= |d.checkers| && d.checkers[k - 1].name in d.latestResults
    ensures Body(d, k, DetailsMode, now)
            == Viewer.ResultText(d.latestResults[d.checkers[k - 1].name])
    ensures Body(d, k, SummaryMode, now)
            != Title(d.checkers[k - 1].name) + " Summary" + "\n" + NoResults
  {
    PresentRunShown(d, d.checkers[k - 1], now);
  }

  /** A checker with a newest run shows it: in the details view in the
      single-result layout, in the summary view instead of the notice. */
  lemma PresentRunShown(d: DashboardData, c: CheckerStats, now: Time)
    requires c.name in d.latestResults
    ensures CheckerDetailsText(d, c) == Viewer.ResultText(d.latestResults[c.name])
    ensures CheckerSummaryText(d, c, now) != Title(c.name) + " Summary" + "\n" + NoResults
  {
    var r := d.latestResults[c.name];
    assert Aggregator.GetLatestResultForChecker(d, c.name) == Some(r);
    RunLinesStartWithPath(r, now);
    SummaryNotNotice(Title(c.name) + " Summary" + "\n", Indented(RunLines(r, now)));
  }

  /** Lines that open with the path line are not the notice. */
  lemma SummaryNotNotice(head: string, lines: string)
    requires |lines| > 2 && lines[2] == 'P'
    ensures head + lines + "\n" + EnterHint + "\n" != head + NoResults
  {
    var shown := head + lines + "\n" + EnterHint + "\n";
    assert shown[|head| + 2] == (head + lines)[|head| + 2] == lines[2];
    assert (head + NoResults)[|head| + 2] == 'N';
  }

  /** The indented run lines open with the path line. */
  lemma RunLinesStartWithPath(r: Result, now: Time)
    ensures |Indented(RunLines(r, now))| > 2 && Indented(RunLines(r, now))[2] == 'P'
  {
    var ls := RunLines(r, now);
    assert ls[0][0] == 'P';
    IndentedHead(ls);
  }

  /** A checker without a newest run shows the notice in both views. */
  lemma MissingRunNotice(d: DashboardData, c: CheckerStats, now: Time)
    requires c.name !in d.latestResults
    ensures CheckerSummaryText(d, c, now) == Title(c.name) + " Summary" + "\n" + NoResults
    ensures CheckerDetailsText(d, c) == NoResults
  {
  }

  // ---------------------------------------------------------------------
  // The model

  /** `DashboardModel`: the aggregate, the navigation state, and the text
      rendered for the state when it last changed. */
  class DashboardModel {
    const data: DashboardData
    var selectedTab: int
    var viewMode: string
    var content: string
    var ready: bool
    var quitting: bool
    /** When `content` was last rendered. */
    ghost var renderedAt: Time

    /** The navigation state is reachable and `content` is the text of the
        current state, as of its last rendering. */
    ghost predicate Valid()
      reads this
    {
      && 0 <= selectedTab <= |data.checkers|
      && (viewMode == SummaryMode || viewMode == DetailsMode)
      && ready
      && content == ContentText(data, selectedTab, viewMode, renderedAt)
    }

    function State(): NavState
      reads this
    {
      NavState(selectedTab, viewMode, quitting)
    }

    /** `initialDashboardModel`: the "All" tab in summary mode, rendered at
        `now`. */
    constructor(data: DashboardData, now: Time)
      ensures Valid() && this.data == data
      ensures State() == NavState(0, SummaryMode, false) && renderedAt == now
    {
      this.data := data;
      selectedTab := 0;
      viewMode := SummaryMode;
      ready := true;
      quitting := false;
      renderedAt := now;
      content := "";
      new;
      Show(0, SummaryMode, now);
    }

    /** `Update`: the state moves as `Step` says; the content is rendered
        again, at `now`, exactly when the tab moved or Enter was pressed. */
    method Update(msg: Msg, now: Time) returns (cmd: Cmd)
      requires Valid()
      modifies this
      ensures Valid()
      ensures State() == Step(old(State()), msg, |data.checkers|)
      ensures cmd == if IsQuit(msg) then QuitCmd else NoCmd
      ensures Rerenders(msg, |data.checkers|) ==> renderedAt == now
      ensures !Rerenders(msg, |data.checkers|) ==> content == old(content) && renderedAt == old(renderedAt)
    {
      var n := |data.checkers|;
      match msg
      case OtherMsg =>
        return NoCmd;
      case KeyMsg(k) =>
        if IsQuitKey(k) {
          quitting := true;
          return QuitCmd;
        } else if IsNextKey(k) {
          if n > 0 {
            Show(NextTab(selectedTab, n), viewMode, now);
          }
        } else if IsPrevKey(k) {
          if n > 0 {
            Show(PrevTab(selectedTab, n), viewMode, now);
          }
        } else if k == "enter" {
          Show(selectedTab, Toggle(viewMode), now);
        }
        return NoCmd;
    }

    /** Selects `tab` in `mode` and renders the content again at `now`. */
    method Show(tab: int, mode: string, now: Time)
      requires 0 <= tab <= |data.checkers| && (mode == SummaryMode || mode == DetailsMode)
      requires ready
      modifies this
      ensures selectedTab == tab && viewMode == mode && renderedAt == now
      ensures quitting == old(quitting) && Valid()
    {
      selectedTab := tab;
      viewMode := mode;
      renderedAt := now;
      content := RenderContent(now);
    }

    /** `View`: empty once quitting, the content and the key help
        otherwise. */
    function View(): (v: string)
      reads this
      ensures v == "" <==> quitting
      ensures !quitting && ready ==> content <= v
    {
      if quitting then ""
      else if !ready then "Loading..."
      else content + "\n" + Footer
    }

    /** `renderContent`. */
    method RenderContent(now: Time) returns (s: string)
      requires 0 <= selectedTab
      ensures s == ContentText(data, selectedTab, viewMode, now)
    {
      var b := DashboardTitle + "\n\n";
      var tabs := RenderTabs();
      b := b + tabs + "\n\n";
      var body := "";
      if selectedTab == 0 {
        body := RenderOverallSummary(now);
      } else {
        var checkerIndex := selectedTab - 1;
        if checkerIndex < |data.checkers| {
          var checker := data.checkers[checkerIndex];
          if viewMode == SummaryMode {
            body := RenderCheckerSummary(checker, now);
          } else {
            body := RenderCheckerDetails(checker);
          }
        }
      }
      s := b + body;
    }

    /** `renderTabs`: the tab labels joined by single spaces. */
    method RenderTabs() returns (s: string)
      ensures s == TabsText(data.checkers)
    {
      var tabs := ["All"];
      for i := 0 to |data.checkers|
        invariant tabs == TabLabels(data.checkers[..i])
      {
        assert data.checkers[..i + 1][..i] == data.checkers[..i];
        tabs := tabs + [Title(data.checkers[i].name)];
      }
      assert data.checkers[..|data.checkers|] == data.checkers;
      s := Join(tabs, " ");
    }

    /** `renderOverallSummary`. */
    method RenderOverallSummary(now: Time) returns (s: string)
      ensures s == OverallText(data, now)
    {
      var overall := Aggregator.GetOverallSummary(data);
      var latest := Aggregator.GetLatestCheckTime(data);
      var counts := BuildCounts(overall.totalIssues, overall.errorCount,
                                overall.warningCount, overall.infoCount, "info");
      var lines := [
        "Total Checks Run: " + IntToString(data.totalChecks),
        "Last Check: " + FormatRelativeTime(latest, now),
        "Total Files: " + IntToString(overall.totalFiles),
        "Files with Issues: " + IntToString(overall.filesWithIssues),
        "Total Issues: " + counts ];
      var b := WriteIndented("Overall Summary" + "\n", lines);
      b := b + "\n" + "Checkers" + "\n\n";
      assert b == OverallHead(data.totalChecks, overall, latest, now);
      s := WriteCards(b, now);
    }

    /** Appends one card per checker, each followed by a blank line. */
    method WriteCards(b: string, now: Time) returns (out: string)
      ensures out == b + Cards(data.checkers, now)
    {
      out := b;
      for i := 0 to |data.checkers|
        invariant out == b + Cards(data.checkers[..i], now)
      {
        var card := RenderCheckerCard(data.checkers[i], now);
        CardsSnoc(data.checkers, i, now);
        ghost var before := Cards(data.checkers[..i], now);
        AppendAssoc(b, before, card);
        AppendAssoc(b, before + card, "\n");
        out := out + card + "\n";
      }
      assert data.checkers[..|data.checkers|] == data.checkers;
    }

    /** `renderCheckerCard`. */
    method RenderCheckerCard(c: CheckerStats, now: Time) returns (s: string)
      ensures s == CardText(c, now)
    {
      var counts := BuildCounts(c.totalIssues, c.errorCount, c.warningCount, c.infoCount, "info");
      s := "  " + Title(c.name) + "\n";
      s := s + "  Last run: " + FormatRelativeTime(c.latestRun, now) + "\n";
      s := s + "  Total issues: " + counts + "\n";
      s := s + "  Total runs: " + IntToString(c.totalRuns) + "\n";
    }

    /** `renderCheckerSummary`. */
    method RenderCheckerSummary(c: CheckerStats, now: Time) returns (s: string)
      ensures s == CheckerSummaryText(data, c, now)
    {
      var head := Title(c.name) + " Summary" + "\n";
      var result := Aggregator.GetLatestResultForChecker(data, c.name);
      if result.None? {
        return head + NoResults;
      }
      var r := result.value;
      var counts := BuildCounts(r.summary.totalIssues, r.summary.errorCount,
                                r.summary.warningCount, r.summary.infoCount, "info");
      var lines := [
        "Path: " + r.path,
        "Last Run: " + FormatRelativeTime(r.timestamp, now),
        "Files Scanned: " + IntToString(r.summary.totalFiles),
        "Files with Issues: " + IntToString(r.summary.filesWithIssues),
        "Total Issues: " + counts ];
      s := WriteIndented(head, lines);
      s := s + "\n" + EnterHint + "\n";
    }

    /** `renderCheckerDetails`. */
    method RenderCheckerDetails(c: CheckerStats) returns (s: string)
      ensures s == CheckerDetailsText(data, c)
    {
      var result := Aggregator.GetLatestResultForChecker(data, c.name);
      if result.None? {
        return NoResults;
      }
      s := Viewer.FormatResults(result.value);
    }
  }
}
