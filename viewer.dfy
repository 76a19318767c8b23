/** The single-result terminal view: `formatResults`, which lays out one
    Result as text, and the model that shows it until a quit key. Every
    lipgloss style renders its text unchanged here. */
module Viewer {
  import opened Models
  import opened Text
  import opened Report
  import opened Tea

  /** "file:line:column". */
  function Location(x: Issue): string {
    x.file + ":" + IntToString(x.line) + ":" + IntToString(x.column)
  }

  function LocationLine(x: Issue): string {
    "  " + Location(x) + "\n"
  }

  function SeverityLine(x: Issue): string {
    "  [" + x.severity + "] " + x.rule + "\n"
  }

  function MessageLine(x: Issue): string {
    "  " + x.message + "\n"
  }

  /** The context line, present only when the issue has a context. */
  function ContextLine(x: Issue): string {
    if x.context != "" then "  Context: " + x.context + "\n" else ""
  }

  /** The lines of one issue: location, "[severity] rule", message, and
      the optional context. */
  function IssueBlock(x: Issue): string {
    LocationLine(x) + SeverityLine(x) + MessageLine(x) + ContextLine(x)
  }

  /** The block of each issue, in order. */
  function Blocks(issues: seq<Issue>): (bs: seq<string>)
    ensures |bs| == |issues| && forall i :: 0 <= i < |issues| ==> bs[i] == IssueBlock(issues[i])
  {
    seq(|issues|, i requires 0 <= i < |issues| => IssueBlock(issues[i]))
  }

  /** The issue blocks in order, with a newline (a blank line on screen)
      between consecutive blocks and none before the first. */
  function IssueList(issues: seq<Issue>): string {
    Join(Blocks(issues), "\n")
  }

  /** The four summary lines; the info counter is labelled "suggestions". */
  function SummaryLines(r: Result): seq<string> {
    [ "Path: " + r.path,
      "Files Scanned: " + IntToString(r.summary.totalFiles),
      "Files with Issues: " + IntToString(r.summary.filesWithIssues),
      "Total Issues: " + CountsText(r.summary.totalIssues, r.summary.errorCount,
                                    r.summary.warningCount, r.summary.infoCount, "suggestions") ]
  }

  const NoIssuesLine := "  ✓ No issues found!\n"

  /** The whole text `formatResults` produces for `r`. */
  function ResultText(r: Result): string {
    " Marvin - " + Title(r.checker) + " Results " + "\n\n"
    + "Summary" + "\n" + Indented(SummaryLines(r))
    + "\n" + "Issues" + "\n"
    + (if |r.issues| == 0 then NoIssuesLine else IssueList(r.issues))
  }

  /** `formatResults`: writes the title, the summary lines, and then either
      the no-issues line or every issue, a blank line before each one but
      the first. */
  method FormatResults(r: Result) returns (text: string)
    ensures text == ResultText(r)
  {
    var b := " Marvin - " + Title(r.checker) + " Results " + "\n\n";
    b := b + "Summary" + "\n";
    var counts := BuildCounts(r.summary.totalIssues, r.summary.errorCount,
                              r.summary.warningCount, r.summary.infoCount, "suggestions");
    var lines := [
      "Path: " + r.path,
      "Files Scanned: " + IntToString(r.summary.totalFiles),
      "Files with Issues: " + IntToString(r.summary.filesWithIssues),
      "Total Issues: " + counts ];
    b := WriteIndented(b, lines);
    b := b + "\n" + "Issues" + "\n";
    if |r.issues| == 0 {
      b := b + NoIssuesLine;
    } else {
      b := WriteIssues(b, r.issues);
    }
    text := b;
  }

  /** Appends the issues in order, a newline before each one but the
      first. */
  method WriteIssues(b: string, issues: seq<Issue>) returns (out: string)
    ensures out == b + IssueList(issues)
  {
    ghost var blocks := Blocks(issues);
    out := b;
    for i := 0 to |issues|
      invariant out == b + Join(blocks[..i], "\n")
    {
      ghost var before := Join(blocks[..i], "\n");
      JoinPrefix(blocks, i, "\n");
      if i > 0 {
        out := out + "\n";
        AppendAssoc(b, before, "\n");
        AppendAssoc(b, before + "\n", blocks[i]);
      } else {
        assert before == "";
        assert out == b;
      }
      out := WriteIssue(out, issues[i]);
    }
    assert blocks[..|issues|] == blocks;
  }

  /** Appends the lines of one issue. */
  method WriteIssue(b: string, x: Issue) returns (out: string)
    ensures out == b + IssueBlock(x)
  {
    out := b + LocationLine(x);
    out := out + SeverityLine(x);
    out := out + MessageLine(x);
    if x.context != "" {
      out := out + ContextLine(x);
    }
  }

  /** The issue list of two non-empty runs of issues is the list of each,
      separated by one blank line. */
  lemma IssueListConcat(a: seq<Issue>, b: seq<Issue>)
    requires a != [] && b != []
    ensures IssueList(a + b) == IssueList(a) + "\n" + IssueList(b)
  {
    assert Blocks(a + b) == Blocks(a) + Blocks(b);
    JoinConcat(Blocks(a), Blocks(b), "\n");
  }

  /** No newline inside any text field of the issue. */
  predicate SingleLineFields(x: Issue) {
    && CountChar(x.file, '\n') == 0 && CountChar(x.severity, '\n') == 0
    && CountChar(x.rule, '\n') == 0 && CountChar(x.message, '\n') == 0
    && CountChar(x.context, '\n') == 0
  }

  /** How many lines an issue takes: three, and a fourth for its context. */
  function BlockLines(x: Issue): nat {
    if x.context != "" then 4 else 3
  }

  function TotalLines(issues: seq<Issue>): nat {
    if issues == [] then 0 else TotalLines(issues[..|issues| - 1]) + BlockLines(issues[|issues| - 1])
  }

  lemma IssueBlockLines(x: Issue)
    requires SingleLineFields(x)
    ensures CountChar(IssueBlock(x), '\n') == BlockLines(x)
  {
    IntToStringChars(x.line, '\n');
    IntToStringChars(x.column, '\n');
    CountCharConcat(x.file + ":", IntToString(x.line), '\n');
    CountCharConcat(x.file, ":", '\n');
    CountCharConcat(x.file + ":" + IntToString(x.line), ":", '\n');
    CountCharConcat(x.file + ":" + IntToString(x.line) + ":", IntToString(x.column), '\n');
    var loc := "  " + Location(x) + "\n";
    CountCharConcat("  ", Location(x), '\n');
    CountCharConcat("  " + Location(x), "\n", '\n');
    var sev := "  [" + x.severity + "] " + x.rule + "\n";
    NoCharCount("  [", '\n');
    NoCharCount("] ", '\n');
    CountCharConcat("  [", x.severity, '\n');
    CountCharConcat("  [" + x.severity, "] ", '\n');
    CountCharConcat("  [" + x.severity + "] ", x.rule, '\n');
    CountCharConcat("  [" + x.severity + "] " + x.rule, "\n", '\n');
    var msg := "  " + x.message + "\n";
    CountCharConcat("  ", x.message, '\n');
    CountCharConcat("  " + x.message, "\n", '\n');
    CountCharConcat(loc, sev, '\n');
    CountCharConcat(loc + sev, msg, '\n');
    CountCharConcat(loc + sev + msg, ContextLine(x), '\n');
    if x.context != "" {
      NoCharCount("  Context: ", '\n');
      CountCharConcat("  Context: ", x.context, '\n');
      CountCharConcat("  Context: " + x.context, "\n", '\n');
    }
  }

  /** The blocks of issues with single-line fields hold their lines. */
  lemma {:induction false} BlocksLines(issues: seq<Issue>)
    requires forall i :: 0 <= i < |issues| ==> SingleLineFields(issues[i])
    ensures SumCount(Blocks(issues), '\n') == TotalLines(issues)
  {
    if issues != [] {
      var n := |issues| - 1;
      var prefix := issues[..n];
      var last := issues[n];
      assert forall i :: 0 <= i < |prefix| ==> prefix[i] == issues[i];
      BlocksLines(prefix);
      IssueBlockLines(last);
      var bs := Blocks(issues);
      assert bs[..n] == Blocks(prefix);
      assert bs[n] == IssueBlock(last);
      assert SumCount(bs, '\n') == SumCount(bs[..n], '\n') + CountChar(bs[n], '\n');
      assert TotalLines(issues) == TotalLines(prefix) + BlockLines(last);
    }
  }

  /** The issue list of n issues spans the lines of their blocks and n - 1
      blank separator lines: no issue is dropped or merged with another. */
  lemma IssueListLines(issues: seq<Issue>)
    requires issues != []
    requires forall i :: 0 <= i < |issues| ==> SingleLineFields(issues[i])
    ensures CountChar(IssueList(issues), '\n') == TotalLines(issues) + |issues| - 1
  {
    BlocksLines(issues);
    JoinCount(Blocks(issues), '\n');
  }

  /** The single-result view: the rendered text, computed once, until a
      quit key is pressed. */
  class Model {
    const result: Result
    var content: string
    var ready: bool
    var quitting: bool

    /** `initialModel`. */
    constructor(result: Result)
      ensures this.result == result && content == ResultText(result)
      ensures ready && !quitting
    {
      var text := FormatResults(result);
      this.result := result;
      content := text;
      ready := true;
      quitting := false;
    }

    /** `Update`: a quit key sets `quitting` and asks the loop to quit; every
        other key and message leaves the model as it is. */
    method Update(msg: Msg) returns (cmd: Cmd)
      modifies this
      ensures IsQuit(msg) ==> quitting && cmd == QuitCmd
      ensures !IsQuit(msg) ==> quitting == old(quitting) && cmd == NoCmd
      ensures content == old(content) && ready == old(ready)
    {
      match msg
      case KeyMsg(k) =>
        if IsQuitKey(k) {
          quitting := true;
          return QuitCmd;
        }
        return NoCmd;
      case OtherMsg =>
        return NoCmd;
    }

    /** `View`: empty once quitting, the content with the quit hint
        otherwise. */
    function View(): (v: string)
      reads this
      ensures v == "" <==> quitting
      ensures !quitting && ready ==> content <= v
    {
      if quitting then ""
      else if !ready then "Loading..."
      else content + "\n" + "Press q to quit"
    }
  }
}
