/** The plain-text formatter: `PlainTextFormatter.Format` writes one Result
    to a writer as a fixed sequence of sections. */
module Formatter {
  import opened Models
  import opened Text
  import opened Report

  /** A writer that keeps what has been written to it. Write errors are
      ignored by the formatter, so none is modelled. */
  class Writer {
    var written: string

    constructor()
      ensures written == ""
    {
      written := "";
    }

    method Write(s: string)
      modifies this
      ensures written == old(written) + s
    {
      written := written + s;
    }
  }

  const HeavyRule := "═══════════════════════════════════════════════════════════\n\n"
  const LightRule := "───────────────────────────────────────────────────────────\n\n"
  const NoIssues := "No issues found! ✓\n\n"

  function Header(r: Result): string {
    "Marvin - " + r.checker + " Results\n" + HeavyRule
  }

  /** The parenthesised breakdown, written only when some severity count is
      positive: the positive counts, errors, warnings, suggestions, with
      ", " between them. */
  function Breakdown(s: Summary): string {
    if s.errorCount > 0 || s.warningCount > 0 || s.infoCount > 0 then
      " (" + Join(CountParts(s.errorCount, s.warningCount, s.infoCount, "suggestions"), ", ") + ")"
    else ""
  }

  function PathLine(r: Result): string {
    "  Path: " + r.path + "\n"
  }

  function ScannedLine(s: Summary): string {
    "  Files Scanned: " + IntToString(s.totalFiles) + "\n"
  }

  function WithIssuesLine(s: Summary): string {
    "  Files with Issues: " + IntToString(s.filesWithIssues) + "\n"
  }

  function TotalIssues(s: Summary): string {
    "  Total Issues: " + IntToString(s.totalIssues)
  }

  /** The summary section, in the order path, files scanned, files with
      issues, total issues. */
  function SummaryText(r: Result): string {
    "Summary:\n" + PathLine(r) + ScannedLine(r.summary) + WithIssuesLine(r.summary)
    + TotalIssues(r.summary) + Breakdown(r.summary) + "\n\n"
  }

  function LocationLine(x: Issue): string {
    x.file + ":" + IntToString(x.line) + ":" + IntToString(x.column) + "\n"
  }

  function SeverityLine(x: Issue): string {
    "[" + x.severity + "] " + x.rule + "\n"
  }

  function ContextLine(x: Issue): string {
    if x.context != "" then "Context: " + x.context + "\n" else ""
  }

  /** One issue: location, "[severity] rule", message, the context line
      when there is a context, and a blank line. */
  function Block(x: Issue): string {
    LocationLine(x) + SeverityLine(x) + x.message + "\n" + ContextLine(x) + "\n"
  }

  /** The blocks of the issues, in input order. */
  function Blocks(issues: seq<Issue>): string {
    if issues == [] then "" else Blocks(issues[..|issues| - 1]) + Block(issues[|issues| - 1])
  }

  function IssuesSection(r: Result): string {
    if |r.issues| > 0 then "Issues:\n" + LightRule + Blocks(r.issues) else NoIssues
  }

  /** Everything `Format` writes for `r`. */
  function PlainText(r: Result): string {
    Header(r) + SummaryText(r) + IssuesSection(r)
  }

  /** `Format`: writes the header, the summary and the issues section, and
      reports no error. */
  method Format(r: Result, w: Writer) returns (err: Option<string>)
    modifies w
    ensures w.written == old(w.written) + PlainText(r)
    ensures err == None
  {
    ghost var start := w.written;
    w.Write("Marvin - " + r.checker + " Results\n");
    w.Write(HeavyRule);
    assert w.written == start + Header(r);
    WriteSummary(r, w);
    AppendAssoc(start, Header(r), SummaryText(r));
    WriteIssues(r, w);
    AppendAssoc(start, Header(r) + SummaryText(r), IssuesSection(r));
    return None;
  }

  method WriteSummary(r: Result, w: Writer)
    modifies w
    ensures w.written == old(w.written) + SummaryText(r)
  {
    ghost var start := w.written;
    var s := r.summary;
    w.Write("Summary:\n");
    w.Write(PathLine(r));
    AppendAssoc(start, "Summary:\n", PathLine(r));
    ghost var t := "Summary:\n" + PathLine(r);
    w.Write(ScannedLine(s));
    AppendAssoc(start, t, ScannedLine(s));
    t := t + ScannedLine(s);
    w.Write(WithIssuesLine(s));
    AppendAssoc(start, t, WithIssuesLine(s));
    t := t + WithIssuesLine(s);
    w.Write(TotalIssues(s));
    AppendAssoc(start, t, TotalIssues(s));
    t := t + TotalIssues(s);
    ghost var lines := w.written;
    if s.errorCount > 0 || s.warningCount > 0 || s.infoCount > 0 {
      w.Write(" (");
      var parts: seq<string> := [];
      if s.errorCount > 0 {
        parts := parts + [IntToString(s.errorCount) + " errors"];
      }
      if s.warningCount > 0 {
        parts := parts + [IntToString(s.warningCount) + " warnings"];
      }
      if s.infoCount > 0 {
        parts := parts + [IntToString(s.infoCount) + " " + "suggestions"];
      }
      assert parts == CountParts(s.errorCount, s.warningCount, s.infoCount, "suggestions");
      WriteSeparated(parts, w);
      w.Write(")");
      AppendAssoc(lines, " (", Join(parts, ", "));
      AppendAssoc(lines, " (" + Join(parts, ", "), ")");
    }
    assert w.written == lines + Breakdown(s);
    AppendAssoc(start, t, Breakdown(s));
    t := t + Breakdown(s);
    w.Write("\n\n");
    AppendAssoc(start, t, "\n\n");
  }

  /** Writes the parts with ", " between neighbours. */
  method WriteSeparated(parts: seq<string>, w: Writer)
    modifies w
    ensures w.written == old(w.written) + Join(parts, ", ")
  {
    ghost var start := w.written;
    for i := 0 to |parts|
      invariant w.written == start + Join(parts[..i], ", ")
    {
      ghost var before := Join(parts[..i], ", ");
      JoinPrefix(parts, i, ", ");
      if i > 0 {
        w.Write(", ");
        AppendAssoc(start, before, ", ");
        AppendAssoc(start, before + ", ", parts[i]);
      } else {
        assert parts[..0] == [];
      }
      w.Write(parts[i]);
    }
    assert parts[..|parts|] == parts;
  }

  method WriteIssues(r: Result, w: Writer)
    modifies w
    ensures w.written == old(w.written) + IssuesSection(r)
  {
    ghost var start := w.written;
    if |r.issues| > 0 {
      w.Write("Issues:\n");
      w.Write(LightRule);
      AppendAssoc(start, "Issues:\n", LightRule);
      WriteBlocks(r.issues, w);
      AppendAssoc(start, "Issues:\n" + LightRule, Blocks(r.issues));
    } else {
      w.Write(NoIssues);
    }
  }

  /** Writes the issues in input order. */
  method WriteBlocks(issues: seq<Issue>, w: Writer)
    modifies w
    ensures w.written == old(w.written) + Blocks(issues)
  {
    ghost var start := w.written;
    for i := 0 to |issues|
      invariant w.written == start + Blocks(issues[..i])
    {
      BlocksSnoc(issues, i);
      WriteBlock(issues[i], w);
      AppendAssoc(start, Blocks(issues[..i]), Block(issues[i]));
    }
    assert issues[..|issues|] == issues;
  }

  method WriteBlock(x: Issue, w: Writer)
    modifies w
    ensures w.written == old(w.written) + Block(x)
  {
    w.Write(LocationLine(x));
    w.Write(SeverityLine(x));
    w.Write(x.message + "\n");
    if x.context != "" {
      w.Write(ContextLine(x));
    }
    w.Write("\n");
  }

  lemma BlocksSnoc(issues: seq<Issue>, i: nat)
    requires i < |issues|
    ensures Blocks(issues[..i + 1]) == Blocks(issues[..i]) + Block(issues[i])
  {
    assert issues[..i + 1][..i] == issues[..i];
  }

  /** The blocks of two runs of issues are the blocks of each, one after
      the other. */
  lemma {:induction false} BlocksConcat(a: seq<Issue>, b: seq<Issue>)
    ensures Blocks(a + b) == Blocks(a) + Blocks(b)
    decreases |b|
  {
    if b == [] {
      assert a + b == a;
    } else {
      var b' := b[..|b| - 1];
      assert (a + b)[..|a + b| - 1] == a + b';
      BlocksConcat(a, b');
      AppendAssoc(Blocks(a), Blocks(b'), Block(b[|b| - 1]));
    }
  }

  /** The formatter's "Total Issues" value is the breakdown the result
      viewer shows, with the same "suggestions" label. */
  lemma TotalIssuesAgree(s: Summary)
    ensures IntToString(s.totalIssues) + Breakdown(s)
            == CountsText(s.totalIssues, s.errorCount, s.warningCount, s.infoCount, "suggestions")
  {
  }

  /** The "Issues:" section is written exactly when there are issues; the
      no-issues line otherwise. */
  lemma IssuesHeaderIff(r: Result)
    ensures |r.issues| > 0 <==> IssuesSection(r) == "Issues:\n" + LightRule + Blocks(r.issues)
    ensures |r.issues| == 0 <==> IssuesSection(r) == NoIssues
  {
    if |r.issues| == 0 {
      assert IssuesSection(r)[0] == 'N';
    } else {
      assert IssuesSection(r)[0] == 'I';
    }
  }
}
