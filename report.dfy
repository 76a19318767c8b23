/** Text pieces the result renderers share: the issue-count breakdown
    ("3 (1 errors, 2 warnings)") and blocks of indented lines. */
module Report {
  import opened Text

  /** The breakdown parts: one per positive counter, in the order errors,
      warnings, then the third counter under `infoLabel` ("info" on the
      dashboard, "suggestions" in the result viewer and the formatter). */
  function CountParts(errors: int, warnings: int, infos: int, infoLabel: string): (parts: seq<string>)
    ensures |parts| == (if errors > 0 then 1 else 0) + (if warnings > 0 then 1 else 0)
                       + (if infos > 0 then 1 else 0)
    ensures parts == [] <==> (errors <= 0 && warnings <= 0 && infos <= 0)
    ensures errors > 0 ==> parts[0] == IntToString(errors) + " errors"
    ensures warnings > 0 ==> parts[if errors > 0 then 1 else 0] == IntToString(warnings) + " warnings"
    ensures infos > 0 ==> parts[|parts| - 1] == IntToString(infos) + " " + infoLabel
  {
    (if errors > 0 then [IntToString(errors) + " errors"] else [])
    + (if warnings > 0 then [IntToString(warnings) + " warnings"] else [])
    + (if infos > 0 then [IntToString(infos) + " " + infoLabel] else [])
  }

  /** The total, followed by the parenthesised breakdown when some counter
      is positive. */
  function CountsText(total: int, errors: int, warnings: int, infos: int, infoLabel: string): (s: string)
    ensures IntToString(total) <= s
    ensures s == IntToString(total) <==> (errors <= 0 && warnings <= 0 && infos <= 0)
  {
    var parts := CountParts(errors, warnings, infos, infoLabel);
    var digits := IntToString(total);
    if parts == [] then digits
    else
      var s := digits + " (" + Join(parts, ", ") + ")";
      assert |s| > |digits|;
      s
  }

  /** Builds the breakdown by appending the positive counters in turn. */
  method BuildCounts(total: int, errors: int, warnings: int, infos: int, infoLabel: string) returns (s: string)
    ensures s == CountsText(total, errors, warnings, infos, infoLabel)
  {
    var parts: seq<string> := [];
    if errors > 0 {
      parts := parts + [IntToString(errors) + " errors"];
    }
    if warnings > 0 {
      parts := parts + [IntToString(warnings) + " warnings"];
    }
    if infos > 0 {
      parts := parts + [IntToString(infos) + " " + infoLabel];
    }
    assert parts == CountParts(errors, warnings, infos, infoLabel);
    s := IntToString(total);
    if |parts| > 0 {
      s := s + " (" + Join(parts, ", ") + ")";
    }
  }

  /** Each line indented by two spaces and ended by a newline. */
  function Indented(lines: seq<string>): string {
    if lines == [] then ""
    else Indented(lines[..|lines| - 1]) + "  " + lines[|lines| - 1] + "\n"
  }

  /** Indenting a list in two halves is indenting each half. */
  lemma {:induction false} IndentedConcat(a: seq<string>, b: seq<string>)
    ensures Indented(a + b) == Indented(a) + Indented(b)
    decreases |b|
  {
    if b == [] {
      assert a + b == a;
    } else {
      var b', x := b[..|b| - 1], b[|b| - 1];
      assert a + b == (a + b') + [x];
      assert (a + b)[..|a + b| - 1] == a + b';
      IndentedConcat(a, b');
    }
  }

  /** The indented text opens with two spaces and then the first line. */
  lemma IndentedHead(lines: seq<string>)
    requires lines != [] && lines[0] != []
    ensures |Indented(lines)| > 2 && Indented(lines)[2] == lines[0][0]
  {
    IndentedConcat([lines[0]], lines[1..]);
    assert [lines[0]] + lines[1..] == lines;
    assert Indented([lines[0]]) == "  " + lines[0] + "\n";
  }

  /** Appends the indented lines to `b`, one line at a time. */
  method WriteIndented(b: string, lines: seq<string>) returns (out: string)
    ensures out == b + Indented(lines)
  {
    out := b;
    for i := 0 to |lines|
      invariant out == b + Indented(lines[..i])
    {
      assert lines[..i + 1][..i] == lines[..i];
      out := out + "  " + lines[i] + "\n";
    }
    assert lines[..|lines|] == lines;
  }
}
