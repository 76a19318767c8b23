/** The web front end's helpers: relative times, the pass rate, grouping
    issues by file, and the severity colour classes. Numbers are integers
    here (every input is a count or a millisecond timestamp); floating-point
    rounding is not modelled. */
module WebUtils {
  import opened Models
  import opened Text
  import opened Grouping

  /** `Math.floor(a / b)` for integers, b != 0. Dafny's division rounds
      down for a positive divisor; a negative divisor is turned round. */
  function FloorDiv(a: int, b: int): int
    requires b != 0
  {
    if b > 0 then a / b else (-a) / (-b)
  }

  /** The floor of a / b is the q with q * b <= a < (q + 1) * b, for b > 0. */
  lemma FloorDivBounds(a: int, b: int)
    requires b > 0
    ensures FloorDiv(a, b) * b <= a < (FloorDiv(a, b) + 1) * b
  {
    var q := a / b;
    assert a == q * b + a % b;
    assert (q + 1) * b == q * b + b;
  }

  // ---------------------------------------------------------------------
  // formatRelativeTime

  const MsPerMinute := 60_000
  const MsPerHour := 3_600_000
  const MsPerDay := 86_400_000

  /** What `formatRelativeTime` returns: a phrase, or the absolute date
      `formatDate` would print (the date formatting is not modelled). */
  datatype RelativeText = Phrase(text: string) | FormattedDate

  /** "<n> <unit> ago", with a plural "s" only when n > 1. */
  function Ago(n: int, unit: string): string {
    IntToString(n) + " " + unit + (if n > 1 then "s" else "") + " ago"
  }

  /** `formatRelativeTime`, with the date and the current time as
      milliseconds since the epoch. Seconds, minutes, hours and days are
      each the floor of the previous unit; anything under a minute, future
      dates included, is "just now", and a week or more falls through to
      the formatted date. */
  function RelativeTime(dateMs: int, nowMs: int): RelativeText {
    var seconds := FloorDiv(nowMs - dateMs, 1000);
    if seconds < 60 then Phrase("just now")
    else
      var minutes := FloorDiv(seconds, 60);
      if minutes < 60 then Phrase(Ago(minutes, "minute"))
      else
        var hours := FloorDiv(minutes, 60);
        if hours < 24 then Phrase(Ago(hours, "hour"))
        else
          var days := FloorDiv(hours, 24);
          if days < 7 then Phrase(Ago(days, "day"))
          else FormattedDate
  }

  /** The chained floors are the floors of the whole elapsed time. */
  lemma ChainedFloors(x: int)
    ensures FloorDiv(FloorDiv(x, 1000), 60) == x / MsPerMinute
    ensures FloorDiv(FloorDiv(FloorDiv(x, 1000), 60), 60) == x / MsPerHour
    ensures FloorDiv(FloorDiv(FloorDiv(FloorDiv(x, 1000), 60), 60), 24) == x / MsPerDay
  {
  }

  /** "just now" exactly when less than a minute has passed, future dates
      included. */
  lemma JustNowIff(dateMs: int, nowMs: int)
    ensures RelativeTime(dateMs, nowMs) == Phrase("just now") <==> nowMs - dateMs < MsPerMinute
  {
    var x := nowMs - dateMs;
    if x >= MsPerMinute {
      ChainedFloors(x);
      var r := RelativeTime(dateMs, nowMs);
      if r.Phrase? {
        var n := if x < MsPerHour then x / MsPerMinute else if x < MsPerDay then x / MsPerHour else x / MsPerDay;
        assert n >= 1;
        NatToStringDigits(n);
        assert IntToString(n) == NatToString(n);
        assert r.text[0] == NatToString(n)[0];
      }
    }
  }

  /** The formatted date exactly when a week or more has passed. */
  lemma FormattedDateIff(dateMs: int, nowMs: int)
    ensures RelativeTime(dateMs, nowMs) == FormattedDate <==> nowMs - dateMs >= 7 * MsPerDay
  {
    ChainedFloors(nowMs - dateMs);
  }

  /** Exactly k whole minutes, 1 <= k < 60, read "k minute(s) ago". */
  lemma MinutesAgo(dateMs: int, nowMs: int, k: int)
    requires 1 <= k < 60 && k * MsPerMinute <= nowMs - dateMs < (k + 1) * MsPerMinute
    ensures RelativeTime(dateMs, nowMs) == Phrase(Ago(k, "minute"))
  {
    ChainedFloors(nowMs - dateMs);
    assert (nowMs - dateMs) / MsPerMinute == k;
  }

  /** Exactly k whole hours, 1 <= k < 24, read "k hour(s) ago". */
  lemma HoursAgo(dateMs: int, nowMs: int, k: int)
    requires 1 <= k < 24 && k * MsPerHour <= nowMs - dateMs < (k + 1) * MsPerHour
    ensures RelativeTime(dateMs, nowMs) == Phrase(Ago(k, "hour"))
  {
    ChainedFloors(nowMs - dateMs);
    assert (nowMs - dateMs) / MsPerHour == k;
  }

  /** Exactly k whole days, 1 <= k < 7, read "k day(s) ago". */
  lemma DaysAgo(dateMs: int, nowMs: int, k: int)
    requires 1 <= k < 7 && k * MsPerDay <= nowMs - dateMs < (k + 1) * MsPerDay
    ensures RelativeTime(dateMs, nowMs) == Phrase(Ago(k, "day"))
  {
    ChainedFloors(nowMs - dateMs);
    assert (nowMs - dateMs) / MsPerDay == k;
  }

  // ---------------------------------------------------------------------
  // calculatePassRate

  /** `calculatePassRate`: 100 without files; otherwise the share of files
      without issues, as a percentage rounded to the nearest integer, halves
      rounded up (`Math.round(x)` is the floor of x + 1/2, which for
      x = 100 (t - f) / t is the floor of (200 (t - f) + t) / 2t). */
  function CalculatePassRate(totalFiles: int, filesWithIssues: int): (rate: int)
    ensures totalFiles == 0 ==> rate == 100
    ensures totalFiles > 0 ==>
              (2 * rate - 1) * totalFiles <= 200 * (totalFiles - filesWithIssues) < (2 * rate + 1) * totalFiles
  {
    if totalFiles == 0 then 100
    else
      var rate := FloorDiv(200 * (totalFiles - filesWithIssues) + totalFiles, 2 * totalFiles);
      (if totalFiles > 0 then FloorDivBounds(200 * (totalFiles - filesWithIssues) + totalFiles, 2 * totalFiles); rate
       else rate)
  }

  /** With 0 <= filesWithIssues <= totalFiles the rate is a percentage: 100
      without issues, 0 when every file has some. */
  lemma PassRateRange(totalFiles: int, filesWithIssues: int)
    requires 0 <= filesWithIssues <= totalFiles
    ensures 0 <= CalculatePassRate(totalFiles, filesWithIssues) <= 100
    ensures filesWithIssues == 0 ==> CalculatePassRate(totalFiles, filesWithIssues) == 100
    ensures totalFiles > 0 && filesWithIssues == totalFiles ==> CalculatePassRate(totalFiles, filesWithIssues) == 0
  {
    if totalFiles > 0 {
      var t, rate := totalFiles, CalculatePassRate(totalFiles, filesWithIssues);
      var good := t - filesWithIssues;
      MulLtInv(0, 2 * rate + 1, t);
      MulLeInv(2 * rate - 1, 200, t);
      if filesWithIssues == 0 {
        MulLtInv(200, 2 * rate + 1, t);
      }
      if good == 0 {
        MulLeInv(2 * rate - 1, 0, t);
      }
    }
  }

  lemma MulLeInv(x: int, y: int, t: int)
    requires t > 0 && x * t <= y * t
    ensures x <= y
  {
  }

  lemma MulLtInv(x: int, y: int, t: int)
    requires t > 0 && x * t < y * t
    ensures x < y
  {
  }

  // ---------------------------------------------------------------------
  // Severity colours

  /** `getSeverityColor`: a class list for each severity and a muted grey
      one for anything else. */
  function SeverityColor(severity: string): string {
    if severity == "error" then "text-error-600 bg-error-50 border-error-200"
    else if severity == "warning" then "text-warning-700 bg-warning-50 border-warning-200"
    else if severity == "info" then "text-primary-600 bg-primary-50 border-primary-200"
    else "text-muted bg-gray-50 border-gray-200"
  }

  /** `getSeverityBadgeColor`: a badge class list for each severity and a
      grey one for anything else. */
  function SeverityBadgeColor(severity: string): string {
    if severity == "error" then "bg-error-500 text-white"
    else if severity == "warning" then "bg-warning-500 text-gray-900"
    else if severity == "info" then "bg-primary-500 text-white"
    else "bg-gray-500 text-white"
  }

  /** Both maps tell the three severities apart from each other and from
      the fallback, which every other string gets. */
  lemma SeverityColorsDistinguish(a: string, b: string)
    ensures SeverityColor(a) == SeverityColor(b) <==> a == b || (!IsCanonicalSeverity(a) && !IsCanonicalSeverity(b))
    ensures SeverityBadgeColor(a) == SeverityBadgeColor(b) <==> a == b || (!IsCanonicalSeverity(a) && !IsCanonicalSeverity(b))
  {
    ColorTag(a);
    ColorTag(b);
    BadgeTag(a);
    BadgeTag(b);
  }

  /** One character of each class list that tells the severities apart. */
  lemma ColorTag(s: string)
    ensures SeverityColor(s)[5] == (if Tag(s) == 'g' then 'm' else Tag(s))
  {
    if s == "error" {
      ErrorTags();
    } else if s == "warning" {
      WarningTags();
    } else if s == "info" {
      InfoTags();
    } else {
      FallbackTags(s);
    }
  }

  lemma BadgeTag(s: string)
    ensures SeverityBadgeColor(s)[3] == Tag(s)
  {
    if s == "error" {
      ErrorTags();
    } else if s == "warning" {
      WarningTags();
    } else if s == "info" {
      InfoTags();
    } else {
      FallbackTags(s);
    }
  }

  lemma ErrorTags()
    ensures SeverityColor("error")[5] == 'e' && SeverityBadgeColor("error")[3] == 'e'
  {
    var c := "text-error-600 bg-error-50 border-error-200";
    var b := "bg-error-500 text-white";
    assert c[5] == 'e' && b[3] == 'e';
  }

  lemma WarningTags()
    ensures SeverityColor("warning")[5] == 'w' && SeverityBadgeColor("warning")[3] == 'w'
  {
    var c := "text-warning-700 bg-warning-50 border-warning-200";
    var b := "bg-warning-500 text-gray-900";
    assert SeverityColor("warning") == c && SeverityBadgeColor("warning") == b;
    assert c[5] == 'w' && b[3] == 'w';
  }

  lemma InfoTags()
    ensures SeverityColor("info")[5] == 'p' && SeverityBadgeColor("info")[3] == 'p'
  {
    var c := "text-primary-600 bg-primary-50 border-primary-200";
    var b := "bg-primary-500 text-white";
    assert SeverityColor("info") == c && SeverityBadgeColor("info") == b;
    assert c[5] == 'p' && b[3] == 'p';
  }

  lemma FallbackTags(s: string)
    requires !IsCanonicalSeverity(s)
    ensures SeverityColor(s)[5] == 'm' && SeverityBadgeColor(s)[3] == 'g'
  {
    var c := "text-muted bg-gray-50 border-gray-200";
    var b := "bg-gray-500 text-white";
    assert SeverityColor(s) == c && SeverityBadgeColor(s) == b;
    assert c[5] == 'm' && b[3] == 'g';
  }

  function Tag(s: string): char {
    if s == "error" then 'e' else if s == "warning" then 'w' else if s == "info" then 'p' else 'g'
  }

  // ---------------------------------------------------------------------
  // groupIssuesByFile

  function FileOf(x: Issue): string { x.file }

  /** The files the issues belong to. */
  function Files(issues: seq<Issue>): set<string> {
    set i | 0 <= i < |issues| :: issues[i].file
  }

  lemma FilesSnoc(issues: seq<Issue>, x: Issue)
    ensures Files(issues + [x]) == Files(issues) + {x.file}
  {
    var ys := issues + [x];
    assert forall i :: 0 <= i < |issues| ==> ys[i] == issues[i];
    assert ys[|issues|] == x;
  }

  /** A file has a non-empty group exactly when one of the issues is in it. */
  lemma {:induction false} SelectFiles(issues: seq<Issue>, f: string)
    ensures Select(issues, FileOf, f) != [] <==> f in Files(issues)
  {
    if issues != [] {
      var prefix, x := issues[..|issues| - 1], issues[|issues| - 1];
      assert issues == prefix + [x];
      SelectFiles(prefix, f);
      FilesSnoc(prefix, x);
    }
  }

  /** The intended grouping: a group per file that occurs, holding that
      file's issues in input order. */
  function GroupByFile(issues: seq<Issue>): map<string, seq<Issue>> {
    map f | f in Files(issues) :: Select(issues, FileOf, f)
  }

  /** The names a plain JavaScript object inherits from Object.prototype:
      reading any of them from `{}` gives a truthy value that is not an
      array. */
  const ObjectPrototypeKeys: set<string> := {
    "constructor", "hasOwnProperty", "isPrototypeOf", "propertyIsEnumerable",
    "toLocaleString", "toString", "valueOf", "__proto__",
    "__defineGetter__", "__defineSetter__", "__lookupGetter__", "__lookupSetter__" }

  /** The reduce as written either finishes with the groups or throws the
      TypeError of calling `push` on an inherited property. */
  datatype Reduced = Grouped(groups: map<string, seq<Issue>>) | TypeError

  /** `groupIssuesByFile` as written, on the object `acc` whose own
      properties are `acc.groups`: `!acc[file]` is false for an inherited
      property, so no array is created, and `acc[file].push` then throws. */
  function GroupAsWritten(issues: seq<Issue>): Reduced {
    if issues == [] then Grouped(map[])
    else
      match GroupAsWritten(issues[..|issues| - 1])
      case TypeError => TypeError
      case Grouped(acc) =>
        var x := issues[|issues| - 1];
        if x.file in acc then Grouped(acc[x.file := acc[x.file] + [x]])
        else if x.file in ObjectPrototypeKeys then TypeError
        else Grouped(acc[x.file := [x]])
  }

  /** The as-written grouping throws exactly when some issue's file is an
      inherited property name, and is the intended grouping otherwise. */
  lemma {:induction false} AsWrittenBehaviour(issues: seq<Issue>)
    ensures GroupAsWritten(issues).TypeError?
            <==> exists i :: 0 <= i < |issues| && issues[i].file in ObjectPrototypeKeys
    ensures GroupAsWritten(issues).Grouped? ==> GroupAsWritten(issues).groups == GroupByFile(issues)
  {
    if issues != [] {
      var prefix, x := issues[..|issues| - 1], issues[|issues| - 1];
      AsWrittenBehaviour(prefix);
      assert issues == prefix + [x];
      match GroupAsWritten(prefix)
      case TypeError =>
        var i :| 0 <= i < |prefix| && prefix[i].file in ObjectPrototypeKeys;
        assert issues[i] == prefix[i];
      case Grouped(acc) =>
        var expected := GroupByFile(prefix)[x.file := Select(prefix, FileOf, x.file) + [x]];
        assert GroupByFile(issues) == expected by {
          GroupSnoc(prefix, x);
        }
        SelectFiles(prefix, x.file);
        if x.file in acc {
          var j :| 0 <= j < |prefix| && prefix[j].file == x.file;
          assert issues[j] == prefix[j];
          assert GroupAsWritten(issues) == Grouped(expected);
        } else if x.file in ObjectPrototypeKeys {
          assert issues[|issues| - 1].file in ObjectPrototypeKeys;
        } else {
          assert acc == GroupByFile(prefix);
          assert Select(prefix, FileOf, x.file) == [];
          assert [] + [x] == [x];
          assert acc[x.file := [x]] == expected;
        }
    }
  }

  /** An issue from a file named "toString" makes the as-written grouping
      throw, where the intended grouping has one group of one issue. */
  lemma ToStringFileThrows()
    ensures GroupAsWritten([Issue("toString", 1, 1, "error", "m", "r", "")]).TypeError?
    ensures GroupByFile([Issue("toString", 1, 1, "error", "m", "r", "")]).Keys == {"toString"}
  {
    var x := Issue("toString", 1, 1, "error", "m", "r", "");
    assert [x][..0] == [];
    FilesSnoc([], x);
    assert [] + [x] == [x];
  }

  /** Adding one issue appends it to its own file's group. */
  lemma GroupSnoc(issues: seq<Issue>, x: Issue)
    ensures GroupByFile(issues + [x])
            == GroupByFile(issues)[x.file := Select(issues, FileOf, x.file) + [x]]
  {
    var before, after := GroupByFile(issues), GroupByFile(issues + [x]);
    var expected := before[x.file := Select(issues, FileOf, x.file) + [x]];
    FilesSnoc(issues, x);
    assert after.Keys == expected.Keys;
    forall f | f in after.Keys
      ensures after[f] == expected[f]
    {
      SelectSnoc(issues, x, FileOf, f);
    }
  }

  /** `groupIssuesByFile`, corrected: the reduce reads only the groups it
      created itself (own properties), so a file named like an inherited
      property starts its own group. */
  method GroupIssuesByFile(issues: seq<Issue>) returns (groups: map<string, seq<Issue>>)
    ensures groups == GroupByFile(issues)
  {
    groups := map[];
    for i := 0 to |issues|
      invariant groups == GroupByFile(issues[..i])
    {
      var x := issues[i];
      assert issues[..i + 1] == issues[..i] + [x];
      GroupSnoc(issues[..i], x);
      SelectFiles(issues[..i], x.file);
      if x.file !in groups {
        groups := groups[x.file := []];
      }
      groups := groups[x.file := groups[x.file] + [x]];
    }
    assert issues[..|issues|] == issues;
  }

  function One(x: Issue): int { 1 }

  /** The groups are a partition of the input: the keys are exactly the
      files that occur, every issue sits in its own file's group, and the
      group sizes add up to the number of issues. */
  lemma GroupingPartitions(issues: seq<Issue>, files: seq<string>)
    requires Distinct(files) && SetOf(files) == GroupByFile(issues).Keys
    ensures GroupByFile(issues).Keys == set i | 0 <= i < |issues| :: issues[i].file
    ensures forall f :: f in GroupByFile(issues) ==> GroupByFile(issues)[f] != []
    ensures forall f, j :: f in GroupByFile(issues) && 0 <= j < |GroupByFile(issues)[f]|
                           ==> GroupByFile(issues)[f][j].file == f
    ensures forall i :: 0 <= i < |issues| ==> issues[i] in GroupByFile(issues)[issues[i].file]
    ensures GroupTotals(issues, FileOf, One, files) == |issues|
  {
    forall i | 0 <= i < |issues|
      ensures issues[i] in GroupByFile(issues)[issues[i].file]
    {
      SelectContains(issues, i);
    }
    forall f | f in GroupByFile(issues)
      ensures GroupByFile(issues)[f] != []
    {
      SelectFiles(issues, f);
    }
    assert Keys(issues, FileOf) == Files(issues);
    PartitionTotals(issues, FileOf, One, files);
    TotalOnes(issues);
  }

  lemma {:induction false} SelectContains(issues: seq<Issue>, i: int)
    requires 0 <= i < |issues|
    ensures issues[i] in Select(issues, FileOf, issues[i].file)
  {
    var prefix, x := issues[..|issues| - 1], issues[|issues| - 1];
    if i < |issues| - 1 {
      SelectContains(prefix, i);
      assert prefix[i] == issues[i];
    }
  }

  lemma {:induction false} TotalOnes(xs: seq<Issue>)
    ensures Total(xs, One) == |xs|
  {
    if xs != [] {
      TotalOnes(xs[..|xs| - 1]);
    }
  }
}
