/** The web front end's results endpoint (`GET /api/results`): every stored
    result file, newest first, optionally narrowed to one checker and cut
    into a page. The results directory, with what reading and parsing each
    of its files gives, is a parameter; file access and JSON decoding are
    not part of this model. A JSON number that is NaN or infinite is written
    as null, which `Option` stands for here. */
module ResultsRoute {
  import opened Models
  import opened Text
  import Sorting
  import WebUtils

  /** What reading and parsing one file gives. */
  datatype Decoded = Parsed(result: Result) | Unreadable

  datatype StoredFile = StoredFile(name: string, content: Decoded)

  /** The results directory: absent, present but not listable, or its
      files in listing order. */
  datatype Directory = Missing | Unlistable | Listing(files: seq<StoredFile>)

  /** A stored result with the id taken from its file name. */
  datatype ResultWithId = ResultWithId(id: string, result: Result)

  /** The query string: each parameter absent or its raw value. */
  datatype Query = Query(checker: Option<string>, limit: Option<string>, offset: Option<string>)

  /** The JSON response; `None` is a JSON null. */
  datatype Response = Response(
    status: int,
    error: Option<string>,
    results: seq<ResultWithId>,
    total: int,
    page: Option<int>,
    pageSize: Option<int>)

  /** The answer when there is no results directory. */
  const EmptyResponse := Response(200, None, [], 0, Some(1), Some(20))

  /** The answer when listing, reading or parsing fails. */
  const FailureResponse := Response(500, Some("Failed to read results"), [], 0, Some(1), Some(20))

  // ---------------------------------------------------------------------
  // parseInt

  /** The number of leading characters of `s` that satisfy `IsSpace`. */
  function SpaceRun(s: string): (n: nat)
    ensures n <= |s|
    ensures forall i :: 0 <= i < n ==> IsSpace(s[i])
    ensures n < |s| ==> !IsSpace(s[n])
  {
    if s != [] && IsSpace(s[0]) then 1 + SpaceRun(s[1..]) else 0
  }

  /** The number of leading decimal digits of `s`. */
  function DigitRun(s: string): (n: nat)
    ensures n <= |s|
    ensures forall i :: 0 <= i < n ==> IsDigit(s[i])
    ensures n < |s| ==> !IsDigit(s[n])
  {
    if s != [] && IsDigit(s[0]) then 1 + DigitRun(s[1..]) else 0
  }

  /** The leading digits of `body` as a number; NaN (`None`) when there
      are none. */
  function LeadingNumber(body: string): Option<int> {
    var k := DigitRun(body);
    if k == 0 then None else Some(DecimalValue(body[..k]))
  }

  function Negate(x: Option<int>): Option<int> {
    if x.None? then None else Some(-x.value)
  }

  /** `parseInt(s)` in base 10: leading white space is skipped, a sign is
      read, then as many digits as follow; without any digit the result is
      NaN (`None`). */
  function ParseInt(s: string): Option<int> {
    var rest := s[SpaceRun(s)..];
    if rest == [] then None
    else if rest[0] == '-' then Negate(LeadingNumber(rest[1..]))
    else if rest[0] == '+' then LeadingNumber(rest[1..])
    else LeadingNumber(rest)
  }

  /** A run of digits followed by anything but a digit is read in full. */
  lemma DigitRunOf(d: string, t: string)
    requires forall i :: 0 <= i < |d| ==> IsDigit(d[i])
    requires t == [] || !IsDigit(t[0])
    ensures DigitRun(d + t) == |d|
  {
    var s := d + t;
    assert forall i :: 0 <= i < |d| ==> s[i] == d[i];
    assert |d| < |s| ==> s[|d|] == t[0];
  }

  /** `parseInt` reads back the decimal form of any integer, whatever
      non-digit text follows it. */
  lemma ParseIntRoundTrip(i: int, t: string)
    requires t == [] || !IsDigit(t[0])
    ensures ParseInt(IntToString(i) + t) == Some(i)
  {
    var n: nat := if i < 0 then -i else i;
    var d := NatToString(n);
    DigitsReadBack(n, t);
    NatToStringDigits(n);
    if i < 0 {
      var s := "-" + d + t;
      assert IntToString(i) + t == s;
      assert s[1..] == d + t;
      ParseIntNegative(s);
    } else {
      var s := d + t;
      assert IntToString(i) + t == s;
      assert s[0] == d[0];
      ParseIntDigits(s);
    }
  }

  /** After a minus sign, the digits that follow, negated. */
  lemma ParseIntNegative(s: string)
    requires s != [] && s[0] == '-'
    ensures ParseInt(s) == Negate(LeadingNumber(s[1..]))
  {
    NoLeadingSpace(s);
  }

  /** Text opening with a digit: its leading digits. */
  lemma ParseIntDigits(s: string)
    requires s != [] && IsDigit(s[0])
    ensures ParseInt(s) == LeadingNumber(s)
  {
    NoLeadingSpace(s);
  }

  /** The digits of `n` followed by a non-digit are read as `n`. */
  lemma DigitsReadBack(n: nat, t: string)
    requires t == [] || !IsDigit(t[0])
    ensures LeadingNumber(NatToString(n) + t) == Some(n)
  {
    var d := NatToString(n);
    NatToStringDigits(n);
    DecimalRoundTrip(n);
    DigitRunOf(d, t);
    assert (d + t)[..|d|] == d;
  }

  /** Text that opens with a sign or a digit has no white space to skip. */
  lemma NoLeadingSpace(s: string)
    requires s != [] && (s[0] == '-' || IsDigit(s[0]))
    ensures s[SpaceRun(s)..] == s
  {
    assert !IsSpace(s[0]);
    assert s[0..] == s;
  }

  // ---------------------------------------------------------------------
  // Query parameters

  /** `searchParams.get(name) || fallback`: an absent or empty parameter
      takes the fallback. */
  function ParamOr(p: Option<string>, fallback: string): string {
    if p.None? || p.value == "" then fallback else p.value
  }

  /** The checker to filter on; an empty value does not filter. */
  function CheckerParam(q: Query): (c: Option<string>)
    ensures c.Some? <==> q.checker.Some? && q.checker.value != ""
    ensures c.Some? ==> c == q.checker
  {
    if q.checker.Some? && q.checker.value != "" then q.checker else None
  }

  function LimitParam(q: Query): Option<int> {
    ParseInt(ParamOr(q.limit, "20"))
  }

  function OffsetParam(q: Query): Option<int> {
    ParseInt(ParamOr(q.offset, "0"))
  }

  /** Without parameters, pages hold 20 results and start at the first. */
  lemma ParamDefaults(q: Query)
    requires q.limit.None? || q.limit == Some("")
    requires q.offset.None? || q.offset == Some("")
    ensures LimitParam(q) == Some(20) && OffsetParam(q) == Some(0)
  {
    assert IntToString(20) + "" == "20" by {
      assert NatToString(20) == NatToString(2) + [DigitChar(0)];
    }
    assert IntToString(0) + "" == "0";
    ParseIntRoundTrip(20, "");
    ParseIntRoundTrip(0, "");
  }

  // ---------------------------------------------------------------------
  // Loading

  /** The `.json` files, in listing order. */
  function JsonFiles(files: seq<StoredFile>): (r: seq<StoredFile>)
    ensures forall f :: f in r <==> f in files && EndsWith(f.name, ".json")
  {
    if files == [] then []
    else
      var last := files[|files| - 1];
      JsonFiles(files[..|files| - 1]) + (if EndsWith(last.name, ".json") then [last] else [])
  }

  /** `file.replace('.json', '')`: the first ".json" is removed. */
  function ResultId(name: string): string {
    RemoveFirst(name, ".json")
  }

  /** A name without dots other than its ".json" suffix has the rest of the
      name as its id. */
  lemma ResultIdOfPlainName(base: string)
    requires forall i :: 0 <= i < |base| ==> base[i] != '.'
    ensures ResultId(base + ".json") == base
  {
    var name := base + ".json";
    assert name[|base|..|base| + 5] == ".json";
    assert OccursAt(name, ".json", |base|);
    var i := IndexOf(name, ".json").value;
    assert forall k :: 0 <= k < |base| ==> name[k] == base[k];
    assert name[i..i + 5][0] == '.';
    assert i == |base|;
    assert name[..i] == base;
  }

  /** The first ".json" goes, wherever it is: "a.json.json" has the id
      "a.json". */
  lemma ResultIdFirstOccurrence()
    ensures ResultId("a.json.json") == "a.json"
  {
    var name := "a.json.json";
    assert OccursAt(name, ".json", 1);
    assert name[0] == 'a';
    assert !OccursAt(name, ".json", 0);
    assert IndexOf(name, ".json") == Some(1);
  }

  predicate AllParsed(files: seq<StoredFile>) {
    forall i :: 0 <= i < |files| ==> files[i].content.Parsed?
  }

  /** Every file's result under the id from its name, in listing order. */
  function WithIds(files: seq<StoredFile>): (rs: seq<ResultWithId>)
    requires AllParsed(files)
    ensures |rs| == |files|
  {
    seq(|files|, i requires 0 <= i < |files| => ResultWithId(ResultId(files[i].name), files[i].content.result))
  }

  /** The `Promise.all` over the files: every file read and parsed, or the
      failure of any one of them. */
  method ReadAll(files: seq<StoredFile>) returns (r: Option<seq<ResultWithId>>)
    ensures r.None? <==> !AllParsed(files)
    ensures r.Some? ==> AllParsed(files) && r.value == WithIds(files)
  {
    var results: seq<ResultWithId> := [];
    for i := 0 to |files|
      invariant AllParsed(files[..i]) && results == WithIds(files[..i])
    {
      match files[i].content
      case Unreadable =>
        return None;
      case Parsed(result) =>
        results := results + [ResultWithId(ResultId(files[i].name), result)];
    }
    assert files[..|files|] == files;
    return Some(results);
  }

  // ---------------------------------------------------------------------
  // Order, filter and page

  /** The time of a result as `Date.getTime` gives it: whole milliseconds. */
  function Millis(t: Time): int {
    t / 1_000_000
  }

  /** The order of the comparator `b - a`: newer results first. */
  function NewerFirst(a: ResultWithId, b: ResultWithId): bool {
    Millis(a.result.timestamp) >= Millis(b.result.timestamp)
  }

  lemma NewerFirstOrder()
    ensures Sorting.TotalPreorder(NewerFirst)
  {
  }

  /** `results.filter(r => r.checker === checker)`. */
  function FilterChecker(rs: seq<ResultWithId>, checker: string): (r: seq<ResultWithId>)
    ensures |r| <= |rs|
    ensures forall i :: 0 <= i < |r| ==> r[i].result.checker == checker
  {
    if rs == [] then []
    else
      var last := rs[|rs| - 1];
      FilterChecker(rs[..|rs| - 1], checker) + (if last.result.checker == checker then [last] else [])
  }

  /** A position argument of `slice`: NaN is 0, a negative value counts
      from the end, and the result is clamped to the list. */
  function SliceIndex(x: Option<int>, len: nat): (k: nat)
    ensures k <= len
  {
    if x.None? then 0
    else if x.value < 0 then (if len + x.value < 0 then 0 else len + x.value)
    else if x.value > len then len
    else x.value
  }

  /** `s.slice(start, end)`. */
  function Slice<T>(s: seq<T>, start: Option<int>, end: Option<int>): seq<T> {
    var from, to := SliceIndex(start, |s|), SliceIndex(end, |s|);
    if from < to then s[from..to] else []
  }

  /** Number addition, NaN absorbing. */
  function Plus(a: Option<int>, b: Option<int>): Option<int> {
    if a.None? || b.None? then None else Some(a.value + b.value)
  }

  /** `Math.floor(offset / limit) + 1`; a division by zero or by NaN gives
      a number that is written as null. */
  function PageNumber(offset: Option<int>, limit: Option<int>): Option<int> {
    if offset.None? || limit.None? || limit.value == 0 then None
    else Some(WebUtils.FloorDiv(offset.value, limit.value) + 1)
  }

  /** The successful response for the sorted results. */
  function Paginate(sorted: seq<ResultWithId>, checker: Option<string>, limit: Option<int>, offset: Option<int>)
    : Response
  {
    var filtered := if checker.Some? then FilterChecker(sorted, checker.value) else sorted;
    Response(200, None, Slice(filtered, offset, Plus(offset, limit)), |filtered|,
             PageNumber(offset, limit), limit)
  }

  // ---------------------------------------------------------------------
  // GET

  /** `GET /api/results`: no directory gives an empty first page; a
      directory that cannot be listed, or any `.json` file that cannot be
      read or parsed, gives the 500 failure; otherwise the results, in an
      order newest first (ties in any order), are filtered and paged. */
  method Get(dir: Directory, query: Query) returns (resp: Response, ghost sorted: seq<ResultWithId>)
    ensures dir.Missing? ==> resp == EmptyResponse
    ensures dir.Unlistable? ==> resp == FailureResponse
    ensures dir.Listing? && !AllParsed(JsonFiles(dir.files)) ==> resp == FailureResponse
    ensures dir.Listing? && AllParsed(JsonFiles(dir.files)) ==>
              && multiset(sorted) == multiset(WithIds(JsonFiles(dir.files)))
              && Sorting.Sorted(sorted, NewerFirst)
              && resp == Paginate(sorted, CheckerParam(query), LimitParam(query), OffsetParam(query))
  {
    sorted := [];
    match dir
    case Missing =>
      return EmptyResponse, sorted;
    case Unlistable =>
      return FailureResponse, sorted;
    case Listing(files) =>
      var jsonFiles := JsonFiles(files);
      var loaded := ReadAll(jsonFiles);
      if loaded.None? {
        return FailureResponse, sorted;
      }
      NewerFirstOrder();
      var results := Sorting.Sort(loaded.value, NewerFirst);
      sorted := results;
      var checker := CheckerParam(query);
      var limit := ParseInt(ParamOr(query.limit, "20"));
      var offset := ParseInt(ParamOr(query.offset, "0"));
      var filtered := results;
      if checker.Some? {
        filtered := FilterChecker(results, checker.value);
      }
      var page := Slice(filtered, offset, Plus(offset, limit));
      resp := Response(200, None, page, |filtered|, PageNumber(offset, limit), limit);
  }

  // ---------------------------------------------------------------------
  // What a page holds

  /** A page is one stretch of the filtered results, of at most `limit`
      entries, all of the requested checker. */
  lemma PageContents(sorted: seq<ResultWithId>, checker: Option<string>, limit: Option<int>, offset: Option<int>)
    ensures var filtered := if checker.Some? then FilterChecker(sorted, checker.value) else sorted;
            var page := Paginate(sorted, checker, limit, offset).results;
            var from := SliceIndex(offset, |filtered|);
            && from + |page| <= |filtered| && page == filtered[from..from + |page|]
            && (checker.Some? ==> forall i :: 0 <= i < |page| ==> page[i].result.checker == checker.value)
            && (limit.Some? && limit.value >= 0 ==> |page| <= limit.value)
  {
    var filtered := if checker.Some? then FilterChecker(sorted, checker.value) else sorted;
    var page := Paginate(sorted, checker, limit, offset).results;
    var from, to := SliceIndex(offset, |filtered|), SliceIndex(Plus(offset, limit), |filtered|);
    if from >= to {
      assert page == filtered[from..from];
    }
  }

  /** A stretch of a newest-first list is newest first. */
  lemma PageNewestFirst(sorted: seq<ResultWithId>, checker: Option<string>, limit: Option<int>, offset: Option<int>)
    requires Sorting.Sorted(sorted, NewerFirst)
    ensures Sorting.Sorted(Paginate(sorted, checker, limit, offset).results, NewerFirst)
  {
    var filtered := if checker.Some? then FilterChecker(sorted, checker.value) else sorted;
    if checker.Some? {
      FilterSorted(sorted, checker.value);
    }
    PageContents(sorted, checker, limit, offset);
  }

  lemma {:induction false} FilterSorted(rs: seq<ResultWithId>, checker: string)
    requires Sorting.Sorted(rs, NewerFirst)
    ensures Sorting.Sorted(FilterChecker(rs, checker), NewerFirst)
    ensures forall x :: x in FilterChecker(rs, checker) ==> x in rs
  {
    if rs != [] {
      var prefix, last := rs[..|rs| - 1], rs[|rs| - 1];
      FilterSorted(prefix, checker);
      forall x | x in FilterChecker(prefix, checker)
        ensures NewerFirst(x, last)
      {
        var i :| 0 <= i < |prefix| && prefix[i] == x;
        assert rs[i] == x;
      }
    }
  }

  /** The filter keeps exactly the results of the checker, each as often as
      it occurs. */
  lemma {:induction false} FilterMultiset(rs: seq<ResultWithId>, checker: string, x: ResultWithId)
    ensures multiset(FilterChecker(rs, checker))[x] == if x.result.checker == checker then multiset(rs)[x] else 0
  {
    if rs != [] {
      var prefix, last := rs[..|rs| - 1], rs[|rs| - 1];
      assert rs == prefix + [last];
      FilterMultiset(prefix, checker, x);
    }
  }

  /** The total counts the stored results of the requested checker (all
      of them without one), however the sort ordered equal timestamps. */
  lemma TotalIgnoresOrder(s: seq<ResultWithId>, t: seq<ResultWithId>, checker: Option<string>,
                          limit: Option<int>, offset: Option<int>)
    requires multiset(s) == multiset(t)
    ensures Paginate(s, checker, limit, offset).total == Paginate(t, checker, limit, offset).total
  {
    if checker.Some? {
      var fs, ft := FilterChecker(s, checker.value), FilterChecker(t, checker.value);
      forall x ensures multiset(fs)[x] == multiset(ft)[x] {
        FilterMultiset(s, checker.value, x);
        FilterMultiset(t, checker.value, x);
      }
      assert multiset(fs) == multiset(ft);
      assert |fs| == |multiset(fs)| == |multiset(ft)| == |ft|;
    } else {
      assert |s| == |multiset(s)| == |multiset(t)| == |t|;
    }
  }

  /** Paging with a positive `limit` and an offset of k pages: page k + 1,
      holding the filtered results from position k * limit on, at most
      `limit` of them. */
  lemma PageTiling(sorted: seq<ResultWithId>, checker: Option<string>, limit: int, k: nat)
    requires limit > 0
    ensures var filtered := if checker.Some? then FilterChecker(sorted, checker.value) else sorted;
            var r := Paginate(sorted, checker, Some(limit), Some(k * limit));
            var from := if k * limit < |filtered| then k * limit else |filtered|;
            var to := if k * limit + limit < |filtered| then k * limit + limit else |filtered|;
            && r.page == Some(k + 1)
            && r.pageSize == Some(limit)
            && r.results == filtered[from..to]
  {
    var q := k * limit;
    assert q >= 0;
    WebUtils.FloorDivBounds(q, limit);
    var d := WebUtils.FloorDiv(q, limit);
    WebUtils.MulLeInv(d, k, limit);
    WebUtils.MulLtInv(k, d + 1, limit);
  }
}
