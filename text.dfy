/** The string operations of Go's and JavaScript's standard libraries that
    marvin's code relies on: `%d` formatting, `strings.Join`,
    `strings.ToLower`, `strings.Title`, `strings.TrimSpace`, string
    ordering, and the suffix and first-occurrence operations of JavaScript
    strings. */
module Text {

  // ---------------------------------------------------------------------
  // Decimal numbers, as fmt's %d and JavaScript's template literals print
  // integers.

  predicate IsDigit(c: char) {
    '0' <= c <= '9'
  }

  function DigitChar(d: nat): (c: char)
    requires d < 10
    ensures IsDigit(c) && (c as int) - ('0' as int) == d
  {
    (('0' as int) + d) as char
  }

  /** The decimal digits of `n`, most significant first. */
  function NatToString(n: nat): string {
    if n < 10 then [DigitChar(n)] else NatToString(n / 10) + [DigitChar(n % 10)]
  }

  /** The decimal form is a non-empty string of digits without a leading
      zero. */
  lemma {:induction false} NatToStringDigits(n: nat)
    ensures |NatToString(n)| >= 1
    ensures forall i :: 0 <= i < |NatToString(n)| ==> IsDigit(NatToString(n)[i])
    ensures |NatToString(n)| > 1 ==> NatToString(n)[0] != '0'
  {
    if n >= 10 {
      NatToStringDigits(n / 10);
      var s := NatToString(n);
      assert s[0] == NatToString(n / 10)[0];
    }
  }

  /** The value of a string of decimal digits. */
  function DecimalValue(s: string): int {
    if s == [] then 0
    else 10 * DecimalValue(s[..|s| - 1]) + DigitValue(s[|s| - 1])
  }

  function DigitValue(c: char): int {
    (c as int) - ('0' as int)
  }

  /** Reading back the digits of `n` gives `n`: %d loses nothing. */
  lemma {:induction false} DecimalRoundTrip(n: nat)
    ensures DecimalValue(NatToString(n)) == n
  {
    NatToStringDigits(n);
    if n >= 10 {
      var s := NatToString(n);
      NatToStringDigits(n / 10);
      assert s[..|s| - 1] == NatToString(n / 10);
      DecimalRoundTrip(n / 10);
    }
  }

  /** `fmt.Sprintf("%d", i)`: a minus sign before the digits of |i|. */
  function IntToString(i: int): string {
    if i < 0 then "-" + NatToString(-i) else NatToString(i)
  }

  /** The sign is shown exactly for negative numbers. */
  lemma IntToStringSign(i: int)
    ensures |IntToString(i)| >= 1
    ensures IntToString(i)[0] == '-' <==> i < 0
  {
    if i < 0 {
      NatToStringDigits(-i);
    } else {
      NatToStringDigits(i);
    }
  }

  // ---------------------------------------------------------------------
  // Counting characters

  /** How many times `c` occurs in `s`. */
  function CountChar(s: string, c: char): nat {
    if s == [] then 0
    else CountChar(s[..|s| - 1], c) + (if s[|s| - 1] == c then 1 else 0)
  }

  lemma {:induction false} CountCharConcat(a: string, b: string, c: char)
    ensures CountChar(a + b, c) == CountChar(a, c) + CountChar(b, c)
    decreases |b|
  {
    if b == [] {
      assert a + b == a;
    } else {
      var b', x := b[..|b| - 1], b[|b| - 1];
      assert a + b == (a + b') + [x];
      assert (a + b)[..|a + b| - 1] == a + b';
      CountCharConcat(a, b', c);
    }
  }

  /** How many times `c` occurs in the parts, all together. */
  function SumCount(parts: seq<string>, c: char): nat {
    if parts == [] then 0 else SumCount(parts[..|parts| - 1], c) + CountChar(parts[|parts| - 1], c)
  }

  /** Joining with the one-character separator `c` adds one `c` between
      each pair of neighbours. */
  lemma {:induction false} JoinCount(parts: seq<string>, c: char)
    requires parts != []
    ensures CountChar(Join(parts, [c]), c) == SumCount(parts, c) + |parts| - 1
  {
    if |parts| == 1 {
      assert parts[..0] == [];
    } else {
      var prefix, x := parts[..|parts| - 1], parts[|parts| - 1];
      JoinCount(prefix, c);
      CountCharConcat(Join(prefix, [c]), [c], c);
      CountCharConcat(Join(prefix, [c]) + [c], x, c);
    }
  }

  /** The decimal form of an integer holds no character other than digits
      and a leading minus sign. */
  lemma IntToStringChars(i: int, c: char)
    requires !IsDigit(c) && c != '-'
    ensures CountChar(IntToString(i), c) == 0
  {
    var s := IntToString(i);
    if i < 0 {
      NatToStringDigits(-i);
    } else {
      NatToStringDigits(i);
    }
    NoCharCount(s, c);
  }

  lemma {:induction false} NoCharCount(s: string, c: char)
    requires forall i :: 0 <= i < |s| ==> s[i] != c
    ensures CountChar(s, c) == 0
  {
    if s != [] {
      NoCharCount(s[..|s| - 1], c);
    }
  }

  // ---------------------------------------------------------------------
  // strings.Join

  /** `strings.Join(parts, sep)`: the parts with `sep` between neighbours. */
  function Join(parts: seq<string>, sep: string): string {
    if |parts| == 0 then ""
    else if |parts| == 1 then parts[0]
    else Join(parts[..|parts| - 1], sep) + sep + parts[|parts| - 1]
  }

  /** Appending one more part adds a separator and the part. */
  lemma JoinSnoc(parts: seq<string>, x: string, sep: string)
    requires parts != []
    ensures Join(parts + [x], sep) == Join(parts, sep) + sep + x
  {
    assert (parts + [x])[..|parts|] == parts;
  }

  /** Concatenation is associative. */
  lemma AppendAssoc(a: string, b: string, c: string)
    ensures a + (b + c) == (a + b) + c
  {
  }

  /** Joining one more element of a list. */
  lemma JoinPrefix(parts: seq<string>, i: nat, sep: string)
    requires i < |parts|
    ensures Join(parts[..i + 1], sep)
            == if i == 0 then parts[0] else Join(parts[..i], sep) + sep + parts[i]
  {
    assert parts[..i + 1] == parts[..i] + [parts[i]];
    if i > 0 {
      JoinSnoc(parts[..i], parts[i], sep);
    }
  }

  /** Joining two non-empty lists is joining each and putting one separator
      between them. */
  lemma {:induction false} JoinConcat(a: seq<string>, b: seq<string>, sep: string)
    requires a != [] && b != []
    ensures Join(a + b, sep) == Join(a, sep) + sep + Join(b, sep)
    decreases |b|
  {
    if |b| == 1 {
      JoinSnoc(a, b[0], sep);
    } else {
      var b' := b[..|b| - 1];
      var x := b[|b| - 1];
      assert b == b' + [x];
      assert a + b == (a + b') + [x];
      JoinSnoc(a + b', x, sep);
      JoinConcat(a, b', sep);
      JoinSnoc(b', x, sep);
    }
  }

  // ---------------------------------------------------------------------
  // Case mapping. Only the ASCII letters A-Z and a-z are mapped.

  function LowerChar(c: char): char {
    if 'A' <= c <= 'Z' then ((c as int) + 32) as char else c
  }

  function UpperChar(c: char): char {
    if 'a' <= c <= 'z' then ((c as int) - 32) as char else c
  }

  /** `strings.ToLower` on ASCII letters; every other character, including
      non-ASCII capitals such as 'É', is kept as it is. */
  function ToLower(s: string): (r: string)
    ensures |r| == |s|
    ensures forall i :: 0 <= i < |s| ==> r[i] == LowerChar(s[i])
  {
    seq(|s|, i requires 0 <= i < |s| => LowerChar(s[i]))
  }

  /** Go's `unicode.IsSpace`: the ASCII spaces, NEL, NBSP and the other
      code points with the Unicode White_Space property. */
  predicate IsSpace(c: char) {
    var x := c as int;
    || (9 <= x <= 13) || x == 32 || x == 0x85 || x == 0xA0 || x == 0x1680
    || (0x2000 <= x <= 0x200A) || x == 0x2028 || x == 0x2029 || x == 0x202F
    || x == 0x205F || x == 0x3000
  }

  predicate IsAsciiWordChar(c: char) {
    ('a' <= c <= 'z') || ('A' <= c <= 'Z') || IsDigit(c) || c == '_'
  }

  /** The separator test of `strings.Title`: an ASCII character separates
      unless it is a letter, a digit or '_'; any other character separates
      exactly when it is a space. */
  predicate IsTitleSeparator(c: char) {
    if (c as int) <= 0x7F then !IsAsciiWordChar(c) else IsSpace(c)
  }

  /** Whether position `i` of `s` starts a word for `strings.Title`. */
  predicate StartsWord(s: string, i: nat)
    requires i < |s|
  {
    i == 0 || IsTitleSeparator(s[i - 1])
  }

  /** `strings.Title`: every letter that starts a word is upper-cased (only
      ASCII letters are mapped); every other character is kept. */
  function Title(s: string): (r: string)
    ensures |r| == |s|
    ensures forall i :: 0 <= i < |s| && !StartsWord(s, i) ==> r[i] == s[i]
  {
    seq(|s|, i requires 0 <= i < |s| => if StartsWord(s, i) then UpperChar(s[i]) else s[i])
  }

  // ---------------------------------------------------------------------
  // Ordering. Go compares strings byte by byte; on UTF-8 text this is the
  // order of the code points, which is the order used here.

  /** `a <= b` on Go strings: lexicographic order. */
  predicate LexLe(a: string, b: string)
    decreases |a|
  {
    |a| == 0 || (|b| > 0 && (a[0] < b[0] || (a[0] == b[0] && LexLe(a[1..], b[1..]))))
  }

  lemma {:induction false} LexLeTotal(a: string, b: string)
    ensures LexLe(a, b) || LexLe(b, a)
    decreases |a|
  {
    if |a| > 0 && |b| > 0 && a[0] == b[0] {
      LexLeTotal(a[1..], b[1..]);
    }
  }

  lemma {:induction false} LexLeTrans(a: string, b: string, c: string)
    requires LexLe(a, b) && LexLe(b, c)
    ensures LexLe(a, c)
    decreases |a|
  {
    if |a| > 0 && a[0] == b[0] && b[0] == c[0] {
      LexLeTrans(a[1..], b[1..], c[1..]);
    }
  }

  // ---------------------------------------------------------------------
  // strings.TrimSpace

  /** The bounds of `s` without its leading and trailing white space. */
  function TrimBounds(s: string): (b: (nat, nat))
    ensures b.0 <= b.1 <= |s|
    ensures forall i :: 0 <= i < b.0 ==> IsSpace(s[i])
    ensures forall i :: b.1 <= i < |s| ==> IsSpace(s[i])
    ensures b.0 < b.1 ==> !IsSpace(s[b.0]) && !IsSpace(s[b.1 - 1])
    decreases |s|
  {
    if s == [] then (0, 0)
    else if IsSpace(s[0]) then
      var t := TrimBounds(s[1..]);
      (t.0 + 1, t.1 + 1)
    else
      (0, TrimEnd(s))
  }

  /** The length of `s` without its trailing white space. */
  function TrimEnd(s: string): (n: nat)
    ensures n <= |s|
    ensures forall i :: n <= i < |s| ==> IsSpace(s[i])
    ensures n > 0 ==> !IsSpace(s[n - 1])
  {
    if s != [] && IsSpace(s[|s| - 1]) then TrimEnd(s[..|s| - 1]) else |s|
  }

  /** `strings.TrimSpace`. */
  function TrimSpace(s: string): string {
    var b := TrimBounds(s);
    s[b.0..b.1]
  }

  // ---------------------------------------------------------------------
  // JavaScript string helpers.

  /** `s.endsWith(suffix)`. */
  predicate EndsWith(s: string, suffix: string) {
    |suffix| <= |s| && s[|s| - |suffix|..] == suffix
  }

  /** A suffix appended last is a suffix. */
  lemma EndsWithAppend(a: string, b: string)
    ensures EndsWith(a + b, b)
  {
    assert (a + b)[|a|..] == b;
  }

  /** A prefix of `b` stays a prefix of anything `b` is extended to. */
  lemma PrefixAppend(a: string, b: string, c: string)
    requires a <= b
    ensures a <= b + c
  {
    assert (b + c)[..|b|] == b;
  }

  /** Whether `pat` occurs in `s` at position `j`. */
  predicate OccursAt(s: string, pat: string, j: nat) {
    j + |pat| <= |s| && s[j..j + |pat|] == pat
  }

  /** `s.indexOf(pat)`: the first position where `pat` occurs, if any. */
  function IndexOf(s: string, pat: string): (r: Option<nat>)
    ensures r.Some? ==> OccursAt(s, pat, r.value)
    ensures r.Some? ==> forall j: nat :: j < r.value ==> !OccursAt(s, pat, j)
    ensures r.None? ==> forall j: nat :: !OccursAt(s, pat, j)
  {
    IndexFrom(s, pat, 0)
  }

  /** The first position at or after `from` where `pat` occurs, if any. */
  function IndexFrom(s: string, pat: string, from: nat): (r: Option<nat>)
    requires forall j: nat :: j < from ==> !OccursAt(s, pat, j)
    ensures r.Some? ==> from <= r.value && OccursAt(s, pat, r.value)
    ensures r.Some? ==> forall j: nat :: j < r.value ==> !OccursAt(s, pat, j)
    ensures r.None? ==> forall j: nat :: !OccursAt(s, pat, j)
    decreases |s| - from
  {
    if from + |pat| > |s| then None
    else if OccursAt(s, pat, from) then Some(from)
    else IndexFrom(s, pat, from + 1)
  }

  /** `s.replace(pat, "")` with a string pattern: only the first occurrence
      of `pat` is removed. */
  function RemoveFirst(s: string, pat: string): string {
    match IndexOf(s, pat)
    case None => s
    case Some(i) => s[..i] + s[i + |pat|..]
  }

  datatype Option<T> = None | Some(value: T)
}
