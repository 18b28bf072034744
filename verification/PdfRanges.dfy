/** PDF page ranges: the normalization of internal/tools/pdf.go, a parser and a printer,
    and the second acceptor `validatePageRanges` of chrome-extension/src/command-router.js
    that its output has to pass. */
module PdfRanges {
  import opened Text

  const MAX_LENGTH := 256
  const MAX_RANGES := 50
  const MAX_PAGE := 100_000

  // ---------------------------------------------------------------------
  // Splitting and joining
  // ---------------------------------------------------------------------

  /** `strings.Split` and JavaScript's `split`. */
  function Split(s: string, separator: char): (parts: seq<string>)
    ensures parts != []
  {
    if s == "" then [""]
    else
      var rest := Split(s[1..], separator);
      if s[0] == separator then [""] + rest else [[s[0]] + rest[0]] + rest[1..]
  }

  /** `strings.Join`. */
  function Join(parts: seq<string>, separator: char): string
    requires parts != []
  {
    if |parts| == 1 then parts[0] else parts[0] + [separator] + Join(parts[1..], separator)
  }

  lemma {:induction false} JoinOfSplit(s: string, separator: char)
    ensures Join(Split(s, separator), separator) == s
  {
    if s != "" {
      JoinOfSplit(s[1..], separator);
      var rest := Split(s[1..], separator);
      var parts := Split(s, separator);
      assert s == [s[0]] + s[1..];
      if s[0] == separator {
        assert parts[1..] == rest;
      } else if |rest| > 1 {
        assert parts[1..] == rest[1..];
      }
    }
  }

  lemma {:induction false} SplitOfPart(part: string, rest: string, separator: char)
    requires separator !in part
    ensures Split(part, separator) == [part]
    ensures Split(part + [separator] + rest, separator) == [part] + Split(rest, separator)
  {
    var s := part + [separator] + rest;
    if part == "" {
      assert s[1..] == rest;
    } else {
      SplitOfPart(part[1..], rest, separator);
      assert s[1..] == part[1..] + [separator] + rest;
      assert part == [part[0]] + part[1..];
    }
  }

  lemma {:induction false} SplitOfJoin(parts: seq<string>, separator: char)
    requires parts != [] && forall i :: 0 <= i < |parts| ==> separator !in parts[i]
    ensures Split(Join(parts, separator), separator) == parts
  {
    if |parts| == 1 {
      SplitOfPart(parts[0], "", separator);
    } else {
      SplitOfJoin(parts[1..], separator);
      SplitOfPart(parts[0], Join(parts[1..], separator), separator);
    }
  }

  lemma {:induction false} ShorterPartsJoinShorter(a: seq<string>, b: seq<string>, separator: char)
    requires |a| == |b| > 0 && forall i :: 0 <= i < |a| ==> |a[i]| <= |b[i]|
    ensures |Join(a, separator)| <= |Join(b, separator)|
  {
    if |a| > 1 { ShorterPartsJoinShorter(a[1..], b[1..], separator); }
  }

  // ---------------------------------------------------------------------
  // Numbers
  // ---------------------------------------------------------------------

  predicate IsDigit(c: char) {
    '0' <= c <= '9'
  }

  predicate AllDigits(s: string) {
    forall i :: 0 <= i < |s| ==> IsDigit(s[i])
  }

  function Value(digits: string): nat
    requires AllDigits(digits)
  {
    if digits == "" then 0
    else Value(digits[..|digits| - 1]) * 10 + (digits[|digits| - 1] as int - '0' as int)
  }

  /** `strconv.Itoa`, for numbers that are not negative. */
  function Itoa(n: nat): string {
    if n < 10 then [('0' as int + n) as char] else Itoa(n / 10) + [('0' as int + n % 10) as char]
  }

  lemma {:induction false} ItoaIsDecimal(n: nat)
    ensures Itoa(n) != "" && AllDigits(Itoa(n)) && Value(Itoa(n)) == n
  {
    if n < 10 {
      assert Itoa(n)[..0] == "";
    } else {
      ItoaIsDecimal(n / 10);
      assert Itoa(n)[..|Itoa(n)| - 1] == Itoa(n / 10);
    }
  }

  /** Decimal numerals are as short as possible. */
  lemma {:induction false} ItoaIsShortest(digits: string)
    requires AllDigits(digits) && digits != ""
    ensures |Itoa(Value(digits))| <= |digits|
  {
    var init := digits[..|digits| - 1];
    var n := Value(digits);
    if init == "" {
      assert Value(init) == 0;
    } else {
      ItoaIsShortest(init);
      assert n / 10 == Value(init);
    }
  }

  /** `strconv.Atoi`; a number too large for an integer is out of range for a page too. */
  function Atoi(s: string): Option<int> {
    var digits := if s != "" && (s[0] == '+' || s[0] == '-') then s[1..] else s;
    if digits == "" || !AllDigits(digits) then None
    else
      var magnitude: int := Value(digits);
      Some(if s[0] == '-' then -magnitude else magnitude)
  }

  function ParsePage(text: string): Option<nat> {
    var page := Atoi(Trim(text));
    if page.None? || page.value < 1 || MAX_PAGE < page.value then None else Some(page.value)
  }

  // ---------------------------------------------------------------------
  // Ranges
  // ---------------------------------------------------------------------

  datatype Range = Range(first: nat, last: nat)

  predicate ValidRange(r: Range) {
    1 <= r.first <= r.last <= MAX_PAGE
  }

  function ParseRange(token: string): Option<Range> {
    var parts := Split(Trim(token), '-');
    if 2 < |parts| then None
    else
      var first := ParsePage(parts[0]);
      var last := if |parts| == 2 then ParsePage(parts[1]) else first;
      if first.None? || last.None? || last.value < first.value then None else Some(Range(first.value, last.value))
  }

  function ParseRanges(tokens: seq<string>): Option<seq<Range>> {
    if tokens == [] then Some([])
    else
      var rest := ParseRanges(tokens[..|tokens| - 1]);
      var r := ParseRange(tokens[|tokens| - 1]);
      if rest.None? || r.None? then None else Some(rest.value + [r.value])
  }

  /** Bytes of a string in UTF-8. */
  function ByteLength(s: string): nat {
    if s == "" then 0
    else
      ByteLength(s[..|s| - 1]) +
      (var c := s[|s| - 1]; if c < '\U{80}' then 1 else if c < '\U{800}' then 2 else if c < '\U{10000}' then 3 else 4)
  }

  /** The page intervals a text stands for; `None` if it is refused. */
  function Intervals(text: string): Option<seq<Range>> {
    var trimmed := Trim(text);
    if trimmed == "" then Some([])
    else if MAX_LENGTH < ByteLength(trimmed) || MAX_RANGES < |Split(trimmed, ',')| then None
    else ParseRanges(Split(trimmed, ','))
  }

  function RangeText(r: Range): string {
    if r.first == r.last then Itoa(r.first) else Itoa(r.first) + "-" + Itoa(r.last)
  }

  function RangeTexts(ranges: seq<Range>): seq<string> {
    seq(|ranges|, i requires 0 <= i < |ranges| => RangeText(ranges[i]))
  }

  function Printed(ranges: seq<Range>): string {
    if ranges == [] then "" else Join(RangeTexts(ranges), ',')
  }

  /** `parsePDFPageNumber`. */
  method ParsePageNumber(text: string) returns (page: Option<nat>)
    ensures page == ParsePage(text)
  {
    var number := Atoi(Trim(text));
    if number.None? || number.value < 1 || number.value > MAX_PAGE { return None; }
    page := Some(number.value);
  }

  /** One token of the list. */
  method ParseToken(token: string) returns (r: Option<Range>)
    ensures r == ParseRange(token)
  {
    var parts := Split(Trim(token), '-');
    if |parts| > 2 { return None; }
    var first := ParsePageNumber(parts[0]);
    if first.None? { return None; }
    var last := first;
    if |parts| == 2 {
      last := ParsePageNumber(parts[1]);
      if last.None? || last.value < first.value { return None; }
    }
    r := Some(Range(first.value, last.value));
  }

  /** `normalizePDFPageRanges`: the intervals of the text, printed. */
  method NormalizePageRanges(text: string) returns (normalized: Option<string>)
    ensures normalized.Some? <==> Intervals(text).Some?
    ensures normalized.Some? ==> normalized.value == Printed(Intervals(text).value)
  {
    var value := Trim(text);
    if value == "" { return Some(""); }
    if ByteLength(value) > MAX_LENGTH { return None; }
    var tokens := Split(value, ',');
    if |tokens| > MAX_RANGES { return None; }
    var texts: seq<string> := [];
    ghost var ranges: seq<Range> := [];
    hide Trim, Split, ParseRange, RangeText, ByteLength, Join;
    for i := 0 to |tokens|
      invariant ParseRanges(tokens[..i]) == Some(ranges) && |ranges| == i && texts == RangeTexts(ranges)
    {
      OneMoreRange(tokens, ranges, i);
      var r := ParseToken(tokens[i]);
      if r.None? { return None; }
      texts := texts + [RangeText(r.value)];
      ranges := ranges + [r.value];
    }
    assert tokens[..|tokens|] == tokens;
    normalized := Some(Join(texts, ','));
  }

  lemma OneMoreRange(tokens: seq<string>, ranges: seq<Range>, i: nat)
    requires i < |tokens| && ParseRanges(tokens[..i]) == Some(ranges)
    ensures var r := ParseRange(tokens[i]);
      if r.None? then ParseRanges(tokens).None?
      else ParseRanges(tokens[..i + 1]) == Some(ranges + [r.value]) &&
           RangeTexts(ranges + [r.value]) == RangeTexts(ranges) + [RangeText(r.value)]
  {
    hide ParseRange, RangeText;
    assert tokens[..i + 1][..i] == tokens[..i];
    NoneStaysNone(tokens, i + 1);
  }

  lemma {:induction false} NoneStaysNone(tokens: seq<string>, n: nat)
    requires n <= |tokens|
    ensures ParseRanges(tokens[..n]).None? ==> ParseRanges(tokens).None?
    decreases |tokens| - n
  {
    if n == |tokens| {
      assert tokens[..n] == tokens;
    } else {
      assert tokens[..n + 1][..n] == tokens[..n];
      NoneStaysNone(tokens, n + 1);
    }
  }

  // ---------------------------------------------------------------------
  // What is accepted, as a grammar
  // ---------------------------------------------------------------------

  predicate AllSpaces(s: string) {
    forall i :: 0 <= i < |s| ==> IsSpace(s[i])
  }

  /** A decimal numeral between white space, maybe with a plus sign, of a page that exists. */
  ghost predicate DenotesPage(text: string, n: nat) {
    1 <= n <= MAX_PAGE &&
    exists before, sign, digits, after :: IsPageText(text, n, before, sign, digits, after)
  }

  predicate IsPageText(text: string, n: nat, before: string, sign: string, digits: string, after: string) {
    && text == before + sign + digits + after && AllSpaces(before) && AllSpaces(after)
    && (sign == "" || sign == "+") && digits != "" && AllDigits(digits) && Value(digits) == n
  }

  /** One page, or two in order with a dash between them. */
  ghost predicate DenotesRange(token: string, r: Range) {
    || (r.first == r.last && DenotesPage(token, r.first))
    || (r.first <= r.last &&
        exists a, b :: token == a + "-" + b && DenotesPage(a, r.first) && DenotesPage(b, r.last))
  }

  /** Ranges separated by commas. */
  ghost predicate DenotesRanges(text: string, ranges: seq<Range>) {
    exists tokens :: |tokens| == |ranges| > 0 && text == Join(tokens, ',') &&
      forall i :: 0 <= i < |ranges| ==> DenotesRange(tokens[i], ranges[i])
  }

  lemma {:induction false} TrimLeftOf(before: string, s: string)
    requires AllSpaces(before) && (s == "" || !IsSpace(s[0]))
    ensures TrimLeft(before + s) == s
  {
    if before == "" {
      assert before + s == s;
    } else {
      TrimLeftOf(before[1..], s);
      assert (before + s)[1..] == before[1..] + s;
    }
  }

  lemma {:induction false} TrimRightOf(s: string, after: string)
    requires AllSpaces(after) && (s == "" || !IsSpace(s[|s| - 1]))
    ensures TrimRight(s + after) == s
  {
    if after == "" {
      assert s + after == s;
    } else {
      var init := after[..|after| - 1];
      TrimRightOf(s, init);
      assert (s + after)[..|s + after| - 1] == s + init;
    }
  }

  lemma TrimOf(before: string, s: string, after: string)
    requires AllSpaces(before) && AllSpaces(after) && s != "" && !IsSpace(s[0]) && !IsSpace(s[|s| - 1])
    ensures Trim(before + s + after) == s
  {
    assert before + s + after == before + (s + after);
    TrimLeftOf(before, s + after);
    TrimRightOf(s, after);
  }

  lemma {:induction false} TrimLeftSplits(s: string) returns (before: string)
    ensures AllSpaces(before) && s == before + TrimLeft(s)
  {
    before := "";
    if s != "" && IsSpace(s[0]) {
      before := TrimLeftSplits(s[1..]);
      before := [s[0]] + before;
    }
  }

  lemma {:induction false} TrimRightSplits(s: string) returns (after: string)
    ensures AllSpaces(after) && s == TrimRight(s) + after
  {
    after := "";
    if s != "" && IsSpace(s[|s| - 1]) {
      after := TrimRightSplits(s[..|s| - 1]);
      after := after + [s[|s| - 1]];
    }
  }

  lemma TrimSplits(s: string) returns (before: string, after: string)
    ensures AllSpaces(before) && AllSpaces(after) && s == before + Trim(s) + after
  {
    before := TrimLeftSplits(s);
    after := TrimRightSplits(TrimLeft(s));
  }

  lemma SpacedPage(before: string, text: string, after: string, n: nat)
    requires AllSpaces(before) && AllSpaces(after) && DenotesPage(text, n)
    ensures DenotesPage(before + text + after, n)
  {
    var b, sign, digits, a :| IsPageText(text, n, b, sign, digits, a);
    assert IsPageText(before + text + after, n, before + b, sign, digits, a + after);
  }

  lemma ParsedPageIsDenoted(text: string, n: nat)
    requires ParsePage(text) == Some(n)
    ensures DenotesPage(text, n)
  {
    hide Value, Trim, IsSpace, IsDigit;
    var before, after := TrimSplits(text);
    var t := Trim(text);
    var digits := if t[0] == '+' || t[0] == '-' then t[1..] else t;
    if t[0] == '+' {
      assert before + "+" + digits + after == before + t + after;
      assert IsPageText(text, n, before, "+", digits, after);
    } else {
      assert IsPageText(text, n, before, "", digits, after);
    }
  }

  lemma PageTextIsParsed(text: string, n: nat, before: string, sign: string, digits: string, after: string)
    requires 1 <= n <= MAX_PAGE && IsPageText(text, n, before, sign, digits, after)
    ensures Trim(text) == sign + digits && ParsePage(text) == Some(n)
  {
    var t := sign + digits;
    assert text == before + t + after;
    TrimOf(before, t, after);
    hide Value, Trim, IsSpace;
    assert sign == "+" ==> t[1..] == digits;
    assert sign == "" ==> t == digits;
  }

  /** Exactly these texts are page numbers. */
  lemma PageIffDenoted(text: string, n: nat)
    ensures ParsePage(text) == Some(n) <==> DenotesPage(text, n)
  {
    hide ParsePage, IsPageText;
    if ParsePage(text) == Some(n) { ParsedPageIsDenoted(text, n); }
    if DenotesPage(text, n) {
      var before, sign, digits, after :| IsPageText(text, n, before, sign, digits, after);
      PageTextIsParsed(text, n, before, sign, digits, after);
    }
  }

  lemma PageTextIsPlain(text: string, n: nat)
    requires DenotesPage(text, n)
    ensures '-' !in text && ',' !in text && text != ""
  {
  }

  /** The text of a page, as far as trimming a pair of pages leaves it. */
  lemma PairIsTrimmed(a: string, b: string, m: nat, n: nat) returns (x: string, y: string)
    requires DenotesPage(a, m) && DenotesPage(b, n)
    ensures Trim(a + "-" + b) == x + "-" + y && DenotesPage(x, m) && DenotesPage(y, n)
  {
    var before, sign, digits, inner :| IsPageText(a, m, before, sign, digits, inner);
    var inner', sign', digits', after :| IsPageText(b, n, inner', sign', digits', after);
    x, y := sign + digits + inner, inner' + sign' + digits';
    assert IsPageText(x, m, "", sign, digits, inner) && IsPageText(y, n, inner', sign', digits', "");
    var t := x + "-" + y;
    assert a + "-" + b == before + t + after;
    assert t[0] == (sign + digits)[0] && t[|t| - 1] == digits'[|digits'| - 1];
    hide Value;
    TrimOf(before, t, after);
  }

  lemma PairIsParsed(a: string, b: string, r: Range)
    requires DenotesPage(a, r.first) && DenotesPage(b, r.last) && r.first <= r.last
    ensures ParseRange(a + "-" + b) == Some(r)
  {
    var x, y := PairIsTrimmed(a, b, r.first, r.last);
    PageTextIsPlain(x, r.first);
    PageTextIsPlain(y, r.last);
    PageIffDenoted(x, r.first);
    PageIffDenoted(y, r.last);
    hide ParsePage, DenotesPage;
    SplitOfPart(x, y, '-');
    SplitOfPart(y, "", '-');
  }

  lemma OnePageIsParsed(token: string, n: nat)
    requires DenotesPage(token, n)
    ensures ParseRange(token) == Some(Range(n, n))
  {
    var before, sign, digits, after :| IsPageText(token, n, before, sign, digits, after);
    var t := sign + digits;
    PageTextIsParsed(token, n, before, sign, digits, after);
    assert IsPageText(t, n, "", sign, digits, "");
    hide Value, IsPageText, ParsePage, Trim;
    PageTextIsPlain(t, n);
    PageIffDenoted(t, n);
    SplitOfPart(t, "", '-');
  }

  lemma ParsedRangeIsDenoted(token: string, r: Range)
    requires ParseRange(token) == Some(r)
    ensures DenotesRange(token, r)
  {
    hide ParsePage, DenotesPage;
    var t := Trim(token);
    var parts := Split(t, '-');
    var before, after := TrimSplits(token);
    hide Trim;
    JoinOfSplit(t, '-');
    PageIffDenoted(parts[0], r.first);
    if |parts| == 1 {
      SpacedPage(before, t, after, r.first);
    } else {
      PageIffDenoted(parts[1], r.last);
      SpacedPage(before, parts[0], "", r.first);
      SpacedPage("", parts[1], after, r.last);
      var a, b := before + parts[0] + "", "" + parts[1] + after;
      hide Split, AllSpaces;
      assert t == parts[0] + "-" + parts[1];
      assert token == a + "-" + b;
    }
  }

  /** Exactly these tokens are ranges. */
  lemma RangeIffDenoted(token: string, r: Range)
    ensures ParseRange(token) == Some(r) <==> DenotesRange(token, r)
  {
    hide ParseRange, DenotesPage;
    if ParseRange(token) == Some(r) { ParsedRangeIsDenoted(token, r); }
    if DenotesRange(token, r) {
      if a, b :| token == a + "-" + b && DenotesPage(a, r.first) && DenotesPage(b, r.last) && r.first <= r.last {
        PairIsParsed(a, b, r);
      } else {
        OnePageIsParsed(token, r.first);
      }
    }
  }

  lemma RangeTokenIsPlain(token: string, r: Range)
    requires DenotesRange(token, r)
    ensures ',' !in token && token != ""
  {
    hide DenotesPage;
    if a, b :| token == a + "-" + b && DenotesPage(a, r.first) && DenotesPage(b, r.last) {
      PageTextIsPlain(a, r.first);
      PageTextIsPlain(b, r.last);
    } else {
      PageTextIsPlain(token, r.first);
    }
  }

  lemma {:induction false} RangesIffEach(tokens: seq<string>, ranges: seq<Range>)
    ensures ParseRanges(tokens) == Some(ranges) <==>
      |tokens| == |ranges| && forall i :: 0 <= i < |ranges| ==> ParseRange(tokens[i]) == Some(ranges[i])
  {
    hide ParseRange;
    if tokens != [] {
      var n := |tokens| - 1;
      if |ranges| == |tokens| {
        RangesIffEach(tokens[..n], ranges[..n]);
        assert ranges == ranges[..n] + [ranges[n]];
      } else if ParseRanges(tokens) == Some(ranges) {
        RangesIffEach(tokens[..n], ParseRanges(tokens[..n]).value);
        assert false;
      }
    }
  }

  /** Exactly these texts, within the bounds, are lists of ranges. */
  lemma IntervalsIffDenoted(text: string, ranges: seq<Range>)
    requires ranges != []
    ensures Intervals(text) == Some(ranges) <==>
      ByteLength(Trim(text)) <= MAX_LENGTH && |ranges| <= MAX_RANGES && DenotesRanges(Trim(text), ranges)
  {
    var trimmed := Trim(text);
    var tokens := Split(trimmed, ',');
    hide Trim, ByteLength, DenotesRange, ParseRange, ParseRanges, Split;
    JoinOfSplit(trimmed, ',');
    RangesIffEach(tokens, ranges);
    forall i | 0 <= i < |tokens| && i < |ranges|
      ensures ParseRange(tokens[i]) == Some(ranges[i]) <==> DenotesRange(tokens[i], ranges[i])
    {
      RangeIffDenoted(tokens[i], ranges[i]);
    }
    if DenotesRanges(trimmed, ranges) {
      var parts :| |parts| == |ranges| > 0 && trimmed == Join(parts, ',') &&
        forall i :: 0 <= i < |ranges| ==> DenotesRange(parts[i], ranges[i]);
      forall i | 0 <= i < |parts|
        ensures ',' !in parts[i]
      {
        RangeTokenIsPlain(parts[i], ranges[i]);
      }
      SplitOfJoin(parts, ',');
      RangeTokenIsPlain(parts[0], ranges[0]);
      assert trimmed != "";
    }
  }

  // ---------------------------------------------------------------------
  // The second acceptor
  // ---------------------------------------------------------------------

  /** UTF-16 units, the length of a JavaScript string. */
  function Utf16Length(s: string): nat {
    if s == "" then 0 else Utf16Length(s[..|s| - 1]) + if s[|s| - 1] < '\U{10000}' then 1 else 2
  }

  function DigitsBefore(s: string): nat {
    if s != "" && IsDigit(s[0]) then 1 + DigitsBefore(s[1..]) else 0
  }

  lemma {:induction false} DigitsBeforeAre(s: string)
    ensures DigitsBefore(s) <= |s| && AllDigits(s[..DigitsBefore(s)])
    ensures DigitsBefore(s) < |s| ==> !IsDigit(s[DigitsBefore(s)])
  {
    if s != "" && IsDigit(s[0]) {
      DigitsBeforeAre(s[1..]);
      assert s[..DigitsBefore(s)] == [s[0]] + s[1..][..DigitsBefore(s) - 1];
    } else {
      assert s[..0] == "";
    }
  }

  lemma {:induction false} DigitsBeforeDash(digits: string, rest: string)
    requires AllDigits(digits) && (rest == "" || !IsDigit(rest[0]))
    ensures DigitsBefore(digits + rest) == |digits|
  {
    if digits == "" {
      assert digits + rest == rest;
    } else {
      DigitsBeforeDash(digits[1..], rest);
      assert (digits + rest)[1..] == digits[1..] + rest;
    }
  }

  /** A token against `^(\d+)(?:\s*-\s*(\d+))?$`: the two numbers. */
  function MatchToken(t: string): Option<Range> {
    DigitsBeforeAre(t);
    var k := DigitsBefore(t);
    if k == 0 then None
    else if k == |t| then Some(Range(Value(t), Value(t)))
    else
      var dash := TrimStart(t[k..]);
      if dash == "" || dash[0] != '-' then None
      else
        var second := TrimStart(dash[1..]);
        if second == "" || !AllDigits(second) then None else Some(Range(Value(t[..k]), Value(second)))
  }

  function AcceptedRange(token: string): Option<Range> {
    var r := MatchToken(JSTrim(token));
    if r.None? || r.value.first < 1 || r.value.last < r.value.first || MAX_PAGE < r.value.last then None else r
  }

  /** `validatePageRanges` of the extension, and the intervals it lets through. */
  function AcceptedIntervals(text: string): Option<seq<Range>> {
    if text == "" then Some([])
    else if MAX_LENGTH < Utf16Length(text) || MAX_RANGES < |Split(text, ',')| then None
    else AcceptedRanges(Split(text, ','))
  }

  function AcceptedRanges(tokens: seq<string>): Option<seq<Range>> {
    if tokens == [] then Some([])
    else
      var rest := AcceptedRanges(tokens[..|tokens| - 1]);
      var r := AcceptedRange(tokens[|tokens| - 1]);
      if rest.None? || r.None? then None else Some(rest.value + [r.value])
  }

  // ---------------------------------------------------------------------
  // What is printed
  // ---------------------------------------------------------------------

  predicate IsPlain(c: char) {
    IsDigit(c) || c == '-' || c == ','
  }

  predicate AllPlain(s: string) {
    forall i :: 0 <= i < |s| ==> IsPlain(s[i])
  }

  lemma PlainIsTrimmed(s: string)
    requires AllPlain(s)
    ensures Trim(s) == s && JSTrim(s) == s && TrimStart(s) == s
  {
  }

  lemma {:induction false} PlainLengths(s: string)
    requires AllPlain(s)
    ensures ByteLength(s) == |s| == Utf16Length(s)
  {
    if s != "" { PlainLengths(s[..|s| - 1]); }
  }

  lemma {:induction false} CharactersAreBytes(s: string)
    ensures |s| <= ByteLength(s)
  {
    if s != "" { CharactersAreBytes(s[..|s| - 1]); }
  }

  lemma RangeTextIsPlain(r: Range)
    ensures AllPlain(RangeText(r)) && ',' !in RangeText(r) && RangeText(r) != ""
  {
    ItoaIsDecimal(r.first);
    ItoaIsDecimal(r.last);
  }

  lemma PageOfItoa(n: nat)
    requires 1 <= n <= MAX_PAGE
    ensures ParsePage(Itoa(n)) == Some(n) && '-' !in Itoa(n)
  {
    ItoaIsDecimal(n);
    PlainIsTrimmed(Itoa(n));
  }

  /** Both acceptors read a printed range as the range. */
  lemma RangeIsReadBack(r: Range)
    requires ValidRange(r)
    ensures ParseRange(RangeText(r)) == Some(r) && AcceptedRange(RangeText(r)) == Some(r)
  {
    RangeTextIsPlain(r);
    PlainIsTrimmed(RangeText(r));
    PageOfItoa(r.first);
    PageOfItoa(r.last);
    SplitOfPart(Itoa(r.first), Itoa(r.last), '-');
    SplitOfPart(Itoa(r.last), "", '-');
    MatchIsReadBack(r);
  }

  lemma MatchIsReadBack(r: Range)
    ensures MatchToken(RangeText(r)) == Some(r)
  {
    var a, b := Itoa(r.first), Itoa(r.last);
    ItoaIsDecimal(r.first);
    ItoaIsDecimal(r.last);
    hide Itoa, Value, DigitsBefore;
    var t := RangeText(r);
    DigitsBeforeAre(t);
    var k := DigitsBefore(t);
    if r.first == r.last {
      DigitsBeforeDash(a, "");
      assert a + "" == a && t[..|t|] == t;
    } else {
      DigitsBeforeDash(a, "-" + b);
      assert t == a + ("-" + b);
      assert t[..k] == a && t[k..] == "-" + b;
      assert ("-" + b)[1..] == b;
    }
  }

  lemma NumeralIsNoLonger(text: string)
    requires ParsePage(text).Some?
    ensures |Itoa(ParsePage(text).value)| <= |text|
  {
    var t := Trim(text);
    TrimIsNoLonger(text);
    ItoaIsShortest(if t[0] == '+' || t[0] == '-' then t[1..] else t);
  }

  lemma {:induction false} TrimIsNoLonger(s: string)
    ensures |Trim(s)| <= |s|
  {
    TrimLeftIsNoLonger(s);
    TrimRightKeepsStart(TrimLeft(s));
  }

  lemma {:induction false} TrimLeftIsNoLonger(s: string)
    ensures |TrimLeft(s)| <= |s|
  {
    if s != "" && IsSpace(s[0]) { TrimLeftIsNoLonger(s[1..]); }
  }

  /** A range prints no longer than the token it was read from. */
  lemma RangeIsNoLonger(token: string)
    requires ParseRange(token).Some?
    ensures ValidRange(ParseRange(token).value) && |RangeText(ParseRange(token).value)| <= |token|
  {
    var t := Trim(token);
    var parts := Split(t, '-');
    TrimIsNoLonger(token);
    JoinOfSplit(t, '-');
    NumeralIsNoLonger(parts[0]);
    if |parts| == 2 {
      NumeralIsNoLonger(parts[1]);
      assert |t| == |parts[0]| + 1 + |parts[1]|;
    }
  }

  lemma {:induction false} ParsedRanges(tokens: seq<string>)
    requires ParseRanges(tokens).Some?
    ensures var ranges := ParseRanges(tokens).value;
      |ranges| == |tokens| &&
      forall i :: 0 <= i < |ranges| ==> ValidRange(ranges[i]) && |RangeText(ranges[i])| <= |tokens[i]|
  {
    hide ParseRange, RangeText, ValidRange;
    if tokens != [] {
      ParsedRanges(tokens[..|tokens| - 1]);
      RangeIsNoLonger(tokens[|tokens| - 1]);
    }
  }

  lemma {:induction false} RangesAreReadBack(ranges: seq<Range>)
    requires forall i :: 0 <= i < |ranges| ==> ValidRange(ranges[i])
    ensures ParseRanges(RangeTexts(ranges)) == Some(ranges) && AcceptedRanges(RangeTexts(ranges)) == Some(ranges)
  {
    hide ParseRange, AcceptedRange, RangeText, ValidRange;
    if ranges != [] {
      var init, last := ranges[..|ranges| - 1], ranges[|ranges| - 1];
      RangesAreReadBack(init);
      RangeIsReadBack(last);
      assert RangeTexts(ranges)[..|ranges| - 1] == RangeTexts(init);
      assert ranges == init + [last];
    }
  }

  lemma {:induction false} JoinIsPlain(parts: seq<string>)
    requires parts != [] && forall i :: 0 <= i < |parts| ==> AllPlain(parts[i]) && parts[i] != ""
    ensures AllPlain(Join(parts, ',')) && Join(parts, ',') != ""
  {
    if |parts| > 1 { JoinIsPlain(parts[1..]); }
  }

  /** Normalization keeps the list of page intervals, in order; its output is no longer
      than the trimmed input, in characters and in bytes; and both acceptors read the
      output as the same intervals.  So normalizing again changes nothing. */
  lemma NormalizationKeepsIntervals(text: string)
    requires Intervals(text).Some?
    ensures var out := Printed(Intervals(text).value);
      && |out| <= |Trim(text)| && ByteLength(out) <= ByteLength(Trim(text))
      && Intervals(out) == Intervals(text)
      && AcceptedIntervals(out) == Intervals(text)
  {
    var trimmed := Trim(text);
    var ranges := Intervals(text).value;
    if trimmed != "" {
      var tokens := Split(trimmed, ',');
      var out := Printed(ranges);
      hide Printed, Split, Trim, ParseRanges, AcceptedRanges, ByteLength, Utf16Length, ValidRange, RangeTexts, Join;
      ParsedRanges(tokens);
      PrintedIsNoLonger(tokens, ranges);
      JoinOfSplit(trimmed, ',');
      PrintedIsReadBack(ranges);
      CharactersAreBytes(trimmed);
      assert |RangeTexts(ranges)| == |ranges| by { TextsOfRanges(ranges); }
    }
  }

  lemma TextsOfRanges(ranges: seq<Range>)
    ensures |RangeTexts(ranges)| == |ranges|
  {
  }

  lemma PrintedIsNoLonger(tokens: seq<string>, ranges: seq<Range>)
    requires |tokens| == |ranges| > 0 && forall i :: 0 <= i < |ranges| ==> |RangeText(ranges[i])| <= |tokens[i]|
    ensures |Printed(ranges)| <= |Join(tokens, ',')|
  {
    hide RangeText, Join;
    ShorterPartsJoinShorter(RangeTexts(ranges), tokens, ',');
  }

  lemma PrintedIsReadBack(ranges: seq<Range>)
    requires ranges != [] && forall i :: 0 <= i < |ranges| ==> ValidRange(ranges[i])
    ensures var out := Printed(ranges);
      && out != "" && Trim(out) == out && ByteLength(out) == |out| == Utf16Length(out)
      && Split(out, ',') == RangeTexts(ranges)
      && ParseRanges(Split(out, ',')) == Some(ranges) && AcceptedRanges(Split(out, ',')) == Some(ranges)
  {
    var texts := RangeTexts(ranges);
    forall i | 0 <= i < |texts|
      ensures AllPlain(texts[i]) && ',' !in texts[i] && texts[i] != ""
    {
      RangeTextIsPlain(ranges[i]);
    }
    JoinIsPlain(texts);
    PlainIsTrimmed(Join(texts, ','));
    PlainLengths(Join(texts, ','));
    SplitOfJoin(texts, ',');
    RangesAreReadBack(ranges);
  }

  /** Normalizing a second time: accepted, and unchanged. */
  method NormalizeTwice(text: string) returns (once: Option<string>, twice: Option<string>)
    ensures once.Some? ==> twice == once
    ensures once.Some? ==> AcceptedIntervals(once.value) == Intervals(text)
  {
    once := NormalizePageRanges(text);
    twice := once;
    if once.Some? {
      NormalizationKeepsIntervals(text);
      twice := NormalizePageRanges(once.value);
    }
  }
}
