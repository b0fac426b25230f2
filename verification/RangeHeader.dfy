/**
 * Range requests in the explicit first-last form of section 14.1.2 of RFC 9110: what the client
 * writes (internal/share/api/client.go) and what the server reads
 * (internal/adapter/httpserver/secret_handler.go).
 */
module RangeHeader {
  import opened Bytes

  const MAX_RANGE_BYTES := 128 * 1024 * 1024

  datatype RangeError = MissingHeader | MalformedHeader | OutOfBounds

  // ------------------------------------------------------ strings

  function IndexOf(s: string, c: char): (i: nat)
    ensures i <= |s|
    ensures i < |s| ==> s[i] == c
    ensures c !in s[..i]
  {
    if s == "" || s[0] == c then 0
    else
      var i := 1 + IndexOf(s[1..], c);
      assert s[..i] == [s[0]] + s[1..][..i - 1];
      i
  }

  /** strings.Cut at the first separator. */
  function Cut(s: string, sep: char): Option<(string, string)> {
    var i := IndexOf(s, sep);
    if i == |s| then None else Some((s[..i], s[i + 1..]))
  }

  lemma {:induction false} FirstSeparator(before: string, sep: char, after: string)
    requires sep !in before
    ensures IndexOf(before + [sep] + after, sep) == |before|
  {
    if before != "" {
      FirstSeparator(before[1..], sep, after);
      assert (before + [sep] + after)[1..] == before[1..] + [sep] + after;
    }
  }

  lemma CutAt(before: string, sep: char, after: string)
    requires sep !in before
    ensures Cut(before + [sep] + after, sep) == Some((before, after))
  {
    var s := before + [sep] + after;
    FirstSeparator(before, sep, after);
    assert s[..|before|] == before && s[|before| + 1..] == after;
  }

  predicate IsDigit(c: char) {
    '0' <= c <= '9'
  }

  function DigitChar(d: nat): (c: char)
    requires d < 10
    ensures IsDigit(c) && c as int == '0' as int + d
  {
    ('0' as int + d) as char
  }

  function Digits(n: nat): (s: string)
    ensures |s| >= 1 && forall i :: 0 <= i < |s| ==> IsDigit(s[i])
  {
    if n < 10 then [DigitChar(n)] else Digits(n / 10) + [DigitChar(n % 10)]
  }

  function DigitsValue(s: string): Option<nat> {
    if s == "" then None
    else
      var last := s[|s| - 1];
      if !IsDigit(last) then None
      else
        var d := last as int - '0' as int;
        if |s| == 1 then Some(d)
        else
          match DigitsValue(s[..|s| - 1])
          case None => None
          case Some(high) => Some(10 * high + d)
  }

  lemma {:induction false} DigitsRoundTrip(n: nat)
    ensures DigitsValue(Digits(n)) == Some(n)
  {
    if n >= 10 {
      DigitsRoundTrip(n / 10);
      var s := Digits(n);
      assert s[..|s| - 1] == Digits(n / 10);
    }
  }

  /** fmt's %d */
  function FormatInt(n: Int64): string {
    if n < 0 then "-" + Digits(0 - n) else Digits(n)
  }

  /** strconv.ParseInt in base 10 for 64 bits: an optional sign, digits, and a value that fits. */
  function ParseInt(s: string): (r: Option<Int64>) {
    var negative := s != "" && s[0] == '-';
    var body := if s != "" && (s[0] == '-' || s[0] == '+') then s[1..] else s;
    match DigitsValue(body)
    case None => None
    case Some(magnitude) =>
      if negative then (if magnitude <= MAX_INT64 + 1 then Some(0 - magnitude) else None)
      else if magnitude <= MAX_INT64 then Some(magnitude) else None
  }

  lemma ParseIntInverts(n: Int64)
    ensures ParseInt(FormatInt(n)) == Some(n)
  {
    DigitsRoundTrip(if n < 0 then 0 - n else n);
    if n < 0 {
      assert FormatInt(n)[1..] == Digits(0 - n);
    }
  }

  // ------------------------------------------------------ the header

  function FormatRange(start: Int64, end: Int64): string {
    "bytes" + "=" + FormatSpan(start, end)
  }

  function ParseBoundedRange(header: string, size: Int64): Result<(Int64, Int64), RangeError> {
    if header == "" then Err(MissingHeader)
    else
      match Cut(header, '=')
      case None => Err(MalformedHeader)
      case Some((unit, span)) =>
        if unit != "bytes" || ',' in span then Err(MalformedHeader)
        else
          match Cut(span, '-')
          case None => Err(MalformedHeader)
          case Some((startText, endText)) =>
            if startText == "" || endText == "" then Err(MalformedHeader)
            else ParseBounds(ParseInt(startText), ParseInt(endText), size)
  }

  function ParseBounds(start: Option<Int64>, end: Option<Int64>, size: Int64): Result<(Int64, Int64), RangeError> {
    if start.None? || start.value < 0 then Err(MalformedHeader)
    else if end.None? || end.value < start.value then Err(MalformedHeader)
    else if size <= 0 || start.value >= size || end.value >= size then Err(OutOfBounds)
    else if end.value - start.value + 1 > MAX_RANGE_BYTES then Err(OutOfBounds)
    else Ok((start.value, end.value))
  }

  predicate Servable(start: int, end: int, size: int) {
    0 <= start <= end < size && end - start + 1 <= MAX_RANGE_BYTES
  }

  lemma OnlyServable(header: string, size: Int64)
    ensures var r := ParseBoundedRange(header, size); r.Ok? ==> Servable(r.value.0, r.value.1, size)
  {
  }

  // ------------------------------------------------------ which headers are read, and how

  /** s writes n in base 10, with k zeros in front. */
  predicate WritesAfter(s: string, n: nat, k: nat) {
    k + |Digits(n)| == |s| && s[k..] == Digits(n) && forall i :: 0 <= i < k ==> s[i] == '0'
  }

  ghost predicate Writes(s: string, n: nat) {
    exists k: nat :: WritesAfter(s, n, k)
  }

  lemma LastDigit(init: string, last: char, high: nat)
    requires IsDigit(last) && (if init == "" then high == 0 else Writes(init, high))
    ensures Writes(init + [last], 10 * high + (last as int - '0' as int))
  {
    var s, d := init + [last], last as int - '0' as int;
    if high == 0 {
      assert Digits(d) == [last] == s[|init|..];
      assert Digits(0) == "0";
      assert forall i :: 0 <= i < |init| ==> init[i] == '0';
      assert WritesAfter(s, d, |init|);
    } else {
      var k: nat :| WritesAfter(init, high, k);
      assert Digits(10 * high + d) == Digits(high) + [DigitChar(d)] == init[k..] + [last] == s[k..];
      assert WritesAfter(s, 10 * high + d, k);
    }
  }

  lemma {:induction false} ValueWrites(s: string)
    requires DigitsValue(s).Some?
    ensures Writes(s, DigitsValue(s).value)
  {
    var init, last := s[..|s| - 1], s[|s| - 1];
    assert s == init + [last];
    if init != "" {
      ValueWrites(init);
    }
    LastDigit(init, last, if init == "" then 0 else DigitsValue(init).value);
  }

  lemma {:induction false} WritesValue(s: string, n: nat, k: nat)
    requires WritesAfter(s, n, k)
    ensures DigitsValue(s) == Some(n) && forall i :: 0 <= i < |s| ==> IsDigit(s[i])
  {
    assert forall i :: k <= i < |s| ==> s[i] == s[k..][i - k];
    if n >= 10 || k > 0 {
      var init := s[..|s| - 1];
      DropLast(s, n, k);
      WritesValue(init, n / 10, if n >= 10 then k else k - 1);
    }
  }

  lemma DropLast(s: string, n: nat, k: nat)
    requires WritesAfter(s, n, k) && (n >= 10 || k > 0)
    ensures |s| > 1 && s[|s| - 1] == DigitChar(n % 10)
    ensures WritesAfter(s[..|s| - 1], n / 10, if n >= 10 then k else k - 1)
  {
    var init := s[..|s| - 1];
    assert s[|s| - 1] == s[k..][|s| - 1 - k];
    if n >= 10 {
      assert init[k..] == Digits(n)[..|Digits(n)| - 1] == Digits(n / 10);
    } else {
      assert init[k - 1..] == "0" == Digits(0);
    }
  }

  /** What an integer's text may be: an optional sign, zeros, and its digits. */
  ghost predicate Denotes(s: string, n: int) {
    || (n >= 0 && Writes(s, n))
    || (n >= 0 && s != "" && s[0] == '+' && Writes(s[1..], n))
    || (n <= 0 && s != "" && s[0] == '-' && Writes(s[1..], 0 - n))
  }

  lemma ParseIntExactly(s: string, n: Int64)
    ensures ParseInt(s) == Some(n) <==> Denotes(s, n)
  {
    var body := if s != "" && (s[0] == '-' || s[0] == '+') then s[1..] else s;
    ValueExactly(body, if n < 0 then 0 - n else n);
    if n >= 0 && Writes(s, n) {
      ValueExactly(s, n);
    }
  }

  lemma ValueExactly(s: string, n: nat)
    ensures DigitsValue(s) == Some(n) <==> Writes(s, n)
    ensures Writes(s, n) ==> s != "" && forall i :: 0 <= i < |s| ==> IsDigit(s[i])
  {
    if DigitsValue(s).Some? {
      ValueWrites(s);
    }
    if Writes(s, n) {
      var k: nat :| WritesAfter(s, n, k);
      WritesValue(s, n, k);
    }
  }

  /** The header names exactly these bounds. */
  ghost predicate Asks(header: string, start: Int64, end: Int64) {
    exists s, e :: AsksAs(header, s, start, e, end)
  }

  ghost predicate AsksAs(header: string, s: string, start: Int64, e: string, end: Int64) {
    header == "bytes=" + s + "-" + e && '-' !in s && Denotes(s, start) && Denotes(e, end)
  }

  lemma CutSplits(s: string, sep: char)
    ensures Cut(s, sep).Some? ==>
              var (before, after) := Cut(s, sep).value; sep !in before && s == before + [sep] + after
  {
  }

  lemma DenotesPlain(s: string, n: int)
    requires Denotes(s, n)
    ensures s != "" && ',' !in s
  {
    forall t: string, m: nat | Writes(t, m)
      ensures t != "" && ',' !in t
    {
      ValueExactly(t, m);
    }
  }

  lemma AskedIsRead(header: string, s: string, start: Int64, e: string, end: Int64, size: Int64)
    requires AsksAs(header, s, start, e, end)
    ensures ParseBoundedRange(header, size) == ParseBounds(Some(start), Some(end), size)
  {
    var span := s + "-" + e;
    DenotesPlain(s, start);
    DenotesPlain(e, end);
    assert header == "bytes" + ['='] + span;
    CutAt("bytes", '=', span);
    CutAt(s, '-', e);
    ParseIntExactly(s, start);
    ParseIntExactly(e, end);
    SpanRead(header, span, s, e, size);
  }

  lemma ReadSplits(header: string, size: Int64) returns (s: string, e: string)
    requires var r := ParseBoundedRange(header, size); r.Ok? || r == Err(OutOfBounds)
    ensures header == "bytes=" + s + "-" + e && '-' !in s
    ensures ParseInt(s).Some? && ParseInt(e).Some? && 0 <= ParseInt(s).value <= ParseInt(e).value
    ensures ParseBoundedRange(header, size) == ParseBounds(ParseInt(s), ParseInt(e), size)
  {
    CutSplits(header, '=');
    var span := Cut(header, '=').value.1;
    CutSplits(span, '-');
    s, e := Cut(span, '-').value.0, Cut(span, '-').value.1;
    HeaderText(s, e);
  }

  lemma HeaderText(s: string, e: string)
    ensures "bytes" + ['='] + (s + ['-'] + e) == "bytes=" + s + "-" + e
  {
  }

  lemma ReadIsAsked(header: string, size: Int64) returns (start: Int64, end: Int64)
    requires var r := ParseBoundedRange(header, size); r.Ok? || r == Err(OutOfBounds)
    ensures 0 <= start <= end && Asks(header, start, end)
    ensures ParseBoundedRange(header, size) == ParseBounds(Some(start), Some(end), size)
  {
    var s, e := ReadSplits(header, size);
    start, end := ParseInt(s).value, ParseInt(e).value;
    ParseIntExactly(s, start);
    ParseIntExactly(e, end);
    assert AsksAs(header, s, start, e, end);
  }

  lemma Unsigned(s: string, n: int)
    requires Denotes(s, n) && '-' !in s
    ensures n >= 0
  {
  }

  lemma AskedBounds(header: string, start: Int64, end: Int64, size: Int64)
    requires Asks(header, start, end)
    ensures 0 <= start && ParseBoundedRange(header, size) == ParseBounds(Some(start), Some(end), size)
  {
    var s, e :| AsksAs(header, s, start, e, end);
    AskedIsRead(header, s, start, e, end, size);
    Unsigned(s, start);
  }

  lemma BoundsExactly(start: Int64, end: Int64, size: Int64)
    requires 0 <= start
    ensures var r := ParseBounds(Some(start), Some(end), size);
            && (r.Ok? <==> Servable(start, end, size)) && (r.Ok? ==> r.value == (start, end))
            && (r == Err(OutOfBounds) <==> start <= end && !Servable(start, end, size))
            && r != Err(MissingHeader)
  {
  }

  /**
   * Every header: one range of bytes with plain bounds is served exactly when it is servable and is
   * out of bounds exactly when it is not; everything else is malformed.
   */
  lemma HeaderExactly(header: string, size: Int64, start: Int64, end: Int64)
    ensures var r := ParseBoundedRange(header, size);
            && (r == Ok((start, end)) <==> Asks(header, start, end) && Servable(start, end, size))
            && (r == Err(OutOfBounds) <==>
                exists a: Int64, b: Int64 :: a <= b && Asks(header, a, b) && !Servable(a, b, size))
            && (r == Err(MissingHeader) <==> header == "")
  {
    var r := ParseBoundedRange(header, size);
    if r.Ok? || r == Err(OutOfBounds) {
      var a, b := ReadIsAsked(header, size);
      BoundsExactly(a, b, size);
    }
    forall a: Int64, b: Int64 | Asks(header, a, b)
      ensures ParseBoundedRange(header, size) == Ok((a, b)) <==> Servable(a, b, size)
      ensures ParseBoundedRange(header, size) == Err(OutOfBounds) <==> a <= b && !Servable(a, b, size)
    {
      AskedBounds(header, a, b, size);
      BoundsExactly(a, b, size);
    }
  }

  lemma NoSpecials(n: Int64)
    ensures ',' !in FormatInt(n) && (n >= 0 ==> '-' !in FormatInt(n)) && FormatInt(n) != ""
  {
  }

  /** The server reads back exactly the servable ranges, and never other bounds than were written. */
  lemma RangeRoundTrip(start: Int64, end: Int64, size: Int64)
    ensures Servable(start, end, size) ==> ParseBoundedRange(FormatRange(start, end), size) == Ok((start, end))
    ensures !Servable(start, end, size) ==> ParseBoundedRange(FormatRange(start, end), size).Err?
  {
    if start >= 0 {
      BoundsRead(start, end, size);
    } else {
      HeaderSpan(start, end);
      NegativeSpan(start, end);
      EmptyStartRefused(FormatRange(start, end), FormatSpan(start, end), size);
    }
  }

  lemma BoundsRead(start: Int64, end: Int64, size: Int64)
    requires start >= 0
    ensures ParseBoundedRange(FormatRange(start, end), size) == ParseBounds(Some(start), Some(end), size)
  {
    HeaderSpan(start, end);
    SpanBounds(start, end);
    SpanRead(FormatRange(start, end), FormatSpan(start, end), FormatInt(start), FormatInt(end), size);
  }

  lemma SpanRead(header: string, span: string, startText: string, endText: string, size: Int64)
    requires header != "" && Cut(header, '=') == Some(("bytes", span)) && ',' !in span
    requires Cut(span, '-') == Some((startText, endText)) && startText != "" && endText != ""
    ensures ParseBoundedRange(header, size) == ParseBounds(ParseInt(startText), ParseInt(endText), size)
  {
  }

  lemma EmptyStartRefused(header: string, span: string, size: Int64)
    requires Cut(header, '=') == Some(("bytes", span)) && Cut(span, '-').Some? && Cut(span, '-').value.0 == ""
    ensures ParseBoundedRange(header, size).Err?
  {
  }

  function FormatSpan(start: Int64, end: Int64): string {
    FormatInt(start) + "-" + FormatInt(end)
  }

  lemma HeaderSpan(start: Int64, end: Int64)
    ensures Cut(FormatRange(start, end), '=') == Some(("bytes", FormatSpan(start, end)))
    ensures ',' !in FormatSpan(start, end)
  {
    CutAt("bytes", '=', FormatSpan(start, end));
    NoSpecials(start);
    NoSpecials(end);
  }

  lemma SpanBounds(start: Int64, end: Int64)
    requires start >= 0
    ensures Cut(FormatSpan(start, end), '-') == Some((FormatInt(start), FormatInt(end)))
    ensures FormatInt(start) != "" && FormatInt(end) != ""
    ensures ParseInt(FormatInt(start)) == Some(start) && ParseInt(FormatInt(end)) == Some(end)
  {
    NoSpecials(start);
    NoSpecials(end);
    CutAt(FormatInt(start), '-', FormatInt(end));
    ParseIntInverts(start);
    ParseIntInverts(end);
  }

  /** A leading minus sign leaves nothing before the first dash. */
  lemma NegativeSpan(start: Int64, end: Int64)
    requires start < 0
    ensures var cut := Cut(FormatSpan(start, end), '-'); cut.Some? && cut.value.0 == ""
  {
  }
}
