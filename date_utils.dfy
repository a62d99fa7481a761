/**
 * The dd/MM/yyyy date codec (src/utils/dateUtils.ts). Parsing follows the
 * date-fns pattern `dd/MM/yyyy`: one or two digits of day, '/', one or two
 * digits of month, '/', one to four digits of year, then nothing but
 * whitespace; the fields must name a real calendar day in a year after 0.
 */
module DateUtils {
  import opened Wrappers
  import opened JsText
  import opened Calendar

  /** Up to `max` leading digits of `s`, and the rest. */
  function TakeDigits(s: string, max: nat): (p: (string, string))
    ensures p.0 + p.1 == s && AllDigits(p.0) && |p.0| <= max
    ensures |p.0| < max && p.1 != [] ==> !IsDigit(p.1[0])
  {
    if max == 0 || s == [] || !IsDigit(s[0]) then ("", s)
    else
      var (d, r) := TakeDigits(s[1..], max - 1);
      assert [s[0]] + d + r == s;
      ([s[0]] + d, r)
  }

  /** A character of JavaScript's `\s` class: the white space and line terminators of ECMAScript. */
  predicate IsWhitespace(c: char)
  {
    || '\t' <= c <= '\r' || c == ' ' || c == '\U{00A0}' || c == '\U{1680}'
    || '\U{2000}' <= c <= '\U{200A}' || c == '\U{2028}' || c == '\U{2029}'
    || c == '\U{202F}' || c == '\U{205F}' || c == '\U{3000}' || c == '\U{FEFF}'
  }

  predicate AllWhitespace(s: string)
  {
    forall i :: 0 <= i < |s| ==> IsWhitespace(s[i])
  }

  /** The three digit fields of `dd/MM/yyyy` followed by nothing but whitespace. */
  function ParseFields(s: string): (f: Option<(string, string, string)>)
    ensures f.Some? ==> AllDigits(f.value.0) && 1 <= |f.value.0| <= 2
    ensures f.Some? ==> AllDigits(f.value.1) && 1 <= |f.value.1| <= 2
    ensures f.Some? ==> AllDigits(f.value.2) && 1 <= |f.value.2| <= 4
  {
    var p1 := TakeDigits(s, 2);
    if p1.0 == "" || !StartsWithSlash(p1.1) then None
    else
      var p2 := TakeDigits(p1.1[1..], 2);
      if p2.0 == "" || !StartsWithSlash(p2.1) then None
      else
        var p3 := TakeDigits(p2.1[1..], 4);
        if p3.0 == "" || !AllWhitespace(p3.1) then None
        else Some((p1.0, p2.0, p3.0))
  }

  predicate StartsWithSlash(s: string)
  {
    s != [] && s[0] == '/'
  }

  /** The date the three fields name, when it is a real day in a year after 0. */
  function DateOfFields(dd: string, mm: string, yy: string): (d: Option<CalDate>)
    requires AllDigits(dd) && AllDigits(mm) && AllDigits(yy) && |yy| <= 4
    ensures d.Some? ==> ValidDate(d.value) && 1 <= d.value.year <= 9999
  {
    DigitsValueBound(yy);
    var d := CalDate(DigitsValue(yy), DigitsValue(mm), DigitsValue(dd));
    if d.year >= 1 && ValidDate(d) then Some(d) else None
  }

  /** `parseDate`: the calendar day named by `s`, or None (never an exception). */
  function ParseDate(s: string): (d: Option<CalDate>)
    ensures d.Some? ==> ValidDate(d.value) && 1 <= d.value.year <= 9999
  {
    match ParseFields(s)
    case None => None
    case Some((dd, mm, yy)) => DateOfFields(dd, mm, yy)
  }

  /** The fields `a`, `b`, `c` joined as `a/b/c`. */
  function Slashed(a: string, b: string, c: string): (s: string)
    ensures |s| == |a| + |b| + |c| + 2
  {
    a + ("/" + (b + ("/" + c)))
  }

  /** Splitting `a/b/c` on '/' gives back its three slash-free fields. */
  lemma SplitSlashed(a: string, b: string, c: string)
    requires '/' !in a && '/' !in b && '/' !in c
    ensures Split(Slashed(a, b, c), '/') == [a, b, c]
  {
    var rest := b + ['/'] + c;
    assert Slashed(a, b, c) == a + ['/'] + rest;
    SplitCons(a, '/', rest);
    SplitCons(b, '/', c);
    SplitNoSeparator(c, '/');
  }

  /** `formatDateString`: zero-padded dd/MM/yyyy (years past 9999 print in full). */
  function FormatDateString(d: CalDate): (s: string)
    requires ValidDate(d) && d.year >= 1
    ensures d.year <= 9999 ==> |s| == 10 && MatchesPattern(s)
    ensures d.year <= 9999 ==> ParseDate(s) == Some(d)
  {
    var s := Slashed(Pad2(d.day), Pad2(d.month), PadStart(NatToString(d.year), 4, '0'));
    if d.year <= 9999 then
      FormatParses(d);
      s
    else s
  }

  /** The shape `^\d{2}/\d{2}/\d{4}$`. */
  predicate MatchesPattern(s: string)
  {
    && |s| == 10
    && IsDigit(s[0]) && IsDigit(s[1]) && s[2] == '/'
    && IsDigit(s[3]) && IsDigit(s[4]) && s[5] == '/'
    && IsDigit(s[6]) && IsDigit(s[7]) && IsDigit(s[8]) && IsDigit(s[9])
  }

  /** `isValidDateString`: non-empty, exactly dd/MM/yyyy in shape, and a real date. */
  predicate IsValidDateString(s: string)
  {
    s != "" && MatchesPattern(s) && ParseDate(s).Some?
  }

  datatype DateRange = DateRange(fromDate: string, toDate: string)

  /**
   * `getDateRangeForPeriod(periodDays, baseDate)`: the window of `periodDays`
   * days ending on `baseDate`, both ends formatted dd/MM/yyyy.
   */
  function GetDateRangeForPeriod(periodDays: int, baseDate: CalDate): (r: DateRange)
    requires ValidDate(baseDate) && DayNumber(baseDate) >= 0 && Representable(DayNumber(baseDate))
    requires DayNumber(baseDate) - periodDays + 1 >= 0 && Representable(DayNumber(baseDate) - periodDays + 1)
    ensures baseDate.year <= 9999 ==> ParseDate(r.toDate) == Some(baseDate)
    ensures baseDate.year <= 9999 && periodDays >= 1 ==>
      && ParseDate(r.fromDate).Some?
      && DayNumber(ParseDate(r.fromDate).value) == DayNumber(baseDate) - (periodDays - 1)
  {
    var from := ShiftDays(baseDate, 1 - periodDays).value;
    YearOfDayNumber(from);
    YearOfDayNumber(baseDate);
    if periodDays >= 1 then
      YearsBefore(from, baseDate);
      DateRange(FormatDateString(from), FormatDateString(baseDate))
    else
      DateRange(FormatDateString(from), FormatDateString(baseDate))
  }

  // ---------------------------------------------------------------------
  // Proofs
  // ---------------------------------------------------------------------

  /** Day numbers from 0 on belong to years from 1 on. */
  lemma YearOfDayNumber(d: CalDate)
    requires ValidDate(d) && DayNumber(d) >= 0
    ensures d.year >= 1
  {
    if d.year < 1 {
      YearsOrdered(d.year, 1);
    }
  }

  /** An earlier day is in the same or an earlier year. */
  lemma YearsBefore(a: CalDate, b: CalDate)
    requires ValidDate(a) && ValidDate(b) && DayNumber(a) <= DayNumber(b)
    ensures a.year <= b.year
  {
    DayNumberOrder(b, a);
  }

  /** Taking exactly the digits of a field that is followed by a non-digit. */
  lemma TakeDigitsOf(d: string, rest: string, max: nat)
    requires AllDigits(d) && 1 <= |d| <= max
    requires |d| == max || rest == [] || !IsDigit(rest[0])
    ensures TakeDigits(d + rest, max) == (d, rest)
    decreases |d|
  {
    if |d| > 1 {
      assert (d + rest)[1..] == d[1..] + rest;
      TakeDigitsOf(d[1..], rest, max - 1);
      assert [d[0]] + d[1..] == d;
    } else {
      assert (d + rest)[1..] == rest;
      assert d == [d[0]];
    }
  }

  /** Reading the fields of `a/b/c` gives back `a`, `b` and `c`. */
  lemma ParseFieldsOf(a: string, b: string, c: string)
    requires AllDigits(a) && 1 <= |a| <= 2
    requires AllDigits(b) && 1 <= |b| <= 2
    requires AllDigits(c) && 1 <= |c| <= 4
    ensures ParseFields(Slashed(a, b, c)) == Some((a, b, c))
  {
    var r2 := "/" + c;
    var r1 := "/" + (b + r2);
    TakeDigitsOf(a, r1, 2);
    assert r1[1..] == b + r2;
    TakeDigitsOf(b, r2, 2);
    assert r2[1..] == c + "";
    TakeDigitsOf(c, "", 4);
    assert AllWhitespace("");
  }

  /** Two-, two- and four-digit fields joined by slashes have the strict shape. */
  lemma SlashedPattern(a: string, b: string, c: string)
    requires AllDigits(a) && AllDigits(b) && AllDigits(c)
    requires |a| == 2 && |b| == 2 && |c| == 4
    ensures MatchesPattern(Slashed(a, b, c))
  {
    var s := Slashed(a, b, c);
    assert s[0] == a[0] && s[1] == a[1] && s[2] == '/';
    assert s[3] == b[0] && s[4] == b[1] && s[5] == '/';
    assert s[6] == c[0] && s[7] == c[1] && s[8] == c[2] && s[9] == c[3];
  }

  /** The year printed with at least four digits reads back as the year. */
  lemma YearField(y: nat)
    requires y <= 9999
    ensures var c := PadStart(NatToString(y), 4, '0');
      AllDigits(c) && |c| == 4 && DigitsValue(c) == y
  {
    var t := NatToString(y);
    assert Pow10(4) == 10000;
    NatToStringLength(y, 4);
    var c := PadStart(t, 4, '0');
    assert c == seq(4 - |t|, _ => '0') + t;
    DigitsValueZeros(4 - |t|, t);
  }

  /** A formatted date in years 1..9999 has the strict shape and parses back to the date. */
  lemma FormatParses(d: CalDate)
    requires ValidDate(d) && 1 <= d.year <= 9999
    ensures var s := Slashed(Pad2(d.day), Pad2(d.month), PadStart(NatToString(d.year), 4, '0'));
      MatchesPattern(s) && ParseDate(s) == Some(d)
  {
    var a, b, c := Pad2(d.day), Pad2(d.month), PadStart(NatToString(d.year), 4, '0');
    ParsePad2(d.day);
    ParsePad2(d.month);
    YearField(d.year);
    assert DigitsValue(a) == d.day && DigitsValue(b) == d.month;
    SlashedPattern(a, b, c);
    ParseFieldsOf(a, b, c);
    assert DateOfFields(a, b, c) == Some(d);
  }

  /** Round trip: every string `isValidDateString` accepts formats back to itself. */
  lemma ParseFormatRoundTrip(s: string)
    requires IsValidDateString(s)
    ensures FormatDateString(ParseDate(s).value) == s
  {
    var a, b, c := s[0..2], s[3..5], s[6..10];
    PatternFields(s);
    ParseFieldsOf(a, b, c);
    FormatOfFields(ParseDate(s).value, a, b, c);
  }

  /** A string of the strict shape is its two-, two- and four-digit fields joined by slashes. */
  lemma PatternFields(s: string)
    requires MatchesPattern(s)
    ensures var a, b, c := s[0..2], s[3..5], s[6..10];
      && s == Slashed(a, b, c)
      && AllDigits(a) && AllDigits(b) && AllDigits(c)
  {
  }

  /** A date whose day, month and year are the values of the fields `a`, `b`, `c` formats as `a/b/c`. */
  lemma FormatOfFields(d: CalDate, a: string, b: string, c: string)
    requires ValidDate(d) && d.year >= 1
    requires AllDigits(a) && AllDigits(b) && AllDigits(c)
    requires |a| == 2 && |b| == 2 && |c| == 4
    requires d == CalDate(DigitsValue(c), DigitsValue(b), DigitsValue(a))
    ensures FormatDateString(d) == Slashed(a, b, c)
  {
    PadValueRoundTrip(a);
    PadValueRoundTrip(b);
    PadValueRoundTrip(c);
    assert FormatDateString(d) == Slashed(Pad2(d.day), Pad2(d.month), PadStart(NatToString(d.year), 4, '0'));
  }

  /** Round trip: every date in years 1..9999 parses back from its formatted string. */
  lemma FormatParseRoundTrip(d: CalDate)
    requires ValidDate(d) && 1 <= d.year <= 9999
    ensures IsValidDateString(FormatDateString(d))
    ensures ParseDate(FormatDateString(d)) == Some(d)
  {
  }

  /** The digit strings of the two example dates. */
  lemma ExampleFields()
    ensures AllDigits("19") && DigitsValue("19") == 19
    ensures AllDigits("31") && DigitsValue("31") == 31
    ensures AllDigits("04") && DigitsValue("04") == 4
    ensures AllDigits("02") && DigitsValue("02") == 2
    ensures AllDigits("2025") && DigitsValue("2025") == 2025
  {
    assert "19"[..1] == "1" && "31"[..1] == "3" && "04"[..1] == "0" && "02"[..1] == "0";
    assert "2025"[..3] == "202" && "202"[..2] == "20" && "20"[..1] == "2";
    assert "1"[..0] == "" && "3"[..0] == "" && "0"[..0] == "" && "2"[..0] == "";
  }

  /** The year 2025 prints as `2025`. */
  lemma YearText2025()
    ensures NatToString(2025) == "2025"
  {
    ExampleFields();
    assert Pow10(4) == 10000 by {
      assert Pow10(1) == 10 && Pow10(2) == 100 && Pow10(3) == 1000;
    }
    NatToStringLength(2025, 4);
    NatToStringFourDigits(2025);
    DigitsInjective(NatToString(2025), "2025");
  }

  /** 19 April 2025 is accepted. */
  lemma AcceptsRealDate()
    ensures IsValidDateString("19/04/2025")
    ensures ParseDate("19/04/2025") == Some(CalDate(2025, 4, 19))
  {
    ExampleFields();
    assert "19/04/2025" == Slashed("19", "04", "2025");
    FieldsAccepted("19", "04", "2025", CalDate(2025, 4, 19));
  }

  /** Two-, two- and four-digit fields naming a real date from year 1 on are accepted and parse to it. */
  lemma FieldsAccepted(a: string, b: string, c: string, d: CalDate)
    requires AllDigits(a) && AllDigits(b) && AllDigits(c)
    requires |a| == 2 && |b| == 2 && |c| == 4
    requires d == CalDate(DigitsValue(c), DigitsValue(b), DigitsValue(a))
    requires ValidDate(d) && d.year >= 1
    ensures IsValidDateString(Slashed(a, b, c)) && ParseDate(Slashed(a, b, c)) == Some(d)
  {
    SlashedPattern(a, b, c);
    ParseFieldsOf(a, b, c);
  }

  /** 31 February is rejected, and so is the empty string. */
  lemma RejectsImpossibleDate()
    ensures !IsValidDateString("31/02/2025")
    ensures ParseDate("31/02/2025") == None
    ensures !IsValidDateString("")
  {
    ExampleFields();
    assert "31/02/2025" == Slashed("31", "02", "2025");
    ParseFieldsOf("31", "02", "2025");
    assert DateOfFields("31", "02", "2025") == None;
  }

  /** A one-day window starts and ends on the base date; longer windows start before they end. */
  lemma PeriodRangeEnds(periodDays: int, baseDate: CalDate)
    requires ValidDate(baseDate) && baseDate.year <= 9999 && Representable(DayNumber(baseDate))
    requires DayNumber(baseDate) >= 0 && periodDays >= 1 && DayNumber(baseDate) - periodDays + 1 >= 0
    requires Representable(DayNumber(baseDate) - periodDays + 1)
    ensures var r := GetDateRangeForPeriod(periodDays, baseDate);
      && ParseDate(r.fromDate).Some? && ParseDate(r.toDate) == Some(baseDate)
      && DayNumber(ParseDate(r.fromDate).value) <= DayNumber(baseDate)
      && (periodDays == 1 <==> r.fromDate == r.toDate)
  {
    var from := ShiftDays(baseDate, 1 - periodDays).value;
    var r := GetDateRangeForPeriod(periodDays, baseDate);
    assert r == DateRange(FormatDateString(from), FormatDateString(baseDate));
    if periodDays == 1 {
      DayNumberInjective(from, baseDate);
    } else {
      assert ParseDate(r.fromDate) != ParseDate(r.toDate);
    }
  }
}
