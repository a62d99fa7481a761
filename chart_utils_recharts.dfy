/**
 * The time-series bucketer behind the Recharts bar chart
 * (src/utils/chartUtilsRecharts.ts): it picks day, week or month buckets from
 * the span of the rating dates, keys every rating as `DD/MM/YYYY`, `W<n>/YYYY`
 * or `MM/YYYY`, counts positive / neutral / negative per key, orders the keys
 * by a numeric sort key and labels them. "Now", which the source reads from
 * the clock, is a parameter.
 */
module ChartUtilsRecharts {
  import opened Wrappers
  import opened JsText
  import opened Calendar
  import opened Seqs
  import opened Records
  import opened Sorting
  import opened Types
  import opened DateUtils
  import opened Buckets

  // ---------------------------------------------------------------------
  // parseDate and formatDateKey
  // ---------------------------------------------------------------------

  /**
   * `parseDate`: `now` when the string has no '/', does not split into three
   * parts or has a part `Number` reads as NaN; otherwise
   * `new Date(year, month - 1, day)`, None standing for `Invalid Date`.
   */
  function ParseDate(s: string, now: CalDate): (d: Option<CalDate>)
    requires ValidDate(now) && Representable(DayNumber(now))
    ensures d.Some? ==> ValidDate(d.value) && Representable(DayNumber(d.value))
  {
    var p := Split(s, '/');
    if '/' !in s || |p| != 3 then Some(now)
    else DateOfParts(ToNumber(p[0]), ToNumber(p[1]), ToNumber(p[2]), now)
  }

  /** `new Date(year, month - 1, day)` from the numbers of the three parts; `now` when one is NaN. */
  function DateOfParts(day: Option<nat>, month: Option<nat>, year: Option<nat>, now: CalDate): (d: Option<CalDate>)
    requires ValidDate(now) && Representable(DayNumber(now))
    ensures d.Some? ==> ValidDate(d.value) && Representable(DayNumber(d.value))
  {
    if day.None? || month.None? || year.None? then Some(now)
    else MakeLocalDate(year.value, month.value - 1, day.value)
  }

  /** The approximate week number of `formatDateKey`, None when it comes out NaN (1 January out of range). */
  function WeekOfYear(d: CalDate): Option<int>
    requires ValidDate(d)
  {
    WeekAfter(d, MakeLocalDate(d.year, 0, 1))
  }

  /** ceil((days since `first` + weekday of `first` + 1) / 7), None when `first` is an invalid date. */
  function WeekAfter(d: CalDate, first: Option<CalDate>): Option<int>
    requires ValidDate(d) && (first.Some? ==> ValidDate(first.value))
  {
    match first
    case None => None
    case Some(f) => Some(CeilDiv7(DayNumber(d) - DayNumber(f) + Weekday(DayNumber(f)) + 1))
  }

  /** `MM/YYYY`. */
  function MonthKey(d: CalDate): string
    requires ValidDate(d)
  {
    Pad2(d.month) + ("/" + IntToString(d.year))
  }

  /** `W<n>/YYYY`, with `NaN` for an unrepresentable week number. */
  function WeekKey(d: CalDate): string
    requires ValidDate(d)
  {
    var w := match WeekOfYear(d) case None => "NaN" case Some(n) => IntToString(n);
    "W" + (w + ("/" + IntToString(d.year)))
  }

  /** `DD/MM/YYYY` (the year unpadded). */
  function DayKey(d: CalDate): string
    requires ValidDate(d)
  {
    Slashed(Pad2(d.day), Pad2(d.month), IntToString(d.year))
  }

  /** `formatDateKey`: the bucket key of a date at the given granularity. */
  function FormatDateKey(d: CalDate, groupBy: Granularity): string
    requires ValidDate(d)
  {
    match groupBy
    case Month => MonthKey(d)
    case Week => WeekKey(d)
    case Day => DayKey(d)
  }

  // ---------------------------------------------------------------------
  // groupRatingsByDate
  // ---------------------------------------------------------------------

  /** The key a rating is counted under; None when it is skipped (no '/' in its date, or `Invalid Date`). */
  function KeyOf(r: Rating, groupBy: Granularity, now: CalDate): Option<string>
    requires ValidDate(now) && Representable(DayNumber(now))
  {
    if r.date == "" || '/' !in r.date then None
    else
      match ParseDate(r.date, now)
      case None => None
      case Some(d) => Some(FormatDateKey(d, groupBy))
  }

  /** The (key, segment) entry a rating contributes: none or one. */
  function EntryOf(r: Rating, groupBy: Granularity, now: CalDate): seq<(string, Tone)>
    requires ValidDate(now) && Representable(DayNumber(now))
  {
    match KeyOf(r, groupBy, now)
    case None => []
    case Some(k) => [(k, ChartTone(r.rating))]
  }

  /** The entries of the ratings, in order. */
  function Entries(ratings: seq<Rating>, groupBy: Granularity, now: CalDate): (es: seq<(string, Tone)>)
    requires ValidDate(now) && Representable(DayNumber(now))
  {
    if ratings == [] then []
    else Entries(ratings[..|ratings| - 1], groupBy, now) + EntryOf(ratings[|ratings| - 1], groupBy, now)
  }

  /** `groupRatingsByDate`: walk the ratings, raising one counter of the bucket under each rating's key. */
  method GroupRatingsByDate(ratings: seq<Rating>, groupBy: Granularity, now: CalDate) returns (grouped: Rec<Counts>)
    requires ValidDate(now) && Representable(DayNumber(now))
    ensures grouped == Grouped(Entries(ratings, groupBy, now))
  {
    grouped := Empty();
    assert ratings[..0] == [];
    for i := 0 to |ratings|
      invariant grouped == Grouped(Entries(ratings[..i], groupBy, now))
    {
      var rating := ratings[i];
      if rating.date == "" || '/' !in rating.date {
        SkipStep(ratings, i, groupBy, now);
        continue;
      }
      var date := ParseDate(rating.date, now);
      if date.None? {
        SkipStep(ratings, i, groupBy, now);
        continue;
      }
      var key := FormatDateKey(date.value, groupBy);
      var bucket := if key in grouped.at then grouped.at[key] else Zero;
      ghost var start := bucket;
      assert start == BucketAt(grouped, key);
      if rating.rating > 3 {
        bucket := bucket.(positive := bucket.positive + 1);
      } else if rating.rating < -3 {
        bucket := bucket.(negative := bucket.negative + 1);
      } else {
        bucket := bucket.(neutral := bucket.neutral + 1);
      }
      BumpTone(start, rating.rating, bucket);
      KeptStep(ratings, i, groupBy, now, date.value);
      grouped := Put(grouped, key, bucket);
    }
    assert ratings[..|ratings|] == ratings;
  }

  /** A rating whose date parses raises one counter of the bucket under its key. */
  lemma KeptStep(ratings: seq<Rating>, i: nat, groupBy: Granularity, now: CalDate, d: CalDate)
    requires ValidDate(now) && Representable(DayNumber(now)) && i < |ratings|
    requires ratings[i].date != "" && '/' in ratings[i].date && ParseDate(ratings[i].date, now) == Some(d)
    ensures var g, key := Grouped(Entries(ratings[..i], groupBy, now)), FormatDateKey(d, groupBy);
      Grouped(Entries(ratings[..i + 1], groupBy, now)) == Put(g, key, Bump(BucketAt(g, key), ChartTone(ratings[i].rating)))
  {
    var key := FormatDateKey(d, groupBy);
    assert KeyOf(ratings[i], groupBy, now) == Some(key);
    CountStep(ratings, i, groupBy, now, key);
    GroupedSnoc(Entries(ratings[..i], groupBy, now), key, ChartTone(ratings[i].rating));
    AddIsPut(Grouped(Entries(ratings[..i], groupBy, now)), key, ChartTone(ratings[i].rating));
  }

  /** A skipped rating adds no entry. */
  lemma SkipStep(ratings: seq<Rating>, i: nat, groupBy: Granularity, now: CalDate)
    requires ValidDate(now) && Representable(DayNumber(now)) && i < |ratings|
    requires ratings[i].date == "" || '/' !in ratings[i].date || ParseDate(ratings[i].date, now).None?
    ensures Entries(ratings[..i + 1], groupBy, now) == Entries(ratings[..i], groupBy, now)
  {
    assert ratings[..i + 1][..i] == ratings[..i];
    assert EntryOf(ratings[i], groupBy, now) == [];
  }

  /** A rating counted under `key` adds one entry with that key and the rating's segment. */
  lemma CountStep(ratings: seq<Rating>, i: nat, groupBy: Granularity, now: CalDate, key: string)
    requires ValidDate(now) && Representable(DayNumber(now)) && i < |ratings|
    requires KeyOf(ratings[i], groupBy, now) == Some(key)
    ensures Entries(ratings[..i + 1], groupBy, now) == Entries(ratings[..i], groupBy, now) + [(key, ChartTone(ratings[i].rating))]
  {
    assert ratings[..i + 1][..i] == ratings[..i];
    assert EntryOf(ratings[i], groupBy, now) == [(key, ChartTone(ratings[i].rating))];
  }

  // ---------------------------------------------------------------------
  // formatDisplayLabel and getSortKey
  // ---------------------------------------------------------------------

  const MonthNames: seq<string> := ["Jan", "Feb", "Mar", "Apr", "May", "Jun", "Jul", "Aug", "Sep", "Oct", "Nov", "Dec"]

  /**
   * `formatDisplayLabel`: `Week <n>` for a key starting with 'W' (the text
   * between 'W' and the first '/'), `<Mon> <year>` for a two-part key
   * (`undefined` for a month outside 1..12), any other key unchanged.
   */
  function FormatDisplayLabel(s: string): string
  {
    if |s| > 0 && s[0] == 'W' then "Week " + Substring(s, 1, IndexOf(s, '/'))
    else
      var p := Split(s, '/');
      if |p| == 2 then
        var m := ParseSigned(p[0]);
        var name := if m.Some? && 1 <= m.value <= 12 then MonthNames[m.value - 1] else "undefined";
        name + (" " + p[1])
      else s
  }

  /**
   * `getSortKey`: year*10000 + week*7 for `W<n>/<y>`, year*100 + month for
   * `<m>/<y>`, year*10000 + month*100 + day for `<d>/<m>/<y>`, and 0 for any
   * key with a part `parseInt` cannot read or another number of parts.
   */
  function GetSortKey(s: string): int
  {
    if |s| > 0 && s[0] == 'W' then WeekPartsSortKey(Split(s[1..], '/'))
    else PartsSortKey(Split(s, '/'))
  }

  /** The sort key of the parts after the 'W' of a week key. */
  function WeekPartsSortKey(p: seq<string>): int
    requires |p| >= 1
  {
    var week := ParseSigned(p[0]);
    var year := if |p| > 1 then ParseSigned(p[1]) else None;
    if week.None? || year.None? then 0 else year.value * 10000 + week.value * 7
  }

  /** The sort key of the parts of a month or day key. */
  function PartsSortKey(p: seq<string>): int
  {
    if |p| == 2 then
      var month, year := ParseSigned(p[0]), ParseSigned(p[1]);
      if month.None? || year.None? then 0 else year.value * 100 + month.value
    else if |p| == 3 then
      var day, month, year := ParseSigned(p[0]), ParseSigned(p[1]), ParseSigned(p[2]);
      if day.None? || month.None? || year.None? then 0
      else year.value * 10000 + month.value * 100 + day.value
    else 0
  }

  /** The comparator `getSortKey(a) - getSortKey(b)`, read as "a may come before b". */
  function ByKey(): (string, string) -> bool
  {
    (a: string, b: string) => GetSortKey(a) <= GetSortKey(b)
  }

  // ---------------------------------------------------------------------
  // prepareBarChartData
  // ---------------------------------------------------------------------

  /** The dates the span is measured on: ratings whose date splits into three parts. */
  predicate HasThreeParts(r: Rating)
  {
    r.date != "" && '/' in r.date && |Split(r.date, '/')| == 3
  }

  /** The day numbers of the dates that parse, in order (`now` for those with a NaN part). */
  function DaysOf(ratings: seq<Rating>, now: CalDate): seq<int>
    requires ValidDate(now) && Representable(DayNumber(now))
  {
    if ratings == [] then []
    else
      var init := DaysOf(ratings[..|ratings| - 1], now);
      match ParseDate(ratings[|ratings| - 1].date, now)
      case None => init
      case Some(d) => init + [DayNumber(d)]
  }

  /** The day numbers whose span picks the granularity. */
  function SpanDays(ratings: seq<Rating>, now: CalDate): seq<int>
    requires ValidDate(now) && Representable(DayNumber(now))
  {
    DaysOf(Filter(ratings, HasThreeParts), now)
  }

  /** `Math.min(...s)`. */
  function MinOf(s: seq<int>): (m: int)
    requires s != []
    ensures m in s && forall x <- s :: m <= x
  {
    if |s| == 1 then s[0]
    else
      var init, last := s[..|s| - 1], s[|s| - 1];
      var m := MinOf(init);
      assert forall x <- s :: x in init || x == last;
      if last < m then last else m
  }

  /** `Math.max(...s)`. */
  function MaxOf(s: seq<int>): (m: int)
    requires s != []
    ensures m in s && forall x <- s :: x <= m
  {
    if |s| == 1 then s[0]
    else
      var init, last := s[..|s| - 1], s[|s| - 1];
      var m := MaxOf(init);
      assert forall x <- s :: x in init || x == last;
      if last > m then last else m
  }

  /** Days between the earliest and the latest of the dates. */
  function Span(days: seq<int>): int
    requires days != []
  {
    MaxOf(days) - MinOf(days)
  }

  /** One bar: its label, its three counts and the bucket key it came from. */
  datatype BarEntry = BarEntry(name: string, positive: nat, neutral: nat, negative: nat, originalKey: string)

  datatype BarChartResult = BarChartResult(data: seq<BarEntry>, groupingMode: Granularity)

  function OriginalKeys(data: seq<BarEntry>): (ks: seq<string>)
    ensures |ks| == |data|
    ensures forall i :: 0 <= i < |data| ==> ks[i] == data[i].originalKey
  {
    seq(|data|, i requires 0 <= i < |data| => data[i].originalKey)
  }

  /** The bars for `keys`, in that order, each with its bucket's counts and its display label. */
  function Bars(grouped: Rec<Counts>, keys: seq<string>): (data: seq<BarEntry>)
    requires forall k <- keys :: k in grouped.at
    ensures OriginalKeys(data) == keys
    ensures forall e <- data ::
              && e.originalKey in grouped.at
              && Counts(e.positive, e.neutral, e.negative) == grouped.at[e.originalKey]
              && e.name == FormatDisplayLabel(e.originalKey)
  {
    var data := seq(|keys|, i requires 0 <= i < |keys| =>
      var c := grouped.at[keys[i]];
      BarEntry(FormatDisplayLabel(keys[i]), c.positive, c.neutral, c.negative, keys[i]));
    assert OriginalKeys(data) == keys;
    data
  }

  /**
   * The granularity `prepareBarChartData` settles on: month over a span of
   * more than 60 days, week over more than 14, day otherwise and when no
   * date parses.
   */
  method ChooseGrouping(ratings: seq<Rating>, now: CalDate) returns (groupBy: Granularity)
    requires ValidDate(now) && Representable(DayNumber(now))
    ensures var days := SpanDays(ratings, now);
      && (groupBy == Month <==> days != [] && Span(days) > 60)
      && (groupBy == Week <==> days != [] && 14 < Span(days) <= 60)
      && (groupBy == Day <==> days == [] || Span(days) <= 14)
  {
    groupBy := Day;
    if |ratings| > 0 {
      var validRatings := Filter(ratings, HasThreeParts);
      if |validRatings| > 0 {
        var dates := DaysOf(validRatings, now);
        if |dates| > 0 {
          var minDate, maxDate := MinOf(dates), MaxOf(dates);
          var dateSpanDays := maxDate - minDate;
          if dateSpanDays > 60 {
            groupBy := Month;
          } else if dateSpanDays > 14 {
            groupBy := Week;
          }
        }
      } else {
        assert SpanDays(ratings, now) == [];
      }
    } else {
      assert Filter(ratings, HasThreeParts) == [];
    }
  }

  /**
   * `data` shows the buckets `g`: one bar per bucket, each bar with its
   * bucket's counts and display label, ordered by sort key.
   */
  predicate ShowsBuckets(g: Rec<Counts>, data: seq<BarEntry>)
  {
    && multiset(OriginalKeys(data)) == multiset(g.keys)
    && Distinct(OriginalKeys(data))
    && (forall e <- data ::
          && e.originalKey in g.at
          && Counts(e.positive, e.neutral, e.negative) == g.at[e.originalKey]
          && e.name == FormatDisplayLabel(e.originalKey))
    && SortedBy(OriginalKeys(data), ByKey())
  }

  /**
   * `prepareBarChartData`: the granularity from the span of the dates, then
   * one bar per bucket, ordered by sort key and labelled.
   */
  method PrepareBarChartData(ratings: seq<Rating>, now: CalDate) returns (result: BarChartResult)
    requires ValidDate(now) && Representable(DayNumber(now))
    ensures var days := SpanDays(ratings, now);
      && (result.groupingMode == Month <==> days != [] && Span(days) > 60)
      && (result.groupingMode == Week <==> days != [] && 14 < Span(days) <= 60)
      && (result.groupingMode == Day <==> days == [] || Span(days) <= 14)
    ensures ShowsBuckets(Grouped(Entries(ratings, result.groupingMode, now)), result.data)
  {
    var groupBy := ChooseGrouping(ratings, now);
    var groupedByDate := GroupRatingsByDate(ratings, groupBy, now);
    if |groupedByDate.keys| == 0 {
      assert ShowsBuckets(groupedByDate, []);
      return BarChartResult([], groupBy);
    }
    var sortedDates := SortBy(groupedByDate.keys, ByKey());
    SortedBars(groupedByDate);
    var chartData := Bars(groupedByDate, sortedDates);
    return BarChartResult(chartData, groupBy);
  }

  /** Sorting the bucket keys and mapping them to bars shows the buckets. */
  lemma SortedBars(g: Rec<Counts>)
    requires Valid(g)
    ensures forall k <- SortBy(g.keys, ByKey()) :: k in g.at
    ensures ShowsBuckets(g, Bars(g, SortBy(g.keys, ByKey())))
  {
    var sorted := SortBy(g.keys, ByKey());
    SortKeyOrder();
    SortBySorted(g.keys, ByKey());
    SortByElements(g.keys, ByKey());
    DistinctPermutation(g.keys, sorted);
  }

  /** The sort key comparator is a total preorder, so the sort is well defined. */
  lemma SortKeyOrder()
    ensures TotalPreorder(ByKey())
  {
  }

  // ---------------------------------------------------------------------
  // prepareUserDistributionData
  // ---------------------------------------------------------------------

  datatype NameValue = NameValue(name: string, value: nat)

  /** The comparator `distribution[b] - distribution[a]`: larger counts first. */
  function ByCountDescending(distribution: Rec<nat>): (string, string) -> bool
  {
    (a: string, b: string) => CountAt(distribution, b) <= CountAt(distribution, a)
  }

  /** `prepareUserDistributionData`: one entry per name, larger counts first, ties in key order. */
  function PrepareUserDistributionData(distribution: Rec<nat>): (chartData: seq<NameValue>)
    ensures |chartData| == |distribution.keys|
    ensures multiset(NamesIn(chartData)) == multiset(distribution.keys)
    ensures forall e <- chartData :: e.value == CountAt(distribution, e.name)
    ensures forall i, j :: 0 <= i < j < |chartData| ==> chartData[i].value >= chartData[j].value
  {
    var le := ByCountDescending(distribution);
    var sortedUsers := SortBy(distribution.keys, le);
    assert TotalPreorder(le);
    SortBySorted(distribution.keys, le);
    var chartData := seq(|sortedUsers|, i requires 0 <= i < |sortedUsers| =>
      NameValue(sortedUsers[i], CountAt(distribution, sortedUsers[i])));
    assert NamesIn(chartData) == sortedUsers;
    chartData
  }

  function NamesIn(data: seq<NameValue>): (ns: seq<string>)
    ensures |ns| == |data|
    ensures forall i :: 0 <= i < |data| ==> ns[i] == data[i].name
  {
    seq(|data|, i requires 0 <= i < |data| => data[i].name)
  }

  // ---------------------------------------------------------------------
  // Proofs
  // ---------------------------------------------------------------------

  /** A rating that gets a key: its date holds a '/' and parses. */
  predicate Processed(r: Rating, now: CalDate)
    requires ValidDate(now) && Representable(DayNumber(now))
  {
    r.date != "" && '/' in r.date && ParseDate(r.date, now).Some?
  }

  function ProcessedTest(now: CalDate): Rating -> bool
    requires ValidDate(now) && Representable(DayNumber(now))
  {
    (r: Rating) => Processed(r, now)
  }

  /** Ratings with an empty date or no '/' in it are skipped. */
  lemma NoSlashSkipped(r: Rating, groupBy: Granularity, now: CalDate)
    requires ValidDate(now) && Representable(DayNumber(now))
    requires r.date == "" || '/' !in r.date
    ensures EntryOf(r, groupBy, now) == []
  {
  }

  /** A date with a '/' that does not split into three numeric parts lands in today's bucket. */
  lemma MalformedDateIsToday(r: Rating, groupBy: Granularity, now: CalDate)
    requires ValidDate(now) && Representable(DayNumber(now))
    requires '/' in r.date
    requires |Split(r.date, '/')| != 3 || ToNumber(Split(r.date, '/')[0]).None?
      || ToNumber(Split(r.date, '/')[1]).None? || ToNumber(Split(r.date, '/')[2]).None?
    ensures KeyOf(r, groupBy, now) == Some(FormatDateKey(now, groupBy))
  {
  }

  /** Each processed rating contributes exactly one entry, under the segment `ChartTone` names. */
  lemma {:induction false} EntriesCount(ratings: seq<Rating>, groupBy: Granularity, now: CalDate)
    requires ValidDate(now) && Representable(DayNumber(now))
    ensures |Entries(ratings, groupBy, now)| == |Filter(ratings, ProcessedTest(now))|
  {
    if ratings != [] {
      var init := ratings[..|ratings| - 1];
      var r := ratings[|ratings| - 1];
      EntriesCount(init, groupBy, now);
      assert Processed(r, now) <==> KeyOf(r, groupBy, now).Some?;
    }
  }

  /** The bucket counts add up to the number of processed ratings. */
  lemma BucketTotal(ratings: seq<Rating>, groupBy: Granularity, now: CalDate)
    requires ValidDate(now) && Representable(DayNumber(now))
    ensures Total(Grouped(Entries(ratings, groupBy, now)), Size) == |Filter(ratings, ProcessedTest(now))|
  {
    GroupedTotal(Entries(ratings, groupBy, now));
    EntriesCount(ratings, groupBy, now);
  }

  /** From year 100 on, the week number of a key is the calendar's week number, 1..54. */
  lemma WeekOfYearIs(d: CalDate)
    requires ValidDate(d) && d.year >= 100 && Representable(DayNumber(d))
    ensures WeekOfYear(d) == Some(WeekNumber(d))
    ensures 1 <= WeekNumber(d) <= 54
  {
    JanFirstOf(d);
    MakeLocalDateOf(CalDate(d.year, 1, 1));
    WeekAfterJanFirst(d);
  }

  /** 1 January of a representable date's year, from year 100 on, is a representable date. */
  lemma JanFirstOf(d: CalDate)
    requires ValidDate(d) && d.year >= 100 && Representable(DayNumber(d))
    ensures ValidDate(CalDate(d.year, 1, 1)) && Representable(DayNumber(CalDate(d.year, 1, 1)))
  {
    if d.year > 100 {
      YearsOrdered(100, d.year);
    }
    assert DayNumber(CalDate(d.year, 1, 1)) <= DayNumber(d);
  }

  /** Counted from 1 January of its own year, the week formula is the calendar week number. */
  lemma WeekAfterJanFirst(d: CalDate)
    requires ValidDate(d)
    ensures WeekAfter(d, Some(CalDate(d.year, 1, 1))) == Some(WeekNumber(d))
  {
  }

  /** A day key is `DD/MM/Y` with zero-padded day and month. */
  lemma DayKeyFields(d: CalDate)
    requires ValidDate(d)
    ensures Split(DayKey(d), '/') == [Pad2(d.day), Pad2(d.month), IntToString(d.year)]
    ensures |Pad2(d.day)| == 2 && |Pad2(d.month)| == 2
    ensures AllDigits(Pad2(d.day)) && AllDigits(Pad2(d.month))
    ensures DayKey(d)[0] == Pad2(d.day)[0]
  {
    ParsePad2(d.day);
    ParsePad2(d.month);
    IntToStringChars(d.year);
    SplitSlashed(Pad2(d.day), Pad2(d.month), IntToString(d.year));
  }

  /** For four-digit years the day key is exactly the `dd/MM/yyyy` text of `formatDateString`. */
  lemma DayKeyIsFormatted(d: CalDate)
    requires ValidDate(d) && 1000 <= d.year
    ensures DayKey(d) == FormatDateString(d)
  {
    NatToStringFourDigits(d.year);
  }

  /** A month key is `MM/Y` with a zero-padded month. */
  lemma MonthKeyFields(d: CalDate)
    requires ValidDate(d)
    ensures Split(MonthKey(d), '/') == [Pad2(d.month), IntToString(d.year)]
    ensures |Pad2(d.month)| == 2 && AllDigits(Pad2(d.month))
    ensures MonthKey(d)[0] == Pad2(d.month)[0]
  {
    var m, y := Pad2(d.month), IntToString(d.year);
    ParsePad2(d.month);
    IntToStringChars(d.year);
    assert MonthKey(d) == m + ['/'] + y;
    SplitCons(m, '/', y);
    SplitNoSeparator(y, '/');
  }

  /** A week key is `W<n>/Y` with n the calendar's week number (years from 100 on). */
  lemma WeekKeyFields(d: CalDate)
    requires ValidDate(d) && d.year >= 100 && Representable(DayNumber(d))
    ensures WeekKey(d)[0] == 'W'
    ensures Split(WeekKey(d)[1..], '/') == [IntToString(WeekNumber(d)), IntToString(d.year)]
  {
    WeekKeyIs(d);
    IntToStringChars(WeekNumber(d));
    IntToStringChars(d.year);
    WeekTextSplits(IntToString(WeekNumber(d)), IntToString(d.year));
  }

  /** From year 100 on the week key holds the calendar's week number. */
  lemma WeekKeyIs(d: CalDate)
    requires ValidDate(d) && d.year >= 100 && Representable(DayNumber(d))
    ensures WeekKey(d) == "W" + (IntToString(WeekNumber(d)) + ("/" + IntToString(d.year)))
  {
    WeekOfYearIs(d);
  }

  /** `W<w>/<y>` with slash-free `w` and `y` splits, after the 'W', into `w` and `y`. */
  lemma WeekTextSplits(w: string, y: string)
    requires '/' !in w && '/' !in y
    ensures var s := "W" + (w + ("/" + y)); s[0] == 'W' && Split(s[1..], '/') == [w, y]
  {
    var s := "W" + (w + ("/" + y));
    assert s[1..] == w + ['/'] + y;
    SplitCons(w, '/', y);
    SplitNoSeparator(y, '/');
  }

  /** `W<w>/<y>` with a slash-free `w` is labelled `Week <w>`. */
  lemma WeekTextLabel(w: string, y: string)
    requires '/' !in w
    ensures FormatDisplayLabel("W" + (w + ("/" + y))) == "Week " + w
  {
    var s := "W" + (w + ("/" + y));
    assert s[..1 + |w|] == "W" + w;
    IndexOfFirst(s, '/', 1 + |w|);
    assert s[1..1 + |w|] == w;
  }

  /** The sort key of a day key is year*10000 + month*100 + day. */
  lemma DayKeySortKey(d: CalDate)
    requires ValidDate(d)
    ensures GetSortKey(DayKey(d)) == d.year * 10000 + d.month * 100 + d.day
  {
    DayKeyFields(d);
    ParsePad2(d.day);
    ParsePad2(d.month);
    ParseSignedInt(d.year);
    assert IsDigit(Pad2(d.day)[0]);
    SortKeyOfThree(DayKey(d), Pad2(d.day), Pad2(d.month), IntToString(d.year), d.day, d.month, d.year);
  }

  /** A key that does not start with 'W' and splits into three numbers sorts by (last, middle, first). */
  lemma SortKeyOfThree(s: string, a: string, b: string, c: string, x: int, y: int, z: int)
    requires |s| > 0 && s[0] != 'W' && Split(s, '/') == [a, b, c]
    requires ParseSigned(a) == Some(x) && ParseSigned(b) == Some(y) && ParseSigned(c) == Some(z)
    ensures GetSortKey(s) == z * 10000 + y * 100 + x
  {
    PartsSortKeyOfThree([a, b, c], x, y, z);
  }

  lemma PartsSortKeyOfThree(p: seq<string>, x: int, y: int, z: int)
    requires |p| == 3 && ParseSigned(p[0]) == Some(x) && ParseSigned(p[1]) == Some(y) && ParseSigned(p[2]) == Some(z)
    ensures PartsSortKey(p) == z * 10000 + y * 100 + x
  {
  }

  /** The sort key of a month key is year*100 + month. */
  lemma MonthKeySortKey(d: CalDate)
    requires ValidDate(d)
    ensures GetSortKey(MonthKey(d)) == d.year * 100 + d.month
  {
    MonthKeyFields(d);
    ParsePad2(d.month);
    ParseSignedInt(d.year);
  }

  /** The sort key of a week key is year*10000 + week*7. */
  lemma WeekKeySortKey(d: CalDate)
    requires ValidDate(d) && d.year >= 100 && Representable(DayNumber(d))
    ensures GetSortKey(WeekKey(d)) == d.year * 10000 + WeekNumber(d) * 7
  {
    WeekKeyFields(d);
    ParseSignedInt(WeekNumber(d));
    ParseSignedInt(d.year);
  }

  /** Day keys sort exactly as their dates: strictly earlier day, strictly smaller key. */
  lemma DayKeysChronological(a: CalDate, b: CalDate)
    requires ValidDate(a) && ValidDate(b)
    ensures DayNumber(a) < DayNumber(b) <==> GetSortKey(DayKey(a)) < GetSortKey(DayKey(b))
  {
    DayKeySortKey(a);
    DayKeySortKey(b);
    DayNumberOrder(a, b);
  }

  /** Month keys never sort a later date before an earlier one. */
  lemma MonthKeysChronological(a: CalDate, b: CalDate)
    requires ValidDate(a) && ValidDate(b) && DayNumber(a) <= DayNumber(b)
    ensures GetSortKey(MonthKey(a)) <= GetSortKey(MonthKey(b))
  {
    MonthKeySortKey(a);
    MonthKeySortKey(b);
    DayNumberOrder(b, a);
  }

  /** Week keys never sort a later date before an earlier one (years from 100 on). */
  lemma WeekKeysChronological(a: CalDate, b: CalDate)
    requires ValidDate(a) && a.year >= 100 && Representable(DayNumber(a))
    requires ValidDate(b) && b.year >= 100 && Representable(DayNumber(b))
    requires DayNumber(a) <= DayNumber(b)
    ensures GetSortKey(WeekKey(a)) <= GetSortKey(WeekKey(b))
  {
    WeekKeySortKey(a);
    WeekKeySortKey(b);
    WeekOfYearIs(a);
    WeekOfYearIs(b);
    DayNumberOrder(b, a);
    if a.year == b.year {
      WeekNumberMonotone(a, b);
    }
  }

  /** A key without '/' that does not start with 'W' sorts as 0. */
  lemma MalformedKeySortsAsZero(s: string)
    requires '/' !in s && (s == "" || s[0] != 'W')
    ensures GetSortKey(s) == 0
  {
    SplitNoSeparator(s, '/');
  }

  /** A week key is labelled `Week <n>`. */
  lemma WeekLabel(d: CalDate)
    requires ValidDate(d) && d.year >= 100 && Representable(DayNumber(d))
    ensures FormatDisplayLabel(WeekKey(d)) == "Week " + IntToString(WeekNumber(d))
  {
    WeekKeyIs(d);
    IntToStringChars(WeekNumber(d));
    WeekTextLabel(IntToString(WeekNumber(d)), IntToString(d.year));
  }

  /** A key starting with 'W' but without '/' is labelled `Week W`: `substring(1, -1)` swaps its ends. */
  lemma WeekLabelWithoutSlash(s: string)
    requires |s| > 0 && s[0] == 'W' && '/' !in s
    ensures FormatDisplayLabel(s) == "Week W"
  {
  }

  /** A month key is labelled with the month's short name and the year. */
  lemma MonthLabel(d: CalDate)
    requires ValidDate(d)
    ensures FormatDisplayLabel(MonthKey(d)) == MonthNames[d.month - 1] + (" " + IntToString(d.year))
  {
    MonthKeyFields(d);
    ParsePad2(d.month);
  }

  /** A day key is its own label. */
  lemma DayLabelUnchanged(d: CalDate)
    requires ValidDate(d)
    ensures FormatDisplayLabel(DayKey(d)) == DayKey(d)
  {
    DayKeyFields(d);
  }

  /** A day key, read back by `parseDate`, is the date it was made from (years from 100 on). */
  lemma DayKeyRoundTrip(d: CalDate, now: CalDate)
    requires ValidDate(now) && Representable(DayNumber(now))
    requires ValidDate(d) && d.year >= 100 && Representable(DayNumber(d))
    ensures ParseDate(DayKey(d), now) == Some(d)
  {
    var s := DayKey(d);
    DayKeyFields(d);
    ParsePad2(d.day);
    ParsePad2(d.month);
    ToNumberNat(d.year);
    assert s[2] == '/';
    var p := Split(s, '/');
    assert ToNumber(p[0]) == Some(d.day) && ToNumber(p[1]) == Some(d.month) && ToNumber(p[2]) == Some(d.year);
    assert ParseDate(s, now) == DateOfParts(Some(d.day), Some(d.month), Some(d.year), now);
    PartsOfDate(d, now);
  }

  /** The three numbers of a real date from year 100 on make that date again. */
  lemma PartsOfDate(d: CalDate, now: CalDate)
    requires ValidDate(now) && Representable(DayNumber(now))
    requires ValidDate(d) && d.year >= 100 && Representable(DayNumber(d))
    ensures DateOfParts(Some(d.day), Some(d.month), Some(d.year), now) == Some(d)
  {
    MakeLocalDateOf(d);
    PartsOfMadeDate(d, now);
  }

  /** Once `new Date(y, m - 1, d)` is known to give back the date, its three numbers make it. */
  lemma PartsOfMadeDate(d: CalDate, now: CalDate)
    requires ValidDate(now) && Representable(DayNumber(now))
    requires d.day >= 0 && d.month >= 0 && d.year >= 0
    requires MakeLocalDate(d.year, d.month - 1, d.day) == Some(d)
    ensures DateOfParts(Some(d.day), Some(d.month), Some(d.year), now) == Some(d)
  {
    DateOfThreeParts(Some(d.day), Some(d.month), Some(d.year), now, d);
  }

  /** With all three numbers present the date is `new Date(year, month - 1, day)`. */
  lemma DateOfThreeParts(day: Option<nat>, month: Option<nat>, year: Option<nat>, now: CalDate, d: CalDate)
    requires ValidDate(now) && Representable(DayNumber(now))
    requires day == Some(d.day) && month == Some(d.month) && year == Some(d.year)
    requires MakeLocalDate(d.year, d.month - 1, d.day) == Some(d)
    ensures DateOfParts(day, month, year, now) == Some(d)
  {
  }

  /** The span is the widest distance between two of the dates. */
  lemma SpanIsWidest(days: seq<int>)
    requires days != []
    ensures forall x <- days, y <- days :: x - y <= Span(days)
    ensures exists x <- days, y <- days :: x - y == Span(days)
  {
    assert MaxOf(days) - MinOf(days) == Span(days);
  }

  /** The user distribution keeps each name's count and lists each name once. */
  lemma DistributionEntries(distribution: Rec<nat>)
    requires Valid(distribution)
    ensures var chartData := PrepareUserDistributionData(distribution);
      && Distinct(NamesIn(chartData))
      && forall e <- chartData :: e.name in distribution.at && e.value == distribution.at[e.name]
  {
    var chartData := PrepareUserDistributionData(distribution);
    DistinctPermutation(distribution.keys, NamesIn(chartData));
    forall e <- chartData
      ensures e.name in distribution.at
    {
      assert e.name in NamesIn(chartData);
      assert e.name in multiset(distribution.keys);
    }
  }
}
