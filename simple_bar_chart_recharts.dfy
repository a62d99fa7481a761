/**
 * The bar chart component with a grouping the user picks
 * (src/components/dashboard/SimpleBarChart.recharts.tsx): the raw date
 * string as the day key, `W<n>/<year>` as the week key and the unpadded
 * `<month>/<year>` as the month key; a comparator per grouping; and a display
 * formatter that only rewrites keys with three numeric parts.
 */
module SimpleBarChartRecharts {
  import opened Wrappers
  import opened JsText
  import opened Calendar
  import opened Seqs
  import opened Records
  import opened Sorting
  import opened Types
  import opened DateUtils
  import opened Buckets
  import opened ChartUtils
  import ChartUtilsRecharts

  // ---------------------------------------------------------------------
  // groupData
  // ---------------------------------------------------------------------

  /**
   * The approximate week number of `new Date(year, month - 1, day)`, counted
   * from `new Date(year, 0, 1)`; None when either is `Invalid Date` (NaN).
   */
  function WeekNum(day: int, month: int, year: int): Option<int>
  {
    match MakeLocalDate(year, month - 1, day)
    case None => None
    case Some(date) => WeekFrom(date, year)
  }

  /** The week formula for `date`, counted from `new Date(year, 0, 1)`. */
  function WeekFrom(date: CalDate, year: int): Option<int>
    requires ValidDate(date)
  {
    ChartUtilsRecharts.WeekAfter(date, MakeLocalDate(year, 0, 1))
  }

  /** The week number as a template literal prints it: `NaN` for an invalid date. */
  function WeekText(week: Option<int>): string
  {
    match week
    case None => "NaN"
    case Some(n) => IntToString(n)
  }

  /** `W${weekNum}/${year}`. */
  function WeekKeyText(week: Option<int>, year: nat): string
  {
    ("W" + WeekText(week)) + ("/" + NatToString(year))
  }

  /** `${month}/${year}`: the month as a plain number, not padded. */
  function MonthKeyText(month: nat, year: nat): string
  {
    NatToString(month) + ("/" + NatToString(year))
  }

  /** The key of a date whose day, month and year parts read as `parts`. */
  function KeyOf(date: string, parts: CalDate, groupBy: Granularity): string
    requires parts.year >= 0 && parts.month >= 0 && parts.day >= 0
  {
    match groupBy
    case Day => date
    case Week => WeekKeyText(WeekNum(parts.day, parts.month, parts.year), parts.year)
    case Month => MonthKeyText(parts.month, parts.year)
  }

  /**
   * The key a rating's date is counted under: None when its day, month or
   * year part is NaN (or missing), else the date string itself, its week key
   * or its month key.
   */
  function GroupKey(date: string, groupBy: Granularity): Option<string>
  {
    match DateOfKey(date)
    case None => None
    case Some(parts) => Some(KeyOf(date, parts, groupBy))
  }

  function EntryOf(r: Rating, groupBy: Granularity): seq<(string, Tone)>
  {
    match GroupKey(r.date, groupBy)
    case None => []
    case Some(k) => [(k, ChartTone(r.rating))]
  }

  /** The (key, segment) entries of the ratings that are not skipped, in order. */
  function Entries(ratings: seq<Rating>, groupBy: Granularity): seq<(string, Tone)>
  {
    if ratings == [] then []
    else Entries(ratings[..|ratings| - 1], groupBy) + EntryOf(ratings[|ratings| - 1], groupBy)
  }

  /** `groupData`: walk the ratings, raising one counter of the bucket under each kept rating's key. */
  method GroupData(ratings: seq<Rating>, groupBy: Granularity) returns (groupedData: Rec<Counts>)
    ensures groupedData == Grouped(Entries(ratings, groupBy))
  {
    groupedData := Empty();
    assert ratings[..0] == [];
    for i := 0 to |ratings|
      invariant groupedData == Grouped(Entries(ratings[..i], groupBy))
    {
      var rating := ratings[i];
      var dateKey := GroupKey(rating.date, groupBy);
      if dateKey.None? {
        SkipStep(ratings, i, groupBy);
        continue;
      }
      var key := dateKey.value;
      var bucket := if key in groupedData.at then groupedData.at[key] else Zero;
      ghost var start := bucket;
      assert start == BucketAt(groupedData, key);
      if rating.rating > 3 {
        bucket := bucket.(positive := bucket.positive + 1);
      } else if rating.rating < -3 {
        bucket := bucket.(negative := bucket.negative + 1);
      } else {
        bucket := bucket.(neutral := bucket.neutral + 1);
      }
      BumpTone(start, rating.rating, bucket);
      CountStep(ratings, i, groupBy, key);
      GroupedSnoc(Entries(ratings[..i], groupBy), key, ChartTone(rating.rating));
      AddIsPut(groupedData, key, ChartTone(rating.rating));
      groupedData := Put(groupedData, key, bucket);
    }
    assert ratings[..|ratings|] == ratings;
  }

  /** A skipped rating adds no entry. */
  lemma SkipStep(ratings: seq<Rating>, i: nat, groupBy: Granularity)
    requires i < |ratings|
    requires GroupKey(ratings[i].date, groupBy) == None
    ensures Entries(ratings[..i + 1], groupBy) == Entries(ratings[..i], groupBy)
  {
    assert ratings[..i + 1][..i] == ratings[..i];
  }

  /** A kept rating adds one entry with its key and its segment. */
  lemma CountStep(ratings: seq<Rating>, i: nat, groupBy: Granularity, key: string)
    requires i < |ratings|
    requires GroupKey(ratings[i].date, groupBy) == Some(key)
    ensures Entries(ratings[..i + 1], groupBy) == Entries(ratings[..i], groupBy) + [(key, ChartTone(ratings[i].rating))]
  {
    assert ratings[..i + 1][..i] == ratings[..i];
  }

  // ---------------------------------------------------------------------
  // sortKeys
  // ---------------------------------------------------------------------

  /** The week and year of a week key as `parseInt` reads them: the text after 'W', and the second part. */
  function WeekParts(k: string): (Option<int>, Option<int>)
  {
    var p := Split(k, '/');
    (ParseSigned(Substring(p[0], 1, |p[0]|)), if |p| > 1 then ParseSigned(p[1]) else None)
  }

  /** The week comparator: years, then weeks; a NaN year or week compares as equal (0). */
  function CompareWeeks(a: string, b: string): int
  {
    var (weekA, yearA) := WeekParts(a);
    var (weekB, yearB) := WeekParts(b);
    if yearA.None? || yearB.None? then 0
    else if yearA.value != yearB.value then yearA.value - yearB.value
    else if weekA.None? || weekB.None? then 0
    else weekA.value - weekB.value
  }

  /** The month comparator: years (part 1), then months (part 0). */
  function CompareMonths(a: string, b: string): int
  {
    var pa, pb := Split(a, '/'), Split(b, '/');
    match StepCompare(PartAt(pa, 1), PartAt(pb, 1))
    case Some(v) => v
    case None => LastCompare(PartAt(pa, 0), PartAt(pb, 0))
  }

  /** `sortKeys` for the grouping: (year, month, day), (year, week) or (year, month). */
  function CompareKeys(groupBy: Granularity, a: string, b: string): int
  {
    match groupBy
    case Day => CompareDates(a, b)
    case Week => CompareWeeks(a, b)
    case Month => CompareMonths(a, b)
  }

  function SortKeys(groupBy: Granularity): (string, string) -> bool
  {
    (a: string, b: string) => CompareKeys(groupBy, a, b) <= 0
  }

  /** The (year, week) of a week key whose two numbers `parseInt` reads. */
  function WeekOrder(k: string): Option<(int, int)>
  {
    var (week, year) := WeekParts(k);
    if week.Some? && year.Some? then Some((year.value, week.value)) else None
  }

  /** The (year, month) of a month key whose two parts are numbers. */
  function MonthOrder(k: string): Option<(int, int)>
  {
    var p := Split(k, '/');
    match (PartAt(p, 0), PartAt(p, 1))
    case (Number(Some(m)), Number(Some(y))) => Some((y, m))
    case _ => None
  }

  /** A key the grouping's comparator reads numbers from. */
  predicate Readable(groupBy: Granularity, k: string)
  {
    match groupBy
    case Day => HasDateParts(k)
    case Week => WeekOrder(k).Some?
    case Month => MonthOrder(k).Some?
  }

  function ReadableAs(groupBy: Granularity): string -> bool
  {
    (k: string) => Readable(groupBy, k)
  }

  predicate PairLe(a: (int, int), b: (int, int))
  {
    a.0 < b.0 || (a.0 == b.0 && a.1 <= b.1)
  }

  /**
   * The bar keys: the bucket keys sorted by the grouping's comparator, each
   * once; when the comparator reads numbers from every key, in its order.
   */
  function BarKeys(g: Rec<Counts>, groupBy: Granularity): (keys: seq<string>)
    requires Valid(g)
    ensures multiset(keys) == multiset(g.keys) && Distinct(keys)
    ensures forall k <- keys :: k in g.at
    ensures (forall k <- g.keys :: Readable(groupBy, k)) ==> SortedBy(keys, SortKeys(groupBy))
  {
    var keys := SortBy(g.keys, SortKeys(groupBy));
    SortByElements(g.keys, SortKeys(groupBy));
    DistinctPermutation(g.keys, keys);
    SortedWhenReadable(g.keys, groupBy);
    keys
  }

  lemma SortedWhenReadable(keys: seq<string>, groupBy: Granularity)
    ensures (forall k <- keys :: Readable(groupBy, k)) ==> SortedBy(SortBy(keys, SortKeys(groupBy)), SortKeys(groupBy))
  {
    if forall k <- keys :: Readable(groupBy, k) {
      SortKeysConsistent(groupBy);
      SortBySortedOn(keys, SortKeys(groupBy), ReadableAs(groupBy));
    }
  }

  // ---------------------------------------------------------------------
  // formatDateForDisplay and the chart entries
  // ---------------------------------------------------------------------

  /**
   * `formatDateForDisplay`: a key with a NaN (or missing) day, month or year
   * part comes back unchanged; otherwise `DD/MM` for days, `W<n>` for weeks
   * and `<Mon> <year>` for months (`undefined` for a month outside 1..12).
   */
  function FormatDateForDisplay(dateKey: string, groupBy: Granularity): string
  {
    match DateOfKey(dateKey)
    case None => dateKey
    case Some(parts) => Display(parts, groupBy)
  }

  /** How a key with three numeric parts is shown. */
  function Display(parts: CalDate, groupBy: Granularity): string
    requires parts.year >= 0 && parts.month >= 0 && parts.day >= 0
  {
    match groupBy
    case Day => Pad2(parts.day) + ("/" + Pad2(parts.month))
    case Week => "W" + WeekText(WeekNum(parts.day, parts.month, parts.year))
    case Month =>
      (if 1 <= parts.month <= 12 then ChartUtilsRecharts.MonthNames[parts.month - 1] else "undefined")
        + (" " + NatToString(parts.year))
  }

  /** The bars for `keys`, in that order: display label, the bucket's three counts and the key. */
  function BarsOf(g: Rec<Counts>, keys: seq<string>, groupBy: Granularity): (data: seq<ChartUtilsRecharts.BarEntry>)
    requires forall k <- keys :: k in g.at
    ensures ChartUtilsRecharts.OriginalKeys(data) == keys
    ensures forall e <- data ::
              && e.originalKey in g.at
              && Counts(e.positive, e.neutral, e.negative) == g.at[e.originalKey]
              && e.name == FormatDateForDisplay(e.originalKey, groupBy)
  {
    var data := seq(|keys|, i requires 0 <= i < |keys| =>
      var c := g.at[keys[i]];
      ChartUtilsRecharts.BarEntry(FormatDateForDisplay(keys[i], groupBy), c.positive, c.neutral, c.negative, keys[i]));
    assert ChartUtilsRecharts.OriginalKeys(data) == keys;
    data
  }

  /** The part at `i` of a split as a template literal prints it: `undefined` past the end. */
  function PartText(parts: seq<string>, i: nat): string
  {
    if i < |parts| then parts[i] else "undefined"
  }

  /**
   * The heading of the custom tooltip: nothing while it is inactive or has no
   * payload; in day grouping the hovered bar's own key, re-joined from its
   * first three parts; otherwise the axis label.
   */
  function TooltipHeading(groupBy: Granularity, active: bool, payload: seq<ChartUtilsRecharts.BarEntry>, axisLabel: string): Option<string>
  {
    if !active || payload == [] then None
    else
      var originalKey := payload[0].originalKey;
      if groupBy == Day && originalKey != "" then
        var p := Split(originalKey, '/');
        Some(Slashed(PartText(p, 0), PartText(p, 1), PartText(p, 2)))
      else Some(axisLabel)
  }

  /** The component's state: the grouping the user picked, `'day'` at first. */
  class SimpleBarChart {
    var groupBy: Granularity

    constructor()
      ensures groupBy == Day
    {
      groupBy := Day;
    }

    /** One of the three grouping buttons. */
    method SetGroupBy(g: Granularity)
      modifies this
      ensures groupBy == g
    {
      groupBy := g;
    }

    /**
     * `chartData`: one bar per bucket of the current grouping, in the bar
     * key order, with its counts, its display label and its key.
     */
    method ChartData(ratings: seq<Rating>) returns (data: seq<ChartUtilsRecharts.BarEntry>)
      ensures var g := Grouped(Entries(ratings, groupBy));
        && ChartUtilsRecharts.OriginalKeys(data) == BarKeys(g, groupBy)
        && forall e <- data ::
             && e.originalKey in g.at
             && Counts(e.positive, e.neutral, e.negative) == g.at[e.originalKey]
             && e.name == FormatDateForDisplay(e.originalKey, groupBy)
    {
      var groupedData := GroupData(ratings, groupBy);
      var sortedKeys := BarKeys(groupedData, groupBy);
      data := BarsOf(groupedData, sortedKeys, groupBy);
    }
  }

  // ---------------------------------------------------------------------
  // Proofs
  // ---------------------------------------------------------------------

  /** A rating is skipped exactly when its date does not have three numeric parts. */
  lemma SkippedIffNaN(date: string, groupBy: Granularity)
    ensures GroupKey(date, groupBy).None? <==> !HasDateParts(date)
  {
  }

  /** Each kept rating counts once, in the segment `ChartTone` names; skipped ones not at all. */
  lemma {:induction false} EntriesCount(ratings: seq<Rating>, groupBy: Granularity)
    ensures |Entries(ratings, groupBy)| == |Filter(ratings, Kept())|
  {
    if ratings != [] {
      EntriesCount(ratings[..|ratings| - 1], groupBy);
      SkippedIffNaN(ratings[|ratings| - 1].date, groupBy);
    }
  }

  function Kept(): Rating -> bool
  {
    (r: Rating) => HasDateParts(r.date)
  }

  /** The bucket counts add up to the number of ratings with three numeric date parts. */
  lemma BucketTotal(ratings: seq<Rating>, groupBy: Granularity)
    ensures Total(Grouped(Entries(ratings, groupBy)), Size) == |Filter(ratings, Kept())|
  {
    GroupedTotal(Entries(ratings, groupBy));
    EntriesCount(ratings, groupBy);
  }

  /** Every key of the buckets is the key of some rating. */
  lemma {:induction false} EntryKeysFromRatings(ratings: seq<Rating>, groupBy: Granularity, k: string)
    requires k in KeysOf(Entries(ratings, groupBy))
    ensures exists r <- ratings :: GroupKey(r.date, groupBy) == Some(k)
  {
    var init := ratings[..|ratings| - 1];
    var last := ratings[|ratings| - 1];
    var es := Entries(init, groupBy);
    assert KeysOf(Entries(ratings, groupBy)) == KeysOf(es) + KeysOf(EntryOf(last, groupBy));
    if k in KeysOf(es) {
      EntryKeysFromRatings(init, groupBy, k);
      var r :| r in init && GroupKey(r.date, groupBy) == Some(k);
      assert r in ratings;
    } else {
      assert last in ratings;
    }
  }

  /** In day and month grouping every key is readable, so the bars are in comparator order. */
  lemma KeysReadable(ratings: seq<Rating>, groupBy: Granularity)
    requires groupBy != Week
    ensures forall k <- Grouped(Entries(ratings, groupBy)).keys :: Readable(groupBy, k)
  {
    var es := Entries(ratings, groupBy);
    GroupedKeys(es);
    forall k <- Grouped(es).keys
      ensures Readable(groupBy, k)
    {
      assert k in KeysOf(es);
      KeyReadable(ratings, groupBy, k);
    }
  }

  lemma KeyReadable(ratings: seq<Rating>, groupBy: Granularity, k: string)
    requires groupBy != Week
    requires k in KeysOf(Entries(ratings, groupBy))
    ensures Readable(groupBy, k)
  {
    EntryKeysFromRatings(ratings, groupBy, k);
    var r :| r in ratings && GroupKey(r.date, groupBy) == Some(k);
    var parts := DateOfKey(r.date).value;
    if groupBy == Month {
      MonthKeyOrder(parts.year, parts.month);
    }
  }

  /** A rating date that, when its three parts are numbers, reads as a day 1..31 of a month 1..12 of a year up to 9999. */
  predicate PlainDate(date: string)
  {
    match DateOfKey(date)
    case None => true
    case Some(p) => 1 <= p.month <= 12 && 1 <= p.day <= 31 && p.year <= 9999
  }

  /** By week, every bucket key of plainly dated ratings has a week number and a year the sort reads. */
  lemma WeekKeysReadable(ratings: seq<Rating>)
    requires forall r <- ratings :: PlainDate(r.date)
    ensures forall k <- Grouped(Entries(ratings, Week)).keys :: Readable(Week, k)
  {
    var es := Entries(ratings, Week);
    GroupedKeys(es);
    forall k <- Grouped(es).keys
      ensures Readable(Week, k)
    {
      assert k in KeysOf(es);
      WeekKeyReadable(ratings, k);
    }
  }

  lemma WeekKeyReadable(ratings: seq<Rating>, k: string)
    requires forall r <- ratings :: PlainDate(r.date)
    requires k in KeysOf(Entries(ratings, Week))
    ensures Readable(Week, k)
  {
    EntryKeysFromRatings(ratings, Week, k);
    var r :| r in ratings && GroupKey(r.date, Week) == Some(k);
    var p := DateOfKey(r.date).value;
    assert PlainDate(r.date);
    WeekNumDefined(p.day, p.month, p.year);
    WeekKeyOrder(WeekNum(p.day, p.month, p.year).value, p.year);
  }

  /** Dates written `dd/MM/yyyy` from a real date of years 1..9999, as the ratings carry them, are plain. */
  lemma FormattedDateIsPlain(d: CalDate)
    requires ValidDate(d) && 1 <= d.year <= 9999
    ensures PlainDate(FormatDateString(d))
  {
    FormattedDateKey(d);
  }

  /** Both `new Date` calls of the week formula are valid for a plain date, so the week number is a number. */
  lemma WeekNumDefined(day: int, month: int, year: int)
    requires 1 <= month <= 12 && 1 <= day <= 31 && 0 <= year <= 9999
    ensures WeekNum(day, month, year).Some?
  {
    MakeLocalDateDefined(year, month - 1, day);
    MakeLocalDateDefined(year, 0, 1);
  }

  /** In every grouping, the bars of plainly dated ratings come out in the comparator's order. */
  lemma BarKeysSorted(ratings: seq<Rating>, groupBy: Granularity)
    requires groupBy == Week ==> forall r <- ratings :: PlainDate(r.date)
    ensures SortedBy(BarKeys(Grouped(Entries(ratings, groupBy)), groupBy), SortKeys(groupBy))
  {
    if groupBy == Week {
      WeekKeysReadable(ratings);
    } else {
      KeysReadable(ratings, groupBy);
    }
  }

  /** A month key reads back as its (year, month). */
  lemma MonthKeyOrder(year: nat, month: nat)
    ensures MonthOrder(MonthKeyText(month, year)) == Some((year, month))
  {
    var m, y := NatToString(month), NatToString(year);
    IntToStringChars(month);
    IntToStringChars(year);
    SplitPair(m, '/', y);
    ToNumberNat(month);
    ToNumberNat(year);
  }

  /** A week key with a week number reads back as its (year, week). */
  lemma WeekKeyOrder(week: int, year: nat)
    ensures WeekOrder(WeekKeyText(Some(week), year)) == Some((year, week))
  {
    var w, y := IntToString(week), NatToString(year);
    var a := "W" + w;
    WeekKeySplit(Some(week), year);
    assert a[1..] == w;
    assert Substring(a, 1, |a|) == w;
    ParseSignedInt(week);
    ParseSignedInt(year);
  }

  /** A week key splits into `W<n>` and the year. */
  lemma WeekKeySplit(week: Option<int>, year: nat)
    ensures Split(WeekKeyText(week, year), '/') == ["W" + WeekText(week), NatToString(year)]
  {
    var w, y := WeekText(week), NatToString(year);
    if week.Some? {
      IntToStringChars(week.value);
    }
    IntToStringChars(year);
    assert '/' !in "W" + w by {
      assert forall c <- "W" + w :: c == 'W' || c in w;
    }
    SplitPair("W" + w, '/', y);
  }

  /** Readable month keys compare by (year, month). */
  lemma CompareMonthsLex(a: string, b: string)
    requires MonthOrder(a).Some? && MonthOrder(b).Some?
    ensures CompareMonths(a, b) <= 0 <==> PairLe(MonthOrder(a).value, MonthOrder(b).value)
  {
  }

  /** Readable week keys compare by (year, week). */
  lemma CompareWeeksLex(a: string, b: string)
    requires WeekOrder(a).Some? && WeekOrder(b).Some?
    ensures CompareWeeks(a, b) <= 0 <==> PairLe(WeekOrder(a).value, WeekOrder(b).value)
  {
  }

  /** On keys it reads numbers from, each grouping's comparator is a consistent order. */
  lemma SortKeysConsistent(groupBy: Granularity)
    ensures PreorderOn(SortKeys(groupBy), ReadableAs(groupBy))
  {
    var le, ok := SortKeys(groupBy), ReadableAs(groupBy);
    forall a, b | ok(a) && ok(b)
      ensures le(a, b) || le(b, a)
    {
      KeysCompareLex(groupBy, a, b);
      KeysCompareLex(groupBy, b, a);
    }
    forall a, b, c | ok(a) && ok(b) && ok(c) && le(a, b) && le(b, c)
      ensures le(a, c)
    {
      KeysCompareLex(groupBy, a, b);
      KeysCompareLex(groupBy, b, c);
      KeysCompareLex(groupBy, a, c);
    }
  }

  /** The numbers each comparator reads from a readable key, as a triple ordered lexicographically. */
  function OrderOf(groupBy: Granularity, k: string): (int, int, int)
    requires Readable(groupBy, k)
  {
    match groupBy
    case Day => var d := DateOfKey(k).value; (d.year, d.month, d.day)
    case Week => var (y, w) := WeekOrder(k).value; (y, w, 0)
    case Month => var (y, m) := MonthOrder(k).value; (y, m, 0)
  }

  predicate TripleLe(a: (int, int, int), b: (int, int, int))
  {
    a.0 < b.0 || (a.0 == b.0 && (a.1 < b.1 || (a.1 == b.1 && a.2 <= b.2)))
  }

  lemma KeysCompareLex(groupBy: Granularity, a: string, b: string)
    requires Readable(groupBy, a) && Readable(groupBy, b)
    ensures SortKeys(groupBy)(a, b) <==> TripleLe(OrderOf(groupBy, a), OrderOf(groupBy, b))
  {
    match groupBy
    case Day => CompareDatesLex(a, b);
    case Week => CompareWeeksLex(a, b);
    case Month => CompareMonthsLex(a, b);
  }

  /** A key whose parts read as `parts` is counted under the key of those parts. */
  lemma GroupKeyOf(date: string, parts: CalDate, groupBy: Granularity)
    requires DateOfKey(date) == Some(parts)
    ensures GroupKey(date, groupBy) == Some(KeyOf(date, parts, groupBy))
  {
  }

  /** A key whose parts read as `parts` is shown as those parts. */
  lemma DisplayOf(date: string, parts: CalDate, groupBy: Granularity)
    requires DateOfKey(date) == Some(parts)
    ensures FormatDateForDisplay(date, groupBy) == Display(parts, groupBy)
  {
  }

  /** The day key of a formatted date is the date string; month keys drop the month's zero padding. */
  lemma KeysOfFormattedDate(d: CalDate)
    requires ValidDate(d) && 1 <= d.year <= 9999
    ensures GroupKey(FormatDateString(d), Day) == Some(FormatDateString(d))
    ensures GroupKey(FormatDateString(d), Month) == Some(MonthKeyText(d.month, d.year))
  {
    FormattedDateKey(d);
    KeysOfParsedDate(FormatDateString(d), d);
  }

  /** A key that reads as a real date is its own day key and gives that date's month key. */
  lemma KeysOfParsedDate(date: string, d: CalDate)
    requires ValidDate(d) && d.year >= 0 && DateOfKey(date) == Some(d)
    ensures GroupKey(date, Day) == Some(date)
    ensures GroupKey(date, Month) == Some(MonthKeyText(d.month, d.year))
  {
    GroupKeyOf(date, d, Day);
    GroupKeyOf(date, d, Month);
  }

  /** April 2025 is keyed `4/2025`, not `04/2025`. */
  lemma MonthKeyUnpadded()
    ensures GroupKey(FormatDateString(CalDate(2025, 4, 19)), Month) == Some("4/2025")
  {
    KeysOfFormattedDate(CalDate(2025, 4, 19));
    MonthKeyText2025();
  }

  lemma MonthKeyText2025()
    ensures MonthKeyText(4, 2025) == "4/2025"
  {
    YearText2025();
    assert NatToString(4) == "4";
    assert "4" + ("/" + "2025") == "4/2025";
  }

  /** The week key of a formatted date carries the calendar week number, 1..54 (years 100 to 9999). */
  lemma WeekKeyOfFormattedDate(d: CalDate)
    requires ValidDate(d) && 100 <= d.year <= 9999 && Representable(DayNumber(d))
    ensures GroupKey(FormatDateString(d), Week) == Some(WeekKeyText(Some(WeekNumber(d)), d.year))
    ensures 1 <= WeekNumber(d) <= 54
  {
    assert GroupKey(FormatDateString(d), Week) == Some(KeyOf(FormatDateString(d), d, Week)) by {
      FormattedDateKey(d);
      GroupKeyOf(FormatDateString(d), d, Week);
    }
    WeekNumIs(d);
  }

  /** For a real date from year 100 on, the raw-number week formula is the calendar week number. */
  lemma WeekNumIs(d: CalDate)
    requires ValidDate(d) && d.year >= 100 && Representable(DayNumber(d))
    ensures WeekNum(d.day, d.month, d.year) == Some(WeekNumber(d))
  {
    MakeLocalDateOf(d);
    WeekNumOfMade(d);
    ChartUtilsRecharts.WeekOfYearIs(d);
    WeekFromYear(d);
  }

  /** Once `new Date(y, m - 1, d)` is known to give back the date, the week formula starts from it. */
  lemma WeekNumOfMade(d: CalDate)
    requires MakeLocalDate(d.year, d.month - 1, d.day) == Some(d)
    ensures WeekNum(d.day, d.month, d.year) == WeekFrom(d, d.year)
  {
    WeekNumAt(d.day, d.month, d.year, d);
  }

  lemma WeekNumAt(day: int, month: int, year: int, date: CalDate)
    requires MakeLocalDate(year, month - 1, day) == Some(date)
    ensures WeekNum(day, month, year) == WeekFrom(date, year)
  {
  }

  lemma WeekFromYear(d: CalDate)
    requires ValidDate(d)
    ensures WeekFrom(d, d.year) == ChartUtilsRecharts.WeekOfYear(d)
  {
  }

  /** Month keys of real dates never put a later month before an earlier one. */
  lemma MonthKeysChronological(a: CalDate, b: CalDate)
    requires ValidDate(a) && ValidDate(b) && 0 <= a.year && 0 <= b.year
    requires DayNumber(a) <= DayNumber(b)
    ensures SortKeys(Month)(MonthKeyText(a.month, a.year), MonthKeyText(b.month, b.year))
  {
    MonthKeyOrder(a.year, a.month);
    MonthKeyOrder(b.year, b.month);
    CompareMonthsLex(MonthKeyText(a.month, a.year), MonthKeyText(b.month, b.year));
    DayNumberOrder(b, a);
  }

  /** Week keys of real dates from year 100 on never put a later week before an earlier one. */
  lemma WeekKeysChronological(a: CalDate, b: CalDate)
    requires ValidDate(a) && a.year >= 100 && Representable(DayNumber(a))
    requires ValidDate(b) && b.year >= 100 && Representable(DayNumber(b))
    requires DayNumber(a) <= DayNumber(b)
    ensures SortKeys(Week)(WeekKeyText(Some(WeekNumber(a)), a.year), WeekKeyText(Some(WeekNumber(b)), b.year))
  {
    var ka, kb := WeekKeyText(Some(WeekNumber(a)), a.year), WeekKeyText(Some(WeekNumber(b)), b.year);
    WeekKeyOrder(WeekNumber(a), a.year);
    WeekKeyOrder(WeekNumber(b), b.year);
    CompareWeeksLex(ka, kb);
    DayNumberOrder(b, a);
    if a.year == b.year {
      WeekNumberMonotone(a, b);
    }
  }

  /** A key with fewer than three parts is shown as it is. */
  lemma ShortKeyUnchanged(k: string, groupBy: Granularity)
    requires |Split(k, '/')| < 3
    ensures FormatDateForDisplay(k, groupBy) == k
  {
  }

  /** Week and month keys have two parts, so the display leaves them as they are. */
  lemma GroupedKeysShownAsIs(week: Option<int>, month: nat, year: nat, groupBy: Granularity)
    ensures FormatDateForDisplay(WeekKeyText(week, year), groupBy) == WeekKeyText(week, year)
    ensures FormatDateForDisplay(MonthKeyText(month, year), groupBy) == MonthKeyText(month, year)
  {
    WeekKeySplit(week, year);
    ShortKeyUnchanged(WeekKeyText(week, year), groupBy);
    IntToStringChars(month);
    IntToStringChars(year);
    SplitPair(NatToString(month), '/', NatToString(year));
    ShortKeyUnchanged(MonthKeyText(month, year), groupBy);
  }

  /** A formatted date is shown as its zero-padded `DD/MM` prefix. */
  lemma DayShownAsDayMonth(d: CalDate)
    requires ValidDate(d) && 1 <= d.year <= 9999
    ensures FormatDateForDisplay(FormatDateString(d), Day) == FormatDateString(d)[..5]
    ensures FormatDateForDisplay(FormatDateString(d), Day) == Pad2(d.day) + ("/" + Pad2(d.month))
  {
    assert FormatDateForDisplay(FormatDateString(d), Day) == Display(d, Day) by {
      FormattedDateKey(d);
      DisplayOf(FormatDateString(d), d, Day);
    }
    SlashedPrefix(Pad2(d.day), Pad2(d.month), PadStart(NatToString(d.year), 4, '0'));
  }

  lemma SlashedPrefix(a: string, b: string, c: string)
    requires |a| == 2 && |b| == 2
    ensures Slashed(a, b, c)[..5] == a + ("/" + b)
  {
    assert Slashed(a, b, c) == (a + ("/" + b)) + ("/" + c);
  }

  /** The bars together hold every rating with three numeric date parts once. */
  lemma BarsTotal(ratings: seq<Rating>, groupBy: Granularity)
    ensures var g := Grouped(Entries(ratings, groupBy));
      SumOf(BarKeys(g, groupBy), Weights(g, Size)) == |Filter(ratings, Kept())|
  {
    var g := Grouped(Entries(ratings, groupBy));
    BucketTotal(ratings, groupBy);
    SumOfPermutation(BarKeys(g, groupBy), g.keys, Weights(g, Size));
  }

  /** A key of exactly three parts re-joined with slashes is the key itself. */
  lemma SlashedOfSplit(key: string)
    requires |Split(key, '/')| == 3
    ensures var p := Split(key, '/'); Slashed(p[0], p[1], p[2]) == key
  {
    var p := Split(key, '/');
    JoinSplit(key, '/');
    assert p[1..][1..] == [p[2]];
    assert Join(p[1..], '/') == p[1] + ['/'] + p[2];
    assert Join(p, '/') == p[0] + ['/'] + (p[1] + ['/'] + p[2]);
  }

  /** In day grouping the tooltip names the hovered bar's full date key. */
  lemma TooltipShowsBarKey(entry: ChartUtilsRecharts.BarEntry, rest: seq<ChartUtilsRecharts.BarEntry>, axisLabel: string)
    requires |Split(entry.originalKey, '/')| == 3
    ensures TooltipHeading(Day, true, [entry] + rest, axisLabel) == Some(entry.originalKey)
  {
    SplitLength(entry.originalKey, '/');
    SlashedOfSplit(entry.originalKey);
  }

  /** In week and month grouping the tooltip repeats the axis label. */
  lemma TooltipShowsLabel(groupBy: Granularity, payload: seq<ChartUtilsRecharts.BarEntry>, axisLabel: string)
    requires groupBy != Day && payload != []
    ensures TooltipHeading(groupBy, true, payload, axisLabel) == Some(axisLabel)
  {
  }
}
