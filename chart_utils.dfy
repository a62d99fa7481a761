/**
 * The Chart.js bar chart data of the dashboard (src/utils/chartUtils.ts):
 * buckets keyed by the raw `rating.date` string, bars ordered by the
 * (year, month, day) numbers of the keys, and three datasets aligned with
 * the labels; and the user distribution chart, larger counts first.
 */
module ChartUtils {
  import opened Wrappers
  import opened JsText
  import opened Calendar
  import opened Seqs
  import opened Records
  import opened Sorting
  import opened Types
  import opened DateUtils
  import opened Buckets
  import ChartUtilsRecharts

  // ---------------------------------------------------------------------
  // groupRatingsByDate
  // ---------------------------------------------------------------------

  /** Each rating's bucket key, its date string exactly as stored, and its segment. */
  function DateEntries(ratings: seq<Rating>): (es: seq<(string, Tone)>)
    ensures |es| == |ratings|
    ensures forall i :: 0 <= i < |ratings| ==> es[i] == (ratings[i].date, ChartTone(ratings[i].rating))
  {
    seq(|ratings|, i requires 0 <= i < |ratings| => (ratings[i].date, ChartTone(ratings[i].rating)))
  }

  /** The date strings of the ratings, in order. */
  function Dates(ratings: seq<Rating>): (ds: seq<string>)
    ensures |ds| == |ratings|
    ensures forall i :: 0 <= i < |ratings| ==> ds[i] == ratings[i].date
  {
    seq(|ratings|, i requires 0 <= i < |ratings| => ratings[i].date)
  }

  /** `groupRatingsByDate`: one bucket per date string, one counter raised per rating. */
  method GroupRatingsByDate(ratings: seq<Rating>) returns (grouped: Rec<Counts>)
    ensures grouped == Grouped(DateEntries(ratings))
  {
    grouped := Empty();
    assert DateEntries(ratings[..0]) == [];
    for i := 0 to |ratings|
      invariant grouped == Grouped(DateEntries(ratings[..i]))
    {
      var rating := ratings[i];
      var date := rating.date;
      var bucket := if date in grouped.at then grouped.at[date] else Zero;
      ghost var start := bucket;
      assert start == BucketAt(grouped, date);
      if rating.rating > 3 {
        bucket := bucket.(positive := bucket.positive + 1);
      } else if rating.rating < -3 {
        bucket := bucket.(negative := bucket.negative + 1);
      } else {
        bucket := bucket.(neutral := bucket.neutral + 1);
      }
      BumpTone(start, rating.rating, bucket);
      DateEntriesSnoc(ratings, i);
      GroupedSnoc(DateEntries(ratings[..i]), date, ChartTone(rating.rating));
      AddIsPut(grouped, date, ChartTone(rating.rating));
      grouped := Put(grouped, date, bucket);
    }
    assert ratings[..|ratings|] == ratings;
  }

  lemma DateEntriesSnoc(ratings: seq<Rating>, i: nat)
    requires i < |ratings|
    ensures DateEntries(ratings[..i + 1]) == DateEntries(ratings[..i]) + [(ratings[i].date, ChartTone(ratings[i].rating))]
  {
  }

  // ---------------------------------------------------------------------
  // The date comparator of prepareBarChartData
  // ---------------------------------------------------------------------

  /** One element of `key.split('/').map(Number)`: past the end (`undefined`) or a number, None being NaN. */
  datatype Part = Undefined | Number(value: Option<nat>)

  function PartAt(parts: seq<string>, i: nat): Part
  {
    if i < |parts| then Number(ToNumber(parts[i])) else Undefined
  }

  /**
   * `if (x !== y) return x - y;`: None when the comparison moves on to the
   * next part (equal numbers, or both `undefined`), otherwise the value
   * returned, a NaN result read as 0 the way `Array.prototype.sort` reads it.
   */
  function StepCompare(x: Part, y: Part): Option<int>
  {
    match (x, y)
    case (Undefined, Undefined) => None
    case (Number(Some(a)), Number(Some(b))) => if a == b then None else Some(a - b)
    case _ => Some(0)
  }

  /** The final `return x - y;`, NaN read as 0. */
  function LastCompare(x: Part, y: Part): int
  {
    match (x, y)
    case (Number(Some(a)), Number(Some(b))) => a - b
    case _ => 0
  }

  /** The comparator of the date keys: years (part 2), then months (part 1), then days (part 0). */
  function CompareDates(a: string, b: string): int
  {
    var pa, pb := Split(a, '/'), Split(b, '/');
    match StepCompare(PartAt(pa, 2), PartAt(pb, 2))
    case Some(v) => v
    case None =>
      match StepCompare(PartAt(pa, 1), PartAt(pb, 1))
      case Some(v) => v
      case None => LastCompare(PartAt(pa, 0), PartAt(pb, 0))
  }

  /** `CompareDates(a, b) <= 0`: `a` may be listed before `b`. */
  function ByDate(): (string, string) -> bool
  {
    (a: string, b: string) => CompareDates(a, b) <= 0
  }

  /** The (year, month, day) a key's first three parts stand for, when all three are numbers. */
  function DateOfKey(s: string): (d: Option<CalDate>)
    ensures d.Some? ==> d.value.year >= 0 && d.value.month >= 0 && d.value.day >= 0
  {
    var p := Split(s, '/');
    match (PartAt(p, 0), PartAt(p, 1), PartAt(p, 2))
    case (Number(Some(d)), Number(Some(m)), Number(Some(y))) => Some(CalDate(y, m, d))
    case _ => None
  }

  predicate HasDateParts(s: string)
  {
    DateOfKey(s).Some?
  }

  // ---------------------------------------------------------------------
  // prepareBarChartData
  // ---------------------------------------------------------------------

  /**
   * The three datasets for the bars of `keys`, in that order: Positive,
   * Neutral and Negative, each holding one count per key.
   */
  function Datasets(g: Rec<Counts>, keys: seq<string>): (ds: seq<ChartDataset>)
    requires forall k <- keys :: k in g.at
    ensures |ds| == 3
    ensures ds[0].datasetLabel == "Positive" && ds[1].datasetLabel == "Neutral" && ds[2].datasetLabel == "Negative"
    ensures forall d <- ds :: |d.data| == |keys|
    ensures forall i :: 0 <= i < |keys| ==>
              && ds[0].data[i] == g.at[keys[i]].positive
              && ds[1].data[i] == g.at[keys[i]].neutral
              && ds[2].data[i] == g.at[keys[i]].negative
  {
    [ ChartDataset("Positive", seq(|keys|, i requires 0 <= i < |keys| => g.at[keys[i]].positive), "rgb(75, 192, 192)"),
      ChartDataset("Neutral", seq(|keys|, i requires 0 <= i < |keys| => g.at[keys[i]].neutral), "rgb(201, 203, 207)"),
      ChartDataset("Negative", seq(|keys|, i requires 0 <= i < |keys| => g.at[keys[i]].negative), "rgb(255, 99, 132)") ]
  }

  /**
   * `prepareBarChartData`: the labels are the distinct date strings, each
   * once, ordered by the date comparator; the datasets hold their buckets'
   * counts, index by index.
   */
  function PrepareBarChartData(ratings: seq<Rating>): (chartData: ChartData)
    ensures multiset(chartData.labels) == multiset(Dedup(Dates(ratings)))
    ensures Distinct(chartData.labels)
    ensures forall k <- chartData.labels :: k in Grouped(DateEntries(ratings)).at
    ensures chartData.datasets == Datasets(Grouped(DateEntries(ratings)), chartData.labels)
  {
    var g := Grouped(DateEntries(ratings));
    var sortedDates := SortBy(g.keys, ByDate());
    LabelsAreDates(ratings);
    ChartData(sortedDates, Datasets(g, sortedDates))
  }

  /** The sorted bucket keys are the distinct date strings, and each has a bucket. */
  lemma LabelsAreDates(ratings: seq<Rating>)
    ensures var g := Grouped(DateEntries(ratings));
      && multiset(SortBy(g.keys, ByDate())) == multiset(Dedup(Dates(ratings)))
      && Distinct(SortBy(g.keys, ByDate()))
      && forall k <- SortBy(g.keys, ByDate()) :: k in g.at
  {
    var g := Grouped(DateEntries(ratings));
    BucketKeys(ratings);
    SortByElements(g.keys, ByDate());
    DistinctPermutation(g.keys, SortBy(g.keys, ByDate()));
  }

  // ---------------------------------------------------------------------
  // prepareUserDistributionData
  // ---------------------------------------------------------------------

  /**
   * `prepareUserDistributionData`: the names as labels, larger counts first,
   * and one dataset whose values are the names' counts.
   */
  function PrepareUserDistributionData(distribution: Rec<nat>): (chartData: ChartData)
    ensures multiset(chartData.labels) == multiset(distribution.keys)
    ensures |chartData.datasets| == 1 && chartData.datasets[0].datasetLabel == "Ratings"
    ensures |chartData.datasets[0].data| == |chartData.labels|
    ensures forall i :: 0 <= i < |chartData.labels| ==>
              chartData.datasets[0].data[i] == CountAt(distribution, chartData.labels[i])
    ensures forall i, j :: 0 <= i < j < |chartData.labels| ==>
              chartData.datasets[0].data[i] >= chartData.datasets[0].data[j]
  {
    var le := ChartUtilsRecharts.ByCountDescending(distribution);
    var sortedUsers := SortBy(distribution.keys, le);
    assert TotalPreorder(le);
    SortBySorted(distribution.keys, le);
    var data := seq(|sortedUsers|, i requires 0 <= i < |sortedUsers| => CountAt(distribution, sortedUsers[i]));
    ChartData(sortedUsers, [ChartDataset("Ratings", data, "rgb(54, 162, 235)")])
  }

  // ---------------------------------------------------------------------
  // Proofs
  // ---------------------------------------------------------------------

  /** The buckets are keyed by the raw date strings, in order of first appearance: no parsing. */
  lemma BucketKeys(ratings: seq<Rating>)
    ensures Grouped(DateEntries(ratings)).keys == Dedup(Dates(ratings))
  {
    GroupedKeys(DateEntries(ratings));
    assert KeysOf(DateEntries(ratings)) == Dates(ratings);
  }

  /** The same day written two ways, `1/4/2025` and `01/04/2025`, makes two buckets. */
  lemma SpellingsAreSeparateBuckets()
    ensures Grouped(DateEntries([Rating(1, 1, "1/4/2025", 5, ""), Rating(2, 2, "01/04/2025", 5, "")])).keys
      == ["1/4/2025", "01/04/2025"]
  {
    var rs := [Rating(1, 1, "1/4/2025", 5, ""), Rating(2, 2, "01/04/2025", 5, "")];
    BucketKeys(rs);
    assert Dates(rs) == ["1/4/2025", "01/04/2025"];
    assert Dates(rs)[..1] == ["1/4/2025"];
    assert "01/04/2025" != "1/4/2025";
  }

  /**
   * A bucket's counters are the numbers of ratings with that date string in
   * each segment, and together they count every rating with that date string.
   */
  lemma BucketCounts(ratings: seq<Rating>, k: string)
    requires k in Grouped(DateEntries(ratings)).at
    ensures var es := DateEntries(ratings);
      Grouped(es).at[k] == Counts(Occurrences(es, (k, Positive)), Occurrences(es, (k, Neutral)), Occurrences(es, (k, Negative)))
    ensures Size(Grouped(DateEntries(ratings)).at[k]) == Occurrences(Dates(ratings), k)
  {
    GroupedCounts(DateEntries(ratings), k);
    SegmentsCoverDate(ratings, k);
  }

  /** The three segments of one date string count each rating with that date once. */
  lemma {:induction false} SegmentsCoverDate(ratings: seq<Rating>, k: string)
    ensures var es := DateEntries(ratings);
      Occurrences(es, (k, Positive)) + Occurrences(es, (k, Neutral)) + Occurrences(es, (k, Negative))
        == Occurrences(Dates(ratings), k)
  {
    if ratings != [] {
      var init := ratings[..|ratings| - 1];
      SegmentsCoverDate(init, k);
      var es, ds := DateEntries(ratings), Dates(ratings);
      assert es[..|ratings| - 1] == DateEntries(init);
      assert ds[..|ratings| - 1] == Dates(init);
      SegmentsStep(es, ds, k);
    }
  }

  /** The last entry adds one to exactly the segment of its tone when its key is `k`. */
  lemma SegmentsStep(es: seq<(string, Tone)>, ds: seq<string>, k: string)
    requires |es| == |ds| > 0 && es[|es| - 1].0 == ds[|ds| - 1]
    ensures var es', ds' := es[..|es| - 1], ds[..|ds| - 1];
      Occurrences(es, (k, Positive)) + Occurrences(es, (k, Neutral)) + Occurrences(es, (k, Negative))
        - Occurrences(ds, k)
      == Occurrences(es', (k, Positive)) + Occurrences(es', (k, Neutral)) + Occurrences(es', (k, Negative))
        - Occurrences(ds', k)
  {
    var e := es[|es| - 1];
    assert e == (e.0, e.1);
    assert (k, Positive) == e <==> e.0 == k && e.1 == Positive;
    assert (k, Neutral) == e <==> e.0 == k && e.1 == Neutral;
    assert (k, Negative) == e <==> e.0 == k && e.1 == Negative;
  }

  /** The bars add up to the number of ratings: each rating is in exactly one bar, once. */
  lemma ChartTotal(ratings: seq<Rating>)
    ensures var g := Grouped(DateEntries(ratings));
      SumOf(PrepareBarChartData(ratings).labels, Weights(g, Size)) == |ratings|
  {
    var g := Grouped(DateEntries(ratings));
    var labels := PrepareBarChartData(ratings).labels;
    GroupedTotal(DateEntries(ratings));
    assert multiset(labels) == multiset(g.keys);
    SumOfPermutation(labels, g.keys, Weights(g, Size));
  }

  /** On keys whose three parts are numbers, the comparator orders by (year, month, day). */
  lemma CompareDatesLex(a: string, b: string)
    requires HasDateParts(a) && HasDateParts(b)
    ensures ByDate()(a, b) <==> !LexLess(DateOfKey(b).value, DateOfKey(a).value)
  {
  }

  /** On keys whose three parts are numbers the comparator is a consistent order. */
  lemma DateOrderConsistent()
    ensures PreorderOn(ByDate(), HasDateParts)
  {
    forall a, b | HasDateParts(a) && HasDateParts(b)
      ensures ByDate()(a, b) || ByDate()(b, a)
    {
      CompareDatesLex(a, b);
      CompareDatesLex(b, a);
    }
    forall a, b, c | HasDateParts(a) && HasDateParts(b) && HasDateParts(c) && ByDate()(a, b) && ByDate()(b, c)
      ensures ByDate()(a, c)
    {
      CompareDatesLex(a, b);
      CompareDatesLex(b, c);
      CompareDatesLex(a, c);
    }
  }

  /** For keys that name real dates, the comparator is chronological order. */
  lemma CompareDatesChronological(a: string, b: string)
    requires HasDateParts(a) && HasDateParts(b)
    requires ValidDate(DateOfKey(a).value) && ValidDate(DateOfKey(b).value)
    ensures ByDate()(a, b) <==> DayNumber(DateOfKey(a).value) <= DayNumber(DateOfKey(b).value)
  {
    CompareDatesLex(a, b);
    DayNumberOrder(DateOfKey(b).value, DateOfKey(a).value);
  }

  /** A key whose three parts are the numbers of a real calendar date. */
  predicate RealDateKey(s: string)
  {
    HasDateParts(s) && ValidDate(DateOfKey(s).value)
  }

  /**
   * When every date string names a real date by its numbers, the labels run
   * in chronological order.
   */
  lemma LabelsChronological(ratings: seq<Rating>)
    requires forall r <- ratings :: RealDateKey(r.date)
    ensures Chronological(PrepareBarChartData(ratings).labels)
  {
    var labels := PrepareBarChartData(ratings).labels;
    LabelsSorted(ratings);
    LabelsRealDates(ratings, labels);
    SortedKeysChronological(labels);
  }

  /** Every key names a real date, and each names a date no later than every key after it. */
  predicate Chronological(keys: seq<string>)
  {
    forall i, j :: 0 <= i < j < |keys| ==>
      && RealDateKey(keys[i]) && RealDateKey(keys[j])
      && DayNumber(DateOfKey(keys[i]).value) <= DayNumber(DateOfKey(keys[j]).value)
  }

  lemma LabelsRealDates(ratings: seq<Rating>, labels: seq<string>)
    requires forall r <- ratings :: RealDateKey(r.date)
    requires forall k <- labels :: k in Dates(ratings)
    ensures forall k <- labels :: RealDateKey(k)
  {
    forall k <- labels
      ensures RealDateKey(k)
    {
      DateOfSomeRating(ratings, k);
    }
  }

  /** Real-date keys sorted by the comparator are in chronological order. */
  lemma SortedKeysChronological(keys: seq<string>)
    requires forall k <- keys :: RealDateKey(k)
    requires SortedBy(keys, ByDate())
    ensures Chronological(keys)
  {
    forall i, j | 0 <= i < j < |keys|
      ensures RealDateKey(keys[i]) && RealDateKey(keys[j])
      ensures DayNumber(DateOfKey(keys[i]).value) <= DayNumber(DateOfKey(keys[j]).value)
    {
      assert keys[i] in keys && keys[j] in keys;
      CompareDatesChronological(keys[i], keys[j]);
    }
  }

  lemma DateOfSomeRating(ratings: seq<Rating>, k: string)
    requires forall r <- ratings :: RealDateKey(r.date)
    requires k in Dates(ratings)
    ensures RealDateKey(k)
  {
    var i :| 0 <= i < |ratings| && Dates(ratings)[i] == k;
    assert ratings[i] in ratings;
  }

  /** With every date string read as three numbers, the labels are sorted by the comparator. */
  lemma LabelsSorted(ratings: seq<Rating>)
    requires forall r <- ratings :: HasDateParts(r.date)
    ensures forall k <- PrepareBarChartData(ratings).labels :: k in Dates(ratings)
    ensures SortedBy(PrepareBarChartData(ratings).labels, ByDate())
  {
    var g := Grouped(DateEntries(ratings));
    assert PrepareBarChartData(ratings).labels == SortBy(g.keys, ByDate());
    KeysHaveDateParts(ratings);
    SortByElements(g.keys, ByDate());
    DateOrderConsistent();
    SortBySortedOn(g.keys, ByDate(), HasDateParts);
  }

  lemma KeysHaveDateParts(ratings: seq<Rating>)
    requires forall r <- ratings :: HasDateParts(r.date)
    ensures forall k <- Grouped(DateEntries(ratings)).keys :: k in Dates(ratings) && HasDateParts(k)
  {
    BucketKeys(ratings);
  }

  /** The three numbers of `a/b/c`, for digit fields. */
  lemma DateOfSlashed(a: string, b: string, c: string)
    requires AllDigits(a) && AllDigits(b) && AllDigits(c)
    ensures DateOfKey(Slashed(a, b, c)) == Some(CalDate(DigitsValue(c), DigitsValue(b), DigitsValue(a)))
  {
    assert '/' !in a && '/' !in b && '/' !in c;
    SplitSlashed(a, b, c);
  }

  /** A date written by `formatDateString` reads back, part by part, as that date. */
  lemma FormattedDateKey(d: CalDate)
    requires ValidDate(d) && 1 <= d.year <= 9999
    ensures DateOfKey(FormatDateString(d)) == Some(d)
  {
    var a, b, c := Pad2(d.day), Pad2(d.month), PadStart(NatToString(d.year), 4, '0');
    ParsePad2(d.day);
    ParsePad2(d.month);
    YearField(d.year);
    assert FormatDateString(d) == Slashed(a, b, c);
    DateOfSlashed(a, b, c);
  }
}
