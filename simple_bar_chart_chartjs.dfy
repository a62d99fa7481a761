/**
 * The Chart.js flavour of the bar chart with a grouping the user picks
 * (src/components/dashboard/SimpleBarChart.tsx). Grouping, key order and
 * display labels are the same code as in the Recharts flavour and are reused
 * from `SimpleBarChartRecharts`; what differs is the chart data (labels plus
 * three datasets) and the tooltip title, which looks the hovered bar's key up
 * by index in a differently sorted list.
 */
module SimpleBarChartChartjs {
  import opened Wrappers
  import opened JsText
  import opened Calendar
  import opened Seqs
  import opened Records
  import opened Sorting
  import opened Types
  import opened DateUtils
  import opened Buckets
  import opened ChartUtils
  import opened SimpleBarChartRecharts

  /** The display label of each key, in order. */
  function Labels(keys: seq<string>, groupBy: Granularity): (labels: seq<string>)
    ensures |labels| == |keys|
    ensures forall i :: 0 <= i < |keys| ==> labels[i] == FormatDateForDisplay(keys[i], groupBy)
  {
    seq(|keys|, i requires 0 <= i < |keys| => FormatDateForDisplay(keys[i], groupBy))
  }

  /** The component's state: the grouping the user picked, `'day'` at first. */
  class SimpleBarChart {
    var groupBy: Granularity

    constructor()
      ensures groupBy == Day
    {
      groupBy := Day;
    }

    /** One of the three grouping buttons. */
    method SetGroupBy(g: Granularity)
      modifies this
      ensures groupBy == g
    {
      groupBy := g;
    }

    /**
     * `chartData`: one label per bucket of the current grouping, in the bar
     * key order, and the Positive, Neutral and Negative datasets holding that
     * bucket's counts at the same index.
     */
    method ChartData(ratings: seq<Rating>) returns (data: Types.ChartData)
      ensures var g := Grouped(Entries(ratings, groupBy));
        var keys := BarKeys(g, groupBy);
        && data.labels == Labels(keys, groupBy)
        && data.datasets == Datasets(g, keys)
    {
      var groupedData := GroupData(ratings, groupBy);
      var sortedKeys := BarKeys(groupedData, groupBy);
      data := Types.ChartData(Labels(sortedKeys, groupBy), Datasets(groupedData, sortedKeys));
    }
  }

  // ---------------------------------------------------------------------
  // The tooltip title
  // ---------------------------------------------------------------------

  /** `a <= b` in the default `sort()` order: character by character, a prefix first. */
  predicate TextLe(a: string, b: string)
  {
    if a == [] then true
    else if b == [] then false
    else if a[0] != b[0] then a[0] < b[0]
    else TextLe(a[1..], b[1..])
  }

  function ByText(): (string, string) -> bool
  {
    (a: string, b: string) => TextLe(a, b)
  }

  /**
   * The tooltip title as written: in day grouping it takes the key at the
   * hovered bar's index in the bucket keys sorted as plain text, and shows it
   * in full when it has exactly three parts; otherwise, and in the other
   * groupings, it shows the first item's label.
   */
  function TooltipTitle(g: Rec<Counts>, groupBy: Granularity, dataIndex: nat, axisLabel: string): string
    requires dataIndex < |g.keys|
  {
    if groupBy == Day then
      var sorted := SortBy(g.keys, ByText());
      SortByElements(g.keys, ByText());
      var dateKey := sorted[dataIndex];
      var p := Split(dateKey, '/');
      if |p| == 3 then Slashed(p[0], p[1], p[2]) else axisLabel
    else axisLabel
  }

  /**
   * The tooltip title with the hovered bar's own key: the key at its index in
   * the bar key order the chart is drawn in.
   */
  function BarTooltipTitle(g: Rec<Counts>, groupBy: Granularity, dataIndex: nat, axisLabel: string): string
    requires Valid(g) && dataIndex < |g.keys|
  {
    if groupBy == Day then
      var keys := BarKeys(g, groupBy);
      assert |keys| == |g.keys| by {
        assert |multiset(keys)| == |multiset(g.keys)|;
      }
      var dateKey := keys[dataIndex];
      var p := Split(dateKey, '/');
      if |p| == 3 then Slashed(p[0], p[1], p[2]) else axisLabel
    else axisLabel
  }

  /** In day grouping the corrected title is the full date key of the bar it hovers over. */
  lemma BarTooltipNamesItsBar(g: Rec<Counts>, dataIndex: nat, axisLabel: string)
    requires Valid(g) && dataIndex < |g.keys|
    requires |Split(BarKeys(g, Day)[dataIndex], '/')| == 3
    ensures BarTooltipTitle(g, Day, dataIndex, axisLabel) == BarKeys(g, Day)[dataIndex]
  {
    SlashedOfSplit(BarKeys(g, Day)[dataIndex]);
  }

  /** The corrected title and the label below the same bar name the same day and month. */
  lemma BarTooltipMatchesLabel(g: Rec<Counts>, d: CalDate, dataIndex: nat, axisLabel: string)
    requires Valid(g) && dataIndex < |g.keys|
    requires ValidDate(d) && 1 <= d.year <= 9999
    requires BarKeys(g, Day)[dataIndex] == FormatDateString(d)
    ensures BarTooltipTitle(g, Day, dataIndex, axisLabel) == FormatDateString(d)
    ensures Labels(BarKeys(g, Day), Day)[dataIndex] == FormatDateString(d)[..5]
  {
    FormattedDateParts(d);
    BarTooltipNamesItsBar(g, dataIndex, axisLabel);
    DayShownAsDayMonth(d);
  }

  lemma FormattedDateParts(d: CalDate)
    requires ValidDate(d) && 1 <= d.year <= 9999
    ensures |Split(FormatDateString(d), '/')| == 3
  {
    var a, b, c := Pad2(d.day), Pad2(d.month), PadStart(NatToString(d.year), 4, '0');
    assert Split(Slashed(a, b, c), '/') == [a, b, c] by {
      ParsePad2(d.day);
      ParsePad2(d.month);
      YearField(d.year);
      DigitFieldsSplit(a, b, c);
    }
    assert FormatDateString(d) == Slashed(a, b, c);
  }

  lemma DigitFieldsSplit(a: string, b: string, c: string)
    requires AllDigits(a) && AllDigits(b) && AllDigits(c)
    ensures Split(Slashed(a, b, c), '/') == [a, b, c]
  {
    assert '/' !in a && '/' !in b && '/' !in c;
    SplitSlashed(a, b, c);
  }

  /** Day labels drop the year: two dates on the same day of the month in different years share a label. */
  lemma DayLabelsDropYear(a: CalDate, b: CalDate)
    requires ValidDate(a) && 1 <= a.year <= 9999
    requires ValidDate(b) && 1 <= b.year <= 9999
    requires a.day == b.day && a.month == b.month
    ensures FormatDateForDisplay(FormatDateString(a), Day) == FormatDateForDisplay(FormatDateString(b), Day)
  {
    DayShownAsDayMonth(a);
    DayShownAsDayMonth(b);
  }

  /** Two day buckets, 2 April and 1 May 2025, first seen in that order. */
  function TwoDays(): Rec<Counts>
  {
    Rec(["02/04/2025", "01/05/2025"], map["02/04/2025" := Counts(1, 0, 0), "01/05/2025" := Counts(0, 0, 1)])
  }

  /**
   * The first bar is 2 April (labelled `02/04`), but the written tooltip title
   * over it reads `01/05/2025`: text order puts 1 May first.
   */
  lemma TooltipNamesAnotherBar()
    ensures Valid(TwoDays())
    ensures BarKeys(TwoDays(), Day)[0] == "02/04/2025"
    ensures TooltipTitle(TwoDays(), Day, 0, "02/04") == "01/05/2025"
    ensures BarTooltipTitle(TwoDays(), Day, 0, "02/04") == "02/04/2025"
  {
    FirstBarIsApril();
    WrittenTitleIsMay();
    CorrectedTitleIsApril();
  }

  lemma WrittenTitleIsMay()
    ensures TwoDays().keys != [] && TooltipTitle(TwoDays(), Day, 0, "02/04") == "01/05/2025"
  {
    TextSortsMayFirst();
    TwoDaysParts();
    TooltipTitleOfKey(TwoDays(), 0, "02/04", "01/05/2025", "01", "05", "2025");
  }

  /** In day grouping the written title re-joins the three parts of the text-sorted key at the index. */
  lemma TooltipTitleOfKey(g: Rec<Counts>, dataIndex: nat, axisLabel: string, key: string, a: string, b: string, c: string)
    requires dataIndex < |g.keys|
    requires |SortBy(g.keys, ByText())| == |g.keys| && SortBy(g.keys, ByText())[dataIndex] == key
    requires Split(key, '/') == [a, b, c]
    ensures TooltipTitle(g, Day, dataIndex, axisLabel) == Slashed(a, b, c)
  {
  }

  lemma CorrectedTitleIsApril()
    ensures Valid(TwoDays()) && BarTooltipTitle(TwoDays(), Day, 0, "02/04") == "02/04/2025"
  {
    FirstBarIsApril();
    assert |Split("02/04/2025", '/')| == 3 by {
      TwoDaysParts();
    }
    BarTooltipNamesItsBar(TwoDays(), 0, "02/04");
  }

  lemma TextSortsMayFirst()
    ensures SortBy(TwoDays().keys, ByText()) == ["01/05/2025", "02/04/2025"]
  {
    assert !TextLe("02/04/2025", "01/05/2025") by {
      assert "02/04/2025"[1..] == "2/04/2025" && "01/05/2025"[1..] == "1/05/2025";
    }
    SortTwo("02/04/2025", "01/05/2025", ByText());
  }

  lemma FirstBarIsApril()
    ensures Valid(TwoDays())
    ensures BarKeys(TwoDays(), Day)[0] == "02/04/2025"
  {
    TwoDaysValid();
    assert SortBy(TwoDays().keys, SortKeys(Day)) == TwoDays().keys by {
      CompareAprilMay();
      SortTwo("02/04/2025", "01/05/2025", SortKeys(Day));
    }
  }

  lemma TwoDaysValid()
    ensures Valid(TwoDays())
  {
    assert "02/04/2025" != "01/05/2025" by {
      assert "02/04/2025"[1] != "01/05/2025"[1];
    }
  }

  lemma CompareAprilMay()
    ensures CompareDates("02/04/2025", "01/05/2025") == -1
  {
    ExampleFields();
    MayFields();
    TwoDaysParts();
  }

  /** Sorting two elements keeps them in order exactly when the first may precede the second. */
  lemma SortTwo<T>(x: T, y: T, le: (T, T) -> bool)
    ensures le(x, y) ==> SortBy([x, y], le) == [x, y]
    ensures !le(x, y) ==> SortBy([x, y], le) == [y, x]
  {
    assert [x, y][..1] == [x];
    assert [x][..0] == [];
  }

  lemma MayFields()
    ensures AllDigits("01") && DigitsValue("01") == 1
    ensures AllDigits("05") && DigitsValue("05") == 5
  {
    assert "01"[..1] == "0" && "05"[..1] == "0" && "0"[..0] == "";
  }

  /** The two bucket keys, 2 April and 1 May 2025, as their three fields; the written tooltip title re-joins the second. */
  lemma TwoDaysParts()
    ensures Slashed("02", "04", "2025") == "02/04/2025"
    ensures Split("02/04/2025", '/') == ["02", "04", "2025"]
    ensures Slashed("01", "05", "2025") == "01/05/2025"
    ensures Split("01/05/2025", '/') == ["01", "05", "2025"]
  {
    assert "02/04/2025" == Slashed("02", "04", "2025");
    SplitSlashed("02", "04", "2025");
    assert "01/05/2025" == Slashed("01", "05", "2025");
    SplitSlashed("01", "05", "2025");
  }
}
