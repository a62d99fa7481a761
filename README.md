# rating-dashboard: a verified model of the filtering and charting core

The rating dashboard shows chatbot feedback ratings. Each rating has a score from -10 to 10 (the model takes it to be an integer; see "## Left out") and a `dd/mm/yyyy` date. It is given by one of seven users. This project models the parts of the dashboard that decide what is shown:

- **filter engine** (`FilterUtils`). It selects the ratings that pass the user, date-window and rating-category filters. It also computes the five overlapping summary counts, the ratings behind one summary card and the per-user distribution.
- **date codec** (`DateUtils`, over `Calendar` and `JsText`). It parses and formats `dd/MM/yyyy` text the way date-fns does, validates date strings and computes the preset windows (last day, week, month or quarter).
- **chart aggregators.** These group ratings into day, week or month buckets split into positive, neutral and negative. They choose a granularity and sort the buckets:
  - `ChartUtilsRecharts` and `ChartUtils` model the two utility modules;
  - `SimpleBarChartRecharts` and `SimpleBarChartChartjs` model the two `SimpleBarChart` components, each a class whose `groupBy` field is its state cell.
- **view state.**
  - `FilterContext.FilterProvider` is a class whose `filters` field is the React state cell. Its methods are the handlers. `ApplyPeriodPreset` is the effect that re-derives the date window from the selected period.
  - `DashboardContext.DashboardProvider` holds the selected category, the active tab and the per-id expansion flags.
- **mock data** (`MockData`). It holds the seven users and the generator of the 200 ratings. The calls to `Math.random` become a `Draws` record of four numbers in `[0, 1)`.

Supporting modules:

- `Records` models a JavaScript object used as a dictionary: a key list in insertion order (what `Object.keys` returns) plus a map.
- `Buckets` holds the shared tone/count bucket type and the specification of grouping (`Grouped`).
- `Sorting` is a stable insertion sort that stands in for `Array.prototype.sort` with a comparator.
- `Seqs` holds filtering and counting on sequences.
- `Calendar` is the proleptic Gregorian calendar, together with the `new Date(y, m, d)` normalisation and the week number the source computes.
- `JsText` models `String`, `Number`, `parseInt`, `padStart` and `split` on the inputs the source gives them.

Two details of the code shape the model:

- **Summary counts.** The summary's positive band is `1..6` and its neutral band is `-3..3` (src/utils/filterUtils.ts:49-51). Scores 1..3 are therefore counted as both positive and neutral, and 4 as positive only. `FilterUtils.SummaryOverlap` states both cases.
- **Feedback-flag name.** The dashboard type names the feedback flag record `expandedMessages` (src/models/types.ts:63). The context's default state and handler use `expandedFeedbacks` (src/context/DashboardContext.tsx:15). The model uses `expandedFeedbacks`, as the context does.

## Model

| member | source | states |
|---|---|---|
| Constants.FindCategory | src/utils/filterUtils.ts:31 | `find` by id: some result exactly when some entry has the id, and then the result is a table entry with that id |
| Seqs.Find | src/utils/filterUtils.ts:31 | `Array.prototype.find` by a key: some result exactly when an element has the key, and then the first such element |
| Seqs.FindFirst | src/utils/filterUtils.ts:31 | `find` returns the element at the first index whose key matches |
| Constants.FindTimePeriod | src/context/FilterContext.tsx:36 | `find` by period id: some result exactly when an option has the id, and then it is that option |
| Constants.AllSpansDomain | src/utils/constants.ts:14 | the "all" category covers the whole score domain -10..10 |
| Constants.CategoryTableWellFormed | src/utils/constants.ts:13-20 | every category range is non-empty and the category ids are pairwise distinct |
| Constants.CategoriesOverlap | src/utils/constants.ts:15-17 | 1..3 lie in both "positive" and "neutral", and -3..-1 in both "negative" and "neutral": the ranges overlap |
| Constants.CategoriesCoverDomain | src/utils/constants.ts:15-19 | every score -10..10 lies in some category other than "all" |
| Constants.PresetDays | src/utils/constants.ts:4-10 | only "custom" has no day count; the presets are 1, 7, 30 and 90 days |
| DateUtils.ParseFields | src/utils/dateUtils.ts:4-11 | the `dd/MM/yyyy` pattern accepts one or two digits for day and month and one to four digits for the year |
| DateUtils.DateOfFields | src/utils/dateUtils.ts:4-11 | a parsed date is a real calendar date with a year in 1..9999 (`isValid`) |
| DateUtils.ParseDate | src/utils/dateUtils.ts:4-11 | `parseDate` returns a date only when it is a real calendar date, otherwise null |
| DateUtils.FormatDateString | src/utils/dateUtils.ts:14-16 | formatting gives ten characters matching `\d{2}/\d{2}/\d{4}`, and parsing them back gives the date |
| DateUtils.GetDateRangeForPeriod | src/utils/dateUtils.ts:30-39 | `toDate` parses to the base date; `fromDate` parses to the day `periodDays - 1` days earlier |
| DateUtils.ParseFieldsOf | src/utils/dateUtils.ts:4-11 | digit fields joined by slashes are read back as exactly those fields |
| DateUtils.SlashedPattern | src/utils/dateUtils.ts:22-23 | two, two and four digits joined by slashes match the validation regex |
| DateUtils.FormatParses | src/utils/dateUtils.ts:14-16 | the padded day/month/year text of a valid date matches the regex and parses back to that date |
| DateUtils.ParseFormatRoundTrip | src/utils/dateUtils.ts:19-27 | every string `isValidDateString` accepts is reproduced exactly by formatting its parse |
| DateUtils.FormatParseRoundTrip | src/utils/dateUtils.ts:14-27 | every formatted date is a valid date string and parses back to the same date |
| DateUtils.AcceptsRealDate | src/utils/dateUtils.ts:19-27 | "19/04/2025" is valid and parses to 19 April 2025 |
| DateUtils.RejectsImpossibleDate | src/utils/dateUtils.ts:19-27 | "31/02/2025" and the empty string are rejected; "31/02/2025" does not parse |
| DateUtils.IsValidDateString | src/utils/dateUtils.ts:19-27 | no contract; a non-empty string of the `dd/MM/yyyy` shape that parses to a real date. Specified by `DateUtils.AcceptsRealDate`, `DateUtils.RejectsImpossibleDate` and `DateUtils.FormatParseRoundTrip` |
| Calendar.MakeLocalDate | src/utils/chartUtilsRecharts.ts:20 | `new Date(y, m - 1, d)`: any result is a valid date inside the time range; `Calendar.MakeLocalDateDefined` gives a result for every year 0..9999, month index 0..11 and day 1..31; its value is given by `Calendar.MakeLocalDateRollover` and `Calendar.MakeLocalDateTwoDigitYear` |
| Calendar.MakeLocalDateTwoDigitYear | src/utils/chartUtilsRecharts.ts:20 | `new Date` reads a year 0..99 as 1900..1999 |
| Calendar.MakeLocalDateRollover | src/utils/chartUtilsRecharts.ts:20 | from year 100 on, any month index rolls over whole years (`y + m / 12`, month `m % 12 + 1`) and the day runs on from the first of that month; outside the time range the result is Invalid Date |
| Calendar.MonthThirteenIsNextJanuary | src/utils/chartUtilsRecharts.ts:20 | month index 12 of 2025, as "01/13/2025" gives, is 1 January 2026 |
| Calendar.DayThirtyOneOfFebruaryIsMarchThird | src/utils/chartUtilsRecharts.ts:20 | day 31 of February 2025, as "31/02/2025" gives, is 3 March 2025 |
| JsText.Split | src/utils/chartUtils.ts:32-33 | `split('/')`: at least one part, and no part contains the separator; `JsText.JoinSplit` joins the parts back to the string |
| JsText.JoinSplit | src/utils/chartUtils.ts:32-33 | joining the parts of a split with the same separator gives the original string |
| JsText.ToNumber | src/utils/chartUtils.ts:32-33 | `Number` on a part: the empty string reads as 0, and a value exists exactly for digit strings |
| JsText.ParseInt | src/components/dashboard/SimpleBarChart.recharts.tsx:129-132 | the unsigned leading-digit reader inside `parseInt`: a value exists exactly when the string starts with a digit, and it is the value of the leading digits |
| JsText.ParseSigned | src/utils/chartUtilsRecharts.ts:185-186 | `parseInt` with its optional sign: a leading `-` negates the value of the digits after it, a leading `+` is dropped, a leading digit reads as `JsText.ParseInt`; a value exists exactly when a digit follows the optional sign |
| JsText.Substring | src/components/dashboard/SimpleBarChart.recharts.tsx:129-130 | `substring(a, b)`: `s[a..b]` for in-range ends, the ends swapped when `a > b`, empty when both lie past the end, never longer than `s` |
| JsText.PadStart | src/data/mockData.ts:79 | `padStart(width, c)`: length is the larger of `\|s\|` and `width`, the string ends with `s`, and every character before it is `c` |
| DateUtils.PeriodRangeEnds | src/utils/dateUtils.ts:30-39 | the window ends on the base date, starts no later than it, and is a single day exactly when the period is 1 |
| FilterUtils.RangesIn | src/utils/filterUtils.ts:29-34 | the resolved ranges are table entries, at most one per selected id |
| FilterUtils.RangesInResolve | src/utils/filterUtils.ts:29-34 | a range is kept exactly when some selected id resolves to it; unknown ids are dropped |
| FilterUtils.UserPasses | src/utils/filterUtils.ts:9-11 | no contract; the user stage. Specified by `FilterUtils.EmptyUserSelection` and `FilterUtils.UserSelection` |
| FilterUtils.IsoDay | src/utils/filterUtils.ts:14-23 | no contract; `new Date('yyyy-mm-dd')` of a split date as a day number or Invalid Date. Specified by `FilterUtils.IsoDayOfFields`, `FilterUtils.IsoDayOfFormatted` and `FilterUtils.InvalidBoundDropsAll` |
| FilterUtils.DatePasses | src/utils/filterUtils.ts:21-25 | no contract; the date stage. Specified by `FilterUtils.DateStageInclusive` (both bounds inclusive) and `FilterUtils.InvalidBoundDropsAll` |
| FilterUtils.CategoryPasses | src/utils/filterUtils.ts:28-40 | no contract; the category stage. Specified by `FilterUtils.AllSentinel`, `FilterUtils.CategoryStageIsUnion` and `FilterUtils.NoKnownIdNoRestriction` |
| FilterUtils.RangesResolve | src/utils/filterUtils.ts:29-34 | the same, for the built-in category table |
| FilterUtils.GetFilteredRatings | src/utils/filterUtils.ts:5-44 | the three successive `filter` passes compute the user/date/category filter specification |
| FilterUtils.FilteredIsSubsequence | src/utils/filterUtils.ts:5-44 | the result is a subsequence of the input: order is kept and nothing is invented |
| FilterUtils.FilteringIdempotent | src/utils/filterUtils.ts:5-44 | filtering an already filtered list changes nothing |
| FilterUtils.EmptyUserSelection | src/utils/filterUtils.ts:9-11 | an empty user selection means no user restriction: it acts as selecting every user |
| FilterUtils.UserSelection | src/utils/filterUtils.ts:9-11 | with a non-empty selection, a rating passes exactly when its user is selected and it passes the other stages |
| FilterUtils.InvalidBoundDropsAll | src/utils/filterUtils.ts:14-25 | when either bound is not a date (Invalid Date), every rating is dropped |
| FilterUtils.IsoDayOfFields | src/utils/filterUtils.ts:14-18 | the `yyyy-mm-dd` text built from the parts reads as that day (with day rollover inside a month) |
| FilterUtils.IsoDayOfFormatted | src/utils/filterUtils.ts:22-23 | a formatted date reads as its own day number |
| FilterUtils.DateStageInclusive | src/utils/filterUtils.ts:14-25 | for well-formed dates, a rating passes the date stage exactly when its day lies in from..to inclusive |
| FilterUtils.AllSentinel | src/utils/filterUtils.ts:28 | "all" among the categories removes every category restriction |
| FilterUtils.UnknownIdIgnored | src/utils/filterUtils.ts:31-34 | an id with no category adds no range |
| FilterUtils.CategoryStageIsUnion | src/utils/filterUtils.ts:36-40 | with some known id, a rating passes exactly when its score lies in the range of some selected category |
| FilterUtils.NoKnownIdNoRestriction | src/utils/filterUtils.ts:36 | when no selected id is known, the category stage keeps everything, as "all" does |
| FilterUtils.GetSummaryData | src/utils/filterUtils.ts:47-63 | the summary has exactly the categories with a non-zero count, in declaration order, each with its count |
| FilterUtils.DeleteZeros | src/utils/filterUtils.ts:57-61 | deleting while walking `Object.keys` removes exactly the zero entries, keeps the rest and keeps their order |
| FilterUtils.SummaryOverlap | src/utils/filterUtils.ts:49-51 | a 2 counts as positive and as neutral; a 4 counts as positive only |
| FilterUtils.GetCategoryRatings | src/utils/filterUtils.ts:67-84 | the result is drawn from the input and is no longer |
| FilterUtils.CategoryRatingsMatchSummary | src/utils/filterUtils.ts:67-80 | for each summary key the selected ratings are exactly the ones that key counts, so their number is the summary count |
| FilterUtils.CategoryRatingsUnknown | src/utils/filterUtils.ts:68-83 | no category, or an unknown one, gives the empty list |
| FilterUtils.FindUser | src/utils/filterUtils.ts:91 | `users.find` by id: some result exactly when a user has the id, and then that user |
| FilterUtils.DisplayName | src/utils/filterUtils.ts:91 | the display name is never empty |
| FilterUtils.DisplayNameCases | src/utils/filterUtils.ts:91 | the name is the user's own when it is known and non-empty, otherwise "User <id>" |
| FilterUtils.NamesOf | src/utils/filterUtils.ts:90-91 | one display name per rating, in order |
| FilterUtils.GetUserDistributionData | src/utils/filterUtils.ts:87-99 | the `forEach` loop builds the tally of the ratings' display names |
| FilterUtils.DistributionCounts | src/utils/filterUtils.ts:87-99 | the counts add up to the number of ratings, and each name's count is its number of occurrences |
| FilterUtils.UnknownUserKey | src/utils/filterUtils.ts:91 | a rating by an unknown user is counted under "User <id>" |
| Buckets.Bump | src/utils/chartUtils.ts:14-20 | counting one rating adds exactly one to its tone's count and leaves the other two unchanged |
| Buckets.BumpTone | src/utils/chartUtils.ts:13-20 | the `> 3` / `< -3` / otherwise branches are exactly a bump of the rating's tone |
| Buckets.ChartToneSplit | src/utils/chartUtilsRecharts.ts:77-83 | the chart's neutral band is the "neutral" category -3..3; positive is 4 and above, negative -4 and below |
| Buckets.Grouped | src/utils/chartUtils.ts:4-24 | grouping (key, tone) entries yields a well-formed record |
| Buckets.GroupedKeys | src/utils/chartUtils.ts:9-11 | the bucket keys are the entry keys without repeats, in first-seen order |
| Buckets.GroupedHasKey | src/utils/chartUtils.ts:9-11 | a key has a bucket exactly when some entry has that key |
| Buckets.GroupedCounts | src/utils/chartUtils.ts:13-20 | each bucket's three counts are the numbers of its entries with each tone |
| Buckets.GroupedTotal | src/utils/chartUtils.ts:7-21 | the bucket sizes add up to the number of entries |
| ChartUtils.DateEntries | src/utils/chartUtils.ts:8-20 | each rating contributes its raw date text and its tone, in order |
| ChartUtils.GroupRatingsByDate | src/utils/chartUtils.ts:4-24 | the `forEach` loop computes the grouping of the date entries |
| ChartUtils.BucketKeys | src/utils/chartUtils.ts:8-11 | the buckets are the distinct date strings in first-seen order |
| ChartUtils.SpellingsAreSeparateBuckets | src/utils/chartUtils.ts:8-11 | "1/4/2025" and "01/04/2025" are two buckets: keys are raw text |
| ChartUtils.BucketCounts | src/utils/chartUtils.ts:13-20 | a bucket counts each tone of its date, and its size is the number of ratings on that date |
| ChartUtils.SegmentsCoverDate | src/utils/chartUtils.ts:13-20 | the three segments of a date add up to the number of ratings on it |
| ChartUtils.DateOfKey | src/utils/chartUtils.ts:32-33 | `split('/').map(Number)` gives non-negative parts when it gives numbers |
| ChartUtils.DateOfSlashed | src/utils/chartUtils.ts:32-33 | digit fields are read back as day, month and year |
| ChartUtils.FormattedDateKey | src/utils/chartUtils.ts:32-33 | a formatted date is read back as itself |
| ChartUtils.CompareDates | src/utils/chartUtils.ts:31-41 | no contract; the comparator on years, then months, then days (also the day comparator at src/components/dashboard/SimpleBarChart.recharts.tsx:115-123). Specified by `ChartUtils.CompareDatesLex`, `ChartUtils.DateOrderConsistent` and `ChartUtils.CompareDatesChronological` |
| ChartUtils.CompareDatesLex | src/utils/chartUtils.ts:31-41 | on keys with three numeric parts the comparator orders by (year, month, day) |
| ChartUtils.DateOrderConsistent | src/utils/chartUtils.ts:31-41 | on such keys the comparator is a total preorder, so sorting with it is meaningful |
| ChartUtils.CompareDatesChronological | src/utils/chartUtils.ts:31-41 | on real dates the comparator agrees with calendar order |
| ChartUtils.Datasets | src/utils/chartUtils.ts:43-62 | three datasets, Positive, Neutral and Negative, each carrying the bucket counts label by label |
| ChartUtils.PrepareBarChartData | src/utils/chartUtils.ts:27-65 | the labels are a permutation of the distinct dates without repeats, and the datasets are their counts |
| ChartUtils.LabelsAreDates | src/utils/chartUtils.ts:28-41 | the sorted keys are the distinct dates, each one a bucket |
| ChartUtils.LabelsSorted | src/utils/chartUtils.ts:31-41 | when every date has three numeric parts, the labels are sorted by the comparator |
| ChartUtils.LabelsChronological | src/utils/chartUtils.ts:27-44 | when every date is a real date, the labels are in calendar order |
| ChartUtils.SortedKeysChronological | src/utils/chartUtils.ts:31-41 | any list sorted by the comparator over real dates is in calendar order |
| ChartUtils.ChartTotal | src/utils/chartUtils.ts:27-65 | the bars add up to the number of ratings |
| ChartUtils.PrepareUserDistributionData | src/utils/chartUtils.ts:68-84 | the labels are a permutation of the names, each with its count, in non-increasing order of count, under one "Ratings" dataset |
| ChartUtilsRecharts.ParseDate | src/utils/chartUtilsRecharts.ts:4-25 | a date is produced only as a valid calendar date inside the JavaScript time range |
| ChartUtilsRecharts.DateOfParts | src/utils/chartUtilsRecharts.ts:12-20 | `new Date(year, month - 1, day)` gives a valid, representable date or Invalid Date |
| ChartUtilsRecharts.NoSlashSkipped | src/utils/chartUtilsRecharts.ts:59-62 | a rating whose date is empty or has no slash is skipped |
| ChartUtilsRecharts.MalformedDateIsToday | src/utils/chartUtilsRecharts.ts:4-25 | a slashed date that does not split into three numbers is filed under today's bucket |
| ChartUtilsRecharts.DayKeyRoundTrip | src/utils/chartUtilsRecharts.ts:4-25 | parsing a day key gives back its date |
| ChartUtilsRecharts.PartsOfDate | src/utils/chartUtilsRecharts.ts:20 | building a date from its own parts gives that date |
| ChartUtilsRecharts.MonthKey | src/utils/chartUtilsRecharts.ts:31-33 | no contract; `MM/YYYY`. Specified by `ChartUtilsRecharts.MonthKeyFields` and `ChartUtilsRecharts.MonthKeySortKey` |
| ChartUtilsRecharts.WeekOfYear | src/utils/chartUtilsRecharts.ts:35-38 | no contract; the approximate week number. Specified by `ChartUtilsRecharts.WeekOfYearIs` |
| ChartUtilsRecharts.WeekKey | src/utils/chartUtilsRecharts.ts:34-39 | no contract; `W<n>/YYYY`. Specified by `ChartUtilsRecharts.WeekKeyFields` and `ChartUtilsRecharts.WeekKeySortKey` |
| ChartUtilsRecharts.DayKey | src/utils/chartUtilsRecharts.ts:40-43 | no contract; `DD/MM/YYYY`. Specified by `ChartUtilsRecharts.DayKeyFields`, `ChartUtilsRecharts.DayKeyIsFormatted` and `ChartUtilsRecharts.DayKeyRoundTrip` |
| ChartUtilsRecharts.FormatDateKey | src/utils/chartUtilsRecharts.ts:28-49 | no contract; `formatDateKey` dispatches to the month, week and day keys above, whose lemmas specify it |
| ChartUtilsRecharts.KeyOf | src/utils/chartUtilsRecharts.ts:59-70 | no contract; the key a rating is counted under, or none when it is skipped. Specified by `ChartUtilsRecharts.NoSlashSkipped` and `ChartUtilsRecharts.MalformedDateIsToday` |
| ChartUtilsRecharts.GroupRatingsByDate | src/utils/chartUtilsRecharts.ts:52-93 | the `forEach` loop computes the grouping of the processed ratings' keys and tones |
| ChartUtilsRecharts.EntriesCount | src/utils/chartUtilsRecharts.ts:57-62 | one entry per rating that is not skipped |
| ChartUtilsRecharts.BucketTotal | src/utils/chartUtilsRecharts.ts:52-93 | the bucket sizes add up to the number of ratings that are not skipped |
| ChartUtilsRecharts.WeekOfYearIs | src/utils/chartUtilsRecharts.ts:34-39 | the week computed from milliseconds is the calendar week number, 1..54 |
| ChartUtilsRecharts.DayKeyFields | src/utils/chartUtilsRecharts.ts:40-43 | a day key is padded day, padded month and year joined by slashes |
| ChartUtilsRecharts.DayKeyIsFormatted | src/utils/chartUtilsRecharts.ts:40-43 | for four-digit years the day key equals the `dd/MM/yyyy` format |
| ChartUtilsRecharts.MonthKeyFields | src/utils/chartUtilsRecharts.ts:31-33 | a month key is padded month and year |
| ChartUtilsRecharts.WeekKeyFields | src/utils/chartUtilsRecharts.ts:34-39 | a week key is "W", the week number, a slash and the year |
| ChartUtilsRecharts.MinOf | src/utils/chartUtilsRecharts.ts:141 | `Math.min` of the timestamps is a member and no larger than any |
| ChartUtilsRecharts.MaxOf | src/utils/chartUtilsRecharts.ts:142 | `Math.max` is a member and no smaller than any |
| ChartUtilsRecharts.SpanIsWidest | src/utils/chartUtilsRecharts.ts:141-145 | the span bounds every difference between two dates and is reached by one |
| ChartUtilsRecharts.ChooseGrouping | src/utils/chartUtilsRecharts.ts:120-153 | month above 60 days of span, week above 14, otherwise (and with no dated ratings) day |
| ChartUtilsRecharts.GetSortKey | src/utils/chartUtilsRecharts.ts:181-225 | no contract; `getSortKey`. Specified by `ChartUtilsRecharts.DayKeySortKey`, `ChartUtilsRecharts.MonthKeySortKey`, `ChartUtilsRecharts.WeekKeySortKey`, `ChartUtilsRecharts.MalformedKeySortsAsZero` and the three `...KeysChronological` lemmas |
| ChartUtilsRecharts.DayKeySortKey | src/utils/chartUtilsRecharts.ts:206-217 | a day key sorts as year·10000 + month·100 + day |
| ChartUtilsRecharts.MonthKeySortKey | src/utils/chartUtilsRecharts.ts:195-205 | a month key sorts as year·100 + month |
| ChartUtilsRecharts.WeekKeySortKey | src/utils/chartUtilsRecharts.ts:183-194 | a week key sorts as year·10000 + week·7 |
| ChartUtilsRecharts.DayKeysChronological | src/utils/chartUtilsRecharts.ts:206-217 | day keys sort strictly earlier exactly when the day is earlier |
| ChartUtilsRecharts.MonthKeysChronological | src/utils/chartUtilsRecharts.ts:195-205 | a month key never sorts after the key of a later date |
| ChartUtilsRecharts.WeekKeysChronological | src/utils/chartUtilsRecharts.ts:183-194 | a week key never sorts after the key of a later date |
| ChartUtilsRecharts.MalformedKeySortsAsZero | src/utils/chartUtilsRecharts.ts:220 | a key with no slash that is not a week sorts as 0 |
| ChartUtilsRecharts.SortKeyOrder | src/utils/chartUtilsRecharts.ts:228 | the sort-key comparator is a total preorder |
| ChartUtilsRecharts.Bars | src/utils/chartUtilsRecharts.ts:235-244 | one bar per key in order, carrying that bucket's counts, its display label and the original key |
| ChartUtilsRecharts.PrepareBarChartData | src/utils/chartUtilsRecharts.ts:118-258 | the grouping follows the span thresholds, and the bars are the buckets of that grouping, each shown once with its counts |
| ChartUtilsRecharts.SortedBars | src/utils/chartUtilsRecharts.ts:228-244 | sorting then mapping shows every bucket exactly once |
| ChartUtilsRecharts.FormatDisplayLabel | src/utils/chartUtilsRecharts.ts:96-110 | no contract; `formatDisplayLabel`. Specified by `ChartUtilsRecharts.WeekLabel`, `ChartUtilsRecharts.WeekLabelWithoutSlash`, `ChartUtilsRecharts.MonthLabel` and `ChartUtilsRecharts.DayLabelUnchanged` |
| ChartUtilsRecharts.WeekLabel | src/utils/chartUtilsRecharts.ts:98-100 | a week key is labelled "Week <n>" |
| ChartUtilsRecharts.WeekLabelWithoutSlash | src/utils/chartUtilsRecharts.ts:98-100 | a "W…" key without a slash is labelled "Week W" |
| ChartUtilsRecharts.MonthLabel | src/utils/chartUtilsRecharts.ts:101-106 | a month key is labelled with the month's short name and the year |
| ChartUtilsRecharts.DayLabelUnchanged | src/utils/chartUtilsRecharts.ts:107-110 | a day key is shown unchanged |
| ChartUtilsRecharts.PrepareUserDistributionData | src/utils/chartUtilsRecharts.ts:261-278 | one entry per name, a permutation of the names, each with its count, in non-increasing order of count |
| ChartUtilsRecharts.DistributionEntries | src/utils/chartUtilsRecharts.ts:261-278 | the names are distinct and each entry carries that name's count |
| SimpleBarChartRecharts.SimpleBarChart.constructor | src/components/dashboard/SimpleBarChart.recharts.tsx:25 | grouping starts as day |
| SimpleBarChartRecharts.SimpleBarChart.SetGroupBy | src/components/dashboard/SimpleBarChart.recharts.tsx:25 | the setter replaces the grouping |
| SimpleBarChartRecharts.WeekNum | src/components/dashboard/SimpleBarChart.recharts.tsx:78-81 | no contract; the week formula on `new Date(year, month - 1, day)`, none for Invalid Date. Specified by `SimpleBarChartRecharts.WeekNumIs`, `SimpleBarChartRecharts.WeekFromYear` and `SimpleBarChartRecharts.WeekNumDefined` |
| SimpleBarChartRecharts.KeyOf | src/components/dashboard/SimpleBarChart.recharts.tsx:75-85 | no contract; the raw date, its week key or its month key. Specified by `SimpleBarChartRecharts.GroupKeyOf`, `SimpleBarChartRecharts.WeekKeyOfFormattedDate` and `SimpleBarChartRecharts.MonthKeyUnpadded` |
| SimpleBarChartRecharts.GroupKey | src/components/dashboard/SimpleBarChart.recharts.tsx:68-85 | no contract; none when a date part is NaN, else the key. Specified by `SimpleBarChartRecharts.SkippedIffNaN`, `SimpleBarChartRecharts.GroupKeyOf` and `SimpleBarChartRecharts.KeysOfFormattedDate` |
| SimpleBarChartRecharts.GroupData | src/components/dashboard/SimpleBarChart.recharts.tsx:58-106 | the `forEach` loop computes the grouping of the kept ratings' keys and tones |
| SimpleBarChartRecharts.SkippedIffNaN | src/components/dashboard/SimpleBarChart.recharts.tsx:68-72 | a rating is skipped exactly when its date does not split into three numbers |
| SimpleBarChartRecharts.EntriesCount | src/components/dashboard/SimpleBarChart.recharts.tsx:63-72 | one entry per kept rating |
| SimpleBarChartRecharts.BucketTotal | src/components/dashboard/SimpleBarChart.recharts.tsx:58-106 | the bucket sizes add up to the number of kept ratings |
| SimpleBarChartRecharts.EntryKeysFromRatings | src/components/dashboard/SimpleBarChart.recharts.tsx:74-85 | every bucket key is the key of some rating |
| SimpleBarChartRecharts.GroupKeyOf | src/components/dashboard/SimpleBarChart.recharts.tsx:74-85 | the key is computed from the date's numeric parts |
| SimpleBarChartRecharts.KeysOfFormattedDate | src/components/dashboard/SimpleBarChart.recharts.tsx:74-85 | a formatted date keys as itself by day and as "<month>/<year>" by month |
| SimpleBarChartRecharts.MonthKeyUnpadded | src/components/dashboard/SimpleBarChart.recharts.tsx:83-85 | 19/04/2025 has month key "4/2025": the month is not padded |
| SimpleBarChartRecharts.WeekKeyOfFormattedDate | src/components/dashboard/SimpleBarChart.recharts.tsx:76-82 | a formatted date has week key "W<calendar week>/<year>", the week in 1..54 |
| SimpleBarChartRecharts.WeekNumIs | src/components/dashboard/SimpleBarChart.recharts.tsx:78-81 | the millisecond week formula equals the calendar week number |
| SimpleBarChartRecharts.WeekFromYear | src/components/dashboard/SimpleBarChart.recharts.tsx:78-81 | the component's week formula is the utility module's |
| SimpleBarChartRecharts.KeysReadable | src/components/dashboard/SimpleBarChart.recharts.tsx:74-85 | by day or month, every bucket key has the parts the sort reads |
| SimpleBarChartRecharts.KeyReadable | src/components/dashboard/SimpleBarChart.recharts.tsx:74-85 | the same, for one key |
| SimpleBarChartRecharts.WeekKeysReadable | src/components/dashboard/SimpleBarChart.recharts.tsx:74-85 | by week, every bucket key of plainly dated ratings has a week number and year the sort reads |
| SimpleBarChartRecharts.WeekKeyReadable | src/components/dashboard/SimpleBarChart.recharts.tsx:74-85 | the same, for one week key |
| SimpleBarChartRecharts.WeekNumDefined | src/components/dashboard/SimpleBarChart.recharts.tsx:78-81 | for day 1..31, month 1..12 and year 0..9999 both `new Date` calls are valid, so the week number is not NaN |
| Calendar.MakeLocalDateDefined | src/components/dashboard/SimpleBarChart.recharts.tsx:78-79 | `new Date(year, monthIndex, day)` is a valid date for years 0..9999, month index 0..11 and day 1..31 |
| SimpleBarChartRecharts.FormattedDateIsPlain | src/components/dashboard/SimpleBarChart.recharts.tsx:68 | a `dd/MM/yyyy` text of a real date of years 1..9999 has plain parts |
| SimpleBarChartRecharts.CompareWeeks | src/components/dashboard/SimpleBarChart.recharts.tsx:124-133 | no contract; years, then weeks. Specified by `SimpleBarChartRecharts.CompareWeeksLex`, `SimpleBarChartRecharts.WeekKeyOrder` and `SimpleBarChartRecharts.WeekKeysChronological` |
| SimpleBarChartRecharts.CompareMonths | src/components/dashboard/SimpleBarChart.recharts.tsx:134-141 | no contract; years, then months. Specified by `SimpleBarChartRecharts.CompareMonthsLex`, `SimpleBarChartRecharts.MonthKeyOrder` and `SimpleBarChartRecharts.MonthKeysChronological` |
| SimpleBarChartRecharts.CompareKeys | src/components/dashboard/SimpleBarChart.recharts.tsx:113-142 | no contract; `sortKeys` for the grouping. Specified by `SimpleBarChartRecharts.KeysCompareLex` and `SimpleBarChartRecharts.SortKeysConsistent` |
| SimpleBarChartRecharts.SortKeys | src/components/dashboard/SimpleBarChart.recharts.tsx:113-144 | no contract; the order `sort(sortKeys)` uses (a comparison result at most 0). Specified by `SimpleBarChartRecharts.SortKeysConsistent`, `SimpleBarChartRecharts.SortedWhenReadable` and `SimpleBarChartRecharts.BarKeysSorted` |
| SimpleBarChartRecharts.MonthKeyOrder | src/components/dashboard/SimpleBarChart.recharts.tsx:134-141 | the month sort reads back (year, month) from a month key |
| SimpleBarChartRecharts.WeekKeyOrder | src/components/dashboard/SimpleBarChart.recharts.tsx:124-133 | the week sort reads back (year, week) from a week key |
| SimpleBarChartRecharts.WeekKeySplit | src/components/dashboard/SimpleBarChart.recharts.tsx:83 | a week key splits into "W<week>" and the year |
| SimpleBarChartRecharts.CompareMonthsLex | src/components/dashboard/SimpleBarChart.recharts.tsx:134-141 | the month comparator is (year, month) order |
| SimpleBarChartRecharts.CompareWeeksLex | src/components/dashboard/SimpleBarChart.recharts.tsx:124-133 | the week comparator is (year, week) order |
| SimpleBarChartRecharts.KeysCompareLex | src/components/dashboard/SimpleBarChart.recharts.tsx:113-142 | on readable keys each comparator is the lexicographic order of its numeric fields |
| SimpleBarChartRecharts.SortKeysConsistent | src/components/dashboard/SimpleBarChart.recharts.tsx:113-142 | on readable keys each comparator is a total preorder |
| SimpleBarChartRecharts.MonthKeysChronological | src/components/dashboard/SimpleBarChart.recharts.tsx:134-141 | month keys of ordered dates are ordered |
| SimpleBarChartRecharts.WeekKeysChronological | src/components/dashboard/SimpleBarChart.recharts.tsx:124-133 | week keys of ordered dates are ordered |
| SimpleBarChartRecharts.SortedWhenReadable | src/components/dashboard/SimpleBarChart.recharts.tsx:144 | when every key is readable, the sorted keys are sorted by the comparator |
| SimpleBarChartRecharts.BarKeys | src/components/dashboard/SimpleBarChart.recharts.tsx:144 | the sorted keys are a permutation of the buckets without repeats, and sorted when readable |
| SimpleBarChartRecharts.BarKeysSorted | src/components/dashboard/SimpleBarChart.recharts.tsx:144 | in every grouping the bars of the grouped ratings are sorted by the comparator; by week this needs only plainly dated ratings |
| Sorting.SortByStable | src/components/dashboard/SimpleBarChart.recharts.tsx:144 | the sort is stable: elements that compare equal to any value keep their input order, as ES2019 requires of `Array.prototype.sort` |
| Sorting.InsertSortedStable | src/components/dashboard/SimpleBarChart.recharts.tsx:144 | inserting an element keeps the order of the elements tied with any value and puts the new one last among them |
| SimpleBarChartRecharts.FormatDateForDisplay | src/components/dashboard/SimpleBarChart.recharts.tsx:28-55 | no contract; `formatDateForDisplay`. Specified by `SimpleBarChartRecharts.DisplayOf`, `SimpleBarChartRecharts.ShortKeyUnchanged`, `SimpleBarChartRecharts.GroupedKeysShownAsIs` and `SimpleBarChartRecharts.DayShownAsDayMonth` |
| SimpleBarChartRecharts.Display | src/components/dashboard/SimpleBarChart.recharts.tsx:36-50 | no contract; how a key with three numeric parts is shown. Specified by `SimpleBarChartRecharts.DisplayOf` |
| SimpleBarChartRecharts.DisplayOf | src/components/dashboard/SimpleBarChart.recharts.tsx:28-55 | the display label is computed from the key's numeric parts |
| SimpleBarChartRecharts.ShortKeyUnchanged | src/components/dashboard/SimpleBarChart.recharts.tsx:28-55 | a key without three parts is shown as is |
| SimpleBarChartRecharts.GroupedKeysShownAsIs | src/components/dashboard/SimpleBarChart.recharts.tsx:28-55 | week and month keys are shown unchanged |
| SimpleBarChartRecharts.DayShownAsDayMonth | src/components/dashboard/SimpleBarChart.recharts.tsx:36-38 | a day is shown as "dd/mm", the first five characters of its key |
| SimpleBarChartRecharts.BarsOf | src/components/dashboard/SimpleBarChart.recharts.tsx:147-154 | one bar per key in order, with the bucket's counts, its display label and the original key |
| SimpleBarChartRecharts.SimpleBarChart.ChartData | src/components/dashboard/SimpleBarChart.recharts.tsx:109-155 | the bars are the sorted buckets of the current grouping, each with its counts and display label |
| SimpleBarChartRecharts.BarsTotal | src/components/dashboard/SimpleBarChart.recharts.tsx:109-155 | the bars add up to the number of kept ratings |
| SimpleBarChartRecharts.TooltipHeading | src/components/dashboard/SimpleBarChart.recharts.tsx:168-177 | no contract; the custom tooltip heading. Specified by `SimpleBarChartRecharts.TooltipShowsBarKey` and `SimpleBarChartRecharts.TooltipShowsLabel` |
| SimpleBarChartRecharts.TooltipShowsBarKey | src/components/dashboard/SimpleBarChart.recharts.tsx:168-178 | by day, the tooltip heading is the hovered bar's full key |
| SimpleBarChartRecharts.TooltipShowsLabel | src/components/dashboard/SimpleBarChart.recharts.tsx:168-178 | by week or month, the tooltip heading is the axis label |
| SimpleBarChartChartjs.SimpleBarChart.constructor | src/components/dashboard/SimpleBarChart.tsx:33 | grouping starts as day |
| SimpleBarChartChartjs.SimpleBarChart.SetGroupBy | src/components/dashboard/SimpleBarChart.tsx:33 | the setter replaces the grouping |
| SimpleBarChartChartjs.Labels | src/components/dashboard/SimpleBarChart.tsx:155 | one display label per sorted key, in order |
| SimpleBarChartChartjs.SimpleBarChart.ChartData | src/components/dashboard/SimpleBarChart.tsx:117-177 | the labels display the sorted keys, and the three datasets carry their counts |
| SimpleBarChartChartjs.DayLabelsDropYear | src/components/dashboard/SimpleBarChart.tsx:44-46 | two days a year apart get the same axis label |
| SimpleBarChartChartjs.TooltipTitle | src/components/dashboard/SimpleBarChart.tsx:208-220 | no contract; the day-mode tooltip title as written (see "## Findings"). Specified by `SimpleBarChartChartjs.TooltipNamesAnotherBar` and `SimpleBarChartChartjs.WrittenTitleIsMay` |
| SimpleBarChartChartjs.BarTooltipTitle | src/components/dashboard/SimpleBarChart.tsx:208-220 | no contract; the tooltip title indexed into the bars' own order. Specified by `SimpleBarChartChartjs.BarTooltipNamesItsBar`, `SimpleBarChartChartjs.BarTooltipMatchesLabel` and `SimpleBarChartChartjs.CorrectedTitleIsApril` |
| SimpleBarChartChartjs.BarTooltipNamesItsBar | src/components/dashboard/SimpleBarChart.tsx:208-220 | the corrected tooltip title by day is the hovered bar's own key |
| SimpleBarChartChartjs.BarTooltipMatchesLabel | src/components/dashboard/SimpleBarChart.tsx:155-220 | the corrected title is the full date whose "dd/mm" is the bar's label |
| SimpleBarChartChartjs.TooltipNamesAnotherBar | src/components/dashboard/SimpleBarChart.tsx:212 | with buckets 02/04/2025 and 01/05/2025, the first bar is April but the written title reads 01/05/2025 |
| SimpleBarChartChartjs.WrittenTitleIsMay | src/components/dashboard/SimpleBarChart.tsx:212 | the title as written for bar 0 is "01/05/2025" |
| SimpleBarChartChartjs.CorrectedTitleIsApril | src/components/dashboard/SimpleBarChart.tsx:208-220 | the corrected title for bar 0 is "02/04/2025" |
| SimpleBarChartChartjs.TextSortsMayFirst | src/components/dashboard/SimpleBarChart.tsx:212 | default `sort()` puts "01/05/2025" before "02/04/2025" |
| SimpleBarChartChartjs.FirstBarIsApril | src/components/dashboard/SimpleBarChart.tsx:152 | the component's own sort puts April first |
| SimpleBarChartChartjs.CompareAprilMay | src/components/dashboard/SimpleBarChart.tsx:121-150 | the day comparator ranks 02/04/2025 before 01/05/2025 |
| MockData.DrawIndex | src/data/mockData.ts:35-36 | `Math.floor(Math.random() * n)` lies in 0..n-1 |
| MockData.DrawnUserId | src/data/mockData.ts:35 | the user id is 1..7 and names an existing user |
| MockData.DrawnValue | src/data/mockData.ts:36 | the score lies in -10..10 |
| MockData.DaysAgo | src/data/mockData.ts:40 | the age lies in 0..89 days |
| MockData.DrawnDay | src/data/mockData.ts:39-42 | the date is a valid 2025 date exactly that many days before 19 April 2025 |
| MockData.DrawnMessage | src/data/mockData.ts:48-63 | the message is one of the twelve feedback texts |
| MockData.GenerateRandomRating | src/data/mockData.ts:34-72 | the rating has the given id, an existing user, a score in range, a listed message and the drawn day as its date |
| MockData.MockRatings | src/data/mockData.ts:75 | 200 ratings with ids 1..200 in order and scores in range |
| MockData.FormatDate | src/data/mockData.ts:78-80 | no contract; `formatDate`. Specified by `MockData.FormatDateParses` |
| MockData.FormatDateParses | src/data/mockData.ts:78-80 | the local formatter agrees with the `dd/MM/yyyy` format and parses back |
| MockData.GeneratedDateInWindow | src/data/mockData.ts:39-45 | every generated date is valid and lies in the 90 days ending 19 April 2025 |
| MockData.LowestDraws | src/data/mockData.ts:34-72 | all-zero draws give user 1, score -10 and today's date |
| MockData.TablesMatchConstants | src/data/mockData.ts:15-31 | the mock module's period and category tables equal the constants module's |
| MockData.MockUserIds | src/data/mockData.ts:4-12 | seven users with ids 1..7 in order |
| FilterContext.AllUserIds | src/context/FilterContext.tsx:18 | every mock user's id, in order |
| FilterContext.DefaultUsersOk | src/context/FilterContext.tsx:17-24 | the default selection holds every user, without repeats |
| FilterContext.ToggledUsers | src/context/FilterContext.tsx:75-95 | "all" clears a full-length selection and otherwise selects everyone; an id flips membership, is appended when absent, leaves the others in their order when present, and no repeat is introduced |
| FilterContext.ToggleUserTwice | src/context/FilterContext.tsx:82-94 | toggling an id twice restores the selected set, and the exact list when the id was absent |
| FilterContext.ToggleKeepsUsersOk | src/context/FilterContext.tsx:75-95 | toggles keep the selection a repeat-free list of real users |
| FilterContext.AllToggleMeansAllSelected | src/context/FilterContext.tsx:76-81 | on such a selection, "all" clears it exactly when every user is selected |
| FilterContext.ToggledCategories | src/context/FilterContext.tsx:97-125 | "all" removes itself when present and otherwise becomes the only selection; another id drops "all" and flips its own membership; removals keep the rest in order and an added id goes last |
| FilterContext.ToggleCategoryTwice | src/context/FilterContext.tsx:107-124 | toggling a category twice restores the set minus "all", and the exact list when neither was present |
| FilterContext.AllCategoryTwice | src/context/FilterContext.tsx:98-106 | toggling "all" twice leaves no category selected |
| FilterContext.PeriodLength | src/context/FilterContext.tsx:33-38 | a day count exists exactly for the four presets and lies in 1..90; "custom" has none |
| FilterContext.WindowStart | src/context/FilterContext.tsx:39-40 | the window start is a 2025 date `days - 1` before 19 April 2025 |
| FilterContext.WithPresetRange | src/context/FilterContext.tsx:32-48 | only the dates change; for a preset they become today and `days - 1` days earlier, and otherwise the state is unchanged |
| FilterContext.PresetRangeIsPeriodRange | src/context/FilterContext.tsx:39-46 | the effect's window equals `getDateRangeForPeriod(days, today)` |
| FilterContext.MountMovesStartDate | src/context/FilterContext.tsx:17-48 | on mount the default window 12/04/2025–19/04/2025 becomes 13/04/2025–19/04/2025 |
| FilterContext.FilterProvider.constructor | src/context/FilterContext.tsx:17-29 | the state starts as the default filter state |
| FilterContext.FilterProvider.SetSelectedUsers | src/context/FilterContext.tsx:51-53 | only the user selection changes |
| FilterContext.FilterProvider.ToggleExpandUsers | src/context/FilterContext.tsx:55-57 | only the expand flag changes, and it flips |
| FilterContext.FilterProvider.SetSelectedTimePeriod | src/context/FilterContext.tsx:59-61 | only the period changes |
| FilterContext.FilterProvider.SetFromDate | src/context/FilterContext.tsx:63-65 | only the start date changes |
| FilterContext.FilterProvider.SetToDate | src/context/FilterContext.tsx:67-69 | only the end date changes |
| FilterContext.FilterProvider.SetSelectedRatingCategories | src/context/FilterContext.tsx:71-73 | only the category selection changes |
| FilterContext.FilterProvider.ToggleUser | src/context/FilterContext.tsx:75-95 | only the user selection changes, to its toggled value |
| FilterContext.FilterProvider.ToggleRatingCategory | src/context/FilterContext.tsx:97-125 | only the category selection changes, to its toggled value |
| FilterContext.FilterProvider.ApplyPeriodPreset | src/context/FilterContext.tsx:32-48 | the effect body sets the state to its preset range |
| DashboardContext.Toggled | src/context/DashboardContext.tsx:41-44 | the id's flag flips (missing reads as false) and is now present; other flags are unchanged |
| DashboardContext.ToggleTwice | src/context/DashboardContext.tsx:38-56 | toggling twice restores whether every id is expanded |
| DashboardContext.ToggleOthersUnchanged | src/context/DashboardContext.tsx:38-56 | toggling one id does not change any other |
| DashboardContext.ToggleFromDefault | src/context/DashboardContext.tsx:12-17 | from the initial state one toggle expands and a second collapses |
| DashboardContext.TogglesCommute | src/context/DashboardContext.tsx:38-56 | toggles of different ids commute |
| DashboardContext.DashboardProvider.constructor | src/context/DashboardContext.tsx:12-22 | the state starts with no category, the details tab and nothing expanded |
| DashboardContext.DashboardProvider.SetSelectedCategory | src/context/DashboardContext.tsx:24-29 | only the selected category changes |
| DashboardContext.DashboardProvider.SetActiveTab | src/context/DashboardContext.tsx:31-36 | only the tab changes |
| DashboardContext.DashboardProvider.ToggleFeedbackExpansion | src/context/DashboardContext.tsx:38-46 | only the feedback flags change, to their toggled value |
| DashboardContext.DashboardProvider.ToggleConversationExpansion | src/context/DashboardContext.tsx:48-56 | only the conversation flags change, to their toggled value |

## Left out

- **Time zones and time of day.** Dates are whole calendar days. Parts of the source depend on the host time zone or on daylight saving; the model leaves these out:
  - the UTC reading of `new Date('yyyy-mm-dd')` against local-time `setHours(23, 59, 59)` in the date filter;
  - the UTC reading of `new Date('2025-04-19')` as "today" in the mock data and the filter effect;
  - millisecond differences across a daylight-saving change in the week formula;
  - the time of day kept by the Recharts fallback `new Date()` for a malformed date (src/utils/chartUtilsRecharts.ts:9,17). That time enters the millisecond week formula, so a fallback dated on a Saturday lands one week higher than the model's whole-day week;
  - a span between dates that is not a whole number of days (for example 14.6 days). The source then picks "week" where the model, counting whole days, picks "day";
  - a span of exactly 14 or 60 days that crosses the autumn daylight-saving change. It is an hour longer than whole days, so the source can choose the coarser grouping at that threshold where the model does not.
- **Scores.** Scores are modelled as integers (`int`). The source type is `number` (src/models/types.ts:20), so fractional scores are possible there and are not modelled. In the category filter a score of 6.5 lies in no range but "all", and 0.5 lies in the neutral range but not in the positive range [1, 6]. The summary counts use `> 0` and `> 6` instead, so there 0.5 is positive and 6.5 heavily positive. Every integer score from -10 to 10 lies in some category range.
- Constants.CategoriesCoverDomain: holds over integer scores only; a fractional score such as 6.5 or -6.5 falls between two category ranges.
- **ISO date text (`IsoDay`).** Only digit fields are modelled. The filter's `yyyy-mm-dd` text is read as V8 reads it, with a day up to 31 rolling into the next month. Other forms (signs, six-digit years, extra fields) read as Invalid Date. So do unpadded fields: a rating dated "1/4/2025" gives the text "2025-4-1". V8 and the other browser engines accept that text through their implementation-defined fallback parser as local 1 April, so the source can keep such a rating in range. `FilterUtils.IsoDay` reads it as Invalid Date, so `FilterUtils.GetFilteredRatings` drops it.
- **`new Date(y, m, d)`.** This is modelled with month and day rollover, the 0..99 → 1900s year mapping and the ±10^8-day limit. Years before 1 are not modelled.
- **Number conversions.** `Number` and `parseInt` are modelled on the strings the source gives them:
  - `Number` on the empty string and on digit strings (anything else is NaN);
  - `parseInt` on an optional sign followed by digits.
  Signs (`Number("-1")` is -1, but the model's part readers give NaN, so the Chart.js sort compares such a part as a number in the source and not in the model), surrounding whitespace, decimals, exponents, `Infinity`, and hexadecimal, binary (`0b`) and octal (`0o`) literals are left out.
- **Malformed keys in sorts.** A comparator that would return NaN on malformed keys is read as 0. The sorting lemmas assume readable keys; the engine's actual order on malformed keys is not modelled.
- **Key order.** `Object.keys` is modelled as insertion order of every key. The engine lists integer-like keys (such as "42" or "20250419") first, in numeric order. User names and raw date strings are arbitrary text, so the source can build such keys; the model does not reorder them.
- **Prototype keys.** A `{}` literal inherits from `Object.prototype`, and the source's records are such literals. On some keys the source therefore does not behave like a dictionary:
  - a name such as "constructor", "toString", "valueOf" or "hasOwnProperty" finds an inherited function, so `!distribution[user]` is false and `+= 1` appends text to that function (src/utils/filterUtils.ts:92-95);
  - the key "__proto__" sets the prototype, so the count and the key are lost;
  - a raw date string equal to an inherited name updates the inherited value and never becomes an own key (src/utils/chartUtils.ts:9-10).
- FilterUtils.GetUserDistributionData: treats inherited-prototype keys and integer-like keys as ordinary keys in insertion order.
- FilterUtils.DistributionCounts: counts inherited-prototype keys like any other key.
- ChartUtils.GroupRatingsByDate: treats inherited-prototype keys and integer-like keys as ordinary keys in insertion order.
- The keys of ChartUtilsRecharts.GroupRatingsByDate and SimpleBarChartRecharts.GroupData always contain '/' (a day, week or month key, or a raw date with three numeric parts), so they are neither inherited names nor integer-like.
- **Default `sort()`.** It is modelled as comparison by character code. This agrees with UTF-16 code-unit order on the ASCII keys the source builds.
- **Sort algorithm.** `Array.prototype.sort` is modelled as a stable insertion sort. The language standard (since ES2019) requires the sort to be stable. With a comparator that is a total preorder, a stable sort has only one possible result, so the model gives the engine's order, ties included (`Sorting.SortByStable`). The engine's order can differ only for comparators that are not consistent, which here means the malformed keys of the line above.
- **Error handling and logging.** `try`/`catch` blocks and `console` logging are left out. One call in the modelled code can throw: date-fns `format` throws a `RangeError` on an Invalid Date (src/utils/dateUtils.ts:15). `DateUtils.FormatDateString` and `DateUtils.GetDateRangeForPeriod` exclude that case by their preconditions (`ValidDate` and a date on or after 1 January of year 1). Every modelled caller passes such a date, so the throw is unreachable in the model.
- **Inputs from outside.** `Math.random` draws and the current clock are parameters (`Draws`, `now`).
- **Presentation.** JSX, styling, chart titles (`getChartTitle`), `needsScroll`, theme colours and the Recharts and Chart.js libraries themselves are left out.
- **React runtime.** Effect scheduling, memoisation and stale closures are left out:
  - `FilterContext.FilterProvider.ApplyPeriodPreset` is the effect body. React runs it after mount and after each change of `selectedTimePeriod`; that trigger is not modelled.
  - Two handler calls in one render read the same old state in React. In the model each call sees the previous call's result.
- **Other parts of the dashboard.** The data connectors (mock, JSON file, REST), the service factory, the theme and service contexts, the `useRatingsData` hook and the other dashboard components are not part of this model.
- **Date picker.** The `isValidDateString` check is modelled (`DateUtils.IsValidDateString`); the picker component that calls it is not.

## Findings

| source | as written | input that shows it | evidently intended | confidence | as-written member | corrected member |
|---|---|---|---|---|---|---|
| src/components/dashboard/SimpleBarChart.tsx:212 | the day-mode tooltip title takes the hovered bar's index into `Object.keys(groupData()).sort()`, which is character order, not the chronological order of the bars | buckets "02/04/2025" and "01/05/2025": bar 0 is 2 April, but its tooltip title reads "01/05/2025" | the title is the key of the hovered bar, i.e. index into the chart's own sorted keys | not executed | SimpleBarChartChartjs.TooltipTitle (exhibited by SimpleBarChartChartjs.TooltipNamesAnotherBar) | SimpleBarChartChartjs.BarTooltipTitle (proved by SimpleBarChartChartjs.BarTooltipNamesItsBar) |
