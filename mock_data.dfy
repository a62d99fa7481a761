/**
 * The demo data set (src/data/mockData.ts): seven users, the preset and
 * category tables, and 200 ratings drawn at random. `Math.random()` is not
 * modelled: each rating takes its four draws, numbers in [0, 1), as inputs.
 */
module MockData {
  import opened Wrappers
  import opened JsText
  import opened Calendar
  import opened Types
  import opened DateUtils
  import Constants
  import ChartUtils

  const MockUsers: seq<User> := [
    User(1, "John Doe"),
    User(2, "Jane Smith"),
    User(3, "Robert Johnson"),
    User(4, "Lisa Anderson"),
    User(5, "Michael Chen"),
    User(6, "Sarah Williams"),
    User(7, "David Brown")
  ]

  const TimePeriodOptions: seq<TimePeriodOption> := [
    TimePeriodOption("last-day", "Last Day", Some(1)),
    TimePeriodOption("last-week", "Last Week", Some(7)),
    TimePeriodOption("last-month", "Last Month", Some(30)),
    TimePeriodOption("last-quarter", "Last Quarter", Some(90)),
    TimePeriodOption("custom", "Custom", None)
  ]

  const RatingCategories: seq<RatingCategory> := [
    RatingCategory("all", "All", -10, 10),
    RatingCategory("positive", "Positive", 1, 6),
    RatingCategory("negative", "Negative", -6, -1),
    RatingCategory("neutral", "Relatively Neutral", -3, 3),
    RatingCategory("heavily-positive", "Heavily Positive", 7, 10),
    RatingCategory("heavily-negative", "Heavily Negative", -10, -7)
  ]

  const FeedbackMessages: seq<string> := [
    "The chatbot was very helpful in answering my question about account settings.",
    "I had trouble getting the bot to understand what I was asking about billing information.",
    "Great experience! The chatbot quickly resolved my issue with password reset.",
    "The responses were very slow today, and I had to repeat my question multiple times.",
    "Excellent support from the chatbot. It provided detailed information about the new features.",
    "The chatbot didn't seem to understand my question about refund policy.",
    "Very impressed with how the chatbot handled my complex query about API integration.",
    "Couldn't get a clear answer to my shipping question, had to contact support instead.",
    "The suggested solutions were spot on! Saved me a lot of time troubleshooting.",
    "I appreciate how the chatbot guided me through the setup process step by step.",
    "Extremely frustrating experience. The chatbot kept suggesting irrelevant solutions.",
    "Pleasantly surprised by how human-like and helpful the responses were."
  ]

  /** The fixed reference day of the generator, 19 April 2025. */
  const Today: CalDate := CalDate(2025, 4, 19)

  /** `formatDate`: day and month zero-padded to two digits, the year as it prints. */
  function FormatDate(d: CalDate): string
    requires d.year >= 0 && d.month >= 0 && d.day >= 0
  {
    Slashed(Pad2(d.day), Pad2(d.month), NatToString(d.year))
  }

  /** The four `Math.random()` results one rating is built from. */
  datatype Draws = Draws(user: real, rating: real, daysAgo: real, message: real)

  predicate DrawsInRange(dr: Draws)
  {
    && 0.0 <= dr.user < 1.0
    && 0.0 <= dr.rating < 1.0
    && 0.0 <= dr.daysAgo < 1.0
    && 0.0 <= dr.message < 1.0
  }

  /** `Math.floor(Math.random() * n)`: an index below `n`. */
  function DrawIndex(x: real, n: nat): (k: int)
    requires 0.0 <= x < 1.0 && n > 0
    ensures 0 <= k < n
  {
    var m := n as real;
    assert 0.0 <= x * m < m by {
      assert m * (1.0 - x) > 0.0;
    }
    (x * m).Floor
  }

  /** `Math.floor(Math.random() * 90)`. */
  function DaysAgo(dr: Draws): (k: int)
    requires DrawsInRange(dr)
    ensures 0 <= k < 90
  {
    DrawIndex(dr.daysAgo, 90)
  }

  /** The day `DaysAgo(dr)` days before the reference day. */
  function DrawnDay(dr: Draws): (d: CalDate)
    requires DrawsInRange(dr)
    ensures ValidDate(d) && d.year == 2025
    ensures DayNumber(d) == DayNumber(Today) - DaysAgo(dr)
  {
    var k := DaysAgo(dr);
    TodayNumber();
    var d := ShiftDays(Today, -k).value;
    WithinYear2025(d);
    d
  }

  /** `Math.floor(Math.random() * 7) + 1`: the id of one of the seven mock users. */
  function DrawnUserId(dr: Draws): (userId: int)
    requires DrawsInRange(dr)
    ensures 1 <= userId <= |MockUsers| && MockUsers[userId - 1].id == userId
  {
    MockUserIds();
    DrawIndex(dr.user, 7) + 1
  }

  /** `Math.floor(Math.random() * 21) - 10`: a value from -10 to 10. */
  function DrawnValue(dr: Draws): (v: int)
    requires DrawsInRange(dr)
    ensures -10 <= v <= 10
  {
    DrawIndex(dr.rating, 21) - 10
  }

  /** One of the feedback messages, picked uniformly. */
  function DrawnMessage(dr: Draws): (m: string)
    requires DrawsInRange(dr)
    ensures m in FeedbackMessages
  {
    FeedbackMessages[DrawIndex(dr.message, |FeedbackMessages|)]
  }

  /**
   * `generateRandomRating(id)` with its draws as inputs: a user id from 1 to 7,
   * a value from -10 to 10, a date 0 to 89 days before 19 April 2025, and one
   * of the twelve messages.
   */
  function GenerateRandomRating(id: int, dr: Draws): (r: Rating)
    requires DrawsInRange(dr)
    ensures r.id == id
    ensures 1 <= r.userId <= |MockUsers| && MockUsers[r.userId - 1].id == r.userId
    ensures -10 <= r.rating <= 10
    ensures r.message in FeedbackMessages
    ensures r.date == FormatDate(DrawnDay(dr))
  {
    Rating(id, DrawnUserId(dr), FormatDate(DrawnDay(dr)), DrawnValue(dr), DrawnMessage(dr))
  }

  /** `mockRatings`: 200 ratings with ids 1 to 200, in order. */
  function MockRatings(draws: seq<Draws>): (rs: seq<Rating>)
    requires |draws| == 200 && forall dr <- draws :: DrawsInRange(dr)
    ensures |rs| == 200
    ensures forall i :: 0 <= i < 200 ==> rs[i].id == i + 1 && -10 <= rs[i].rating <= 10
  {
    seq(200, i requires 0 <= i < 200 => GenerateRandomRating(i + 1, draws[i]))
  }

  // ---------------------------------------------------------------------
  // Proofs
  // ---------------------------------------------------------------------

  lemma TodayNumber()
    ensures ValidDate(Today) && DayNumber(Today) == 739359
    ensures Representable(DayNumber(Today) - 89) && Representable(DayNumber(Today))
  {
  }

  /** Every day from 1 January to 31 December 2025 lies in 2025. */
  lemma WithinYear2025(d: CalDate)
    requires ValidDate(d) && DayNumber(Today) - 89 <= DayNumber(d) <= DayNumber(Today)
    ensures d.year == 2025
  {
    TodayNumber();
    assert DayNumber(CalDate(2025, 1, 1)) == 739251;
    DayNumberOrder(d, CalDate(2025, 1, 1));
    DayNumberOrder(Today, d);
  }

  /** For four-digit years `formatDate` agrees with `formatDateString`, so it parses back as dd/MM/yyyy. */
  lemma FormatDateParses(d: CalDate)
    requires ValidDate(d) && 1000 <= d.year <= 9999
    ensures FormatDate(d) == FormatDateString(d)
    ensures MatchesPattern(FormatDate(d)) && ParseDate(FormatDate(d)) == Some(d)
  {
    NatToStringFourDigits(d.year);
  }

  /**
   * A generated date is well formed, reads back as a day 0 to 89 days before
   * 19 April 2025, and has the three numeric parts the charts group by.
   */
  lemma GeneratedDateInWindow(id: int, dr: Draws)
    requires DrawsInRange(dr)
    ensures var r := GenerateRandomRating(id, dr);
      && IsValidDateString(r.date)
      && ParseDate(r.date).Some?
      && DayNumber(Today) - 89 <= DayNumber(ParseDate(r.date).value) <= DayNumber(Today)
      && ChartUtils.DateOfKey(r.date) == ParseDate(r.date)
  {
    var d := DrawnDay(dr);
    FormatDateParses(d);
    ChartUtils.FormattedDateKey(d);
  }

  /** A draw of 0 gives user 1, value -10 and the reference day itself. */
  lemma LowestDraws()
    ensures var r := GenerateRandomRating(1, Draws(0.0, 0.0, 0.0, 0.0));
      r.userId == 1 && r.rating == -10 && ParseDate(r.date) == Some(Today)
  {
    var dr := Draws(0.0, 0.0, 0.0, 0.0);
    assert DrawnDay(dr) == Today by {
      TodayNumber();
      DayNumberInjective(DrawnDay(dr), Today);
    }
    FormatDateParses(Today);
  }

  /** The tables here are the tables the filter engine reads. */
  lemma TablesMatchConstants()
    ensures TimePeriodOptions == Constants.TimePeriodOptions
    ensures RatingCategories == Constants.RatingCategories
  {
  }

  /** The mock user ids are 1 to 7, each once. */
  lemma MockUserIds()
    ensures forall i :: 0 <= i < |MockUsers| ==> MockUsers[i].id == i + 1
    ensures |MockUsers| == 7
  {
  }
}
