/** The static tables the filter engine consumes (src/utils/constants.ts). */
module Constants {
  import opened Wrappers
  import opened Types
  import opened Seqs

  const TimePeriodOptions: seq<TimePeriodOption> := [
    TimePeriodOption("last-day", "Last Day", Some(1)),
    TimePeriodOption("last-week", "Last Week", Some(7)),
    TimePeriodOption("last-month", "Last Month", Some(30)),
    TimePeriodOption("last-quarter", "Last Quarter", Some(90)),
    TimePeriodOption("custom", "Custom", None)
  ]

  const RatingCategories: seq<RatingCategory> := [
    RatingCategory("all", "All", -10, 10),
    RatingCategory("positive", "Positive", 1, 6),
    RatingCategory("negative", "Negative", -6, -1),
    RatingCategory("neutral", "Relatively Neutral", -3, 3),
    RatingCategory("heavily-positive", "Heavily Positive", 7, 10),
    RatingCategory("heavily-negative", "Heavily Negative", -10, -7)
  ]

  /** `table.find(cat => cat.id === id)`: the first category with that id. */
  function FindCategory(table: seq<RatingCategory>, id: string): (c: Option<RatingCategory>)
    ensures c.Some? <==> exists i :: 0 <= i < |table| && table[i].id == id
    ensures c.Some? ==> c.value in table && c.value.id == id
  {
    Find(table, (c: RatingCategory) => c.id, id)
  }

  /** `table.find(tp => tp.id === id)`: the first preset with that id. */
  function FindTimePeriod(table: seq<TimePeriodOption>, id: string): (t: Option<TimePeriodOption>)
    ensures t.Some? <==> exists i :: 0 <= i < |table| && table[i].id == id
    ensures t.Some? ==> t.value in table && t.value.id == id
  {
    Find(table, (tp: TimePeriodOption) => tp.id, id)
  }

  /** `'all'` spans the whole documented rating domain [-10, 10]. */
  lemma AllSpansDomain()
    ensures FindCategory(RatingCategories, "all") == Some(RatingCategory("all", "All", -10, 10))
  {
  }

  /** Every range is well formed and no two categories share an id. */
  lemma CategoryTableWellFormed()
    ensures forall c :: c in RatingCategories ==> c.min <= c.max
    ensures forall i, j :: 0 <= i < j < |RatingCategories| ==> RatingCategories[i].id != RatingCategories[j].id
  {
  }

  /** The ranges overlap, so they do not partition the domain. */
  lemma CategoriesOverlap()
    ensures forall v :: 1 <= v <= 3 ==> InCategory(v, RatingCategories[1]) && InCategory(v, RatingCategories[3])
    ensures forall v :: -3 <= v <= -1 ==> InCategory(v, RatingCategories[2]) && InCategory(v, RatingCategories[3])
  {
  }

  predicate InCategory(v: int, c: RatingCategory)
  {
    c.min <= v && v <= c.max
  }

  /** Every value of the domain falls in at least one category other than `'all'`. */
  lemma CategoriesCoverDomain(v: int)
    requires -10 <= v <= 10
    ensures exists c :: c in RatingCategories && c.id != "all" && InCategory(v, c)
  {
    var c :=
      if v <= -7 then RatingCategories[5]
      else if v <= -1 then RatingCategories[2]
      else if v <= 3 then RatingCategories[3]
      else if v <= 6 then RatingCategories[1]
      else RatingCategories[4];
    assert c in RatingCategories && c.id != "all" && InCategory(v, c);
  }

  /** Only the custom preset has no day count; the others cover 1, 7, 30 and 90 days. */
  lemma PresetDays()
    ensures forall t :: t in TimePeriodOptions ==> (t.days.None? <==> t.id == "custom")
    ensures [TimePeriodOptions[0].days, TimePeriodOptions[1].days, TimePeriodOptions[2].days, TimePeriodOptions[3].days]
         == [Some(1), Some(7), Some(30), Some(90)]
  {
  }
}
