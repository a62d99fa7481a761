/**
 * The filter state holder (src/context/FilterContext.tsx): one `filters`
 * record that every handler replaces by a copy with one field changed, the
 * user and category toggles with their `'all'` sentinel, and the effect that
 * moves the date range when a preset period is chosen.
 */
module FilterContext {
  import opened Wrappers
  import opened JsText
  import opened Calendar
  import opened Seqs
  import opened Records
  import opened Types
  import opened DateUtils
  import opened MockData
  import Constants

  /** `mockUsers.map(user => user.id)`. */
  function AllUserIds(): (ids: seq<int>)
    ensures |ids| == |MockUsers|
    ensures forall i :: 0 <= i < |MockUsers| ==> ids[i] == MockUsers[i].id
  {
    Map(MockUsers, (u: User) => u.id)
  }

  /** The state before any interaction: every user, the last week, every category. */
  function DefaultFilterState(): FilterState
  {
    FilterState(AllUserIds(), false, "last-week", "12/04/2025", "19/04/2025", ["all"])
  }

  /** The argument of `toggleUser`: a user id or the `'all'` sentinel. */
  datatype UserChoice = AllUsers | OneUser(id: int)

  /** The test "is not user `id`". */
  function OtherId(id: int): int -> bool
  {
    x => x != id
  }

  /**
   * The selection `toggleUser` leaves: `'all'` clears a selection as long as
   * the user table and selects every user otherwise; an id leaves the
   * selection if it was in it and joins it at the end if it was not.
   */
  function ToggledUsers(selected: seq<int>, choice: UserChoice): (r: seq<int>)
    ensures choice.AllUsers? && |selected| == |MockUsers| ==> r == []
    ensures choice.AllUsers? && |selected| != |MockUsers| ==> r == AllUserIds()
    ensures choice.OneUser? ==> forall x :: x in r <==> if x == choice.id then choice.id !in selected else x in selected
    ensures choice.OneUser? && choice.id !in selected ==> r == selected + [choice.id]
    ensures choice.OneUser? && choice.id in selected ==> IsSubsequence(r, selected)
    ensures choice.OneUser? ==> |r| <= |selected| + 1
    ensures Distinct(selected) ==> Distinct(r)
  {
    match choice
    case AllUsers =>
      if |selected| == |MockUsers| then [] else AllUserIds()
    case OneUser(id) =>
      if id in selected then
        FilterDistinctIf(selected, OtherId(id));
        FilterIsSubsequence(selected, OtherId(id));
        Filter(selected, OtherId(id))
      else
        DistinctSnoc(selected, id);
        selected + [id]
  }

  /**
   * The categories `toggleRatingCategory` leaves: `'all'` is dropped when it
   * was selected and otherwise replaces the whole list; any other category
   * first removes `'all'`, then leaves the list if it was in it and joins it
   * at the end if it was not.
   */
  function ToggledCategories(selected: seq<string>, c: string): (r: seq<string>)
    ensures c == "all" && "all" in selected ==> forall x :: x in r <==> x in selected && x != "all"
    ensures c == "all" && "all" !in selected ==> r == ["all"]
    ensures c != "all" ==> forall x :: x in r <==> x != "all" && if x == c then c !in selected else x in selected
    ensures c in selected ==> IsSubsequence(r, selected)
    ensures c != "all" && c !in selected ==> r != [] && r[|r| - 1] == c && IsSubsequence(r[..|r| - 1], selected)
    ensures Distinct(selected) ==> Distinct(r)
  {
    if c == "all" then
      if "all" in selected then
        FilterDistinctIf(selected, Other("all"));
        FilterIsSubsequence(selected, Other("all"));
        Filter(selected, Other("all"))
      else
        ["all"]
    else
      var updated := if "all" in selected then Filter(selected, Other("all")) else selected;
      FilterDistinctIf(selected, Other("all"));
      UpdatedIsSubsequence(selected, updated);
      if c in updated then
        FilterDistinctIf(updated, Other(c));
        FilterIsSubsequence(updated, Other(c));
        SubsequenceTrans(Filter(updated, Other(c)), updated, selected);
        Filter(updated, Other(c))
      else
        DistinctSnoc(updated, c);
        assert (updated + [c])[..|updated|] == updated;
        updated + [c]
  }

  /** Dropping `'all'` only when it is present keeps the order of the rest. */
  lemma UpdatedIsSubsequence(selected: seq<string>, updated: seq<string>)
    requires updated == if "all" in selected then Filter(selected, Other("all")) else selected
    ensures IsSubsequence(updated, selected)
  {
    if "all" !in selected {
      FilterAll(selected, Other("all"));
    }
    FilterIsSubsequence(selected, Other("all"));
  }

  /** The length of the window of a preset period, or None for `'custom'` and unknown ids. */
  function PeriodLength(periodId: string): (days: Option<int>)
    ensures days.Some? ==> 1 <= days.value <= 90
    ensures periodId == "custom" ==> days.None?
    ensures days.Some? <==> periodId in {"last-day", "last-week", "last-month", "last-quarter"}
  {
    if periodId == "custom" then None
    else
      match Constants.FindTimePeriod(Constants.TimePeriodOptions, periodId)
      case None => None
      case Some(tp) => tp.days
  }

  /** `today.getDate() - days + 1` as a date: the first day of a `days`-day window ending on 19 April 2025. */
  function WindowStart(days: int): (d: CalDate)
    requires 1 <= days <= 90
    ensures ValidDate(d) && d.year == 2025
    ensures DayNumber(d) == DayNumber(Today) - (days - 1)
  {
    TodayNumber();
    var d := ShiftDays(Today, 1 - days).value;
    WithinYear2025(d);
    d
  }

  /**
   * The state the period effect leaves: for a preset of `d` days the range
   * runs from `d - 1` days before 19 April 2025 to that day, both written
   * dd/mm/yyyy; `'custom'` and unknown ids leave the state as it is. Only the
   * two dates change.
   */
  function WithPresetRange(f: FilterState): (r: FilterState)
    ensures r == f.(fromDate := r.fromDate, toDate := r.toDate)
    ensures PeriodLength(f.selectedTimePeriod).None? ==> r == f
    ensures PeriodLength(f.selectedTimePeriod).Some? ==>
      && ParseDate(r.toDate) == Some(Today)
      && ParseDate(r.fromDate).Some?
      && DayNumber(ParseDate(r.toDate).value) - DayNumber(ParseDate(r.fromDate).value)
         == PeriodLength(f.selectedTimePeriod).value - 1
  {
    match PeriodLength(f.selectedTimePeriod)
    case None => f
    case Some(days) =>
      var from := WindowStart(days);
      TodayNumber();
      FormatDateParses(from);
      FormatDateParses(Today);
      f.(fromDate := FormatDate(from), toDate := FormatDate(Today))
  }

  /** The `FilterProvider` component's state cell and its handlers. */
  class FilterProvider {
    var filters: FilterState

    constructor()
      ensures filters == DefaultFilterState()
    {
      filters := DefaultFilterState();
    }

    method SetSelectedUsers(users: seq<int>)
      modifies this
      ensures filters == old(filters).(selectedUsers := users)
    {
      filters := filters.(selectedUsers := users);
    }

    method ToggleExpandUsers()
      modifies this
      ensures filters == old(filters).(expandUsers := !old(filters).expandUsers)
    {
      filters := filters.(expandUsers := !filters.expandUsers);
    }

    method SetSelectedTimePeriod(periodId: string)
      modifies this
      ensures filters == old(filters).(selectedTimePeriod := periodId)
    {
      filters := filters.(selectedTimePeriod := periodId);
    }

    method SetFromDate(date: string)
      modifies this
      ensures filters == old(filters).(fromDate := date)
    {
      filters := filters.(fromDate := date);
    }

    method SetToDate(date: string)
      modifies this
      ensures filters == old(filters).(toDate := date)
    {
      filters := filters.(toDate := date);
    }

    method SetSelectedRatingCategories(categories: seq<string>)
      modifies this
      ensures filters == old(filters).(selectedRatingCategories := categories)
    {
      filters := filters.(selectedRatingCategories := categories);
    }

    method ToggleUser(choice: UserChoice)
      modifies this
      ensures filters == old(filters).(selectedUsers := ToggledUsers(old(filters).selectedUsers, choice))
    {
      var selected := filters.selectedUsers;
      match choice {
        case AllUsers =>
          if |selected| == |MockUsers| {
            selected := [];
          } else {
            selected := AllUserIds();
          }
        case OneUser(id) =>
          if id in selected {
            selected := Filter(selected, OtherId(id));
          } else {
            selected := selected + [id];
          }
      }
      filters := filters.(selectedUsers := selected);
    }

    method ToggleRatingCategory(categoryId: string)
      modifies this
      ensures filters == old(filters).(selectedRatingCategories :=
        ToggledCategories(old(filters).selectedRatingCategories, categoryId))
    {
      var selected := filters.selectedRatingCategories;
      if categoryId == "all" {
        if "all" in selected {
          selected := Filter(selected, Other("all"));
        } else {
          selected := ["all"];
        }
      } else {
        var updated := if "all" in selected then Filter(selected, Other("all")) else selected;
        if categoryId in updated {
          selected := Filter(updated, Other(categoryId));
        } else {
          selected := updated + [categoryId];
        }
      }
      filters := filters.(selectedRatingCategories := selected);
    }

    /**
     * The effect React runs after the first render and after every render in
     * which `selectedTimePeriod` changed.
     */
    method ApplyPeriodPreset()
      modifies this
      ensures filters == WithPresetRange(old(filters))
    {
      if filters.selectedTimePeriod == "custom" {
        return;
      }
      var timePeriod := Constants.FindTimePeriod(Constants.TimePeriodOptions, filters.selectedTimePeriod);
      assert PeriodLength(filters.selectedTimePeriod) == if timePeriod.Some? then timePeriod.value.days else None;
      if timePeriod.Some? && timePeriod.value.days.Some? {
        var days := timePeriod.value.days.value;
        PresetRangeOf(filters, days);
        var fromDate := WindowStart(days);
        filters := filters.(fromDate := FormatDate(fromDate), toDate := FormatDate(Today));
      }
    }
  }

  // ---------------------------------------------------------------------
  // Proofs
  // ---------------------------------------------------------------------

  /** The effect's result for a preset of `days` days. */
  lemma PresetRangeOf(f: FilterState, days: int)
    requires PeriodLength(f.selectedTimePeriod) == Some(days)
    ensures 1 <= days <= 90
    ensures WithPresetRange(f) == f.(fromDate := FormatDate(WindowStart(days)), toDate := FormatDate(Today))
  {
  }

  lemma FilterDistinctIf<T(!new)>(s: seq<T>, p: T -> bool)
    ensures Distinct(s) ==> Distinct(Filter(s, p))
  {
    if Distinct(s) {
      FilterDistinct(s, p);
    }
  }

  lemma DistinctSnoc<T>(s: seq<T>, x: T)
    requires x !in s
    ensures Distinct(s) ==> Distinct(s + [x])
  {
  }

  /** Toggling a user twice gives back the same set of ids, and the same list when the user was not selected. */
  lemma ToggleUserTwice(selected: seq<int>, id: int)
    ensures var twice := ToggledUsers(ToggledUsers(selected, OneUser(id)), OneUser(id));
      && (forall x :: x in twice <==> x in selected)
      && (id !in selected ==> twice == selected)
  {
    if id !in selected {
      FilterSnoc(selected, id, OtherId(id));
      FilterAll(selected, OtherId(id));
    }
  }

  /** Every selection the handlers build from the default is duplicate-free and names only mock users. */
  predicate UsersOk(selected: seq<int>)
  {
    Distinct(selected) && forall x :: x in selected ==> x in AllUserIds()
  }

  /** The default selection is duplicate-free and holds every mock user. */
  lemma DefaultUsersOk()
    ensures UsersOk(DefaultFilterState().selectedUsers)
    ensures forall u :: u in MockUsers ==> u.id in DefaultFilterState().selectedUsers
  {
    AllUserIdsDistinct();
    forall u | u in MockUsers
      ensures u.id in AllUserIds()
    {
      var i :| 0 <= i < |MockUsers| && MockUsers[i] == u;
      assert AllUserIds()[i] == u.id;
    }
  }

  /** The mock user ids are pairwise different. */
  lemma AllUserIdsDistinct()
    ensures Distinct(AllUserIds())
  {
    MockUserIds();
  }

  /** Toggling a mock user or `'all'` keeps a selection duplicate-free and within the mock users. */
  lemma ToggleKeepsUsersOk(selected: seq<int>, choice: UserChoice)
    requires UsersOk(selected)
    requires choice.OneUser? ==> choice.id in AllUserIds()
    ensures UsersOk(ToggledUsers(selected, choice))
  {
    if choice.AllUsers? && |selected| != |MockUsers| {
      DefaultUsersOk();
    }
  }

  function Elements<T>(s: seq<T>): set<T>
  {
    set x | x in s
  }

  /** A duplicate-free sequence has as many distinct elements as it is long. */
  lemma {:induction false} DistinctCardinality<T>(s: seq<T>)
    requires Distinct(s)
    ensures |Elements(s)| == |s|
  {
    if s != [] {
      var s', x := s[..|s| - 1], s[|s| - 1];
      assert s == s' + [x];
      assert Distinct(s') by {
        forall i, j | 0 <= i < j < |s'| ensures s'[i] != s'[j] {
          assert s'[i] == s[i] && s'[j] == s[j];
        }
      }
      DistinctCardinality(s');
      assert x !in Elements(s') by {
        forall i | 0 <= i < |s'| ensures s'[i] != x {
          assert s'[i] == s[i];
        }
      }
      assert Elements(s) == Elements(s') + {x};
    }
  }

  /**
   * For a well-formed selection the length test of `toggleUser('all')` is
   * the test "every user is selected": the toggle clears a full selection
   * and completes any other.
   */
  lemma AllToggleMeansAllSelected(selected: seq<int>)
    requires UsersOk(selected)
    ensures ToggledUsers(selected, AllUsers) == [] <==> forall x :: x in AllUserIds() ==> x in selected
  {
    var all := Elements(AllUserIds());
    var mine := Elements(selected);
    assert |all| == |MockUsers| by {
      AllUserIdsDistinct();
      DistinctCardinality(AllUserIds());
    }
    DistinctCardinality(selected);
    assert mine <= all by {
      forall x | x in mine
        ensures x in all
      {
        assert x in selected;
      }
    }
    if |selected| == |MockUsers| {
      SubsetSameSize(mine, all);
      forall x | x in AllUserIds()
        ensures x in selected
      {
        assert x in all;
      }
    } else {
      assert mine != all;
      var x :| x in all && x !in mine;
      assert x in AllUserIds() && x !in selected;
    }
  }

  /** A subset as large as its superset is the superset. */
  lemma SubsetSameSize<T>(a: set<T>, b: set<T>)
    requires a <= b && |a| == |b|
    ensures a == b
  {
    assert a * b == a;
    assert |b - a| == 0;
  }

  /** Toggling one category twice gives back the same list without `'all'`, and the same list when neither was in it. */
  lemma ToggleCategoryTwice(selected: seq<string>, c: string)
    requires c != "all"
    ensures var twice := ToggledCategories(ToggledCategories(selected, c), c);
      && (forall x :: x in twice <==> x in selected && x != "all")
      && ("all" !in selected && c !in selected ==> twice == selected)
  {
    if "all" !in selected && c !in selected {
      assert ToggledCategories(selected, c) == selected + [c];
      FilterSnoc(selected, c, Other(c));
      FilterAll(selected, Other(c));
    }
  }

  /** Picking `'all'` twice from a list without it gives `['all']` back or drops it again. */
  lemma AllCategoryTwice(selected: seq<string>)
    requires "all" !in selected
    ensures ToggledCategories(selected, "all") == ["all"]
    ensures ToggledCategories(ToggledCategories(selected, "all"), "all") == []
  {
    assert Filter(["all"], Other("all")) == [] by {
      FilterSnoc([], "all", Other("all"));
    }
  }

  /** A preset window is the range `getDateRangeForPeriod` computes for the same length and day. */
  lemma PresetRangeIsPeriodRange(f: FilterState)
    requires PeriodLength(f.selectedTimePeriod).Some?
    ensures ValidDate(Today) && DayNumber(Today) == 739359 && Representable(DayNumber(Today) - 89)
    ensures var days := PeriodLength(f.selectedTimePeriod).value;
      var r := WithPresetRange(f);
      GetDateRangeForPeriod(days, Today) == DateRange(r.fromDate, r.toDate)
  {
    var days := PeriodLength(f.selectedTimePeriod).value;
    var from := WindowStart(days);
    TodayNumber();
    assert ShiftDays(Today, 1 - days).value == from;
    FormatDateParses(from);
    FormatDateParses(Today);
  }

  /**
   * The effect's first run replaces the default start date: the default
   * 'last-week' range 12/04/2025 to 19/04/2025 spans eight days, the preset
   * spans seven and starts on 13/04/2025.
   */
  lemma MountMovesStartDate()
    ensures WithPresetRange(DefaultFilterState()).fromDate == "13/04/2025"
    ensures WithPresetRange(DefaultFilterState()).toDate == "19/04/2025"
  {
    LastWeekDays();
    PresetRangeOf(DefaultFilterState(), 7);
    StartOfLastWeek();
    ThirteenthText();
    TodayText();
  }

  lemma LastWeekDays()
    ensures PeriodLength(DefaultFilterState().selectedTimePeriod) == Some(7)
  {
    assert Constants.TimePeriodOptions[1].id == "last-week";
  }

  lemma StartOfLastWeek()
    ensures WindowStart(7) == CalDate(2025, 4, 13)
  {
    TodayNumber();
    DayNumberInjective(WindowStart(7), CalDate(2025, 4, 13));
  }

  lemma ThirteenthText()
    ensures FormatDate(CalDate(2025, 4, 13)) == "13/04/2025"
  {
    YearText2025();
    PadThirteen();
  }

  lemma TodayText()
    ensures FormatDate(Today) == "19/04/2025"
  {
    YearText2025();
    PadNineteen();
  }

  lemma PadThirteen()
    ensures Pad2(13) == "13" && Pad2(4) == "04"
  {
    assert NatToString(13) == "13";
  }

  lemma PadNineteen()
    ensures Pad2(19) == "19" && Pad2(4) == "04"
  {
    assert NatToString(19) == "19";
  }
}
