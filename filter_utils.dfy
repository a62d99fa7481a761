/**
 * The filter engine and the aggregators behind the summary tiles and the
 * user-distribution chart (src/utils/filterUtils.ts).
 */
module FilterUtils {
  import opened Wrappers
  import opened JsText
  import opened Calendar
  import opened Seqs
  import opened Records
  import opened Types
  import opened Constants
  import opened DateUtils

  // ---------------------------------------------------------------------
  // getFilteredRatings: three stages, each an `Array.prototype.filter`
  // ---------------------------------------------------------------------

  /** Stage 1: an empty selection keeps everyone, otherwise the rating's user must be selected. */
  predicate UserPasses(selectedUsers: seq<int>, r: Rating)
  {
    |selectedUsers| == 0 || r.userId in selectedUsers
  }

  /**
   * `new Date(`${p[2]}-${p[1]}-${p[0]}`)` for `p = s.split('/')`: the day of the
   * ISO date `yyyy-mm-dd` (UTC midnight), or None for `Invalid Date`. Month
   * 01..12 and day 01..31 are required; a day past the end of its month rolls
   * into the next month.
   */
  function IsoDay(s: string): Option<int>
  {
    var p := Split(s, '/');
    if |p| >= 3
      && AllDigits(p[2]) && |p[2]| == 4
      && AllDigits(p[1]) && |p[1]| == 2 && 1 <= DigitsValue(p[1]) <= 12
      && AllDigits(p[0]) && |p[0]| == 2 && 1 <= DigitsValue(p[0]) <= 31
    then Some(DayIndex(DigitsValue(p[2]), DigitsValue(p[1]), DigitsValue(p[0])))
    else None
  }

  /**
   * Stage 2: `ratingDate >= fromDateObj && ratingDate <= toDateObj`. The lower
   * bound is the from-day's midnight and the upper bound a time of day within
   * the to-day, so on whole days this is from <= day <= to; any comparison
   * with `Invalid Date` is false.
   */
  predicate DatePasses(fromDay: Option<int>, toDay: Option<int>, r: Rating)
  {
    var d := IsoDay(r.date);
    fromDay.Some? && toDay.Some? && d.Some? && fromDay.value <= d.value <= toDay.value
  }

  /** The category ranges a selection resolves to in `table`, in selection order; unknown ids are dropped. */
  function RangesIn(table: seq<RatingCategory>, ids: seq<string>): (rs: seq<RatingCategory>)
    ensures |rs| <= |ids|
    ensures forall c <- rs :: c in table
  {
    if ids == [] then []
    else
      var init := RangesIn(table, ids[..|ids| - 1]);
      match FindCategory(table, ids[|ids| - 1])
      case None => init
      case Some(c) => init + [c]
  }

  /** The ranges of the selected ids in the dashboard's category table. */
  function Ranges(ids: seq<string>): seq<RatingCategory>
  {
    RangesIn(RatingCategories, ids)
  }

  /** The category an id names, if any. */
  function Resolve(id: string): Option<RatingCategory>
  {
    FindCategory(RatingCategories, id)
  }

  /** A range is resolved exactly when some selected id names it. */
  lemma {:induction false} RangesInResolve(table: seq<RatingCategory>, ids: seq<string>, c: RatingCategory)
    ensures c in RangesIn(table, ids) <==> exists id <- ids :: FindCategory(table, id) == Some(c)
  {
    if ids != [] {
      var init := ids[..|ids| - 1];
      var last := ids[|ids| - 1];
      RangesInResolve(table, init, c);
      assert ids == init + [last];
      if FindCategory(table, last) == Some(c) {
        assert last in ids;
      }
    }
  }

  /** A range is resolved exactly when some selected id names it. */
  lemma RangesResolve(ids: seq<string>, c: RatingCategory)
    ensures c in Ranges(ids) <==> exists id <- ids :: Resolve(id) == Some(c)
  {
    RangesInResolve(RatingCategories, ids, c);
  }

  /** `ranges.some(range => v >= range[0] && v <= range[1])`. */
  predicate InSomeRange(ranges: seq<RatingCategory>, v: int)
  {
    exists c <- ranges :: InCategory(v, c)
  }

  /** Whether the category stage applies: no `'all'` and at least one id resolves. */
  predicate CategoryRestricts(ids: seq<string>)
  {
    "all" !in ids && |Ranges(ids)| > 0
  }

  /** Stage 3. */
  predicate CategoryPasses(ids: seq<string>, r: Rating)
  {
    !CategoryRestricts(ids) || InSomeRange(Ranges(ids), r.rating)
  }

  /** All three stages at once: what a rating must satisfy to be shown. */
  predicate Passes(filters: FilterState, r: Rating)
  {
    && UserPasses(filters.selectedUsers, r)
    && DatePasses(IsoDay(filters.fromDate), IsoDay(filters.toDate), r)
    && CategoryPasses(filters.selectedRatingCategories, r)
  }

  /** `Passes` as a test for `Filter`. */
  function PassTest(filters: FilterState): Rating -> bool
  {
    r => Passes(filters, r)
  }

  /** The ratings `getFilteredRatings` returns: those passing every stage, in input order. */
  function FilteredRatings(ratings: seq<Rating>, filters: FilterState): seq<Rating>
  {
    Filter(ratings, PassTest(filters))
  }

  /** The category stage applied after the user and date stages yields the full filter. */
  lemma RangeStage(ratings: seq<Rating>, filters: FilterState, p2: Rating -> bool, rangeTest: Rating -> bool)
    requires CategoryRestricts(filters.selectedRatingCategories)
    requires forall r :: p2(r) == (UserPasses(filters.selectedUsers, r) && DatePasses(IsoDay(filters.fromDate), IsoDay(filters.toDate), r))
    requires forall r :: rangeTest(r) == InSomeRange(Ranges(filters.selectedRatingCategories), r.rating)
    ensures Filter(Filter(ratings, p2), rangeTest) == FilteredRatings(ratings, filters)
  {
    FilterCompose(ratings, p2, rangeTest, PassTest(filters));
  }

  /**
   * `getFilteredRatings`: start from a copy of the input and narrow `filtered`
   * stage by stage. The input is never changed (it is a value here).
   */
  method GetFilteredRatings(ratings: seq<Rating>, filters: FilterState) returns (filtered: seq<Rating>)
    ensures filtered == FilteredRatings(ratings, filters)
  {
    var users := filters.selectedUsers;
    var p1: Rating -> bool := r => UserPasses(users, r);
    filtered := ratings;
    if |users| > 0 {
      var userTest: Rating -> bool := (r: Rating) => r.userId in users;
      filtered := Filter(filtered, userTest);
      FilterExt(ratings, userTest, p1);
    } else {
      FilterAll(ratings, p1);
    }
    assert filtered == Filter(ratings, p1);

    var fromDay := IsoDay(filters.fromDate);
    var toDay := IsoDay(filters.toDate);
    var dateTest: Rating -> bool := r => DatePasses(fromDay, toDay, r);
    var p2: Rating -> bool := r => p1(r) && dateTest(r);
    filtered := Filter(filtered, dateTest);
    FilterCompose(ratings, p1, dateTest, p2);

    var ids := filters.selectedRatingCategories;
    var restricted := false;
    if "all" !in ids {
      var ranges := Ranges(ids);
      if |ranges| > 0 {
        var rangeTest: Rating -> bool := (r: Rating) => InSomeRange(ranges, r.rating);
        filtered := Filter(filtered, rangeTest);
        RangeStage(ratings, filters, p2, rangeTest);
        restricted := true;
      }
    }
    if !restricted {
      FilterExt(ratings, p2, PassTest(filters));
    }
  }

  // ---------------------------------------------------------------------
  // getSummaryData and getCategoryRatings
  // ---------------------------------------------------------------------

  /** The summary keys in the order the summary object literal lists them. */
  const SummaryKeys: seq<string> := ["positive", "negative", "neutral", "heavily-positive", "heavily-negative"]

  /** The five summary predicates; they overlap (2 is both positive and neutral). */
  predicate InSummaryCategory(key: string, v: int)
  {
    if key == "positive" then 0 < v <= 6
    else if key == "negative" then -6 <= v < 0
    else if key == "neutral" then -3 <= v <= 3
    else if key == "heavily-positive" then v > 6
    else if key == "heavily-negative" then v < -6
    else false
  }

  /** Number of ratings the summary counts under `key`. */
  function SummaryCount(ratings: seq<Rating>, key: string): nat
  {
    |Filter(ratings, (r: Rating) => InSummaryCategory(key, r.rating))|
  }

  /** The keys `getSummaryData` keeps: those with a non-zero count. */
  function Kept(ratings: seq<Rating>): string -> bool
  {
    k => SummaryCount(ratings, k) > 0
  }

  /**
   * `getSummaryData`: the five counts in a record, then every zero entry
   * deleted while walking `Object.keys(summary)`.
   */
  method GetSummaryData(filteredRatings: seq<Rating>) returns (summary: Rec<nat>)
    ensures Valid(summary)
    ensures summary.keys == Filter(SummaryKeys, Kept(filteredRatings))
    ensures forall k :: k in summary.at <==> k in SummaryKeys && SummaryCount(filteredRatings, k) > 0
    ensures forall k :: k in summary.at ==> summary.at[k] == SummaryCount(filteredRatings, k) >= 1
  {
    var counts := Rec(SummaryKeys, map k | k in SummaryKeys :: SummaryCount(filteredRatings, k));
    SummaryKeysDistinct();
    summary := DeleteZeros(counts);
    FilterExt(SummaryKeys, NonZeroAt(counts), Kept(filteredRatings));
  }

  /** The keys of `r` whose value is not 0. */
  function NonZeroAt(r: Rec<nat>): string -> bool
  {
    k => k in r.at && r.at[k] != 0
  }

  /** `Object.keys(r).forEach(key => { if (r[key] === 0) delete r[key]; })`. */
  method DeleteZeros(r: Rec<nat>) returns (r': Rec<nat>)
    requires Valid(r)
    ensures Valid(r')
    ensures r'.keys == Filter(r.keys, NonZeroAt(r))
    ensures forall k :: k in r'.at <==> k in r.at && r.at[k] != 0
    ensures forall k :: k in r'.at ==> r'.at[k] == r.at[k]
  {
    r' := r;
    assert r.keys[..0] == [] && r.keys[0..] == r.keys;
    for i := 0 to |r.keys|
      invariant WalkedTo(r, r', i)
    {
      var k := r.keys[i];
      WalkStep(r, r', i);
      if r'.at[k] == 0 {
        r' := Remove(r', k);
      }
    }
    WalkDone(r, r');
  }

  /** The record after the deleting walk has visited the first `i` keys of `r`. */
  predicate WalkedTo(r: Rec<nat>, r': Rec<nat>, i: nat)
  {
    && Valid(r) && i <= |r.keys|
    && Valid(r')
    && r'.keys == Filter(r.keys[..i], NonZeroAt(r)) + r.keys[i..]
    && forall k :: k in r'.at ==> k in r.at && r'.at[k] == r.at[k]
  }

  /** Visiting key `i` keeps the walk on track. */
  lemma WalkStep(r: Rec<nat>, r': Rec<nat>, i: nat)
    requires WalkedTo(r, r', i) && i < |r.keys|
    ensures r.keys[i] in r'.at
    ensures r'.at[r.keys[i]] == 0 ==> WalkedTo(r, Remove(r', r.keys[i]), i + 1)
    ensures r'.at[r.keys[i]] != 0 ==> WalkedTo(r, r', i + 1)
  {
    var k := r.keys[i];
    assert r.keys[i..] == [k] + r.keys[i + 1..];
    assert k in r'.keys;
    DeleteStep(r.keys, i, NonZeroAt(r), r'.keys);
  }

  /** A finished walk has deleted exactly the zero entries. */
  lemma WalkDone(r: Rec<nat>, r': Rec<nat>)
    requires WalkedTo(r, r', |r.keys|)
    ensures Valid(r')
    ensures r'.keys == Filter(r.keys, NonZeroAt(r))
    ensures forall k :: k in r'.at <==> k in r.at && r.at[k] != 0
    ensures forall k :: k in r'.at ==> r'.at[k] == r.at[k]
  {
    assert r.keys[..|r.keys|] == r.keys;
    assert r.keys[|r.keys|..] == [];
    assert r'.keys == Filter(r.keys, NonZeroAt(r));
  }

  /** One step of the deleting walk over `keys`: the key list before and after visiting `keys[i]`. */
  lemma DeleteStep(keys: seq<string>, i: nat, keep: string -> bool, current: seq<string>)
    requires Distinct(keys) && i < |keys|
    requires current == Filter(keys[..i], keep) + keys[i..]
    ensures keep(keys[i]) ==> current == Filter(keys[..i + 1], keep) + keys[i + 1..]
    ensures !keep(keys[i]) ==> Filter(current, Other(keys[i])) == Filter(keys[..i + 1], keep) + keys[i + 1..]
  {
    var k := keys[i];
    var pre := Filter(keys[..i], keep);
    assert keys[..i + 1] == keys[..i] + [k];
    assert keys[i..] == [k] + keys[i + 1..];
    FilterSnoc(keys[..i], k, keep);
    assert current == pre + [k] + keys[i + 1..];
    if !keep(k) {
      assert k !in keys[..i] && k !in keys[i + 1..];
      FilterOut(pre, k, keys[i + 1..]);
    }
  }

  lemma SummaryKeysDistinct()
    ensures Distinct(SummaryKeys)
  {
    var ks := SummaryKeys;
    assert ks[0][0] == 'p' && ks[1][0] == 'n' && ks[2][0] == 'n' && ks[3][0] == 'h' && ks[4][0] == 'h';
    assert ks[1][1] == 'e' && ks[2][1] == 'e' && ks[1][2] == 'g' && ks[2][2] == 'u';
    assert ks[3][8] == 'p' && ks[4][8] == 'n';
  }

  /** Deleting `k` from a key list that holds it once, between `pre` and `post`. */
  lemma FilterOut(pre: seq<string>, k: string, post: seq<string>)
    requires k !in pre && k !in post
    ensures Filter(pre + [k] + post, Other(k)) == pre + post
  {
    var ne := Other(k);
    FilterAppend(pre + [k], post, ne);
    FilterAppend(pre, [k], ne);
    FilterAll(pre, ne);
    FilterAll(post, ne);
    assert Filter([k], ne) == [] by {
      assert [k][..0] == [];
    }
  }

  /** `getCategoryRatings`: the ratings behind one summary tile; [] for null, "" or an unknown id. */
  function GetCategoryRatings(filteredRatings: seq<Rating>, category: Option<string>): (rs: seq<Rating>)
    ensures |rs| <= |filteredRatings|
    ensures forall r :: r in rs ==> r in filteredRatings
  {
    if category.None? || category.value == "" then []
    else
      match category.value
      case "positive" => Filter(filteredRatings, (r: Rating) => r.rating > 0 && r.rating <= 6)
      case "negative" => Filter(filteredRatings, (r: Rating) => r.rating < 0 && r.rating >= -6)
      case "neutral" => Filter(filteredRatings, (r: Rating) => r.rating >= -3 && r.rating <= 3)
      case "heavily-positive" => Filter(filteredRatings, (r: Rating) => r.rating > 6)
      case "heavily-negative" => Filter(filteredRatings, (r: Rating) => r.rating < -6)
      case _ => []
  }

  // ---------------------------------------------------------------------
  // getUserDistributionData
  // ---------------------------------------------------------------------

  /** `users.find(u => u.id === id)`: the first user with that id. */
  function FindUser(users: seq<User>, id: int): (u: Option<User>)
    ensures u.Some? <==> exists i :: 0 <= i < |users| && users[i].id == id
    ensures u.Some? ==> u.value in users && u.value.id == id
  {
    Find(users, (u: User) => u.id, id)
  }

  /** The name a rating is counted under: the user's name, or `User <id>` when it is missing or empty. */
  function DisplayName(users: seq<User>, id: int): (name: string)
    ensures name != ""
  {
    match FindUser(users, id)
    case Some(u) => if u.name != "" then u.name else "User " + IntToString(id)
    case None => "User " + IntToString(id)
  }

  /** Unknown users, and users with an empty name, are shown as `User <id>`. */
  lemma DisplayNameCases(users: seq<User>, id: int)
    ensures (forall u <- users :: u.id != id) ==> DisplayName(users, id) == "User " + IntToString(id)
    ensures FindUser(users, id).Some? && FindUser(users, id).value.name == "" ==> DisplayName(users, id) == "User " + IntToString(id)
    ensures FindUser(users, id).Some? && FindUser(users, id).value.name != "" ==> DisplayName(users, id) == FindUser(users, id).value.name
  {
  }

  /** The display names of the ratings, in order. */
  function NamesOf(ratings: seq<Rating>, users: seq<User>): (ns: seq<string>)
    ensures |ns| == |ratings|
    ensures forall i :: 0 <= i < |ratings| ==> ns[i] == DisplayName(users, ratings[i].userId)
  {
    seq(|ratings|, i requires 0 <= i < |ratings| => DisplayName(users, ratings[i].userId))
  }

  /** `getUserDistributionData`: count the ratings per display name, names in order of first appearance. */
  method GetUserDistributionData(categoryRatings: seq<Rating>, users: seq<User>) returns (distribution: Rec<nat>)
    ensures distribution == Tally(NamesOf(categoryRatings, users))
  {
    distribution := Empty();
    ghost var names := NamesOf(categoryRatings, users);
    for i := 0 to |categoryRatings|
      invariant distribution == Tally(names[..i])
    {
      var name := DisplayName(users, categoryRatings[i].userId);
      var current := if name in distribution.at then distribution.at[name] else 0;
      assert name == names[i] && current == CountAt(distribution, name);
      TallyNext(names, i);
      CountOneIsPut(distribution, name);
      distribution := Put(distribution, name, current + 1);
    }
    assert names[..|categoryRatings|] == names;
  }

  // ---------------------------------------------------------------------
  // Proofs
  // ---------------------------------------------------------------------

  /** The result keeps input order and only drops ratings. */
  lemma FilteredIsSubsequence(ratings: seq<Rating>, filters: FilterState)
    ensures IsSubsequence(FilteredRatings(ratings, filters), ratings)
  {
    FilterIsSubsequence(ratings, PassTest(filters));
  }

  /** Filtering the filtered list again with the same filters changes nothing. */
  lemma FilteringIdempotent(ratings: seq<Rating>, filters: FilterState)
    ensures FilteredRatings(FilteredRatings(ratings, filters), filters) == FilteredRatings(ratings, filters)
  {
    FilterIdempotent(ratings, PassTest(filters));
  }

  /** An empty user selection restricts nothing: it is the same as selecting every user present. */
  lemma EmptyUserSelection(ratings: seq<Rating>, filters: FilterState, allUsers: seq<int>)
    requires |filters.selectedUsers| == 0
    requires forall r <- ratings :: r.userId in allUsers
    ensures FilteredRatings(ratings, filters) == FilteredRatings(ratings, filters.(selectedUsers := allUsers))
  {
    FilterExt(ratings, PassTest(filters), PassTest(filters.(selectedUsers := allUsers)));
  }

  /** A non-empty user selection keeps exactly the ratings of the selected users (that pass the other stages). */
  lemma UserSelection(ratings: seq<Rating>, filters: FilterState, r: Rating)
    requires |filters.selectedUsers| > 0
    ensures r in FilteredRatings(ratings, filters) <==>
      r in ratings && r.userId in filters.selectedUsers && Passes(filters.(selectedUsers := []), r)
  {
  }

  /** An unparseable from- or to-date empties the result. */
  lemma InvalidBoundDropsAll(ratings: seq<Rating>, filters: FilterState)
    requires IsoDay(filters.fromDate).None? || IsoDay(filters.toDate).None?
    ensures FilteredRatings(ratings, filters) == []
  {
    FilterExt(ratings, PassTest(filters), _ => false);
    FilterNone(ratings, _ => false);
  }

  /** The ISO reading of `dd/mm/yyyy` from three well-formed fields. */
  lemma IsoDayOfFields(a: string, b: string, c: string)
    requires AllDigits(a) && |a| == 2 && 1 <= DigitsValue(a) <= 31
    requires AllDigits(b) && |b| == 2 && 1 <= DigitsValue(b) <= 12
    requires AllDigits(c) && |c| == 4
    ensures IsoDay(Slashed(a, b, c)) == Some(DayIndex(DigitsValue(c), DigitsValue(b), DigitsValue(a)))
  {
    assert '/' !in a && '/' !in b && '/' !in c;
    SplitSlashed(a, b, c);
  }

  /** The ISO reading of a date written by `formatDateString` is that date's day number. */
  lemma IsoDayOfFormatted(d: CalDate)
    requires ValidDate(d) && 1 <= d.year <= 9999
    ensures IsoDay(FormatDateString(d)) == Some(DayNumber(d))
  {
    var a, b, c := Pad2(d.day), Pad2(d.month), PadStart(NatToString(d.year), 4, '0');
    ParsePad2(d.day);
    ParsePad2(d.month);
    YearField(d.year);
    assert FormatDateString(d) == Slashed(a, b, c);
    IsoDayOfFields(a, b, c);
  }

  /** On dates written by `formatDateString` the date stage keeps exactly the days from fromDate to toDate inclusive. */
  lemma DateStageInclusive(from: CalDate, to: CalDate, day: CalDate, r: Rating)
    requires ValidDate(from) && 1 <= from.year <= 9999
    requires ValidDate(to) && 1 <= to.year <= 9999
    requires ValidDate(day) && 1 <= day.year <= 9999
    requires r.date == FormatDateString(day)
    ensures DatePasses(IsoDay(FormatDateString(from)), IsoDay(FormatDateString(to)), r)
      <==> DayNumber(from) <= DayNumber(day) <= DayNumber(to)
  {
    IsoDayOfFormatted(from);
    IsoDayOfFormatted(to);
    IsoDayOfFormatted(day);
  }

  /** `'all'` anywhere in the selection lifts the category stage, whatever else is selected. */
  lemma AllSentinel(ratings: seq<Rating>, filters: FilterState)
    requires "all" in filters.selectedRatingCategories
    ensures FilteredRatings(ratings, filters) == FilteredRatings(ratings, filters.(selectedRatingCategories := []))
  {
    FilterExt(ratings, PassTest(filters), PassTest(filters.(selectedRatingCategories := [])));
  }

  /** Ids that name no category are ignored. */
  lemma UnknownIdIgnored(ids: seq<string>, bogus: string)
    requires forall c <- RatingCategories :: c.id != bogus
    ensures Ranges(ids + [bogus]) == Ranges(ids)
  {
    assert (ids + [bogus])[..|ids|] == ids;
  }

  /** When the category stage applies, a value passes iff some selected, known category's closed range holds it. */
  lemma CategoryStageIsUnion(ids: seq<string>, r: Rating)
    requires CategoryRestricts(ids)
    ensures CategoryPasses(ids, r) <==>
      exists id, c :: id in ids && Resolve(id) == Some(c) && c.min <= r.rating <= c.max
  {
    if CategoryPasses(ids, r) {
      var c :| c in Ranges(ids) && InCategory(r.rating, c);
      RangesResolve(ids, c);
    } else {
      forall id, c | id in ids && Resolve(id) == Some(c)
        ensures !(c.min <= r.rating <= c.max)
      {
        RangesResolve(ids, c);
      }
    }
  }

  /** No resolvable id at all (an empty list included) means no category restriction. */
  lemma NoKnownIdNoRestriction(ratings: seq<Rating>, filters: FilterState)
    requires forall id <- filters.selectedRatingCategories :: Resolve(id).None?
    ensures FilteredRatings(ratings, filters) == FilteredRatings(ratings, filters.(selectedRatingCategories := ["all"]))
  {
    var ids := filters.selectedRatingCategories;
    if |Ranges(ids)| > 0 {
      RangesResolve(ids, Ranges(ids)[0]);
    }
    FilterExt(ratings, PassTest(filters), PassTest(filters.(selectedRatingCategories := ["all"])));
  }

  /** The tile for `key` lists as many ratings as the summary counts for `key`. */
  lemma CategoryRatingsMatchSummary(ratings: seq<Rating>, key: string)
    requires key in SummaryKeys
    ensures GetCategoryRatings(ratings, Some(key)) == Filter(ratings, (r: Rating) => InSummaryCategory(key, r.rating))
    ensures |GetCategoryRatings(ratings, Some(key))| == SummaryCount(ratings, key)
  {
    var p := (r: Rating) => InSummaryCategory(key, r.rating);
    if key == "positive" {
      FilterExt(ratings, (r: Rating) => r.rating > 0 && r.rating <= 6, p);
    } else if key == "negative" {
      FilterExt(ratings, (r: Rating) => r.rating < 0 && r.rating >= -6, p);
    } else if key == "neutral" {
      FilterExt(ratings, (r: Rating) => r.rating >= -3 && r.rating <= 3, p);
    } else if key == "heavily-positive" {
      FilterExt(ratings, (r: Rating) => r.rating > 6, p);
    } else {
      FilterExt(ratings, (r: Rating) => r.rating < -6, p);
    }
  }

  /** A missing category or an id outside the five keys gives no ratings. */
  lemma CategoryRatingsUnknown(ratings: seq<Rating>, category: Option<string>)
    requires category.None? || category.value !in SummaryKeys
    ensures GetCategoryRatings(ratings, category) == []
  {
  }

  /** A rating of 2 is counted both as positive and as neutral; 4 only as positive. */
  lemma SummaryOverlap(r: Rating)
    ensures r.rating == 2 ==> SummaryCount([r], "positive") == 1 && SummaryCount([r], "neutral") == 1
    ensures r.rating == 4 ==> SummaryCount([r], "positive") == 1 && SummaryCount([r], "neutral") == 0
  {
    assert [r][..0] == [];
  }

  /** The per-name counts add up to the number of ratings, and each is that name's number of ratings. */
  lemma DistributionCounts(ratings: seq<Rating>, users: seq<User>)
    ensures Total(Tally(NamesOf(ratings, users)), Count) == |ratings|
    ensures forall n :: n in Tally(NamesOf(ratings, users)).at ==>
      Tally(NamesOf(ratings, users)).at[n] == Occurrences(NamesOf(ratings, users), n)
  {
    TallyTotal(NamesOf(ratings, users));
    TallyCounts(NamesOf(ratings, users));
  }

  /** A rating whose user is unknown is counted under `User <id>`. */
  lemma UnknownUserKey(ratings: seq<Rating>, users: seq<User>, i: nat)
    requires i < |ratings| && forall u <- users :: u.id != ratings[i].userId
    ensures "User " + IntToString(ratings[i].userId) in Tally(NamesOf(ratings, users)).at
  {
    TallyCounts(NamesOf(ratings, users));
    DisplayNameCases(users, ratings[i].userId);
    assert NamesOf(ratings, users)[i] == "User " + IntToString(ratings[i].userId);
  }
}
