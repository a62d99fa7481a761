/**
 * The bar-chart buckets shared by every grouper of the dashboard: a record
 * from bucket key to three counters, filled by walking the ratings in order
 * and raising exactly one counter per rating that gets a key.
 */
module Buckets {
  import opened Seqs
  import opened Records
  import opened Types
  import opened Constants

  /** The time unit of the bar chart's buckets. */
  datatype Granularity = Day | Week | Month

  /** Which of the three bar segments a rating adds to. */
  datatype Tone = Positive | Neutral | Negative

  /** The chart split: above 3 is positive, below -3 negative, anything else neutral. */
  function ChartTone(v: int): Tone
  {
    if v > 3 then Positive else if v < -3 then Negative else Neutral
  }

  /** One bucket: `{ positive, neutral, negative }`. */
  datatype Counts = Counts(positive: nat, neutral: nat, negative: nat)

  const Zero: Counts := Counts(0, 0, 0)

  /** Number of ratings a bucket holds. */
  function Size(c: Counts): nat
  {
    c.positive + c.neutral + c.negative
  }

  /** The counter of segment `t` in a bucket. */
  function Counter(c: Counts, t: Tone): nat
  {
    match t
    case Positive => c.positive
    case Neutral => c.neutral
    case Negative => c.negative
  }

  /** `grouped[key].<tone> += 1`. */
  function Bump(c: Counts, t: Tone): (c': Counts)
    ensures Size(c') == Size(c) + 1
    ensures t == Positive ==> c' == c.(positive := c.positive + 1)
    ensures t == Neutral ==> c' == c.(neutral := c.neutral + 1)
    ensures t == Negative ==> c' == c.(negative := c.negative + 1)
  {
    match t
    case Positive => c.(positive := c.positive + 1)
    case Neutral => c.(neutral := c.neutral + 1)
    case Negative => c.(negative := c.negative + 1)
  }

  /** The bucket under `key`, or a fresh zero bucket (`if (!grouped[key]) grouped[key] = {0, 0, 0}`). */
  function BucketAt(r: Rec<Counts>, key: string): Counts
  {
    if key in r.at then r.at[key] else Zero
  }

  /** Adding one rating of tone `t` under `key`. */
  function Add(r: Rec<Counts>, key: string, t: Tone): (r': Rec<Counts>)
    requires Valid(r)
    ensures Valid(r')
  {
    Put(r, key, Bump(BucketAt(r, key), t))
  }

  /** The groupers' if-chain on the rating value raises exactly the counter `ChartTone` names. */
  lemma BumpTone(c: Counts, v: int, c': Counts)
    requires c' == if v > 3 then c.(positive := c.positive + 1)
      else if v < -3 then c.(negative := c.negative + 1)
      else c.(neutral := c.neutral + 1)
    ensures c' == Bump(c, ChartTone(v))
  {
  }

  /** The buckets built by processing the keyed entries in order. */
  function Grouped(entries: seq<(string, Tone)>): (r: Rec<Counts>)
    ensures Valid(r)
  {
    if entries == [] then Empty()
    else
      var e := entries[|entries| - 1];
      Add(Grouped(entries[..|entries| - 1]), e.0, e.1)
  }

  /** The bucket keys of the entries, in order. */
  function KeysOf(entries: seq<(string, Tone)>): (ks: seq<string>)
    ensures |ks| == |entries|
    ensures forall i :: 0 <= i < |entries| ==> ks[i] == entries[i].0
  {
    seq(|entries|, i requires 0 <= i < |entries| => entries[i].0)
  }

  // ---------------------------------------------------------------------
  // Proofs
  // ---------------------------------------------------------------------

  /** Every rating value falls in exactly one segment, and neutral is the closed range [-3, 3]. */
  lemma ChartToneSplit(v: int)
    ensures ChartTone(v) == Neutral <==> InCategory(v, RatingCategories[3])
    ensures ChartTone(v) == Positive <==> v >= 4
    ensures ChartTone(v) == Negative <==> v <= -4
  {
  }

  /** The keys of the buckets are the entry keys in order of first appearance. */
  lemma {:induction false} GroupedKeys(entries: seq<(string, Tone)>)
    ensures Grouped(entries).keys == Dedup(KeysOf(entries))
  {
    if entries != [] {
      var init := entries[..|entries| - 1];
      var e := entries[|entries| - 1];
      GroupedKeys(init);
      var ks := KeysOf(entries);
      assert ks[..|ks| - 1] == KeysOf(init);
      var r := Grouped(init);
      GroupedUnfold(entries);
      assert e.0 in r.at <==> e.0 in r.keys;
    }
  }

  /** A key has a bucket exactly when some entry carries it. */
  lemma GroupedHasKey(entries: seq<(string, Tone)>, k: string)
    ensures k in Grouped(entries).at <==> k in KeysOf(entries)
  {
    GroupedKeys(entries);
  }

  /** Each counter of a bucket is the number of entries with that key and that tone. */
  lemma {:induction false} GroupedCounts(entries: seq<(string, Tone)>, k: string)
    requires k in Grouped(entries).at
    ensures Grouped(entries).at[k] == Counts(
      Occurrences(entries, (k, Positive)),
      Occurrences(entries, (k, Neutral)),
      Occurrences(entries, (k, Negative)))
  {
    GroupedCount(entries, k, Positive);
    GroupedCount(entries, k, Neutral);
    GroupedCount(entries, k, Negative);
  }

  /** The counter of one segment of the bucket under `k` is the number of entries `(k, t)`. */
  lemma {:induction false} GroupedCount(entries: seq<(string, Tone)>, k: string, t: Tone)
    requires k in Grouped(entries).at
    ensures Counter(Grouped(entries).at[k], t) == Occurrences(entries, (k, t))
  {
    var init := entries[..|entries| - 1];
    var e := entries[|entries| - 1];
    GroupedLast(entries, k);
    assert Occurrences(entries, (k, t)) == Occurrences(init, (k, t)) + (if e == (k, t) then 1 else 0);
    var before := BucketAt(Grouped(init), k);
    assert Counter(before, t) == Occurrences(init, (k, t)) by {
      if k in Grouped(init).at {
        GroupedCount(init, k, t);
      } else {
        GroupedHasKey(init, k);
        NoKeyNoEntry(init, k, t);
      }
    }
    if k == e.0 {
      assert e == (k, e.1);
      CounterBump(before, e.1, t);
    }
  }

  /** Raising the counter of segment `u` adds one to that counter and leaves the others. */
  lemma CounterBump(c: Counts, u: Tone, t: Tone)
    ensures Counter(Bump(c, u), t) == Counter(c, t) + (if u == t then 1 else 0)
  {
  }

  /** The bucket under `k` after one more entry: raised when the entry carries `k`, unchanged otherwise. */
  lemma GroupedLast(entries: seq<(string, Tone)>, k: string)
    requires entries != []
    ensures var r, e := Grouped(entries[..|entries| - 1]), entries[|entries| - 1];
      && (k in Grouped(entries).at <==> k in r.at || k == e.0)
      && (k in Grouped(entries).at ==> Grouped(entries).at[k] == if k == e.0 then Bump(BucketAt(r, k), e.1) else r.at[k])
  {
    GroupedUnfold(entries);
  }

  /** Entries whose keys are all different from `k` hold no entry `(k, t)`. */
  lemma NoKeyNoEntry(entries: seq<(string, Tone)>, k: string, t: Tone)
    requires k !in KeysOf(entries)
    ensures Occurrences(entries, (k, t)) == 0
  {
  }

  /** The bucket sizes add up to the number of entries: nothing is lost or counted twice. */
  lemma {:induction false} GroupedTotal(entries: seq<(string, Tone)>)
    ensures Total(Grouped(entries), Size) == |entries|
  {
    if entries != [] {
      GroupedTotal(entries[..|entries| - 1]);
      GroupedStep(entries);
    }
  }

  /** Adding one entry raises the total by one. */
  lemma GroupedStep(entries: seq<(string, Tone)>)
    requires entries != []
    ensures Total(Grouped(entries), Size) == Total(Grouped(entries[..|entries| - 1]), Size) + 1
  {
    var e := entries[|entries| - 1];
    var r := Grouped(entries[..|entries| - 1]);
    var v := Bump(BucketAt(r, e.0), e.1);
    var t := Put(r, e.0, v);
    GroupedUnfold(entries);
    PutTotal(r, e.0, v, Size);
    assert Total(t, Size) == Total(r, Size) - WeightAt(r, Size, e.0) + Size(v);
  }

  /** Adding one more entry to the buckets of the earlier ones, as the grouping loops do. */
  lemma GroupedSnoc(entries: seq<(string, Tone)>, key: string, t: Tone)
    ensures Grouped(entries + [(key, t)]) == Add(Grouped(entries), key, t)
  {
    var s := entries + [(key, t)];
    assert s[..|s| - 1] == entries;
  }

  /** `Add` spelled out as the groupers write it: one `Put` of the raised bucket. */
  lemma AddIsPut(r: Rec<Counts>, key: string, t: Tone)
    requires Valid(r)
    ensures Add(r, key, t) == Put(r, key, Bump(BucketAt(r, key), t))
  {
  }

  lemma GroupedUnfold(entries: seq<(string, Tone)>)
    requires entries != []
    ensures var r, e := Grouped(entries[..|entries| - 1]), entries[|entries| - 1];
      Grouped(entries) == Put(r, e.0, Bump(BucketAt(r, e.0), e.1))
  {
  }
}
