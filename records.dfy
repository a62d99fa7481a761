/**
 * A JavaScript `Record<string, V>` built up by assignment: the values by key
 * and the order of `Object.keys`, which is the order in which keys were first
 * assigned (no key here is an array index).
 */
module Records {
  import opened Seqs

  datatype Rec<V> = Rec(keys: seq<string>, at: map<string, V>)

  /** The keys are listed once each and are exactly the assigned keys. */
  predicate Valid<V>(r: Rec<V>)
  {
    Distinct(r.keys) && (forall k <- r.keys :: k in r.at) && (forall k <- r.at.Keys :: k in r.keys)
  }

  function Empty<V>(): (r: Rec<V>)
    ensures Valid(r)
  {
    Rec([], map[])
  }

  /** `record[k] = v`: a new key goes to the end of `Object.keys`. */
  function Put<V>(r: Rec<V>, k: string, v: V): (r': Rec<V>)
    requires Valid(r)
    ensures Valid(r')
  {
    Rec(if k in r.at then r.keys else r.keys + [k], r.at[k := v])
  }

  /** The weight of key `k`'s value, 0 when `k` is absent. */
  function WeightAt<V>(r: Rec<V>, w: V -> nat, k: string): nat
  {
    if k in r.at then w(r.at[k]) else 0
  }

  /** The weight of each key's value, as one function. */
  function Weights<V>(r: Rec<V>, w: V -> nat): string -> int
  {
    k => WeightAt(r, w, k)
  }

  /** Sum of `w` over the values, in key order. */
  function Total<V>(r: Rec<V>, w: V -> nat): int
  {
    SumOf(r.keys, Weights(r, w))
  }

  /** An assignment changes the total by the difference between the new and the old value's weight. */
  lemma PutTotal<V>(r: Rec<V>, k: string, v: V, w: V -> nat)
    requires Valid(r)
    ensures Total(Put(r, k, v), w) == Total(r, w) - WeightAt(r, w, k) + w(v)
  {
    if k in r.at {
      PutTotalPresent(r, k, v, w);
    } else {
      PutTotalAbsent(r, k, v, w);
    }
  }

  /** Reassigning a key keeps the key order and swaps that key's weight. */
  lemma PutTotalPresent<V>(r: Rec<V>, k: string, v: V, w: V -> nat)
    requires Valid(r) && k in r.at
    ensures Total(Put(r, k, v), w) == Total(r, w) - WeightAt(r, w, k) + w(v)
  {
    var r' := Put(r, k, v);
    assert r'.keys == r.keys;
    var f := Weights(r, w);
    var f' := Weights(r', w);
    var i :| 0 <= i < |r.keys| && r.keys[i] == k;
    var rest := r.keys[..i] + r.keys[i + 1..];
    assert k !in rest by {
      forall j | 0 <= j < |rest| ensures rest[j] != k {
        if j < i { assert rest[j] == r.keys[j]; } else { assert rest[j] == r.keys[j + 1]; }
      }
    }
    SumOfRemove(r.keys, i, f);
    SumOfRemove(r.keys, i, f');
    SumOfExt(rest, f, f');
  }

  /** A new key goes last and adds its weight. */
  lemma PutTotalAbsent<V>(r: Rec<V>, k: string, v: V, w: V -> nat)
    requires Valid(r) && k !in r.at
    ensures Total(Put(r, k, v), w) == Total(r, w) - WeightAt(r, w, k) + w(v)
  {
    var r' := Put(r, k, v);
    assert r'.keys == r.keys + [k];
    var f := Weights(r, w);
    var f' := Weights(r', w);
    SumOfAppend(r.keys, [k], f');
    SumOfExt(r.keys, f, f');
    assert SumOf([k], f') == f'(k) by {
      assert [k][..0] == [];
    }
  }

  /** The test "is not `k`". */
  function Other(k: string): string -> bool
  {
    j => j != k
  }

  /** `delete record[k]`: the key leaves `Object.keys`; the others keep their order. */
  function Remove<V>(r: Rec<V>, k: string): (r': Rec<V>)
    requires Valid(r)
    ensures Valid(r')
    ensures r'.at == r.at - {k}
    ensures r'.keys == Filter(r.keys, Other(k))
  {
    FilterDistinct(r.keys, Other(k));
    Rec(Filter(r.keys, Other(k)), r.at - {k})
  }

  /**
   * The record that counting `names` one at a time builds:
   * `if (!record[n]) record[n] = 0; record[n] += 1`.
   */
  function Tally(names: seq<string>): (r: Rec<nat>)
    ensures Valid(r)
  {
    if names == [] then Empty()
    else CountOne(Tally(names[..|names| - 1]), names[|names| - 1])
  }

  /** Counting one name into a record. */
  function CountOne(r: Rec<nat>, n: string): (r': Rec<nat>)
    requires Valid(r)
    ensures Valid(r')
  {
    Put(r, n, CountAt(r, n) + 1)
  }

  /** The count under `n`, 0 when `n` has none yet. */
  function CountAt(r: Rec<nat>, n: string): nat
  {
    if n in r.at then r.at[n] else 0
  }

  /** The last counting step, spelled out with `Put`. */
  lemma TallyLast(s: seq<string>)
    requires s != []
    ensures var r, n := Tally(s[..|s| - 1]), s[|s| - 1]; Tally(s) == Put(r, n, CountAt(r, n) + 1)
  {
    TallyUnfold(s);
    CountOneIsPut(Tally(s[..|s| - 1]), s[|s| - 1]);
  }

  /** Counting the name at index `i` into the tally of the names before it. */
  lemma TallyNext(s: seq<string>, i: nat)
    requires i < |s|
    ensures Tally(s[..i + 1]) == CountOne(Tally(s[..i]), s[i])
  {
    PrefixSnoc(s, i);
    TallySnocOne(s[..i], s[i]);
  }

  lemma TallySnocOne(p: seq<string>, n: string)
    ensures Tally(p + [n]) == CountOne(Tally(p), n)
  {
    var t := p + [n];
    assert t[..|t| - 1] == p;
  }

  lemma TallyUnfold(s: seq<string>)
    requires s != []
    ensures Tally(s) == CountOne(Tally(s[..|s| - 1]), s[|s| - 1])
  {
  }

  lemma CountOneIsPut(r: Rec<nat>, n: string)
    requires Valid(r)
    ensures CountOne(r, n) == Put(r, n, CountAt(r, n) + 1)
  {
  }

  /** A count read as its own weight. */
  function Count(n: nat): nat { n }

  /** Every name counted gets a key, and its value is its number of occurrences. */
  lemma {:induction false} TallyCounts(names: seq<string>)
    ensures forall k :: k in Tally(names).at <==> k in names
    ensures forall k :: k in Tally(names).at ==> Tally(names).at[k] == Occurrences(names, k)
  {
    if names != [] {
      var init := names[..|names| - 1];
      TallyCounts(init);
      assert forall k :: k in names <==> k in init || k == names[|names| - 1];
    }
  }

  /** The keys of a tally are the names in order of first occurrence. */
  lemma {:induction false} TallyKeys(names: seq<string>)
    ensures Tally(names).keys == Dedup(names)
  {
    if names != [] {
      var init := names[..|names| - 1];
      TallyKeys(init);
      TallyCounts(init);
    }
  }

  /** The counts of a tally add up to the number of names counted. */
  lemma {:induction false} TallyTotal(names: seq<string>)
    ensures Total(Tally(names), Count) == |names|
  {
    if names != [] {
      var init := names[..|names| - 1];
      TallyTotal(init);
      TallyStep(names);
    }
  }

  /** One counting step adds one to the total. */
  lemma TallyStep(names: seq<string>)
    requires names != []
    ensures Total(Tally(names), Count) == Total(Tally(names[..|names| - 1]), Count) + 1
  {
    var r := Tally(names[..|names| - 1]);
    var n := names[|names| - 1];
    var v := CountAt(r, n) + 1;
    var t := Put(r, n, v);
    TallyLast(names);
    PutTotal(r, n, v, Count);
    assert Total(t, Count) == Total(r, Count) - WeightAt(r, Count, n) + Count(v);
  }
}
