/**
 * `Array.prototype.sort` with a comparator, which is stable since ES2019.
 * A comparator `cmp(a, b) <= 0` is modelled by the test `le(a, b)`; the
 * result is the stable insertion sort by `le`.
 */
module Sorting {
  import opened Seqs

  /** `le` is total and transitive: what a consistent comparator gives. */
  ghost predicate TotalPreorder<T(!new)>(le: (T, T) -> bool)
  {
    && (forall a, b :: le(a, b) || le(b, a))
    && (forall a, b, c :: le(a, b) && le(b, c) ==> le(a, c))
  }

  predicate SortedBy<T>(s: seq<T>, le: (T, T) -> bool)
  {
    forall i, j :: 0 <= i < j < |s| ==> le(s[i], s[j])
  }

  /** Insert `x` into `s` after every element that is not greater than `x`. */
  function InsertSorted<T>(s: seq<T>, x: T, le: (T, T) -> bool): (r: seq<T>)
    ensures |r| == |s| + 1
    ensures multiset(r) == multiset(s) + multiset{x}
  {
    if s == [] then [x]
    else if le(s[|s| - 1], x) then s + [x]
    else
      var r := InsertSorted(s[..|s| - 1], x, le) + [s[|s| - 1]];
      assert s == s[..|s| - 1] + [s[|s| - 1]];
      r
  }

  /** The stable sort of `s` by `le`: a permutation of `s`. */
  function SortBy<T>(s: seq<T>, le: (T, T) -> bool): (r: seq<T>)
    ensures |r| == |s|
    ensures multiset(r) == multiset(s)
  {
    if s == [] then []
    else
      assert s == s[..|s| - 1] + [s[|s| - 1]];
      InsertSorted(SortBy(s[..|s| - 1], le), s[|s| - 1], le)
  }

  lemma {:induction false} InsertSortedSorted<T(!new)>(s: seq<T>, x: T, le: (T, T) -> bool)
    requires TotalPreorder(le) && SortedBy(s, le)
    ensures SortedBy(InsertSorted(s, x, le), le)
  {
    if s != [] && !le(s[|s| - 1], x) {
      var s' := s[..|s| - 1];
      var y := s[|s| - 1];
      InsertSortedSorted(s', x, le);
      var r' := InsertSorted(s', x, le);
      assert le(x, y);
      forall i | 0 <= i < |r'|
        ensures le(r'[i], y)
      {
        assert r'[i] in multiset(r');
        assert r'[i] in multiset(s') || r'[i] == x;
        if r'[i] != x {
          var k :| 0 <= k < |s'| && s'[k] == r'[i];
          assert le(s[k], s[|s| - 1]);
        }
      }
      SortedSnoc(r', y, le);
    } else if s != [] {
      forall i | 0 <= i < |s|
        ensures le(s[i], x)
      {
        if i < |s| - 1 {
          assert le(s[i], s[|s| - 1]);
        }
      }
      SortedSnoc(s, x, le);
    }
  }

  /** The sort's result is ordered by `le`. */
  lemma {:induction false} SortBySorted<T(!new)>(s: seq<T>, le: (T, T) -> bool)
    requires TotalPreorder(le)
    ensures SortedBy(SortBy(s, le), le)
  {
    if s != [] {
      SortBySorted(s[..|s| - 1], le);
      InsertSortedSorted(SortBy(s[..|s| - 1], le), s[|s| - 1], le);
    }
  }

  /** Sorting keeps exactly the same elements, and keeps them distinct if they were. */
  lemma SortByElements<T>(s: seq<T>, le: (T, T) -> bool)
    ensures forall x :: x in SortBy(s, le) <==> x in s
  {
    var r := SortBy(s, le);
    forall x
      ensures x in r <==> x in s
    {
      assert x in r <==> x in multiset(r);
      assert x in s <==> x in multiset(s);
    }
  }

  /** `le` is total and transitive on the values that pass `ok`. */
  ghost predicate PreorderOn<T(!new)>(le: (T, T) -> bool, ok: T -> bool)
  {
    && (forall a, b :: ok(a) && ok(b) ==> le(a, b) || le(b, a))
    && (forall a, b, c :: ok(a) && ok(b) && ok(c) && le(a, b) && le(b, c) ==> le(a, c))
  }

  lemma {:induction false} InsertSortedSortedOn<T(!new)>(s: seq<T>, x: T, le: (T, T) -> bool, ok: T -> bool)
    requires PreorderOn(le, ok) && SortedBy(s, le)
    requires ok(x) && forall y <- s :: ok(y)
    ensures SortedBy(InsertSorted(s, x, le), le)
  {
    if s != [] && !le(s[|s| - 1], x) {
      var s' := s[..|s| - 1];
      var y := s[|s| - 1];
      assert forall z <- s' :: z in s;
      InsertSortedSortedOn(s', x, le, ok);
      var r' := InsertSorted(s', x, le);
      assert le(x, y);
      forall i | 0 <= i < |r'|
        ensures le(r'[i], y)
      {
        assert r'[i] in multiset(r');
        assert r'[i] in multiset(s') || r'[i] == x;
        if r'[i] != x {
          var k :| 0 <= k < |s'| && s'[k] == r'[i];
          assert le(s[k], s[|s| - 1]);
        }
      }
      SortedSnoc(r', y, le);
    } else if s != [] {
      var y := s[|s| - 1];
      forall i | 0 <= i < |s|
        ensures le(s[i], x)
      {
        if i < |s| - 1 {
          assert le(s[i], y);
        }
      }
      SortedSnoc(s, x, le);
    }
  }

  /** An element not below any element of a sorted sequence may follow it. */
  lemma SortedSnoc<T>(s: seq<T>, y: T, le: (T, T) -> bool)
    requires SortedBy(s, le) && forall i :: 0 <= i < |s| ==> le(s[i], y)
    ensures SortedBy(s + [y], le)
  {
    var r := s + [y];
    forall i, j | 0 <= i < j < |r|
      ensures le(r[i], r[j])
    {
      assert r[i] == s[i];
      if j < |s| {
        assert r[j] == s[j];
      }
    }
  }

  /** On values where `le` is a total preorder, the sort's result is ordered by `le`. */
  lemma {:induction false} SortBySortedOn<T(!new)>(s: seq<T>, le: (T, T) -> bool, ok: T -> bool)
    requires PreorderOn(le, ok) && forall y <- s :: ok(y)
    ensures SortedBy(SortBy(s, le), le)
  {
    if s != [] {
      var s' := s[..|s| - 1];
      assert forall z <- s' :: z in s;
      SortBySortedOn(s', le, ok);
      var r := SortBy(s', le);
      forall z | z in r
        ensures ok(z)
      {
        assert z in multiset(r);
        assert z in multiset(s');
      }
      InsertSortedSortedOn(r, s[|s| - 1], le, ok);
    }
  }

  /** The elements that compare equal to `x`: `le` holds both ways. */
  function TiesWith<T>(le: (T, T) -> bool, x: T): T -> bool
  {
    y => le(x, y) && le(y, x)
  }

  /**
   * Inserting `z` puts it after every element that ties with it, so the
   * elements tied with any `x` keep their order, with `z` last among them.
   */
  lemma {:induction false} InsertSortedStable<T(!new)>(s: seq<T>, z: T, le: (T, T) -> bool, ok: T -> bool, x: T)
    requires PreorderOn(le, ok) && ok(x) && ok(z) && forall y <- s :: ok(y)
    ensures Filter(InsertSorted(s, z, le), TiesWith(le, x)) == Filter(s + [z], TiesWith(le, x))
  {
    if s == [] {
      assert [z] == s + [z];
    } else if !le(s[|s| - 1], z) {
      var s' := s[..|s| - 1];
      var y := s[|s| - 1];
      var a := InsertSorted(s', z, le);
      assert InsertSorted(s, z, le) == a + [y];
      assert s' + [y] == s;
      assert Filter(a, TiesWith(le, x)) == Filter(s' + [z], TiesWith(le, x)) by {
        assert forall w <- s' :: w in s;
        InsertSortedStable(s', z, le, ok, x);
      }
      assert !(TiesWith(le, x)(y) && TiesWith(le, x)(z)) by {
        TiesAreOrdered(le, ok, x, y, z);
      }
      FilterPastLast(s', y, z, TiesWith(le, x), a);
    }
  }

  /** Two elements that both tie with `x` are ordered both ways. */
  lemma TiesAreOrdered<T(!new)>(le: (T, T) -> bool, ok: T -> bool, x: T, y: T, z: T)
    requires PreorderOn(le, ok) && ok(x) && ok(y) && ok(z)
    ensures TiesWith(le, x)(y) && TiesWith(le, x)(z) ==> le(y, z)
  {
  }

  /** Moving `z` past a last element `y` that the filter cannot see together with it. */
  lemma FilterPastLast<T(!new)>(s: seq<T>, y: T, z: T, p: T -> bool, a: seq<T>)
    requires Filter(a, p) == Filter(s + [z], p) && !(p(y) && p(z))
    ensures Filter(a + [y], p) == Filter(s + [y] + [z], p)
  {
    FilterSnoc(a, y, p);
    FilterSnoc(s, z, p);
    FilterSnoc(s, y, p);
    FilterSnoc(s + [y], z, p);
  }

  /**
   * `SortBy` is stable: on values where `le` is a total preorder, the
   * elements that compare equal to any `x` appear in the result in their
   * input order.
   */
  lemma {:induction false} SortByStable<T(!new)>(s: seq<T>, le: (T, T) -> bool, ok: T -> bool, x: T)
    requires PreorderOn(le, ok) && ok(x) && forall y <- s :: ok(y)
    ensures Filter(SortBy(s, le), TiesWith(le, x)) == Filter(s, TiesWith(le, x))
  {
    if s != [] {
      var s' := s[..|s| - 1];
      var z := s[|s| - 1];
      var r := SortBy(s', le);
      assert SortBy(s, le) == InsertSorted(r, z, le);
      assert s' + [z] == s;
      assert Filter(r, TiesWith(le, x)) == Filter(s', TiesWith(le, x)) by {
        assert forall w <- s' :: w in s;
        SortByStable(s', le, ok, x);
      }
      assert Filter(InsertSorted(r, z, le), TiesWith(le, x)) == Filter(r + [z], TiesWith(le, x)) by {
        assert forall w <- s' :: w in s;
        SortByKeeps(s', le, ok);
        InsertSortedStable(r, z, le, ok, x);
      }
      FilterSnocBoth(r, s', z, TiesWith(le, x));
    }
  }

  /** Every element of the sort's result passes any test that every input element passes. */
  lemma SortByKeeps<T>(s: seq<T>, le: (T, T) -> bool, ok: T -> bool)
    requires forall y <- s :: ok(y)
    ensures forall w <- SortBy(s, le) :: ok(w)
  {
    var r := SortBy(s, le);
    forall w | w in r
      ensures ok(w)
    {
      assert w in multiset(r);
      assert w in multiset(s);
    }
  }

  /** Appending the same element to two sequences with equal filters keeps the filters equal. */
  lemma FilterSnocBoth<T(!new)>(a: seq<T>, b: seq<T>, y: T, p: T -> bool)
    requires Filter(a, p) == Filter(b, p)
    ensures Filter(a + [y], p) == Filter(b + [y], p)
  {
    FilterSnoc(a, y, p);
    FilterSnoc(b, y, p);
  }
}
