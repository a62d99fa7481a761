/**
 * `Array.prototype.filter` and the facts the filter engine needs about it:
 * the result is an order-preserving subsequence, filtering twice by the same
 * test changes nothing, and successive filters compose into one.
 */
module Seqs {
  import opened Wrappers

  /**
   * `xs.find(x => id(x) === key)`: an element whose id is `key`, or none when
   * no element has it; `FindFirst` shows it is the first such element.
   */
  function Find<T, K(==)>(xs: seq<T>, id: T -> K, key: K): (r: Option<T>)
    ensures r.Some? <==> exists i :: 0 <= i < |xs| && id(xs[i]) == key
    ensures r.Some? ==> r.value in xs && id(r.value) == key
  {
    if xs == [] then None
    else if id(xs[0]) == key then Some(xs[0])
    else
      var r := Find(xs[1..], id, key);
      assert forall i :: 0 < i < |xs| ==> xs[i] == xs[1..][i - 1];
      r
  }

  /** What `find` returns is the element at the first index whose id is `key`. */
  lemma {:induction false} FindFirst<T, K>(xs: seq<T>, id: T -> K, key: K, i: nat)
    requires i < |xs| && id(xs[i]) == key
    requires forall j :: 0 <= j < i ==> id(xs[j]) != key
    ensures Find(xs, id, key) == Some(xs[i])
  {
    if i > 0 {
      FindFirst(xs[1..], id, key, i - 1);
    }
  }

  function Filter<T(!new)>(s: seq<T>, p: T -> bool): (r: seq<T>)
    ensures |r| <= |s|
    ensures forall x :: x in r <==> x in s && p(x)
  {
    if s == [] then []
    else
      var rest := Filter(s[..|s| - 1], p);
      assert forall x :: x in s <==> x in s[..|s| - 1] || x == s[|s| - 1];
      if p(s[|s| - 1]) then rest + [s[|s| - 1]] else rest
  }

  /** `sub` is obtained from `s` by deleting elements, keeping the order of the rest. */
  predicate IsSubsequence<T(==)>(sub: seq<T>, s: seq<T>)
    decreases |s|
  {
    if sub == [] then true
    else if s == [] then false
    else if sub[|sub| - 1] == s[|s| - 1] then IsSubsequence(sub[..|sub| - 1], s[..|s| - 1])
    else IsSubsequence(sub, s[..|s| - 1])
  }

  lemma {:induction false} FilterIsSubsequence<T(!new)>(s: seq<T>, p: T -> bool)
    ensures IsSubsequence(Filter(s, p), s)
  {
    if s != [] {
      var s' := s[..|s| - 1];
      FilterIsSubsequence(s', p);
      var r := Filter(s, p);
      if p(s[|s| - 1]) {
        assert r[..|r| - 1] == Filter(s', p);
      } else {
        SubsequenceExtend(Filter(s', p), s', s[|s| - 1]);
      }
    }
  }

  lemma {:induction false} SubsequenceExtend<T>(sub: seq<T>, s: seq<T>, x: T)
    requires IsSubsequence(sub, s)
    ensures IsSubsequence(sub, s + [x])
    decreases |s|, 1
  {
    if sub != [] && sub[|sub| - 1] == x {
      assert (s + [x])[..|s|] == s;
      SubsequenceDropLast(sub, s);
    } else if sub != [] {
      assert (s + [x])[..|s|] == s;
    }
  }

  lemma {:induction false} SubsequenceDropLast<T>(sub: seq<T>, s: seq<T>)
    requires sub != [] && IsSubsequence(sub, s)
    ensures IsSubsequence(sub[..|sub| - 1], s)
    decreases |s|, 0
  {
    var s' := s[..|s| - 1];
    if sub[|sub| - 1] == s[|s| - 1] {
      SubsequenceExtend(sub[..|sub| - 1], s', s[|s| - 1]);
      assert s' + [s[|s| - 1]] == s;
    } else {
      SubsequenceDropLast(sub, s');
      SubsequenceExtend(sub[..|sub| - 1], s', s[|s| - 1]);
      assert s' + [s[|s| - 1]] == s;
    }
  }

  /** A subsequence of a subsequence of `s` is a subsequence of `s`. */
  lemma {:induction false} SubsequenceTrans<T>(a: seq<T>, b: seq<T>, s: seq<T>)
    requires IsSubsequence(a, b) && IsSubsequence(b, s)
    ensures IsSubsequence(a, s)
    decreases |s|
  {
    if a != [] {
      var s' := s[..|s| - 1];
      var b' := b[..|b| - 1];
      assert s' + [s[|s| - 1]] == s;
      if b[|b| - 1] == s[|s| - 1] {
        if a[|a| - 1] == b[|b| - 1] {
          SubsequenceTrans(a[..|a| - 1], b', s');
        } else {
          SubsequenceTrans(a, b', s');
          SubsequenceExtend(a, s', s[|s| - 1]);
        }
      } else {
        SubsequenceTrans(a, b, s');
        SubsequenceExtend(a, s', s[|s| - 1]);
      }
    }
  }

  /** Filtering by a test that holds of every element keeps the whole sequence. */
  lemma {:induction false} FilterAll<T(!new)>(s: seq<T>, p: T -> bool)
    requires forall x :: x in s ==> p(x)
    ensures Filter(s, p) == s
  {
    if s != [] {
      FilterAll(s[..|s| - 1], p);
      assert s[..|s| - 1] + [s[|s| - 1]] == s;
    }
  }

  /** Two tests that agree on every element filter alike. */
  lemma {:induction false} FilterExt<T(!new)>(s: seq<T>, p: T -> bool, q: T -> bool)
    requires forall x :: x in s ==> p(x) == q(x)
    ensures Filter(s, p) == Filter(s, q)
  {
    if s != [] {
      FilterExt(s[..|s| - 1], p, q);
    }
  }

  /** Filtering by `p` and then by `q` is filtering once by "p and q". */
  lemma {:induction false} FilterCompose<T(!new)>(s: seq<T>, p: T -> bool, q: T -> bool, pq: T -> bool)
    requires forall x :: pq(x) == (p(x) && q(x))
    ensures Filter(Filter(s, p), q) == Filter(s, pq)
  {
    if s != [] {
      var s' := s[..|s| - 1];
      var x := s[|s| - 1];
      FilterCompose(s', p, q, pq);
      if p(x) {
        assert (Filter(s', p) + [x])[..|Filter(s', p)|] == Filter(s', p);
      }
    }
  }

  /** Filtering twice by the same test is filtering once. */
  lemma FilterIdempotent<T(!new)>(s: seq<T>, p: T -> bool)
    ensures Filter(Filter(s, p), p) == Filter(s, p)
  {
    FilterAll(Filter(s, p), p);
  }

  /** A test nothing passes leaves nothing. */
  lemma {:induction false} FilterNone<T(!new)>(s: seq<T>, p: T -> bool)
    requires forall x :: x in s ==> !p(x)
    ensures Filter(s, p) == []
  {
    if s != [] {
      FilterNone(s[..|s| - 1], p);
    }
  }

  /** Filtering one more element appends it exactly when it passes. */
  lemma FilterSnoc<T(!new)>(s: seq<T>, x: T, p: T -> bool)
    ensures Filter(s + [x], p) == if p(x) then Filter(s, p) + [x] else Filter(s, p)
  {
    assert (s + [x])[..|s|] == s;
  }

  /** Filtering a concatenation filters each part. */
  lemma {:induction false} FilterAppend<T(!new)>(a: seq<T>, b: seq<T>, p: T -> bool)
    ensures Filter(a + b, p) == Filter(a, p) + Filter(b, p)
  {
    if b == [] {
      assert a + b == a;
    } else {
      assert (a + b)[..|a + b| - 1] == a + b[..|b| - 1];
      FilterAppend(a, b[..|b| - 1], p);
    }
  }

  /** Filtering keeps a duplicate-free sequence duplicate-free. */
  lemma {:induction false} FilterDistinct<T(!new)>(s: seq<T>, p: T -> bool)
    requires Distinct(s)
    ensures Distinct(Filter(s, p))
  {
    if s != [] {
      var s' := s[..|s| - 1];
      assert Distinct(s');
      FilterDistinct(s', p);
      assert s[|s| - 1] !in s';
    }
  }

  /** The elements of `s` in order of first occurrence, each once. */
  function Dedup<T(==,!new)>(s: seq<T>): (r: seq<T>)
    ensures Distinct(r)
    ensures forall x :: x in r <==> x in s
  {
    if s == [] then []
    else
      var d := Dedup(s[..|s| - 1]);
      assert forall x :: x in s <==> x in s[..|s| - 1] || x == s[|s| - 1];
      if s[|s| - 1] in d then d else d + [s[|s| - 1]]
  }

  /** Number of elements of `s` that pass `p`. */
  function CountWhere<T(!new)>(s: seq<T>, p: T -> bool): nat
  {
    |Filter(s, p)|
  }

  /** Number of occurrences of `x` in `s`. */
  function Occurrences<T(==,!new)>(s: seq<T>, x: T): (n: nat)
    ensures n <= |s|
    ensures n > 0 <==> x in s
  {
    if s == [] then 0
    else
      assert forall y :: y in s <==> y in s[..|s| - 1] || y == s[|s| - 1];
      Occurrences(s[..|s| - 1], x) + (if s[|s| - 1] == x then 1 else 0)
  }

  predicate Distinct<T(==)>(s: seq<T>)
  {
    forall i, j :: 0 <= i < j < |s| ==> s[i] != s[j]
  }

  function Map<T, U>(s: seq<T>, f: T -> U): (r: seq<U>)
    ensures |r| == |s|
    ensures forall i :: 0 <= i < |s| ==> r[i] == f(s[i])
  {
    seq(|s|, i requires 0 <= i < |s| => f(s[i]))
  }

  /** Sum of a weight over the elements of a sequence. */
  function SumOf<T>(s: seq<T>, w: T -> int): int
  {
    if s == [] then 0 else SumOf(s[..|s| - 1], w) + w(s[|s| - 1])
  }

  lemma {:induction false} SumOfAppend<T>(a: seq<T>, b: seq<T>, w: T -> int)
    ensures SumOf(a + b, w) == SumOf(a, w) + SumOf(b, w)
  {
    if b == [] {
      assert a + b == a;
    } else {
      assert (a + b)[..|a + b| - 1] == a + b[..|b| - 1];
      SumOfAppend(a, b[..|b| - 1], w);
    }
  }

  /** Removing one element from the middle takes its weight off the sum. */
  lemma {:induction false} SumOfRemove<T>(s: seq<T>, i: nat, w: T -> int)
    requires i < |s|
    ensures SumOf(s, w) == SumOf(s[..i] + s[i + 1..], w) + w(s[i])
  {
    var pre, x, post := s[..i], s[i], s[i + 1..];
    assert s == (pre + [x]) + post;
    assert SumOf([x], w) == w(x) by {
      assert [x][..0] == [];
    }
    SumOfAppend(pre + [x], post, w);
    SumOfAppend(pre, [x], w);
    SumOfAppend(pre, post, w);
  }

  /** The prefix one longer is the prefix followed by the next element. */
  lemma PrefixSnoc<T>(s: seq<T>, i: nat)
    requires i < |s|
    ensures s[..i + 1] == s[..i] + [s[i]]
  {
  }

  /** A sum does not depend on the order of the elements. */
  lemma {:induction false} SumOfPermutation<T>(a: seq<T>, b: seq<T>, w: T -> int)
    requires multiset(a) == multiset(b)
    ensures SumOf(a, w) == SumOf(b, w)
    decreases |a|
  {
    if a != [] {
      var x, a' := a[|a| - 1], a[..|a| - 1];
      assert a == a' + [x];
      assert x in multiset(b);
      var i :| 0 <= i < |b| && b[i] == x;
      var b' := b[..i] + b[i + 1..];
      RemoveMatching(a, b, i);
      SumOfPermutation(a', b', w);
      SumOfRemove(b, i, w);
    }
  }

  /** Taking the last element off one of two permutations, and one copy of it off the other, leaves permutations. */
  lemma RemoveMatching<T>(a: seq<T>, b: seq<T>, i: nat)
    requires multiset(a) == multiset(b) && a != [] && i < |b| && b[i] == a[|a| - 1]
    ensures multiset(a[..|a| - 1]) == multiset(b[..i] + b[i + 1..])
  {
    var x, a', b' := a[|a| - 1], a[..|a| - 1], b[..i] + b[i + 1..];
    assert a == a' + [x];
    assert b == b[..i] + [x] + b[i + 1..];
    assert multiset(b) == multiset(b') + multiset{x};
    assert multiset(a) == multiset(a') + multiset{x};
    assert multiset(a') == multiset(a) - multiset{x};
    assert multiset(b') == multiset(b) - multiset{x};
  }

  /** Weights that agree on every element give the same sum. */
  lemma {:induction false} SumOfExt<T>(s: seq<T>, w: T -> int, v: T -> int)
    requires forall x :: x in s ==> w(x) == v(x)
    ensures SumOf(s, w) == SumOf(s, v)
  {
    if s != [] {
      SumOfExt(s[..|s| - 1], w, v);
    }
  }

  /** A permutation of a duplicate-free sequence is duplicate-free. */
  lemma DistinctPermutation<T>(a: seq<T>, b: seq<T>)
    requires Distinct(a) && multiset(a) == multiset(b)
    ensures Distinct(b)
  {
    forall i, j | 0 <= i < j < |b|
      ensures b[i] != b[j]
    {
      if b[i] == b[j] {
        var x := b[i];
        assert b == b[..i] + [x] + b[i + 1..j] + [x] + b[j + 1..];
        assert multiset(b)[x] >= 2;
        DistinctCount(a, x);
      }
    }
  }

  lemma {:induction false} DistinctCount<T>(a: seq<T>, x: T)
    requires Distinct(a)
    ensures multiset(a)[x] <= 1
  {
    if a != [] {
      var a' := a[..|a| - 1];
      assert a == a' + [a[|a| - 1]];
      DistinctCount(a', x);
      if a[|a| - 1] == x {
        assert x !in a';
      }
    }
  }
}
