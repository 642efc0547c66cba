/** Selection and counting over a sequence of documents, the two shapes a
    `find` with a filter and a `count` with a filter take over a collection. */
module Seqs {

  /** The elements of `s` that satisfy `p`, in the order of `s`. */
  function Filter<T(==,!new)>(s: seq<T>, p: T -> bool): (r: seq<T>)
    ensures |r| <= |s|
    ensures forall i | 0 <= i < |r| :: p(r[i])
    ensures forall x {:trigger multiset(r)[x]} :: multiset(r)[x] == if p(x) then multiset(s)[x] else 0
  {
    if s == [] then []
    else
      var init, last := s[..|s| - 1], s[|s| - 1];
      assert s == init + [last];
      Filter(init, p) + (if p(last) then [last] else [])
  }

  /** The number of elements of `s` that satisfy `p`. */
  function Count<T>(s: seq<T>, p: T -> bool): (n: nat)
    ensures n <= |s|
  {
    if s == [] then 0
    else Count(s[..|s| - 1], p) + (if p(s[|s| - 1]) then 1 else 0)
  }

  lemma {:induction false} FilterIn<T(!new)>(s: seq<T>, p: T -> bool, x: T)
    ensures x in Filter(s, p) <==> x in s && p(x)
  {
    assert x in Filter(s, p) <==> multiset(Filter(s, p))[x] > 0;
    assert x in s <==> multiset(s)[x] > 0;
  }

  /** Selecting from a concatenation selects from each part in turn: the
      selection keeps the order of the input. */
  lemma {:induction false} FilterConcat<T(!new)>(a: seq<T>, b: seq<T>, p: T -> bool)
    ensures Filter(a + b, p) == Filter(a, p) + Filter(b, p)
    decreases |b|
  {
    if b == [] {
      assert a + b == a;
    } else {
      var init, last := b[..|b| - 1], b[|b| - 1];
      assert (a + b)[..|a + b| - 1] == a + init;
      FilterConcat(a, init, p);
    }
  }

  /** Selection from one element. */
  lemma FilterSingleton<T(!new)>(x: T, p: T -> bool)
    ensures Filter([x], p) == if p(x) then [x] else []
  {
    assert [x][..0] == [];
  }

  /** Selecting twice with the same condition selects nothing more. */
  lemma {:induction false} FilterIdempotent<T(!new)>(s: seq<T>, p: T -> bool)
    ensures Filter(Filter(s, p), p) == Filter(s, p)
  {
    if s != [] {
      var init, last := s[..|s| - 1], s[|s| - 1];
      FilterIdempotent(init, p);
      FilterConcat(Filter(init, p), if p(last) then [last] else [], p);
      if p(last) { FilterSingleton(last, p); }
    }
  }

  /** Every element satisfies `p` exactly when selection keeps everything. */
  lemma {:induction false} FilterAll<T(!new)>(s: seq<T>, p: T -> bool)
    requires forall i | 0 <= i < |s| :: p(s[i])
    ensures Filter(s, p) == s
  {
    if s != [] {
      var init := s[..|s| - 1];
      assert forall i | 0 <= i < |init| :: p(init[i]) by {
        forall i | 0 <= i < |init| ensures p(init[i]) { assert init[i] == s[i]; }
      }
      FilterAll(init, p);
      assert s == init + [s[|s| - 1]];
    }
  }

  /** Two conditions that agree on every element select the same elements. */
  lemma {:induction false} FilterCongruent<T(!new)>(s: seq<T>, p: T -> bool, q: T -> bool)
    requires forall i | 0 <= i < |s| :: p(s[i]) == q(s[i])
    ensures Filter(s, p) == Filter(s, q)
  {
    if s != [] {
      var init := s[..|s| - 1];
      assert forall i | 0 <= i < |init| :: p(init[i]) == q(init[i]) by {
        forall i | 0 <= i < |init| ensures p(init[i]) == q(init[i]) { assert init[i] == s[i]; }
      }
      FilterCongruent(init, p, q);
    }
  }

  /** Selecting by `p` and then by `q` selects by their conjunction `pq`. */
  lemma {:induction false} FilterFilter<T(!new)>(s: seq<T>, p: T -> bool, q: T -> bool, pq: T -> bool)
    requires forall x :: pq(x) == (p(x) && q(x))
    ensures Filter(Filter(s, p), q) == Filter(s, pq)
  {
    if s != [] {
      var init, last := s[..|s| - 1], s[|s| - 1];
      FilterFilter(init, p, q, pq);
      FilterConcat(Filter(init, p), if p(last) then [last] else [], q);
      if p(last) { FilterSingleton(last, q); }
    }
  }

  /** Counting agrees with the length of the selection. */
  lemma {:induction false} CountIsFilterLength<T(!new)>(s: seq<T>, p: T -> bool)
    ensures Count(s, p) == |Filter(s, p)|
  {
    if s != [] {
      CountIsFilterLength(s[..|s| - 1], p);
    }
  }

  /** Every element is kept by `p` or by its negation `notP`, never by both. */
  lemma {:induction false} FilterSplit<T(!new)>(s: seq<T>, p: T -> bool, notP: T -> bool)
    requires forall x :: notP(x) == !p(x)
    ensures |Filter(s, p)| + |Filter(s, notP)| == |s|
  {
    if s != [] {
      FilterSplit(s[..|s| - 1], p, notP);
    }
  }
}
