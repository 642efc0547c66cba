/** Ordering of the catalog by rating, highest first, as a sort on
    `rating: -1` does it. Souvenirs of equal rating keep their catalog order. */
module Ranking {
  import opened Types

  /** Ratings do not increase along `s`. */
  ghost predicate SortedByRating(s: seq<Souvenir>) {
    forall i, j | 0 <= i < j < |s| :: s[j].rating <= s[i].rating
  }

  /** `x` placed into the rating-sorted `s` after every souvenir rated at
      least as high. */
  function Insert(x: Souvenir, s: seq<Souvenir>): (r: seq<Souvenir>)
    requires SortedByRating(s)
    ensures SortedByRating(r)
    ensures multiset(r) == multiset(s) + multiset{x}
    ensures |r| == |s| + 1
  {
    if s == [] then [x]
    else if x.rating > s[0].rating then
      ConsSorted(x, s);
      [x] + s
    else
      var rest := Insert(x, s[1..]);
      assert s == [s[0]] + s[1..];
      BoundedByMultiset(rest, s[1..], x, s[0].rating);
      ConsSorted(s[0], rest);
      [s[0]] + rest
  }

  /** A souvenir rated at least as high as everything in the sorted `t`
      can go in front of it. */
  lemma ConsSorted(h: Souvenir, t: seq<Souvenir>)
    requires SortedByRating(t)
    requires forall j | 0 <= j < |t| :: t[j].rating <= h.rating
    ensures SortedByRating([h] + t)
  {
  }

  /** When `x` and every element of `s` are rated at most `bound`, so is
      every element of a sequence holding exactly them. */
  lemma BoundedByMultiset(r: seq<Souvenir>, s: seq<Souvenir>, x: Souvenir, bound: real)
    requires multiset(r) == multiset(s) + multiset{x}
    requires x.rating <= bound
    requires forall j | 0 <= j < |s| :: s[j].rating <= bound
    ensures forall j | 0 <= j < |r| :: r[j].rating <= bound
  {
    forall j | 0 <= j < |r| ensures r[j].rating <= bound {
      assert r[j] in multiset(r);
      assert r[j] == x || r[j] in multiset(s);
    }
  }

  /** The catalog ordered by rating, highest first. */
  function SortByRating(s: seq<Souvenir>): (r: seq<Souvenir>)
    ensures SortedByRating(r)
    ensures multiset(r) == multiset(s)
    ensures |r| == |s|
  {
    if s == [] then []
    else
      assert s == s[..|s| - 1] + [s[|s| - 1]];
      Insert(s[|s| - 1], SortByRating(s[..|s| - 1]))
  }

  /** Cutting a rating-sorted sequence after `k` elements leaves nothing in
      the tail rated above anything in the head. */
  lemma HeadDominatesTail(sorted: seq<Souvenir>, k: nat)
    requires SortedByRating(sorted)
    requires k <= |sorted|
    ensures forall x, y | x in sorted[k..] && y in sorted[..k] :: x.rating <= y.rating
  {
    forall x, y | x in sorted[k..] && y in sorted[..k] ensures x.rating <= y.rating {
      var j :| 0 <= j < |sorted[k..]| && sorted[k..][j] == x;
      var i :| 0 <= i < k && sorted[..k][i] == y;
      assert sorted[k + j] == x && sorted[i] == y;
    }
  }

  /** The first `k` souvenirs of a rating-sorted sequence are sorted, and
      none of the souvenirs after them is rated above any of them. */
  lemma TakeSorted(sorted: seq<Souvenir>, k: nat)
    requires SortedByRating(sorted)
    requires k <= |sorted|
    ensures SortedByRating(sorted[..k])
    ensures multiset(sorted[..k]) <= multiset(sorted)
    ensures multiset(sorted) - multiset(sorted[..k]) == multiset(sorted[k..])
    ensures k == |sorted| ==> sorted[..k] == sorted
    ensures forall x, y | x in multiset(sorted) - multiset(sorted[..k]) && y in sorted[..k] :: x.rating <= y.rating
  {
    assert sorted == sorted[..k] + sorted[k..];
    HeadDominatesTail(sorted, k);
  }
}
