/** The read-only catalog queries of `Queries`: each one a filter, a sort
    and take, a projection or a count over the souvenir collection, here a
    sequence in one fixed order. */
module Catalog {
  import opened Types
  import opened Seqs
  import opened Text
  import opened Ranking

  /** getAllSouvenirs: the whole collection. */
  function AllSouvenirs(catalog: seq<Souvenir>): (r: seq<Souvenir>)
    ensures r == catalog
  {
    catalog
  }

  /** getCheapSouvenirs: the souvenirs priced at most `price`. */
  function CheapSouvenirs(catalog: seq<Souvenir>, price: real): (r: seq<Souvenir>)
    ensures forall i | 0 <= i < |r| :: r[i].price <= price
    ensures forall x :: multiset(r)[x] == if x.price <= price then multiset(catalog)[x] else 0
  {
    Filter(catalog, (s: Souvenir) => s.price <= price)
  }

  /** With a bound no price exceeds, the cheap souvenirs are all souvenirs. */
  lemma CheapAboveEveryPriceIsAll(catalog: seq<Souvenir>, price: real)
    requires forall i | 0 <= i < |catalog| :: catalog[i].price <= price
    ensures CheapSouvenirs(catalog, price) == AllSouvenirs(catalog)
  {
    FilterAll(catalog, (s: Souvenir) => s.price <= price);
  }

  /** getTopRatingSouvenirs: the `n` best-rated souvenirs, best first. A
      limit of 0 is no limit. */
  function TopRatingSouvenirs(catalog: seq<Souvenir>, n: nat): (r: seq<Souvenir>)
    ensures |r| == if n == 0 || n >= |catalog| then |catalog| else n
    ensures multiset(r) <= multiset(catalog)
    ensures n == 0 || n >= |catalog| ==> multiset(r) == multiset(catalog)
    ensures SortedByRating(r)
    ensures forall x, y | x in multiset(catalog) - multiset(r) && y in r :: x.rating <= y.rating
  {
    var sorted := SortByRating(catalog);
    var k := if n == 0 || n >= |catalog| then |catalog| else n;
    TakeSorted(sorted, k);
    sorted[..k]
  }

  /** The three fields getSouvenirsByTag keeps of a souvenir. */
  datatype TagView = TagView(name: string, image: string, price: real)

  function Project(s: Souvenir): (v: TagView)
    ensures v.name == s.name && v.image == s.image && v.price == s.price
  {
    TagView(s.name, s.image, s.price)
  }

  predicate HasTag(s: Souvenir, tag: string) {
    tag in s.tags
  }

  /** getSouvenirsByTag: the name, image and price of every souvenir one of
      whose tags equals `tag`, in catalog order. */
  function SouvenirsByTag(catalog: seq<Souvenir>, tag: string): (r: seq<TagView>)
    ensures |r| == Count(catalog, s => HasTag(s, tag))
    ensures forall v | v in r :: exists x | x in catalog :: HasTag(x, tag) && v == Project(x)
  {
    var picked := Filter(catalog, s => HasTag(s, tag));
    CountIsFilterLength(catalog, s => HasTag(s, tag));
    var views := seq(|picked|, i requires 0 <= i < |picked| => Project(picked[i]));
    forall v | v in views ensures exists x | x in catalog :: HasTag(x, tag) && v == Project(x) {
      var i :| 0 <= i < |views| && views[i] == v;
      FilterIn(catalog, s => HasTag(s, tag), picked[i]);
      assert picked[i] in catalog && HasTag(picked[i], tag) && v == Project(picked[i]);
    }
    views
  }

  /** The tag query over a concatenation is the query over each part in
      turn. */
  lemma SouvenirsByTagConcat(a: seq<Souvenir>, b: seq<Souvenir>, tag: string)
    ensures SouvenirsByTag(a + b, tag) == SouvenirsByTag(a, tag) + SouvenirsByTag(b, tag)
  {
    FilterConcat(a, b, s => HasTag(s, tag));
  }

  /** A single souvenir gives its projection exactly when it carries the
      tag. With the lemma above: one projection per matching souvenir, in
      catalog order, and nothing else. */
  lemma SouvenirsByTagSingleton(x: Souvenir, tag: string)
    ensures SouvenirsByTag([x], tag) == if HasTag(x, tag) then [Project(x)] else []
  {
    FilterSingleton(x, s => HasTag(s, tag));
  }

  /** The condition of getSouvenrisCount. */
  predicate CountMatches(s: Souvenir, country: string, rating: real, price: real) {
    s.price <= price && s.rating >= rating && s.country == country
  }

  /** getSouvenrisCount: how many souvenirs come from `country`, are rated
      at least `rating` and cost at most `price`. */
  function SouvenirsCount(catalog: seq<Souvenir>, country: string, rating: real, price: real): (n: nat)
    ensures n <= |catalog|
    ensures n == |Filter(catalog, s => CountMatches(s, country, rating, price))|
  {
    CountIsFilterLength(catalog, s => CountMatches(s, country, rating, price));
    Count(catalog, s => CountMatches(s, country, rating, price))
  }

  /** The count is the number of cheap souvenirs (same price bound) that
      come from `country` and are rated at least `rating`. */
  lemma {:induction false} SouvenirsCountAgreesWithCheap(catalog: seq<Souvenir>, country: string, rating: real, price: real)
    ensures SouvenirsCount(catalog, country, rating, price)
         == |Filter(CheapSouvenirs(catalog, price), (s: Souvenir) => s.country == country && s.rating >= rating)|
  {
    CountIsFilterLength(catalog, s => CountMatches(s, country, rating, price));
    FilterFilter(catalog, (s: Souvenir) => s.price <= price,
                          (s: Souvenir) => s.country == country && s.rating >= rating,
                          s => CountMatches(s, country, rating, price));
  }

  /** searchSouvenirs: the souvenirs whose name contains `substring`,
      ignoring case. */
  function SearchSouvenirs(catalog: seq<Souvenir>, substring: string): (r: seq<Souvenir>)
    ensures forall i | 0 <= i < |r| :: ContainsIgnoringCase(r[i].name, substring)
    ensures forall x :: multiset(r)[x] == if ContainsIgnoringCase(x.name, substring) then multiset(catalog)[x] else 0
  {
    Filter(catalog, (s: Souvenir) => ContainsIgnoringCase(s.name, substring))
  }

  /** The empty search string matches every souvenir. */
  lemma SearchEmptyIsAll(catalog: seq<Souvenir>)
    ensures SearchSouvenirs(catalog, "") == AllSouvenirs(catalog)
  {
    forall i | 0 <= i < |catalog| ensures ContainsIgnoringCase(catalog[i].name, "") {
      EmptyOccursEverywhere(catalog[i].name);
    }
    FilterAll(catalog, (s: Souvenir) => ContainsIgnoringCase(s.name, ""));
  }

  /** Searches with strings of the same folded form give the same result. */
  lemma {:induction false} SearchIgnoresCase(catalog: seq<Souvenir>, a: string, b: string)
    requires Lower(a) == Lower(b)
    ensures SearchSouvenirs(catalog, a) == SearchSouvenirs(catalog, b)
  {
    FilterCongruent(catalog, (s: Souvenir) => ContainsIgnoringCase(s.name, a),
                             (s: Souvenir) => ContainsIgnoringCase(s.name, b));
  }

  /** A search string and its capitalised form give the same result. */
  lemma SearchUpperCase(catalog: seq<Souvenir>, substring: string)
    ensures SearchSouvenirs(catalog, Upper(substring)) == SearchSouvenirs(catalog, substring)
  {
    LowerOfUpper(substring);
    SearchIgnoresCase(catalog, Upper(substring), substring);
  }

  /** The condition of getDisscusedSouvenirs: a first review dated no
      earlier than `date`. */
  predicate DiscussedSince(s: Souvenir, date: Timestamp) {
    |s.reviews| > 0 && s.reviews[0].date >= date
  }

  /** getDisscusedSouvenirs: the souvenirs whose first review is dated no
      earlier than `date`; a souvenir without reviews never qualifies. */
  function DiscussedSouvenirs(catalog: seq<Souvenir>, date: Timestamp): (r: seq<Souvenir>)
    ensures forall i | 0 <= i < |r| :: |r[i].reviews| > 0 && r[i].reviews[0].date >= date
    ensures forall x :: multiset(r)[x] == if DiscussedSince(x, date) then multiset(catalog)[x] else 0
  {
    Filter(catalog, (s: Souvenir) => DiscussedSince(s, date))
  }

  /** What deleteOutOfStockSouvenirs leaves: the souvenirs whose stock is
      not 0, in catalog order. */
  function InStock(catalog: seq<Souvenir>): (r: seq<Souvenir>)
    ensures forall i | 0 <= i < |r| :: r[i].amount != 0
    ensures forall x :: multiset(r)[x] == if x.amount != 0 then multiset(catalog)[x] else 0
  {
    Filter(catalog, (s: Souvenir) => s.amount != 0)
  }

  /** The number of souvenirs removed is the number of out-of-stock ones. */
  lemma PurgeCount(catalog: seq<Souvenir>)
    ensures |catalog| - |InStock(catalog)| == Count(catalog, (s: Souvenir) => s.amount == 0)
  {
    FilterSplit(catalog, (s: Souvenir) => s.amount != 0, (s: Souvenir) => s.amount == 0);
    CountIsFilterLength(catalog, (s: Souvenir) => s.amount == 0);
  }

  /** Deleting again from what the deletion left removes nothing. */
  lemma PurgeIdempotent(catalog: seq<Souvenir>)
    ensures InStock(InStock(catalog)) == InStock(catalog)
  {
    FilterIdempotent(catalog, (s: Souvenir) => s.amount != 0);
  }

  /** Removing souvenirs keeps the identifiers of the rest unique. */
  lemma {:induction false} FilterKeepsUniqueIds(catalog: seq<Souvenir>, p: Souvenir -> bool)
    requires UniqueIds(catalog)
    ensures UniqueIds(Filter(catalog, p))
  {
    if catalog != [] {
      var init, last := catalog[..|catalog| - 1], catalog[|catalog| - 1];
      UniqueIdsPrefix(catalog);
      FilterKeepsUniqueIds(init, p);
      var kept := Filter(init, p);
      if p(last) {
        forall j | 0 <= j < |kept| ensures kept[j].id != last.id {
          FilterIn(init, p, kept[j]);
          var k :| 0 <= k < |init| && init[k] == kept[j];
          assert catalog[k] == kept[j];
        }
        var r := kept + [last];
        assert forall i | 0 <= i < |kept| :: r[i] == kept[i];
      }
    }
  }
}
