/** The `Queries` object over its two collections: the souvenir catalog and
    the carts, each a sequence of documents in one fixed order.
    The read-only catalog queries are the functions of module Catalog applied
    to `souvenirs`; the operations here are the ones that write the catalog
    or loop over it. */
module Store {
  import opened Types
  import opened Seqs
  import opened Catalog
  import opened Rating
  import opened Pricing

  class Queries {
    var souvenirs: seq<Souvenir>
    var carts: seq<Cart>

    /** The store keeps `_id` unique and, by the schema's unique index, at
        most one cart per login. */
    ghost predicate Valid()
      reads this
    {
      UniqueIds(souvenirs) && UniqueLogins(carts)
    }

    constructor (souvenirs: seq<Souvenir>, carts: seq<Cart>)
      requires UniqueIds(souvenirs) && UniqueLogins(carts)
      ensures Valid()
      ensures this.souvenirs == souvenirs && this.carts == carts
    {
      this.souvenirs := souvenirs;
      this.carts := carts;
    }

    /** deleteOutOfStockSouvenirs: removes every souvenir whose amount is 0
        and reports how many were removed. Carts are left as they are. */
    method DeleteOutOfStockSouvenirs() returns (n: nat)
      requires Valid()
      modifies this
      ensures Valid()
      ensures souvenirs == InStock(old(souvenirs))
      ensures carts == old(carts)
      ensures n == |old(souvenirs)| - |souvenirs|
      ensures n == Count(old(souvenirs), (s: Souvenir) => s.amount == 0)
    {
      var kept := InStock(souvenirs);
      PurgeCount(souvenirs);
      FilterKeepsUniqueIds(souvenirs, (s: Souvenir) => s.amount != 0);
      n := |souvenirs| - |kept|;
      souvenirs := kept;
    }

    /** Two deletions in a row: the second removes nothing. */
    method DeleteTwice() returns (first: nat, second: nat)
      requires Valid()
      modifies this
      ensures Valid()
      ensures souvenirs == InStock(old(souvenirs)) && carts == old(carts)
      ensures first == |old(souvenirs)| - |souvenirs|
      ensures second == 0
    {
      PurgeIdempotent(souvenirs);
      first := DeleteOutOfStockSouvenirs();
      second := DeleteOutOfStockSouvenirs();
    }

    /** addReview: appends a review dated `now` and not approved to the
        souvenir `souvenirId` and stores the running mean over the whole
        review list as its rating; fails with NotFound when no souvenir has
        that identifier. No other document changes. */
    method AddReview(souvenirId: ObjectId, login: string, rating: real, text: string, now: Timestamp)
      returns (r: Result<()>)
      requires Valid()
      modifies this
      ensures Valid()
      ensures carts == old(carts)
      ensures FindById(old(souvenirs), souvenirId).None? ==>
        r == Err(NotFound) && souvenirs == old(souvenirs)
      ensures FindById(old(souvenirs), souvenirId).Some? ==>
        var k := FindById(old(souvenirs), souvenirId).value;
        && r == Ok(())
        && |souvenirs| == |old(souvenirs)|
        && souvenirs[k] == WithReview(old(souvenirs)[k], NewReview(login, rating, text, now))
        && souvenirs[k].reviews == old(souvenirs)[k].reviews + [NewReview(login, rating, text, now)]
        && souvenirs[k].rating == Mean(souvenirs[k].reviews)
        && forall j | 0 <= j < |souvenirs| && j != k :: souvenirs[j] == old(souvenirs)[j]
    {
      match FindById(souvenirs, souvenirId)
      case None =>
        r := Err(NotFound);
      case Some(k) =>
        var reviews := souvenirs[k].reviews;
        reviews := reviews + [NewReview(login, rating, text, now)];
        var newRating := RunningMean(reviews);
        ghost var was := souvenirs;
        souvenirs := souvenirs[k := souvenirs[k].(reviews := reviews, rating := newRating)];
        assert forall j | 0 <= j < |souvenirs| :: souvenirs[j].id == was[j].id;
        r := Ok(());
    }

    /** getCartSum: the value of the cart of `login`, summing over its lines
        and the souvenirs they name the price times the smaller of the
        requested quantity and the stock; fails with NotFound when `login`
        has no cart. */
    method GetCartSum(login: string) returns (r: Result<real>)
      requires Valid()
      ensures FindCart(carts, login).None? ==> r == Err(NotFound)
      ensures FindCart(carts, login).Some? ==>
        r == Ok(CartTotal(carts[FindCart(carts, login).value].items, souvenirs))
    {
      var found := FindCart(carts, login);
      if found.None? {
        return Err(NotFound);
      }
      var items := carts[found.value].items;
      var prices := FetchedSouvenirs(souvenirs, items);
      var sum := SumOverMatches(items, prices);
      FetchedTotal(items, souvenirs);
      NestedTotalIsCartTotal(items, souvenirs);
      r := Ok(sum);
    }
  }
}
