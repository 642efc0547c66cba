/** The cart pricing of getCartSum: every cart line is joined with the
    catalog entries carrying its souvenir identifier, and each match adds its
    price times the smaller of the requested quantity and the stock. */
module Pricing {
  import opened Types
  import opened Seqs
  import opened Catalog

  function Min(a: int, b: int): (m: int)
    ensures m <= a && m <= b
    ensures m == a || m == b
  {
    if a <= b then a else b
  }

  /** What catalog entry `s` adds for cart line `item` in the inner loop. */
  function Contribution(item: CartItem, s: Souvenir): real {
    if s.id == item.souvenirId then s.price * (Min(item.amount, s.amount) as real) else 0.0
  }

  /** The inner loop over the fetched souvenirs `ps` for one cart line. */
  function MatchTotal(item: CartItem, ps: seq<Souvenir>): real {
    if ps == [] then 0.0
    else MatchTotal(item, ps[..|ps| - 1]) + Contribution(item, ps[|ps| - 1])
  }

  /** The outer loop over the cart lines `items`. */
  function NestedTotal(items: seq<CartItem>, ps: seq<Souvenir>): real {
    if items == [] then 0.0
    else NestedTotal(items[..|items| - 1], ps) + MatchTotal(items[|items| - 1], ps)
  }

  /** One more step of the inner loop. */
  lemma MatchTotalStep(item: CartItem, ps: seq<Souvenir>, j: nat)
    requires j < |ps|
    ensures MatchTotal(item, ps[..j + 1]) == MatchTotal(item, ps[..j]) + Contribution(item, ps[j])
  {
    assert ps[..j + 1][..j] == ps[..j];
  }

  /** One more step of the outer loop. */
  lemma NestedTotalStep(items: seq<CartItem>, ps: seq<Souvenir>, i: nat)
    requires i < |items|
    ensures NestedTotal(items[..i + 1], ps) == NestedTotal(items[..i], ps) + MatchTotal(items[i], ps)
  {
    assert items[..i + 1][..i] == items[..i];
  }

  /** The two nested loops of getCartSum: for every cart line, every
      fetched souvenir with the line's identifier adds its price times the
      smaller of the requested quantity and its stock. */
  method SumOverMatches(items: seq<CartItem>, prices: seq<Souvenir>) returns (sum: real)
    ensures sum == NestedTotal(items, prices)
  {
    sum := 0.0;
    for i := 0 to |items|
      invariant sum == NestedTotal(items[..i], prices)
    {
      var item := items[i];
      for j := 0 to |prices|
        invariant sum == NestedTotal(items[..i], prices) + MatchTotal(item, prices[..j])
      {
        var priceObj := prices[j];
        MatchTotalStep(item, prices, j);
        if priceObj.id == item.souvenirId {
          var amount := Min(item.amount, priceObj.amount);
          sum := sum + priceObj.price * (amount as real);
        }
      }
      assert prices[..|prices|] == prices;
      NestedTotalStep(items, prices, i);
    }
    assert items[..|items|] == items;
  }

  /** The identifiers the cart refers to. */
  function ItemIds(items: seq<CartItem>): (ids: set<ObjectId>)
    ensures forall k | 0 <= k < |items| :: items[k].souvenirId in ids
    ensures forall id | id in ids :: exists k | 0 <= k < |items| :: items[k].souvenirId == id
  {
    var ids := set it | it in items :: it.souvenirId;
    forall id | id in ids ensures exists k | 0 <= k < |items| :: items[k].souvenirId == id {
      var it :| it in items && it.souvenirId == id;
    }
    ids
  }

  /** The souvenirs fetched for the cart: those whose identifier one of its
      lines names. */
  function FetchedSouvenirs(catalog: seq<Souvenir>, items: seq<CartItem>): (r: seq<Souvenir>)
    ensures forall i | 0 <= i < |r| :: r[i].id in ItemIds(items)
    ensures forall x :: multiset(r)[x] == if x.id in ItemIds(items) then multiset(catalog)[x] else 0
  {
    Filter(catalog, (s: Souvenir) => s.id in ItemIds(items))
  }

  /** The value of cart line `item`: the price of the souvenir with its
      identifier times the smaller of the requested quantity and the stock,
      and 0 when the catalog has no such souvenir. */
  function LineValue(item: CartItem, catalog: seq<Souvenir>): (v: real)
    ensures (forall k | 0 <= k < |catalog| :: catalog[k].id != item.souvenirId) ==> v == 0.0
    ensures UniqueIds(catalog) ==>
      forall k | 0 <= k < |catalog| && catalog[k].id == item.souvenirId ::
        v == catalog[k].price * (Min(item.amount, catalog[k].amount) as real)
  {
    forall k | 0 <= k < |catalog| && UniqueIds(catalog) && catalog[k].id == item.souvenirId
      ensures FindById(catalog, item.souvenirId) == Some(k)
    {
      FindByIdUnique(catalog, k);
    }
    match FindById(catalog, item.souvenirId)
    case None => 0.0
    case Some(k) => catalog[k].price * (Min(item.amount, catalog[k].amount) as real)
  }

  /** The total of a cart: the sum of its line values. */
  function CartTotal(items: seq<CartItem>, catalog: seq<Souvenir>): real {
    if items == [] then 0.0
    else CartTotal(items[..|items| - 1], catalog) + LineValue(items[|items| - 1], catalog)
  }

  /** A line that matches no souvenir adds nothing in the inner loop. */
  lemma {:induction false} MatchTotalNoMatch(item: CartItem, ps: seq<Souvenir>)
    requires forall k | 0 <= k < |ps| :: ps[k].id != item.souvenirId
    ensures MatchTotal(item, ps) == 0.0
  {
    if ps != [] {
      var init := ps[..|ps| - 1];
      assert forall k | 0 <= k < |init| :: init[k] == ps[k];
      MatchTotalNoMatch(item, init);
    }
  }

  /** A last entry with another identifier leaves the line value. */
  lemma LineValuePrefix(item: CartItem, catalog: seq<Souvenir>)
    requires catalog != [] && catalog[|catalog| - 1].id != item.souvenirId
    ensures LineValue(item, catalog) == LineValue(item, catalog[..|catalog| - 1])
  {
    FindByIdPrefix(catalog, item.souvenirId);
  }

  /** With unique identifiers the inner loop finds the one matching entry:
      it computes the line value. */
  lemma {:induction false} MatchTotalIsLineValue(item: CartItem, catalog: seq<Souvenir>)
    requires UniqueIds(catalog)
    ensures MatchTotal(item, catalog) == LineValue(item, catalog)
  {
    if catalog != [] {
      var init, last := catalog[..|catalog| - 1], catalog[|catalog| - 1];
      if last.id == item.souvenirId {
        forall k | 0 <= k < |init| ensures init[k].id != item.souvenirId {
          assert init[k] == catalog[k];
        }
        MatchTotalNoMatch(item, init);
        assert catalog[|init|] == last;
      } else {
        UniqueIdsPrefix(catalog);
        MatchTotalIsLineValue(item, init);
        LineValuePrefix(item, catalog);
      }
    }
  }

  /** The outer loop computes the cart total when identifiers are unique. */
  lemma {:induction false} NestedTotalIsCartTotal(items: seq<CartItem>, catalog: seq<Souvenir>)
    requires UniqueIds(catalog)
    ensures NestedTotal(items, catalog) == CartTotal(items, catalog)
  {
    if items != [] {
      NestedTotalIsCartTotal(items[..|items| - 1], catalog);
      MatchTotalIsLineValue(items[|items| - 1], catalog);
    }
  }

  /** Removing entries that add nothing for a line leaves its inner sum. */
  lemma {:induction false} MatchTotalFilter(item: CartItem, ps: seq<Souvenir>, p: Souvenir -> bool)
    requires forall k | 0 <= k < |ps| :: !p(ps[k]) ==> Contribution(item, ps[k]) == 0.0
    ensures MatchTotal(item, Filter(ps, p)) == MatchTotal(item, ps)
  {
    if ps != [] {
      var init, last := ps[..|ps| - 1], ps[|ps| - 1];
      assert forall k | 0 <= k < |init| :: init[k] == ps[k];
      MatchTotalFilter(item, init, p);
      if p(last) {
        var kept := Filter(init, p) + [last];
        assert kept[..|kept| - 1] == Filter(init, p);
      } else {
        assert Filter(ps, p) == Filter(init, p);
      }
    }
  }

  /** Removing entries that add nothing for any line leaves the outer sum. */
  lemma {:induction false} NestedTotalFilter(items: seq<CartItem>, ps: seq<Souvenir>, p: Souvenir -> bool)
    requires forall i, k | 0 <= i < |items| && 0 <= k < |ps| :: !p(ps[k]) ==> Contribution(items[i], ps[k]) == 0.0
    ensures NestedTotal(items, Filter(ps, p)) == NestedTotal(items, ps)
  {
    if items != [] {
      var init := items[..|items| - 1];
      assert forall i | 0 <= i < |init| :: init[i] == items[i];
      NestedTotalFilter(init, ps, p);
      MatchTotalFilter(items[|items| - 1], ps, p);
    }
  }

  /** Summing over the fetched souvenirs is summing over the catalog: an
      entry the cart does not name adds nothing for any line. */
  lemma FetchedTotal(items: seq<CartItem>, catalog: seq<Souvenir>)
    ensures NestedTotal(items, FetchedSouvenirs(catalog, items)) == NestedTotal(items, catalog)
  {
    NestedTotalFilter(items, catalog, (s: Souvenir) => s.id in ItemIds(items));
  }

  /** With non-negative prices, stock and quantities, a line is worth at
      least 0. */
  lemma LineValueNonNegative(item: CartItem, catalog: seq<Souvenir>)
    requires forall k | 0 <= k < |catalog| :: catalog[k].price >= 0.0 && catalog[k].amount >= 0
    requires item.amount >= 0
    ensures LineValue(item, catalog) >= 0.0
  {
    match FindById(catalog, item.souvenirId)
    case None =>
    case Some(k) =>
      var m := Min(item.amount, catalog[k].amount) as real;
      assert m >= 0.0 && catalog[k].price >= 0.0;
      assert catalog[k].price * m >= 0.0;
  }

  /** With non-negative prices, stock and quantities, a cart total is at
      least 0. */
  lemma {:induction false} CartTotalNonNegative(items: seq<CartItem>, catalog: seq<Souvenir>)
    requires forall k | 0 <= k < |catalog| :: catalog[k].price >= 0.0 && catalog[k].amount >= 0
    requires forall i | 0 <= i < |items| :: items[i].amount >= 0
    ensures CartTotal(items, catalog) >= 0.0
  {
    if items != [] {
      var init := items[..|items| - 1];
      assert forall i | 0 <= i < |init| :: init[i] == items[i];
      CartTotalNonNegative(init, catalog);
      LineValueNonNegative(items[|items| - 1], catalog);
    }
  }

  /** An out-of-stock souvenir adds `price * min(quantity, 0)`, which is 0
      for a non-negative quantity. */
  lemma OutOfStockAddsNothing(items: seq<CartItem>, catalog: seq<Souvenir>)
    requires forall i | 0 <= i < |items| :: items[i].amount >= 0
    ensures forall i, k | 0 <= i < |items| && 0 <= k < |catalog| && catalog[k].amount == 0 ::
      Contribution(items[i], catalog[k]) == 0.0
  {
    forall i, k | 0 <= i < |items| && 0 <= k < |catalog| && catalog[k].amount == 0
      ensures Contribution(items[i], catalog[k]) == 0.0
    {
      assert Min(items[i].amount, catalog[k].amount) == 0;
    }
  }

  /** With unique identifiers and non-negative cart quantities,
      deleteOutOfStockSouvenirs changes no cart total: an out-of-stock
      souvenir adds `price * min(quantity, 0)`, which is then 0. */
  lemma {:induction false} PurgeKeepsCartTotal(items: seq<CartItem>, catalog: seq<Souvenir>)
    requires UniqueIds(catalog)
    requires forall i | 0 <= i < |items| :: items[i].amount >= 0
    ensures CartTotal(items, InStock(catalog)) == CartTotal(items, catalog)
  {
    OutOfStockAddsNothing(items, catalog);
    NestedTotalFilter(items, catalog, (s: Souvenir) => s.amount != 0);
    FilterKeepsUniqueIds(catalog, (s: Souvenir) => s.amount != 0);
    NestedTotalIsCartTotal(items, catalog);
    NestedTotalIsCartTotal(items, InStock(catalog));
  }
}
