# Souvenir catalog queries, modelled in Dafny

This project models `Queries`, the data-access class of a souvenir shop
(`queries.js`). It works over two document collections: a catalog of
souvenirs and one cart per user login. The class offers four kinds of
operation:

- read-only catalog queries: all souvenirs, the cheap ones, the top-rated
  ones, the ones with a tag, a count by country, rating and price, a
  case-insensitive name search, and the souvenirs discussed since a date;
- `addReview`, which appends a review to a souvenir and recomputes its
  rating with a running-mean fold over the whole review list;
- `getCartSum`, which joins a cart's lines with the catalog and sums price
  times quantity, the quantity clipped to the current stock;
- `deleteOutOfStockSouvenirs`, which deletes every souvenir whose stock is 0.

Each collection is a sequence of documents. The model fixes one order for
it and returns the matches of an unsorted query in that order; the store
itself promises only which documents come back (see "## Left out").
The read-only queries are functions over that sequence (module `Catalog`).
The three operations that write the catalog or loop over it are methods of
class `Store.Queries`, which holds the two sequences as fields. Identifiers
are compared only for equality. Timestamps are integers. Prices and ratings
are exact `real`s. Stock and quantities are `int`s.

Modules, one per concern:

- `Types`: the documents (`Souvenir`, `Review`, `Cart`, `CartItem`), the
  `Result` type of the lookups that can fail, and lookup by identifier and
  by login.
- `Seqs`: generic selection (`Filter`) and counting (`Count`) with their
  laws. Selection keeps exactly the matching elements and keeps their order.
- `Text`: ASCII case folding and substring containment.
- `Ranking`: ordering by rating, highest first.
- `Catalog`: the read-only queries, and `InStock`, the catalog left after the
  deletion.
- `Rating`: the rating fold, and the proof that it computes the arithmetic
  mean.
- `Pricing`: the cart join and its reference definition, a sum of line values.
- `Store`: class `Queries`.

The model follows the code in these places, where a reader might expect
other behaviour:

- Deleting out-of-stock souvenirs does not cascade into carts.
  `Pricing.PurgeKeepsCartTotal` shows that, when identifiers are unique
  and every cart quantity is non-negative, cart totals do not change
  anyway: an out-of-stock souvenir adds `price * min(quantity, 0) = 0`.
  A negative quantity breaks this: it makes an out-of-stock line add
  `price * quantity`, which the deletion removes.
- The cart sum clips each quantity to the current stock (`Math.min`).
- A top-n limit of 0 means "no limit": the whole catalog comes back,
  sorted. It does not mean "nothing".
- Searching by tag `""` returns the souvenirs that carry the tag `""`. It
  does not return an empty result.
- A review's rating is stored without any range check.
- A missing souvenir in `addReview`, or a missing cart in `getCartSum`,
  makes the code read a field of `null` and throw. This is modelled as
  `Err(NotFound)`.
- The rating fold starts from 0 and runs over the whole updated review
  list. It never reads the stored rating, so in exact arithmetic it is
  the full mean (`Rating.RunningMeanIsMean`).

## Model

| member | source | states |
|---|---|---|
| Types.FindById | queries.js:128-131 | the lookup by `_id` gives the first souvenir with that identifier, and gives nothing exactly when no souvenir has it |
| Types.FindCart | queries.js:163-166 | the lookup by login gives the first cart of that login, and gives nothing exactly when the login has no cart |
| Store.Queries.constructor | queries.js:39-40 | the object starts over the given catalog and carts, whose identifiers and logins are unique |
| Catalog.AllSouvenirs | queries.js:45-49 | getAllSouvenirs returns the whole catalog |
| Catalog.CheapSouvenirs | queries.js:51-56 | every result costs at most `price`, and every souvenir costing at most `price` appears exactly as often as in the catalog; no other souvenir appears |
| Seqs.FilterConcat | queries.js:54-55 | selecting from `a + b` gives the selection from `a` followed by the selection from `b`; this fixes the model's result order, catalog order, which the store does not promise |
| Seqs.FilterIdempotent | queries.js:118 | selecting twice with the same condition gives the first selection |
| Catalog.CheapAboveEveryPriceIsAll | queries.js:51-56 | with a bound at least every price, the cheap souvenirs are the whole catalog |
| Ranking.SortByRating | queries.js:61-63 | the rating order is a permutation of the catalog whose ratings never increase |
| Catalog.TopRatingSouvenirs | queries.js:58-65 | the result has `min(n, size)` souvenirs, or all of them when `n` is 0; it is a sub-multiset of the catalog (the whole catalog when all are taken); it is sorted by non-increasing rating; no souvenir left out is rated above any souvenir returned |
| Catalog.Project | queries.js:74 | the projection keeps the name, the image and the price |
| Catalog.SouvenirsByTag | queries.js:67-76 | there are as many results as souvenirs with `tag` among their tags, and each result is the projection of such a souvenir |
| Catalog.SouvenirsByTagConcat | queries.js:71-75 | the tag query on `a + b` is the tag query on `a` followed by the one on `b` |
| Catalog.SouvenirsByTagSingleton | queries.js:71-75 | one souvenir gives its projection when one of its tags equals `tag`, and nothing otherwise |
| Catalog.SouvenirsCount | queries.js:78-91 | the count is the number of souvenirs of `country` rated at least `rating` and priced at most `price` |
| Catalog.SouvenirsCountAgreesWithCheap | queries.js:85-90 | the count equals the number of cheap souvenirs (same price bound) of `country` rated at least `rating` |
| Catalog.SearchSouvenirs | queries.js:93-101 | every result's name contains the search string when case is ignored, and every such souvenir appears exactly as often as in the catalog; no other souvenir appears |
| Catalog.SearchEmptyIsAll | queries.js:97-100 | searching for `""` returns the whole catalog |
| Catalog.SearchIgnoresCase | queries.js:99 | two search strings that agree when case is ignored return the same souvenirs |
| Catalog.SearchUpperCase | queries.js:99 | a search string and its capitalised form return the same souvenirs |
| Catalog.DiscussedSouvenirs | queries.js:103-110 | exactly the souvenirs that have a first review dated no earlier than `date` are returned, with their catalog multiplicity; a souvenir without reviews never is |
| Catalog.InStock | queries.js:112-118 | what deletion leaves: exactly the souvenirs whose stock is not 0, with their catalog multiplicity |
| Catalog.PurgeCount | queries.js:115-118 | the number removed is the number of souvenirs whose stock is 0 |
| Catalog.PurgeIdempotent | queries.js:118 | deleting from the remaining catalog leaves it unchanged |
| Catalog.FilterKeepsUniqueIds | queries.js:118 | deleting souvenirs keeps the remaining identifiers unique |
| Store.Queries.DeleteOutOfStockSouvenirs | queries.js:112-119 | the new catalog is the old one restricted to stock other than 0, in the same order; the count returned is old size minus new size and equals the number of souvenirs whose stock was 0; carts do not change |
| Store.Queries.DeleteTwice | queries.js:118 | a second deletion straight after the first removes 0 souvenirs |
| Rating.NewReview | queries.js:135-141 | the new review carries the given login, rating and text, is dated `now` and is not approved |
| Rating.ReduceFromIsMean | queries.js:143-145 | if the accumulator is the mean of the first `i` ratings, finishing the fold gives the mean of all ratings |
| Rating.RunningMeanIsMean | queries.js:143-145 | the fold `(cur * i + r) / (i + 1)` from 0 equals the sum of the ratings divided by their number, and 0 when there are none |
| Rating.MeanAppend | queries.js:143-145 | the mean after one more review equals the incremental update of the old mean |
| Rating.MeanBounds | queries.js:143-145 | ratings within `[lo, hi]` have their mean within `[lo, hi]` |
| Rating.WithReview | queries.js:133-152 | the written-back souvenir has the new review appended after the unchanged old ones; its rating is the mean of all its reviews; every other field is unchanged |
| Store.Queries.AddReview | queries.js:121-156 | for an unknown identifier the result is NotFound and nothing changes; otherwise exactly that souvenir gets the review appended and the mean as its rating, every other souvenir and every cart stays the same, and identifiers stay unique |
| Pricing.Min | queries.js:179 | the clipped quantity is the smaller of the two quantities |
| Pricing.ItemIds | queries.js:168 | the identifiers fetched are exactly the souvenir identifiers of the cart's lines |
| Pricing.FetchedSouvenirs | queries.js:168-170 | exactly the catalog souvenirs named by some cart line are fetched, with their catalog multiplicity |
| Pricing.FetchedTotal | queries.js:168-170 | summing over the fetched souvenirs gives the same total as summing over the whole catalog |
| Pricing.SumOverMatches | queries.js:172-184 | the nested loops add, for every line and every fetched souvenir with the line's identifier, price times the clipped quantity |
| Pricing.MatchTotalNoMatch | queries.js:178 | a line naming no fetched souvenir adds 0 |
| Pricing.LineValue | queries.js:176-182 | a line is worth 0 when no souvenir has its identifier; with unique identifiers it is worth that souvenir's price times `min(quantity, stock)` |
| Pricing.MatchTotalIsLineValue | queries.js:176-182 | with unique identifiers the inner loop over the catalog gives the line value |
| Pricing.NestedTotalIsCartTotal | queries.js:174-184 | with unique identifiers the nested loops give the sum of the line values |
| Pricing.LineValueNonNegative | queries.js:179-181 | with non-negative prices, stock and quantity, a line is worth at least 0 |
| Pricing.CartTotalNonNegative | queries.js:172-186 | with non-negative prices, stock and quantities, the cart total is at least 0 |
| Pricing.PurgeKeepsCartTotal | queries.js:179 | with unique identifiers and non-negative quantities, deleting the out-of-stock souvenirs does not change any cart total |
| Store.Queries.GetCartSum | queries.js:158-187 | for a login without a cart the result is NotFound; otherwise it is the sum, over the cart's lines, of price times `min(quantity, stock)` for the souvenir with the line's identifier, where a line naming no souvenir adds 0 |

## Left out

- Schema, model and index declarations (queries.js:5-41) are store
  configuration. Only the two collections and the uniqueness of `_id` and
  of the cart `login` are kept, as `Store.Queries.Valid`.
- `index.js` is not part of this model. It connects to the database,
  makes one call and logs the result.
- Floating point: prices and ratings are exact reals. The mean lemma holds
  only in exact arithmetic.
- The search pattern `.*${substring}.*` is built without escaping. The
  model does plain substring matching, so regular-expression
  metacharacters have no special meaning. Case folding covers ASCII letters
  only.
- Result order of the unsorted finds (`getAllSouvenirs`,
  `getCheapSouvenirs`, `getSouvenirsByTag`, `searchSouvenirs`,
  `getDisscusedSouvenirs`): the store promises no order, and a query served
  by the `price` index (queries.js:19) typically comes back by ascending
  price. The model returns the matches in catalog order; only the multiset
  of the results is the program's promise.
- A negative top-n limit is not modelled (`n` is a `nat`). Ties in the
  rating sort keep catalog order here; the store does not promise any tie
  order.
- An empty cart: `$or` over an empty id list is an error in the store.
  The model fetches nothing and returns 0.
- Identifiers compared through `String(...)` are modelled as plain equality
  on the identifier.
- `new Date()` becomes a `now` parameter of `AddReview`.
- The read in `addReview` and the later update are not atomic in the
  source. Each call is modelled as one atomic step.
- Store failures (timeouts, an unreachable server) are not modelled.
- Results: `deleteMany`'s `{ ok, n }` is modelled as `n`. `updateOne`'s
  write acknowledgement is modelled as `Ok(())`.
- Documents missing fields (no `reviews`, a review with no `date`, a cart
  line with no `souvenirId`) are not modelled; every field is present.
