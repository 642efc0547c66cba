/** The documents of the souvenir catalog and the cart store, and the error
    outcome of the operations that look a document up. */
module Types {

  /** A store-assigned document identifier; only compared for equality. */
  datatype ObjectId = ObjectId(hex: string)

  /** A point in time, as milliseconds since the epoch. */
  type Timestamp = int

  datatype Review = Review(
    login: string,
    date: Timestamp,
    text: string,
    rating: real,
    isApproved: bool)

  datatype Souvenir = Souvenir(
    id: ObjectId,
    tags: seq<string>,
    reviews: seq<Review>,
    name: string,
    image: string,
    price: real,
    amount: int,
    country: string,
    rating: real,
    isRecent: bool)

  datatype CartItem = CartItem(souvenirId: ObjectId, amount: int)

  datatype Cart = Cart(login: string, items: seq<CartItem>)

  datatype Error = NotFound

  datatype Result<T> = Ok(value: T) | Err(error: Error)

  datatype Option<T> = None | Some(value: T)

  /** No two souvenirs of the catalog share an identifier. */
  ghost predicate UniqueIds(catalog: seq<Souvenir>) {
    forall i, j | 0 <= i < |catalog| && 0 <= j < |catalog| && catalog[i].id == catalog[j].id :: i == j
  }

  /** No two carts belong to the same login. */
  ghost predicate UniqueLogins(carts: seq<Cart>) {
    forall i, j | 0 <= i < |carts| && 0 <= j < |carts| && carts[i].login == carts[j].login :: i == j
  }

  /** The position of the first element of `s` satisfying `p`, as a
      find-one returns the first matching document. */
  function FindFirst<T>(s: seq<T>, p: T -> bool): (r: Option<nat>)
    ensures r.Some? ==> r.value < |s| && p(s[r.value])
    ensures r.Some? ==> forall j | 0 <= j < r.value :: !p(s[j])
    ensures r.None? <==> forall j | 0 <= j < |s| :: !p(s[j])
  {
    if s == [] then None
    else if p(s[0]) then Some(0)
    else match FindFirst(s[1..], p)
      case None => None
      case Some(k) => Some(k + 1)
  }

  /** The position of the souvenir a find-one by `_id` returns. */
  function FindById(catalog: seq<Souvenir>, id: ObjectId): (r: Option<nat>)
    ensures r.Some? ==> r.value < |catalog| && catalog[r.value].id == id
    ensures r.Some? ==> forall j | 0 <= j < r.value :: catalog[j].id != id
    ensures r.None? <==> forall j | 0 <= j < |catalog| :: catalog[j].id != id
  {
    FindFirst(catalog, (s: Souvenir) => s.id == id)
  }

  /** The position of the cart a find-one by login returns. */
  function FindCart(carts: seq<Cart>, login: string): (r: Option<nat>)
    ensures r.Some? ==> r.value < |carts| && carts[r.value].login == login
    ensures r.Some? ==> forall j | 0 <= j < r.value :: carts[j].login != login
    ensures r.None? <==> forall j | 0 <= j < |carts| :: carts[j].login != login
  {
    FindFirst(carts, (c: Cart) => c.login == login)
  }

  /** In a catalog with unique identifiers the lookup finds the one
      souvenir carrying the identifier. */
  lemma FindByIdUnique(catalog: seq<Souvenir>, k: nat)
    requires UniqueIds(catalog)
    requires k < |catalog|
    ensures FindById(catalog, catalog[k].id) == Some(k)
  {
    var r := FindById(catalog, catalog[k].id);
    assert r.Some?;
  }

  /** Dropping the last souvenir keeps the identifiers unique. */
  lemma UniqueIdsPrefix(catalog: seq<Souvenir>)
    requires catalog != [] && UniqueIds(catalog)
    ensures UniqueIds(catalog[..|catalog| - 1])
  {
    var init := catalog[..|catalog| - 1];
    assert forall i | 0 <= i < |init| :: init[i] == catalog[i];
  }

  /** A last souvenir with another identifier does not change the lookup. */
  lemma FindByIdPrefix(catalog: seq<Souvenir>, id: ObjectId)
    requires catalog != [] && catalog[|catalog| - 1].id != id
    ensures FindById(catalog, id) == FindById(catalog[..|catalog| - 1], id)
  {
    var init := catalog[..|catalog| - 1];
    assert forall j | 0 <= j < |init| :: init[j] == catalog[j];
  }
}
