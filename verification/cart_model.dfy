/**
  The values the cart works on: line items, the cart itself (an ordered
  sequence of line items) and the two lookups the provider performs on it,
  `cart.some(p => p.id === id)` and `cart.find(p => p.id === id)`.
 */
module CartModel {

  datatype Option<+T> = None | Some(value: T)

  /** Display attributes of a product, carried through the cart unchanged. */
  datatype Details = Details(title: string, price: real, image: string)

  /** A product as the catalogue endpoint returns it (before an amount is attached). */
  datatype Listing = Listing(id: int, details: Details)

  /** One line of the cart: a product and the quantity asked for. */
  datatype Item = Item(id: int, amount: int, details: Details)

  type Cart = seq<Item>

  /** Some line of the cart carries this product id (`cart.some`). */
  predicate Has(c: Cart, id: int) {
    exists i :: 0 <= i < |c| && c[i].id == id
  }

  /** At most one line per product id. */
  predicate UniqueIds(c: Cart) {
    forall i, j :: 0 <= i < j < |c| ==> c[i].id != c[j].id
  }

  /** Every line asks for at least one unit. */
  predicate PositiveAmounts(c: Cart) {
    forall p :: p in c ==> p.amount > 0
  }

  /** The shape every cart built by the operations keeps. */
  predicate WellFormed(c: Cart) {
    UniqueIds(c) && PositiveAmounts(c)
  }

  /** Position of the first line with this id (`cart.find`), if any. */
  function FirstIndex(c: Cart, id: int): (r: Option<nat>)
    ensures r.None? <==> !Has(c, id)
    ensures r.Some? ==> r.value < |c| && c[r.value].id == id
    ensures r.Some? ==> forall j :: 0 <= j < r.value ==> c[j].id != id
  {
    if c == [] then None
    else if c[0].id == id then Some(0)
    else
      match FirstIndex(c[1..], id)
      case None =>
        assert forall i :: 1 <= i < |c| ==> c[i] == c[1..][i - 1];
        None
      case Some(k) =>
        assert c[k + 1] == c[1..][k];
        Some(k + 1)
  }

  /** In a cart with unique ids the first line with an id is the only one. */
  lemma FirstIndexOfUnique(c: Cart, i: int)
    requires UniqueIds(c)
    requires 0 <= i < |c|
    ensures FirstIndex(c, c[i].id) == Some(i)
  {
    var r := FirstIndex(c, c[i].id);
    assert Has(c, c[i].id);
  }

  /** Prepending a line keeps ids unique exactly when its id is new. */
  lemma UniqueCons(x: Item, t: Cart)
    ensures UniqueIds([x] + t) <==> !Has(t, x.id) && UniqueIds(t)
  {
    var c := [x] + t;
    assert forall i :: 0 <= i < |t| ==> t[i] == c[i + 1];
    if UniqueIds(c) {
      forall i | 0 <= i < |t|
        ensures x.id != t[i].id
      {
        assert c[0] == x && c[i + 1] == t[i];
      }
    }
    if !Has(t, x.id) && UniqueIds(t) {
      forall i, j | 0 <= i < j < |c|
        ensures c[i].id != c[j].id
      {
        if i > 0 {
          assert c[i].id == t[i - 1].id && c[j].id == t[j - 1].id;
        } else {
          assert c[j] == t[j - 1];
        }
      }
    }
  }
}
