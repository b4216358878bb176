/**
  The cart provider as a state machine. A store is the in-memory cart plus
  the browser storage it is persisted to; each operation takes the store and
  the network's answers as inputs and returns the next store together with
  the notice the user sees.
 */
module CartStore {
  import opened CartModel
  import opened CartEdits
  import opened Inventory

  /** The storage key the cart is persisted under. */
  const StorageKey: string := "@RocketShoes:cart"

  /** Browser storage: serialised blobs by key, each standing for the cart it encodes. */
  type Storage = map<string, Cart>

  datatype Store = Store(cart: Cart, storage: Storage)

  /**
    What an operation reports: `Success` (the cart was written; checkout
    also shows its success notice), `NoOp` (nothing written, nothing shown)
    or one of the error notices.
   */
  datatype Outcome =
    | Success
    | NoOp
    | ErrorOutOfStock
    | ErrorAdd
    | ErrorRemove
    | ErrorUpdate
    | ErrorCheckout

  datatype Step = Step(store: Store, outcome: Outcome)

  /** The persisted copy under the cart key is exactly the in-memory cart. */
  predicate Persisted(s: Store) {
    StorageKey in s.storage && s.storage[StorageKey] == s.cart
  }

  /** The in-memory cart is what storage would give back on a reload. */
  predicate Mirrors(s: Store) {
    if StorageKey in s.storage then s.cart == s.storage[StorageKey] else s.cart == []
  }

  /** The store the provider starts with: the stored cart if there is one, else empty. */
  function Load(storage: Storage): (s: Store)
    ensures s.storage == storage
    ensures Mirrors(s)
  {
    Store(if StorageKey in storage then storage[StorageKey] else [], storage)
  }

  /** Reloading from storage gives back any store that mirrors it. */
  lemma LoadRestores(s: Store)
    requires Mirrors(s)
    ensures Load(s.storage) == s
  {
  }

  /** Make `c` the cart, in memory and in storage; other keys are untouched. */
  function UpdateCart(s: Store, c: Cart): (r: Store)
    ensures r.cart == c
    ensures Persisted(r)
    ensures r.storage.Keys == s.storage.Keys + {StorageKey}
    ensures forall k :: k in s.storage && k != StorageKey ==> r.storage[k] == s.storage[k]
  {
    Store(c, s.storage[StorageKey := c])
  }

  /** A successful step: write `c` and report success. */
  function Commit(s: Store, c: Cart): Step {
    Step(UpdateCart(s, c), Success)
  }

  /**
    Either the step wrote its cart to memory and under the cart key, leaving
    every other storage key as it was, or nothing changed.
   */
  predicate AllOrNothing(s: Store, r: Step) {
    if r.outcome == Success then
      Persisted(r.store) && r.store.storage == s.storage[StorageKey := r.store.cart]
    else
      r.store == s
  }

  /**
    `updateProductAmount({productId, amount})` with `stock` the answer of the
    stock fetch for `productId`.
   */
  function UpdateProductAmount(s: Store, id: int, amount: int, stock: StockFetch): (r: Step)
    ensures AllOrNothing(s, r)
    ensures amount <= 0 ==> r == Step(s, ErrorUpdate)
    ensures r.outcome == ErrorUpdate <==> amount <= 0 || stock.StockThrew?
    ensures r.outcome == ErrorOutOfStock <==>
      amount > 0 && stock.StockReply? && (stock.status != StatusOk || amount > stock.stock.amount)
    ensures r.outcome == Success <==>
      amount > 0 && stock.StockReply? && stock.status == StatusOk && amount <= stock.stock.amount
    ensures r.outcome == Success ==>
      && |r.store.cart| == |s.cart|
      && (forall k :: 0 <= k < |s.cart| ==> r.store.cart[k].id == s.cart[k].id)
      && (forall k :: 0 <= k < |s.cart| ==> r.store.cart[k].details == s.cart[k].details)
      && (forall k :: 0 <= k < |s.cart| && s.cart[k].id != id ==> r.store.cart[k] == s.cart[k])
      && (forall k :: 0 <= k < |s.cart| && s.cart[k].id == id ==> r.store.cart[k].amount == amount)
  {
    if amount <= 0 then Step(s, ErrorUpdate)
    else
      match IsStock(stock, amount)
      case CheckThrew => Step(s, ErrorUpdate)
      case OutOfStock => Step(s, ErrorOutOfStock)
      case InStock => Commit(s, SetAmount(s.cart, id, amount))
  }

  /** `removeProduct(productId)`. */
  function RemoveProduct(s: Store, id: int): (r: Step)
    ensures AllOrNothing(s, r)
    ensures r.outcome == ErrorRemove <==> !Has(s.cart, id)
    ensures r.outcome == Success <==> Has(s.cart, id)
    ensures r.outcome == Success ==>
      && !Has(r.store.cart, id)
      && (forall p :: p in r.store.cart <==> p in s.cart && p.id != id)
  {
    if !Has(s.cart, id) then Step(s, ErrorRemove)
    else Commit(s, RemoveAll(s.cart, id))
  }

  /**
    `addProduct(productId)`: `product` answers the catalogue fetch and
    `stock` the stock fetch the call would make (for a product already in the
    cart, only `stock` is consulted).
   */
  function AddProduct(s: Store, id: int, product: ProductFetch, stock: StockFetch): (r: Step)
    ensures AllOrNothing(s, r)
    ensures !Has(s.cart, id) && product.ProductThrew? ==> r == Step(s, ErrorAdd)
    ensures !Has(s.cart, id) && product.ProductReply? && product.status != StatusOk ==> r == Step(s, NoOp)
    ensures !Has(s.cart, id) ==>
      (r.outcome == Success <==>
        && product.ProductReply? && product.status == StatusOk
        && stock.StockReply? && stock.status == StatusOk && 1 <= stock.stock.amount)
    ensures !Has(s.cart, id) && product.ProductReply? && product.status == StatusOk && stock.StockThrew? ==>
      r == Step(s, ErrorAdd)
    ensures (!Has(s.cart, id) && product.ProductReply? && product.status == StatusOk
             && stock.StockReply? && (stock.status != StatusOk || stock.stock.amount < 1)) ==>
      r == Step(s, ErrorOutOfStock)
    ensures !Has(s.cart, id) && r.outcome == Success ==>
      r.store.cart == s.cart + [Item(product.listing.id, 1, product.listing.details)]
    ensures Has(s.cart, id) ==> r.outcome != NoOp && r.outcome != ErrorAdd
  {
    match FirstIndex(s.cart, id)
    case Some(k) => UpdateProductAmount(s, id, s.cart[k].amount + 1, stock)
    case None =>
      match product
      case ProductThrew => Step(s, ErrorAdd)
      case ProductReply(status, listing) =>
        if status != StatusOk then Step(s, NoOp)
        else
          match IsStock(stock, 1)
          case CheckThrew => Step(s, ErrorAdd)
          case OutOfStock => Step(s, ErrorOutOfStock)
          case InStock => Commit(s, s.cart + [Item(listing.id, 1, listing.details)])
  }

  /**
    `checkOut()`. The stock writes it fires without awaiting them never
    affect the step; which writes they are is `Inventory.CheckoutPuts`.
   */
  function CheckOut(s: Store): (r: Step)
    ensures AllOrNothing(s, r)
    ensures r.outcome == ErrorCheckout <==> s.cart == []
    ensures r.outcome == Success <==> s.cart != []
    ensures r.store.cart == []
  {
    if |s.cart| == 0 then Step(s, ErrorCheckout)
    else Commit(s, [])
  }
}
