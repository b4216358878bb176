/**
  Properties relating the operations of the cart provider to one another and
  to the shape of the cart: exact effect on a cart with unique ids, the
  delegation of a repeated add to an update, and invariants kept over any
  sequence of operations.
 */
module CartLaws {
  import opened CartModel
  import opened CartEdits
  import opened Inventory
  import opened CartStore

  /** Removing a product from a cart with unique ids drops exactly its line; the rest keep their order. */
  lemma RemoveProductDropsOneLine(s: Store, i: int)
    requires UniqueIds(s.cart)
    requires 0 <= i < |s.cart|
    ensures RemoveProduct(s, s.cart[i].id).outcome == Success
    ensures RemoveProduct(s, s.cart[i].id).store.cart == s.cart[..i] + s.cart[i + 1..]
  {
    RemoveAllAtIndex(s.cart, i);
  }

  /** A failed remove changes neither the cart nor storage. */
  lemma RemoveProductAbsent(s: Store, id: int)
    requires !Has(s.cart, id)
    ensures RemoveProduct(s, id) == Step(s, ErrorRemove)
  {
  }

  /** A successful update on a cart with unique ids replaces one line's amount in place. */
  lemma UpdateProductAmountInPlace(s: Store, i: int, amount: int, stock: StockFetch)
    requires UniqueIds(s.cart)
    requires 0 <= i < |s.cart|
    requires UpdateProductAmount(s, s.cart[i].id, amount, stock).outcome == Success
    ensures UpdateProductAmount(s, s.cart[i].id, amount, stock).store.cart
            == s.cart[i := s.cart[i].(amount := amount)]
  {
    SetAmountAtIndex(s.cart, i, amount);
  }

  /** Updating a product the cart does not hold still writes the cart, with unchanged contents. */
  lemma UpdateProductAmountAbsent(s: Store, id: int, amount: int, stock: StockFetch)
    requires !Has(s.cart, id)
    requires UpdateProductAmount(s, id, amount, stock).outcome == Success
    ensures UpdateProductAmount(s, id, amount, stock).store.cart == s.cart
  {
    SetAmountAbsent(s.cart, id, amount);
  }

  /** Adding a product already in the cart is the update to its amount plus one, whatever the catalogue says. */
  lemma AddExistingIsUpdate(s: Store, i: int, product: ProductFetch, stock: StockFetch)
    requires UniqueIds(s.cart)
    requires 0 <= i < |s.cart|
    ensures AddProduct(s, s.cart[i].id, product, stock)
            == UpdateProductAmount(s, s.cart[i].id, s.cart[i].amount + 1, stock)
  {
    FirstIndexOfUnique(s.cart, i);
  }

  /** A successful add of a product already in the cart raises its amount by one, in place. */
  lemma AddExistingIncrements(s: Store, i: int, product: ProductFetch, stock: StockFetch)
    requires UniqueIds(s.cart)
    requires 0 <= i < |s.cart|
    requires AddProduct(s, s.cart[i].id, product, stock).outcome == Success
    ensures AddProduct(s, s.cart[i].id, product, stock).store.cart
            == s.cart[i := s.cart[i].(amount := s.cart[i].amount + 1)]
  {
    AddExistingIsUpdate(s, i, product, stock);
    UpdateProductAmountInPlace(s, i, s.cart[i].amount + 1, stock);
  }

  /** The catalogue answered for the product that was asked for. */
  predicate AnswersFor(product: ProductFetch, id: int) {
    product.ProductReply? ==> product.listing.id == id
  }

  /** Adding keeps a well-formed cart well-formed when the catalogue answers for the requested id. */
  lemma AddProductWellFormed(s: Store, id: int, product: ProductFetch, stock: StockFetch)
    requires WellFormed(s.cart)
    requires AnswersFor(product, id)
    ensures WellFormed(AddProduct(s, id, product, stock).store.cart)
  {
    var r := AddProduct(s, id, product, stock);
    if Has(s.cart, id) {
      var i :| 0 <= i < |s.cart| && s.cart[i].id == id;
      AddExistingIsUpdate(s, i, product, stock);
      assert s.cart[i] in s.cart;
      if r.outcome == Success {
        SetAmountWellFormed(s.cart, id, s.cart[i].amount + 1);
      }
    } else if r.outcome == Success {
      AppendUnique(s.cart, Item(id, 1, product.listing.details));
    }
  }

  /** Removing keeps a well-formed cart well-formed. */
  lemma RemoveProductWellFormed(s: Store, id: int)
    requires WellFormed(s.cart)
    ensures WellFormed(RemoveProduct(s, id).store.cart)
  {
    RemoveAllWellFormed(s.cart, id);
  }

  /** Updating keeps a well-formed cart well-formed: a non-positive amount is never written. */
  lemma UpdateProductAmountWellFormed(s: Store, id: int, amount: int, stock: StockFetch)
    requires WellFormed(s.cart)
    ensures WellFormed(UpdateProductAmount(s, id, amount, stock).store.cart)
  {
    if amount > 0 {
      SetAmountWellFormed(s.cart, id, amount);
    }
  }

  /** One user action, with the network's answers it would receive. */
  datatype Command =
    | Add(id: int, product: ProductFetch, stock: StockFetch)
    | Remove(id: int)
    | Update(id: int, amount: int, stock: StockFetch)
    | CheckOutCart

  function Apply(s: Store, cmd: Command): Step {
    match cmd
    case Add(id, product, stock) => AddProduct(s, id, product, stock)
    case Remove(id) => RemoveProduct(s, id)
    case Update(id, amount, stock) => UpdateProductAmount(s, id, amount, stock)
    case CheckOutCart => CheckOut(s)
  }

  /** The store after running the actions one after another. */
  function Run(s: Store, cmds: seq<Command>): Store
    decreases |cmds|
  {
    if cmds == [] then s else Run(Apply(s, cmds[0]).store, cmds[1..])
  }

  predicate Honest(cmd: Command) {
    cmd.Add? ==> AnswersFor(cmd.product, cmd.id)
  }

  /** One action keeps the cart well-formed and in step with storage. */
  lemma ApplyKeepsInvariant(s: Store, cmd: Command)
    requires Mirrors(s) && WellFormed(s.cart)
    requires Honest(cmd)
    ensures Mirrors(Apply(s, cmd).store)
    ensures WellFormed(Apply(s, cmd).store.cart)
  {
    match cmd
    case Add(id, product, stock) => AddProductWellFormed(s, id, product, stock);
    case Remove(id) => RemoveProductWellFormed(s, id);
    case Update(id, amount, stock) => UpdateProductAmountWellFormed(s, id, amount, stock);
    case CheckOutCart =>
  }

  /**
    Starting from what storage holds, any sequence of honest actions leaves a
    well-formed cart that a reload from storage would give back unchanged.
   */
  lemma {:induction false} RunKeepsInvariant(s: Store, cmds: seq<Command>)
    requires Mirrors(s) && WellFormed(s.cart)
    requires forall k :: 0 <= k < |cmds| ==> Honest(cmds[k])
    ensures WellFormed(Run(s, cmds).cart)
    ensures Load(Run(s, cmds).storage) == Run(s, cmds)
    decreases |cmds|
  {
    if cmds == [] {
      LoadRestores(s);
    } else {
      ApplyKeepsInvariant(s, cmds[0]);
      RunKeepsInvariant(Apply(s, cmds[0]).store, cmds[1..]);
    }
  }
}
