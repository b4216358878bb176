/** Worked examples of single operations on small carts. */
module Scenarios {
  import opened CartModel
  import opened Inventory
  import opened CartStore

  const Shoe: Details := Details("Shoe", 10.0, "shoe.jpg")

  /** Adding a new product to an empty cart with stock available yields the single line at amount 1. */
  lemma AddToEmptyCart(storage: Storage)
    ensures AddProduct(Store([], storage), 1, ProductReply(200, Listing(1, Shoe)), StockReply(200, Stock(1, 5)))
            == Step(Store([Item(1, 1, Shoe)], storage[StorageKey := [Item(1, 1, Shoe)]]), Success)
  {
    assert [] + [Item(1, 1, Shoe)] == [Item(1, 1, Shoe)];
  }

  /** Asking for more than the stock holds leaves the cart untouched with the out-of-stock notice. */
  lemma UpdateBeyondStock(storage: Storage)
    ensures UpdateProductAmount(Store([Item(1, 2, Shoe)], storage), 1, 10, StockReply(200, Stock(1, 3)))
            == Step(Store([Item(1, 2, Shoe)], storage), ErrorOutOfStock)
  {
  }

  /** Removing the only line empties the cart. */
  lemma RemoveOnlyLine(storage: Storage)
    ensures RemoveProduct(Store([Item(1, 1, Shoe)], storage), 1).store.cart == []
  {
    var c := [Item(1, 1, Shoe)];
    assert c[0].id == 1;
  }

  /** Removing from an empty cart reports the remove error and changes nothing. */
  lemma RemoveFromEmptyCart(storage: Storage)
    ensures RemoveProduct(Store([], storage), 99) == Step(Store([], storage), ErrorRemove)
  {
  }

  /** A catalogue answer with a success status other than 200 is ignored without a notice. */
  lemma AddWithCatalogueMiss(storage: Storage)
    ensures AddProduct(Store([], storage), 7, ProductReply(204, Listing(7, Shoe)), StockReply(200, Stock(7, 5)))
            == Step(Store([], storage), NoOp)
  {
  }
}
