# Shopping-cart reconciliation, modelled in Dafny

This project models the cart provider of a storefront UI (`CartProvider` in
`src/hooks/useCart.tsx`). The cart is an ordered sequence of line items. Each line has a
product id, an amount and display details. Four user operations change the cart:

- add a product;
- remove a product;
- change a product's amount;
- check out.

Before it commits an amount, the provider asks the inventory endpoint whether enough
stock is available. Each successful change is written both to the in-memory state and
to browser storage under the key `@RocketShoes:cart`.

In the model, each operation is a pure function. It takes:

- the store, which is the in-memory cart plus the storage map;
- the operation's arguments;
- the answers of the network calls it would make, as plain input values.

It returns a `Step`: the next store and the `Outcome` (success, silent no-op, or the
error notice the user is shown).

Modules:

- `CartModel` (`cart_model.dfy`): line items and carts, `Has` (`cart.some`),
  `FirstIndex` (`cart.find`), and the well-formedness invariant (unique ids, positive
  amounts).
- `CartEdits` (`cart_edits.dfy`): the three sequence rewrites the operations use (filter
  out an id, set one id's amount, append), with their order and uniqueness laws.
- `Inventory` (`inventory.dfy`): the catalogue and stock fetch results, the shared stock
  check, and the stock writes that checkout issues.
- `CartStore` (`cart_store.dfy`): the store, `Load` (initial state), `UpdateCart`, and the
  four operations.
- `CartLaws` (`cart_laws.dfy`): how the operations relate to each other, and the invariant
  kept over any sequence of operations.
- `Scenarios` (`scenarios.dfy`): worked single-operation examples.

The model follows the code as written. Points that are easy to misread:

- A catalogue fetch that answers with a status other than 200 is a silent no-op
  (`NoOp`), not an "add failed" error. Only a thrown fetch gives `ErrorAdd`.
  Which statuses the HTTP client answers with rather than throws depends on its
  configuration; the model takes the reply or the throw as given.
- A stock fetch that throws escapes `isStock`. The calling operation's `catch` turns it
  into `ErrorAdd` (inside add) or `ErrorUpdate` (inside update). It is not reported as
  out of stock.
- Checkout reports success for every non-empty cart. Its per-line stock writes are fired
  without being awaited, so their results never affect the outcome.
- Initial state: a missing blob gives an empty cart. The code does not catch a blob that
  fails to parse (see Left out).
- Updating an id that is not in the cart still passes the stock check and then writes
  the unchanged cart. That counts as `Success`.

In the table below, "all-or-nothing" means two things. On success, the new cart is in
memory and under the cart key, and every other storage key is unchanged. On any other
outcome, the cart and storage are both unchanged.

## Model

| member | source | states |
|---|---|---|
| CartModel.FirstIndex | src/hooks/useCart.tsx:57 | `cart.find`: none exactly when no line has the id; otherwise the index of a line with that id, with no earlier line having it |
| CartModel.FirstIndexOfUnique | src/hooks/useCart.tsx:57 | with unique ids, the line found for an id is that id's only line |
| CartEdits.RemoveAll | src/hooks/useCart.tsx:91 | the filtered cart holds no line of the id, and holds exactly the old lines whose id differs |
| CartEdits.RemoveAllAbsent | src/hooks/useCart.tsx:91 | filtering out an id the cart lacks gives back the same cart |
| CartEdits.RemoveAllConcat | src/hooks/useCart.tsx:91 | filtering distributes over concatenation, so the surviving lines keep their relative order |
| CartEdits.RemoveAllAtIndex | src/hooks/useCart.tsx:91 | with unique ids, removing line i's id yields the cart minus exactly line i |
| CartEdits.RemoveAllWellFormed | src/hooks/useCart.tsx:91 | filtering keeps ids unique and amounts positive |
| CartEdits.SetAmount | src/hooks/useCart.tsx:110-116 | same length; every line keeps its id, details and position; lines of the id get the new amount and all other amounts are unchanged |
| CartEdits.SetAmountAbsent | src/hooks/useCart.tsx:110-116 | setting the amount of an id the cart lacks leaves the cart equal to the old one |
| CartEdits.SetAmountAtIndex | src/hooks/useCart.tsx:110-116 | with unique ids, the update replaces the amount of line i in place and nothing else |
| CartEdits.SetAmountWellFormed | src/hooks/useCart.tsx:103-116 | setting a positive amount keeps ids unique and amounts positive |
| CartEdits.AppendUnique | src/hooks/useCart.tsx:76 | appending a line with a new id keeps ids unique |
| Inventory.IsStockMonotone | src/hooks/useCart.tsx:47-52 | a request that passes the stock check keeps passing for any smaller amount against the same reply |
| Inventory.IsStock | src/hooks/useCart.tsx:41-53 | in stock exactly when the fetch answered 200 and the request is at most the available amount; out of stock exactly when it answered otherwise; the error escapes exactly when the fetch threw |
| Inventory.CheckoutPuts | src/hooks/useCart.tsx:130-141 | never more writes than lines, and one write for every line when every reply is 200 |
| Inventory.CheckoutPutsConcat | src/hooks/useCart.tsx:130-141 | the writes for two carts joined are the writes for the first followed by those for the second, so they follow cart order and each line contributes on its own |
| Inventory.CheckoutPutsOne | src/hooks/useCart.tsx:135-140 | a single line gets exactly one write, available minus its amount, when its reply is 200, and no write otherwise |
| Inventory.CheckoutPutsComplete | src/hooks/useCart.tsx:130-141 | every line whose stock reply is 200 gets a write of available minus the line's amount |
| Inventory.CheckoutPutsSound | src/hooks/useCart.tsx:130-141 | every write comes from some line whose stock reply was 200, with that line's id and available minus amount |
| Inventory.CheckoutPutsNonNegative | src/hooks/useCart.tsx:135-139 | if each 200 reply still covers its line, no write lowers stock below zero |
| CartStore.Load | src/hooks/useCart.tsx:26-34 | the initial store keeps the storage it was given, and its cart is the one a reload from that storage gives |
| CartStore.LoadRestores | src/hooks/useCart.tsx:26-39 | reloading from storage gives back any store whose cart mirrors storage |
| CartStore.UpdateCart | src/hooks/useCart.tsx:36-39 | the new cart is in memory and under the cart key in storage; every other storage key is untouched |
| CartStore.UpdateProductAmount | src/hooks/useCart.tsx:98-122 | all-or-nothing; a non-positive amount gives the update error regardless of stock; update error iff non-positive amount or the stock fetch threw; out of stock iff a reply that is not 200 or too small; success iff a positive amount within a 200 reply's stock; on success lines keep ids, details and order, the id's lines take the amount and other lines are unchanged |
| CartStore.RemoveProduct | src/hooks/useCart.tsx:83-96 | all-or-nothing; remove error iff the id is absent; on success no line of the id remains and every other line does |
| CartStore.AddProduct | src/hooks/useCart.tsx:55-81 | all-or-nothing; for a new id: a thrown catalogue fetch gives the add error and changes nothing; a catalogue reply other than 200 is a silent no-op; after a 200 catalogue reply a thrown stock fetch gives the add error and a stock reply that is not 200 or below one unit gives the out-of-stock notice, both changing nothing; success iff catalogue 200 and a 200 stock reply with at least one unit; success appends the fetched product at amount 1 after the old lines; an id already present never gives the no-op or the add error |
| CartStore.CheckOut | src/hooks/useCart.tsx:124-148 | all-or-nothing; checkout error iff the cart is empty; the resulting cart is always empty, and on success it is persisted |
| CartLaws.RemoveProductDropsOneLine | src/hooks/useCart.tsx:83-96 | with unique ids, removing line i's id succeeds and leaves the other lines in their order |
| CartLaws.RemoveProductAbsent | src/hooks/useCart.tsx:85-94 | removing an absent id gives the remove error with store and storage unchanged |
| CartLaws.UpdateProductAmountInPlace | src/hooks/useCart.tsx:110-118 | with unique ids, a successful update replaces exactly one line's amount in place |
| CartLaws.UpdateProductAmountAbsent | src/hooks/useCart.tsx:107-118 | a successful update of an id not in the cart leaves the cart's contents unchanged |
| CartLaws.AddExistingIsUpdate | src/hooks/useCart.tsx:57-62 | with unique ids, adding a present product is the same step as updating it to its amount plus one, whatever the catalogue answers |
| CartLaws.AddExistingIncrements | src/hooks/useCart.tsx:57-62 | a successful add of a present product raises that line's amount by one, in place |
| CartLaws.AddProductWellFormed | src/hooks/useCart.tsx:55-81 | add keeps ids unique and amounts positive when the catalogue answers for the requested id |
| CartLaws.RemoveProductWellFormed | src/hooks/useCart.tsx:83-96 | remove keeps ids unique and amounts positive |
| CartLaws.UpdateProductAmountWellFormed | src/hooks/useCart.tsx:98-122 | update keeps ids unique and amounts positive, because it never writes a non-positive amount |
| CartLaws.ApplyKeepsInvariant | src/hooks/useCart.tsx:36-148 | from a well-formed cart in step with storage, any single operation whose catalogue reply (if any) carries the requested id keeps the cart well-formed and in step with storage |
| CartLaws.RunKeepsInvariant | src/hooks/useCart.tsx:26-148 | starting from a well-formed stored cart, any sequence of operations whose catalogue replies carry the requested ids leaves a well-formed cart that a reload from storage gives back unchanged |
| Scenarios.AddToEmptyCart | src/hooks/useCart.tsx:64-76 | adding product 1 to an empty cart, with 5 in stock, yields the one line at amount 1, also in storage |
| Scenarios.UpdateBeyondStock | src/hooks/useCart.tsx:107-108 | asking for 10 with 3 in stock leaves the cart as it was, with the out-of-stock notice |
| Scenarios.RemoveOnlyLine | src/hooks/useCart.tsx:91-92 | removing the only line leaves an empty cart |
| Scenarios.RemoveFromEmptyCart | src/hooks/useCart.tsx:85-94 | removing from an empty cart gives the remove error and changes nothing |
| Scenarios.AddWithCatalogueMiss | src/hooks/useCart.tsx:71 | a catalogue answer of 204 leaves the cart unchanged without any notice |

## Left out

- React context, provider and hook plumbing, and `useState` (src/hooks/useCart.tsx:23-34, 150-163). This is UI framework wiring. The store value stands in for the state.
- Toast notifications are represented only as the `Outcome` of a step. The checkout success notice is folded into `Success`.
- The HTTP calls are not performed. Their results are inputs to each operation: `ProductFetch`, `StockFetch`, and one `StockFetch` per line for checkout.
- JSON serialisation is not modelled. Storage maps the key to the cart it encodes, so stringify and parse are taken to round-trip exactly.
- Load: a stored blob that is the empty string, or that does not parse, is not modelled. In the source, the empty string is falsy and gives an empty cart. A blob that fails to parse makes `JSON.parse` throw out of the state initialiser.
- Checkout's stock writes run concurrently and are never awaited. `CheckoutPuts` models only which writes are planned and their values (available minus amount). Their ordering in time, their failures and their effect on the inventory are not modelled.
- Concurrency between operations (the add path does not await its update, and overlapping clicks can lose an update) is not modelled. Operations are applied one after another.
- In-place mutation of shared product objects (src/hooks/useCart.tsx:75, 112) is modelled as value replacement.
- Product display attributes (title, price, image) are an opaque `Details` value carried through unchanged. Amounts and ids are integers; non-integer JavaScript numbers are not modelled.
- AddExistingIsUpdate: stated for carts with unique ids only. On a cart with duplicate ids, the source uses the amount of the first matching line (`CartStore.AddProduct` follows that) but updates every matching line.
- The HTTP client's configuration (`src/services/api`) is not part of this model. Whether a non-2xx status reaches the status checks or is thrown into the `catch` depends on it, so fetch results are taken as given.
- AddProductWellFormed: needs the catalogue to answer with the requested id. ApplyKeepsInvariant and RunKeepsInvariant carry the same assumption, and also start from a well-formed cart. The source appends the fetched object as it is, so a reply carrying another id that is already in the cart would duplicate it.
