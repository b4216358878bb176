/**
  What the inventory endpoints answer, as input values: the catalogue fetch
  `products/{id}`, the stock fetch `stock/{id}`, the shared stock check built
  on it, and the stock writes checkout plans for each line.
 */
module Inventory {
  import opened CartModel

  /** The only status code the provider treats as success. */
  const StatusOk: int := 200

  /** Stock record of one product. */
  datatype Stock = Stock(id: int, amount: int)

  /** Outcome of `api.get("products/{id}")`: a response with a status, or a thrown error. */
  datatype ProductFetch = ProductReply(status: int, listing: Listing) | ProductThrew

  /** Outcome of `api.get("stock/{id}")`: a response with a status, or a thrown error. */
  datatype StockFetch = StockReply(status: int, stock: Stock) | StockThrew

  /** What the stock check decides; `CheckThrew` is the fetch error escaping to the caller. */
  datatype StockVerdict = InStock | OutOfStock | CheckThrew

  /** The shared stock check for `amount` units, given the stock fetch's outcome. */
  function IsStock(reply: StockFetch, amount: int): (v: StockVerdict)
    ensures v == InStock <==> reply.StockReply? && reply.status == StatusOk && amount <= reply.stock.amount
    ensures v == CheckThrew <==> reply.StockThrew?
    ensures v == OutOfStock <==> reply.StockReply? && (reply.status != StatusOk || amount > reply.stock.amount)
  {
    match reply
    case StockThrew => CheckThrew
    case StockReply(status, stock) =>
      if status != StatusOk || amount > stock.amount then OutOfStock else InStock
  }

  /** A passing check keeps passing for any smaller request. */
  lemma IsStockMonotone(reply: StockFetch, small: int, large: int)
    requires small <= large
    requires IsStock(reply, large) == InStock
    ensures IsStock(reply, small) == InStock
  {
  }

  /** A write of a new stock level for one product (`api.put("stock", ...)`). */
  datatype StockPut = StockPut(id: int, amount: int)

  /** The write checkout plans for one line: only a 200 stock reply leads to one. */
  function PutFor(item: Item, reply: StockFetch): Option<StockPut> {
    match reply
    case StockReply(status, stock) =>
      if status == StatusOk then Some(StockPut(item.id, stock.amount - item.amount)) else None
    case StockThrew => None
  }

  /**
    The stock writes checkout issues, in cart order: `replies[k]` is the
    stock fetch made for line `k`.
   */
  function CheckoutPuts(c: Cart, replies: seq<StockFetch>): (puts: seq<StockPut>)
    requires |replies| == |c|
    ensures |puts| <= |c|
    ensures (forall k :: 0 <= k < |c| ==> PutFor(c[k], replies[k]).Some?) ==> |puts| == |c|
  {
    if c == [] then []
    else
      var rest := CheckoutPuts(c[1..], replies[1..]);
      assert forall k :: 1 <= k < |c| ==> c[k] == c[1..][k - 1] && replies[k] == replies[1..][k - 1];
      match PutFor(c[0], replies[0])
      case Some(p) => [p] + rest
      case None => rest
  }

  /** Every line with a 200 stock reply gets its write, lowering stock by the line's amount. */
  lemma {:induction false} CheckoutPutsComplete(c: Cart, replies: seq<StockFetch>, k: int)
    requires |replies| == |c|
    requires 0 <= k < |c|
    requires replies[k].StockReply? && replies[k].status == StatusOk
    ensures StockPut(c[k].id, replies[k].stock.amount - c[k].amount) in CheckoutPuts(c, replies)
  {
    if k > 0 {
      assert c[k] == c[1..][k - 1] && replies[k] == replies[1..][k - 1];
      CheckoutPutsComplete(c[1..], replies[1..], k - 1);
    }
  }

  /** Every write checkout issues comes from some line with a 200 stock reply. */
  lemma {:induction false} CheckoutPutsSound(c: Cart, replies: seq<StockFetch>, p: StockPut)
    requires |replies| == |c|
    requires p in CheckoutPuts(c, replies)
    ensures exists k :: (0 <= k < |c| && replies[k].StockReply? && replies[k].status == StatusOk
                         && p == StockPut(c[k].id, replies[k].stock.amount - c[k].amount))
  {
    assert c != [];
    var rest := CheckoutPuts(c[1..], replies[1..]);
    if PutFor(c[0], replies[0]) == Some(p) {
      assert replies[0].StockReply? && replies[0].status == StatusOk;
    } else {
      assert p in rest;
      CheckoutPutsSound(c[1..], replies[1..], p);
      var k :| 0 <= k < |c| - 1 && replies[1..][k].StockReply? && replies[1..][k].status == StatusOk
        && p == StockPut(c[1..][k].id, replies[1..][k].stock.amount - c[1..][k].amount);
      assert c[1..][k] == c[k + 1] && replies[1..][k] == replies[k + 1];
    }
  }

  /** Planning works line by line: the writes for `a + b` are those for `a` followed by those for `b`. */
  lemma {:induction false} CheckoutPutsConcat(a: Cart, ra: seq<StockFetch>, b: Cart, rb: seq<StockFetch>)
    requires |ra| == |a| && |rb| == |b|
    ensures CheckoutPuts(a + b, ra + rb) == CheckoutPuts(a, ra) + CheckoutPuts(b, rb)
  {
    if a == [] {
      assert a + b == b && ra + rb == rb;
    } else {
      assert (a + b)[0] == a[0] && (ra + rb)[0] == ra[0];
      assert (a + b)[1..] == a[1..] + b && (ra + rb)[1..] == ra[1..] + rb;
      CheckoutPutsConcat(a[1..], ra[1..], b, rb);
    }
  }

  /** A single line gets exactly one write when its reply is 200, and none otherwise. */
  lemma CheckoutPutsOne(x: Item, r: StockFetch)
    ensures r.StockReply? && r.status == StatusOk ==>
      CheckoutPuts([x], [r]) == [StockPut(x.id, r.stock.amount - x.amount)]
    ensures !(r.StockReply? && r.status == StatusOk) ==> CheckoutPuts([x], [r]) == []
  {
    assert [x][1..] == [] && [r][1..] == [];
  }

  /** When every 200 reply still covers its line, no write drives stock below zero. */
  lemma CheckoutPutsNonNegative(c: Cart, replies: seq<StockFetch>)
    requires |replies| == |c|
    requires forall k :: 0 <= k < |c| && replies[k].StockReply? && replies[k].status == StatusOk ==>
      c[k].amount <= replies[k].stock.amount
    ensures forall p :: p in CheckoutPuts(c, replies) ==> p.amount >= 0
  {
    forall p | p in CheckoutPuts(c, replies)
      ensures p.amount >= 0
    {
      CheckoutPutsSound(c, replies, p);
    }
  }
}
