/**
  The three ways a successful operation rewrites the cart sequence:
  `cart.filter(p => p.id !== id)` (remove), the `cart.map` that sets one
  product's amount (update), and `[...cart, product]` (add).
 */
module CartEdits {
  import opened CartModel

  /** The cart without any line carrying `id`, other lines in their old order. */
  function RemoveAll(c: Cart, id: int): (r: Cart)
    ensures !Has(r, id)
    ensures forall p :: p in r <==> p in c && p.id != id
    ensures |r| <= |c|
  {
    if c == [] then []
    else if c[0].id == id then RemoveAll(c[1..], id)
    else [c[0]] + RemoveAll(c[1..], id)
  }

  /** Removing an id the cart does not hold gives back the same cart. */
  lemma {:induction false} RemoveAllAbsent(c: Cart, id: int)
    requires !Has(c, id)
    ensures RemoveAll(c, id) == c
  {
    if c != [] {
      assert c[0].id != id;
      assert !Has(c[1..], id) by {
        assert forall i :: 0 <= i < |c[1..]| ==> c[1..][i] == c[i + 1];
      }
      RemoveAllAbsent(c[1..], id);
    }
  }

  /** Filtering works piece by piece, so it never reorders lines. */
  lemma {:induction false} RemoveAllConcat(a: Cart, b: Cart, id: int)
    ensures RemoveAll(a + b, id) == RemoveAll(a, id) + RemoveAll(b, id)
  {
    if a != [] {
      assert (a + b)[0] == a[0];
      assert (a + b)[1..] == a[1..] + b;
      RemoveAllConcat(a[1..], b, id);
    } else {
      assert a + b == b;
    }
  }

  /** In a cart with unique ids, no line before or after line `i` shares its id. */
  lemma UniqueSplit(c: Cart, i: int)
    requires UniqueIds(c)
    requires 0 <= i < |c|
    ensures !Has(c[..i], c[i].id)
    ensures !Has(c[i + 1..], c[i].id)
  {
    var pre, post := c[..i], c[i + 1..];
    forall j | 0 <= j < |pre|
      ensures pre[j].id != c[i].id
    {
      assert pre[j] == c[j];
    }
    forall j | 0 <= j < |post|
      ensures post[j].id != c[i].id
    {
      assert post[j] == c[i + 1 + j];
    }
  }

  /** In a cart with unique ids, removing the id of line `i` drops exactly that line. */
  lemma RemoveAllAtIndex(c: Cart, i: int)
    requires UniqueIds(c)
    requires 0 <= i < |c|
    ensures RemoveAll(c, c[i].id) == c[..i] + c[i + 1..]
  {
    var id, pre, post := c[i].id, c[..i], c[i + 1..];
    UniqueSplit(c, i);
    assert RemoveAll([c[i]], id) == [] by {
      assert [c[i]][1..] == [];
    }
    calc {
      RemoveAll(c, id);
      { assert c == pre + ([c[i]] + post); }
      RemoveAll(pre + ([c[i]] + post), id);
      { RemoveAllConcat(pre, [c[i]] + post, id); }
      RemoveAll(pre, id) + RemoveAll([c[i]] + post, id);
      { RemoveAllConcat([c[i]], post, id); }
      RemoveAll(pre, id) + (RemoveAll([c[i]], id) + RemoveAll(post, id));
      { RemoveAllAbsent(pre, id); RemoveAllAbsent(post, id); }
      pre + ([] + post);
      { assert [] + post == post; }
      pre + post;
    }
  }

  /** Removing lines keeps a well-formed cart well-formed. */
  lemma {:induction false} RemoveAllWellFormed(c: Cart, id: int)
    requires WellFormed(c)
    ensures WellFormed(RemoveAll(c, id))
  {
    if c != [] {
      assert c == [c[0]] + c[1..];
      UniqueCons(c[0], c[1..]);
      RemoveAllWellFormed(c[1..], id);
      if c[0].id != id {
        UniqueCons(c[0], RemoveAll(c[1..], id));
      }
    }
  }

  /** The cart with every line of `id` set to `amount`; lengths, positions and other lines unchanged. */
  function SetAmount(c: Cart, id: int, amount: int): (r: Cart)
    ensures |r| == |c|
    ensures forall k :: 0 <= k < |c| ==> r[k].id == c[k].id && r[k].details == c[k].details
    ensures forall k :: 0 <= k < |c| ==> r[k].amount == if c[k].id == id then amount else c[k].amount
  {
    if c == [] then []
    else [if c[0].id == id then c[0].(amount := amount) else c[0]] + SetAmount(c[1..], id, amount)
  }

  /** Setting the amount of an id the cart does not hold leaves it as it was. */
  lemma SetAmountAbsent(c: Cart, id: int, amount: int)
    requires !Has(c, id)
    ensures SetAmount(c, id, amount) == c
  {
    var r := SetAmount(c, id, amount);
    assert forall k :: 0 <= k < |c| ==> r[k] == c[k];
  }

  /** In a cart with unique ids, updating the id of line `i` replaces that one line in place. */
  lemma SetAmountAtIndex(c: Cart, i: int, amount: int)
    requires UniqueIds(c)
    requires 0 <= i < |c|
    ensures SetAmount(c, c[i].id, amount) == c[i := c[i].(amount := amount)]
  {
    var r := SetAmount(c, c[i].id, amount);
    assert forall k :: 0 <= k < |c| ==> r[k] == c[i := c[i].(amount := amount)][k];
  }

  /** Setting a positive amount keeps a well-formed cart well-formed. */
  lemma SetAmountWellFormed(c: Cart, id: int, amount: int)
    requires WellFormed(c)
    requires amount > 0
    ensures WellFormed(SetAmount(c, id, amount))
  {
    var r := SetAmount(c, id, amount);
    forall p | p in r
      ensures p.amount > 0
    {
      var k :| 0 <= k < |r| && r[k] == p;
      assert c[k] in c;
    }
  }

  /** Appending a line whose id is new keeps ids unique. */
  lemma AppendUnique(c: Cart, x: Item)
    requires UniqueIds(c)
    requires !Has(c, x.id)
    ensures UniqueIds(c + [x])
  {
    var r := c + [x];
    forall i, j | 0 <= i < j < |r|
      ensures r[i].id != r[j].id
    {
      if j < |c| {
        assert r[i] == c[i] && r[j] == c[j];
      } else {
        assert r[i] == c[i];
      }
    }
  }
}
