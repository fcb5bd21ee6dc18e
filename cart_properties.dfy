/** Properties of the cart transitions of module Cart: what each operation does
    on each of its branches, and the cart invariant all three keep. */
module CartProperties {
  import opened Cart

  // ---------------------------------------------------------------------------
  // The filter of removeProduct

  /** Filtering distributes over concatenation: the kept entries stay in their order. */
  lemma {:induction false} WithoutProductConcat(a: seq<Product>, b: seq<Product>, id: int)
    ensures WithoutProduct(a + b, id) == WithoutProduct(a, id) + WithoutProduct(b, id)
  {
    if a == [] {
      assert a + b == b;
    } else {
      assert (a + b)[1..] == a[1..] + b;
      WithoutProductConcat(a[1..], b, id);
    }
  }

  /** A cart without entries of identifier `id` is left as it is. */
  lemma {:induction false} WithoutAbsentProduct(cart: seq<Product>, id: int)
    requires forall j :: 0 <= j < |cart| ==> cart[j].id != id
    ensures WithoutProduct(cart, id) == cart
  {
    if cart != [] {
      WithoutAbsentProduct(cart[1..], id);
    }
  }

  /** Filtering out a present identifier makes the cart strictly shorter. */
  lemma {:induction false} WithoutProductShrinks(cart: seq<Product>, id: int, k: int)
    requires 0 <= k < |cart| && cart[k].id == id
    ensures |WithoutProduct(cart, id)| < |cart|
  {
    if k > 0 {
      WithoutProductShrinks(cart[1..], id, k - 1);
    }
  }

  /** Filtering keeps identifiers unique. */
  lemma {:induction false} WithoutProductKeepsUnique(cart: seq<Product>, id: int)
    requires UniqueIds(cart)
    ensures UniqueIds(WithoutProduct(cart, id))
  {
    if cart != [] {
      var rest := WithoutProduct(cart[1..], id);
      WithoutProductKeepsUnique(cart[1..], id);
      forall p | p in rest
        ensures p.id != cart[0].id
      {
        var j :| 0 <= j < |cart[1..]| && cart[1..][j] == p;
        assert cart[j + 1] == p;
      }
    }
  }

  /** In a cart with unique identifiers, filtering drops exactly the one entry of `id`. */
  lemma {:induction false} WithoutUniqueEntry(cart: seq<Product>, id: int, k: int)
    requires UniqueIds(cart)
    requires 0 <= k < |cart| && cart[k].id == id
    ensures WithoutProduct(cart, id) == cart[..k] + cart[k + 1..]
  {
    var tail := cart[1..];
    assert UniqueIds(tail) by {
      forall i, j | 0 <= i < j < |tail|
        ensures tail[i].id != tail[j].id
      {
        assert tail[i] == cart[i + 1] && tail[j] == cart[j + 1];
      }
    }
    if k == 0 {
      forall j | 0 <= j < |tail|
        ensures tail[j].id != id
      {
        assert tail[j] == cart[j + 1];
      }
      WithoutAbsentProduct(tail, id);
    } else {
      WithoutUniqueEntry(tail, id, k - 1);
      assert cart[..k] == [cart[0]] + tail[..k - 1];
      assert cart[k + 1..] == tail[k..];
    }
  }

  // ---------------------------------------------------------------------------
  // updateProductAmount

  /** Without a stock record the operation fails with the quantity-change error. */
  lemma UpdateWithoutStockRecord(cart: seq<Product>, stock: seq<Stock>, id: int, amount: int)
    requires forall j :: 0 <= j < |stock| ==> stock[j].id != id
    ensures UpdateStep(cart, stock, id, amount) == Step(AmountError, cart)
  {
  }

  /** A request above the (first) stock record's amount is refused as out of stock. */
  lemma UpdateOverStock(cart: seq<Product>, stock: seq<Stock>, id: int, amount: int, s: int)
    requires 0 <= s < |stock| && stock[s].id == id && forall j :: 0 <= j < s ==> stock[j].id != id
    requires stock[s].amount < amount
    ensures UpdateStep(cart, stock, id, amount) == Step(OutOfStock, cart)
  {
  }

  /** A request within stock succeeds: same length, same identifiers and details,
      untouched non-matching entries, matching entries at `max(amount, 1)`. */
  lemma UpdateWithinStock(cart: seq<Product>, stock: seq<Stock>, id: int, amount: int, s: int)
    requires 0 <= s < |stock| && stock[s].id == id && forall j :: 0 <= j < s ==> stock[j].id != id
    requires amount <= stock[s].amount
    ensures var r := UpdateStep(cart, stock, id, amount);
      && r.outcome == Ok
      && |r.cart| == |cart|
      && (forall i :: 0 <= i < |cart| ==> r.cart[i].(amount := cart[i].amount) == cart[i])
      && (forall i :: 0 <= i < |cart| && cart[i].id != id ==> r.cart[i] == cart[i])
      && (forall i :: 0 <= i < |cart| && cart[i].id == id ==>
            r.cart[i].amount == if amount < 1 then 1 else amount)
  {
  }

  /** An identifier that is not in the cart is "updated" without error and without change. */
  lemma UpdateAbsentFromCart(cart: seq<Product>, stock: seq<Stock>, id: int, amount: int, s: int)
    requires forall j :: 0 <= j < |cart| ==> cart[j].id != id
    requires 0 <= s < |stock| && stock[s].id == id && forall j :: 0 <= j < s ==> stock[j].id != id
    requires amount <= stock[s].amount
    ensures UpdateStep(cart, stock, id, amount) == Step(Ok, cart)
  {
  }

  /** In a cart with unique identifiers, an accepted amount of at least 1 replaces
      the amount of that one entry and nothing else. */
  lemma UpdateUniqueEntry(cart: seq<Product>, stock: seq<Stock>, id: int, amount: int, k: int, s: int)
    requires UniqueIds(cart) && 0 <= k < |cart| && cart[k].id == id
    requires 0 <= s < |stock| && stock[s].id == id && forall j :: 0 <= j < s ==> stock[j].id != id
    requires 1 <= amount <= stock[s].amount
    ensures UpdateStep(cart, stock, id, amount) == Step(Ok, cart[k := cart[k].(amount := amount)])
  {
  }

  /** The clamp is applied after the stock check: when the (first) stock record
      holds less than 1, a request no larger than it is accepted and every matching
      entry is set to 1, above the stock. */
  lemma ClampCanExceedStock(cart: seq<Product>, stock: seq<Stock>, id: int, amount: int, s: int)
    requires 0 <= s < |stock| && stock[s].id == id && forall j :: 0 <= j < s ==> stock[j].id != id
    requires amount <= stock[s].amount < 1
    ensures var r := UpdateStep(cart, stock, id, amount);
      && r.outcome == Ok
      && forall i :: 0 <= i < |cart| && cart[i].id == id ==> r.cart[i].amount == 1 > stock[s].amount
  {
  }

  // ---------------------------------------------------------------------------
  // removeProduct

  /** Removing an identifier that is not in the cart fails and changes nothing. */
  lemma RemoveAbsentRejected(cart: seq<Product>, id: int)
    requires forall j :: 0 <= j < |cart| ==> cart[j].id != id
    ensures RemoveStep(cart, id) == Step(RemoveError, cart)
  {
  }

  /** Removing a present identifier succeeds, drops every entry of it, keeps every
      other entry, and shortens the cart. */
  lemma RemovePresentDrops(cart: seq<Product>, id: int, k: int)
    requires 0 <= k < |cart| && cart[k].id == id
    ensures var r := RemoveStep(cart, id);
      && r.outcome == Ok
      && r.cart == WithoutProduct(cart, id)
      && |r.cart| < |cart|
      && (forall i :: 0 <= i < |r.cart| ==> r.cart[i].id != id)
      && (forall p :: p in cart && p.id != id ==> p in r.cart)
  {
    WithoutProductShrinks(cart, id, k);
    var r := WithoutProduct(cart, id);
    forall i | 0 <= i < |r|
      ensures r[i].id != id
    {
      assert r[i] in r;
    }
  }

  /** In a cart with unique identifiers, removal is the cart minus that one entry. */
  lemma RemoveUniqueEntry(cart: seq<Product>, id: int, k: int)
    requires UniqueIds(cart) && 0 <= k < |cart| && cart[k].id == id
    ensures RemoveStep(cart, id) == Step(Ok, cart[..k] + cart[k + 1..])
  {
    WithoutUniqueEntry(cart, id, k);
  }

  // ---------------------------------------------------------------------------
  // addProduct

  /** An identifier missing from the catalog is refused and the cart is unchanged. */
  lemma AddUnknownRejected(cart: seq<Product>, products: seq<CatalogItem>, stock: seq<Stock>, id: int)
    requires forall j :: 0 <= j < |products| ==> products[j].id != id
    ensures AddStep(cart, products, stock, id) == Step(AddError, cart)
  {
  }

  /** A catalog product not yet in the cart is appended once, at the end, as the
      (first) catalog record with amount 1; the earlier entries are kept in order. */
  lemma AddNewAppends(cart: seq<Product>, products: seq<CatalogItem>, stock: seq<Stock>, id: int, c: int)
    requires 0 <= c < |products| && products[c].id == id && forall j :: 0 <= j < c ==> products[j].id != id
    requires forall j :: 0 <= j < |cart| ==> cart[j].id != id
    ensures var r := AddStep(cart, products, stock, id);
      && r.outcome == Ok
      && |r.cart| == |cart| + 1
      && r.cart[..|cart|] == cart
      && r.cart[|cart|] == Product(id, products[c].title, products[c].price, products[c].image, 1)
  {
  }

  /** Adding a new product does not consult the stock table at all. */
  lemma AddNewIgnoresStock(cart: seq<Product>, products: seq<CatalogItem>, stock: seq<Stock>, stock': seq<Stock>, id: int)
    requires forall j :: 0 <= j < |cart| ==> cart[j].id != id
    ensures AddStep(cart, products, stock, id) == AddStep(cart, products, stock', id)
  {
  }

  /** Adding a product already in the cart is updateProductAmount with its (first)
      entry's amount plus one, and never grows the cart. */
  lemma AddExistingDelegates(cart: seq<Product>, products: seq<CatalogItem>, stock: seq<Stock>, id: int, k: int)
    requires exists j :: 0 <= j < |products| && products[j].id == id
    requires 0 <= k < |cart| && cart[k].id == id && forall j :: 0 <= j < k ==> cart[j].id != id
    ensures AddStep(cart, products, stock, id) == UpdateStep(cart, stock, id, cart[k].amount + 1)
    ensures |AddStep(cart, products, stock, id).cart| == |cart|
  {
  }

  /** Adding a product already in the cart is refused as out of stock when one
      more exceeds its stock record. */
  lemma AddExistingOutOfStock(cart: seq<Product>, products: seq<CatalogItem>, stock: seq<Stock>, id: int, k: int, s: int)
    requires exists j :: 0 <= j < |products| && products[j].id == id
    requires 0 <= k < |cart| && cart[k].id == id && forall j :: 0 <= j < k ==> cart[j].id != id
    requires 0 <= s < |stock| && stock[s].id == id && forall j :: 0 <= j < s ==> stock[j].id != id
    requires stock[s].amount < cart[k].amount + 1
    ensures AddStep(cart, products, stock, id) == Step(OutOfStock, cart)
  {
  }

  /** In a cart with unique identifiers, adding a product already there raises its
      amount by exactly one when the stock allows it, and changes nothing else. */
  lemma AddExistingIncrements(cart: seq<Product>, products: seq<CatalogItem>, stock: seq<Stock>, id: int, k: int, s: int)
    requires exists j :: 0 <= j < |products| && products[j].id == id
    requires UniqueIds(cart) && 0 <= k < |cart| && cart[k].id == id
    requires 0 <= s < |stock| && stock[s].id == id && forall j :: 0 <= j < s ==> stock[j].id != id
    requires 0 <= cart[k].amount && cart[k].amount + 1 <= stock[s].amount
    ensures AddStep(cart, products, stock, id) ==
            Step(Ok, cart[k := cart[k].(amount := cart[k].amount + 1)])
  {
  }

  // ---------------------------------------------------------------------------
  // Failures and the cart invariant

  /** A refused operation leaves the cart exactly as it was. */
  lemma FailureKeepsCart(cart: seq<Product>, products: seq<CatalogItem>, stock: seq<Stock>, id: int, amount: int)
    ensures UpdateStep(cart, stock, id, amount).outcome != Ok ==> UpdateStep(cart, stock, id, amount).cart == cart
    ensures RemoveStep(cart, id).outcome != Ok ==> RemoveStep(cart, id).cart == cart
    ensures AddStep(cart, products, stock, id).outcome != Ok ==> AddStep(cart, products, stock, id).cart == cart
  {
  }

  /** updateProductAmount keeps identifiers unique and amounts at least 1. */
  lemma UpdateKeepsInvariant(cart: seq<Product>, stock: seq<Stock>, id: int, amount: int)
    ensures UniqueIds(cart) ==> UniqueIds(UpdateStep(cart, stock, id, amount).cart)
    ensures WellFormed(cart) ==> WellFormed(UpdateStep(cart, stock, id, amount).cart)
  {
  }

  /** removeProduct keeps identifiers unique and amounts at least 1. */
  lemma RemoveKeepsInvariant(cart: seq<Product>, id: int)
    ensures UniqueIds(cart) ==> UniqueIds(RemoveStep(cart, id).cart)
    ensures WellFormed(cart) ==> WellFormed(RemoveStep(cart, id).cart)
  {
    if UniqueIds(cart) {
      WithoutProductKeepsUnique(cart, id);
    }
    var r := WithoutProduct(cart, id);
    if WellFormed(cart) {
      forall i | 0 <= i < |r|
        ensures r[i].amount >= 1
      {
        assert r[i] in cart;
      }
    }
  }

  /** addProduct keeps identifiers unique and amounts at least 1: it appends only
      an identifier the cart lacks, and appends it with amount 1. */
  lemma AddKeepsInvariant(cart: seq<Product>, products: seq<CatalogItem>, stock: seq<Stock>, id: int)
    ensures UniqueIds(cart) ==> UniqueIds(AddStep(cart, products, stock, id).cart)
    ensures WellFormed(cart) ==> WellFormed(AddStep(cart, products, stock, id).cart)
  {
  }
}
