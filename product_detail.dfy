/**
 * The product page (`product-detail.tsx`): the quantity selector, which
 * starts at 1 and never drops below it, and "Add to Cart", which calls the
 * cart store's `addToCart` once per selected unit. Through the store's merge
 * by product, the units end up in one entry whose quantity has grown by the
 * selected number. `Date.now()` is a parameter; the toasts and the
 * navigation to the cart are not modelled.
 */
module ProductDetail {
  import opened Common
  import opened Strings
  import opened CartStore
  import MockData

  /** The minus button: `Math.max(1, quantity - 1)`. */
  function Decrement(quantity: int): (r: int)
    ensures r >= 1
    ensures quantity >= 2 ==> r == quantity - 1
    ensures quantity < 2 ==> r == 1
  {
    if quantity - 1 > 1 then quantity - 1 else 1
  }

  /** The plus button: `quantity + 1`, with no upper bound. */
  function Increment(quantity: int): (r: int)
    ensures r > quantity
  {
    quantity + 1
  }

  /** The quantity after a sequence of presses (`true` for plus), from the initial 1. */
  function QuantityAfter(presses: seq<bool>): int
  {
    if presses == [] then 1
    else
      var q := QuantityAfter(presses[..|presses| - 1]);
      if presses[|presses| - 1] then Increment(q) else Decrement(q)
  }

  /** Whatever the presses, the quantity is at least 1, and at most one more than the number of plus presses. */
  lemma {:induction false} QuantityStaysPositive(presses: seq<bool>)
    ensures 1 <= QuantityAfter(presses) <= 1 + |presses|
  {
    if presses != [] {
      QuantityStaysPositive(presses[..|presses| - 1]);
    }
  }

  /** Minus undoes plus. */
  lemma MinusUndoesPlus(quantity: int)
    requires quantity >= 1
    ensures Decrement(Increment(quantity)) == quantity
  {
  }

  /** The argument of the `i`-th `addToCart` call: the id `${product.id}-${now}-${i}`, the product's fields and the shop's. */
  function ItemFor(product: MockData.Product, shop: MockData.Shop, now: nat, i: nat): (item: NewItem)
    ensures item.productId == product.id && item.productName == product.name && item.price == product.price
    ensures item.image == Some(product.image) && item.shopId == shop.id && item.shopName == shop.shopName
    ensures item.id == product.id + "-" + NatToString(now) + "-" + NatToString(i)
  {
    NewItem(product.id + "-" + NatToString(now) + "-" + NatToString(i), product.id, product.name, product.price,
            Some(product.image), shop.id, shop.shopName)
  }

  /** Every entry for the product with its quantity raised by `n`. */
  function BumpBy(cart: seq<CartItem>, productId: string, n: int): seq<CartItem>
  {
    seq(|cart|, j requires 0 <= j < |cart| =>
      if cart[j].productId == productId then cart[j].(quantity := cart[j].quantity + n) else cart[j])
  }

  /**
   * The cart after the first `n` calls of the loop: the product's entries
   * grow by `n` units, or, for a product not yet in the cart, one entry made
   * by the first call, with quantity `n`, is appended.
   */
  function Copied(cart: seq<CartItem>, product: MockData.Product, shop: MockData.Shop, now: nat, n: nat): seq<CartItem>
  {
    if n == 0 then cart
    else if HasProduct(cart, product.id) then BumpBy(cart, product.id, n)
    else cart + [WithQuantity(ItemFor(product, shop, now, 0), n)]
  }

  lemma BumpByZero(cart: seq<CartItem>, productId: string, n: int)
    requires n == 0
    ensures BumpBy(cart, productId, n) == cart
  {
    assert forall j :: 0 <= j < |cart| ==> cart[j].(quantity := cart[j].quantity + n) == cart[j];
  }

  /** One more `addToCart` of a product already in the cart raises its entries by one more unit. */
  lemma BumpByStep(cart: seq<CartItem>, item: NewItem, n: int)
    requires HasProduct(cart, item.productId)
    ensures AfterAdd(BumpBy(cart, item.productId, n), item) == BumpBy(cart, item.productId, n + 1)
  {
    var b := BumpBy(cart, item.productId, n);
    var k :| 0 <= k < |cart| && cart[k].productId == item.productId;
    assert b[k].productId == item.productId;
    var r := Bump(b, item.productId);
    var goal := BumpBy(cart, item.productId, n + 1);
    assert forall j :: 0 <= j < |r| ==> r[j] == goal[j];
  }

  /** Bumping a product whose only entry is the last one raises that entry and keeps the others. */
  lemma BumpAppended(cart: seq<CartItem>, x: CartItem, productId: string)
    requires !HasProduct(cart, productId) && x.productId == productId
    ensures Bump(cart + [x], productId) == cart + [x.(quantity := x.quantity + 1)]
  {
    var r := Bump(cart + [x], productId);
    var goal := cart + [x.(quantity := x.quantity + 1)];
    assert forall i :: 0 <= i < |cart| ==> cart[i].productId != productId;
    assert forall i :: 0 <= i < |r| ==> r[i] == goal[i];
  }

  /** The `i`-th call of the loop takes the cart from `Copied(…, i)` to `Copied(…, i + 1)`. */
  lemma CopiedStep(cart: seq<CartItem>, product: MockData.Product, shop: MockData.Shop, now: nat, i: nat)
    ensures AfterAdd(Copied(cart, product, shop, now, i), ItemFor(product, shop, now, i)) == Copied(cart, product, shop, now, i + 1)
  {
    var item := ItemFor(product, shop, now, i);
    var first := ItemFor(product, shop, now, 0);
    if HasProduct(cart, product.id) {
      if i == 0 {
        BumpByZero(cart, product.id, i);
      }
      BumpByStep(cart, item, i);
    } else if i == 0 {
      AddNewAppends(cart, item);
    } else {
      var x := WithQuantity(first, i);
      assert (cart + [x])[|cart|].productId == product.id;
      assert AfterAdd(cart + [x], item) == Bump(cart + [x], product.id);
      BumpAppended(cart, x, product.id);
      assert x.(quantity := x.quantity + 1) == WithQuantity(first, i + 1);
    }
  }

  /** Raising one entry's quantity by `d` raises the item count by `d`. */
  lemma {:induction false} CountUpdate(cart: seq<CartItem>, k: nat, d: int)
    requires k < |cart|
    ensures CartItemCount(cart[k := cart[k].(quantity := cart[k].quantity + d)]) == CartItemCount(cart) + d
  {
    var u := cart[k := cart[k].(quantity := cart[k].quantity + d)];
    if k == 0 {
      assert u[1..] == cart[1..];
    } else {
      assert u[1..] == cart[1..][k - 1 := cart[1..][k - 1].(quantity := cart[1..][k - 1].quantity + d)];
      CountUpdate(cart[1..], k - 1, d);
    }
  }

  /** In a cart with one entry per product, the product's entries are the one entry `k`. */
  lemma BumpByOne(cart: seq<CartItem>, k: nat, n: int)
    requires DistinctProducts(cart) && k < |cart|
    ensures BumpBy(cart, cart[k].productId, n) == cart[k := cart[k].(quantity := cart[k].quantity + n)]
  {
    var r := BumpBy(cart, cart[k].productId, n);
    var goal := cart[k := cart[k].(quantity := cart[k].quantity + n)];
    assert forall j :: 0 <= j < |r| ==> r[j] == goal[j];
  }

  /** With one entry per product, the page's loop keeps one entry per product. */
  lemma CopiedDistinct(cart: seq<CartItem>, product: MockData.Product, shop: MockData.Shop, now: nat, n: nat)
    requires DistinctProducts(cart)
    ensures DistinctProducts(Copied(cart, product, shop, now, n))
  {
    var r := Copied(cart, product, shop, now, n);
    if n != 0 {
      if HasProduct(cart, product.id) {
        assert forall j :: 0 <= j < |r| ==> r[j].productId == cart[j].productId;
      } else {
        assert forall j :: 0 <= j < |cart| ==> r[j] == cart[j] && cart[j].productId != product.id;
      }
    }
  }

  /**
   * With one entry per product, the units go to the entry the product already
   * had, its id and price unchanged, and nothing else changes.
   */
  lemma CopiedExisting(cart: seq<CartItem>, product: MockData.Product, shop: MockData.Shop, now: nat, n: nat, k: nat)
    requires DistinctProducts(cart) && k < |cart| && cart[k].productId == product.id
    ensures Copied(cart, product, shop, now, n) == cart[k := cart[k].(quantity := cart[k].quantity + n)]
  {
    assert HasProduct(cart, product.id);
    BumpByOne(cart, k, n);
    if n == 0 {
      BumpByZero(cart, product.id, n);
    }
  }

  /** The loop adds exactly the selected number of units to the cart's item count. */
  lemma CopiedCount(cart: seq<CartItem>, product: MockData.Product, shop: MockData.Shop, now: nat, n: nat)
    requires DistinctProducts(cart)
    ensures CartItemCount(Copied(cart, product, shop, now, n)) == CartItemCount(cart) + n
  {
    if n != 0 {
      if HasProduct(cart, product.id) {
        var k :| 0 <= k < |cart| && cart[k].productId == product.id;
        CopiedExisting(cart, product, shop, now, n, k);
        CountUpdate(cart, k, n);
      } else {
        var x := WithQuantity(ItemFor(product, shop, now, 0), n);
        TotalAppend(cart, [x]);
        assert CartItemCount([x]) == n;
      }
    }
  }

  /** The page's state, over the cart store. */
  class Page {
    const store: Store
    const product: Option<MockData.Product>
    const shop: Option<MockData.Shop>
    var quantity: int
    var isAddingToCart: bool

    /** The page once the product and its shop have loaded, or failed to (`None`). */
    constructor(store: Store, product: Option<MockData.Product>, shop: Option<MockData.Shop>)
      ensures this.store == store && this.product == product && this.shop == shop
      ensures quantity == 1 && !isAddingToCart
    {
      this.store := store;
      this.product := product;
      this.shop := shop;
      quantity := 1;
      isAddingToCart := false;
    }

    method Minus()
      modifies this
      ensures quantity == Decrement(old(quantity)) && isAddingToCart == old(isAddingToCart)
    {
      quantity := if quantity - 1 > 1 then quantity - 1 else 1;
    }

    method Plus()
      modifies this
      ensures quantity == Increment(old(quantity)) && isAddingToCart == old(isAddingToCart)
    {
      quantity := quantity + 1;
    }

    /**
     * `handleAddToCart`: nothing without the product or its shop; otherwise
     * one `addToCart` per unit of the selected quantity. The flag is back to
     * false once the simulated request has settled.
     */
    method HandleAddToCart(now: nat)
      modifies this, store
      ensures quantity == old(quantity)
      ensures product.None? || shop.None? ==>
                store.cart == old(store.cart) && store.saved == old(store.saved) && isAddingToCart == old(isAddingToCart)
      ensures product.Some? && shop.Some? ==> !isAddingToCart
      ensures product.Some? && shop.Some? ==>
                store.cart == Copied(old(store.cart), product.value, shop.value, now, if quantity > 0 then quantity else 0)
      ensures product.Some? && shop.Some? && quantity > 0 ==> store.Persisted()
    {
      if product.None? || shop.None? {
        return;
      }
      isAddingToCart := true;
      var p, sh := product.value, shop.value;
      ghost var before := store.cart;
      var i := 0;
      while i < quantity
        invariant 0 <= i <= (if quantity > 0 then quantity else 0)
        invariant store.cart == Copied(before, p, sh, now, i)
        invariant i > 0 ==> store.Persisted()
        modifies store
      {
        store.AddToCart(ItemFor(p, sh, now, i));
        CopiedStep(before, p, sh, now, i);
        i := i + 1;
      }
      isAddingToCart := false;
    }
  }
}
