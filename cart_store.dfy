/**
 * The shopping cart of the client store (`useStore.ts`). Each mutator
 * computes a new cart from the old one and persists it under
 * `apni-dukan-cart`; the cart's total and item count are sums over it.
 * The persisted value is abstract: saving a cart and loading it back gives
 * the same cart (`JSON.stringify`/`JSON.parse` are not modelled).
 */
module CartStore {
  import opened Common

  datatype CartItem = CartItem(
    id: string,
    productId: string,
    productName: string,
    price: int,
    quantity: int,
    image: Option<string>,
    shopId: string,
    shopName: string)

  /** The argument of `addToCart`: a cart item without its quantity. */
  datatype NewItem = NewItem(
    id: string,
    productId: string,
    productName: string,
    price: int,
    image: Option<string>,
    shopId: string,
    shopName: string)

  /** `{ ...item, quantity }`. */
  function WithQuantity(item: NewItem, quantity: int): CartItem
  {
    CartItem(item.id, item.productId, item.productName, item.price, quantity, item.image, item.shopId, item.shopName)
  }

  /** What `localStorage` holds under the cart's key. */
  datatype StoredCart = Absent | Corrupt | Saved(cart: seq<CartItem>)

  /** `loadCartFromStorage`: without a window, or with nothing or garbage stored, the cart starts empty. */
  function LoadCart(hasWindow: bool, stored: StoredCart): (r: seq<CartItem>)
    ensures hasWindow && stored.Saved? ==> r == stored.cart
    ensures !hasWindow || !stored.Saved? ==> r == []
  {
    if !hasWindow then []
    else match stored
      case Saved(c) => c
      case _ => []
  }

  predicate HasProduct(cart: seq<CartItem>, productId: string)
  {
    exists i :: 0 <= i < |cart| && cart[i].productId == productId
  }

  /** No two entries of the cart are for the same product. */
  predicate DistinctProducts(cart: seq<CartItem>)
  {
    forall i, j :: 0 <= i < j < |cart| ==> cart[i].productId != cart[j].productId
  }

  /** The `map` of `addToCart`: every entry for the product gains one unit. */
  function Bump(cart: seq<CartItem>, productId: string): (r: seq<CartItem>)
    ensures |r| == |cart|
    ensures forall i :: 0 <= i < |cart| ==>
      r[i] == if cart[i].productId == productId then cart[i].(quantity := cart[i].quantity + 1) else cart[i]
  {
    if cart == [] then []
    else
      var head := if cart[0].productId == productId then cart[0].(quantity := cart[0].quantity + 1) else cart[0];
      [head] + Bump(cart[1..], productId)
  }

  /** `addToCart(item)`: a product already in the cart gains a unit; a new one is appended with quantity 1. */
  function AfterAdd(cart: seq<CartItem>, item: NewItem): seq<CartItem>
  {
    if HasProduct(cart, item.productId) then Bump(cart, item.productId)
    else cart + [WithQuantity(item, 1)]
  }

  /** `removeFromCart(itemId)`. */
  function AfterRemove(cart: seq<CartItem>, itemId: string): seq<CartItem>
  {
    Filter(cart, (i: CartItem) => i.id != itemId)
  }

  /** `updateCartItemQuantity(itemId, quantity)`: at most zero removes; otherwise entries with the id take the quantity. */
  function AfterUpdate(cart: seq<CartItem>, itemId: string, quantity: int): (r: seq<CartItem>)
  {
    if quantity <= 0 then AfterRemove(cart, itemId)
    else seq(|cart|, i requires 0 <= i < |cart| => if cart[i].id == itemId then cart[i].(quantity := quantity) else cart[i])
  }

  /** `getCartTotal`: the sum of price times quantity. */
  function CartTotal(cart: seq<CartItem>): int
  {
    if cart == [] then 0 else cart[0].price * cart[0].quantity + CartTotal(cart[1..])
  }

  /** `getCartItemCount`: the sum of quantities. */
  function CartItemCount(cart: seq<CartItem>): int
  {
    if cart == [] then 0 else cart[0].quantity + CartItemCount(cart[1..])
  }

  /**
   * Adding a product already present merges into its entry: the length, the
   * entry's id and every other entry stay; only the quantity grows by one.
   */
  lemma AddExistingMerges(cart: seq<CartItem>, item: NewItem, k: nat)
    requires DistinctProducts(cart) && k < |cart| && cart[k].productId == item.productId
    ensures var r := AfterAdd(cart, item);
      |r| == |cart| && r[k] == cart[k].(quantity := cart[k].quantity + 1) && r[k].id == cart[k].id &&
      forall j :: 0 <= j < |cart| && j != k ==> r[j] == cart[j]
  {
    assert HasProduct(cart, item.productId);
  }

  /** Adding a new product appends it at the end with quantity 1. */
  lemma AddNewAppends(cart: seq<CartItem>, item: NewItem)
    requires !HasProduct(cart, item.productId)
    ensures AfterAdd(cart, item) == cart + [WithQuantity(item, 1)]
    ensures AfterAdd(cart, item)[|cart|].quantity == 1
  {
  }

  /** Adding keeps the products distinct: the cart never holds two entries for one product. */
  lemma AddKeepsDistinct(cart: seq<CartItem>, item: NewItem)
    requires DistinctProducts(cart)
    ensures DistinctProducts(AfterAdd(cart, item))
    ensures HasProduct(AfterAdd(cart, item), item.productId)
  {
    var r := AfterAdd(cart, item);
    if HasProduct(cart, item.productId) {
      var k :| 0 <= k < |cart| && cart[k].productId == item.productId;
      assert r[k].productId == item.productId;
    } else {
      assert r[|cart|].productId == item.productId;
    }
  }

  lemma {:induction false} TotalAppend(a: seq<CartItem>, b: seq<CartItem>)
    ensures CartTotal(a + b) == CartTotal(a) + CartTotal(b)
    ensures CartItemCount(a + b) == CartItemCount(a) + CartItemCount(b)
  {
    if a == [] {
      assert a + b == b;
    } else {
      assert (a + b)[1..] == a[1..] + b;
      TotalAppend(a[1..], b);
    }
  }

  /** The total of the entries for one product, and their number. */
  function PriceOf(cart: seq<CartItem>, productId: string): int
  {
    if cart == [] then 0 else (if cart[0].productId == productId then cart[0].price else 0) + PriceOf(cart[1..], productId)
  }

  function EntriesOf(cart: seq<CartItem>, productId: string): nat
  {
    if cart == [] then 0 else (if cart[0].productId == productId then 1 else 0) + EntriesOf(cart[1..], productId)
  }

  lemma {:induction false} BumpSums(cart: seq<CartItem>, productId: string)
    ensures CartTotal(Bump(cart, productId)) == CartTotal(cart) + PriceOf(cart, productId)
    ensures CartItemCount(Bump(cart, productId)) == CartItemCount(cart) + EntriesOf(cart, productId)
  {
    if cart != [] {
      BumpSums(cart[1..], productId);
      assert Bump(cart, productId)[1..] == Bump(cart[1..], productId);
    }
  }

  /** In a cart with distinct products, the product's one entry carries its price. */
  lemma {:induction false} DistinctSums(cart: seq<CartItem>, k: nat)
    requires DistinctProducts(cart) && k < |cart|
    ensures PriceOf(cart, cart[k].productId) == cart[k].price
    ensures EntriesOf(cart, cart[k].productId) == 1
  {
    var pid := cart[k].productId;
    if k == 0 {
      MissingSums(cart[1..], pid);
    } else {
      assert cart[0].productId != pid;
      assert DistinctProducts(cart[1..]) by {
        forall i, j | 0 <= i < j < |cart[1..]| ensures cart[1..][i].productId != cart[1..][j].productId {
          assert cart[1..][i] == cart[i + 1] && cart[1..][j] == cart[j + 1];
        }
      }
      assert cart[1..][k - 1] == cart[k];
      DistinctSums(cart[1..], k - 1);
    }
  }

  lemma {:induction false} MissingSums(cart: seq<CartItem>, productId: string)
    requires forall i :: 0 <= i < |cart| ==> cart[i].productId != productId
    ensures PriceOf(cart, productId) == 0 && EntriesOf(cart, productId) == 0
  {
    if cart != [] {
      MissingSums(cart[1..], productId);
    }
  }

  /**
   * One `addToCart` raises the item count by one, and the total by the price
   * of the entry it merges into (the price already in the cart), or by the
   * new item's price.
   */
  lemma {:induction false} AddSums(cart: seq<CartItem>, item: NewItem)
    requires DistinctProducts(cart)
    ensures CartItemCount(AfterAdd(cart, item)) == CartItemCount(cart) + 1
    ensures HasProduct(cart, item.productId) ==>
              (exists k :: 0 <= k < |cart| && cart[k].productId == item.productId &&
                CartTotal(AfterAdd(cart, item)) == CartTotal(cart) + cart[k].price)
    ensures !HasProduct(cart, item.productId) ==> CartTotal(AfterAdd(cart, item)) == CartTotal(cart) + item.price
  {
    if HasProduct(cart, item.productId) {
      var k :| 0 <= k < |cart| && cart[k].productId == item.productId;
      AddSumsAt(cart, item, k);
      assert CartTotal(AfterAdd(cart, item)) == CartTotal(cart) + cart[k].price;
    } else {
      TotalAppend(cart, [WithQuantity(item, 1)]);
    }
  }

  /** One `addToCart` raises the item count by exactly one. */
  lemma {:induction false} AddCountsOne(cart: seq<CartItem>, item: NewItem)
    requires DistinctProducts(cart)
    ensures CartItemCount(AfterAdd(cart, item)) == CartItemCount(cart) + 1
  {
    if HasProduct(cart, item.productId) {
      var k :| 0 <= k < |cart| && cart[k].productId == item.productId;
      AddSumsAt(cart, item, k);
    } else {
      TotalAppend(cart, [WithQuantity(item, 1)]);
    }
  }

  /** The sums after merging into the entry at `k`. */
  lemma {:induction false} AddSumsAt(cart: seq<CartItem>, item: NewItem, k: nat)
    requires DistinctProducts(cart) && k < |cart| && cart[k].productId == item.productId
    ensures CartItemCount(AfterAdd(cart, item)) == CartItemCount(cart) + 1
    ensures CartTotal(AfterAdd(cart, item)) == CartTotal(cart) + cart[k].price
  {
    assert HasProduct(cart, item.productId);
    BumpSums(cart, item.productId);
    DistinctSums(cart, k);
  }

  /** Removal drops exactly the entries with the id and keeps the others in order and number. */
  lemma RemoveExact(a: seq<CartItem>, b: seq<CartItem>, itemId: string, x: CartItem)
    ensures AfterRemove(a + b, itemId) == AfterRemove(a, itemId) + AfterRemove(b, itemId)
    ensures multiset(AfterRemove(a, itemId))[x] == if x.id != itemId then multiset(a)[x] else 0
    ensures forall y :: y in AfterRemove(a, itemId) <==> y in a && y.id != itemId
  {
    FilterAppend(a, b, (i: CartItem) => i.id != itemId);
    FilterCount(a, (i: CartItem) => i.id != itemId, x);
  }

  /** A positive quantity is set on the entries with the id and nowhere else; nothing is removed. */
  lemma UpdateSetsQuantity(cart: seq<CartItem>, itemId: string, quantity: int)
    requires quantity > 0
    ensures var r := AfterUpdate(cart, itemId, quantity);
      |r| == |cart| &&
      forall i :: 0 <= i < |cart| ==>
        (cart[i].id == itemId ==> r[i] == cart[i].(quantity := quantity)) && (cart[i].id != itemId ==> r[i] == cart[i])
  {
  }

  /** A quantity of zero or less is a removal. */
  lemma UpdateNonPositiveRemoves(cart: seq<CartItem>, itemId: string, quantity: int)
    requires quantity <= 0
    ensures AfterUpdate(cart, itemId, quantity) == AfterRemove(cart, itemId)
    ensures forall y :: y in AfterUpdate(cart, itemId, quantity) ==> y.id != itemId
  {
  }

  /** The store's `cart` and the cart persisted in `localStorage`. */
  class Store {
    const hasWindow: bool
    var cart: seq<CartItem>
    var saved: StoredCart

    /** The store as created: the cart is loaded from what was persisted. */
    constructor(hasWindow: bool, stored: StoredCart)
      ensures this.hasWindow == hasWindow && saved == stored
      ensures cart == LoadCart(hasWindow, stored)
    {
      this.hasWindow := hasWindow;
      saved := stored;
      cart := LoadCart(hasWindow, stored);
    }

    /** `saveCartToStorage`; nothing happens without a window. */
    method Save(c: seq<CartItem>)
      modifies this
      ensures saved == if hasWindow then Saved(c) else old(saved)
      ensures cart == old(cart)
    {
      if hasWindow {
        saved := Saved(c);
      }
    }

    /** The persisted cart is the store's cart: what a reload would find. */
    ghost predicate Persisted()
      reads this
    {
      hasWindow ==> saved == Saved(cart)
    }

    method AddToCart(item: NewItem)
      modifies this
      ensures cart == AfterAdd(old(cart), item)
      ensures Persisted() && (hasWindow ==> LoadCart(hasWindow, saved) == cart)
    {
      var newCart: seq<CartItem>;
      var existing := FindFirst(cart, (i: CartItem) => i.productId == item.productId);
      if existing.Some? {
        newCart := Bump(cart, item.productId);
      } else {
        newCart := cart + [WithQuantity(item, 1)];
      }
      cart := newCart;
      Save(newCart);
    }

    method RemoveFromCart(itemId: string)
      modifies this
      ensures cart == AfterRemove(old(cart), itemId)
      ensures Persisted()
    {
      var newCart := Filter(cart, (i: CartItem) => i.id != itemId);
      cart := newCart;
      Save(newCart);
    }

    method UpdateCartItemQuantity(itemId: string, quantity: int)
      modifies this
      ensures cart == AfterUpdate(old(cart), itemId, quantity)
      ensures Persisted()
    {
      if quantity <= 0 {
        RemoveFromCart(itemId);
        return;
      }
      var newCart := seq(|cart|, i requires 0 <= i < |cart| reads this =>
        if cart[i].id == itemId then cart[i].(quantity := quantity) else cart[i]);
      cart := newCart;
      Save(newCart);
    }

    method ClearCart()
      modifies this
      ensures cart == [] && Persisted()
      ensures hasWindow ==> saved == Saved([])
    {
      cart := [];
      Save([]);
    }

    method GetCartTotal() returns (total: int)
      ensures total == CartTotal(cart)
    {
      total := 0;
      var i := 0;
      while i < |cart|
        invariant 0 <= i <= |cart|
        invariant total + CartTotal(cart[i..]) == CartTotal(cart)
      {
        assert cart[i..][1..] == cart[i + 1..];
        total := total + cart[i].price * cart[i].quantity;
        i := i + 1;
      }
    }

    method GetCartItemCount() returns (count: int)
      ensures count == CartItemCount(cart)
    {
      count := 0;
      var i := 0;
      while i < |cart|
        invariant 0 <= i <= |cart|
        invariant count + CartItemCount(cart[i..]) == CartItemCount(cart)
      {
        assert cart[i..][1..] == cart[i + 1..];
        count := count + cart[i].quantity;
        i := i + 1;
      }
    }
  }
}
