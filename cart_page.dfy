/**
 * The cart page (`cart.tsx`): the cart's entries grouped by shop for
 * display, and the minus, plus and trash buttons, which call the cart
 * store's mutators.
 */
module CartPage {
  import opened Common
  import opened CartStore

  /** One card of the page: the shop's name and its entries. */
  datatype Group = Group(shopName: string, items: seq<CartItem>)

  /** The accumulator of `itemsByShop` after the given entries: a group is opened by the first entry of its shop. */
  function GroupsOf(cart: seq<CartItem>): map<string, Group>
  {
    if cart == [] then map[]
    else
      var groups := GroupsOf(cart[..|cart| - 1]);
      var item := cart[|cart| - 1];
      if item.shopId in groups then groups[item.shopId := groups[item.shopId].(items := groups[item.shopId].items + [item])]
      else groups[item.shopId := Group(item.shopName, [item])]
  }

  /** The entries of one shop, in cart order. */
  function OfShop(cart: seq<CartItem>, shopId: string): seq<CartItem>
  {
    Filter(cart, (i: CartItem) => i.shopId == shopId)
  }

  /** The grouping has a card exactly for each shop in the cart. */
  lemma {:induction false} GroupsOfKeys(cart: seq<CartItem>)
    ensures forall s :: s in GroupsOf(cart) <==> exists i :: 0 <= i < |cart| && cart[i].shopId == s
  {
    if cart != [] {
      var init := cart[..|cart| - 1];
      GroupsOfKeys(init);
      assert forall i :: 0 <= i < |init| ==> cart[i] == init[i];
    }
  }

  /** A filter that no element passes is empty. */
  lemma FilterNone(s: seq<CartItem>, f: CartItem -> bool)
    requires forall i :: 0 <= i < |s| ==> !f(s[i])
    ensures Filter(s, f) == []
  {
  }

  /** Each card holds exactly its shop's entries, in cart order. */
  lemma {:induction false} GroupsOfItems(cart: seq<CartItem>)
    ensures forall s :: s in GroupsOf(cart) ==> GroupsOf(cart)[s].items == OfShop(cart, s)
  {
    if cart != [] {
      var init := cart[..|cart| - 1];
      var item := cart[|cart| - 1];
      GroupsOfItems(init);
      GroupsOfKeys(init);
      assert cart == init + [item];
      forall s | s in GroupsOf(cart)
        ensures GroupsOf(cart)[s].items == OfShop(cart, s)
      {
        var f := (i: CartItem) => i.shopId == s;
        FilterAppend(init, [item], f);
        assert Filter([item], f) == if f(item) then [item] else [];
        if s !in GroupsOf(init) {
          FilterNone(init, f);
        }
      }
    }
  }

  /** Each card is titled with the shop name carried by the first entry of its shop. */
  lemma {:induction false} GroupsOfNames(cart: seq<CartItem>)
    ensures forall s :: s in GroupsOf(cart) ==>
              exists i :: 0 <= i < |cart| && cart[i].shopId == s && GroupsOf(cart)[s].shopName == cart[i].shopName &&
                          forall j :: 0 <= j < i ==> cart[j].shopId != s
  {
    if cart != [] {
      var init := cart[..|cart| - 1];
      GroupsOfNames(init);
      GroupsOfKeys(init);
      assert forall i :: 0 <= i < |init| ==> cart[i] == init[i];
    }
  }

  /** Every entry of the cart is shown once, in the card of its own shop. */
  lemma EveryItemInItsGroup(cart: seq<CartItem>, k: nat)
    requires k < |cart|
    ensures cart[k].shopId in GroupsOf(cart) && cart[k] in GroupsOf(cart)[cart[k].shopId].items
    ensures forall s :: s in GroupsOf(cart) && cart[k] in GroupsOf(cart)[s].items ==> s == cart[k].shopId
  {
    GroupsOfKeys(cart);
    GroupsOfItems(cart);
    assert cart[k] in cart;
  }

  /** The `reduce` that builds `itemsByShop`. */
  method GroupByShop(cart: seq<CartItem>) returns (groups: map<string, Group>)
    ensures groups == GroupsOf(cart)
  {
    groups := map[];
    var i := 0;
    while i < |cart|
      invariant 0 <= i <= |cart|
      invariant groups == GroupsOf(cart[..i])
    {
      var item := cart[i];
      assert cart[..i + 1][..i] == cart[..i];
      assert cart[..i + 1][i] == item;
      assert [] + [item] == [item];
      if item.shopId !in groups {
        groups := groups[item.shopId := Group(item.shopName, [])];
      }
      groups := groups[item.shopId := groups[item.shopId].(items := groups[item.shopId].items + [item])];
      i := i + 1;
    }
    assert cart[..|cart|] == cart;
  }

  /** At quantity 1 the minus button asks for 0, and the store removes the entry. */
  lemma MinusAtOneRemoves(cart: seq<CartItem>, k: nat)
    requires k < |cart| && cart[k].quantity == 1
    ensures AfterUpdate(cart, cart[k].id, cart[k].quantity - 1) == AfterRemove(cart, cart[k].id)
    ensures cart[k] !in AfterUpdate(cart, cart[k].id, cart[k].quantity - 1)
  {
  }

  /** Plus then minus on an entry gives back the cart, when every entry with that id has the same quantity. */
  lemma PlusThenMinusRestores(cart: seq<CartItem>, itemId: string, quantity: int)
    requires quantity >= 1
    requires forall i :: 0 <= i < |cart| && cart[i].id == itemId ==> cart[i].quantity == quantity
    ensures AfterUpdate(AfterUpdate(cart, itemId, quantity + 1), itemId, quantity) == cart
  {
    var r := AfterUpdate(AfterUpdate(cart, itemId, quantity + 1), itemId, quantity);
    assert forall i :: 0 <= i < |cart| ==> r[i] == cart[i];
  }

  /** The page, over the cart store. */
  class Page {
    const store: Store

    constructor(store: Store)
      ensures this.store == store
    {
      this.store := store;
    }

    /** The minus button of an entry: `quantity - 1`. */
    method Minus(item: CartItem)
      modifies store
      ensures store.cart == AfterUpdate(old(store.cart), item.id, item.quantity - 1) && store.Persisted()
    {
      store.UpdateCartItemQuantity(item.id, item.quantity - 1);
    }

    /** The plus button of an entry: `quantity + 1`. */
    method Plus(item: CartItem)
      modifies store
      ensures store.cart == AfterUpdate(old(store.cart), item.id, item.quantity + 1) && store.Persisted()
    {
      store.UpdateCartItemQuantity(item.id, item.quantity + 1);
    }

    /** The trash button: the entry is removed by id. */
    method Trash(item: CartItem)
      modifies store
      ensures store.cart == AfterRemove(old(store.cart), item.id) && store.Persisted()
    {
      store.RemoveFromCart(item.id);
    }
  }
}
