/**
 * The shop page (`shop-detail.tsx`): the category buttons built from the
 * shop's products, the category filter, the add buttons that are disabled
 * while out of stock or being added, and the cart item an add builds.
 * `Date.now()` is a parameter; the loading of the shop and its products and
 * the toasts are not modelled.
 */
module ShopDetail {
  import opened Common
  import opened Strings
  import opened CartStore
  import MockData

  /** `products.map((p) => p.category)`. */
  function CategoriesOf(products: seq<MockData.Product>): (r: seq<string>)
    ensures |r| == |products| && forall i :: 0 <= i < |products| ==> r[i] == products[i].category
  {
    seq(|products|, i requires 0 <= i < |products| => products[i].category)
  }

  /** `categories`: `all`, then each category of the products once, in order of first appearance. */
  function Categories(products: seq<MockData.Product>): (r: seq<string>)
    ensures |r| >= 1 && r[0] == "all"
    ensures NoDuplicates(r[1..])
    ensures forall c :: c in r[1..] <==> exists i :: 0 <= i < |products| && products[i].category == c
  {
    var d := Distinct(CategoriesOf(products));
    assert (["all"] + d)[1..] == d;
    forall c ensures c in d <==> exists i :: 0 <= i < |products| && products[i].category == c {
      if c in d {
        var i :| 0 <= i < |products| && CategoriesOf(products)[i] == c;
      }
    }
    ["all"] + d
  }

  /** The category buttons come in the order in which the products first show each category. */
  lemma CategoriesInOrder(products: seq<MockData.Product>)
    ensures var r := Categories(products)[1..];
      forall i, j :: 0 <= i < j < |r| ==> IndexOf(CategoriesOf(products), r[i]) < IndexOf(CategoriesOf(products), r[j])
  {
    var d := Distinct(CategoriesOf(products));
    assert Categories(products)[1..] == d;
    DistinctOrder(CategoriesOf(products));
  }

  /** `filteredProducts`: every product under `all`, otherwise those of exactly the selected category, in order. */
  function FilteredProducts(products: seq<MockData.Product>, selected: string): (r: seq<MockData.Product>)
    ensures selected == "all" ==> r == products
    ensures selected != "all" ==> forall p :: p in r <==> p in products && p.category == selected
    ensures |r| <= |products|
  {
    if selected == "all" then products else Filter(products, (p: MockData.Product) => p.category == selected)
  }

  /**
   * The filter keeps the products' order (filtering two lists one after the
   * other is filtering each) and keeps each shown product as often as the
   * list has it.
   */
  lemma FilteredProductsInOrder(a: seq<MockData.Product>, b: seq<MockData.Product>, selected: string, p: MockData.Product)
    ensures FilteredProducts(a + b, selected) == FilteredProducts(a, selected) + FilteredProducts(b, selected)
    ensures multiset(FilteredProducts(a, selected))[p] ==
              if selected == "all" || p.category == selected then multiset(a)[p] else 0
  {
    var f := (x: MockData.Product) => x.category == selected;
    if selected != "all" {
      FilterAppend(a, b, f);
      FilterCount(a, f, p);
    }
  }

  /** No button of a product category leads to an empty list: each shows at least the product that brought it. */
  lemma CategoryButtonsNonEmpty(products: seq<MockData.Product>, c: string)
    requires c in Categories(products)[1..]
    ensures FilteredProducts(products, c) != []
  {
    var i :| 0 <= i < |products| && products[i].category == c;
    assert products[i] in products;
  }

  /** Every product is shown under `all` and under the button of its own category, and under no other. */
  lemma ProductUnderItsCategory(products: seq<MockData.Product>, k: nat)
    requires k < |products|
    ensures products[k].category in Categories(products)
    ensures products[k] in FilteredProducts(products, "all")
    ensures products[k] in FilteredProducts(products, products[k].category)
    ensures forall c :: c != "all" && products[k] in FilteredProducts(products, c) ==> c == products[k].category
  {
    var r := Categories(products);
    assert products[k].category in r[1..];
    assert products[k] in products;
  }

  /** The add button of a product: disabled out of stock, or while this product is being added. */
  predicate AddDisabled(product: MockData.Product, addingProductId: Option<string>)
  {
    !product.inStock || addingProductId == Some(product.id)
  }

  /**
   * While a product is being added, its own button is disabled and the
   * others keep their stock rule: with nothing being added, exactly the
   * products in stock can be added.
   */
  lemma AddDisabledRule(product: MockData.Product, other: MockData.Product)
    ensures !AddDisabled(product, None) <==> product.inStock
    ensures AddDisabled(product, Some(product.id))
    ensures other.id != product.id ==> (AddDisabled(other, Some(product.id)) <==> !other.inStock)
  {
  }

  /** The argument of `addToCart`: the id `${product.id}-${now}`, the product's fields and the shop's. */
  function ItemFor(product: MockData.Product, shop: MockData.Shop, now: nat): (item: NewItem)
    ensures item.productId == product.id && item.productName == product.name && item.price == product.price
    ensures item.image == Some(product.image) && item.shopId == shop.id && item.shopName == shop.shopName
    ensures item.id == product.id + "-" + NatToString(now)
  {
    NewItem(product.id + "-" + NatToString(now), product.id, product.name, product.price, Some(product.image),
            shop.id, shop.shopName)
  }

  /** The page's state once its shop has loaded, over the cart store. */
  class Page {
    const store: Store
    const shop: MockData.Shop
    const products: seq<MockData.Product>
    var selectedCategory: string
    var addingProductId: Option<string>

    constructor(store: Store, shop: MockData.Shop, products: seq<MockData.Product>)
      ensures this.store == store && this.shop == shop && this.products == products
      ensures selectedCategory == "all" && addingProductId.None?
    {
      this.store := store;
      this.shop := shop;
      this.products := products;
      selectedCategory := "all";
      addingProductId := None;
    }

    /** A category button. */
    method SelectCategory(c: string) returns (shown: seq<MockData.Product>)
      modifies this
      ensures selectedCategory == c && addingProductId == old(addingProductId)
      ensures shown == FilteredProducts(products, c)
    {
      selectedCategory := c;
      if c == "all" {
        shown := products;
      } else {
        shown := Filter(products, (p: MockData.Product) => p.category == c);
      }
    }

    /** The synchronous part of `handleAddToCart`: the product is marked as being added and goes into the cart. */
    method BeginAdd(product: MockData.Product, now: nat)
      modifies this, store
      ensures addingProductId == Some(product.id) && selectedCategory == old(selectedCategory)
      ensures store.cart == AfterAdd(old(store.cart), ItemFor(product, shop, now)) && store.Persisted()
    {
      addingProductId := Some(product.id);
      store.AddToCart(ItemFor(product, shop, now));
    }

    /** The `finally` of `handleAddToCart`, once the simulated request has settled. */
    method SettleAdd()
      modifies this
      ensures addingProductId.None? && selectedCategory == old(selectedCategory)
    {
      addingProductId := None;
    }
  }
}
