/**
 * The storefront's client-side records (`mockData.ts`): products, shops and
 * orders, the lookup and search helpers over lists of them, and the two
 * sample orders. Prices and totals are whole rupees; a shop's coordinates
 * and distance are reals, compared only by order.
 */
module MockData {
  import opened Common
  import opened Strings

  datatype Product = Product(
    id: string,
    name: string,
    description: string,
    price: int,
    image: string,
    category: string,
    shopId: string,
    inStock: bool,
    stock: Option<int>)

  datatype Shop = Shop(
    id: string,
    shopName: string,
    ownerName: string,
    category: string,
    address: string,
    city: string,
    phone: string,
    timings: string,
    description: string,
    logo: Option<string>,
    rating: Option<int>,
    reviewCount: Option<int>,
    isVerified: Option<bool>,
    latitude: Option<real>,
    longitude: Option<real>,
    distance: Option<real>)

  /** The six order states of the `Order` interface. */
  datatype OrderStatus = Pending | Confirmed | Preparing | Ready | Delivered | Cancelled
  {
    /** The status as the server and the page spell it. */
    function Name(): string
    {
      match this
      case Pending => "pending"
      case Confirmed => "confirmed"
      case Preparing => "preparing"
      case Ready => "ready"
      case Delivered => "delivered"
      case Cancelled => "cancelled"
    }
  }

  datatype PaymentMethod = Cod | Online

  datatype OrderItem = OrderItem(productId: string, productName: string, quantity: int, price: int)

  datatype Order = Order(
    id: string,
    customerName: string,
    customerEmail: string,
    customerPhone: string,
    customerAddress: string,
    customerCity: string,
    customerPincode: string,
    shopId: string,
    shopName: string,
    items: seq<OrderItem>,
    total: int,
    status: OrderStatus,
    paymentMethod: PaymentMethod,
    createdAt: string,
    updatedAt: string)

  /** Distinct statuses have distinct names, so a status is recovered from its name. */
  lemma StatusNamesDistinct(a: OrderStatus, b: OrderStatus)
    ensures a.Name() == b.Name() <==> a == b
  {
  }

  /** `getShopById`: the first shop with the id, or `None` (`undefined`). */
  function ShopById(shops: seq<Shop>, id: string): (r: Option<Shop>)
    ensures r.None? <==> forall i :: 0 <= i < |shops| ==> shops[i].id != id
    ensures r.Some? ==> r.value.id == id && exists i :: (0 <= i < |shops| && shops[i] == r.value &&
                          forall j :: 0 <= j < i ==> shops[j].id != id)
  {
    FindFirst(shops, (s: Shop) => s.id == id)
  }

  /** `getProductById`: the first product with the id, or `None`. */
  function ProductById(products: seq<Product>, id: string): (r: Option<Product>)
    ensures r.None? <==> forall i :: 0 <= i < |products| ==> products[i].id != id
    ensures r.Some? ==> r.value.id == id && exists i :: (0 <= i < |products| && products[i] == r.value &&
                          forall j :: 0 <= j < i ==> products[j].id != id)
  {
    FindFirst(products, (p: Product) => p.id == id)
  }

  /** `getProductsByShopId`: the products of one shop. */
  function ProductsOfShop(products: seq<Product>, shopId: string): (r: seq<Product>)
    ensures forall p :: p in r <==> p in products && p.shopId == shopId
  {
    Filter(products, (p: Product) => p.shopId == shopId)
  }

  /** The products of a shop keep their listed order and multiplicity. */
  lemma ProductsOfShopInOrder(a: seq<Product>, b: seq<Product>, shopId: string, p: Product)
    ensures ProductsOfShop(a + b, shopId) == ProductsOfShop(a, shopId) + ProductsOfShop(b, shopId)
    ensures multiset(ProductsOfShop(a, shopId))[p] == if p.shopId == shopId then multiset(a)[p] else 0
  {
    FilterAppend(a, b, (q: Product) => q.shopId == shopId);
    FilterCount(a, (q: Product) => q.shopId == shopId, p);
  }

  /** The orders of one shop, as `getOrdersByShopId` and the client's `getByShopId` compute them. */
  function OrdersOfShop(orders: seq<Order>, shopId: string): (r: seq<Order>)
    ensures forall o :: o in r <==> o in orders && o.shopId == shopId
  {
    Filter(orders, (o: Order) => o.shopId == shopId)
  }

  /** The orders of a shop keep their listed order and multiplicity. */
  lemma OrdersOfShopInOrder(a: seq<Order>, b: seq<Order>, shopId: string, o: Order)
    ensures OrdersOfShop(a + b, shopId) == OrdersOfShop(a, shopId) + OrdersOfShop(b, shopId)
    ensures multiset(OrdersOfShop(a, shopId))[o] == if o.shopId == shopId then multiset(a)[o] else 0
  {
    FilterAppend(a, b, (q: Order) => q.shopId == shopId);
    FilterCount(a, (q: Order) => q.shopId == shopId, o);
  }

  /** `getOrderById` over a list: the first order with the id, or `None`. */
  function OrderById(orders: seq<Order>, id: string): (r: Option<Order>)
    ensures r.None? <==> forall i :: 0 <= i < |orders| ==> orders[i].id != id
    ensures r.Some? ==> r.value.id == id && exists i :: (0 <= i < |orders| && orders[i] == r.value &&
                          forall j :: 0 <= j < i ==> orders[j].id != id)
  {
    FindFirst(orders, (o: Order) => o.id == id)
  }

  /** The case-insensitive match of `searchShops`: name, category, city or description. */
  predicate ShopMentions(s: Shop, lowerQuery: string)
  {
    Includes(ToLower(s.shopName), lowerQuery) || Includes(ToLower(s.category), lowerQuery) ||
    Includes(ToLower(s.city), lowerQuery) || Includes(ToLower(s.description), lowerQuery)
  }

  /** `searchShops(query)` over a list of shops. */
  function SearchShops(shops: seq<Shop>, query: string): (r: seq<Shop>)
    ensures forall s :: s in r <==> s in shops && ShopMentions(s, ToLower(query))
  {
    Filter(shops, (s: Shop) => ShopMentions(s, ToLower(query)))
  }

  /** The address is not searched: a match found only in the address does not count. */
  lemma SearchShopsIgnoresAddress(s: Shop, address: string, query: string)
    ensures ShopMentions(s.(address := address), ToLower(query)) == ShopMentions(s, ToLower(query))
  {
  }

  /** The empty query matches every shop, so the whole list comes back. */
  lemma SearchShopsEmptyQuery(shops: seq<Shop>)
    ensures SearchShops(shops, "") == shops
  {
    forall i | 0 <= i < |shops| ensures ShopMentions(shops[i], ToLower("")) {
      IncludesEmpty(ToLower(shops[i].shopName));
    }
    FilterAll(shops, (s: Shop) => ShopMentions(s, ToLower("")));
  }

  /** The case-insensitive match of `searchProducts`: name, description or category. */
  predicate ProductMentions(p: Product, lowerQuery: string)
  {
    Includes(ToLower(p.name), lowerQuery) || Includes(ToLower(p.description), lowerQuery) ||
    Includes(ToLower(p.category), lowerQuery)
  }

  /** `searchProducts(query)` over a list of products. */
  function SearchProducts(products: seq<Product>, query: string): (r: seq<Product>)
    ensures forall p :: p in r <==> p in products && ProductMentions(p, ToLower(query))
  {
    Filter(products, (p: Product) => ProductMentions(p, ToLower(query)))
  }

  /** A search is case-insensitive: the query's letter case does not change the result. */
  lemma SearchProductsCaseInsensitive(products: seq<Product>, q1: string, q2: string)
    requires ToLower(q1) == ToLower(q2)
    ensures SearchProducts(products, q1) == SearchProducts(products, q2)
  {
  }

  /** The sum of price times quantity over an order's items. */
  function ItemsTotal(items: seq<OrderItem>): int
  {
    if items == [] then 0 else items[0].price * items[0].quantity + ItemsTotal(items[1..])
  }

  /** Sample order `o1`, with `createdAt`/`updatedAt` left as opaque stamps. */
  const O1: Order := Order(
    "o1", "John Doe", "john@example.com", "+91 98765 43210", "123 Customer Street", "Delhi", "110001",
    "1", "Vijay Grocery Store",
    [OrderItem("p1", "Fresh Tomatoes", 2, 40), OrderItem("p2", "Basmati Rice", 1, 350)],
    430, Pending, Cod, "", "")

  /** Sample order `o2`. */
  const O2: Order := Order(
    "o2", "Jane Smith", "jane@example.com", "+91 98765 43211", "456 Buyer Avenue", "Mumbai", "400001",
    "2", "Raj Electronics",
    [OrderItem("p4", "Wireless Earbuds", 1, 1299)],
    1299, Confirmed, Cod, "", "")

  /** `mockOrders`. */
  const MockOrders: seq<Order> := [O1, O2]

  /** The sample orders' totals agree with their items: 430 = 2 x 40 + 1 x 350, and 1299. */
  lemma SampleTotalsConsistent()
    ensures forall o :: o in MockOrders ==> o.total == ItemsTotal(o.items)
    ensures O1.total == 2 * 40 + 1 * 350
  {
    assert ItemsTotal(O1.items) == 430 by {
      assert O1.items[1..][1..] == [];
    }
    assert ItemsTotal(O2.items) == 1299 by {
      assert O2.items[1..] == [];
    }
  }

  /** `getOrdersByShopId` and `getOrderById` over the sample orders find `o1` for shop `1`. */
  lemma SampleOrderLookups()
    ensures OrdersOfShop(MockOrders, "1") == [O1]
    ensures OrderById(MockOrders, "o2") == Some(O2)
    ensures OrderById(MockOrders, "o3") == None
  {
    var f := (o: Order) => o.shopId == "1";
    assert MockOrders[1..][1..] == [];
    assert Filter(MockOrders[1..], f) == [] by {
      assert !f(O2);
    }
  }
}
