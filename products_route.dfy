/**
 * The product routes of the server (`routes/products.js`) over the
 * in-memory `products` array. Each handler is a function from the array and
 * the request to the reply and the new array; the `Catalog` class holds the
 * array and its methods perform the handlers in place. Prices are whole
 * numbers; ids and `toISOString` stamps are parameters.
 */
module ProductsRoute {
  import opened Common
  import opened Strings
  import opened Backend

  /** `req.body.stock` as it arrives: a JSON number or a string. */
  datatype StockInput = Number(n: int) | Text(s: string)

  /** The stored `stock`: `null`, a count, or the `NaN` that `parseInt` gives for text without digits. */
  datatype StockValue = NoStock | Count(count: int) | NotANumber

  datatype StoredProduct = StoredProduct(
    id: string,
    name: string,
    description: string,
    price: int,
    category: string,
    shopId: string,
    image: string,
    inStock: bool,
    stock: StockValue,
    createdAt: string,
    updatedAt: string)

  /** The body of `POST /api/products`; a missing text field arrives as the empty string. */
  datatype ProductBody = ProductBody(
    name: string,
    description: string,
    price: Option<int>,
    category: string,
    shopId: string,
    image: Option<string>,
    stock: Option<StockInput>)

  /** The body of `PUT /api/products/:id`: each field that `Object.assign` copies, present or absent. */
  datatype ProductPatch = ProductPatch(
    id: Option<string>,
    name: Option<string>,
    description: Option<string>,
    price: Option<int>,
    category: Option<string>,
    shopId: Option<string>,
    image: Option<string>,
    inStock: Option<bool>,
    stock: Option<StockInput>,
    createdAt: Option<string>)

  const DefaultImage: string := "https://images.unsplash.com/photo-1441986300917-64674bd600d8?w=400&auto=format&fit=crop"

  /** JavaScript truthiness of a query parameter or body string. */
  predicate Truthy(s: Option<string>)
  {
    s.Some? && s.value != ""
  }

  /** The shop filter, then the category filter, each applied only when its query parameter is truthy. */
  function ListProducts(products: seq<StoredProduct>, shopId: Option<string>, category: Option<string>): (r: seq<StoredProduct>)
    ensures forall p :: p in r <==>
              p in products && (Truthy(shopId) ==> p.shopId == shopId.value) && (Truthy(category) ==> p.category == category.value)
  {
    var byShop := if Truthy(shopId) then Filter(products, (p: StoredProduct) => p.shopId == shopId.value) else products;
    if Truthy(category) then Filter(byShop, (p: StoredProduct) => p.category == category.value) else byShop
  }

  /** The listing keeps the stored order: listing two stretches of the array lists each in turn. */
  lemma ListProductsInOrder(a: seq<StoredProduct>, b: seq<StoredProduct>, shopId: Option<string>, category: Option<string>)
    ensures ListProducts(a + b, shopId, category) == ListProducts(a, shopId, category) + ListProducts(b, shopId, category)
  {
    var byShopA, byShopB := a, b;
    if Truthy(shopId) {
      var f := (p: StoredProduct) => p.shopId == shopId.value;
      FilterAppend(a, b, f);
      byShopA, byShopB := Filter(a, f), Filter(b, f);
    }
    if Truthy(category) {
      FilterAppend(byShopA, byShopB, (p: StoredProduct) => p.category == category.value);
    }
  }

  /** Without query parameters every stored product is listed, in stored order. */
  lemma ListProductsUnfiltered(products: seq<StoredProduct>)
    ensures ListProducts(products, None, Some("")) == products
    ensures ListProducts(products, None, None) == products
  {
  }

  /** `GET /:id`. */
  function GetProduct(products: seq<StoredProduct>, id: string): (r: Reply<StoredProduct>)
    ensures r.Code() == 404 <==> forall i :: 0 <= i < |products| ==> products[i].id != id
    ensures r.Code() != 404 ==> r.Code() == 200 && r.Served? && r.value.Some? && r.value.value in products && r.value.value.id == id
  {
    match FindFirst(products, (p: StoredProduct) => p.id == id)
    case None => Refused(404, "Product not found")
    case Some(p) => Served(200, None, Some(p))
  }

  /** `isFloat({ min: 0 })` on a whole-number price; a missing price fails. */
  predicate PriceValid(price: Option<int>)
  {
    price.Some? && price.value >= 0
  }

  /** The validator chain of `POST /`. */
  predicate CreateBodyValid(b: ProductBody)
  {
    Trim(b.name) != "" && Trim(b.description) != "" && PriceValid(b.price) && Trim(b.category) != "" && Trim(b.shopId) != ""
  }

  /** `parseInt` of the stock as sent: a number is already whole, a string is parsed. */
  function ParseStock(s: StockInput): (r: Option<int>)
    ensures s.Number? ==> r == Some(s.n)
  {
    match s
    case Number(n) => Some(n)
    case Text(t) => ParseInt(t)
  }

  /** What `stock` becomes after `parseInt`. */
  function StockFrom(s: StockInput): (r: StockValue)
    ensures r.NotANumber? <==> ParseStock(s).None?
    ensures r.Count? ==> ParseStock(s) == Some(r.count)
  {
    match ParseStock(s)
    case None => NotANumber
    case Some(n) => Count(n)
  }

  /** `parseInt(stock) > 0`; `NaN` compares false. */
  predicate PositiveStock(s: StockInput)
  {
    ParseStock(s).Some? && ParseStock(s).value > 0
  }

  /** JavaScript truthiness of the sent stock: `0` and `""` are falsy, and so is an absent one. */
  predicate StockTruthy(s: Option<StockInput>)
  {
    s.Some? && match s.value
      case Number(n) => n != 0
      case Text(t) => t != ""
  }

  /** The product `POST /` stores; the fields the validator trims are stored trimmed. */
  function NewProduct(b: ProductBody, id: string, now: string): (r: StoredProduct)
    requires b.price.Some?
    ensures r.id == id && r.price == b.price.value && r.createdAt == now && r.updatedAt == now
    ensures r.image == (if Truthy(b.image) then b.image.value else DefaultImage)
    ensures !StockTruthy(b.stock) ==> r.inStock && r.stock == NoStock
    ensures StockTruthy(b.stock) ==> r.inStock == PositiveStock(b.stock.value) && r.stock == StockFrom(b.stock.value)
  {
    var truthy := StockTruthy(b.stock);
    StoredProduct(
      id, Trim(b.name), Trim(b.description), b.price.value, Trim(b.category), Trim(b.shopId),
      if Truthy(b.image) then b.image.value else DefaultImage,
      if truthy then PositiveStock(b.stock.value) else true,
      if truthy then StockFrom(b.stock.value) else NoStock,
      now, now)
  }

  /** A stock sent as the text `"0"` is truthy, so the product is stored out of stock with a count of zero. */
  lemma ZeroTextStockIsOutOfStock(b: ProductBody, id: string, now: string)
    requires b.price.Some? && b.stock == Some(Text("0"))
    ensures !NewProduct(b, id, now).inStock && NewProduct(b, id, now).stock == Count(0)
  {
    assert ParseInt("0") == Some(0) by {
      ParseIntNatToString(0, "");
      assert NatToString(0) + "" == "0";
    }
    assert StockTruthy(b.stock) && !PositiveStock(b.stock.value) && StockFrom(b.stock.value) == Count(0);
  }

  /** `parseInt` is called without a radix, so a stock sent as `0x…` text is read in base 16. */
  lemma {:induction false} HexTextStockIsBase16(b: ProductBody, id: string, now: string, x: char, d: string)
    requires b.price.Some? && (x == 'x' || x == 'X')
    requires d != [] && forall i :: 0 <= i < |d| ==> IsRadixDigit(d[i], 16)
    requires b.stock == Some(Text(['0', x] + d))
    ensures NewProduct(b, id, now).stock == Count(DigitsValue(d, 16))
    ensures NewProduct(b, id, now).inStock <==> DigitsValue(d, 16) > 0
  {
    assert "" + ['0', x] + d == ['0', x] + d;
    ParseIntHex("", x, d);
  }

  /** The text `"0x10"` is stored as a stock of 16, and in stock. */
  lemma HexTextStockExample(b: ProductBody, id: string, now: string)
    requires b.price.Some? && b.stock == Some(Text("0x10"))
    ensures NewProduct(b, id, now).stock == Count(16) && NewProduct(b, id, now).inStock
  {
    assert "0x10" == ['0', 'x', '1', '0'];
    ParseIntHexTwoDigits('x', '1', '0');
  }

  /** `POST /`: validation first (400), then the role (403); only a success appends. */
  function CreateProduct(products: seq<StoredProduct>, caller: Caller, b: ProductBody, id: string, now: string)
    : (r: (Reply<StoredProduct>, seq<StoredProduct>))
    ensures !CreateBodyValid(b) ==> r == (Invalid, products)
    ensures CreateBodyValid(b) && caller.role != "shopkeeper" ==>
              r == (Refused(403, "Only shopkeepers can create products"), products)
    ensures CreateBodyValid(b) && caller.role == "shopkeeper" ==>
              r == (Served(201, Some("Product created successfully"), Some(NewProduct(b, id, now))),
                    products + [NewProduct(b, id, now)])
  {
    if !CreateBodyValid(b) then (Invalid, products)
    else if caller.role != "shopkeeper" then (Refused(403, "Only shopkeepers can create products"), products)
    else
      var p := NewProduct(b, id, now);
      (Served(201, Some("Product created successfully"), Some(p)), products + [p])
  }

  /** Validation is checked before the role: an invalid body gets 400 whoever sends it, and only 201 stores. */
  lemma CreateProductOutcome(products: seq<StoredProduct>, caller: Caller, b: ProductBody, id: string, now: string)
    ensures var r := CreateProduct(products, caller, b, id, now);
      (r.0.Code() == 201 <==> CreateBodyValid(b) && caller.role == "shopkeeper") &&
      (r.0.Code() == 400 <==> !CreateBodyValid(b)) &&
      (r.0.Code() != 201 ==> r.1 == products)
  {
  }

  /** A created product is appended after the stored ones, and is the product the reply carries. */
  lemma CreateProductAppends(products: seq<StoredProduct>, caller: Caller, b: ProductBody, id: string, now: string)
    requires CreateBodyValid(b) && caller.role == "shopkeeper"
    ensures var r := CreateProduct(products, caller, b, id, now);
      |r.1| == |products| + 1 && r.1[..|products|] == products && r.0.value == Some(r.1[|products|]) &&
      r.1[|products|].id == id
  {
    var p := NewProduct(b, id, now);
    assert (products + [p])[..|products|] == products;
  }

  /** The validator chain of `PUT /:id`: only the supplied name and price are checked. */
  predicate PatchValid(p: ProductPatch)
  {
    (p.name.Some? ==> Trim(p.name.value) != "") && (p.price.Some? ==> p.price.value >= 0)
  }

  /** `Object.assign(product, req.body, { updatedAt })`, then the stock rule when a stock was sent. */
  function Merged(prev: StoredProduct, p: ProductPatch, now: string): (r: StoredProduct)
    ensures r.id == (if p.id.Some? then p.id.value else prev.id)
    ensures r.name == (if p.name.Some? then Trim(p.name.value) else prev.name)
    ensures r.price == (if p.price.Some? then p.price.value else prev.price)
    ensures r.updatedAt == now && r.createdAt == (if p.createdAt.Some? then p.createdAt.value else prev.createdAt)
    ensures p.stock.Some? ==> r.inStock == PositiveStock(p.stock.value) && r.stock == StockFrom(p.stock.value)
    ensures p.stock.None? ==> r.inStock == (if p.inStock.Some? then p.inStock.value else prev.inStock) && r.stock == prev.stock
  {
    var copied := StoredProduct(
      p.id.GetOr(prev.id),
      if p.name.Some? then Trim(p.name.value) else prev.name,
      p.description.GetOr(prev.description),
      p.price.GetOr(prev.price),
      p.category.GetOr(prev.category),
      p.shopId.GetOr(prev.shopId),
      p.image.GetOr(prev.image),
      p.inStock.GetOr(prev.inStock),
      prev.stock,
      p.createdAt.GetOr(prev.createdAt),
      now);
    if p.stock.None? then copied
    else copied.(inStock := PositiveStock(p.stock.value), stock := StockFrom(p.stock.value))
  }

  /** An empty patch only stamps the product. */
  lemma EmptyPatchStamps(prev: StoredProduct, now: string)
    ensures Merged(prev, ProductPatch(None, None, None, None, None, None, None, None, None, None), now) == prev.(updatedAt := now)
  {
  }

  /** `PUT /:id`: validation (400), then the lookup (404), then the role (403). */
  function UpdateProduct(products: seq<StoredProduct>, caller: Caller, id: string, p: ProductPatch, now: string)
    : (r: (Reply<StoredProduct>, seq<StoredProduct>))
    ensures r.0.Code() != 200 ==> r.1 == products
    ensures !PatchValid(p) ==> r.0 == Invalid
    ensures PatchValid(p) && (forall i :: 0 <= i < |products| ==> products[i].id != id) ==> r.0 == Refused(404, "Product not found")
  {
    if !PatchValid(p) then (Invalid, products)
    else match FindIndex(products, (x: StoredProduct) => x.id == id)
      case None => (Refused(404, "Product not found"), products)
      case Some(k) =>
        if caller.role != "shopkeeper" then (Refused(403, "Not authorized"), products)
        else
          var updated := Merged(products[k], p, now);
          (Served(200, Some("Product updated successfully"), Some(updated)), products[k := updated])
  }

  /**
   * An update of a stored product by a shopkeeper merges into the first
   * product with the id and changes no other; by any other caller it is
   * refused with 403, after the lookup.
   */
  lemma UpdateProductAt(products: seq<StoredProduct>, caller: Caller, k: nat, p: ProductPatch, now: string)
    requires k < |products| && forall j :: 0 <= j < k ==> products[j].id != products[k].id
    requires PatchValid(p)
    ensures var r := UpdateProduct(products, caller, products[k].id, p, now);
      (caller.role == "shopkeeper" ==>
         r.0.Code() == 200 && r.1 == products[k := Merged(products[k], p, now)]) &&
      (caller.role != "shopkeeper" ==> r == (Refused(403, "Not authorized"), products))
  {
    var f := (x: StoredProduct) => x.id == products[k].id;
    assert f(products[k]);
  }

  /** `DELETE /:id`: the lookup (404), then the role (403), then the splice. */
  function DeleteProduct(products: seq<StoredProduct>, caller: Caller, id: string): (r: (Reply<StoredProduct>, seq<StoredProduct>))
    ensures r.0.Code() != 200 ==> r.1 == products
    ensures r.0.Code() == 404 <==> forall i :: 0 <= i < |products| ==> products[i].id != id
    ensures r.0.Code() == 200 <==> caller.role == "shopkeeper" && exists i :: 0 <= i < |products| && products[i].id == id
  {
    match FindIndex(products, (x: StoredProduct) => x.id == id)
    case None => (Refused(404, "Product not found"), products)
    case Some(k) =>
      if caller.role != "shopkeeper" then (Refused(403, "Not authorized"), products)
      else (Served(200, Some("Product deleted successfully"), None), RemoveAt(products, k))
  }

  /** A delete removes exactly the first product with the id and keeps the others in order. */
  lemma DeleteProductRemovesOne(products: seq<StoredProduct>, caller: Caller, k: nat)
    requires k < |products| && forall j :: 0 <= j < k ==> products[j].id != products[k].id
    requires caller.role == "shopkeeper"
    ensures DeleteProduct(products, caller, products[k].id).1 == products[..k] + products[k + 1..]
  {
    var f := (x: StoredProduct) => x.id == products[k].id;
    assert f(products[k]);
    assert RemoveAt(products, k) == products[..k] + products[k + 1..];
  }

  /** The in-memory `products` array. */
  class Catalog {
    var products: seq<StoredProduct>

    constructor()
      ensures products == []
    {
      products := [];
    }

    method List(shopId: Option<string>, category: Option<string>) returns (r: seq<StoredProduct>)
      ensures r == ListProducts(products, shopId, category)
    {
      r := products;
      if shopId.Some? && shopId.value != "" {
        r := Filter(r, (p: StoredProduct) => p.shopId == shopId.value);
      }
      if category.Some? && category.value != "" {
        r := Filter(r, (p: StoredProduct) => p.category == category.value);
      }
    }

    method Get(id: string) returns (r: Reply<StoredProduct>)
      ensures r == GetProduct(products, id)
    {
      var product := FindFirst(products, (p: StoredProduct) => p.id == id);
      if product.None? {
        return Refused(404, "Product not found");
      }
      r := Served(200, None, product);
    }

    method Create(caller: Caller, b: ProductBody, id: string, now: string) returns (r: Reply<StoredProduct>)
      modifies this
      ensures (r, products) == CreateProduct(old(products), caller, b, id, now)
    {
      if !CreateBodyValid(b) {
        return Invalid;
      }
      if caller.role != "shopkeeper" {
        return Refused(403, "Only shopkeepers can create products");
      }
      var product := NewProduct(b, id, now);
      products := products + [product];
      r := Served(201, Some("Product created successfully"), Some(product));
    }

    method Update(caller: Caller, id: string, p: ProductPatch, now: string) returns (r: Reply<StoredProduct>)
      modifies this
      ensures (r, products) == UpdateProduct(old(products), caller, id, p, now)
    {
      if !PatchValid(p) {
        return Invalid;
      }
      var productIndex := FindIndex(products, (x: StoredProduct) => x.id == id);
      if productIndex.None? {
        return Refused(404, "Product not found");
      }
      var k := productIndex.value;
      if caller.role != "shopkeeper" {
        return Refused(403, "Not authorized");
      }
      ghost var before := products;
      var product := Merged(products[k], p.(stock := None), now);
      if p.stock.Some? {
        product := product.(inStock := PositiveStock(p.stock.value), stock := StockFrom(p.stock.value));
      }
      products := products[k := product];
      assert product == Merged(before[k], p, now);
      r := Served(200, Some("Product updated successfully"), Some(product));
    }

    method Delete(caller: Caller, id: string) returns (r: Reply<StoredProduct>)
      modifies this
      ensures (r, products) == DeleteProduct(old(products), caller, id)
    {
      var productIndex := FindIndex(products, (x: StoredProduct) => x.id == id);
      if productIndex.None? {
        return Refused(404, "Product not found");
      }
      if caller.role != "shopkeeper" {
        return Refused(403, "Not authorized");
      }
      products := RemoveAt(products, productIndex.value);
      r := Served(200, Some("Product deleted successfully"), None);
    }
  }
}
