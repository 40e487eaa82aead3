/**
 * The client API layer (`api.ts`): how `apiRequest` puts the cache,
 * de-duplication and the request queue together; what `makeRequest` sends and
 * how it turns a reply into data or an error message; which endpoint, cache
 * key and lifetime each API call uses, and which cache family a successful
 * write invalidates; `ordersAPI.getByShopId`, `shopsAPI.search` and the
 * absolutising of uploaded file URLs.
 *
 * The network is a parameter: a request's reply (`Fetched`) is given, not
 * computed. The stored token is passed in as read from `localStorage`.
 */
module Api {
  import opened Common
  import opened Strings
  import opened ApiUtils
  import opened MockData
  import opened FormEncoding

  /** The default of `API_BASE_URL` (the `VITE_API_URL` override is a deployment setting). */
  const ApiBaseUrl: string := "http://localhost:5001/api"

  /** Response bodies, as far as the model looks into them. */
  datatype Data = OrdersData(orders: seq<Order>) | ShopsData(shops: seq<Shop>) | Opaque(id: nat)

  /** The parts of `RequestInit` the layer reads: the method (`verb`) and the caller's headers. */
  datatype RequestOptions = RequestOptions(verb: Option<string>, headers: map<string, string>)

  /** JavaScript truthiness of an optional string: present and non-empty. */
  predicate Truthy(s: Option<string>)
  {
    s.Some? && s.value != ""
  }

  /** The condition `cacheKey && !options.method` of `apiRequest` and `makeRequest`. */
  predicate IsCachedRead(options: RequestOptions, cacheKey: Option<string>)
  {
    Truthy(cacheKey) && !Truthy(options.verb)
  }

  /**
   * The headers of `makeRequest`: JSON content type, overlaid by the caller's
   * headers, then `Authorization: Bearer <token>` when a token is stored.
   */
  function Headers(caller: map<string, string>, token: Option<string>): (h: map<string, string>)
    ensures "Content-Type" in h
    ensures "Content-Type" !in caller ==> h["Content-Type"] == "application/json"
    ensures "Authorization" in h <==> Truthy(token) || "Authorization" in caller
    ensures Truthy(token) ==> h["Authorization"] == "Bearer " + token.value
    ensures forall k :: k in caller && (k != "Authorization" || !Truthy(token)) ==> k in h && h[k] == caller[k]
    ensures forall k :: k in h ==> k == "Content-Type" || k == "Authorization" || k in caller
  {
    var base := map["Content-Type" := "application/json"] + caller;
    if Truthy(token) then base["Authorization" := "Bearer " + token.value] else base
  }

  /** What `fetch` is asked for. */
  datatype HttpRequest = HttpRequest(url: string, verb: Option<string>, headers: map<string, string>)

  /** A non-ok reply's body: JSON with an optional `message`, or not JSON. */
  datatype ErrorBody = ErrorJson(message: Option<string>) | NotJson

  /** What comes back from `fetch`: it throws, or the server answers ok with data, or not ok. */
  datatype Fetched =
    | Thrown(name: string, message: string)
    | Answered(data: Data)
    | Refused(status: int, body: ErrorBody)

  /** A settled request: its data, or the message of the error it rejects with. */
  datatype Outcome = Ok(data: Data) | Failed(message: string)

  /** `baseUrl.replace('/api', '')`: the first `/api` is removed, wherever it is. */
  function OriginOf(baseUrl: string): string
  {
    ReplaceFirst(baseUrl, "/api", "")
  }

  /**
   * Of a base URL with an `/api` after a part holding none, exactly that
   * `/api` is removed; in particular a base URL whose only `/api` is its
   * suffix loses the suffix.
   */
  lemma OriginDropsFirstApi(a: string, b: string)
    requires forall i :: 0 <= i < |a| ==> !OccursAt(a + "/api" + b, "/api", i)
    ensures OriginOf(a + "/api" + b) == a + b
    ensures b == "" ==> OriginOf(a + "/api") == a
  {
    ReplaceFirstAt(a, "/api", "", b);
    assert a + "" + b == a + b;
    assert a + "/api" + "" == a + "/api";
  }

  /** `API_BASE_URL.replace('/api', '')` of the default base URL. */
  function BackendOrigin(): string
  {
    OriginOf(ApiBaseUrl)
  }

  /** Before its last four characters the base URL has no `/` followed by `a`. */
  lemma BaseUrlNoEarlySlashA(i: int)
    requires 0 <= i < |ApiBaseUrl| - 4
    ensures ApiBaseUrl[i] != '/' || ApiBaseUrl[i + 1] != 'a'
  {
  }

  /** The base URL loses its `/api` suffix and nothing else. */
  lemma BackendOriginValue()
    ensures BackendOrigin() == "http://localhost:5001"
  {
    var a := "http://localhost:5001";
    assert ApiBaseUrl == a + "/api" + "";
    forall i | 0 <= i < |a| ensures !OccursAt(ApiBaseUrl, "/api", i) {
      BaseUrlNoEarlySlashA(i);
      assert ApiBaseUrl[i..i + 4][0] == ApiBaseUrl[i];
      assert ApiBaseUrl[i..i + 4][1] == ApiBaseUrl[i + 1];
    }
    OriginDropsFirstApi(a, "");
  }

  /** The message that replaces a failed connection. */
  function ConnectionHelp(): string
  {
    "Cannot connect to backend server at " + BackendOrigin() + ". " +
    "Please make sure the backend server is running. " +
    "Run: cd backend && npm run dev"
  }

  /** The message thrown for a non-ok reply: the body's truthy `message`, or a fallback. */
  function RefusalMessage(status: int, body: ErrorBody): string
  {
    match body
    case NotJson => "An error occurred"
    case ErrorJson(m) => if Truthy(m) then m.value else "Server error: " + IntToString(status)
  }

  /** How `makeRequest` settles for a given reply. */
  function Respond(f: Fetched): (r: Outcome)
    ensures f.Answered? <==> r.Ok?
    ensures f.Answered? ==> r.data == f.data
    ensures f.Refused? ==> r.message == RefusalMessage(f.status, f.body)
    ensures f.Thrown? ==> r.message == (if f.name == "TypeError" && Includes(f.message, "fetch") then ConnectionHelp() else f.message)
  {
    match f
    case Answered(d) => Ok(d)
    case Refused(status, body) => Failed(RefusalMessage(status, body))
    case Thrown(name, message) =>
      if name == "TypeError" && Includes(message, "fetch") then Failed(ConnectionHelp()) else Failed(message)
  }

  /** A refusal's message is never empty: it is the server's message, or a fallback naming the status. */
  lemma RefusalMessageNonEmpty(status: int, body: ErrorBody)
    ensures RefusalMessage(status, body) != ""
    ensures body == ErrorJson(None) ==> RefusalMessage(status, body) == "Server error: " + IntToString(status)
  {
  }

  /** `makeRequest(endpoint, options, cacheKey, cacheTTL)`, with the reply `fetched` arriving at `now`. */
  method MakeRequest(layer: RequestLayer<Data>, endpoint: string, options: RequestOptions, cacheKey: Option<string>,
                     cacheTtl: int, token: Option<string>, fetched: Fetched, now: int)
    returns (sent: HttpRequest, r: Outcome)
    modifies layer
    ensures sent == HttpRequest(ApiBaseUrl + endpoint, options.verb, Headers(options.headers, token))
    ensures r == Respond(fetched)
    ensures layer.cache == if IsCachedRead(options, cacheKey) && fetched.Answered?
                           then Store(old(layer.cache), cacheKey.value, fetched.data, now, cacheTtl)
                           else old(layer.cache)
    ensures layer.activeRequests == old(layer.activeRequests)
    ensures layer.activeRequestCount == old(layer.activeRequestCount) && layer.requestQueue == old(layer.requestQueue)
  {
    var headers := map["Content-Type" := "application/json"] + options.headers;
    if Truthy(token) {
      headers := headers["Authorization" := "Bearer " + token.value];
    }
    sent := HttpRequest(ApiBaseUrl + endpoint, options.verb, headers);
    match fetched
    case Thrown(name, message) =>
      if name == "TypeError" && Includes(message, "fetch") {
        r := Failed(ConnectionHelp());
      } else {
        r := Failed(message);
      }
    case Refused(status, body) =>
      r := Failed(RefusalMessage(status, body));
    case Answered(data) =>
      if IsCachedRead(options, cacheKey) {
        layer.SetCache(cacheKey.value, data, now, cacheTtl);
      }
      r := Ok(data);
  }

  /** How `apiRequest` disposes of a call before any reply. */
  datatype Dispatch =
    | FromCache(data: Data)          // a fresh cache entry answers; no request
    | Joined(promise: nat)           // the same read is in flight; its promise is shared
    | Queued(promise: nat, started: bool) // a new de-duplicated read entered the queue
    | Direct                         // a write or unkeyed read: `makeRequest` runs at once

  /** `apiRequest`'s policy over the layer's state, given the promise and task a new read would get. */
  function DispatchCall(l: Layer<Data>, options: RequestOptions, cacheKey: Option<string>, now: int,
                        newPromise: nat, task: nat): (Dispatch, Layer<Data>)
  {
    if !IsCachedRead(options, cacheKey) then (Direct, l)
    else
      var key := cacheKey.value;
      var (hit, c1) := Lookup(l.cache, key, now);
      if hit.Some? then (FromCache(hit.value), l.(cache := c1))
      else
        var (p, m, run) := Dedup(l.inflight, key, newPromise);
        if !run then (Joined(p), l.(cache := c1))
        else
          var (s, started) := Submit(l.slots, task);
          (Queued(p, started), Layer(c1, m, s))
  }

  /** Writes and unkeyed reads bypass the cache, the de-duplication map and the queue. */
  lemma WritesBypass(l: Layer<Data>, options: RequestOptions, cacheKey: Option<string>, now: int, np: nat, task: nat)
    requires !IsCachedRead(options, cacheKey)
    ensures DispatchCall(l, options, cacheKey, now, np, task) == (Direct, l)
  {
  }

  /** A fresh entry answers a keyed read, and nothing else changes: no request is made. */
  lemma FreshEntryAnswers(l: Layer<Data>, options: RequestOptions, key: string, now: int, np: nat, task: nat)
    requires IsCachedRead(options, Some(key)) && key in l.cache && !Expired(l.cache[key], now)
    ensures DispatchCall(l, options, Some(key), now, np, task) == (FromCache(l.cache[key].data), l)
  {
  }

  /**
   * A keyed read that misses the cache joins the read in flight under its key,
   * or else registers a new promise and is submitted to the queue; the queue
   * never runs more than six requests.
   */
  lemma MissJoinsOrQueues(l: Layer<Data>, options: RequestOptions, key: string, now: int, np: nat, task: nat)
    requires IsCachedRead(options, Some(key)) && SlotsValid(l.slots)
    requires key !in l.cache || Expired(l.cache[key], now)
    ensures var (d, l') := DispatchCall(l, options, Some(key), now, np, task);
      key !in l'.cache && SlotsValid(l'.slots) &&
      (key in l.inflight ==> d == Joined(l.inflight[key]) && l'.slots == l.slots && l'.inflight == l.inflight) &&
      (key !in l.inflight ==> d.Queued? && d.promise == np && l'.inflight == l.inflight[key := np] &&
                              (d.started, l'.slots) == (Submit(l.slots, task).1, Submit(l.slots, task).0))
  {
    SubmitKeepsValid(l.slots, task);
  }

  /**
   * A queued keyed read settling with `fetched` at `now`: `makeRequest`
   * stores a successful reply, the queue's `finally` frees the slot and
   * admits the next waiter, and the de-duplication `finally` releases the key.
   */
  function CompleteRead(l: Layer<Data>, key: string, ttl: int, fetched: Fetched, now: int): (Outcome, Layer<Data>, Option<nat>)
  {
    var c := if fetched.Answered? then Store(l.cache, key, fetched.data, now, ttl) else l.cache;
    var (s, admitted) := Settle(l.slots);
    (Respond(fetched), Layer(c, Release(l.inflight, key), s), admitted)
  }

  /**
   * The read-through round trip: a read that misses, is queued and settles
   * with data at `t1` answers every later read of the key from the cache
   * while no more than `ttl` ms have passed, without another request.
   */
  lemma ReadThroughRoundTrip(l: Layer<Data>, options: RequestOptions, key: string, ttl: int, t0: int,
                             np: nat, task: nat, d: Data, t1: int, t2: int, np2: nat, task2: nat)
    requires IsCachedRead(options, Some(key)) && SlotsValid(l.slots)
    requires key !in l.inflight && (key !in l.cache || Expired(l.cache[key], t0))
    ensures var (d0, l1) := DispatchCall(l, options, Some(key), t0, np, task);
      d0.Queued? && l1.slots.active >= 1 &&
      var (r, l2, _) := CompleteRead(l1, key, ttl, Answered(d), t1);
      r == Ok(d) && key !in l2.inflight &&
      (t2 - t1 <= ttl ==> DispatchCall(l2, options, Some(key), t2, np2, task2) == (FromCache(d), l2))
  {
    SubmitRule(l.slots, task);
  }

  /** A failed read stores nothing: the next read misses and makes a new request. */
  lemma FailedReadNotCached(l: Layer<Data>, key: string, ttl: int, status: int, body: ErrorBody, now: int)
    requires key !in l.cache
    ensures var (r, l', _) := CompleteRead(l, key, ttl, Refused(status, body), now);
      r == Failed(RefusalMessage(status, body)) && key !in l'.cache && key !in l'.inflight
  {
  }

  /** `apiRequest`: the layer's state moves as `DispatchCall` says. */
  method ApiRequest(layer: RequestLayer<Data>, options: RequestOptions, cacheKey: Option<string>, now: int,
                    newPromise: nat, task: nat)
    returns (r: Dispatch)
    requires layer.Valid()
    modifies layer
    ensures layer.Valid()
    ensures (r, layer.Snapshot()) == DispatchCall(old(layer.Snapshot()), options, cacheKey, now, newPromise, task)
  {
    if IsCachedRead(options, cacheKey) {
      var cached := layer.GetCached(cacheKey.value, now);
      if cached.Some? {
        return FromCache(cached.value);
      }
    }
    if IsCachedRead(options, cacheKey) {
      var promise, ran, started := layer.DeduplicateRequest(cacheKey.value, newPromise, task);
      if ran {
        return Queued(promise, started);
      }
      return Joined(promise);
    }
    return Direct;
  }

  /** The queued `makeRequest` of a keyed read settles: the state moves as `CompleteRead` says. */
  method CompleteKeyedRead(layer: RequestLayer<Data>, endpoint: string, options: RequestOptions, key: string,
                           ttl: int, token: Option<string>, fetched: Fetched, now: int)
    returns (sent: HttpRequest, r: Outcome, admitted: Option<nat>)
    requires IsCachedRead(options, Some(key))
    requires layer.Valid() && layer.activeRequestCount >= 1
    modifies layer
    ensures layer.Valid()
    ensures sent == HttpRequest(ApiBaseUrl + endpoint, options.verb, Headers(options.headers, token))
    ensures (r, layer.Snapshot(), admitted) == CompleteRead(old(layer.Snapshot()), key, ttl, fetched, now)
  {
    sent, r := MakeRequest(layer, endpoint, options, Some(key), ttl, token, fetched, now);
    admitted := layer.FinishTask();
    layer.ReleaseKey(key);
  }

  /** The calls of `authAPI`, `shopsAPI`, `productsAPI` and `ordersAPI`. */
  datatype ApiCall =
    | AuthRegister | AuthLogin | AuthLogout | AuthMe | AuthUpdateProfile | AuthChangePassword
    | ShopsGetAll(useCache: bool) | ShopsGetById(shopId: string)
    | ShopsCreate | ShopsUpdate(shopId: string) | ShopsDelete(shopId: string)
    | ProductsGetAll(byShop: Option<string>, byCategory: Option<string>) | ProductsGetById(productId: string)
    | ProductsCreate | ProductsUpdate(productId: string) | ProductsDelete(productId: string)
    | OrdersGetAll | OrdersGetById(orderId: string) | OrdersCreate | OrdersUpdateStatus(orderId: string)

  /** What one call asks `apiRequest` for, and the cache family it clears after it succeeds. */
  datatype Route = Route(endpoint: string, verb: Option<string>, cacheKey: Option<string>, ttl: int,
                         invalidates: Option<string>)

  /**
   * The parameters `productsAPI.getAll` appends to its `URLSearchParams`:
   * `shopId`, then `category`, each only when truthy, each serialised as
   * `name=value` (both names serialise to themselves).
   */
  function ProductParams(byShop: Option<string>, byCategory: Option<string>): seq<string>
  {
    (if Truthy(byShop) then ["shopId=" + FormEncode(byShop.value)] else []) +
    (if Truthy(byCategory) then ["category=" + FormEncode(byCategory.value)] else [])
  }

  /** `params.toString()`: the serialised parameters joined by `&`. */
  function ProductQuery(byShop: Option<string>, byCategory: Option<string>): string
  {
    Join(ProductParams(byShop, byCategory), "&")
  }

  /** A serialised parameter `name=value` holds no `&` when `name=`, its `prefix`, holds none. */
  lemma ParamHasNoAmpersand(prefix: string, value: string)
    requires '&' !in prefix
    ensures '&' !in prefix + FormEncode(value)
  {
    var p := prefix + FormEncode(value);
    FormEncodeSafe(value);
    forall i | 0 <= i < |p|
      ensures p[i] != '&'
    {
      if i >= |prefix| {
        assert p[i] == FormEncode(value)[i - |prefix|];
      } else {
        assert p[i] == prefix[i];
      }
    }
  }

  /**
   * The query reads back: with no truthy filter it is empty; otherwise
   * splitting it at `&` gives exactly the serialised parameters, since a
   * serialised value holds no `&`.
   */
  lemma ProductQuerySplits(byShop: Option<string>, byCategory: Option<string>)
    ensures !Truthy(byShop) && !Truthy(byCategory) <==> ProductQuery(byShop, byCategory) == ""
    ensures Truthy(byShop) || Truthy(byCategory) ==>
              SplitOn(ProductQuery(byShop, byCategory), '&') == ProductParams(byShop, byCategory)
  {
    var parts := ProductParams(byShop, byCategory);
    ProductParamsSafe(byShop, byCategory);
    if |parts| >= 1 {
      assert "&" == ['&'];
      SplitJoin(parts, '&');
      assert |Join(parts, "&")| >= |parts[0]|;
    }
  }

  /** Each serialised parameter is non-empty and holds no `&`. */
  lemma ProductParamsSafe(byShop: Option<string>, byCategory: Option<string>)
    ensures forall k :: 0 <= k < |ProductParams(byShop, byCategory)| ==>
              var p := ProductParams(byShop, byCategory)[k]; '&' !in p && p != ""
  {
    if Truthy(byShop) {
      ParamHasNoAmpersand("shopId=", byShop.value);
    }
    if Truthy(byCategory) {
      ParamHasNoAmpersand("category=", byCategory.value);
    }
  }

  /** The endpoint of `productsAPI.getAll`: the query, behind a `?`, only when it is not empty. */
  function ProductsListEndpoint(byShop: Option<string>, byCategory: Option<string>): string
  {
    var q := ProductQuery(byShop, byCategory);
    "/products" + (if q != "" then "?" + q else "")
  }

  /** The cache key of `productsAPI.getAll`. */
  function ProductsListKey(byShop: Option<string>): string
  {
    if Truthy(byShop) then "products:shop:" + byShop.value else "products:all"
  }

  /** The cache key under which `getByShopId` keeps one shop's orders. */
  function ShopOrdersKey(shopId: string): string
  {
    "orders:shop:" + shopId
  }

  function RouteOf(call: ApiCall): Route
  {
    match call
    case AuthRegister => Route("/auth/register", Some("POST"), None, DefaultTtl, None)
    case AuthLogin => Route("/auth/login", Some("POST"), None, DefaultTtl, None)
    case AuthLogout => Route("/auth/logout", Some("POST"), None, DefaultTtl, None)
    case AuthMe => Route("/auth/me", None, None, DefaultTtl, None)
    case AuthUpdateProfile => Route("/auth/profile", Some("PUT"), None, DefaultTtl, None)
    case AuthChangePassword => Route("/auth/password", Some("PUT"), None, DefaultTtl, None)
    case ShopsGetAll(useCache) => Route("/shops", None, if useCache then Some("shops:all") else None, 60000, None)
    case ShopsGetById(id) => Route("/shops/" + id, None, Some("shops:" + id), 60000, None)
    case ShopsCreate => Route("/shops", Some("POST"), None, DefaultTtl, None)
    case ShopsUpdate(id) => Route("/shops/" + id, Some("PUT"), None, DefaultTtl, None)
    case ShopsDelete(id) => Route("/shops/" + id, Some("DELETE"), None, DefaultTtl, None)
    case ProductsGetAll(byShop, byCategory) =>
      Route(ProductsListEndpoint(byShop, byCategory), None, Some(ProductsListKey(byShop)), 30000, None)
    case ProductsGetById(id) => Route("/products/" + id, None, Some("products:" + id), 60000, None)
    case ProductsCreate => Route("/products", Some("POST"), None, DefaultTtl, Some("products:"))
    case ProductsUpdate(id) => Route("/products/" + id, Some("PUT"), None, DefaultTtl, Some("products:"))
    case ProductsDelete(id) => Route("/products/" + id, Some("DELETE"), None, DefaultTtl, Some("products:"))
    case OrdersGetAll => Route("/orders", None, Some("orders:all"), 15000, None)
    case OrdersGetById(id) => Route("/orders/" + id, None, None, DefaultTtl, None)
    case OrdersCreate => Route("/orders", Some("POST"), None, DefaultTtl, None)
    case OrdersUpdateStatus(id) => Route("/orders/" + id + "/status", Some("PUT"), None, DefaultTtl, Some("orders:"))
  }

  /** A call that reads from or writes to the products family. */
  predicate IsProductRead(call: ApiCall)
  {
    call.ProductsGetAll? || call.ProductsGetById?
  }

  predicate IsOrderRead(call: ApiCall)
  {
    call.OrdersGetAll? || call.OrdersGetById?
  }

  /**
   * Every call is either a write, which is never cached, or a read; only the
   * three reads `getAll(false)`, `getById` of an order and `me` go uncached.
   * The families cleared after a write: `products:` for the product writes,
   * `orders:` for a status update, and nothing for shop writes, order
   * creation or the auth calls.
   */
  lemma RoutesTable(call: ApiCall)
    ensures var r := RouteOf(call);
      (Truthy(r.verb) ==> r.cacheKey.None?) &&
      (!Truthy(r.verb) && r.cacheKey.None? <==> call == ShopsGetAll(false) || call.OrdersGetById? || call == AuthMe) &&
      (r.invalidates == Some("products:") <==> call.ProductsCreate? || call.ProductsUpdate? || call.ProductsDelete?) &&
      (r.invalidates == Some("orders:") <==> call.OrdersUpdateStatus?) &&
      (r.invalidates.Some? ==> Truthy(r.verb)) &&
      (r.cacheKey.Some? ==> Truthy(r.cacheKey))
  {
  }

  /** Every product read's cache key lies in the `products:` family. */
  lemma ProductKeysInFamily(read: ApiCall)
    requires IsProductRead(read)
    ensures Includes(RouteOf(read).cacheKey.value, "products:")
  {
    match read {
      case ProductsGetAll(byShop, _) =>
        assert RouteOf(read).cacheKey.value == ProductsListKey(byShop);
        ListKeyInFamily(byShop);
      case ProductsGetById(id) =>
        assert RouteOf(read).cacheKey.value == "" + "products:" + id;
        IncludesInfix("", "products:", id);
    }
  }

  lemma ListKeyInFamily(byShop: Option<string>)
    ensures Includes(ProductsListKey(byShop), "products:")
  {
    if Truthy(byShop) {
      assert ProductsListKey(byShop) == "" + "products:" + ("shop:" + byShop.value);
      IncludesInfix("", "products:", "shop:" + byShop.value);
    } else {
      assert ProductsListKey(byShop) == "" + "products:" + "all";
      IncludesInfix("", "products:", "all");
    }
  }

  /** Both order list keys lie in the `orders:` family. */
  lemma OrderKeysInFamily(shopId: string)
    ensures Includes(RouteOf(OrdersGetAll).cacheKey.value, "orders:")
    ensures Includes(ShopOrdersKey(shopId), "orders:")
  {
    assert RouteOf(OrdersGetAll).cacheKey.value == "" + "orders:" + "all";
    IncludesInfix("", "orders:", "all");
    assert ShopOrdersKey(shopId) == "" + "orders:" + ("shop:" + shopId);
    IncludesInfix("", "orders:", "shop:" + shopId);
  }

  /**
   * Invalidation reaches every read of the family: after a product write,
   * no product read hits the cache; after a status update, neither the
   * order list nor a shop's order list does.
   */
  lemma InvalidationCoversFamily(c: Cache<Data>, write: ApiCall, read: ApiCall, shopId: string, now: int)
    ensures (write.ProductsCreate? || write.ProductsUpdate? || write.ProductsDelete?) && IsProductRead(read) ==>
      Lookup(Clear(c, RouteOf(write).invalidates), RouteOf(read).cacheKey.value, now).0 == None
    ensures write.OrdersUpdateStatus? ==>
      Lookup(Clear(c, RouteOf(write).invalidates), RouteOf(OrdersGetAll).cacheKey.value, now).0 == None &&
      Lookup(Clear(c, RouteOf(write).invalidates), ShopOrdersKey(shopId), now).0 == None
  {
    if (write.ProductsCreate? || write.ProductsUpdate? || write.ProductsDelete?) && IsProductRead(read) {
      ProductKeysInFamily(read);
      ClearThenLookupMisses(c, "products:", RouteOf(read).cacheKey.value, now);
    }
    if write.OrdersUpdateStatus? {
      OrderKeysInFamily(shopId);
      ClearThenLookupMisses(c, "orders:", RouteOf(OrdersGetAll).cacheKey.value, now);
      ClearThenLookupMisses(c, "orders:", ShopOrdersKey(shopId), now);
    }
  }

  /** What precedes the serialised category in a category-filtered product list's endpoint. */
  function CategoryPrefix(byShop: Option<string>): string
  {
    "/products" + "?" + (if Truthy(byShop) then "shopId=" + FormEncode(byShop.value) + "&" else "") + "category="
  }

  /**
   * The product list's cache key ignores the category: two lists of one
   * shop that differ in category share a key although they ask the server
   * for different endpoints.
   */
  lemma ProductsKeyIgnoresCategory(byShop: Option<string>, c1: string, c2: string)
    requires c1 != "" && c2 != "" && c1 != c2
    ensures RouteOf(ProductsGetAll(byShop, Some(c1))).cacheKey == RouteOf(ProductsGetAll(byShop, Some(c2))).cacheKey
    ensures RouteOf(ProductsGetAll(byShop, Some(c1))).endpoint != RouteOf(ProductsGetAll(byShop, Some(c2))).endpoint
  {
    var p := CategoryPrefix(byShop);
    var e1 := ProductsEndpoint(byShop, c1);
    var e2 := ProductsEndpoint(byShop, c2);
    assert e1[|p|..] == FormEncode(c1) && e2[|p|..] == FormEncode(c2);
    FormEncodeInjective(c1, c2);
  }

  /** The endpoint of a product list filtered by a category: the serialised category is the last thing in it. */
  lemma ProductsEndpoint(byShop: Option<string>, c: string) returns (e: string)
    requires c != ""
    ensures e == RouteOf(ProductsGetAll(byShop, Some(c))).endpoint
    ensures e == CategoryPrefix(byShop) + FormEncode(c)
  {
    e := ProductsListEndpoint(byShop, Some(c));
    var shopPart := if Truthy(byShop) then "shopId=" + FormEncode(byShop.value) + "&" else "";
    var v := FormEncode(c);
    var q := ProductQuery(byShop, Some(c));
    assert q == shopPart + ("category=" + v) by {
      CategoryQuery(byShop, c);
    }
    assert e == "/products" + ("?" + q);
    calc {
      e;
      "/products" + ("?" + (shopPart + ("category=" + v)));
      { AppendAssoc("?", shopPart, "category=" + v); }
      "/products" + (("?" + shopPart) + ("category=" + v));
      { AppendAssoc("?" + shopPart, "category=", v); }
      "/products" + ((("?" + shopPart) + "category=") + v);
      { AppendAssoc("/products", ("?" + shopPart) + "category=", v); }
      ("/products" + (("?" + shopPart) + "category=")) + v;
      { AppendAssoc("/products", "?" + shopPart, "category="); AppendAssoc("/products", "?", shopPart); }
      CategoryPrefix(byShop) + v;
    }
  }


  /** With a category, the query is the optional shop parameter and `&`, then the category parameter. */
  lemma CategoryQuery(byShop: Option<string>, c: string)
    requires c != ""
    ensures ProductQuery(byShop, Some(c)) ==
              (if Truthy(byShop) then "shopId=" + FormEncode(byShop.value) + "&" else "") + ("category=" + FormEncode(c))
  {
    var parts := ProductParams(byShop, Some(c));
    var last := "category=" + FormEncode(c);
    if Truthy(byShop) {
      var first := "shopId=" + FormEncode(byShop.value);
      assert parts == [first, last];
      assert Join(parts[1..], "&") == last by {
        assert parts[1..] == [last];
      }
    } else {
      assert parts == [last];
    }
  }



  /** A category of two unreserved words is sent with `+` for the space, as in `/products?category=First+Aid`. */
  lemma CategoryWithSpaceEndpoint(a: string, b: string)
    requires forall i :: 0 <= i < |a| ==> a[i] as int < 0x80 && Unreserved(a[i] as int)
    requires forall i :: 0 <= i < |b| ==> b[i] as int < 0x80 && Unreserved(b[i] as int)
    ensures RouteOf(ProductsGetAll(None, Some(a + " " + b))).endpoint == "/products" + "?" + "category=" + (a + "+" + b)
  {
    var e := ProductsEndpoint(None, a + " " + b);
    FormEncodeSpaced(a, b);
  }



  /** The cache after a write settles: a successful write clears the family its route names. */
  function AfterWrite(c: Cache<Data>, call: ApiCall, r: Outcome): Cache<Data>
  {
    if r.Ok? && RouteOf(call).invalidates.Some? then Clear(c, RouteOf(call).invalidates) else c
  }

  /** A failed write clears nothing; shop writes and order creation never clear anything. */
  lemma AfterWriteKeeps(c: Cache<Data>, call: ApiCall, r: Outcome)
    requires r.Failed? || call.ShopsCreate? || call.ShopsUpdate? || call.ShopsDelete? || call.OrdersCreate?
    ensures AfterWrite(c, call, r) == c
  {
  }

  /** The `clearCache` that follows an awaited write in `productsAPI` and `ordersAPI.updateStatus`. */
  method FinishWrite(layer: RequestLayer<Data>, call: ApiCall, r: Outcome)
    modifies layer
    ensures layer.cache == AfterWrite(old(layer.cache), call, r)
    ensures layer.activeRequests == old(layer.activeRequests)
    ensures layer.activeRequestCount == old(layer.activeRequestCount) && layer.requestQueue == old(layer.requestQueue)
  {
    if r.Ok? && RouteOf(call).invalidates.Some? {
      layer.ClearCache(RouteOf(call).invalidates);
    }
  }

  /** How `getByShopId` begins: a cached shop list, or the `orders:all` read it delegates to. */
  datatype ShopOrdersStart = ShopOrdersCached(data: Data) | ShopOrdersVia(dispatch: Dispatch)

  /** `ordersAPI.getByShopId(shopId)` up to its `await`: the shop's own cache entry first. */
  method ShopOrdersBegin(layer: RequestLayer<Data>, shopId: string, now: int, newPromise: nat, task: nat)
    returns (r: ShopOrdersStart)
    requires layer.Valid()
    modifies layer
    ensures layer.Valid()
    ensures var (hit, c1) := Lookup(old(layer.cache), ShopOrdersKey(shopId), now);
      (hit.Some? ==> r == ShopOrdersCached(hit.value) && layer.Snapshot() == old(layer.Snapshot()).(cache := c1)) &&
      (hit.None? ==>
         r.ShopOrdersVia? &&
         (r.dispatch, layer.Snapshot()) ==
           DispatchCall(old(layer.Snapshot()).(cache := c1), RequestOptions(None, map[]), Some("orders:all"), now, newPromise, task))
  {
    var cached := layer.GetCached(ShopOrdersKey(shopId), now);
    if cached.Some? {
      return ShopOrdersCached(cached.value);
    }
    var d := ApiRequest(layer, RequestOptions(None, map[]), Some("orders:all"), now, newPromise, task);
    return ShopOrdersVia(d);
  }

  /** After the `orders:all` data arrives at `now`: keep the shop's orders and cache them for 15 s. */
  method ShopOrdersFinish(layer: RequestLayer<Data>, shopId: string, all: seq<Order>, now: int)
    returns (r: Data)
    modifies layer
    ensures r == OrdersData(OrdersOfShop(all, shopId))
    ensures layer.cache == Store(old(layer.cache), ShopOrdersKey(shopId), r, now, 15000)
    ensures layer.activeRequests == old(layer.activeRequests)
    ensures layer.activeRequestCount == old(layer.activeRequestCount) && layer.requestQueue == old(layer.requestQueue)
  {
    r := OrdersData(OrdersOfShop(all, shopId));
    layer.SetCache(ShopOrdersKey(shopId), r, now, 15000);
  }

  /**
   * The shop's list holds exactly that shop's orders, as often and in the
   * order the full list has them, and it answers again for 15 s.
   */
  lemma ShopOrdersFiltered(c: Cache<Data>, all: seq<Order>, shopId: string, o: Order, now: int, later: int)
    ensures var r := OrdersData(OrdersOfShop(all, shopId));
      (o in r.orders <==> o in all && o.shopId == shopId) &&
      multiset(r.orders)[o] == (if o.shopId == shopId then multiset(all)[o] else 0) &&
      (later - now <= 15000 <==> Lookup(Store(c, ShopOrdersKey(shopId), r, now, 15000), ShopOrdersKey(shopId), later).0 == Some(r))
  {
    OrdersOfShopInOrder(all, [], shopId, o);
  }

  /** The match of `shopsAPI.search` (and of the shops page): name, category, city or address. */
  predicate ShopMatches(s: Shop, term: string)
  {
    Includes(ToLower(s.shopName), term) || Includes(ToLower(s.category), term) ||
    Includes(ToLower(s.city), term) || Includes(ToLower(s.address), term)
  }

  /** `shopsAPI.search(query, shops)` over the given shops (or over those `getAll` returned). */
  function SearchShopList(query: string, shops: seq<Shop>): (r: seq<Shop>)
    ensures forall s :: s in r <==> s in shops && (query == "" || ShopMatches(s, ToLower(query)))
    ensures |r| <= |shops|
  {
    if query == "" then shops
    else Filter(shops, (s: Shop) => ShopMatches(s, ToLower(query)))
  }

  /**
   * The search keeps the shops' order (searching two lists one after the
   * other is searching each) and keeps each matching shop as often as the
   * list has it.
   */
  lemma SearchShopListInOrder(query: string, a: seq<Shop>, b: seq<Shop>, s: Shop)
    ensures SearchShopList(query, a + b) == SearchShopList(query, a) + SearchShopList(query, b)
    ensures multiset(SearchShopList(query, a))[s] ==
              if query == "" || ShopMatches(s, ToLower(query)) then multiset(a)[s] else 0
  {
    var f := (x: Shop) => ShopMatches(x, ToLower(query));
    if query != "" {
      FilterAppend(a, b, f);
      FilterCount(a, f, s);
    }
  }

  /** The early return on an empty query is only a shortcut: filtering with it would keep every shop. */
  lemma SearchShortcutAgrees(shops: seq<Shop>)
    ensures SearchShopList("", shops) == Filter(shops, (s: Shop) => ShopMatches(s, ToLower("")))
  {
    forall i | 0 <= i < |shops| ensures ShopMatches(shops[i], ToLower("")) {
      IncludesEmpty(ToLower(shops[i].shopName));
    }
    FilterAll(shops, (s: Shop) => ShopMatches(s, ToLower("")));
  }

  /** An uploaded file's URL as `uploadFile` returns it: absolute URLs are kept, others get the origin in front. */
  function AbsoluteUrl(url: string): string
  {
    if StartsWith(url, "http") then url else BackendOrigin() + url
  }

  /** The result is always absolute, so absolutising twice changes nothing. */
  lemma AbsoluteUrlIdempotent(url: string)
    ensures StartsWith(AbsoluteUrl(url), "http")
    ensures AbsoluteUrl(AbsoluteUrl(url)) == AbsoluteUrl(url)
  {
    if !StartsWith(url, "http") {
      OriginIsHttp();
      StartsWithAppend(BackendOrigin(), url, "http");
    }
  }

  lemma OriginIsHttp()
    ensures StartsWith(BackendOrigin(), "http")
  {
    BackendOriginValue();
    assert BackendOrigin()[..4] == "http";
  }

  /** What the upload endpoint answers, or how `fetch` fails. */
  datatype UploadReply =
    | UploadThrown(name: string, message: string)
    | UploadAnswered(files: seq<(string, string)>)   // each file's `url` and `filename`
    | UploadRefused(body: ErrorBody)

  datatype UploadOutcome = Uploaded(files: seq<(string, string)>) | UploadFailed(message: string)

  /**
   * `uploadFile` (with `single == true`, one file answered) and
   * `uploadMultipleFiles`: no token fails before any request; a refusal
   * reports the server's message or the upload fallback; the URLs come back
   * absolute.
   */
  function Upload(token: Option<string>, single: bool, reply: UploadReply): (r: UploadOutcome)
    ensures !Truthy(token) ==> r == UploadFailed("Authentication required")
    ensures Truthy(token) && reply.UploadAnswered? ==>
      r.Uploaded? && |r.files| == |reply.files| &&
      forall i :: 0 <= i < |r.files| ==> r.files[i] == (AbsoluteUrl(reply.files[i].0), reply.files[i].1)
    ensures Truthy(token) && reply.UploadRefused? ==> r.UploadFailed? && r.message != ""
  {
    var fallback := if single then "Failed to upload file" else "Failed to upload files";
    if !Truthy(token) then UploadFailed("Authentication required")
    else
      match reply
      case UploadThrown(name, message) =>
        if name == "TypeError" && Includes(message, "fetch") then UploadFailed(ConnectionHelp()) else UploadFailed(message)
      case UploadRefused(body) =>
        UploadFailed(if body.ErrorJson? && Truthy(body.message) then body.message.value else fallback)
      case UploadAnswered(files) =>
        Uploaded(seq(|files|, i requires 0 <= i < |files| => (AbsoluteUrl(files[i].0), files[i].1)))
  }
}
