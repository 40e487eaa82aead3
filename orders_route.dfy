/**
 * The order routes of the server (`routes/orders.js`) over the in-memory
 * `orders` array. Each handler is a function from the array and the request
 * to the reply and the new array; the `OrderBook` class holds the array and
 * its methods perform the handlers in place. The validator chains are
 * written out as predicates, except `isEmail`/`normalizeEmail`, whose verdict
 * is a parameter. Ids and `toISOString` stamps are parameters.
 */
module OrdersRoute {
  import opened Common
  import opened Strings
  import opened Backend

  datatype OrderLine = OrderLine(productId: string, productName: string, quantity: int, price: int)

  datatype StoredOrder = StoredOrder(
    id: string,
    customerId: string,
    customerName: string,
    customerEmail: string,
    customerPhone: string,
    customerAddress: string,
    customerCity: string,
    customerPincode: string,
    shopId: Option<string>,
    shopName: Option<string>,
    items: seq<OrderLine>,
    total: int,
    status: string,
    paymentMethod: string,
    createdAt: string,
    updatedAt: string)

  /** The body of `POST /api/orders`. */
  datatype OrderBody = OrderBody(
    items: seq<OrderLine>,
    customerName: string,
    customerEmail: string,
    customerPhone: string,
    customerAddress: string,
    customerCity: string,
    customerPincode: string,
    shopId: Option<string>,
    shopName: Option<string>,
    paymentMethod: Option<string>)

  /** The six names `isIn` accepts for a status. */
  const StatusNames: seq<string> := ["pending", "confirmed", "preparing", "ready", "delivered", "cancelled"]

  /** `GET /`: a shopkeeper sees the orders of their shop, anyone else the orders they placed. */
  function ListOrders(orders: seq<StoredOrder>, caller: Caller): (r: seq<StoredOrder>)
    ensures caller.role == "shopkeeper" ==> forall o :: o in r <==> o in orders && o.shopId == caller.shopId
    ensures caller.role != "shopkeeper" ==> forall o :: o in r <==> o in orders && o.customerId == caller.id
  {
    if caller.role == "shopkeeper" then Filter(orders, (o: StoredOrder) => o.shopId == caller.shopId)
    else Filter(orders, (o: StoredOrder) => o.customerId == caller.id)
  }

  /** The listing keeps the stored order: listing two stretches of the array lists each in turn. */
  lemma ListOrdersInOrder(a: seq<StoredOrder>, b: seq<StoredOrder>, caller: Caller)
    ensures ListOrders(a + b, caller) == ListOrders(a, caller) + ListOrders(b, caller)
  {
    if caller.role == "shopkeeper" {
      FilterAppend(a, b, (o: StoredOrder) => o.shopId == caller.shopId);
    } else {
      FilterAppend(a, b, (o: StoredOrder) => o.customerId == caller.id);
    }
  }

  /** Whether the caller may read an order: its customer, a shopkeeper of its shop, or any caller of another role. */
  predicate MayRead(caller: Caller, o: StoredOrder)
  {
    !(caller.role == "customer" && o.customerId != caller.id) &&
    !(caller.role == "shopkeeper" && o.shopId != caller.shopId)
  }

  /** `GET /:id`. */
  function GetOrder(orders: seq<StoredOrder>, caller: Caller, id: string): (r: Reply<StoredOrder>)
    ensures r.Code() == 404 <==> forall i :: 0 <= i < |orders| ==> orders[i].id != id
    ensures r.Code() == 200 ==> r.Served? && r.value.Some? && r.value.value.id == id && MayRead(caller, r.value.value)
    ensures r.Code() in {200, 403, 404}
  {
    match FindFirst(orders, (o: StoredOrder) => o.id == id)
    case None => Refused(404, "Order not found")
    case Some(o) =>
      if caller.role == "customer" && o.customerId != caller.id then Refused(403, "Not authorized")
      else if caller.role == "shopkeeper" && o.shopId != caller.shopId then Refused(403, "Not authorized")
      else Served(200, None, Some(o))
  }

  /** A found order is served exactly when its first copy may be read by the caller. */
  lemma GetOrderAuthorised(orders: seq<StoredOrder>, caller: Caller, id: string, k: nat)
    requires k < |orders| && orders[k].id == id
    requires forall j :: 0 <= j < k ==> orders[j].id != id
    ensures GetOrder(orders, caller, id).Code() == 200 <==> MayRead(caller, orders[k])
    ensures GetOrder(orders, caller, id).Code() == 403 <==> !MayRead(caller, orders[k])
  {
    var f := (o: StoredOrder) => o.id == id;
    assert f(orders[k]);
  }

  /** `notEmpty` after `trim`. */
  predicate NotBlank(s: string)
  {
    Trim(s) != ""
  }

  /** The validator chain of `POST /`, `isEmail` given as `emailOk`. */
  predicate CreateBodyValid(b: OrderBody, emailOk: bool)
  {
    |b.items| >= 1 &&
    (forall i :: 0 <= i < |b.items| ==> b.items[i].productId != "") &&
    (forall i :: 0 <= i < |b.items| ==> b.items[i].quantity >= 1) &&
    NotBlank(b.customerName) && emailOk && NotBlank(b.customerPhone) && NotBlank(b.customerAddress) &&
    NotBlank(b.customerCity) && NotBlank(b.customerPincode)
  }

  /** The `reduce` of `POST /`: the sum of price times quantity, left to right. */
  function LinesTotal(items: seq<OrderLine>): int
  {
    if items == [] then 0
    else LinesTotal(items[..|items| - 1]) + items[|items| - 1].price * items[|items| - 1].quantity
  }

  lemma {:induction false} LinesTotalAppend(a: seq<OrderLine>, b: seq<OrderLine>)
    ensures LinesTotal(a + b) == LinesTotal(a) + LinesTotal(b)
    decreases |b|
  {
    if b == [] {
      assert a + b == a;
    } else {
      var bInit := b[..|b| - 1];
      assert (a + b)[..|a + b| - 1] == a + bInit;
      assert (a + b)[|a + b| - 1] == b[|b| - 1];
      LinesTotalAppend(a, bInit);
    }
  }

  /** `req.body.paymentMethod || 'cod'`. */
  function PaymentOrDefault(p: Option<string>): (r: string)
    ensures p.None? || p.value == "" ==> r == "cod"
    ensures p.Some? && p.value != "" ==> r == p.value
  {
    if p.Some? && p.value != "" then p.value else "cod"
  }

  /** The order `POST /` stores; the fields the validator trims are stored trimmed. */
  function NewOrder(caller: Caller, b: OrderBody, id: string, now: string): StoredOrder
  {
    StoredOrder(id, caller.id, Trim(b.customerName), b.customerEmail, Trim(b.customerPhone), Trim(b.customerAddress),
                Trim(b.customerCity), Trim(b.customerPincode), b.shopId, b.shopName, b.items, LinesTotal(b.items),
                "pending", PaymentOrDefault(b.paymentMethod), now, now)
  }

  /** `POST /`: validation first (400), then the customer check (403); only a success appends. */
  function CreateOrder(orders: seq<StoredOrder>, caller: Caller, b: OrderBody, emailOk: bool, id: string, now: string)
    : (r: (Reply<StoredOrder>, seq<StoredOrder>))
    ensures !CreateBodyValid(b, emailOk) ==> r == (Invalid, orders)
    ensures CreateBodyValid(b, emailOk) && caller.role != "customer" ==>
              r == (Refused(403, "Only customers can create orders"), orders)
    ensures CreateBodyValid(b, emailOk) && caller.role == "customer" ==>
              r == (Served(201, Some("Order created successfully"), Some(NewOrder(caller, b, id, now))),
                    orders + [NewOrder(caller, b, id, now)])
  {
    if !CreateBodyValid(b, emailOk) then (Invalid, orders)
    else if caller.role != "customer" then (Refused(403, "Only customers can create orders"), orders)
    else
      var o := NewOrder(caller, b, id, now);
      (Served(201, Some("Order created successfully"), Some(o)), orders + [o])
  }

  /**
   * A created order is appended after the stored ones, owned by the caller,
   * pending, with the items' total and the payment method defaulting to `cod`;
   * every other outcome stores nothing.
   */
  lemma CreateOrderAppends(orders: seq<StoredOrder>, caller: Caller, b: OrderBody, emailOk: bool, id: string, now: string)
    ensures var r := CreateOrder(orders, caller, b, emailOk, id, now);
      (r.0.Code() == 201 <==> CreateBodyValid(b, emailOk) && caller.role == "customer") &&
      (r.0.Code() != 201 ==> r.1 == orders) &&
      (r.0.Code() == 201 ==>
         |r.1| == |orders| + 1 && r.1[..|orders|] == orders && r.0.value == Some(r.1[|orders|]) &&
         r.1[|orders|].total == LinesTotal(b.items) && r.1[|orders|].status == "pending" &&
         r.1[|orders|].customerId == caller.id && r.1[|orders|].items == b.items &&
         r.1[|orders|].paymentMethod == PaymentOrDefault(b.paymentMethod))
  {
    var o := NewOrder(caller, b, id, now);
    assert (orders + [o])[..|orders|] == orders;
  }

  /** `PUT /:id/status`: the status check, then the role, the lookup and the shop, in that order. */
  function UpdateStatus(orders: seq<StoredOrder>, caller: Caller, id: string, status: string, now: string)
    : (r: (Reply<StoredOrder>, seq<StoredOrder>))
    ensures r.0.Code() != 200 ==> r.1 == orders
    ensures status !in StatusNames ==> r.0 == Invalid
    ensures status in StatusNames && caller.role != "shopkeeper" ==> r.0 == Refused(403, "Only shopkeepers can update order status")
    ensures status in StatusNames && caller.role == "shopkeeper" && (forall i :: 0 <= i < |orders| ==> orders[i].id != id) ==>
              r.0 == Refused(404, "Order not found")
  {
    if status !in StatusNames then (Invalid, orders)
    else if caller.role != "shopkeeper" then (Refused(403, "Only shopkeepers can update order status"), orders)
    else match FindIndex(orders, (o: StoredOrder) => o.id == id)
      case None => (Refused(404, "Order not found"), orders)
      case Some(k) =>
        if orders[k].shopId != caller.shopId then (Refused(403, "Not authorized to update this order"), orders)
        else
          var updated := orders[k].(status := status, updatedAt := now);
          (Served(200, Some("Order status updated successfully"), Some(updated)), orders[k := updated])
  }

  /**
   * A status update by the order's own shopkeeper succeeds for any of the
   * six names, whatever the current status (no forward-only rule), and
   * changes only the status and stamp of the first order with the id.
   */
  lemma UpdateStatusAnyTransition(orders: seq<StoredOrder>, caller: Caller, k: nat, status: string, now: string)
    requires k < |orders| && forall j :: 0 <= j < k ==> orders[j].id != orders[k].id
    requires status in StatusNames && caller.role == "shopkeeper" && orders[k].shopId == caller.shopId
    ensures var r := UpdateStatus(orders, caller, orders[k].id, status, now);
      r.0.Code() == 200 && |r.1| == |orders| &&
      r.1[k] == orders[k].(status := status, updatedAt := now) &&
      forall j :: 0 <= j < |orders| && j != k ==> r.1[j] == orders[j]
  {
    var f := (o: StoredOrder) => o.id == orders[k].id;
    var found := FindIndex(orders, f);
    assert found == Some(k) by {
      assert f(orders[k]);
    }
  }

  /** A shopkeeper of another shop is refused with 403 and nothing changes. */
  lemma UpdateStatusForeignShop(orders: seq<StoredOrder>, caller: Caller, k: nat, status: string, now: string)
    requires k < |orders| && forall j :: 0 <= j < k ==> orders[j].id != orders[k].id
    requires status in StatusNames && caller.role == "shopkeeper" && orders[k].shopId != caller.shopId
    ensures UpdateStatus(orders, caller, orders[k].id, status, now) ==
              (Refused(403, "Not authorized to update this order"), orders)
  {
    var f := (o: StoredOrder) => o.id == orders[k].id;
    assert FindIndex(orders, f) == Some(k) by {
      assert f(orders[k]);
    }
  }

  /** The in-memory `orders` array. */
  class OrderBook {
    var orders: seq<StoredOrder>

    constructor()
      ensures orders == []
    {
      orders := [];
    }

    method List(caller: Caller) returns (r: seq<StoredOrder>)
      ensures r == ListOrders(orders, caller)
    {
      if caller.role == "shopkeeper" {
        r := Filter(orders, (o: StoredOrder) => o.shopId == caller.shopId);
      } else {
        r := Filter(orders, (o: StoredOrder) => o.customerId == caller.id);
      }
    }

    method Get(caller: Caller, id: string) returns (r: Reply<StoredOrder>)
      ensures r == GetOrder(orders, caller, id)
    {
      var order := FindFirst(orders, (o: StoredOrder) => o.id == id);
      if order.None? {
        return Refused(404, "Order not found");
      }
      var o := order.value;
      if caller.role == "customer" && o.customerId != caller.id {
        return Refused(403, "Not authorized");
      }
      if caller.role == "shopkeeper" && o.shopId != caller.shopId {
        return Refused(403, "Not authorized");
      }
      r := Served(200, None, Some(o));
    }

    method Create(caller: Caller, b: OrderBody, emailOk: bool, id: string, now: string) returns (r: Reply<StoredOrder>)
      modifies this
      ensures (r, orders) == CreateOrder(old(orders), caller, b, emailOk, id, now)
    {
      if !CreateBodyValid(b, emailOk) {
        return Invalid;
      }
      if caller.role != "customer" {
        return Refused(403, "Only customers can create orders");
      }
      var order := NewOrder(caller, b, id, now);
      orders := orders + [order];
      r := Served(201, Some("Order created successfully"), Some(order));
    }

    method SetStatus(caller: Caller, id: string, status: string, now: string) returns (r: Reply<StoredOrder>)
      modifies this
      ensures (r, orders) == UpdateStatus(old(orders), caller, id, status, now)
    {
      if status !in StatusNames {
        return Invalid;
      }
      if caller.role != "shopkeeper" {
        return Refused(403, "Only shopkeepers can update order status");
      }
      var orderIndex := FindIndex(orders, (o: StoredOrder) => o.id == id);
      if orderIndex.None? {
        return Refused(404, "Order not found");
      }
      var k := orderIndex.value;
      if orders[k].shopId != caller.shopId {
        return Refused(403, "Not authorized to update this order");
      }
      ghost var before := orders;
      orders := orders[k := orders[k].(status := status)];
      orders := orders[k := orders[k].(updatedAt := now)];
      assert orders == before[k := before[k].(status := status, updatedAt := now)];
      r := Served(200, Some("Order status updated successfully"), Some(orders[k]));
    }
  }
}
