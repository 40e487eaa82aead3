/**
 * The shopkeeper's order page (`order-management.tsx`): the linear status
 * flow with its successor rule, the action buttons it shows, the status
 * filter with its per-status counts, and the optimistic status change that
 * is rolled back when the server refuses it.
 */
module OrderManagement {
  import opened Common
  import opened MockData
  import OrdersRoute

  /** `statusFlow`: the forward path of an order; `cancelled` is not on it. */
  const StatusFlow: seq<OrderStatus> := [Pending, Confirmed, Preparing, Ready, Delivered]

  /** `getNextStatus`: the status after the current one on the flow, and `null` off it or at its end. */
  function NextStatus(s: OrderStatus): (r: Option<OrderStatus>)
    ensures r.None? <==> s == Delivered || s == Cancelled
    ensures r.Some? ==> s in StatusFlow && r.value in StatusFlow && IndexOf(StatusFlow, r.value) == IndexOf(StatusFlow, s) + 1
  {
    FlowIndices();
    assert s != Cancelled ==> s == StatusFlow[0] || s == StatusFlow[1] || s == StatusFlow[2] || s == StatusFlow[3] || s == StatusFlow[4];
    if s !in StatusFlow then None
    else
      var i := IndexOf(StatusFlow, s);
      if i == |StatusFlow| - 1 then None else Some(StatusFlow[i + 1])
  }

  /** Where each status sits on the flow. */
  lemma FlowIndices()
    ensures IndexOf(StatusFlow, Pending) == 0 && IndexOf(StatusFlow, Confirmed) == 1 && IndexOf(StatusFlow, Preparing) == 2
    ensures IndexOf(StatusFlow, Ready) == 3 && IndexOf(StatusFlow, Delivered) == 4 && Cancelled !in StatusFlow
  {
    assert StatusFlow[0] == Pending && StatusFlow[1] == Confirmed && StatusFlow[2] == Preparing;
    assert StatusFlow[3] == Ready && StatusFlow[4] == Delivered;
  }

  /** The successor rule spelt out, status by status. */
  lemma NextStatusTable()
    ensures NextStatus(Pending) == Some(Confirmed) && NextStatus(Confirmed) == Some(Preparing)
    ensures NextStatus(Preparing) == Some(Ready) && NextStatus(Ready) == Some(Delivered)
    ensures NextStatus(Delivered).None? && NextStatus(Cancelled).None?
  {
    FlowIndices();
  }

  /** The page's six statuses are exactly the six names the server's status check accepts. */
  lemma StatusesMatchServer(name: string)
    ensures name in OrdersRoute.StatusNames <==> exists s: OrderStatus :: s.Name() == name
  {
    if name in OrdersRoute.StatusNames {
      var i :| 0 <= i < 6 && OrdersRoute.StatusNames[i] == name;
      var all := [Pending, Confirmed, Preparing, Ready, Delivered, Cancelled];
      assert all[i].Name() == name;
    }
  }

  /** The buttons under an order: `advance` when it is set, and the cancel button when `cancel` holds. */
  datatype Actions = Actions(advance: Option<OrderStatus>, cancel: bool)

  /** `nextStatus && order.status !== 'cancelled'` guards both buttons; cancelling needs `pending`. */
  function ActionsFor(s: OrderStatus): (a: Actions)
    ensures a.advance.Some? <==> s != Delivered && s != Cancelled
    ensures a.advance.Some? ==> a.advance == NextStatus(s)
    ensures a.cancel <==> s == Pending
  {
    var next := NextStatus(s);
    if next.Some? && s != Cancelled then Actions(next, s == Pending) else Actions(None, false)
  }

  /**
   * Every button moves an order forward by one step of the flow, or cancels
   * a pending one: no button reopens a cancelled or delivered order, and
   * none leads back to `pending`.
   */
  lemma ButtonsMoveForward(s: OrderStatus, target: OrderStatus)
    requires ActionsFor(s).advance == Some(target) || (ActionsFor(s).cancel && target == Cancelled)
    ensures s != Cancelled && s != Delivered && target != Pending
    ensures target == Cancelled ==> s == Pending
    ensures target != Cancelled ==> IndexOf(StatusFlow, target) == IndexOf(StatusFlow, s) + 1
  {
    NextStatusTable();
  }

  /** `filteredOrders`: everything under `all`, otherwise the orders whose status has the selected name. */
  function FilteredOrders(orders: seq<Order>, selected: string): (r: seq<Order>)
    ensures selected == "all" ==> r == orders
    ensures selected != "all" ==> forall o :: o in r <==> o in orders && o.status.Name() == selected
  {
    if selected == "all" then orders else Filter(orders, (o: Order) => o.status.Name() == selected)
  }

  /**
   * The filter keeps the list's order (filtering two lists one after the
   * other is filtering each) and keeps each shown order as often as the
   * list has it.
   */
  lemma FilteredOrdersInOrder(a: seq<Order>, b: seq<Order>, selected: string, o: Order)
    ensures FilteredOrders(a + b, selected) == FilteredOrders(a, selected) + FilteredOrders(b, selected)
    ensures multiset(FilteredOrders(a, selected))[o] ==
              if selected == "all" || o.status.Name() == selected then multiset(a)[o] else 0
  {
    var f := (x: Order) => x.status.Name() == selected;
    if selected != "all" {
      FilterAppend(a, b, f);
      FilterCount(a, f, o);
    }
  }

  /** The count on a status button: how many orders have that status. */
  function StatusCount(orders: seq<Order>, s: OrderStatus): (n: nat)
    ensures n <= |orders|
  {
    if orders == [] then 0
    else StatusCount(orders[..|orders| - 1], s) + (if orders[|orders| - 1].status == s then 1 else 0)
  }

  /** A status button's count is the length of the list its filter shows. */
  lemma {:induction false} StatusCountIsFiltered(orders: seq<Order>, s: OrderStatus)
    ensures StatusCount(orders, s) == |FilteredOrders(orders, s.Name())|
  {
    StatusNamesDistinct(Pending, s);
    var f := (o: Order) => o.status.Name() == s.Name();
    if orders != [] {
      var init := orders[..|orders| - 1];
      var last := orders[|orders| - 1];
      assert orders == init + [last];
      FilterAppend(init, [last], f);
      StatusNamesDistinct(last.status, s);
      StatusCountIsFiltered(init, s);
    }
  }

  /** The six status buttons together count every order once, as many as the `All` button shows. */
  lemma {:induction false} StatusCountsAddUp(orders: seq<Order>)
    ensures StatusCount(orders, Pending) + StatusCount(orders, Confirmed) + StatusCount(orders, Preparing) +
            StatusCount(orders, Ready) + StatusCount(orders, Delivered) + StatusCount(orders, Cancelled) == |orders|
  {
    if orders != [] {
      StatusCountsAddUp(orders[..|orders| - 1]);
    }
  }

  /** The list the optimistic update shows: the order with the id takes the new status and stamp. */
  function Optimistic(orders: seq<Order>, orderId: string, status: OrderStatus, now: string): (r: seq<Order>)
    ensures |r| == |orders|
    ensures forall i :: 0 <= i < |orders| && orders[i].id == orderId ==> r[i] == orders[i].(status := status, updatedAt := now)
    ensures forall i :: 0 <= i < |orders| && orders[i].id != orderId ==> r[i] == orders[i]
  {
    seq(|orders|, i requires 0 <= i < |orders| =>
      if orders[i].id == orderId then orders[i].(status := status, updatedAt := now) else orders[i])
  }

  /** After the optimistic change the order is listed under its new status, and the others where they were. */
  lemma OptimisticRefilters(orders: seq<Order>, k: nat, status: OrderStatus, now: string)
    requires k < |orders|
    ensures var r := Optimistic(orders, orders[k].id, status, now);
      r[k] in FilteredOrders(r, status.Name()) && r[k].status == status &&
      forall i :: 0 <= i < |orders| && orders[i].id != orders[k].id ==> r[i] == orders[i]
  {
    var r := Optimistic(orders, orders[k].id, status, now);
    assert r[k] in r;
  }

  /** The page's `orders` state. */
  class Board {
    var orders: seq<Order>

    constructor(loaded: seq<Order>)
      ensures orders == loaded
    {
      orders := loaded;
    }

    /** The synchronous part of `updateOrderStatus`: the snapshot is taken, then the list is changed. */
    method BeginUpdate(orderId: string, status: OrderStatus, now: string) returns (snapshot: seq<Order>)
      modifies this
      ensures snapshot == old(orders)
      ensures orders == Optimistic(old(orders), orderId, status, now)
    {
      snapshot := orders;
      orders := Optimistic(orders, orderId, status, now);
    }

    /** The end of `updateOrderStatus`: a refused request restores the snapshot exactly. */
    method SettleUpdate(snapshot: seq<Order>, succeeded: bool)
      modifies this
      ensures succeeded ==> orders == old(orders)
      ensures !succeeded ==> orders == snapshot
    {
      if !succeeded {
        orders := snapshot;
      }
    }
  }
}
