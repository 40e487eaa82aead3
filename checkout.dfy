/**
 * The checkout page (`checkout.tsx`): the form is validated, its errors are
 * mapped to their fields, the order request is built from the cart, and the
 * cart is cleared only once the server has accepted the order. The request
 * is the body the server's order route receives, so the total the server
 * computes can be compared with the one the page shows.
 */
module Checkout {
  import opened Common
  import opened CartStore
  import Validation
  import OrdersRoute
  import Backend

  /** `errorMap[err.field] = err.message` for each error in turn. */
  function ErrorMap(errors: seq<Validation.ValidationError>): (m: map<string, string>)
    ensures m.Keys == set e | e in errors :: e.field
  {
    if errors == [] then map[]
    else
      var last := errors[|errors| - 1];
      assert errors == errors[..|errors| - 1] + [last];
      ErrorMap(errors[..|errors| - 1])[last.field := last.message]
  }

  /** A field's message is that of its last error. */
  lemma {:induction false} ErrorMapLastWins(errors: seq<Validation.ValidationError>, i: nat)
    requires i < |errors| && forall j :: i < j < |errors| ==> errors[j].field != errors[i].field
    ensures errors[i].field in ErrorMap(errors) && ErrorMap(errors)[errors[i].field] == errors[i].message
    decreases |errors|
  {
    if i < |errors| - 1 {
      var init := errors[..|errors| - 1];
      assert init[i] == errors[i];
      ErrorMapLastWins(init, i);
    }
  }

  /** The request line of a cart entry. */
  function LineOf(item: CartItem): (l: OrdersRoute.OrderLine)
    ensures l.productId == item.productId && l.productName == item.productName
    ensures l.quantity == item.quantity && l.price == item.price
  {
    OrdersRoute.OrderLine(item.productId, item.productName, item.quantity, item.price)
  }

  /** `cart.map(...)`: one line per entry, in cart order. */
  function Lines(cart: seq<CartItem>): (r: seq<OrdersRoute.OrderLine>)
    ensures |r| == |cart| && forall i :: 0 <= i < |cart| ==> r[i] == LineOf(cart[i])
  {
    seq(|cart|, i requires 0 <= i < |cart| => LineOf(cart[i]))
  }

  /** The order request, or the `Cart is empty` error thrown before any request. */
  datatype Request = Request(body: OrdersRoute.OrderBody) | CartEmpty

  /** The order request of `handleSubmit`: the shop of the first entry stands for the whole cart. */
  function BuildRequest(cart: seq<CartItem>, form: Validation.CheckoutForm, paymentMethod: string): (r: Request)
    ensures r.CartEmpty? <==> cart == []
    ensures r.Request? ==> r.body.items == Lines(cart) &&
                           r.body.shopId == Some(cart[0].shopId) && r.body.shopName == Some(cart[0].shopName)
    ensures r.Request? ==> r.body.customerName == form.name && r.body.customerEmail == form.email &&
                           r.body.customerPhone == form.phone && r.body.customerAddress == form.address &&
                           r.body.customerCity == form.city && r.body.customerPincode == form.pincode &&
                           r.body.paymentMethod == Some(paymentMethod)
  {
    if cart == [] then CartEmpty
    else
      Request(OrdersRoute.OrderBody(
        Lines(cart), form.name, form.email, form.phone, form.address, form.city, form.pincode,
        Some(cart[0].shopId), Some(cart[0].shopName), Some(paymentMethod)))
  }

  /** The server's total of the request lines is the cart total the page shows. */
  lemma {:induction false} LinesTotalIsCartTotal(cart: seq<CartItem>)
    ensures OrdersRoute.LinesTotal(Lines(cart)) == CartTotal(cart)
    decreases |cart|
  {
    if cart != [] {
      var init := cart[..|cart| - 1];
      var last := cart[|cart| - 1];
      assert cart == init + [last];
      assert Lines(cart)[..|cart| - 1] == Lines(init);
      LinesTotalIsCartTotal(init);
      TotalAppend(init, [last]);
      assert CartTotal([last]) == last.price * last.quantity;
    }
  }

  /**
   * When the server accepts the request of a non-empty cart, the stored
   * order carries the cart's lines and exactly the total the page showed.
   */
  lemma PlacedOrderTotalMatchesCart(orders: seq<OrdersRoute.StoredOrder>, caller: Backend.Caller, cart: seq<CartItem>,
                                    form: Validation.CheckoutForm, paymentMethod: string, emailOk: bool, id: string, now: string)
    requires cart != []
    ensures var b := BuildRequest(cart, form, paymentMethod).body;
      var r := OrdersRoute.CreateOrder(orders, caller, b, emailOk, id, now);
      r.0.Code() == 201 ==> r.0.value.Some? && r.0.value.value.total == CartTotal(cart) && r.0.value.value.items == Lines(cart)
  {
    var b := BuildRequest(cart, form, paymentMethod).body;
    OrdersRoute.CreateOrderAppends(orders, caller, b, emailOk, id, now);
    LinesTotalIsCartTotal(cart);
  }

  /** How a submission ended. */
  datatype Outcome = FormErrors(fields: map<string, string>) | Failed(message: string) | Placed

  /** The toast of a failed order: the error's message, or the fallback for an empty one. */
  function FailureMessage(message: string): (m: string)
    ensures message != "" ==> m == message
    ensures message == "" ==> m == "Failed to place order. Please try again."
  {
    if message != "" then message else "Failed to place order. Please try again."
  }

  /** Which screen the page shows: the empty-cart notice, the confirmation, or the form. */
  datatype Screen = EmptyNotice | Confirmation | Form

  function ScreenFor(cartLength: nat, orderPlaced: bool): (s: Screen)
    ensures s == Confirmation <==> orderPlaced
    ensures s == EmptyNotice <==> cartLength == 0 && !orderPlaced
  {
    if cartLength == 0 && !orderPlaced then EmptyNotice
    else if orderPlaced then Confirmation
    else Form
  }

  /** The page's state, over the cart store it reads and clears. */
  class Page {
    const store: Store
    var orderPlaced: bool
    var isPlacingOrder: bool
    var errors: map<string, string>

    constructor(store: Store)
      ensures this.store == store && !orderPlaced && !isPlacingOrder && errors == map[]
    {
      this.store := store;
      orderPlaced := false;
      isPlacingOrder := false;
      errors := map[];
    }

    /**
     * `handleSubmit` once the form has been validated into
     * `validationErrors`; `reply` is how `ordersAPI.create` answers the
     * request in `sent` (`None` for success, otherwise the error's message).
     * Errors or an empty cart send nothing.
     */
    method Submit(validationErrors: seq<Validation.ValidationError>, form: Validation.CheckoutForm, paymentMethod: string,
                  reply: Option<string>)
      returns (sent: Option<OrdersRoute.OrderBody>, outcome: Outcome)
      modifies this, store
      ensures validationErrors != [] ==> sent.None? && outcome == FormErrors(ErrorMap(validationErrors)) && errors == outcome.fields
      ensures validationErrors == [] ==> errors == map[]
      ensures validationErrors == [] && old(store.cart) == [] ==> sent.None? && outcome == Failed("Cart is empty")
      ensures validationErrors == [] && old(store.cart) != [] ==>
                sent == Some(BuildRequest(old(store.cart), form, paymentMethod).body) &&
                outcome == (if reply.None? then Placed else Failed(FailureMessage(reply.value)))
      ensures orderPlaced == (old(orderPlaced) || outcome == Placed)
      ensures outcome == Placed ==> store.cart == [] && store.Persisted()
      ensures outcome != Placed ==> store.cart == old(store.cart) && store.saved == old(store.saved)
      ensures validationErrors != [] ==> isPlacingOrder == old(isPlacingOrder)
      ensures validationErrors == [] ==> !isPlacingOrder
    {
      errors := map[];
      if |validationErrors| > 0 {
        errors := ErrorMap(validationErrors);
        return None, FormErrors(errors);
      }
      isPlacingOrder := true;
      var request := BuildRequest(store.cart, form, paymentMethod);
      if request.CartEmpty? {
        isPlacingOrder := false;
        return None, Failed("Cart is empty");
      }
      sent := Some(request.body);
      if reply.Some? {
        outcome := Failed(FailureMessage(reply.value));
      } else {
        orderPlaced := true;
        store.ClearCart();
        outcome := Placed;
      }
      isPlacingOrder := false;
    }

    /** `handleSubmit`: `validateCheckoutForm`, then the rest. */
    method HandleSubmit(form: Validation.CheckoutForm, paymentMethod: string, reply: Option<string>)
      returns (validationErrors: seq<Validation.ValidationError>, sent: Option<OrdersRoute.OrderBody>, outcome: Outcome)
      modifies this, store
      ensures validationErrors == Validation.Collect(Validation.CheckoutChecks(form))
      ensures validationErrors != [] ==> sent.None? && outcome == FormErrors(ErrorMap(validationErrors)) && errors == outcome.fields
      ensures validationErrors == [] && old(store.cart) == [] ==> sent.None? && outcome == Failed("Cart is empty")
      ensures validationErrors == [] && old(store.cart) != [] ==>
                sent == Some(BuildRequest(old(store.cart), form, paymentMethod).body) &&
                outcome == (if reply.None? then Placed else Failed(FailureMessage(reply.value)))
      ensures orderPlaced == (old(orderPlaced) || outcome == Placed)
      ensures outcome == Placed ==> store.cart == [] && store.Persisted()
      ensures outcome != Placed ==> store.cart == old(store.cart) && store.saved == old(store.saved)
    {
      validationErrors := Validation.ValidateCheckoutForm(form);
      sent, outcome := Submit(validationErrors, form, paymentMethod, reply);
    }
  }
}
