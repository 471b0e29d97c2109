/**
 * The checkout page of src/pages/CheckoutPage.jsx: the shipping-address check, the order totals,
 * the order payload built from the cart, the outcome of placing the order, and the redirects
 * that keep an empty cart or a missing user away from the form.
 *
 * Money is exact: prices and totals are reals, so `cartTotal * 0.1` is exactly a tenth.
 */
module Checkout {
  import opened Wrappers
  import opened Cart
  import Session
  import Text

  const FillShippingDetails := "Please fill in all shipping details"
  const CartIsEmpty := "Your cart is empty"
  const FailedToPlaceOrder := "Failed to place order"
  const CartPath := "/cart"
  const LoginForCheckoutPath := "/login?redirect=/checkout"
  const OrderSuccessPath := "/order-success"
  const OrderPathPrefix := "/order/"
  const ShippingPrice: real := 5.0
  const TaxRate: real := 0.1
  const GuestId := 1
  const GuestName := "Guest"
  const GuestEmail := "guest@example.com"
  const InitialPaymentMethod := "Credit Card"

  datatype ShippingAddress = ShippingAddress(address: string, city: string, postalCode: string, country: string)

  const InitialAddress := ShippingAddress("", "", "", "India")

  predicate AddressComplete(a: ShippingAddress) {
    a.address != "" && a.city != "" && a.postalCode != "" && a.country != ""
  }

  /** Why a submit is refused before any order is sent, if it is. */
  function ValidationError(address: ShippingAddress, cartItems: seq<CartItem>): (e: Option<string>)
    ensures e.None? <==> AddressComplete(address) && |cartItems| > 0
    ensures !AddressComplete(address) ==> e == Some(FillShippingDetails)
    ensures AddressComplete(address) && cartItems == [] ==> e == Some(CartIsEmpty)
  {
    if !AddressComplete(address) then Some(FillShippingDetails)
    else if |cartItems| == 0 then Some(CartIsEmpty)
    else None
  }

  /** The price breakdown, computed the same way for the payload and for the summary on screen. */
  datatype Totals = Totals(itemsPrice: real, shippingPrice: real, taxPrice: real, totalPrice: real)

  function OrderTotals(cartTotal: real): (t: Totals)
    ensures t.itemsPrice == cartTotal && t.shippingPrice == 5.0 && t.taxPrice * 10.0 == cartTotal
    ensures t.totalPrice == t.itemsPrice + t.shippingPrice + t.taxPrice
    ensures t.totalPrice == cartTotal * 1.1 + 5.0
    ensures cartTotal >= 0.0 ==> t.totalPrice >= 5.0 && 0.0 <= t.taxPrice <= t.itemsPrice
  {
    var tax := cartTotal * TaxRate;
    Totals(cartTotal, ShippingPrice, tax, cartTotal + ShippingPrice + tax)
  }

  /** One line of the order as the order service receives it. */
  datatype OrderItem = OrderItem(name: string, quantity: int, image: string, price: real, product: string)

  function ToOrderItem(item: CartItem): OrderItem {
    OrderItem(item.name, item.quantity, item.image, item.price, item.id)
  }

  /** The order lines: one per cart line, in cart order, referring to the product by its id. */
  function OrderItems(items: seq<CartItem>): (r: seq<OrderItem>)
    ensures |r| == |items|
    ensures forall i :: 0 <= i < |items| ==>
              && r[i].product == items[i].id
              && r[i].name == items[i].name
              && r[i].quantity == items[i].quantity
              && r[i].image == items[i].image
              && r[i].price == items[i].price
    decreases |items|
  {
    if items == [] then [] else [ToOrderItem(items[0])] + OrderItems(items[1..])
  }

  /** Building the order lines commutes with splitting the cart: order is preserved. */
  lemma {:induction false} OrderItemsAppend(a: seq<CartItem>, b: seq<CartItem>)
    ensures OrderItems(a + b) == OrderItems(a) + OrderItems(b)
    decreases |a|
  {
    if a == [] {
      assert a + b == b;
    } else {
      assert (a + b)[1..] == a[1..] + b;
      OrderItemsAppend(a[1..], b);
    }
  }

  function ProductRefs(lines: seq<OrderItem>): seq<string>
    decreases |lines|
  {
    if lines == [] then [] else [lines[0].product] + ProductRefs(lines[1..])
  }

  function CartIds(items: seq<CartItem>): seq<string>
    decreases |items|
  {
    if items == [] then [] else [items[0].id] + CartIds(items[1..])
  }

  /** The products the order names are exactly the cart's product ids, in the same order. */
  lemma {:induction false} OrderNamesCartProducts(items: seq<CartItem>)
    ensures ProductRefs(OrderItems(items)) == CartIds(items)
    decreases |items|
  {
    if items != [] {
      OrderNamesCartProducts(items[1..]);
      assert OrderItems(items)[1..] == OrderItems(items[1..]);
    }
  }

  datatype OrderUser = OrderUser(id: int, name: string, email: string)

  /** The user block of the order: the logged-in user's fields, with guest defaults for whatever is missing. */
  function OrderUserOf(user: Option<Session.User>): (u: OrderUser)
    ensures user.None? ==> u == OrderUser(GuestId, GuestName, GuestEmail)
    ensures user.Some? ==>
              && u.id == (if user.value.id != 0 then user.value.id else GuestId)
              && u.name == (if user.value.name != "" then user.value.name else GuestName)
              && u.email == (if user.value.email != "" then user.value.email else GuestEmail)
    ensures u.id != 0 && u.name != "" && u.email != ""
  {
    match user
    case None => OrderUser(GuestId, GuestName, GuestEmail)
    case Some(v) =>
      OrderUser(if v.id != 0 then v.id else GuestId,
                if v.name != "" then v.name else GuestName,
                if v.email != "" then v.email else GuestEmail)
  }

  datatype OrderPayload = OrderPayload(
    user: OrderUser,
    orderItems: seq<OrderItem>,
    shippingAddress: ShippingAddress,
    paymentMethod: string,
    itemsPrice: real,
    shippingPrice: real,
    taxPrice: real,
    totalPrice: real)

  function BuildPayload(user: Option<Session.User>, cartItems: seq<CartItem>, address: ShippingAddress,
                        paymentMethod: string, cartTotal: real): (p: OrderPayload)
    ensures p.user == OrderUserOf(user)
    ensures p.orderItems == OrderItems(cartItems)
    ensures p.shippingAddress == address && p.paymentMethod == paymentMethod
    ensures p.itemsPrice == cartTotal && p.shippingPrice == ShippingPrice
    ensures p.totalPrice == p.itemsPrice + p.shippingPrice + p.taxPrice
    ensures p.totalPrice == OrderTotals(cartTotal).totalPrice
  {
    var t := OrderTotals(cartTotal);
    OrderPayload(OrderUserOf(user), OrderItems(cartItems), address, paymentMethod,
                 t.itemsPrice, t.shippingPrice, t.taxPrice, t.totalPrice)
  }

  /**
   * What the order request produced: a reply body (`orderRef` is `data.order?._id`), or a thrown error.
   */
  datatype OrderReply =
    | OrderReply(success: bool, orderId: Option<string>, orderRef: Option<string>, message: Option<string>)
    | OrderThrown

  /** The order number made up from the clock, `'ORD' + Date.now()`. */
  function ClockOrderId(now: nat): (id: string)
    ensures |id| > 3 && id[..3] == "ORD"
    ensures Text.IsDigits(id[3..]) && Text.DecimalValue(id[3..]) == now
  {
    Text.DecimalRoundTrip(now);
    assert ("ORD" + Text.NatToDecimal(now))[3..] == Text.NatToDecimal(now);
    "ORD" + Text.NatToDecimal(now)
  }

  /** How an order attempt ends: placed (with the id shown and the page visited 3 seconds later) or rejected. */
  datatype Outcome = Placed(orderId: string, redirect: string) | Rejected(message: string)

  /**
   * The outcome of the order request. A thrown request is reported as placed, under an id made up
   * from the clock: the source deliberately fakes success when the service cannot be reached.
   */
  function OrderOutcome(reply: OrderReply, now: nat): (o: Outcome)
    ensures o.Placed? <==> reply.OrderThrown? || reply.success
    ensures reply.OrderThrown? ==> o == Placed(ClockOrderId(now), OrderSuccessPath)
    ensures reply.OrderReply? && reply.success ==>
              && o.orderId == (if Text.Truthy(reply.orderId) then reply.orderId.value
                               else if Text.Truthy(reply.orderRef) then reply.orderRef.value
                               else ClockOrderId(now))
              && o.redirect == OrderPathPrefix + (if Text.Truthy(reply.orderId) then reply.orderId.value
                                                  else Text.Interpolate(reply.orderRef))
    ensures reply.OrderReply? && !reply.success ==>
              o == Rejected(Text.OrElse(reply.message, FailedToPlaceOrder))
    ensures o.Placed? ==> o.orderId != ""
    ensures o.Rejected? ==> o.message != ""
  {
    match reply
    case OrderThrown => Placed(ClockOrderId(now), OrderSuccessPath)
    case OrderReply(ok, orderId, orderRef, message) =>
      if ok then
        var shown := Text.OrElse(orderId, Text.OrElse(orderRef, ClockOrderId(now)));
        var target := if Text.Truthy(orderId) then orderId.value else Text.Interpolate(orderRef);
        Placed(shown, OrderPathPrefix + target)
      else
        Rejected(Text.OrElse(message, FailedToPlaceOrder))
  }

  /**
   * The navigations the page's effect issues, in order: to the cart when it is empty and to the
   * login page when nobody is logged in, both only until the order has been placed.
   */
  function EffectRedirects(cartItemCount: nat, user: Option<Session.User>, success: bool): (r: seq<string>)
    ensures success ==> r == []
    ensures CartPath in r <==> cartItemCount == 0 && !success
    ensures LoginForCheckoutPath in r <==> user.None? && !success
    ensures |r| <= 2
    ensures |r| == 2 ==> r == [CartPath, LoginForCheckoutPath]
  {
    (if cartItemCount == 0 && !success then [CartPath] else [])
    + (if user.None? && !success then [LoginForCheckoutPath] else [])
  }

  /** Which address field an input edits. */
  datatype AddressField = AddressLine | City | PostalCode | Country

  class CheckoutPage {
    var loading: bool
    var error: string
    var success: bool
    var orderId: string
    var shippingAddress: ShippingAddress
    var paymentMethod: string

    constructor ()
      ensures !loading && error == "" && !success && orderId == ""
      ensures shippingAddress == InitialAddress && paymentMethod == InitialPaymentMethod
    {
      loading, error, success, orderId := false, "", false, "";
      shippingAddress := InitialAddress;
      paymentMethod := InitialPaymentMethod;
    }

    /** An edit of one address field. */
    method ChangeAddress(field: AddressField, value: string)
      modifies this`shippingAddress
      ensures field == AddressLine ==> shippingAddress == old(shippingAddress).(address := value)
      ensures field == City ==> shippingAddress == old(shippingAddress).(city := value)
      ensures field == PostalCode ==> shippingAddress == old(shippingAddress).(postalCode := value)
      ensures field == Country ==> shippingAddress == old(shippingAddress).(country := value)
    {
      match field {
        case AddressLine => shippingAddress := shippingAddress.(address := value);
        case City => shippingAddress := shippingAddress.(city := value);
        case PostalCode => shippingAddress := shippingAddress.(postalCode := value);
        case Country => shippingAddress := shippingAddress.(country := value);
      }
    }

    method ChoosePayment(methodName: string)
      modifies this`paymentMethod
      ensures paymentMethod == methodName
    {
      paymentMethod := methodName;
    }

    /** The submit handler up to the order request; `request` is the payload sent, if one is. */
    method BeginSubmit(cartItems: seq<CartItem>, cartTotal: real, user: Option<Session.User>)
      returns (request: Option<OrderPayload>)
      modifies this`loading, this`error
      ensures request.None? <==> ValidationError(shippingAddress, cartItems).Some?
      ensures request.None? ==>
                error == ValidationError(shippingAddress, cartItems).value && loading == old(loading)
      ensures request.Some? ==>
                && loading && error == ""
                && request.value == BuildPayload(user, cartItems, shippingAddress, paymentMethod, cartTotal)
    {
      if !AddressComplete(shippingAddress) {
        error := FillShippingDetails;
        return None;
      }
      if |cartItems| == 0 {
        error := CartIsEmpty;
        return None;
      }
      loading := true;
      error := "";
      request := Some(BuildPayload(user, cartItems, shippingAddress, paymentMethod, cartTotal));
    }

    /**
     * The submit handler once the order request has resolved (or thrown), with the clock reading.
     * `calls` are the requests made of the cart store; `redirect` is the page visited 3 seconds later.
     */
    method CompleteSubmit(reply: OrderReply, now: nat) returns (calls: seq<CartCall>, redirect: Option<string>)
      modifies this`loading, this`error, this`success, this`orderId
      ensures !loading
      ensures OrderOutcome(reply, now).Placed? ==>
                && success && orderId == OrderOutcome(reply, now).orderId && error == old(error)
                && calls == [ClearCart] && redirect == Some(OrderOutcome(reply, now).redirect)
      ensures OrderOutcome(reply, now).Rejected? ==>
                && success == old(success) && orderId == old(orderId)
                && error == OrderOutcome(reply, now).message
                && calls == [] && redirect.None?
    {
      calls, redirect := [], None;
      match reply {
        case OrderReply(ok, replyId, replyRef, message) =>
          if ok {
            success := true;
            orderId := Text.OrElse(replyId, Text.OrElse(replyRef, ClockOrderId(now)));
            calls := calls + [ClearCart];
            var target := if Text.Truthy(replyId) then replyId.value else Text.Interpolate(replyRef);
            redirect := Some(OrderPathPrefix + target);
          } else {
            error := Text.OrElse(message, FailedToPlaceOrder);
          }
        case OrderThrown =>
          success := true;
          orderId := ClockOrderId(now);
          calls := calls + [ClearCart];
          redirect := Some(OrderSuccessPath);
      }
      loading := false;
    }

    /**
     * The whole submit handler. The form is on screen only until an order is placed and its button
     * is disabled while loading, so a submit starts with both flags false.
     */
    method HandleSubmit(cartItems: seq<CartItem>, cartTotal: real, user: Option<Session.User>,
                        reply: OrderReply, now: nat)
      returns (request: Option<OrderPayload>, calls: seq<CartCall>, redirect: Option<string>)
      requires !loading && !success
      modifies this`loading, this`error, this`success, this`orderId
      ensures !loading
      ensures ValidationError(old(shippingAddress), cartItems).Some? ==>
                && request.None? && calls == [] && redirect.None?
                && error == ValidationError(old(shippingAddress), cartItems).value
                && !success && orderId == old(orderId)
      ensures ValidationError(old(shippingAddress), cartItems).None? ==>
                && request == Some(BuildPayload(user, cartItems, shippingAddress, paymentMethod, cartTotal))
                && (success <==> OrderOutcome(reply, now).Placed?)
                && (success ==> calls == [ClearCart] && orderId == OrderOutcome(reply, now).orderId && error == "")
                && (!success ==> calls == [] && orderId == old(orderId) && error == OrderOutcome(reply, now).message)
                && redirect == (if success then Some(OrderOutcome(reply, now).redirect) else None)
    {
      request := BeginSubmit(cartItems, cartTotal, user);
      if request.None? {
        calls, redirect := [], None;
        return;
      }
      calls, redirect := CompleteSubmit(reply, now);
    }
  }
}
