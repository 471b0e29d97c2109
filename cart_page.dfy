/**
 * The cart page of src/pages/CartPage.jsx: the empty-cart panel, the table of lines with their
 * quantity choices and line totals, the order summary, and where Proceed to Checkout goes.
 */
module CartPage {
  import opened Wrappers
  import opened Cart
  import Router
  import Login
  import Checkout
  import Session
  import ProtectedRoute

  const DefaultOptionCount := 10
  const CheckoutPath := "/checkout"
  const LoginPath := "/login"
  const CheckoutRedirectQuery := "?redirect=/checkout"
  const LoginForCheckoutPath := LoginPath + CheckoutRedirectQuery

  /** How many quantities the select offers: the stock count, or 10 when it is 0 or missing. */
  function OptionCount(countInStock: Option<int>): int {
    if countInStock.None? || countInStock.value == 0 then DefaultOptionCount else countInStock.value
  }

  /** The values 1, 2, ..., n in order. */
  function Upto(n: nat): (r: seq<int>)
    ensures |r| == n
    ensures forall i :: 0 <= i < n ==> r[i] == i + 1
    ensures forall v :: v in r <==> 1 <= v <= n
    decreases n
  {
    if n == 0 then [] else Upto(n - 1) + [n]
  }

  /**
   * The quantity options of one line: exactly 1..N in order. A negative stock count makes the
   * page's `Array(n)` throw, so there is then no list.
   */
  function QuantityOptions(countInStock: Option<int>): (r: Option<seq<int>>)
    ensures r.None? <==> OptionCount(countInStock) < 0
    ensures r.Some? ==> |r.value| == OptionCount(countInStock)
    ensures r.Some? ==> forall i :: 0 <= i < |r.value| ==> r.value[i] == i + 1
    ensures r.Some? ==> forall v :: v in r.value <==> 1 <= v <= OptionCount(countInStock)
  {
    var n := OptionCount(countInStock);
    if n < 0 then None
    else
      Some(Upto(n))
  }

  /** What a user can do on one line of the table. */
  datatype LineEvent = Choose(option: nat) | PressRemove

  /** The cart-store call a line event makes; choosing reads the option's value back as an integer. */
  function Handle(item: CartItem, event: LineEvent): (c: Option<CartCall>)
    ensures event.PressRemove? ==> c == Some(RemoveFromCart(item.id))
    ensures event.Choose? ==>
              (c.Some? <==> QuantityOptions(item.countInStock).Some? && event.option < OptionCount(item.countInStock))
    ensures event.Choose? && c.Some? ==>
              && c.value == UpdateQuantity(item.id, event.option + 1)
              && 1 <= c.value.quantity <= OptionCount(item.countInStock)
  {
    match event
    case PressRemove => Some(RemoveFromCart(item.id))
    case Choose(k) =>
      var options := QuantityOptions(item.countInStock);
      if options.Some? && k < |options.value| then Some(UpdateQuantity(item.id, options.value[k])) else None
  }

  function LineTotal(item: CartItem): real {
    item.price * item.quantity as real
  }

  /** One table row. */
  datatype Row = Row(item: CartItem, options: Option<seq<int>>, lineTotal: real)

  function RowsOf(items: seq<CartItem>): (rows: seq<Row>)
    ensures |rows| == |items|
    ensures forall i :: 0 <= i < |items| ==>
              && rows[i].item == items[i]
              && rows[i].options == QuantityOptions(items[i].countInStock)
              && rows[i].lineTotal == items[i].price * items[i].quantity as real
    decreases |items|
  {
    if items == [] then []
    else [Row(items[0], QuantityOptions(items[0].countInStock), LineTotal(items[0]))] + RowsOf(items[1..])
  }

  datatype Summary = Summary(subtotal: real, shipping: real, tax: real, total: real)

  /** The order summary, written out on the page as its own expressions. */
  function SummaryOf(cartTotal: real): (s: Summary)
    ensures s.subtotal == cartTotal && s.shipping == Checkout.ShippingPrice
    ensures s.tax == Checkout.OrderTotals(cartTotal).taxPrice
    ensures s.total == Checkout.OrderTotals(cartTotal).totalPrice
  {
    Summary(cartTotal, 5.0, cartTotal * 0.1, cartTotal + 5.0 + cartTotal * 0.1)
  }

  /**
   * What the page renders: the empty panel, the table with its summary, or nothing at all when a
   * line's `Array(countInStock)` throws while the table is being built.
   */
  datatype CartView = EmptyCart | Table(rows: seq<Row>, summary: Summary) | RenderFailed

  /** A line whose stock count is negative, for which the page cannot build the quantity options. */
  predicate HasUnrenderableLine(cartItems: seq<CartItem>) {
    exists i :: 0 <= i < |cartItems| && QuantityOptions(cartItems[i].countInStock).None?
  }

  /**
   * An empty cart shows only the empty panel; otherwise one row per line and the summary, unless
   * some line's stock count is negative, in which case rendering throws and no table appears.
   */
  function ViewOf(cartItems: seq<CartItem>, cartTotal: real): (v: CartView)
    ensures v.EmptyCart? <==> cartItems == []
    ensures v.RenderFailed? <==> cartItems != [] && exists i :: 0 <= i < |cartItems| && OptionCount(cartItems[i].countInStock) < 0
    ensures v.Table? ==> v.rows == RowsOf(cartItems) && v.summary == SummaryOf(cartTotal)
    ensures v.Table? ==> forall i :: 0 <= i < |v.rows| ==> v.rows[i].options.Some?
  {
    if |cartItems| == 0 then EmptyCart
    else if HasUnrenderableLine(cartItems) then RenderFailed
    else Table(RowsOf(cartItems), SummaryOf(cartTotal))
  }

  /** Proceed to Checkout: a full-page load of the checkout page, or of the login page when not authenticated. */
  function CheckoutDestination(isAuthenticated: bool): (url: string)
    ensures isAuthenticated ==> url == CheckoutPath
    ensures !isAuthenticated ==> url == LoginForCheckoutPath
  {
    if isAuthenticated then CheckoutPath else LoginForCheckoutPath
  }

  /**
   * Behind the route guard the cart page is only rendered for a logged-in user, and there Proceed to
   * Checkout always goes to the checkout page.
   */
  lemma GuardedCartGoesToCheckout<C>(s: Session.State, location: Router.Location, page: C)
    requires ProtectedRoute.Guard(s.loading, s.user, location, page).Render?
    ensures Session.IsAuthenticated(s)
    ensures CheckoutDestination(Session.IsAuthenticated(s)) == CheckoutPath
  {
  }

  /**
   * The login page does not read the `redirect` query: a load of the login link used for an
   * unauthenticated visitor returns, after signing in, to the home page, not to the checkout.
   * Under the route table of src/App.jsx the cart page is guarded, so that link is not followed in
   * practice; this is a statement about the login page's code.
   */
  lemma LoginFromCartReturnsHome()
    ensures Router.Load(CheckoutDestination(false)).pathname == LoginPath
    ensures Router.Load(CheckoutDestination(false)).search == CheckoutRedirectQuery
    ensures Login.ReturnPath(Router.Load(CheckoutDestination(false))) == Login.HomePath
  {
    assert forall i :: 0 <= i < |LoginPath| ==> LoginPath[i] != '?';
    assert CheckoutRedirectQuery[0] == '?';
    Router.SplitJoin(LoginPath, CheckoutRedirectQuery);
  }
}
