# Storefront session and checkout model

A Dafny model of the client-side logic of a React e-commerce storefront: the session store
(`AuthContext`) with its durable storage and default Authorization header, the HTTP client's
request interceptor, the route guard, the sign-in page, the checkout page's submit handler, the
product page's quantity stepper, and the cart page's rules.

Each network call is replaced by its reply (or the error it threw), passed in as a value, so
every asynchronous handler becomes an ordinary method. Where the source updates state in place
(the session store, the request object, the pages' `useState` variables) the model is a class
whose methods make the same assignments in the same order; the decisions those methods take are
pure functions whose contracts carry the properties, and lemmas relate them across files.

Modules, one per source file, plus four of shared vocabulary:

- `Wrappers` (an `Option` type), `Text` (JavaScript `||` on strings, template interpolation,
  number-to-decimal), `Cart` (the interface of the cart store: its line items and the calls pages
  make of it), `Router` (locations, history state, navigations, and where a navigation lands).
- `Api` (src/utils/api.js), `Session` (src/context/AuthContext.jsx), `ProtectedRoute`
  (src/components/ProtectedRoute.jsx), `Login` (src/pages/LoginPage.jsx), `Checkout`
  (src/pages/CheckoutPage.jsx), `ProductDetail` (src/pages/ProductDetailpage.jsx), `CartPage`
  (src/pages/CartPage.jsx).

Behaviours of the code that the model makes explicit:

- A thrown order request is reported as a placed order with an id made up from the clock, and the
  cart is cleared (`Checkout.OrderOutcome`). The source says this is deliberate, so the model keeps
  it; it does misreport an unreachable order service as success.
- A successful order reply with neither `orderId` nor `order._id` sends the page, three seconds
  later, to `/order/undefined` (`Checkout.OrderOutcome`).
- The sign-in page reads only `state.from.pathname`, so the `?redirect=/checkout` query that the
  cart page and the checkout page put on their login link would be ignored
  (`CartPage.LoginFromCartReturnsHome`). Those branches are unreachable under the route table of
  src/App.jsx, which renders /cart and /checkout only behind the route guard, that is, only for a
  logged-in user (`CartPage.GuardedCartGoesToCheckout`); the lemma is a fact about the sign-in
  page's code, not behaviour a visitor sees. The guard's own redirect does come back, but only
  with the path: the query string is dropped (`Login.RoundTripDropsQuery`).
- A cart line with a negative stock count makes the cart page's `Array(countInStock)` throw while
  rendering, so no table appears (`CartPage.ViewOf`).
- After logout the interceptor finds no token and adds no header (`Session.LogoutStopsAuthorization`).
- Where a failed login or registration reply (not a thrown one) carries no message, the session
  store returns no message; the default "Login failed" is supplied by the sign-in page.

A stored token does not imply a logged-in user: restore leaves the token in place when no cached
user is stored. A thrown order request is reported as a placed order.

Money is exact: prices and totals are `real`, so `cartTotal * 0.1` is exactly a tenth. A field the
server leaves out of a user record reads as `0` or `""`, which JavaScript's `||` treats the same as
a missing value; a product's stock count is an `Option<int>`, because a missing count compares
differently from `0` on the product page.

## Model

| member | source | states |
|---|---|---|
| `Api.AuthorizeHeaders` | src/utils/api.js:8-12 | with a non-empty stored token the Authorization header becomes `Bearer <token>`, overwriting any earlier value; with none the headers are returned as they were; every other header is kept |
| `Api.Request.constructor` | src/utils/api.js:7 | a request object holds the url, verb, headers and body it was made with |
| `Api.Intercept` | src/utils/api.js:7-13 | the interceptor changes only the request's headers, as `AuthorizeHeaders` says, re-reading storage on each request, and returns the same request object |
| `Session.UserInfoJson` | src/context/AuthContext.jsx:62 | the cached user is stored as a non-empty JSON object text |
| `Session.IsAuthenticated` | src/context/AuthContext.jsx:137 | `isAuthenticated` is exactly "a user is set"; under the session invariant a token and a cached user are then stored |
| `Session.Initial` | src/context/AuthContext.jsx:11-12 | the store starts with no user, `loading` true, no default Authorization header, and satisfies the session invariant |
| `Session.AfterRestore` | src/context/AuthContext.jsx:16-44 | `loading` ends false on every path; without both a token and a cached user nothing else changes; a successful profile reply sets the server's user and the header; otherwise both keys are removed, the header deleted (every other default header kept) and the user left as it was; the invariant is kept from the mount state |
| `Session.AfterAuthenticate` | src/context/AuthContext.jsx:83-114 | success exactly when the reply says so, storing token and serialised user, setting `Bearer` header and user, returning the user; any failure changes no state; a failed reply returns its own message; a thrown call returns the server message or the fallback ('Login failed' / 'Registration failed'); the invariant is kept |
| `Session.AfterLogout` | src/context/AuthContext.jsx:116-129 | from any state: no user and not authenticated, both keys removed, the Authorization header deleted and every other default header kept, no stored session left, invariant holds |
| `Session.RunKeepsInvariant` | src/context/AuthContext.jsx:20-125 | every sequence of logins, registrations and logouts keeps "a user implies a stored token, a cached user and the matching default header", and leaves `loading` unchanged |
| `Session.SessionLifetime` | src/context/AuthContext.jsx:11-47 | over any persisted storage, restore followed by any operations keeps the invariant, with `loading` false |
| `Session.ReloadAfterLogin` | src/context/AuthContext.jsx:17-29 | after a successful login with a non-empty token, the next visit's restore makes the profile request and ends as the server's user, or anonymous with the token wiped |
| `Session.LoggedInRequestsCarryToken` | src/context/AuthContext.jsx:94-98 | while logged in, the interceptor's header equals the default header set at login |
| `Session.LogoutStopsAuthorization` | src/context/AuthContext.jsx:118-122 | after logout the interceptor leaves every request's headers untouched |
| `Session.SessionStore.constructor` | src/context/AuthContext.jsx:11-12 | the store object starts in the initial state |
| `Session.SessionStore.ForgetCredential` | src/context/AuthContext.jsx:32-34 | removes `token` and `userInfo` and deletes the default header, nothing else |
| `Session.SessionStore.Establish` | src/context/AuthContext.jsx:94-101 | stores token and serialised user, sets the header, then the user |
| `Session.SessionStore.Restore` | src/context/AuthContext.jsx:16-44 | the profile request is made exactly when both keys are stored and non-empty; the new state is `AfterRestore` of the old one; the invariant holds and `loading` is false |
| `Session.SessionStore.Authenticate` | src/context/AuthContext.jsx:90-113 | the shared success/failure handling of login and register, as `AfterAuthenticate` |
| `Session.SessionStore.Login` | src/context/AuthContext.jsx:83-114 | the new state and result are `AfterAuthenticate` with 'Login failed'; the invariant is kept |
| `Session.SessionStore.Register` | src/context/AuthContext.jsx:49-81 | the new state and result are `AfterAuthenticate` with 'Registration failed'; the invariant is kept |
| `Session.SessionStore.Logout` | src/context/AuthContext.jsx:116-129 | the new state is `AfterLogout` of the old one and the page is sent to '/' |
| `ProtectedRoute.Guard` | src/components/ProtectedRoute.jsx:5-27 | spinner exactly while loading, whatever the user; once loaded, a replacing redirect to /login carrying the attempted location as `from` exactly when there is no user; otherwise the children unchanged |
| `Login.ReturnPath` | src/pages/LoginPage.jsx:19 | the post-login target is `state.from.pathname` when present and non-empty, else '/' |
| `Login.RedirectRoundTrip` | src/components/ProtectedRoute.jsx:21-24 | the guard's redirect lands on /login, and the path it stores is the path the login page returns to |
| `Login.RoundTripDropsQuery` | src/pages/LoginPage.jsx:19 | the return navigation restores the attempted path but not its query string or state |
| `Login.LoginPage.constructor` | src/pages/LoginPage.jsx:7-12 | empty fields, no error, not loading |
| `Login.LoginPage.Change` | src/pages/LoginPage.jsx:28-33 | an input edits its own field only |
| `Login.LoginPage.LoggedInEffect` | src/pages/LoginPage.jsx:22-26 | a replacing navigation to the target exactly when a user is present |
| `Login.LoginPage.BeginAttempt` | src/pages/LoginPage.jsx:38-44 | an empty email or password sets 'Please fill in all fields' and stops before login; otherwise `loading` is true and the error cleared while login runs |
| `Login.LoginPage.FinishAttempt` | src/pages/LoginPage.jsx:46-55 | failure sets the result's message or 'Login failed' and does not navigate; success navigates to the target with `replace`; `loading` ends false |
| `Login.LoginPage.HandleSubmit` | src/pages/LoginPage.jsx:35-56 | the whole handler against the session store, changing only the page's error and loading flag besides the store: invalid fields leave the store untouched; otherwise the store changes as its login says and the page's error and navigation follow the result |
| `ProductDetail.Cap` | src/pages/ProductDetailpage.jsx:157-172 | an upper bound on the quantity the buttons reach: max(1, countInStock), and 1 whenever the stepper is hidden (count missing, zero or negative) |
| `ProductDetail.PlusesReachCap` | src/pages/ProductDetailpage.jsx:170-172 | from any quantity in 1..cap, pressing plus until the cap ends exactly at the cap |
| `ProductDetail.PlusReachesCap` | src/pages/ProductDetailpage.jsx:16-172 | the cap is attained: from the initial 1, `Cap - 1` presses of plus reach it, so it is the highest quantity the buttons reach |
| `ProductDetail.Decremented` | src/pages/ProductDetailpage.jsx:163 | `Math.max(1, q - 1)`: never below 1, one less above 1 |
| `ProductDetail.Click` | src/pages/ProductDetailpage.jsx:157-175 | a hidden stepper (`StepperShown`: countInStock > 0) does nothing; minus is disabled at q ≤ 1 (`DecrementDisabled`), plus at q ≥ countInStock (`IncrementDisabled`); an enabled minus steps down by one, an enabled plus up by one; a click from within 1..cap stays within it |
| `ProductDetail.ClicksStayInRange` | src/pages/ProductDetailpage.jsx:157-175 | any sequence of clicks from a quantity in 1..max(1, countInStock) stays there |
| `ProductDetail.ViewOf` | src/pages/ProductDetailpage.jsx:51-73 | spinner while loading; else the not-found panel (with the error or the default text) when there is an error or no product; else the detail view of that product |
| `ProductDetail.ProductDetailPage.constructor` | src/pages/ProductDetailpage.jsx:13-16 | no product, loading, no error, quantity 1 |
| `ProductDetail.ProductDetailPage.Fetch` | src/pages/ProductDetailpage.jsx:22-42 | requests `/products/<id>`; a successful reply sets the product, a failed one 'Product not found', a thrown one 'Failed to load product'; `loading` ends false |
| `ProductDetail.ProductDetailPage.Press` | src/pages/ProductDetailpage.jsx:161-175 | a stepper click in the detail view updates the quantity as `Click`; the quantity stays within its cap |
| `ProductDetail.ProductDetailPage.AddToCartHandler` | src/pages/ProductDetailpage.jsx:44-49 | asks the cart store to add the product with the current quantity exactly when a product is loaded; that quantity is within 1..cap |
| `ProductDetail.ProductDetailPage.PressPurchase` | src/pages/ProductDetailpage.jsx:183-203 | Add to Cart and Buy Now act only in the detail view and not when countInStock is exactly 0 (`PurchaseDisabled`); Add to Cart then calls the add handler with the current quantity; Buy Now goes to /checkout |
| `Checkout.ValidationError` | src/pages/CheckoutPage.jsx:47-56 | refused exactly when an address field is empty ('Please fill in all shipping details', checked first) or the cart is empty ('Your cart is empty') |
| `Checkout.OrderTotals` | src/pages/CheckoutPage.jsx:62-65 | shipping 5, tax a tenth of the subtotal, total their sum, i.e. 1.1 × subtotal + 5; the same function gives the on-screen totals of lines 124-126 |
| `Checkout.OrderItems` | src/pages/CheckoutPage.jsx:73-79 | one order line per cart line, in order, with name, quantity, image, price and `product` = the cart line's id |
| `Checkout.OrderItemsAppend` | src/pages/CheckoutPage.jsx:73-79 | the order lines of a concatenated cart are the concatenated order lines |
| `Checkout.OrderNamesCartProducts` | src/pages/CheckoutPage.jsx:73-79 | the products the order names are exactly the cart's ids in order |
| `Checkout.OrderUserOf` | src/pages/CheckoutPage.jsx:68-72 | the user's id, name and email, with 1, 'Guest' and 'guest@example.com' for any that is missing or when there is no user |
| `Checkout.BuildPayload` | src/pages/CheckoutPage.jsx:67-86 | the payload carries that user block, those order lines, the address and payment method as entered, and the price breakdown of `OrderTotals` |
| `Checkout.ClockOrderId` | src/pages/CheckoutPage.jsx:112 | the made-up order id is 'ORD' followed by digits that denote the clock reading |
| `Checkout.OrderOutcome` | src/pages/CheckoutPage.jsx:95-117 | placed exactly when the reply succeeds or the call throws; the id is `orderId`, else `order._id`, else 'ORD'+clock, never empty; a thrown call is placed under a clock id and goes to /order-success; a failed reply is rejected with its message or 'Failed to place order' |
| `Checkout.EffectRedirects` | src/pages/CheckoutPage.jsx:27-35 | /cart when the cart is empty and /login?redirect=/checkout when there is no user, in that order, and neither once the order is placed |
| `Checkout.CheckoutPage.constructor` | src/pages/CheckoutPage.jsx:13-25 | not loading, no error, not placed, empty address with country 'India', payment 'Credit Card' |
| `Checkout.CheckoutPage.ChangeAddress` | src/pages/CheckoutPage.jsx:37-42 | an input edits its own address field only |
| `Checkout.CheckoutPage.ChoosePayment` | src/pages/CheckoutPage.jsx:230 | a radio button sets the payment method |
| `Checkout.CheckoutPage.BeginSubmit` | src/pages/CheckoutPage.jsx:44-91 | a refused submit sets the validation message and sends nothing; otherwise `loading` is true, the error cleared and the payload of `BuildPayload` sent |
| `Checkout.CheckoutPage.CompleteSubmit` | src/pages/CheckoutPage.jsx:95-120 | a placed outcome sets `success` and the order id, clears the cart and schedules its redirect; a rejected one sets the error only; `loading` ends false |
| `Checkout.CheckoutPage.HandleSubmit` | src/pages/CheckoutPage.jsx:44-121 | a refused submit sets the validation message, makes no order call, does not clear the cart and leaves `success` and the order id; otherwise the payload of `BuildPayload` is sent, and `success`, the order id, the cart clearing and the 3-second redirect happen exactly on a placed outcome, while a rejection sets the error and leaves the order id |
| `CartPage.Upto` | src/pages/CartPage.jsx:72-76 | the list 1, 2, ..., n in order, containing exactly the values 1..n |
| `CartPage.QuantityOptions` | src/pages/CartPage.jsx:72-76 | exactly 1..N in order, N = countInStock, or 10 when it is 0 or missing; no list when the count is negative |
| `CartPage.Handle` | src/pages/CartPage.jsx:66-87 | choosing an option asks for `updateQuantity(id, value)` with a value in 1..N; the ✕ button asks for `removeFromCart(id)` |
| `CartPage.RowsOf` | src/pages/CartPage.jsx:49-90 | one row per cart line, in order, with its options and line total price × quantity |
| `CartPage.SummaryOf` | src/pages/CartPage.jsx:109-126 | the summary's tax and total (cartTotal + 5 + cartTotal × 0.1) equal the checkout page's |
| `CartPage.ViewOf` | src/pages/CartPage.jsx:19-90 | an empty cart renders only the empty panel; a line with a negative stock count makes rendering throw; otherwise the rows, every one with its option list, and the summary |
| `CartPage.CheckoutDestination` | src/pages/CartPage.jsx:11-17 | '/checkout' when authenticated, else '/login?redirect=/checkout' |
| `CartPage.GuardedCartGoesToCheckout` | src/pages/CartPage.jsx:9-13 | whenever the route guard renders the page, `Session.IsAuthenticated` holds and Proceed to Checkout goes to '/checkout' |
| `CartPage.LoginFromCartReturnsHome` | src/pages/CartPage.jsx:15 | that login link lands on /login with the query `?redirect=/checkout`, and the login page's code then returns to '/' (a branch the guarded route never takes) |
| `Text.NatToDecimal` | src/pages/CheckoutPage.jsx:112 | the clock reading as a non-empty string of decimal digits |
| `Text.DecimalRoundTrip` | src/pages/CheckoutPage.jsx:112 | the digits written for a number denote that number |

## Left out

- The cart store (src/context/CartContext.jsx) is not part of this model: the pages receive its line items and total as inputs and their requests of it are returned as `Cart.CartCall` values.
- HTTP transport and axios itself: replies are inputs; the base URL and how axios merges its default headers into a request are not modelled.
- The credentials given to login and register travel only in the request, whose reply is the input, so `Session.SessionStore.Login` and `Register` take only the reply.
- `Session.UserInfoJson` stands in for `JSON.stringify`: it does not escape quotes, and only its being non-empty is relied on.
- `Session.SessionStore.Restore` requires that no user is set: the source runs it once, when the store mounts.
- `ProductDetail.ProductDetailPage.Fetch` requires that no product is loaded: the fetch on a later change of product id, and the quantity not being reset then, are not modelled.
- `Login.LoginPage.HandleSubmit` and `Checkout.CheckoutPage.HandleSubmit` require the page not to be loading (the submit button is disabled then), and the checkout not to be placed (the form is replaced by the success panel).
- Asynchronous interleaving (a login finishing while restore is in flight, a page unmounted mid-request) and React's re-render and effect scheduling.
- Floating point: money is exact; `toFixed(2)` formatting and the double rounding of `× 0.1` are not modelled.
- Effects are recorded, not performed: `navigate`, `window.location.href`, the 3-second `setTimeout`, `alert`, `console` and `window.print`; `Date.now()` is a parameter.
- The success panel's "Total Paid", recomputed from the cart total after the cart is cleared, depends on the cart store and is not modelled.
- The route table (src/App.jsx), RegisterPage, HomePage, ProductListPage, ProfilePage, OrderSuccessPage, NotFoundPage, Header and Footer: routing depends on React Router's matching, and the rest only render.
- URL parsing in `Router` splits at the first '?' only; fragments and encoding are not modelled.
