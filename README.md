# TrainFood core, modelled in Dafny

TrainFood lets train passengers order food from restaurants near the stations
on their route. This project models the parts of its Express backend and
React frontend that carry real logic:

- **Cart** (`cart.dfy`, module `CartController`): each user has one cart.
  A cart is a list of lines `{product, quantity, priceCents}`. The model
  covers adding, reading (pruning deleted products and recomputing the
  total), updating, removing and clearing. `CartStore` is a class whose
  `carts` map the methods update in place. Reading, updating, removing and
  clearing keep every cart at one line per product. The catalog lookup
  casts the id to an ObjectId, which also accepts upper-case hex, but a line
  is matched on the id as given. So adding an id in the stored spelling
  always keeps one line per product, and another spelling keeps it only
  when that product is not in the cart yet: another spelling of an id
  already in the cart adds a second line
  (`CartController.OtherSpellingDuplicatesLine`).
- **Checkout page** (`checkout.dfy`, module `Checkout`):
  - the delivery-details check for each delivery type (train, station,
    home);
  - the delivery fee, the `FIRST10` coupon, and the 5% tax;
  - the subtotal loop, proved against a recursive definition;
  - the item list posted with the order.
- **Payments** (`payment.dfy`, module `PaymentController`):
  - the Stripe webhook that marks orders `paid` or `cancelled`;
  - the guards of `createPaymentIntent` and the amount it charges;
  - the line items of a hosted checkout session.

  `OrderStore` holds the orders in store order, so "the order that
  `findOneAndUpdate` picks" is the first match.
- **Products** (`product.dfy`, module `ProductController`):
  - the field whitelist `pick`, as a loop proved against a map
    comprehension;
  - the name and price checks of `create` and `update`;
  - the filter and skip arithmetic of `list`, over JavaScript numbers
    (NaN and the infinities included);
  - the 404 paths of `update` and `remove`.
- **Auth gates** (`auth.dfy`, module `AuthMiddleware`): the `Bearer` header
  check and token extraction of `protect`, and the role gates `isAdmin` and
  `isAdminOrSeller`.
- **Product list page** (`productlist.dfy`, module `ProductList`): the
  reducer that inserts a product announced over the realtime channel, and
  the query the page sends. A lemma ties that query to the backend filter
  of `list`.

`common.dfy` (module `Common`) holds the shared pieces: an `Option` type,
the HTTP status codes, and a small model of JavaScript values, with
truthiness, `Number(v)` and `Math.round`.

Foreign calls are parameters:

- the catalog lookup in the cart controller, and the ObjectId cast of an
  id (`cast`), which gives the id a document is stored under. The cart's
  catalog lookup and new lines, `findByIdAndUpdate` and `findByIdAndDelete`
  of the product controller, and `Order.findById` of `createPaymentIntent`
  and `createCheckoutSession` all look documents up under the cast id. The
  webhook's `findByIdAndUpdate` gets the id `order._id.toString()` wrote
  into the session metadata, which is already in the stored spelling, so
  it matches that id as given;
- JWT verification and the user lookup;
- the verified Stripe event, Stripe's answers (intent id, session), and
  whether Stripe is configured;
- the clock reading stored in `paidAt`;
- the parse of a numeric string, as a `toNum` oracle.

Some behaviours of the code that a reader might not expect:

- Re-adding a product already in the cart raises the quantity of its line
  and keeps the price taken when the line was created. The catalog price is
  not taken again (`CartController.AddItemExisting`).
- The controller recomputes `totalCents` only in `getCart` and `clearCart`.
  `addToCart`, `updateCartItem` and `removeCartItem` do not recompute it, so
  the model leaves the stored total as it was
  (`CartController.CartStore.AddToCart`). A save hook of the Cart schema, if
  there is one, is not part of this model.
- The quantity guard of `addToCart` is `!quantity`. It refuses a missing
  quantity or 0, and lets a negative quantity through.
- The checkout page works in major currency units. Item and option prices
  are divided by 100, and the delivery fees 30, 40 and 20 and the coupon cap
  of 10 are major units.

## Model

| member | source | states |
|---|---|---|
| CartController.FirstIndex | TF/trainfoodbackend/src/controllers/cartController.js:26 | no index exactly when no line holds the product; otherwise the first line that does |
| CartController.SetQuantity | TF/trainfoodbackend/src/controllers/cartController.js:84-86 | only the first line of the product (the one `find` returns) gets the new quantity, keeping its price; every other line, later lines of the same product included, and the length are unchanged |
| CartController.AddItemExisting | TF/trainfoodbackend/src/controllers/cartController.js:26-29 | re-adding raises that line's quantity by the amount, keeps its original priceCents, and changes no other line |
| CartController.AddItemNew | TF/trainfoodbackend/src/controllers/cartController.js:30-36 | adding an absent product appends exactly one line with the catalog price |
| CartController.AddItemKeepsUnique | TF/trainfoodbackend/src/controllers/cartController.js:25-36 | in a cart with one line per product, adding keeps it so exactly when the request's id matches a line or the cast id is not in the cart yet; an id in stored spelling always does |
| CartController.OtherSpellingDuplicatesLine | TF/trainfoodbackend/src/controllers/cartController.js:15-35 | adding under another spelling of an id already in the cart appends a second line for that product |
| CartController.WithoutProductMembers | TF/trainfoodbackend/src/controllers/cartController.js:105 | the filter keeps exactly the lines of other products and leaves none for the removed one |
| CartController.WithoutAbsent | TF/trainfoodbackend/src/controllers/cartController.js:105 | removing a product that is not in the cart changes nothing |
| CartController.WithoutIdempotent | TF/trainfoodbackend/src/controllers/cartController.js:105 | removing twice is the same as removing once |
| CartController.WithoutUnique | TF/trainfoodbackend/src/controllers/cartController.js:105 | with one line per product, the filter cuts out exactly that line and keeps the others in order |
| CartController.TotalAppend | TF/trainfoodbackend/src/controllers/cartController.js:58 | the Σ priceCents × quantity of two joined lists is the sum of their totals |
| CartController.TotalWithout | TF/trainfoodbackend/src/controllers/cartController.js:83 | removing a product lowers the cart sum by exactly that line's price × quantity |
| CartController.WithoutKeepsUnique | TF/trainfoodbackend/src/controllers/cartController.js:83 | the filter keeps the one-line-per-product invariant |
| CartController.ResolvableMembers | TF/trainfoodbackend/src/controllers/cartController.js:55 | pruning keeps exactly the lines whose product still exists |
| CartController.ResolvableKeepsUnique | TF/trainfoodbackend/src/controllers/cartController.js:55 | pruning keeps the one-line-per-product invariant |
| CartController.ResolvableAllPresent | TF/trainfoodbackend/src/controllers/cartController.js:55 | pruning a cart whose products all exist changes nothing |
| CartController.CartStore.AddToCart | TF/trainfoodbackend/src/controllers/cartController.js:6-39 | 400 exactly when the id is missing or the quantity is missing or 0; 404 exactly when the cast id is not in the catalog; both leave every cart unchanged; otherwise the user's lines become the merged list, matched on the id as given and appending the cast id, and the stored total is unchanged (a new cart gets 0). From a valid store, the store stays valid exactly when the id matches a line or the cast id is not in the cart |
| CartController.CartStore.GetCart | TF/trainfoodbackend/src/controllers/cartController.js:47-63 | no cart gives empty items and total 0; otherwise the deleted products' lines are dropped, the total is Σ price × quantity of the rest, and that cart is stored |
| CartController.CartStore.UpdateCartItem | TF/trainfoodbackend/src/controllers/cartController.js:70-89 | 404 exactly when there is no cart or no line for the product, with nothing changed; a quantity ≤ 0 removes the product's lines; a positive one overwrites only that line's quantity |
| CartController.CartStore.RemoveCartItem | TF/trainfoodbackend/src/controllers/cartController.js:97-108 | 404 exactly when there is no cart; otherwise every line of the product is filtered out and nothing else changes |
| CartController.CartStore.ClearCart | TF/trainfoodbackend/src/controllers/cartController.js:115-125 | 404 exactly when there is no cart; otherwise the cart has no items and total 0 |
| Checkout.ValidateDeliveryInfo | TF/trainfoodfrontend/src/components/Checkout.jsx:99-125 | accepted exactly when every field required by the delivery type is non-empty; an empty contact field always gives the contact message; otherwise the message of the failing type |
| Checkout.OtherTypesNeedOnlyContact | TF/trainfoodfrontend/src/components/Checkout.jsx:107-124 | a delivery type other than train, station or home passes exactly when the contact name and phone are given |
| Checkout.DeliveryFee | TF/trainfoodfrontend/src/components/Checkout.jsx:62-63 | 30 exactly for train, 40 exactly for home, 20 exactly for every other type |
| Checkout.Discount | TF/trainfoodfrontend/src/components/Checkout.jsx:65-68 | 0 unless the code is exactly FIRST10; then at most 10, at most a tenth of the subtotal, and equal to one of them |
| Checkout.ComputeTotals | TF/trainfoodfrontend/src/components/Checkout.jsx:70-71 | tax is a twentieth of the discounted subtotal; final is the discounted subtotal × 21/20 plus the delivery fee |
| Checkout.CouponBounds | TF/trainfoodfrontend/src/components/Checkout.jsx:65-71 | for a non-negative subtotal, FIRST10 never raises the final amount and the final amount is never below the delivery fee |
| Checkout.OptionsAmountNonNegative | TF/trainfoodfrontend/src/components/Checkout.jsx:53-58 | non-negative option prices add up to a non-negative amount |
| Checkout.SubtotalNonNegative | TF/trainfoodfrontend/src/components/Checkout.jsx:48-60 | non-negative prices, quantities and option prices give a non-negative subtotal |
| Checkout.CalculateSubtotal | TF/trainfoodfrontend/src/components/Checkout.jsx:46-60 | the nested loops compute Σ price/100 × quantity plus each truthy option price once per item |
| Checkout.CalculateTotals | TF/trainfoodfrontend/src/components/Checkout.jsx:45-80 | the summary equals the totals formula applied to that subtotal, coupon and delivery type |
| Checkout.ToOrderItem | TF/trainfoodfrontend/src/components/Checkout.jsx:141-146 | product id and qty come from the cart item; the note defaults to '' and the options to [] |
| Checkout.ToOrderItems | TF/trainfoodfrontend/src/components/Checkout.jsx:141-146 | one order item per cart item, in the same order |
| PaymentController.FirstWithIntent | TF/trainfoodbackend/src/controllers/paymentController.js:210-214 | no index exactly when no order carries the intent id; otherwise the first order that does |
| PaymentController.IndexOfId | TF/trainfoodbackend/src/controllers/paymentController.js:237 | no index exactly when no order has the id; otherwise the first order that does |
| PaymentController.FailureReason | TF/trainfoodbackend/src/controllers/paymentController.js:228 | the error message when there is a non-empty one, otherwise 'payment_failed'; never the empty string |
| PaymentController.ApplyEvent | TF/trainfoodbackend/src/controllers/paymentController.js:204-246 | an event keeps the number of orders and every order's id, owner, items, total and intent id, and changes at most one order |
| PaymentController.SucceededMarksPaid | TF/trainfoodbackend/src/controllers/paymentController.js:205-221 | `payment_intent.succeeded` makes the matching order paid at the given time, leaves the others alone, and does nothing without a match |
| PaymentController.FailedCancels | TF/trainfoodbackend/src/controllers/paymentController.js:224-230 | `payment_intent.payment_failed` cancels the matching order with the error message or 'payment_failed', leaves the others alone, and does nothing without a match |
| PaymentController.SessionCompletedMarksPaid | TF/trainfoodbackend/src/controllers/paymentController.js:233-241 | `checkout.session.completed` marks exactly the order with the metadata id paid, and changes nothing without an id |
| PaymentController.UnhandledChangesNothing | TF/trainfoodbackend/src/controllers/paymentController.js:244-246 | any other event type leaves every order unchanged |
| PaymentController.FailureAfterSuccessCancels | TF/trainfoodbackend/src/controllers/paymentController.js:210-229 | the status is not consulted: a failure event after a success turns the paid order into a cancelled one |
| PaymentController.FirstWithIntentIsFirst | TF/trainfoodbackend/src/controllers/paymentController.js:210-211 | an order holding the intent id, with none before it, is the one picked |
| PaymentController.LineItems | TF/trainfoodbackend/src/controllers/paymentController.js:140-147 | one line item per order line, in order, with unit amount = priceCents, quantity = qty, the product's name, and its description or '' |
| PaymentController.SessionChargesItemSum | TF/trainfoodbackend/src/controllers/paymentController.js:140-147 | the session's line items charge exactly Σ priceCents × qty of the order |
| PaymentController.OrderStore.HandleWebhook | TF/trainfoodbackend/src/controllers/paymentController.js:179-253 | an unverified event gets 400 and changes nothing; a verified one gets 200 and applies the event's update |
| PaymentController.OrderStore.CreatePaymentIntent | TF/trainfoodbackend/src/controllers/paymentController.js:83-122 | 400 without an order id; 404 when no order is stored under the cast id; 403 when an authenticated caller does not own it; 500 without Stripe. Otherwise it requests exactly the order's totalCents, and on success it records the intent id on that order only |
| PaymentController.OrderStore.CreateCheckoutSession | TF/trainfoodbackend/src/controllers/paymentController.js:129-168 | 400 without an order id; 404 when no order is stored under the cast id; 500 without Stripe or when a line's product no longer exists; otherwise the line items are those of the order; on success the session's payment intent, or else its id, is stored on that order only |
| ProductController.Picked | TF/trainfoodbackend/src/controllers/productController.js:107-113 | exactly the listed keys that the object has, with the object's values |
| ProductController.PickedIdempotent | TF/trainfoodbackend/src/controllers/productController.js:107-113 | picking twice with the same keys is picking once |
| ProductController.Pick | TF/trainfoodbackend/src/controllers/productController.js:107-113 | the key-by-key loop builds exactly the picked map |
| ProductController.TrimStartEmpty | TF/trainfoodbackend/src/controllers/productController.js:158 | trimming the start leaves '' exactly when the string is all white space |
| ProductController.TrimEndEmpty | TF/trainfoodbackend/src/controllers/productController.js:158 | trimming the end leaves '' exactly when the string is all white space |
| ProductController.TrimStartKeepsFirst | TF/trainfoodbackend/src/controllers/productController.js:158 | a non-empty start-trimmed string begins with a non-space character |
| ProductController.TrimEmptyIffBlank | TF/trainfoodbackend/src/controllers/productController.js:158 | `trim()` gives '' exactly when the string is all white space |
| ProductController.NameCheck | TF/trainfoodbackend/src/controllers/productController.js:158 | passes exactly for a string name that is not all white space; 400 for a falsy or blank name; 500 for a truthy non-string |
| ProductController.CheckPrice | TF/trainfoodbackend/src/controllers/productController.js:160-162 | a price is accepted exactly when `Number(v)` is finite and positive; the stored cents are within half a cent of it, with halves rounding up |
| Common.Truthy | TF/trainfoodbackend/src/controllers/productController.js:158 | a value is falsy exactly when it is undefined, null, false, NaN, 0 or the empty string |
| Common.ToNumber | TF/trainfoodbackend/src/controllers/productController.js:160 | `Number(v)`: numbers convert to themselves, undefined to NaN, null and false to 0, true to 1, strings and objects through their string form; a non-string, non-object is truthy exactly when its number is neither NaN nor 0 |
| Common.Round | TF/trainfoodbackend/src/controllers/productController.js:162 | the integer nearest to x, halves rounding up |
| ProductController.SubHalfCentStoredAsZero | TF/trainfoodbackend/src/controllers/productController.js:160-162 | a price of 0.4 passes the check and is stored as 0 |
| ProductController.MissingPriceRefused | TF/trainfoodbackend/src/controllers/productController.js:160-161 | a body without priceCents is refused |
| ProductController.ArrayPriceAccepted | TF/trainfoodbackend/src/controllers/productController.js:160-162 | an array price `[250]` converts through its string form and is accepted as 250, like "250" |
| ProductController.ListFilters | TF/trainfoodbackend/src/controllers/productController.js:119-123 | available is set exactly for onlyAvailable = 'true'; station and name filters exactly for non-empty parameters, with their values |
| ProductController.SkipFinite | TF/trainfoodbackend/src/controllers/productController.js:125 | with a finite limit, a page ≤ 1 skips 0 and a larger page skips (page − 1) × limit |
| ProductController.ListDefaults | TF/trainfoodbackend/src/controllers/productController.js:118-125 | without page and limit, skip is 0 and the limit is 50 |
| ProductController.ProductStore.Create | TF/trainfoodbackend/src/controllers/productController.js:152-168 | name failures give 400 or 500, a bad price gives 400, and neither stores anything; otherwise the whitelisted body with the rounded price and the creator is stored under the new id and returned with 201 |
| ProductController.ProductStore.Update | TF/trainfoodbackend/src/controllers/productController.js:176-189 | the price is checked and rounded only when given (400 when bad); 404 when no document is stored under the cast id; otherwise the whitelisted fields are merged into that document only |
| ProductController.ProductStore.Remove | TF/trainfoodbackend/src/controllers/productController.js:197-201 | 404 when no document is stored under the cast id; otherwise exactly that document is removed |
| AuthMiddleware.Split | TF/trainfoodbackend/src/middleware/authMiddleware.js:15 | `split(" ")` gives at least one field, no field holds a space, and joining the fields with single spaces gives back the string |
| AuthMiddleware.FirstWord | TF/trainfoodbackend/src/middleware/authMiddleware.js:15 | a prefix of the string without spaces, followed by a space or the end of the string |
| AuthMiddleware.SplitFirst | TF/trainfoodbackend/src/middleware/authMiddleware.js:15 | the first field of the split is the text up to the first space |
| AuthMiddleware.SplitAfterWord | TF/trainfoodbackend/src/middleware/authMiddleware.js:15 | splitting a space-free word, a space and a rest gives that word, then the split of the rest |
| AuthMiddleware.BearerToken | TF/trainfoodbackend/src/middleware/authMiddleware.js:15 | the second space-separated field is the text after "Bearer " up to the next space |
| AuthMiddleware.Protect | TF/trainfoodbackend/src/middleware/authMiddleware.js:9-24 | 401 for a missing header or one without "Bearer "; 401 when the token does not verify; otherwise the request goes on with the looked-up user, which may be none |
| AuthMiddleware.IsAdmin | TF/trainfoodbackend/src/middleware/authMiddleware.js:27-31 | 401 without a user; passes exactly for role admin; 403 otherwise |
| AuthMiddleware.IsAdminOrSeller | TF/trainfoodbackend/src/middleware/authMiddleware.js:34-38 | 401 without a user; passes exactly for admin or seller; 403 otherwise; everyone `isAdmin` admits is admitted |
| ProductList.OnProductCreated | TF/trainfoodfrontend/src/components/ProductList.jsx:31-48 | a product that fails the station or search check leaves the list unchanged; otherwise it goes first, with its restaurant name, and the old list follows unchanged |
| ProductList.NoFiltersPrependsAll | TF/trainfoodfrontend/src/components/ProductList.jsx:38-48 | with no station and no search term, every announced product is put first |
| ProductList.Lower | TF/trainfoodfrontend/src/components/ProductList.jsx:43 | same length, each character lowered as ASCII `toLowerCase` (A-Z to a-z, every other character unchanged), so no upper-case letter is left |
| ProductList.NameMatchesItself | TF/trainfoodfrontend/src/components/ProductList.jsx:43-48 | a search term equal to the name up to ASCII case lets the product in |
| ProductList.UnavailableProductIsPrepended | TF/trainfoodfrontend/src/components/ProductList.jsx:38-48 | the reducer ignores availability: an unavailable product is put first, although the fetched list asks for available ones only |
| ProductList.FetchParams | TF/trainfoodfrontend/src/components/ProductList.jsx:67-70 | onlyAvailable is always 'true'; q and station are present exactly when non-empty, with their values; nothing else |
| ProductList.FetchParamsFilters | TF/trainfoodfrontend/src/components/ProductList.jsx:67-72 | the page's query makes `list` filter on availability, and on station and name exactly when set, starting at 0 with limit 50 |

## Left out

- I/O and its failures are not modelled: the database, `save`, and the 500 answers of the `catch` blocks. A database error, an id that cannot be cast to an ObjectId at all, or a schema validation failure are outside the model.
- Oracles are parameters, not models: Stripe calls, webhook signature verification and the insecure JSON fallback without a secret (a verified event or none), JWT verification, and the user lookup.
- Environment variables are not modelled: the currency, `DOMAIN` and the success and cancel URLs of the checkout session.
- Concurrency between simultaneous cart or order writes is out of scope.
- CartController.CartStore.AddToCart: the quantity is an integer. A fractional quantity such as 0.5, which is truthy and is added, is not modelled. Neither is a string quantity, which JavaScript would concatenate onto the old quantity.
- CartController.CartStore.AddToCart: a new cart's `totalCents` of 0 comes from the Cart schema's default, which is not part of this model; line 22 does not set it. The model assumes that default.
- CartController.CartStore.UpdateCartItem: the quantity is an integer. A fractional quantity, and a missing or non-numeric one (which compares false with `<= 0` and is then written as is), are not modelled.
- Checkout.ValidateDeliveryInfo: the fields are strings. Undefined fields are not modelled; the page always starts them as ''.
- Checkout: the totals are exact reals, not IEEE doubles. `toFixed` display, the Stripe card confirmation and the fields the page does not check are left out (trainName, departureTime, platform, landmark, specialInstructions).
- The idempotency key the checkout page builds from `Date.now()` and `Math.random()` is not modelled.
- A populated product that is null makes the line-item `map` of `createCheckoutSession` throw. The model answers 500 for it and builds no line items.
- ProductController: the `get` endpoint (a plain lookup) is not modelled.
- ProductController: in `list`, the regular-expression matching of `q`, the sort, the count and the query itself are left out. Only the filter document, skip and limit are modelled.
- `Number(string)` is the `toNum` oracle; JavaScript's string-to-number grammar is not modelled. An object or array carries the string `String(v)` gives for it, and that string is not computed from its elements here.
- ProductList: lowercasing covers ASCII letters only. Full Unicode case mapping is not modelled.
- ProductList: `handleAddToCart`, the socket connection, loading and error state, and rendering are UI glue. Its request body is `{productId, quantity}` with quantity 1, which `CartStore.AddToCart` models on the backend side.
- Other files are not part of this model: `server.js` (a Google Places proxy), the seller auth controller, the seed scripts, the routes and the other frontend components.
