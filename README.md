# MODA IMPETO storefront — a Dafny model

MODA IMPETO is a small fashion web shop: an Express server with MongoDB documents for
products and orders, JSON routes for the catalogue, orders, accounts and Stripe payments,
and two browser scripts, the shop's cart and the admin pages' session monitor. This
project models the core of that code in Dafny and proves properties of the model.

- `wrappers.dfy`, `seqs.dfy`: `Option`/`Result`, first-match search and filtering over sequences
  (what `findOne` and `find` do on a collection).
- `json.dfy`: request bodies as JSON values, with JavaScript truthiness, `||`, `Number(...)` on
  strings and arrays, decimal text, and `parseInt` with its hexadecimal prefix.
- `records.dfy`: the `Order` and `Product` Mongoose schemas. It gives the casts, the defaults,
  the required fields and the enums as decoders from a document to a record, plus encoders
  and decode-after-encode round trips.
- `escaping.dfy`: `sanitize`, `sanitizeProduct` and `sanitizeCustomer`. It proves the chain
  of `replace` calls is a per-character HTML escape, that escaping is inverted by an
  unescape, and that escaping twice is not the same as escaping once.
- `tokens.dfy`: signed tokens as claims with issue and expiry seconds (24-hour lifetime),
  verification against a clock, and the `Bearer ` prefix stripping every protected route does.
- `auth.dfy`: the account routes (admin login, password change, refresh, verify; user
  register, login, me, password change). The stored accounts are a class whose methods
  update them in place.
- `storefront.dfy`: the catalogue and order routes, and a `Store` class holding the product
  and order collections. Creating, updating, changing status and cancelling all go through
  the schema decoders.
- `payment.dfy`: the payment-intent amount guard and request, Stripe client lazy
  initialisation, and the webhook's effect on orders. It proves the webhook is idempotent,
  so redelivery is harmless.
- `cart.dfy`: the shop's cart, which is a map from product id to entry held in a
  `ShoppingCart` object, plus the built-in catalogue. The badge count and the subtotal are
  computed by loops and proved equal to sums over the entries.
- `session.dfy`: the admin session monitor, modelled as a state of token, pending timers,
  idle-timer handle, clock, navigation and sent requests. It covers the auth guard, idle
  logout, scheduled refresh, and `fetchWithAuth`'s refresh-and-resend. The `Monitor` class
  changes that state step by step, and each method is proved equal to a step function.

The clock, random numbers, freshly generated document ids, results from the database, the
token library, the password hasher and the Stripe SDK all come in as parameters. A signed
token is the claims it carries. A password digest is a symbolic `Hash(password)`.

## Model

| member | source | states |
|---|---|---|
| Seqs.FindFirst | routes/api.js:260-261 | the index found is the first element matching the query; no match means no element matches |
| Seqs.Filter | routes/api.js:191 | the result holds exactly the elements that match, each as many times as the input holds it |
| Seqs.FilterConcat | routes/api.js:191 | filtering a concatenation filters each part and joins them in the same order, so the matches keep their stored order |
| Json.ParseIntOfString | routes/api.js:66 | `parseInt` reads back any decimal numeral it is given |
| Json.ParseIntOfHex | routes/api.js:66 | with no radix, `parseInt` reads the digits after a `0x` or `0X` mark as hexadecimal |
| Json.ParseIntOfBareHexMark | routes/api.js:66 | a `0x` mark with no hexadecimal digit after it is NaN |
| Json.JsNumber | routes/api.js:39 | `Number(v)`, with `[]` converting to 0, a one-element array to its element's Number (0 for null), a longer array to NaN, and a plain object to NaN |
| Json.NumberOfText | routes/api.js:39 | `Number(v)` equals `Number(String(v))` for every value but null and the booleans; so an array's Number is the Number of its joined text |
| Json.NumberBlocked | models/Product.js:6 | text holding a character no numeral has (a letter, a comma, a bracket) anywhere converts to NaN |
| Json.NumberOfSingleton | routes/api.js:39 | `Number([n])` and `Number([String(n)])` are both n |
| Json.NumberOfString | models/Product.js:6 | casting the decimal text of an integer to Number gives that integer |
| Json.NumberOfNonNumeral | models/Product.js:6 | trimmed text that does not start with a digit or a sign does not cast to a number |
| Records.ParseStatus | models/Order.js:29 | the order status enum: a name parses exactly when it is one of the five names, and parsing inverts naming |
| Records.ParsePaymentStatus | models/Order.js:28 | the payment status enum: pending, paid, failed and refunded, with parsing inverting naming |
| Records.DecodeOrder | models/Order.js:3-31 | saving an order document needs orderId, paymentMethod and totalAmount; status defaults to Processing, paymentStatus to pending, shippingMethod to Standard Shipping and createdAt to now; a status or paymentStatus outside its enum fails; the stored paymentStatus, totalAmount and paymentMethod are the document's |
| Records.DecodeProduct | models/Product.js:3-14 | saving a product needs a numeric id, a name, a numeric price, an image and a category; the stored price and image are the document's; isSoldOut defaults to false, images and sizes to empty, description to none, a missing createdAt to now |
| Records.DecodeEncodeCustomer | models/Order.js:6-15 | a stored customer reads back unchanged |
| Records.DecodeEncodeItem | models/Order.js:16-23 | a stored order line reads back unchanged |
| Records.DecodeEncodeItems | models/Order.js:16-23 | a stored list of order lines reads back unchanged, line by line |
| Records.CastStringsOfEncoding | models/Product.js:8-9 | a stored list of texts reads back unchanged |
| Records.DecodeEncodeOrder | models/Order.js:3-31 | a valid stored order reads back as the same order |
| Records.DecodeEncodeProduct | models/Product.js:3-14 | a valid stored product reads back as the same product |
| Records.DecodedOrderIsValid | models/Order.js:3-31 | every order the schema accepts satisfies the order invariant (non-empty order number and payment method) |
| Escaping.Sanitize | routes/api.js:26-34 | text values are HTML-escaped; every other value passes through unchanged |
| Escaping.SanitizeIsEscape | routes/api.js:29-33 | the five chained global replacements equal escaping each character on its own |
| Escaping.EscapeIsSafe | routes/api.js:26-34 | escaped text contains no `<`, `>`, `"` or `'` |
| Escaping.EscapePlain | routes/api.js:26-34 | text with no special characters is left as it is |
| Escaping.UnescapeEscape | routes/api.js:26-34 | unescaping escaped text gives back the original, so escaping loses nothing |
| Escaping.EscapeAmpText | routes/api.js:29 | an already-escaped entity is escaped again (`&amp;` becomes `&amp;amp;`) |
| Escaping.SanitizeTwice | routes/api.js:26-34 | sanitizing is not idempotent |
| Escaping.SanitizeCustomer | routes/api.js:134-143 | the result has exactly the eight contact fields; a missing field becomes `""`, and a text field is escaped |
| Escaping.SanitizeProduct | routes/api.js:37-46 | name, category and description are escaped; price is `Number(price)`, arrays included, or 0 when that is NaN; images and sizes are passed on when they are arrays and become `[]` otherwise; isSoldOut is the input's truthiness; image is passed through |
| Tokens.Sign | routes/auth.js:23 | the token carries the given id and role, is issued in the current second and expires 24 hours later |
| Tokens.Verify | routes/api.js:155 | a token is accepted exactly when one was sent and its expiry second is still ahead |
| Tokens.FreshTokenAccepted | routes/auth.js:23 | a token issued at time t is accepted up to 24 hours later and refused from 24 hours on |
| Tokens.BearerTokenOfCredential | routes/api.js:151 | the `Bearer ` prefix is stripped and the token comes back; a non-empty token counts as present |
| Tokens.EmptyCredential | routes/api.js:151 | a credential that is only the prefix counts as no token |
| Auth.AdminLogin | routes/auth.js:10-29 | the reply is 200 with a token for the admin's id, or otherwise 400 Invalid credentials |
| Auth.AdminLoginSucceedsIff | routes/auth.js:14-21 | with unique usernames, login succeeds exactly when an admin of that name has that password |
| Auth.AdminRefresh | routes/auth.js:51-65 | an unknown admin gets 401; a known one gets a new 24-hour token for the same id |
| Auth.VerifyStatus | routes/auth.js:68-85 | a token that does not decode gives 500; otherwise valid, the expiry in ms, and whole seconds left, rounded down |
| Auth.ExpiresInAtIssue | routes/auth.js:75 | at issue time the seconds left are the full 24 hours |
| Auth.ExpiresInDecreases | routes/auth.js:75 | the seconds left never grow as time passes, and shrink once a second has passed |
| Auth.ExpiresInPositiveIffAccepted | routes/auth.js:75 | seconds left are positive exactly when the token would still verify |
| Auth.UserLogin | routes/auth.js:123-143 | the reply is 200 with a token for the user's id and role, or otherwise 401 |
| Auth.UserLoginSucceedsIff | routes/auth.js:126-130 | with unique e-mails, login succeeds exactly when a user with that e-mail has that password |
| Auth.Me | routes/auth.js:146-160 | no token gives 401; a bad token gives 401; an unknown user gives 404; otherwise 200 with the profile |
| Auth.Accounts.ChangePassword | routes/auth.js:32-48 | on a wrong old password nothing changes (400); on a right one only the caller's digest changes, to the new password's |
| Auth.Accounts.Register | routes/auth.js:92-120 | a taken e-mail gives 400 and no change; otherwise one user is appended with the hashed password and uniqueness is kept |
| Auth.Accounts.UserChangePassword | routes/auth.js:162-188 | no token gives 401; a bad token gives 500; a wrong old password gives 400 and no change; otherwise only that user's digest changes |
| Auth.PasswordChangeTakesEffect | routes/auth.js:10-43 | after a successful password change, login under that username succeeds with exactly the new password |
| Storefront.CastObjectId | routes/api.js:63-64 | a parameter is a document id exactly when it is 24 hexadecimal digits |
| Storefront.GetProduct | routes/api.js:59-73 | a 24-hex parameter looks up the document id, anything else the numeric `parseInt` id (decimal, or hexadecimal after `0x`); 200 exactly when a product matches, 404 when none, 500 when the parameter has no leading number |
| Storefront.HexParamLooksUpHexId | routes/api.js:63-66 | a `0x` parameter is not a document id and finds the product whose id is its hexadecimal value |
| Storefront.NextProductId | routes/api.js:79-80 | a new product's id is one more than the largest stored id, or 1 for an empty catalogue |
| Storefront.MergeProduct | routes/api.js:110-120 | truthy fields replace the stored ones (text escaped); price changes only when `Number(price)` (arrays included) is a non-zero number; truthy images and sizes are stored as their `[String]` cast; isSoldOut changes whenever sent; id, document id and creation time are kept; validity is kept |
| Storefront.MergeSucceedsIff | routes/api.js:113-126 | an update of a valid product saves exactly when every field it sends casts to its path's type (String, `[String]`, Boolean); otherwise 400 |
| Storefront.MergeEmptyBody | routes/api.js:113-120 | an empty update saves the product unchanged |
| Storefront.MergeIdempotent | routes/api.js:113-120 | applying the same update twice has the effect of applying it once |
| Storefront.TokenUser | routes/api.js:148-161 | a new order's user is the verified token's id, and there is none when the token is missing or bad |
| Storefront.NewOrderDocument | routes/api.js:163-168 | the saved document is the body with userId, orderId (body's or generated) and sanitized customer put in; no other field changes |
| Storefront.SanitizedCustomerDecodes | routes/api.js:134-143 | every contact field of a created order is present, and each one sent as text is stored escaped |
| Storefront.OrdersMe | routes/api.js:183-196 | no token gives 401; a bad token gives 500; otherwise exactly the caller's orders, each as many times as stored |
| Storefront.QueryStrings | routes/api.js:249 | the cast succeeds exactly when every entry is null, undefined or a String-castable scalar; the query then holds exactly the casts of the non-null entries |
| Storefront.MyOrders | routes/api.js:240-254 | a missing or empty list gives `[]`; a non-empty list answers 200 exactly when it casts, with exactly the stored orders whose number is in the cast query, each as many times as stored; otherwise 500 |
| Storefront.WhitelistedStatus | routes/api.js:212-215 | a status is accepted exactly when it is one of the five names |
| Storefront.CreatedOrderFacts | routes/api.js:163-168 | a created order keeps the token's user, the client's order number or else the generated one, and the escaped e-mail |
| Storefront.CreatedProductFacts | routes/api.js:82-86 | a created product gets the next id and the new document id, with the name escaped |
| Storefront.AppendedOrderUnique | models/Order.js:4 | appending an order with a fresh number and document id keeps both unique |
| Storefront.AppendedProductUnique | models/Product.js:4 | appending a product with a larger id and a fresh document id keeps both unique |
| Storefront.OrderNumberLookup | routes/api.js:260 | with unique order numbers, looking up an order's number finds exactly that order |
| Storefront.Store.CreateProduct | routes/api.js:76-93 | the new product is appended when the schema accepts it (201) and nothing changes otherwise (400); ids stay unique |
| Storefront.Store.UpdateProduct | routes/api.js:107-127 | a bad id gives 400; an unknown one gives 404; otherwise the product is replaced by its merge and nothing else changes |
| Storefront.Store.CreateOrder | routes/api.js:146-180 | the order is appended when the schema accepts it (201), with the token's user, the order number and the escaped customer; otherwise 400 and no change |
| Storefront.Store.UpdateOrderStatus | routes/api.js:209-226 | a status outside the whitelist gives 400; an unknown order gives 404; otherwise only that order's status changes |
| Storefront.Store.CancelOrder | routes/api.js:257-285 | unknown gives 404; not Pending/Processing or older than 24 hours gives 400; otherwise only that order becomes Cancelled; the store changes exactly in that case |
| Payment.IntentRequestOf | routes/payment.js:18-31 | refused exactly when the amount is falsy or compares as at most 0; otherwise the amount is passed on, currency defaults to jpy and metadata to `{}` |
| Payment.MissingAmountRejected | routes/payment.js:20-22 | a missing, null or empty amount is refused |
| Payment.NumericAmountGuard | routes/payment.js:20-22 | a numeric amount is refused exactly when it is at most 0 |
| Payment.NumeralAmountGuard | routes/payment.js:20-22 | an amount sent as decimal text is refused exactly when its value is at most 0 |
| Payment.NonNumericAmountPasses | routes/payment.js:20-22 | a non-numeric text amount gets past the guard |
| Payment.TargetOf | routes/payment.js:70-73 | an event targets an order only when its metadata and order number are truthy |
| Payment.TransitionOf | routes/payment.js:67-117 | a succeeded event with a target marks the order paid with the intent id; a failed one marks it failed; everything else changes nothing |
| Payment.Applied | routes/payment.js:75-104 | paid sets Processing/paid/intent id; failed sets Cancelled/failed; every other field is kept |
| Payment.UpdatedByEvent | routes/payment.js:67-117 | only the targeted order changes; length, uniqueness and validity are kept |
| Payment.SucceededMarksPaid | routes/payment.js:68-88 | a succeeded event updates exactly the order with its number to paid |
| Payment.FailedMarksCancelled | routes/payment.js:90-108 | a failed event updates exactly the order with its number to cancelled and failed |
| Payment.OtherEventsChangeNothing | routes/payment.js:110-116 | refunds, other event kinds and untargeted events leave the orders as they are |
| Payment.RedeliveryIsHarmless | routes/payment.js:67-117 | handling the same event twice has the effect of handling it once |
| Payment.PaymentService.constructor | routes/payment.js:7 | the service starts with no Stripe client |
| Payment.PaymentService.GetStripe | routes/payment.js:7-13 | the client is created with the secret key on first use and reused after |
| Payment.PaymentService.CreatePaymentIntent | routes/payment.js:16-41 | a refused amount gives 400 `Invalid amount` without touching Stripe; otherwise the Stripe client is made if there was none, and the reply is 200 with the client secret and intent id, or 500 with Stripe's message |
| Payment.PaymentService.Webhook | routes/payment.js:46-121 | with no webhook secret, 200 in development mode and no change; with a secret the Stripe client is made if there was none; a bad signature gives 400 `Webhook Error: …` and no order change; otherwise the orders are updated by the event and 200 received |
| Cart.LineTotal | script.js:117-124 | a catalogued entry adds price times quantity; an unknown id adds nothing |
| Cart.Added | script.js:76-90 | the entry gains one piece or is created with one; every other entry is kept; well-formedness is kept |
| Cart.Changed | script.js:156-167 | a missing entry is left alone; the quantity moves by delta; an entry reaching zero or less is removed |
| Cart.Removed | script.js:169-177 | exactly that entry goes |
| Cart.AddRaisesCount | script.js:76-90 | adding raises the badge count by exactly one |
| Cart.AddRaisesSubtotal | script.js:76-90 | adding a catalogued product raises the subtotal by its price, and an unknown id by nothing |
| Cart.ChangeMovesCount | script.js:156-167 | a change moves the count by delta, or takes the entry's whole quantity away when it drops out |
| Cart.RemoveLowersCount | script.js:169-177 | removing takes the entry's whole quantity off the count |
| Cart.CountAtLeastEntries | script.js:92-104 | in a well-formed cart the count is at least the number of entries |
| Cart.ShoppingCart.constructor | script.js:77 | an absent stored cart reads as empty |
| Cart.ShoppingCart.AddToCart | script.js:76-90 | the stored cart becomes `Added` of the old one, and the count rises by one |
| Cart.ShoppingCart.ChangeQuantity | script.js:156-167 | the stored cart becomes `Changed` of the old one |
| Cart.ShoppingCart.RemoveFromCart | script.js:169-177 | the stored cart becomes `Removed` of the old one |
| Cart.ShoppingCart.CartCount | script.js:92-104 | the loop computes the count, the sum of all quantities |
| Cart.ShoppingCart.CartSubtotal | script.js:106-124 | the loop computes the subtotal, the sum of the line totals |
| Session.OkData | assets/admin-auth.js:117-119 | data is read only from an ok response whose JSON body is neither missing nor null |
| Json.JsString | assets/admin-auth.js:119 | session storage keeps the `String(...)` text of what is stored: text as it is, a number's decimal text, an array's joined text |
| Session.WithBearer | assets/admin-auth.js:74-77 | the headers are the caller's with the credential `Bearer <token>` put in |
| Session.ServerReadsCredential | assets/admin-auth.js:74-77 | the server reads the cached token back from that credential |
| Session.AtMostOneIdleLogout | assets/admin-auth.js:12 | at most one idle logout is ever pending |
| Session.LoggedOut | assets/admin-auth.js:47-50 | the token is gone and the page goes to login.html; timers and requests are kept |
| Session.CheckedAuth | assets/admin-auth.js:33-44 | the guard passes exactly when the page is not the login page and a token is cached; otherwise a missing token redirects to login |
| Session.IdleReset | assets/admin-auth.js:56-62 | the old idle logout is cleared and exactly one new one is due 20 minutes from now; other timers are kept |
| Session.IdleFired | assets/admin-auth.js:58-61 | the idle logout's firing logs out and removes its timer |
| Session.Refreshed | assets/admin-auth.js:107-128 | without a token nothing is sent; otherwise one refresh request is sent, and it refreshes exactly when the answer is ok with data, storing the new token |
| Session.RefreshDelay | assets/admin-auth.js:141-145 | the delay is `max(0, expiresIn*1000 − 5 minutes)`, with a non-numeric expiresIn giving 0 |
| Session.DelayForFreshToken | assets/admin-auth.js:141-145 | a fresh 24-hour token is refreshed 86,100,000 ms later |
| Session.Verified | assets/admin-auth.js:130-166 | without a token nothing happens; a failed verify only records the request; otherwise a refresh is scheduled after the delay, or done at once when the delay is 0 |
| Session.VerifySchedulesAtMostOne | assets/admin-auth.js:147-155 | verifying schedules at most one new refresh timer |
| Session.ImmediateRefreshDoesNotReschedule | assets/admin-auth.js:156-161 | the immediate-refresh branch schedules nothing |
| Session.RefreshFired | assets/admin-auth.js:148-154 | the fired timer is gone; with no token nothing else happens; otherwise refresh, then verify and reschedule |
| Session.NoRefreshAfterLogout | assets/admin-auth.js:148-154 | after a logout a refresh callback sends nothing and brings no token back |
| Session.Fetched | assets/admin-auth.js:65-101 | no token logs out and rejects; other statuses and network errors pass through; a 401/403 refreshes and resends once with the new token, or logs out and rejects Session expired; at most three requests |
| Session.ResendCarriesNewToken | assets/admin-auth.js:83-95 | after a 401/403 the server sees the old token on the first request and the new one on the resend |
| Session.Monitor.constructor | assets/admin-auth.js:5-12 | the monitor starts with the stored token, no timers or requests, and a valid state |
| Session.Monitor.Logout | assets/admin-auth.js:47-50 | the state becomes `LoggedOut` of the old one |
| Session.Monitor.CheckAuth | assets/admin-auth.js:33-44 | the state and answer are `CheckedAuth` of the old state |
| Session.Monitor.ResetIdleTimer | assets/admin-auth.js:56-62 | the state becomes `IdleReset` of the old one |
| Session.Monitor.Advance | assets/admin-auth.js:58 | only the clock moves |
| Session.Monitor.IdleTimerFires | assets/admin-auth.js:58-61 | the state becomes `IdleFired` of the old one |
| Session.Monitor.RefreshToken | assets/admin-auth.js:107-128 | the state and answer are `Refreshed` of the old state |
| Session.Monitor.VerifyAndScheduleRefresh | assets/admin-auth.js:130-166 | the state becomes `Verified` of the old one |
| Session.Monitor.RefreshTimerFires | assets/admin-auth.js:148-154 | the state becomes `RefreshFired` of the old one |
| Session.Monitor.FetchWithAuth | assets/admin-auth.js:65-101 | the state and outcome are `Fetched` of the old state |
| Session.Monitor.Load | assets/admin-auth.js:14-30 | the guard runs; a page that passes gets its idle timer set and the first verify run; the state stays valid |

## Left out

- List routes (`GET /products`, `GET /orders`, `GET /users`, a user's orders) and the
  `DELETE` routes: these are plain queries and deletes with no logic to prove. The sort
  order of every list (`sort({ createdAt: -1 })`, `sort({ id: 1 })`) is not modelled: the
  lists here are filters of the stored sequence, which keep the stored order
  (`Seqs.FilterConcat`).
- The e-mail notifications of `utils/email.js`: these are outside I/O. The admin-only route
  guard (middleware) and the server set-up in `server.js` are also not part of this model.
- Cryptography: bcrypt digests are a symbolic `Hash(password)`, and JWT signing is the
  claims themselves. A forged or tampered token is therefore the same as a missing one.
- The Stripe SDK: network calls, `Math.round` on the amount, and signature checking. These
  come in as already-decided results.
- Floating point: amounts, prices and `expiresIn` are integers. `Number(...)` of text accepts
  only an optional sign and decimal digits; every other numeral syntax is NaN.
- Json.JsNumber: a JSON object carrying its own `toString` or `valueOf` key, for which
  `Number(...)` throws, is read as NaN like any other object.
- Records.DecodeOrder: an explicit `null` status, paymentStatus, shippingMethod or
  createdAt takes the schema default here, but Mongoose applies a default only to an
  undefined path and keeps the null. The stored order's fields are plain values, so a
  null status or creation date, which would make cancellation refuse, is not modelled.
- Records.DecodeOrder: a createdAt sent as date text is refused as a cast failure, but
  Mongoose parses it. Dates are modelled only as millisecond numbers, because date-text
  parsing is not part of this model.
- Records.DecodeProduct: an explicit `null` isSoldOut reads as false, but Mongoose keeps the
  null. The stored flag is a plain boolean.
- Records.CastStrings: a null or undefined element of an `images` or `sizes` array makes the
  cast fail, so the save answers 400. Mongoose keeps such an element as null. The stored lists
  are lists of plain texts, so a null element is not modelled.
- Json.IsSpace: `Number(...)` and `parseInt` trim only the ASCII white-space characters here.
  JavaScript also trims U+00A0, U+FEFF, U+2028, U+2029 and U+2000 to U+200A, so a parameter
  such as `%C2%A05` reads as NaN (500) in the model, but as 5 on the server.
- Session.Verified: a refresh is scheduled `delay` milliseconds ahead for any delay. A browser
  fires a `setTimeout` above 2^31 - 1 ms at once. That cannot arise with the 24-hour tokens
  the routes sign, but it is not modelled.
- Storefront.Store.CreateProduct and Storefront.Store.CreateOrder: the new document id is any
  id not yet stored. The database always generates 24 lower-case hexadecimal digits; a
  different id, which `CastObjectId` could never reach, is not excluded.
- Storefront.MergeProduct: an update with `isSoldOut: null` saves false, but Mongoose
  stores null. The stored flag is a plain boolean.
- Storefront.Store.CreateOrder: a client-chosen `_id` in the order body, which the spread
  at routes/api.js:163 passes on, is not modelled. The new order always gets the freshly
  generated document id.
- Cart: entries are keyed by the product's numeric id. script.js:56-57 keys them by the
  button's `data-id` text, so a non-numeric or differently written id is not modelled.
- Concurrency: each route and each async step of the browser scripts runs atomically. The
  interleavings at `await` points are not modelled.
- The DOM, alerts, the cart's re-rendering and the JSON encoding of local storage: the
  stored cart is the `ShoppingCart` object itself.
- Document ids: a route parameter casts to an id only in its 24-hex-digit text form.
- Credentials: only text credentials are modelled. A username, e-mail or password sent as
  another JSON type is not.
- Account lockout after failed logins, and short-lived admin tokens, are not modelled.
  scripts/test_admin_security.js:57-71 exercises a lockout, but the login route of
  routes/auth.js:10-29 has none, and the login and refresh routes sign 24-hour tokens
  (routes/auth.js:23 and :59). The model follows the routes.
- A product id that is not numeric makes the Number cast fail. This is modelled as the
  route's 500 reply, not as Mongoose's CastError text.
