# Hotel-booking payment reconciliation, modelled in Dafny

This project models the payment controller of a hotel-booking marketplace
(`server/controllers/stripe.js`). Hosts ("sellers") get a connected payout
account at the payment processor. Guests ("buyers") open a checkout session for
a hotel listing, and the money is routed to the host's account. When the buyer
comes back, the controller asks the processor whether the session was paid. If
it was and no order for that session exists yet, it records one and clears the
buyer's pending session. If an order for that session already exists, it
reports success and leaves everything as it is.

The model is a sequential state machine over three stores:

- the user records: `map<string, User>`, keyed by user id;
- the hotel listings: `map<string, Hotel>`, read only;
- the orders collection: `seq<Order>`.

These are fields of the class `StripeController.Marketplace`. Each Express
handler is a method of that class. Every processor call is a parameter of the
handler that makes it. A `None` from such a parameter means the call threw. The
processor's view of checkout sessions is a map from session id to session.
Every database write is a boolean parameter of its handler. `false` means that
write rejects, so the store stays as it was.

Files:

- `js.dfy` (`Js`): JavaScript optional values, truthiness of optional strings, `undefined` property reads, template-literal text.
- `pricing.dfy` (`Pricing`): `Math.round`, the 20% fee, dollars to cents.
- `checkout.dfy` (`Checkout`): the checkout-session request and the processor's session object.
- `onboarding.dfy` (`Onboarding`): the account-link request, the e-mail prefill and the onboarding URL.
- `orders.dfy` (`Orders`): the order record (the fields of `server/models/order.js:4-14`), `findOne` by session id, and the invariant that no two orders embed the same session id.
- `controller.dfy` (`StripeController`): users, listings, responses, the handlers as methods, and client methods that chain handler calls.

The class invariant `Valid()` is "at most one order per session id". Every
handler that changes state requires it and re-establishes it. The two
read-only handlers, `GetAccountBalance` and `PayoutSetting`, cannot break it.
So the invariant holds after any sequence of calls, whatever the processor
answers and whichever writes fail. `Orders.AtMostOneIffDistinct` shows that the
counting form of this invariant and the pairwise form agree.

Behaviour of the code that a reader might not expect:

- One might expect `getAccountStatus` to refuse a user without an account id. The code does not check. It passes `undefined` to the processor's account lookup and stores whatever comes back.
- One might expect `stripeSessionId` to refuse a seller without an account id. The code does not check either. The request goes out with an undefined transfer destination, and the processor decides. A missing listing or seller record makes the handler throw before any write.
- One might expect the fee in cents, like `unit_amount`. The code computes `round(price * 20 / 100)` in the price's own unit (dollars), and never attaches it to the request.
- The new order's listing is the `hotelId` of the confirmation request (stripe.js:150, 171). Nothing checks it against the paid session, whose success URL names the listing it was created for.
- One might expect a repeated confirmation to report success again. After a successful confirmation, the pending session is `{}`, which JavaScript treats as truthy. The repeat therefore looks up session id `undefined`. The error is caught and logged, and nothing is sent (`StripeController.ConfirmTwice`). The repeat reports success only if the clear at stripe.js:176 failed.
- The account-link object's own `url` property is also serialised into the query string of the onboarding link.

## Model

| member | source | states |
|---|---|---|
| `Pricing.Round` | server/controllers/stripe.js:101 | `Math.round(x)` is the integer nearest to `x`, with halves rounded up |
| `Pricing.Fee` | server/controllers/stripe.js:101 | the fee is the integer nearest to 20% of the price; for a nonnegative price it is between 0 and the price |
| `Pricing.UnitAmount` | server/controllers/stripe.js:120 | `unit_amount` is the price in cents rounded to the nearest integer; it is nonnegative for a nonnegative price, and exactly 100 times a whole-dollar price |
| `Checkout.SessionRequestFor` | server/controllers/stripe.js:104-137 | the request has card as its only payment method and mode `payment`; it has exactly one line item, in `usd`, with quantity 1 and the listing's title and price in cents; the total charged equals that price in cents; no application fee is attached; the transfer destination is the seller's account id; success URL is base + `/` + listing id; the cancel URL is fixed |
| `Js.DefinedUpdate` | server/controllers/stripe.js:33-36 | setting a property to `undefined` removes it from what the query string serialises, and setting it to a value adds or replaces it there; this is why the `undefined` fallback for an empty e-mail leaves it out of the link |
| `Onboarding.QueryFields` | server/controllers/stripe.js:32-36 | the e-mail reaches the query string if and only if the user has a non-empty e-mail, and then it has that value; every other property reaches it if and only if the link object has it with a defined value |
| `Onboarding.OnboardingLink` | server/controllers/stripe.js:36 | the link is the text of the account link's `url`, then `?`, then the serialisation of the query fields |
| `Orders.FindBySession` | server/controllers/stripe.js:162-164 | finds the first order whose embedded session has the given id, and finds none exactly when no order has that id |
| `Orders.AtMostOneIffDistinct` | server/controllers/stripe.js:160-180 | "at most one order per session id", stated by counting, is the same as "no two orders have equal session ids" |
| `Orders.AppendUnmatchedKeepsAtMostOne` | server/controllers/stripe.js:162-174 | appending an order whose session id the lookup did not find keeps at most one order per session id |
| `StripeController.PendingHandoff` | server/controllers/stripe.js:140-177 | once a created session is stored on the buyer (line 140), the reconciler retrieves exactly that session's id (lines 154-158); once the pending session is cleared to `{}` (line 177), it retrieves nothing |
| `StripeController.Marketplace.CreateConnectAccount` | server/controllers/stripe.js:9-40 | an unknown user throws with nothing changed; an existing non-empty account id is never replaced, and the link is requested for it; a missing or empty one gets the created id, stored only if the save succeeds, and the link is requested for the created id either way; if creation fails, the handler throws with nothing changed; orders and listings are unchanged |
| `StripeController.Marketplace.GetAccountStatus` | server/controllers/stripe.js:42-60 | the user's `stripe_seller` becomes exactly the retrieved account, and nothing else changes; the response is that updated user with the password removed; an unknown user, a failed lookup or a failed write throws with nothing changed |
| `StripeController.Marketplace.GetAccountBalance` | server/controllers/stripe.js:62-75 | a balance is sent if and only if the user exists and the lookup succeeds; otherwise nothing is sent |
| `StripeController.Marketplace.PayoutSetting` | server/controllers/stripe.js:77-92 | a login link is sent if and only if the user exists and the processor creates one; otherwise nothing is sent |
| `StripeController.Marketplace.StripeSessionId` | server/controllers/stripe.js:94-145 | a missing listing or seller, a failed creation, or a failed write of the buyer throws with nothing changed; otherwise the request for that listing and seller is sent; the buyer's pending session becomes the created session, overwriting any earlier one; the response carries that session's id; orders are unchanged |
| `StripeController.Marketplace.StripeSuccess` | server/controllers/stripe.js:147-185 | with no retrievable session, or one not `paid`, nothing changes and nothing is sent; when paid with an existing order for that session id, success is sent and nothing changes; when paid with no such order, the order (listing, session, buyer) is appended if its save succeeds; the buyer's pending session becomes `{}` and success is sent only if the clear also succeeds; a failed write is swallowed and nothing is sent; users change only when an order is created; at most one order per session id is kept |
| `StripeController.OnboardTwice` | server/controllers/stripe.js:14-29 | over two onboarding calls, each with its own link from the processor: once a non-empty id is stored, the second call creates no account, and both link requests name that same id; if the first save failed, the second call creates and stores another account |
| `StripeController.CheckoutThenConfirm` | server/controllers/stripe.js:140-180 | a checkout followed by a confirmation for the same buyer: if the created session is unpaid, no order is created and nothing is sent; if it is paid and new, exactly the order for that session is appended and the buyer's pending session becomes `{}` |
| `StripeController.ConfirmTwice` | server/controllers/stripe.js:154-180 | over two confirmations against the same processor view, at most one order is created; if the first creates it and clears the pending session, the repeat sends nothing; if the clear fails, the repeat finds the order and reports success without a second one |

## Left out

- Floating point: prices are exact reals, and `Math.round` is `floor(x + 0.5)` on them. IEEE double rounding of `price * 20 / 100` and `price * 100` is not modelled.
- Concurrency: the model runs one request at a time. The un-awaited `user.save()` (stripe.js:20) completes before the next request. The race between `Order.findOne` and `save` (stripe.js:162-174) under simultaneous confirmations is not modelled.
- StripeController.Marketplace.CreateConnectAccount: a failed un-awaited `user.save()` is an unhandled rejection. What the Node process then does with it (log it or exit) is not modelled; the model only keeps the store unchanged while the handler carries on.
- StripeController.Marketplace.StripeSuccess: why an order save fails is not modelled, only that it may. One such cause is a `hotelId` that cannot be cast to an ObjectId (`server/models/order.js:6-9`). The reads (`findById`, `findOne`) are assumed to succeed.
- The payment processor, MongoDB and `console.log` are foreign code. Processor calls are parameters (`X -> Option<Y>`, or a map for session lookup), and store writes are success flags. The `type: "standard"` argument of account creation is not passed to that parameter.
- `query-string`'s key ordering and percent-encoding are an abstract `stringify` parameter. Only its dropping of `undefined` values is modelled.
- Authentication: the caller's user id (`req.auth._id`) is a plain parameter. `populate`, the hotel model and the user model appear only through the fields the controller reads.
- Order timestamps (`server/models/order.js:13`) are omitted.
- Express: `res.send`/`res.json` become a `Response` value. An error that escapes a handler is `Unhandled`, and nothing is sent for it.
