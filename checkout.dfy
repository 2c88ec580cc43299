/** The checkout-session request the controller sends to the payment
    processor, and the session object the processor hands back. */
module Checkout {
  import opened Js
  import Pricing

  /** One `line_items` entry: `price_data` (currency, product name, unit amount
      in cents) and a quantity. */
  datatype LineItem = LineItem(currency: string, productName: string, unitAmount: int, quantity: int)

  /** The parameters of `checkout.sessions.create`. `applicationFeeAmount` is
      `payment_intent_data.application_fee_amount`, `transferDestination`
      is `payment_intent_data.transfer_data.destination`. */
  datatype SessionRequest = SessionRequest(
    paymentMethodTypes: seq<string>,
    lineItems: seq<LineItem>,
    mode: string,
    applicationFeeAmount: Option<int>,
    transferDestination: Option<string>,
    successUrl: string,
    cancelUrl: string)

  /** A checkout session as the processor reports it: its id, its
      `payment_status`, and the rest of the object, kept opaque. */
  datatype Session = Session(id: string, paymentStatus: string, fields: JsObject)

  /** What the buyer is charged for a list of line items, in cents. */
  function AmountDue(items: seq<LineItem>): int
  {
    if items == [] then 0 else items[0].unitAmount * items[0].quantity + AmountDue(items[1..])
  }

  /** The request for a listing `hotelId` titled `title` at `price`, paid out to
      the seller account `destination`. The platform fee is not part of it. */
  function SessionRequestFor(hotelId: string, title: string, price: real, destination: Option<string>,
                             successBase: string, cancelUrl: string): (req: SessionRequest)
    ensures req.paymentMethodTypes == ["card"] && req.mode == "payment"
    ensures |req.lineItems| == 1 && req.lineItems[0].quantity == 1
    ensures req.lineItems[0].currency == "usd" && req.lineItems[0].productName == title
    ensures req.lineItems[0].unitAmount == Pricing.UnitAmount(price)
    ensures AmountDue(req.lineItems) == Pricing.UnitAmount(price)
    ensures req.applicationFeeAmount == None
    ensures req.transferDestination == destination
    ensures req.successUrl == successBase + "/" + hotelId && req.cancelUrl == cancelUrl
  {
    var item := LineItem("usd", title, Pricing.UnitAmount(price), 1);
    assert AmountDue([item]) == item.unitAmount + AmountDue([]);
    SessionRequest(["card"], [item], "payment", None, destination, successBase + "/" + hotelId, cancelUrl)
  }
}
