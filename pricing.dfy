/** Money arithmetic of the checkout: JavaScript's `Math.round`, the platform
    fee and the conversion of a listing price to minor units (cents).
    Prices are exact reals here; see README for what that leaves out. */
module Pricing {

  /** `Math.round(x)`: the integer nearest to `x`, halves rounded up. */
  function Round(x: real): (r: int)
    ensures r as real - 0.5 <= x < r as real + 0.5
  {
    (x + 0.5).Floor
  }

  /** The 20% platform fee, in the price's own unit. */
  function Fee(price: real): (fee: int)
    ensures fee as real - 0.5 <= price / 5.0 < fee as real + 0.5
    ensures price >= 0.0 ==> 0 <= fee && fee as real <= price
  {
    Round(price * 20.0 / 100.0)
  }

  /** The price in cents, as sent in a line item's `unit_amount`. */
  function UnitAmount(price: real): (cents: int)
    ensures cents as real - 0.5 <= price * 100.0 < cents as real + 0.5
    ensures price >= 0.0 ==> cents >= 0
    ensures price == price.Floor as real ==> cents == 100 * price.Floor
  {
    Round(price * 100.0)
  }
}
