/**
 * The money rules of the cart and checkout pages: a closed coupon table, the
 * discount on the cart subtotal, a flat shipping fee waived strictly above a
 * threshold, and the two pages' totals. Amounts are exact reals.
 */
module Pricing {

  import Cart

  /** Shipping is free only for a subtotal strictly above this. */
  const FreeShippingThreshold: real := 100.0
  /** The flat fee charged otherwise. */
  const ShippingFee: real := 15.0

  /** `handleApplyCoupon`: an exact, case-sensitive lookup in a two-entry
      table; every other code, the empty one included, yields no discount. */
  function CouponRate(code: string): (rate: real)
    ensures code == "TECH20" ==> rate == 0.2
    ensures code == "TECH10" ==> rate == 0.1
    ensures rate != 0.0 <==> code == "TECH20" || code == "TECH10"
    ensures 0.0 <= rate <= 0.2
  {
    if code == "TECH20" then 0.2
    else if code == "TECH10" then 0.1
    else 0.0
  }

  /** Shipping is decided on the subtotal before any discount. */
  function Shipping(subtotal: real): (fee: real)
    ensures fee == 0.0 <==> subtotal > FreeShippingThreshold
    ensures fee == 0.0 || fee == ShippingFee
  {
    if subtotal > FreeShippingThreshold then 0.0 else ShippingFee
  }

  function DiscountAmount(subtotal: real, rate: real): (amount: real)
    ensures rate == 0.0 ==> amount == 0.0
    ensures subtotal >= 0.0 && 0.0 <= rate <= 1.0 ==> 0.0 <= amount <= subtotal
  {
    subtotal * rate
  }

  /** The cart page's total: subtotal less the discount, plus shipping. */
  function CartTotal(subtotal: real, rate: real): (total: real)
    ensures total + DiscountAmount(subtotal, rate) == subtotal + Shipping(subtotal)
  {
    subtotal - DiscountAmount(subtotal, rate) + Shipping(subtotal)
  }

  /** The checkout page's total: subtotal plus shipping, with no coupon. */
  function CheckoutTotal(subtotal: real): (total: real)
    ensures total == CartTotal(subtotal, 0.0)
    ensures total - subtotal == 0.0 <==> subtotal > FreeShippingThreshold
  {
    subtotal + Shipping(subtotal)
  }

  /** For a subtotal that is not negative and any rate the coupon table
      yields, the cart total lies between the subtotal at the largest discount
      and the subtotal plus the fee. */
  lemma CartTotalBounds(subtotal: real, rate: real)
    requires subtotal >= 0.0 && 0.0 <= rate <= 0.2
    ensures 0.0 <= 0.8 * subtotal <= CartTotal(subtotal, rate)
    ensures CartTotal(subtotal, rate) <= subtotal + ShippingFee
  {
    var d := DiscountAmount(subtotal, rate);
    assert d <= 0.2 * subtotal by {
      var slack := 0.2 - rate;
      assert subtotal * slack >= 0.0;
      assert subtotal * 0.2 == subtotal * rate + subtotal * slack;
    }
  }

  /** A subtotal of exactly the threshold still pays the fee. */
  lemma ThresholdIsStrict()
    ensures Shipping(FreeShippingThreshold) == ShippingFee
    ensures CheckoutTotal(FreeShippingThreshold) == FreeShippingThreshold + ShippingFee
  {
  }

  /** The checkout page never charges less than the cart page showed, and
      charges more exactly when a coupon discounted a positive subtotal. */
  lemma CheckoutIgnoresCoupon(subtotal: real, code: string)
    requires subtotal >= 0.0
    ensures CartTotal(subtotal, CouponRate(code)) <= CheckoutTotal(subtotal)
    ensures CartTotal(subtotal, CouponRate(code)) < CheckoutTotal(subtotal) <==>
              subtotal > 0.0 && CouponRate(code) > 0.0
  {
    var rate := CouponRate(code);
    if subtotal > 0.0 && rate > 0.0 {
      assert subtotal * rate > 0.0;
    }
  }

  /** A coupon cannot push a subtotal above the threshold back under it: the
      discounted total of a cart over the threshold never includes the fee. */
  lemma DiscountKeepsFreeShipping(subtotal: real, code: string)
    requires subtotal > FreeShippingThreshold
    ensures CartTotal(subtotal, CouponRate(code)) == subtotal - DiscountAmount(subtotal, CouponRate(code))
    ensures CouponRate(code) == 0.2 ==> CartTotal(subtotal, CouponRate(code)) == 0.8 * subtotal
  {
  }

  /** One line at 250 with quantity 2 and the code TECH10: subtotal 500,
      discount 50, no shipping, total 450. */
  lemma WorkedExample()
    ensures var cart := [Cart.CartLine(1, "Headset", 250.0, 2, "h.jpg")];
            var subtotal := Cart.Total(cart);
            subtotal == 500.0 &&
            DiscountAmount(subtotal, CouponRate("TECH10")) == 50.0 &&
            Shipping(subtotal) == 0.0 &&
            CartTotal(subtotal, CouponRate("TECH10")) == 450.0
  {
    var cart := [Cart.CartLine(1, "Headset", 250.0, 2, "h.jpg")];
    assert Cart.Total(cart) == Cart.Amount(cart[0]) + Cart.Total(cart[1..]);
    assert cart[1..] == [];
  }
}
