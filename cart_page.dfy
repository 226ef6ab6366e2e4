/**
 * The cart page: the coupon field and the applied discount it keeps, the
 * totals it shows for the cart store's lines, and the quantity steppers it
 * renders beside each line.
 */
module CartPage {

  import opened Util
  import Cart
  import Pricing

  /** The amounts the order summary shows. */
  datatype Summary = Summary(subtotal: real, discountAmount: real, shipping: real, total: real)

  /** The summary of a cart under an applied discount rate. */
  function Summarize(cart: seq<Cart.CartLine>, rate: real): (s: Summary)
    ensures s.subtotal == Cart.Total(cart)
    ensures s.total == s.subtotal - s.discountAmount + s.shipping
    ensures s.discountAmount == s.subtotal * rate
    ensures s.shipping == 0.0 <==> s.subtotal > Pricing.FreeShippingThreshold
    ensures s.subtotal <= Pricing.FreeShippingThreshold ==> s.shipping == Pricing.ShippingFee
  {
    var subtotal := Cart.Total(cart);
    Summary(subtotal, Pricing.DiscountAmount(subtotal, rate), Pricing.Shipping(subtotal),
            Pricing.CartTotal(subtotal, rate))
  }

  /** For a cart with prices and quantities that are not negative and a rate
      from the coupon table, the total is neither negative nor more than the
      subtotal plus the fee. */
  lemma SummaryBounds(cart: seq<Cart.CartLine>, rate: real)
    requires forall i :: 0 <= i < |cart| ==> cart[i].price >= 0.0 && cart[i].quantity >= 0
    requires 0.0 <= rate <= 0.2
    ensures 0.0 <= Summarize(cart, rate).total <= Summarize(cart, rate).subtotal + Pricing.ShippingFee
  {
    Cart.TotalNonNegative(cart);
    Pricing.CartTotalBounds(Cart.Total(cart), rate);
  }

  class CartPageState {
    var couponCode: string
    var discount: real

    /** The discount is always a rate of the coupon table. */
    ghost predicate Valid()
      reads this
    {
      discount == 0.0 || discount == 0.1 || discount == 0.2
    }

    constructor ()
      ensures Valid() && couponCode == "" && discount == 0.0
    {
      couponCode := "";
      discount := 0.0;
    }

    /** Typing in the coupon field changes the code only. */
    method EditCoupon(text: string)
      requires Valid()
      modifies this
      ensures Valid() && couponCode == text && discount == old(discount)
    {
      couponCode := text;
    }

    /** `handleApplyCoupon`: the rate of the typed code replaces the previous
        discount, whatever it was; an unknown code resets it to zero. */
    method ApplyCoupon()
      modifies this
      ensures Valid() && couponCode == old(couponCode)
      ensures discount == Pricing.CouponRate(couponCode)
    {
      if couponCode == "TECH20" {
        discount := 0.2;
      } else if couponCode == "TECH10" {
        discount := 0.1;
      } else {
        discount := 0.0;
      }
    }

    /** The order summary for the store's current lines.  Since the applied
        discount is a rate of the coupon table, a cart without negative prices
        or quantities never shows a negative total, nor one above the subtotal
        plus the fee. */
    function Shown(store: Cart.CartStore): (s: Summary)
      requires Valid()
      reads this, store
      ensures s == Summarize(store.cart, discount)
      ensures (forall i :: 0 <= i < |store.cart| ==> store.cart[i].price >= 0.0 && store.cart[i].quantity >= 0) ==>
                0.0 <= s.total <= s.subtotal + Pricing.ShippingFee
    {
      if forall i :: 0 <= i < |store.cart| ==> store.cart[i].price >= 0.0 && store.cart[i].quantity >= 0 then
        SummaryBounds(store.cart, discount);
        Summarize(store.cart, discount)
      else
        Summarize(store.cart, discount)
    }

    /** The "−" button of a line: ask the store for one less, at least one. */
    method Decrement(store: Cart.CartStore, line: Cart.CartLine)
      requires store.Valid() && line in store.cart
      modifies store
      ensures store.Valid() && store.isLoaded == old(store.isLoaded)
      ensures store.cart == Cart.SetQuantity(old(store.cart), line.id, StepDown(line.quantity))
      ensures |store.cart| == |old(store.cart)|
      ensures Cart.HasId(store.cart, line.id)
    {
      store.UpdateQuantity(line.id, StepDown(line.quantity));
      DecrementKeepsLine(old(store.cart), line);
    }

    /** The "+" button of a line: ask the store for exactly one more. */
    method Increment(store: Cart.CartStore, line: Cart.CartLine)
      requires store.Valid() && line in store.cart
      modifies store
      ensures store.Valid() && store.isLoaded == old(store.isLoaded)
      ensures store.cart == Cart.SetQuantity(old(store.cart), line.id, line.quantity + 1)
    {
      store.UpdateQuantity(line.id, line.quantity + 1);
    }
  }

  /** The "−" stepper never removes a line: the cart keeps its length, every
      line with that id ends with a quantity of at least one, and the other
      lines are untouched. */
  lemma DecrementKeepsLine(cart: seq<Cart.CartLine>, line: Cart.CartLine)
    requires line in cart
    ensures var r := Cart.SetQuantity(cart, line.id, StepDown(line.quantity));
            && |r| == |cart|
            && Cart.HasId(r, line.id)
            && (forall i :: 0 <= i < |cart| && cart[i].id == line.id ==> r[i].quantity >= 1)
            && (forall i :: 0 <= i < |cart| && cart[i].id != line.id ==> r[i] == cart[i])
  {
    var r := Cart.SetQuantity(cart, line.id, StepDown(line.quantity));
    var k :| 0 <= k < |cart| && cart[k] == line;
    assert r[k].id == line.id;
  }

  /** The "+" stepper on a line of a cart with unique ids raises the count by
      exactly one unit and the total by that line's unit price. */
  lemma IncrementAddsOneUnit(cart: seq<Cart.CartLine>, line: Cart.CartLine)
    requires Cart.UniqueIds(cart) && line in cart && line.quantity >= 0
    ensures Cart.Count(Cart.SetQuantity(cart, line.id, line.quantity + 1)) == Cart.Count(cart) + 1
    ensures Cart.Total(Cart.SetQuantity(cart, line.id, line.quantity + 1)) == Cart.Total(cart) + line.price
  {
    var k :| 0 <= k < |cart| && cart[k] == line;
    var r := Cart.SetQuantity(cart, line.id, line.quantity + 1);
    var bumped := cart[k := cart[k].(quantity := cart[k].quantity + 1)];
    forall i | 0 <= i < |cart| ensures r[i] == bumped[i] {
      if i != k {
        assert cart[i].id != cart[k].id;
      }
    }
    assert r == bumped;
    Cart.FoldsOfIncrease(cart, k, 1);
  }
}
