/**
 * The cart drawer (components/CartDrawer.tsx): subtotal, discount and total, and the
 * coupon field with its applied-coupon / error state.
 */
module CartDrawer {
  import opened Types
  import Text
  import Seqs
  import Cart
  import Constants

  /** The key `VALID_COUPONS.find` compares: a coupon's code. */
  function Code(c: Coupon): string {
    c.code
  }

  /** With distinct codes, the table's `find` returns the one coupon carrying the code. */
  lemma FindUniqueCoupon(table: seq<Coupon>, c: Coupon, code: string)
    requires Constants.DistinctCodes(table)
    requires c in table && c.code == code
    ensures Seqs.Find(table, Code, code) == Some(c)
  {
    assert Seqs.DistinctKeys(table, Code);
    Seqs.FindUnique(table, Code, c);
  }

  /** The lookup the Apply button performs: the entered code, upper-cased, against the table. */
  function LookUp(table: seq<Coupon>, entered: string): Option<Coupon> {
    Seqs.Find(table, Code, Text.Upper(entered))
  }

  /**
   * Upper-casing only the input is a case-insensitive match for a table whose codes are
   * upper case and distinct: a coupon is found exactly when the entered text equals its
   * code up to case.
   */
  lemma LookUpIsCaseInsensitive(table: seq<Coupon>, c: Coupon, entered: string)
    requires Constants.DistinctCodes(table) && Constants.UpperCaseCodes(table)
    requires c in table
    ensures LookUp(table, entered) == Some(c) <==> Text.Upper(entered) == Text.Upper(c.code)
  {
    var k :| 0 <= k < |table| && table[k] == c;
    Text.UpperMatchIsCaseInsensitive(entered, c.code);
    if Text.Upper(entered) == c.code {
      FindUniqueCoupon(table, c, c.code);
    }
  }

  /** The entry for DEAREST20 is found under its own code. */
  lemma LookUpDearest20()
    ensures LookUp(Constants.ValidCoupons, "DEAREST20") == Some(Coupon("DEAREST20", 20))
  {
    Constants.CouponTableWellFormed();
    Text.UpperOfUpperCase("DEAREST20");
  }

  /** The code typed in small letters finds the same entry as the code in capitals. */
  lemma LowerAndUpperCodesAgree()
    ensures LookUp(Constants.ValidCoupons, "dearest20") == LookUp(Constants.ValidCoupons, "DEAREST20")
    ensures LookUp(Constants.ValidCoupons, "DEAREST20") == Some(Coupon("DEAREST20", 20))
  {
    LookUpDearest20();
    var u := Text.Upper("dearest20");
    forall i | 0 <= i < 9 ensures u[i] == "DEAREST20"[i] {
    }
    assert u == "DEAREST20";
  }

  /** `discountAmount`: a percentage of the subtotal when a coupon is applied, otherwise 0. */
  function DiscountAmount(subtotal: real, applied: Option<Coupon>): (d: real)
    ensures applied.None? ==> d == 0.0
    ensures applied.Some? ==> d * 100.0 == subtotal * applied.value.discountPercentage as real
  {
    match applied
    case None => 0.0
    case Some(c) => (subtotal * c.discountPercentage as real) / 100.0
  }

  /** `total`: the subtotal less the discount. */
  function Total(subtotal: real, applied: Option<Coupon>): (t: real)
    ensures t + DiscountAmount(subtotal, applied) == subtotal
  {
    subtotal - DiscountAmount(subtotal, applied)
  }

  /** For a percentage in 0..100 and a non-negative subtotal, 0 <= discount <= subtotal and 0 <= total <= subtotal. */
  lemma DiscountBounded(subtotal: real, applied: Option<Coupon>)
    requires subtotal >= 0.0
    requires applied.Some? ==> 0 <= applied.value.discountPercentage <= 100
    ensures 0.0 <= DiscountAmount(subtotal, applied) <= subtotal
    ensures 0.0 <= Total(subtotal, applied) <= subtotal
  {
    if applied.Some? {
      var p := applied.value.discountPercentage as real;
      ProductNonNegative(subtotal, p);
      ProductNonNegative(subtotal, 100.0 - p);
      assert subtotal * (100.0 - p) == subtotal * 100.0 - subtotal * p;
    }
  }

  lemma ProductNonNegative(a: real, b: real)
    requires a >= 0.0 && b >= 0.0
    ensures a * b >= 0.0
  {
  }

  /** One line at 1000 times 2 makes a subtotal of 2000; DEAREST20 takes 400 off, leaving 1600. */
  lemma WorkedExample(p: Product)
    requires p.price == 1000.0
    ensures Cart.CartTotal([CartItem(p, 2)]) == 2000.0
    ensures DiscountAmount(2000.0, LookUp(Constants.ValidCoupons, "DEAREST20")) == 400.0
    ensures Total(2000.0, LookUp(Constants.ValidCoupons, "DEAREST20")) == 1600.0
  {
    LowerAndUpperCodesAgree();
    assert Cart.CartTotal([CartItem(p, 2)]) == 1000.0 * 2.0 + Cart.CartTotal([]);
  }

  /**
   * The checkout page is handed `cartTotal` (App.tsx), which is the drawer's subtotal, not
   * its total: whenever a positive discount is applied to a positive subtotal, the amount
   * shown at checkout exceeds the amount shown in the drawer.
   */
  lemma CheckoutTotalIgnoresCoupon(cart: seq<CartItem>, applied: Coupon)
    requires Cart.CartTotal(cart) > 0.0 && applied.discountPercentage > 0
    ensures Cart.CartTotal(cart) > Total(Cart.CartTotal(cart), Some(applied))
  {
    var s := Cart.CartTotal(cart);
    assert s * applied.discountPercentage as real > 0.0;
  }

  /** The coupon part of the drawer's state. */
  class CouponPanel {
    var couponCode: string
    var appliedCoupon: Option<Coupon>
    var couponError: string

    /** An applied coupon comes from the table, and no error is shown beside it. */
    predicate Valid()
      reads this
    {
      appliedCoupon.Some? ==> appliedCoupon.value in Constants.ValidCoupons && couponError == ""
    }

    constructor ()
      ensures Valid()
      ensures couponCode == "" && appliedCoupon == None && couponError == ""
    {
      couponCode := "";
      appliedCoupon := None;
      couponError := "";
    }

    method SetCouponCode(text: string)
      modifies this`couponCode
      ensures couponCode == text
    {
      couponCode := text;
    }

    /** `handleApplyCoupon`: on a hit the coupon replaces any earlier one and the error clears; on a miss both are reset to the error state. */
    method ApplyCoupon()
      modifies this`appliedCoupon, this`couponError
      ensures Valid()
      ensures appliedCoupon == LookUp(Constants.ValidCoupons, couponCode)
      ensures appliedCoupon.Some? ==> couponError == ""
      ensures appliedCoupon.None? ==> couponError == "Invalid coupon code"
    {
      var coupon := LookUp(Constants.ValidCoupons, couponCode);
      if coupon.Some? {
        appliedCoupon := coupon;
        couponError := "";
      } else {
        couponError := "Invalid coupon code";
        appliedCoupon := None;
      }
    }

    /** The total the drawer shows for its lines: the subtotal less the discount, never negative. */
    function ShownTotal(cartItems: seq<CartItem>): (t: real)
      reads this
      requires Valid()
      ensures t + Discount(cartItems) == Cart.CartTotal(cartItems)
      ensures Cart.PositiveQuantities(cartItems) && (forall i :: 0 <= i < |cartItems| ==> cartItems[i].product.price >= 0.0)
              ==> 0.0 <= t <= Cart.CartTotal(cartItems)
    {
      Total(Cart.CartTotal(cartItems), appliedCoupon)
    }

    /** The drawer's discount for the lines it is showing. */
    function Discount(cartItems: seq<CartItem>): (d: real)
      reads this
      requires Valid()
      ensures Cart.PositiveQuantities(cartItems) && (forall i :: 0 <= i < |cartItems| ==> cartItems[i].product.price >= 0.0)
              ==> 0.0 <= d <= Cart.CartTotal(cartItems)
      ensures appliedCoupon.None? ==> d == 0.0
    {
      TableCouponBounded(cartItems, appliedCoupon);
      DiscountAmount(Cart.CartTotal(cartItems), appliedCoupon)
    }
  }

  /** A coupon from the table never takes more than the subtotal of a cart with non-negative prices. */
  lemma TableCouponBounded(cart: seq<CartItem>, applied: Option<Coupon>)
    requires applied.Some? ==> applied.value in Constants.ValidCoupons
    ensures Cart.PositiveQuantities(cart) && (forall i :: 0 <= i < |cart| ==> cart[i].product.price >= 0.0)
            ==> 0.0 <= DiscountAmount(Cart.CartTotal(cart), applied) <= Cart.CartTotal(cart)
  {
    if Cart.PositiveQuantities(cart) && (forall i :: 0 <= i < |cart| ==> cart[i].product.price >= 0.0) {
      Cart.CartTotalNonNegative(cart);
      Constants.CouponTableWellFormed();
      DiscountBounded(Cart.CartTotal(cart), applied);
    }
  }
}
