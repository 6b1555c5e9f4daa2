/** Reference data (constants.ts): the seed catalog and the coupon table. */
module Constants {
  import opened Types
  import Text

  /** The catalog starts empty; products arrive through the upload form. */
  const Products: seq<Product> := []

  const ValidCoupons: seq<Coupon> := [Coupon("DEAREST20", 20), Coupon("WELCOME10", 10)]

  /** No two coupons share a code. */
  predicate DistinctCodes(table: seq<Coupon>) {
    forall i, j :: 0 <= i < j < |table| ==> table[i].code != table[j].code
  }

  /** Every code is written in upper case. */
  predicate UpperCaseCodes(table: seq<Coupon>) {
    forall i :: 0 <= i < |table| ==> Text.IsUpperCase(table[i].code)
  }

  /** Every percentage lies in 0..100. */
  predicate PercentagesInRange(table: seq<Coupon>) {
    forall i :: 0 <= i < |table| ==> 0 <= table[i].discountPercentage <= 100
  }

  lemma CouponTableWellFormed()
    ensures |ValidCoupons| == 2
    ensures ValidCoupons[0] == Coupon("DEAREST20", 20) && ValidCoupons[1] == Coupon("WELCOME10", 10)
    ensures DistinctCodes(ValidCoupons)
    ensures UpperCaseCodes(ValidCoupons)
    ensures PercentagesInRange(ValidCoupons)
  {
    assert ValidCoupons[0].code != ValidCoupons[1].code by {
      assert ValidCoupons[0].code[0] != ValidCoupons[1].code[0];
    }
  }
}
