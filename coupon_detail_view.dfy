/**
 * The classifiers the coupon detail page renders: whether a code is still
 * active, what kind of coupon it is, how its discount reads, which usage
 * limitation it has, and how its price is shown.
 */
module CouponDetailView {
  import opened Wrappers
  import opened JsValues
  import opened CouponModel
  import CouponFormView

  /**
   * The coupon's first voucher as the API serializes it: its benefit pair
   * `[type, value]`, its usage, and its end instant (None when the text does
   * not parse as a date).
   */
  datatype VoucherSummary = VoucherSummary(
    benefitType: Value,
    benefitValue: Value,
    usage: Value,
    endDatetime: Option<int>)

  /** `codeStatus(voucher)`; `now` is `Date.now()`. */
  function CodeStatus(voucher: VoucherSummary, now: int): (r: string)
    ensures r == "ACTIVE" || r == "INACTIVE"
    ensures r == "ACTIVE" <==> voucher.endDatetime.Some? && voucher.endDatetime.value > now
  {
    if voucher.endDatetime.Some? && voucher.endDatetime.value > now then "ACTIVE" else "INACTIVE"
  }

  /** `couponType(voucher)`: a 100% percentage benefit is how an enrollment code shows. */
  function CouponType(voucher: VoucherSummary): (r: string)
    ensures r == "Enrollment Code" || r == "Discount Code"
    ensures r == "Enrollment Code" <==> voucher.benefitType == Str("Percentage") && voucher.benefitValue == Num(100)
  {
    if voucher.benefitType == Str("Percentage") && voucher.benefitValue == Num(100) then "Enrollment Code"
    else "Discount Code"
  }

  /** `discountValue(voucher)`: a percentage gets a '%' appended; other values are shown as they are. */
  function DiscountValue(voucher: VoucherSummary): (r: Value)
    ensures voucher.benefitType == Str("Percentage") ==>
              r.Str? && |r.s| > 0 && r.s[|r.s| - 1] == '%' && r.s[..|r.s| - 1] == ToJsString(voucher.benefitValue)
    ensures voucher.benefitType != Str("Percentage") ==> r == voucher.benefitValue
  {
    if voucher.benefitType == Str("Percentage") then Str(ToJsString(voucher.benefitValue) + "%")
    else voucher.benefitValue
  }

  /** `usageLimitation(voucher)`. */
  function UsageLimitation(usage: Value): (r: string)
    ensures r != "" ==>
              exists i :: 0 <= i < |CouponFormView.VoucherTypes| &&
                usage == Str(CouponFormView.VoucherTypes[i].value) && r == CouponFormView.VoucherTypes[i].description
  {
    var types := CouponFormView.VoucherTypes;
    if usage == Str("Single use") then
      assert usage == Str(types[0].value);
      "Can be used once by one customer"
    else if usage == Str("Multi-use") then
      assert usage == Str(types[1].value);
      "Can be used multiple times by multiple customers"
    else if usage == Str("Once per customer") then
      assert usage == Str(types[2].value);
      "Can only be used once per customer"
    else ""
  }

  /** The detail page describes each voucher type with the caption the form offers it under. */
  lemma UsageLimitationMatchesForm(i: nat)
    requires i < |CouponFormView.VoucherTypes|
    ensures UsageLimitation(Str(CouponFormView.VoucherTypes[i].value)) == CouponFormView.VoucherTypes[i].description
  {
  }

  /** A usage the form does not offer is described by the empty string, and only such a usage. */
  lemma UsageLimitationOtherwiseEmpty(usage: Value)
    ensures UsageLimitation(usage) == "" <==>
              forall i :: 0 <= i < |CouponFormView.VoucherTypes| ==> usage != Str(CouponFormView.VoucherTypes[i].value)
  {
    if UsageLimitation(usage) != "" {
      var k := if usage == Str("Single use") then 0 else if usage == Str("Multi-use") then 1 else 2;
      assert usage == Str(CouponFormView.VoucherTypes[k].value);
    }
  }

  /** The price line of the page: '$' followed by the model's price. */
  function DisplayPrice(price: Value): (r: string)
    ensures |r| > 0 && r[0] == '$' && r[1..] == ToJsString(price)
  {
    "$" + ToJsString(price)
  }

  /** The voucher the server creates from a saved payload carries the payload's benefit pair. */
  function SummaryOf(p: Payload, endDatetime: Option<int>): VoucherSummary
  {
    VoucherSummary(p.benefitType, p.benefitValue, p.voucherType, endDatetime)
  }

  /** Every coupon saved as an enrollment code is shown as an enrollment code. */
  lemma EnrollmentPayloadShownAsEnrollment(a: Attributes, endDatetime: Option<int>)
    requires IsEnrollmentCode(a)
    ensures CouponType(SummaryOf(SavePayload(a), endDatetime)) == "Enrollment Code"
    ensures DiscountValue(SummaryOf(SavePayload(a), endDatetime)) == Str("100%")
  {
  }

  /**
   * A coupon saved as a discount code is shown as a discount code unless its
   * benefit is exactly a 100% percentage, which reads as an enrollment code.
   */
  lemma DiscountPayloadShownAsDiscount(a: Attributes, endDatetime: Option<int>)
    requires IsDiscountCode(a)
    ensures CouponType(SummaryOf(SavePayload(a), endDatetime)) == "Discount Code" <==>
              !(a.benefitType == Str("Percentage") && a.benefitValue == Num(100))
  {
  }
}
