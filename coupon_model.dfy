/**
 * The browser-side coupon model: its default attributes, the validation rules
 * the coupon form is checked against, the rule that a single-use voucher type
 * forces the quantity to 1, and the payload that saving a coupon sends.
 *
 * Dates are modelled after parsing: an attribute is unset, the empty string,
 * text that does not parse as a date, or parsed text.
 */
module CouponModel {
  import opened Wrappers
  import opened JsValues

  /**
   * A date attribute. Parsed text has two readings, since the validators use
   * two parsers: `new Date(text)` (`viaDate`) and `moment(text)` (`viaMoment`).
   * They agree on text that carries a time and an offset. Date-only ISO text
   * is read as midnight UTC by the first and as local midnight by the second.
   */
  datatype DateAttr = Unset | Blank | Unparsable | At(viaDate: int, viaMoment: int)

  /** The attributes of a coupon model (`model.attributes`). */
  datatype Attributes = Attributes(
    title: Value,
    clientUsername: Value,
    seatType: Value,
    courseId: Value,
    price: Value,
    quantity: Value,
    benefitType: Value,
    benefitValue: Value,
    startDate: DateAttr,
    endDate: DateAttr,
    stockRecordIds: Value,
    code: Value,
    voucherType: Value,
    codeType: Value)

  /** The attributes of a new model: the declared defaults, everything else unset. */
  const DefaultAttributes: Attributes := Attributes(
    title := Undefined, clientUsername := Undefined, seatType := Undefined, courseId := Undefined,
    price := Undefined, quantity := Num(1), benefitType := Undefined, benefitValue := Undefined,
    startDate := Unset, endDate := Unset, stockRecordIds := Arr([]), code := Undefined,
    voucherType := Undefined, codeType := Undefined)

  const SingleUse: Value := Str("Single use")

  predicate IsEnrollmentCode(a: Attributes)
    ensures IsEnrollmentCode(a) ==> a.codeType != Str("discount")
  {
    a.codeType == Str("enrollment")
  }

  predicate IsDiscountCode(a: Attributes)
    ensures IsDiscountCode(a) ==> a.codeType != Str("enrollment")
  {
    a.codeType == Str("discount")
  }

  // ---------------------------------------------------------------------------
  // Validation
  // ---------------------------------------------------------------------------

  datatype Field =
    | CourseId | Title | ClientUsername | SeatType | Price | Quantity | BenefitValue
    | StartDate | EndDate

  datatype FieldError =
    | ValueRequired          // a `required` rule failed
    | Message(text: string)  // a validation function returned this message

  const StartDateRequired: string := "Start date is required"
  const StartDateInvalid: string := "Start date is invalid"
  const MustOccurBeforeEnd: string := "Must occur before end date"
  const EndDateRequired: string := "End date is required"
  const EndDateInvalid: string := "End date is invalid"
  const MustOccurAfterStart: string := "Must occur after start date"

  /** Whether the field's `required` rule demands a value. */
  predicate IsRequired(a: Attributes, f: Field)
    ensures IsRequired(a, f) ==> f != CourseId && f != Quantity && f != StartDate && f != EndDate
    ensures IsRequired(a, f) && (f == Price || f == BenefitValue) ==> IsEnrollmentCode(a) || IsDiscountCode(a)
  {
    match f
    case Title => true
    case ClientUsername => true
    case SeatType => true
    case Price => IsEnrollmentCode(a)
    case BenefitValue => IsDiscountCode(a)
    case _ => false
  }

  /** The value a non-date field holds. */
  function FieldValue(a: Attributes, f: Field): Value
    requires f != StartDate && f != EndDate
  {
    match f
    case CourseId => a.courseId
    case Title => a.title
    case ClientUsername => a.clientUsername
    case SeatType => a.seatType
    case Price => a.price
    case Quantity => a.quantity
    case BenefitValue => a.benefitValue
  }

  /** `moment(x)`: an unset value means the current instant, text that does not parse is invalid. */
  function Moment(d: DateAttr, now: int): (r: Option<int>)
    ensures d.At? ==> r == Some(d.viaMoment)
    ensures d.Unset? ==> r == Some(now)
    ensures d.Blank? || d.Unparsable? ==> r.None?
  {
    match d
    case Unset => Some(now)
    case At(_, t) => Some(t)
    case _ => None
  }

  /** `moment(new Date(x))`: an unset value gives an invalid date. */
  function MomentOfDate(d: DateAttr): (r: Option<int>)
    ensures r.Some? <==> d.At?
    ensures d.At? ==> r.value == d.viaDate
  {
    if d.At? then Some(d.viaDate) else None
  }

  /**
   * The validation function of `start_date`; `now` is the clock reading. The
   * start is read through `new Date`, the end through `moment` alone.
   */
  function StartDateError(a: Attributes, now: int): (r: Option<string>)
    ensures r == Some(StartDateRequired) <==> a.startDate.Unset? || a.startDate.Blank?
    ensures r == Some(StartDateInvalid) <==> a.startDate.Unparsable?
    ensures r == Some(MustOccurBeforeEnd) <==>
              a.startDate.At? && Moment(a.endDate, now).Some? && a.startDate.viaDate > Moment(a.endDate, now).value
    ensures r.None? || r == Some(StartDateRequired) || r == Some(StartDateInvalid) || r == Some(MustOccurBeforeEnd)
  {
    match a.startDate
    case Unset => Some(StartDateRequired)
    case Blank => Some(StartDateRequired)
    case Unparsable => Some(StartDateInvalid)
    case At(start, _) =>
      var end := Moment(a.endDate, now);
      if end.Some? && start > end.value then Some(MustOccurBeforeEnd) else None
  }

  /** The validation function of `end_date`; both dates are read through `new Date`. */
  function EndDateError(a: Attributes): (r: Option<string>)
    ensures r == Some(EndDateRequired) <==> a.endDate.Unset? || a.endDate.Blank?
    ensures r == Some(EndDateInvalid) <==> a.endDate.Unparsable?
    ensures r == Some(MustOccurAfterStart) <==>
              a.endDate.At? && a.startDate.At? && a.endDate.viaDate < a.startDate.viaDate
    ensures r.None? || r == Some(EndDateRequired) || r == Some(EndDateInvalid) || r == Some(MustOccurAfterStart)
  {
    match a.endDate
    case Unset => Some(EndDateRequired)
    case Blank => Some(EndDateRequired)
    case Unparsable => Some(EndDateInvalid)
    case At(end, _) =>
      var start := MomentOfDate(a.startDate);
      if start.Some? && end < start.value then Some(MustOccurAfterStart) else None
  }

  /**
   * The error validation reports for a field, if any. Fields whose only rule
   * is a pattern (course id, quantity) and the pattern rules of price and
   * benefit value are not modelled; they report nothing here.
   */
  function ValidationError(a: Attributes, f: Field, now: int): (r: Option<FieldError>)
    ensures f != StartDate && f != EndDate ==>
              (r.Some? <==> IsRequired(a, f) && !HasValue(FieldValue(a, f)))
    ensures f != StartDate && f != EndDate && r.Some? ==> r == Some(ValueRequired)
    ensures f == StartDate ==> (r.Some? <==> StartDateError(a, now).Some?)
    ensures f == EndDate ==> (r.Some? <==> EndDateError(a).Some?)
  {
    match f
    case StartDate =>
      (match StartDateError(a, now) case Some(m) => Some(Message(m)) case None => None)
    case EndDate =>
      (match EndDateError(a) case Some(m) => Some(Message(m)) case None => None)
    case _ =>
      if !HasValue(FieldValue(a, f)) && IsRequired(a, f) then Some(ValueRequired) else None
  }

  /** Title, client username and seat type are required whatever kind of code the coupon is. */
  lemma AlwaysRequiredFields(a: Attributes, b: Attributes, f: Field, now: int)
    requires f == Title || f == ClientUsername || f == SeatType
    requires FieldValue(a, f) == FieldValue(b, f)
    ensures ValidationError(a, f, now) == ValidationError(b, f, now)
    ensures ValidationError(a, f, now).Some? <==> !HasValue(FieldValue(a, f))
  {
  }

  /** A title made only of characters that trimming removes is reported as missing. */
  lemma BlankTitleRequired(a: Attributes, now: int)
    requires a.title.Str? && forall i :: 0 <= i < |a.title.s| ==> IsJsSpace(a.title.s[i])
    ensures ValidationError(a, Title, now) == Some(ValueRequired)
  {
  }

  /**
   * Price is required exactly for enrollment codes and the benefit value
   * exactly for discount codes, so never both.
   */
  lemma PriceOrBenefitRequired(a: Attributes)
    ensures IsRequired(a, Price) <==> a.codeType == Str("enrollment")
    ensures IsRequired(a, BenefitValue) <==> a.codeType == Str("discount")
    ensures !(IsRequired(a, Price) && IsRequired(a, BenefitValue))
  {
  }

  /** An empty date is reported as missing, on either end. */
  lemma EmptyDatesRequired(a: Attributes, now: int)
    ensures (a.startDate.Unset? || a.startDate.Blank?) ==>
              ValidationError(a, StartDate, now) == Some(Message(StartDateRequired))
    ensures (a.endDate.Unset? || a.endDate.Blank?) ==>
              ValidationError(a, EndDate, now) == Some(Message(EndDateRequired))
  {
  }

  /**
   * For two parsed dates whose end text both parsers read alike, the two
   * ordering errors come together, and they come exactly when the start is
   * strictly after the end.
   */
  lemma DateOrderErrorsAgree(a: Attributes, now: int)
    requires a.startDate.At? && a.endDate.At?
    requires a.endDate.viaDate == a.endDate.viaMoment
    ensures StartDateError(a, now) == Some(MustOccurBeforeEnd) <==> EndDateError(a) == Some(MustOccurAfterStart)
    ensures EndDateError(a) == Some(MustOccurAfterStart) <==> a.startDate.viaDate > a.endDate.viaDate
    ensures StartDateError(a, now).None? <==> EndDateError(a).None?
  {
  }

  /**
   * The same date-only text as start and end, east of UTC, where local
   * midnight comes before midnight UTC: the start is reported as not before
   * the end, while the end is accepted.
   */
  lemma SameDateOnlyTextDisagrees(a: Attributes, now: int)
    requires a.startDate == a.endDate && a.endDate.At?
    requires a.endDate.viaMoment < a.endDate.viaDate
    ensures StartDateError(a, now) == Some(MustOccurBeforeEnd)
    ensures EndDateError(a).None?
  {
  }

  /**
   * With no end date set, the start date is compared with the current
   * instant: `moment(undefined)` is "now".
   */
  lemma StartComparedWithNowWhenEndUnset(a: Attributes, now: int)
    requires a.startDate.At? && a.endDate.Unset?
    ensures StartDateError(a, now) == Some(MustOccurBeforeEnd) <==> a.startDate.viaDate > now
    ensures EndDateError(a) == Some(EndDateRequired)
  {
  }

  // ---------------------------------------------------------------------------
  // The model object
  // ---------------------------------------------------------------------------

  /** A coupon model with its `change:voucher_type` listener registered (`initialize`). */
  class Coupon {
    var attributes: Attributes

    constructor ()
      ensures attributes == DefaultAttributes
      ensures attributes.quantity == Num(1) && attributes.stockRecordIds == Arr([])
    {
      attributes := DefaultAttributes;
    }

    /** `changeVoucherType(model, value)`, run on a change of `voucher_type`. */
    method ChangeVoucherType(value: Value)
      modifies this
      ensures value == SingleUse ==> attributes == old(attributes).(quantity := Num(1))
      ensures value != SingleUse ==> attributes == old(attributes)
    {
      if value == SingleUse {
        attributes := attributes.(quantity := Num(1));
      }
    }

    /**
     * `set('voucher_type', value)`. The change event, and with it
     * `changeVoucherType`, fires only when the value differs from the old one.
     */
    method SetVoucherType(value: Value) returns (changed: bool)
      modifies this
      ensures changed <==> old(attributes.voucherType) != value
      ensures attributes.voucherType == value
      ensures changed && value == SingleUse ==> attributes.quantity == Num(1)
      ensures !(changed && value == SingleUse) ==> attributes.quantity == old(attributes.quantity)
      ensures attributes == old(attributes).(voucherType := value, quantity := attributes.quantity)
    {
      changed := attributes.voucherType != value;
      attributes := attributes.(voucherType := value);
      if changed {
        ChangeVoucherType(value);
      }
    }

    /** `set('code_type', value)`; reports whether a change event fired. */
    method SetCodeType(value: Value) returns (changed: bool)
      modifies this
      ensures changed <==> old(attributes.codeType) != value
      ensures attributes == old(attributes).(codeType := value)
    {
      changed := attributes.codeType != value;
      attributes := attributes.(codeType := value);
    }

    /** `set('benefit_type', value)`; reports whether a change event fired. */
    method SetBenefitType(value: Value) returns (changed: bool)
      modifies this
      ensures changed <==> old(attributes.benefitType) != value
      ensures attributes == old(attributes).(benefitType := value)
    {
      changed := attributes.benefitType != value;
      attributes := attributes.(benefitType := value);
    }
  }

  // ---------------------------------------------------------------------------
  // The save payload
  // ---------------------------------------------------------------------------

  /**
   * The data `save` sends. A field left Undefined is absent from the JSON
   * text, since `JSON.stringify` drops undefined members.
   */
  datatype Payload = Payload(
    title: Value,
    clientUsername: Value,
    startDate: DateAttr,
    endDate: DateAttr,
    stockRecordIds: Value,
    code: Value,
    voucherType: Value,
    quantity: Value,
    price: Value,
    benefitType: Value,
    benefitValue: Value)

  /** The payload `save` builds from the model's attributes. */
  function SavePayload(a: Attributes): (p: Payload)
    ensures p.title == a.title && p.clientUsername == a.clientUsername
    ensures p.startDate == a.startDate && p.endDate == a.endDate
    ensures p.stockRecordIds == a.stockRecordIds && p.voucherType == a.voucherType
    ensures p.quantity == a.quantity
    ensures Truthy(a.code) ==> p.code == a.code
    ensures !Truthy(a.code) ==> p.code == Str("")
    ensures IsEnrollmentCode(a) ==>
              p.price == a.price && p.benefitType == Str("Percentage") && p.benefitValue == Num(100)
    ensures IsDiscountCode(a) ==>
              p.price == Num(0) && p.benefitType == a.benefitType && p.benefitValue == a.benefitValue
    ensures !IsEnrollmentCode(a) && !IsDiscountCode(a) ==>
              p.price == Undefined && p.benefitType == Undefined && p.benefitValue == Undefined
  {
    var data := Payload(
      title := a.title,
      clientUsername := a.clientUsername,
      startDate := a.startDate,
      endDate := a.endDate,
      stockRecordIds := a.stockRecordIds,
      code := Or(a.code, Str("")),
      voucherType := a.voucherType,
      quantity := a.quantity,
      price := Undefined,
      benefitType := Undefined,
      benefitValue := Undefined);
    if a.codeType == Str("enrollment") then
      data.(price := a.price, benefitType := Str("Percentage"), benefitValue := Num(100))
    else if a.codeType == Str("discount") then
      data.(price := Num(0), benefitType := a.benefitType, benefitValue := a.benefitValue)
    else data
  }

  /** The payload always carries a code: the model's, or the empty string. */
  lemma PayloadCodeAlwaysString(a: Attributes)
    ensures SavePayload(a).code != Undefined
    ensures SavePayload(a).code == Str("") || SavePayload(a).code == a.code
  {
  }
}
