/**
 * The coupon views of the storefront: looking a voucher up by its code, the
 * offer page that shows what a code buys, and redemption, which rebuilds the
 * user's basket around the voucher and places a free order.
 *
 * The commerce toolkit's own logic (whether a voucher is active or available
 * to the user, whether a product can be bought, which offers apply, the
 * basket total, order placement) is not part of this model: each enters as an
 * input.
 */
module CouponViews {
  import opened Wrappers
  import opened Strings

  type Code = string

  /** A product as the coupon views use it: its printed form (the title) and its course. */
  datatype Product = Product(id: nat, title: string, courseId: string)

  /** A conditional offer, seen through `offer.benefit.range.all_products()`. */
  datatype Offer = Offer(rangeProducts: seq<Product>)

  datatype Voucher = Voucher(id: nat, code: Code, offers: seq<Offer>)

  /** The voucher table. Voucher codes are unique, so it maps each code to the voucher carrying it. */
  type VoucherTable = t: map<Code, Voucher> | forall c :: c in t ==> t[c].code == c
    witness map[]

  /** Exceptions that the views let escape; each one ends the request as a server error. */
  datatype Exception =
    | IndexError      // `offers.all()[0]` on a voucher without offers
    | AttributeError  // an attribute read on None, or on an anonymous user
    | UnboundLocalError // a NameError: `voucher` read before it was bound

  /** The pair `(voucher, product)` that `get_voucher` returns. */
  datatype Lookup = Lookup(voucher: Option<Voucher>, product: Option<Product>)

  /** `get_voucher(code)`. */
  function GetVoucher(table: VoucherTable, code: Code): (r: Result<Lookup, Exception>)
    ensures r == Ok(Lookup(None, None)) <==> code !in table
    ensures r.Err? <==> code in table && table[code].offers == []
    ensures r.Err? ==> r.error == IndexError
    ensures r.Ok? && code in table ==>
              r.value.voucher == Some(table[code]) && r.value.voucher.value.code == code
    ensures r.Ok? && r.value.voucher.Some? ==>
              var range := r.value.voucher.value.offers[0].rangeProducts;
              (r.value.product.None? <==> range == []) &&
              (r.value.product.Some? ==> r.value.product.value == range[0])
  {
    if code !in table then Ok(Lookup(None, None))
    else
      var voucher := table[code];
      if |voucher.offers| == 0 then Err(IndexError)
      else
        var products := voucher.offers[0].rangeProducts;
        Ok(Lookup(Some(voucher), if |products| > 0 then Some(products[0]) else None))
  }

  // ---------------------------------------------------------------------------
  // The offer page
  // ---------------------------------------------------------------------------

  /** The course information the course API returns. */
  datatype Course = Course(courseId: string, name: string)

  /** The template context of the offer page. */
  datatype OfferPage =
    | CoursePage(course: Course, code: Code)
    | OfferError(error: string)

  const CodeNotValid: string := "Code not valid."

  function CourseFetchFailed(reason: string): string
  {
    "Could not get course information. [" + reason + "]"
  }

  /**
   * The toolkit's answers and the course API that the offer page consults.
   * `anonymous` says that the requesting user is not logged in, so has no
   * access token; `fetchCourse` is the course API, failing with the text of
   * its HTTP error.
   */
  datatype OfferInputs = OfferInputs(
    isActive: Voucher -> bool,
    availableToUser: Voucher -> bool,
    anonymous: bool,
    fetchCourse: string -> Result<Course, string>)

  /**
   * `CouponOfferView.get_context_data`. A code whose voucher exists, is active
   * and is available to the user leads to the course API, asked for the
   * course of the first product of the voucher's first offer; reading the
   * user's access token or the product's course id on None raises.
   */
  function OfferContext(code: Option<Code>, table: VoucherTable, env: OfferInputs): (r: Result<OfferPage, Exception>)
    ensures r.Ok? && r.value.CoursePage? ==>
              code == Some(r.value.code) && code.value in table &&
              env.isActive(table[code.value]) && env.availableToUser(table[code.value])
    ensures code.Some? && code.value in table && table[code.value].offers == [] ==> r == Err(IndexError)
    ensures code.Some? && code.value in table && table[code.value].offers != [] &&
            env.isActive(table[code.value]) && env.availableToUser(table[code.value]) ==>
              var range := table[code.value].offers[0].rangeProducts;
              && (env.anonymous || range == [] ==> r == Err(AttributeError))
              && (!env.anonymous && range != [] ==>
                    match env.fetchCourse(range[0].courseId)
                    case Ok(course) => r == Ok(CoursePage(course, code.value))
                    case Err(reason) => r == Ok(OfferError(CourseFetchFailed(reason))))
  {
    if code.None? then Ok(OfferError(CodeNotValid))
    else
      match GetVoucher(table, code.value)
      case Err(e) => Err(e)
      case Ok(Lookup(voucher, product)) =>
        if voucher.Some? && env.isActive(voucher.value) && env.availableToUser(voucher.value) then
          if env.anonymous then Err(AttributeError)
          else if product.None? then Err(AttributeError)
          else
            match env.fetchCourse(product.value.courseId)
            case Err(reason) => Ok(OfferError(CourseFetchFailed(reason)))
            case Ok(course) => Ok(CoursePage(course, code.value))
        else Ok(OfferError(CodeNotValid))
  }

  /**
   * Whenever the lookup itself does not fail, the page says "Code not valid."
   * exactly when one of the four conditions fails: a code was given, a voucher
   * has it, the voucher is active, and it is available to the user.
   */
  lemma OfferCodeNotValidExactly(code: Option<Code>, table: VoucherTable, env: OfferInputs)
    requires code.Some? && code.value in table ==> table[code.value].offers != []
    ensures OfferContext(code, table, env) == Ok(OfferError(CodeNotValid)) <==>
              !(code.Some? && code.value in table &&
                env.isActive(table[code.value]) && env.availableToUser(table[code.value]))
  {
    forall reason: string ensures CourseFetchFailed(reason) != CodeNotValid {
      assert CourseFetchFailed(reason)[2] == 'u' && CodeNotValid[2] == 'd';
    }
  }

  // ---------------------------------------------------------------------------
  // The basket
  // ---------------------------------------------------------------------------

  datatype BasketStatus = Open | Merged | Saved | Frozen | Submitted

  datatype Line = Line(product: Product, quantity: nat)

  /** One entry of `basket.offer_applications`: the voucher that brought the offer, if any. */
  datatype OfferApplication = OfferApplication(voucher: Option<Voucher>)

  /** The part of the toolkit's basket that redemption reads and changes. */
  class Basket {
    var status: BasketStatus
    var lines: seq<Line>
    var vouchers: set<Voucher>
    var offerApplications: seq<OfferApplication>

    constructor (status: BasketStatus, lines: seq<Line>, vouchers: set<Voucher>)
      ensures this.status == status && this.lines == lines && this.vouchers == vouchers
      ensures offerApplications == []
    {
      this.status := status;
      this.lines := lines;
      this.vouchers := vouchers;
      offerApplications := [];
    }

    predicate CanBeEdited()
      reads this
    {
      status == Open || status == Saved
    }

    method Thaw()
      modifies this
      ensures status == Open
      ensures lines == old(lines) && vouchers == old(vouchers)
      ensures offerApplications == old(offerApplications)
    {
      status := Open;
    }

    method Freeze()
      modifies this
      ensures status == Frozen
      ensures lines == old(lines) && vouchers == old(vouchers)
      ensures offerApplications == old(offerApplications)
    {
      status := Frozen;
    }

    method RemoveVoucher(v: Voucher)
      modifies this
      ensures vouchers == old(vouchers) - {v}
      ensures status == old(status) && lines == old(lines)
      ensures offerApplications == old(offerApplications)
    {
      vouchers := vouchers - {v};
    }

    method AddVoucher(v: Voucher)
      modifies this
      ensures vouchers == old(vouchers) + {v}
      ensures status == old(status) && lines == old(lines)
      ensures offerApplications == old(offerApplications)
    {
      vouchers := vouchers + {v};
    }

    method ResetOfferApplications()
      modifies this
      ensures offerApplications == []
      ensures status == old(status) && lines == old(lines) && vouchers == old(vouchers)
    {
      offerApplications := [];
    }

    /** Removes every line; the toolkit refuses to flush a frozen basket. */
    method Flush()
      requires status != Frozen
      modifies this
      ensures lines == []
      ensures status == old(status) && vouchers == old(vouchers)
      ensures offerApplications == old(offerApplications)
    {
      lines := [];
    }

    /** Adds `quantity` of `product`: to its existing line, or as a new last line. */
    method AddProduct(product: Product, quantity: nat)
      requires CanBeEdited()
      modifies this
      ensures lines == AddedTo(old(lines), product, quantity)
      ensures status == old(status) && vouchers == old(vouchers)
      ensures offerApplications == old(offerApplications)
    {
      lines := AddedTo(lines, product, quantity);
    }

    /** Records what the toolkit's offer applicator found for the basket. */
    method ApplyOffers(applied: seq<OfferApplication>)
      modifies this
      ensures offerApplications == applied
      ensures status == old(status) && lines == old(lines) && vouchers == old(vouchers)
    {
      offerApplications := applied;
    }
  }

  /** The lines after adding `quantity` of `product`. */
  function AddedTo(lines: seq<Line>, product: Product, quantity: nat): (r: seq<Line>)
    ensures lines == [] ==> r == [Line(product, quantity)]
  {
    if lines == [] then [Line(product, quantity)]
    else if lines[0].product == product then [Line(product, lines[0].quantity + quantity)] + lines[1..]
    else [lines[0]] + AddedTo(lines[1..], product, quantity)
  }

  /**
   * Where the scan of the offer applications stops: at the first application
   * that came from the voucher, or at the end of the list. Every application
   * before that point detaches the voucher once more.
   */
  function ScanStop(applied: seq<OfferApplication>, voucher: Voucher): (k: nat)
    ensures k <= |applied|
    ensures forall i :: 0 <= i < k ==> applied[i].voucher != Some(voucher)
    ensures k < |applied| ==> applied[k].voucher == Some(voucher)
  {
    if applied == [] then 0
    else if applied[0].voucher == Some(voucher) then 0
    else 1 + ScanStop(applied[1..], voucher)
  }

  /**
   * Whether the new voucher is still attached after the scan: only when the
   * scan stops before detaching it even once.
   */
  predicate VoucherSurvives(applied: seq<OfferApplication>, voucher: Voucher)
    ensures VoucherSurvives(applied, voucher) <==> ScanStop(applied, voucher) == 0
  {
    applied == [] || applied[0].voucher == Some(voucher)
  }

  /**
   * An application from another offer listed first detaches the voucher, even
   * when a later application came from the voucher itself.
   */
  lemma EarlierOfferDetachesVoucher(applied: seq<OfferApplication>, voucher: Voucher)
    requires applied != [] && applied[0].voucher != Some(voucher)
    ensures !VoucherSurvives(applied, voucher)
    ensures ScanStop(applied, voucher) < |applied| <==>
              exists i :: 0 <= i < |applied| && applied[i].voucher == Some(voucher)
  {
  }

  /** `CouponRedeemView._prepare_basket`, on the basket the toolkit returned for the user. */
  method PrepareBasket(basket: Basket, product: Product, voucher: Voucher, applied: seq<OfferApplication>)
    modifies basket
    ensures basket.status == Open
    ensures basket.lines == [Line(product, 1)]
    ensures forall v :: v in old(basket.vouchers) && v != voucher ==> v !in basket.vouchers
    ensures basket.vouchers == if VoucherSurvives(applied, voucher) then {voucher} else {}
    ensures basket.offerApplications == applied
  {
    basket.Thaw();
    var attached := basket.vouchers;
    while attached != {}
      invariant basket.vouchers == attached
      invariant basket.status == Open
      decreases attached
    {
      var v :| v in attached;
      basket.RemoveVoucher(v);
      attached := attached - {v};
    }
    basket.ResetOfferApplications();
    basket.Flush();
    basket.AddProduct(product, 1);
    basket.AddVoucher(voucher);
    basket.ApplyOffers(applied);
    var discounts := basket.offerApplications;
    var i := 0;
    while i < |discounts|
      invariant 0 <= i <= |discounts|
      invariant basket.vouchers == if i == 0 then {voucher} else {}
      invariant i > 0 ==> discounts[0].voucher != Some(voucher)
      invariant basket.status == Open && basket.lines == [Line(product, 1)]
      invariant basket.offerApplications == applied
    {
      var discount := discounts[i];
      if discount.voucher.Some? && discount.voucher.value == voucher {
        break;
      }
      basket.RemoveVoucher(voucher);
      i := i + 1;
    }
  }

  // ---------------------------------------------------------------------------
  // Redemption
  // ---------------------------------------------------------------------------

  datatype Response =
    | Redirect(url: string)
    | ErrorResponse(status: int, error: string)

  const HTTP_404_NOT_FOUND: int := 404
  const HTTP_406_NOT_ACCEPTABLE: int := 406
  const HTTP_500_INTERNAL_SERVER_ERROR: int := 500

  /** The total the toolkit reports for a basket that costs nothing. */
  const FREE: int := 0

  datatype OrderStatus = OrderOpen | Complete | FulfillmentError

  /** A placed order: the frozen basket's contents and the status placement left it in. */
  datatype Order = Order(lines: seq<Line>, vouchers: set<Voucher>, status: OrderStatus)

  /**
   * What the toolkit answers during redemption: voucher activity, product
   * availability, the offer applications found for the prepared basket, the
   * basket's total before tax, the status order placement reaches, and the
   * learning platform's root URL.
   */
  datatype RedeemInputs = RedeemInputs(
    isActive: Voucher -> bool,
    availableToBuy: Product -> bool,
    applied: seq<OfferApplication>,
    totalExclTax: (seq<Line>, set<Voucher>) -> int,
    placedStatus: OrderStatus,
    lmsRoot: string)

  /** The checks that precede any change to the basket: either a final answer, or the pair to redeem. */
  datatype Checked =
    | Halt(outcome: Result<Response, Exception>)
    | Proceed(voucher: Voucher, product: Product)

  function ProductUnavailable(product: Product): string
  {
    "Product [" + product.title + "] not available for purchase."
  }

  function TotalNotFree(total: int): string
  {
    "Basket total not $0, current value = $" + IntToString(total) + "."
  }

  /** The checks of `CouponRedeemView.get`, in the order it makes them. */
  function RedeemChecks(code: Option<Code>, table: VoucherTable, env: RedeemInputs): (r: Checked)
    ensures code.None? ==> r == Halt(Err(UnboundLocalError))
    ensures code.Some? && code.value !in table ==>
              r == Halt(Ok(ErrorResponse(HTTP_404_NOT_FOUND, "Code does not exist.")))
    ensures code.Some? && code.value in table && table[code.value].offers == [] ==>
              r == Halt(Err(IndexError))
    ensures code.Some? && code.value in table && table[code.value].offers != [] &&
            !env.isActive(table[code.value]) ==>
              r == Halt(Ok(ErrorResponse(HTTP_406_NOT_ACCEPTABLE, "Code expired.")))
    ensures code.Some? && code.value in table && table[code.value].offers != [] &&
            env.isActive(table[code.value]) && table[code.value].offers[0].rangeProducts == [] ==>
              r == Halt(Err(AttributeError))
    ensures code.Some? && code.value in table && table[code.value].offers != [] &&
            env.isActive(table[code.value]) && table[code.value].offers[0].rangeProducts != [] &&
            !env.availableToBuy(table[code.value].offers[0].rangeProducts[0]) ==>
              r == Halt(Ok(ErrorResponse(HTTP_406_NOT_ACCEPTABLE,
                                         ProductUnavailable(table[code.value].offers[0].rangeProducts[0]))))
    ensures r.Proceed? <==>
              code.Some? && code.value in table && table[code.value].offers != [] &&
              env.isActive(table[code.value]) &&
              table[code.value].offers[0].rangeProducts != [] &&
              env.availableToBuy(table[code.value].offers[0].rangeProducts[0])
    ensures r.Proceed? ==>
              r.voucher == table[code.value] && r.voucher.code == code.value &&
              r.product == r.voucher.offers[0].rangeProducts[0]
  {
    if code.None? then Halt(Err(UnboundLocalError))
    else
      match GetVoucher(table, code.value)
      case Err(e) => Halt(Err(e))
      case Ok(Lookup(voucher, product)) =>
        if voucher.None? then Halt(Ok(ErrorResponse(HTTP_404_NOT_FOUND, "Code does not exist.")))
        else if !env.isActive(voucher.value) then
          Halt(Ok(ErrorResponse(HTTP_406_NOT_ACCEPTABLE, "Code expired.")))
        else if product.None? then Halt(Err(AttributeError))
        else if !env.availableToBuy(product.value) then
          Halt(Ok(ErrorResponse(HTTP_406_NOT_ACCEPTABLE, ProductUnavailable(product.value))))
        else Proceed(voucher.value, product.value)
  }

  /** `CouponRedeemView.get`: the response, and the order it placed if it placed one. */
  method Redeem(code: Option<Code>, table: VoucherTable, basket: Basket, env: RedeemInputs)
    returns (r: Result<Response, Exception>, order: Option<Order>)
    modifies basket
    ensures RedeemChecks(code, table, env).Halt? ==>
              r == RedeemChecks(code, table, env).outcome && order == None &&
              unchanged(basket)
    ensures RedeemChecks(code, table, env).Proceed? ==>
              var c := RedeemChecks(code, table, env);
              && basket.lines == [Line(c.product, 1)]
              && basket.vouchers == (if VoucherSurvives(env.applied, c.voucher) then {c.voucher} else {})
              && basket.offerApplications == env.applied
    ensures RedeemChecks(code, table, env).Proceed? ==>
              var total := env.totalExclTax(basket.lines, basket.vouchers);
              && (total != FREE ==>
                    && r == Ok(ErrorResponse(HTTP_406_NOT_ACCEPTABLE, TotalNotFree(total)))
                    && order == None
                    && basket.status == Open)
              && (total == FREE ==>
                    && basket.status == Frozen
                    && order == Some(Order(basket.lines, basket.vouchers, env.placedStatus)))
    ensures order.Some? ==> basket.status == Frozen
    ensures order.Some? ==> (r == Ok(Redirect(env.lmsRoot)) <==> order.value.status == Complete)
    ensures order.Some? && order.value.status != Complete ==>
              r == Ok(ErrorResponse(HTTP_500_INTERNAL_SERVER_ERROR, "Error when trying to redeem code."))
  {
    var checked := RedeemChecks(code, table, env);
    if checked.Halt? {
      return checked.outcome, None;
    }
    PrepareBasket(basket, checked.product, checked.voucher, env.applied);
    var total := env.totalExclTax(basket.lines, basket.vouchers);
    if total == FREE {
      basket.Freeze();
      order := Some(Order(basket.lines, basket.vouchers, env.placedStatus));
    } else {
      return Ok(ErrorResponse(HTTP_406_NOT_ACCEPTABLE, TotalNotFree(total))), None;
    }
    if order.value.status == Complete {
      r := Ok(Redirect(env.lmsRoot));
    } else {
      r := Ok(ErrorResponse(HTTP_500_INTERNAL_SERVER_ERROR, "Error when trying to redeem code."));
    }
  }
}
