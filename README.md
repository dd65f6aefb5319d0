# Coupon rules of the e-commerce service, in Dafny

This project models the coupon logic of the e-commerce service, on the server and in the browser, and proves what that logic promises.

- **Voucher lookup, the offer page and redemption** (`CouponViews`). A code is looked up in the voucher table, and the product is the first product of the first offer's range. The offer page either shows a course or says "Code not valid.". Redemption runs a fixed chain of checks (404, then 406 "Code expired.", then 406 "not available"). It then rebuilds the user's basket around the voucher, which is an in-place update of a `Basket` object. If the total is free, the basket is frozen and an order is placed. The response is a redirect when the order completes, and 500 otherwise.
- **Catalog find-or-create, SKU and UPC** (`CatalogueUtils`). A `CatalogTable` object holds the catalogs in creation order. `GetOrCreateCatalog` is the loop-based lookup. It is proved equal to a pure specification, `GetOrCreate`, about which reuse, creation, idempotence and order-independence are proved. SKU and UPC codes are the last 7 or 10 digits of the MD5 digest of a space-joined, lower-cased key, upper-cased. MD5 is a parameter.
- **The coupon model** (`CouponModel`): defaults, validation rules, the single-use rule for quantity, and the payload that saving sends.
- **The coupon form** (`CouponFormView`): its choice lists, the benefit addon, and which form groups `toggleFields` hides. The form view is a class listening to the model's changes.
- **The coupon detail page's classifiers** (`CouponDetailView`).
- **Course-id route matching** (`CourseRouter`): the three-part course id, the `show` and `edit` patterns, and the static routes.
- **The alert view** (`AlertView`).

Shared helpers:

- `Wrappers`: `Option` and `Result`.
- `Strings`: ASCII case mapping, Python-style `join`, decimal rendering.
- `JsValues`: a dynamic JavaScript value, with its truthiness, `||` defaulting, string conversion, and the validation library's "has a value" test.

Exceptions the Python code lets escape are outcomes of the model, not preconditions:

- an `IndexError` for a voucher without offers;
- an `AttributeError` for a voucher without a product, or an anonymous user;
- an `UnboundLocalError` (a `NameError`) when redemption gets no `code` parameter (`voucher` is then read unbound);
- `DoesNotExist` for an unknown stock-record id.

The commerce toolkit's own decisions enter as inputs:

- voucher activity and availability;
- product availability;
- the offer applications found for the basket;
- the basket total;
- the status order placement reaches.

The course API also enters as an input. It either returns a course or fails with the text of its HTTP error.

## Model

Helpers without a contract of their own (AlertView.AlertBody, CouponDetailView.SummaryOf, CouponViews.TotalNotFree, CouponViews.ProductUnavailable, CatalogueUtils.IsCoupon, CatalogueUtils.CatalogText, CatalogueUtils.BoolText) have no row; the lemma rows that cite the same source lines state what they compute.

| member | source | states |
|---|---|---|
| CouponViews.GetVoucher | ecommerce/coupons/views.py:32-57 | (None, None) exactly when no voucher has the code. Otherwise the voucher with that code, and the first product of its first offer's range, or None when that range is empty. IndexError exactly when the voucher has no offer. |
| CouponViews.OfferContext | ecommerce/coupons/views.py:67-96 | The course page is shown only for a given code whose voucher exists, is active and is available to the user. A voucher without an offer raises IndexError. When the four conditions hold, an anonymous user or a voucher without a product raises AttributeError. Otherwise the page is the course API's answer for the product's course id: the course and the code, or "Could not get course information. [reason]" when the fetch fails. |
| CouponViews.OfferCodeNotValidExactly | ecommerce/coupons/views.py:70-96 | When the lookup does not raise, the page says "Code not valid." exactly when one of the four conditions fails: code given, voucher exists, active, available. |
| CouponViews.Basket.Thaw | ecommerce/coupons/views.py:194 | Thawing opens the basket and changes nothing else. |
| CouponViews.Basket.Freeze | ecommerce/coupons/views.py:140 | Freezing sets the status to frozen and changes nothing else. |
| CouponViews.Basket.RemoveVoucher | ecommerce/coupons/views.py:196-198 | Detaches one voucher and nothing else. |
| CouponViews.Basket.AddVoucher | ecommerce/coupons/views.py:202 | Attaches one voucher and nothing else. |
| CouponViews.Basket.ResetOfferApplications | ecommerce/coupons/views.py:199 | Clears the offer applications and nothing else. |
| CouponViews.Basket.Flush | ecommerce/coupons/views.py:200 | Removes every line and nothing else. |
| CouponViews.Basket.AddProduct | ecommerce/coupons/views.py:201 | The lines become the old lines with the product added. |
| CouponViews.AddedTo | ecommerce/coupons/views.py:201 | Adding to an empty basket gives exactly one line of that product and quantity. |
| CouponViews.Basket.ApplyOffers | ecommerce/coupons/views.py:203-204 | Records the applicator's offer applications and nothing else. |
| CouponViews.PrepareBasket | ecommerce/coupons/views.py:176-214 | After preparation the basket is open and its lines are exactly one line of the product with quantity 1. No previously attached voucher remains. The new voucher stays attached exactly when the offer-application list is empty or its first entry came from that voucher. |
| CouponViews.ScanStop | ecommerce/coupons/views.py:206-212 | The loop stops at the first offer application that came from the voucher, or runs to the end when none did. |
| CouponViews.VoucherSurvives | ecommerce/coupons/views.py:206-212 | The voucher stays attached exactly when the scan stops before any application that did not come from the voucher: the list is empty or its first entry came from the voucher. |
| CouponViews.EarlierOfferDetachesVoucher | ecommerce/coupons/views.py:206-212 | When the first application came from something else, the voucher is removed, even if a later application came from the voucher. The scan still finds such a later match. |
| CouponViews.RedeemChecks | ecommerce/coupons/views.py:121-137 | The checks run in their fixed order: no code gives UnboundLocalError (a NameError), unknown code 404, no offer IndexError, inactive 406 "Code expired.". An empty range then raises AttributeError, and a product that cannot be bought gives 406 "Product [p] not available for purchase.". Redemption proceeds exactly when the voucher exists, is active, has a first product and that product can be bought. |
| CouponViews.Redeem | ecommerce/coupons/views.py:106-174 | The basket is untouched and no order is placed until every check passes. A non-free total gives 406 with no order and an open basket. A free total freezes the basket and places an order of its contents. The response is a redirect exactly when that order is complete, and 500 otherwise. |
| CatalogueUtils.FirstMatch | ecommerce/extensions/catalogue/utils.py:49-52 | The first catalog in table order with the same name, partner and stock-record set, or None when no catalog matches. |
| CatalogueUtils.GetOrCreate | ecommerce/extensions/catalogue/utils.py:41-57 | Raises DoesNotExist exactly when an id names no stock record, and then the table is unchanged. Otherwise it returns a catalog with the requested name, partner and stock-record set, present in the table. The table either stays the same or gains that one new catalog. |
| CatalogueUtils.ExistingCatalogReused | ecommerce/extensions/catalogue/utils.py:49-52 | When some catalog has the same name, partner and stock-record set, a catalog is returned and nothing is created. |
| CatalogueUtils.NewCatalogCreated | ecommerce/extensions/catalogue/utils.py:54-57 | When no catalog matches, exactly one catalog is appended, carrying the requested name, partner and records, and it is the one returned. |
| CatalogueUtils.GetOrCreateIdempotent | ecommerce/extensions/catalogue/utils.py:49-57 | A second call with the same arguments returns the same catalog and adds nothing. |
| CatalogueUtils.GetOrCreateIgnoresOrder | ecommerce/extensions/catalogue/utils.py:47-51 | Reordering or repeating the stock-record ids changes neither the result nor the table. |
| CatalogueUtils.CatalogTable.GetOrCreateCatalog | ecommerce/extensions/catalogue/utils.py:41-57 | The search loop and the record-adding loop produce exactly the result and table of the specification. Ids stay below the id counter, which grows by the number of catalogs created, so a new catalog's id is fresh. |
| CatalogueUtils.SkuKey | ecommerce/extensions/catalogue/utils.py:19-33 | A coupon's key always exists. A seat's key raises AttributeError exactly when its course key or its verification flag is missing. |
| CatalogueUtils.DigestCode | ecommerce/extensions/catalogue/utils.py:35-38 | Raises UnicodeEncodeError exactly when the key holds a non-ASCII character, because Python 2 encodes the text for `md5` with the ASCII codec. Otherwise the code is the last `n` digits of the MD5 digest of the lower-cased key, upper-cased: `n` upper-case hexadecimal digits that lower-case back to the digest's tail. |
| CatalogueUtils.DigestCodeIgnoresCase | ecommerce/extensions/catalogue/utils.py:35 | Keys that lower-case to the same text give the same code or the same error. |
| CatalogueUtils.GenerateSku | ecommerce/extensions/catalogue/utils.py:11-38 | A SKU is 7 upper-case hexadecimal digits: the last 7 of the MD5 digest of the lower-cased key. It raises the key's own error when the key cannot be built. Otherwise it raises UnicodeEncodeError exactly when the key holds a non-ASCII character. |
| CatalogueUtils.CouponSkuFailsOnNonAsciiCatalog | ecommerce/extensions/catalogue/utils.py:19-24 | A coupon's SKU fails exactly when the catalog text holds a non-ASCII character, and then with UnicodeEncodeError. |
| CatalogueUtils.GenerateUpc | ecommerce/extensions/catalogue/utils.py:60-73 | A UPC is 10 upper-case hexadecimal digits: the last 10 of the MD5 digest of the lower-cased title, catalog name and partner id joined by spaces. It raises UnicodeEncodeError exactly when the title or the catalog name holds a non-ASCII character. |
| CatalogueUtils.AccentedTitleRaises | ecommerce/extensions/catalogue/utils.py:65-70 | A coupon titled "Café" gets no UPC: its key cannot be encoded. |
| CatalogueUtils.CouponSkuIgnoresAttributes | ecommerce/extensions/catalogue/utils.py:19-24 | A coupon's SKU depends only on its id, the catalog text and the partner. |
| CatalogueUtils.SeatSkuIgnoresIdAndCatalog | ecommerce/extensions/catalogue/utils.py:25-33 | A seat's SKU depends on its attributes and the partner, not on its id or the catalog. |
| CatalogueUtils.SeatSkuIgnoresCase | ecommerce/extensions/catalogue/utils.py:27-35 | Seat attributes that differ only in letter case give the same SKU. |
| CatalogueUtils.CouponSkuIgnoresCase | ecommerce/extensions/catalogue/utils.py:19-24 | Catalog texts that differ only in letter case give a coupon the same SKU. |
| CatalogueUtils.UpcIgnoresCase | ecommerce/extensions/catalogue/utils.py:65-70 | Titles and catalog names that differ only in letter case give the same UPC. |
| Strings.LowerJoin | ecommerce/extensions/catalogue/utils.py:35 | Lower-casing a joined key equals joining the lower-cased parts, for a separator that lower-casing leaves alone. |
| Strings.LowerKeepsAscii | ecommerce/extensions/catalogue/utils.py:35 | Lower-casing a key neither adds nor removes a non-ASCII character. |
| CouponModel.Moment | ecommerce/static/js/models/coupon_model.js:69 | `moment(text)`: parsed text gives its `moment` reading, an unset date the current instant, and text that does not parse gives no valid instant. |
| CouponModel.MomentOfDate | ecommerce/static/js/models/coupon_model.js:80-84 | `moment(new Date(text))`: a valid instant comes only from parsed text, as its `new Date` reading; an unset date is invalid. |
| CouponModel.IsEnrollmentCode | ecommerce/static/js/models/coupon_model.js:91-93 | A coupon is an enrollment code only when its code type is 'enrollment', so never also a discount code. |
| CouponModel.IsDiscountCode | ecommerce/static/js/models/coupon_model.js:95-97 | A coupon is a discount code only when its code type is 'discount', so never also an enrollment code. |
| CouponModel.IsRequired | ecommerce/static/js/models/coupon_model.js:31-58 | Course id, quantity and the dates never carry a required rule. Price and benefit value are required only for an enrollment or a discount code. |
| CouponModel.StartDateError | ecommerce/static/js/models/coupon_model.js:59-73 | "Start date is required" exactly for an empty value, "Start date is invalid" exactly for text that does not parse. "Must occur before end date" exactly when the start, read by `new Date`, is strictly after the end read by `moment` alone, which is now when the end is unset. No other message. |
| CouponModel.EndDateError | ecommerce/static/js/models/coupon_model.js:74-88 | "End date is required" exactly for an empty value, "End date is invalid" exactly for text that does not parse. "Must occur after start date" exactly for a parsed end strictly before a parsed start, both read by `new Date`. No other message. |
| CouponModel.ValidationError | ecommerce/static/js/models/coupon_model.js:31-89 | A plain field reports "required" exactly when its required rule applies and it holds no value (for price and benefit value the source shows its pattern message instead; see Left out). Each date field reports exactly when its validation function returns a message. |
| CouponModel.BlankTitleRequired | ecommerce/static/js/models/coupon_model.js:35-37 | A title made only of white space or line terminators that trimming removes (including U+3000 and the other Unicode space separators) reports "required". |
| CouponModel.AlwaysRequiredFields | ecommerce/static/js/models/coupon_model.js:35-43 | Title, client username and seat type are required whatever the code type. |
| CouponModel.PriceOrBenefitRequired | ecommerce/static/js/models/coupon_model.js:44-58 | Price is required exactly for enrollment codes and the benefit value exactly for discount codes, never both. |
| CouponModel.EmptyDatesRequired | ecommerce/static/js/models/coupon_model.js:62-79 | An empty start or end date reports "Start date is required" or "End date is required". |
| CouponModel.DateOrderErrorsAgree | ecommerce/static/js/models/coupon_model.js:59-88 | For two parsed dates whose end text both parsers read as the same instant, "Must occur before end date" comes exactly with "Must occur after start date". Both come exactly when the start is strictly after the end. |
| CouponModel.SameDateOnlyTextDisagrees | ecommerce/static/js/models/coupon_model.js:65-85 | When start and end are the same text and `moment` reads it earlier than `new Date` (date-only text east of UTC), the start reports "Must occur before end date" while the end reports nothing. |
| CouponModel.StartComparedWithNowWhenEndUnset | ecommerce/static/js/models/coupon_model.js:69-72 | With no end date, the start date is checked against the current instant. |
| CouponModel.Coupon.constructor | ecommerce/static/js/models/coupon_model.js:26-29 | A new coupon has quantity 1 and an empty list of stock-record ids. |
| CouponModel.Coupon.ChangeVoucherType | ecommerce/static/js/models/coupon_model.js:106-110 | 'Single use' sets the quantity to 1. Any other value leaves the attributes unchanged. |
| CouponModel.Coupon.SetVoucherType | ecommerce/static/js/models/coupon_model.js:99-110 | A change event fires exactly when the value changes. Only a change to 'Single use' forces the quantity to 1, and no other attribute moves. |
| CouponModel.Coupon.SetCodeType | ecommerce/static/js/views/coupon_form_view.js:223 | Sets the code type only; a change event fires exactly when the value changes. |
| CouponModel.Coupon.SetBenefitType | ecommerce/static/js/views/coupon_form_view.js:225 | Sets the benefit type only; a change event fires exactly when the value changes. |
| CouponModel.SavePayload | ecommerce/static/js/models/coupon_model.js:125-149 | The copied fields equal the model's, and a missing code becomes ''. An enrollment code sends the model's price with benefit ('Percentage', 100). A discount code sends price 0 with the model's benefit. Any other code type sends no price or benefit. |
| CouponModel.PayloadCodeAlwaysString | ecommerce/static/js/models/coupon_model.js:131 | The payload always carries a code: the model's, or ''. |
| CouponFormView.BenefitAddon | ecommerce/static/js/views/coupon_form_view.js:93-104 | '%' exactly for 'Percentage', '$' exactly for 'Fixed', '' exactly for anything else. |
| CouponFormView.HiddenGroups | ecommerce/static/js/views/coupon_form_view.js:153-180 | The price group is hidden exactly for discount codes, and exactly one of price and benefit value is hidden. The code group is visible exactly for a discount that is not single use. The quantity group is visible exactly for single use, so code and quantity are never both visible. |
| CouponFormView.CouponFormView.constructor | ecommerce/static/js/views/coupon_form_view.js:135-143 | The view starts over its model, not yet rendered: its element holds no form group, so no group is hidden. |
| CouponFormView.CouponFormView.ToggleFields | ecommerce/static/js/views/coupon_form_view.js:145-181 | Once rendered, the class additions and removals leave exactly the groups the decision table hides for the model's current pair. Before the first render the lookups find nothing and nothing changes. |
| CouponFormView.CouponFormView.SetCodeType | ecommerce/static/js/views/coupon_form_view.js:139 | The change event fires exactly when the code type changes. On a rendered view it re-runs the toggle, so visibility follows the new pair. Setting the same value, or any value before rendering, leaves visibility alone. |
| CouponFormView.CouponFormView.SetVoucherType | ecommerce/static/js/views/coupon_form_view.js:140 | The change event fires exactly when the voucher type changes. It runs the model's quantity rule: the quantity becomes 1 on a change to 'Single use' and is otherwise unchanged. Then, on a rendered view, it runs the toggle. Setting the same value changes nothing. Before rendering, visibility is left alone. |
| CouponFormView.CouponFormView.SetBenefitType | ecommerce/static/js/views/coupon_form_view.js:225 | The change event fires exactly when the benefit type changes. Only that attribute moves, and visibility stays consistent. |
| CouponFormView.CouponFormView.Render | ecommerce/static/js/views/coupon_form_view.js:215-229 | Rendering writes the template, which restores the template's classes. It then sets code type 'discount', voucher type 'Single use' and benefit 'Percentage'. Every other attribute keeps its value, except that the quantity becomes 1 when the voucher type changes. The code-type and voucher-type events re-toggle the groups, so they are toggled exactly when the code type was not already 'discount' or the voucher type not already 'Single use'. Then only the price and code groups are hidden; otherwise the template's classes stay. |
| CouponDetailView.CodeStatus | ecommerce/static/js/views/coupon_detail_view.js:26-29 | 'ACTIVE' exactly when the end time is valid and strictly after now, 'INACTIVE' otherwise. |
| CouponDetailView.CouponType | ecommerce/static/js/views/coupon_detail_view.js:31-35 | 'Enrollment Code' exactly when the benefit is ('Percentage', 100), 'Discount Code' otherwise. |
| CouponDetailView.DiscountValue | ecommerce/static/js/views/coupon_detail_view.js:37-42 | A percentage reads as its value followed by '%'. Any other value is returned as it is. |
| CouponDetailView.UsageLimitation | ecommerce/static/js/views/coupon_detail_view.js:48-57 | A non-empty description is the caption of the voucher type the usage names. |
| CouponDetailView.UsageLimitationMatchesForm | ecommerce/static/js/views/coupon_detail_view.js:48-57 | Each of the three voucher types is described by the same caption the form offers it under. |
| CouponDetailView.UsageLimitationOtherwiseEmpty | ecommerce/static/js/views/coupon_detail_view.js:48-57 | The description is '' exactly for a usage the form does not offer. |
| CouponDetailView.DisplayPrice | ecommerce/static/js/views/coupon_detail_view.js:71 | The price reads '$' followed by the model's price. |
| CouponDetailView.EnrollmentPayloadShownAsEnrollment | ecommerce/static/js/models/coupon_model.js:137-143 | Every coupon saved as an enrollment code is classified as 'Enrollment Code', with discount '100%'. |
| CouponDetailView.DiscountPayloadShownAsDiscount | ecommerce/static/js/models/coupon_model.js:144-148 | A coupon saved as a discount code is classified as 'Discount Code' unless its benefit is exactly ('Percentage', 100). |
| CourseRouter.SeparatorIndex | ecommerce/static/js/routers/course_router.js:34 | The first '/' or '+' in the text, with no separator before it. |
| CourseRouter.ParseCourseId | ecommerce/static/js/routers/course_router.js:34 | A match is three non-empty parts: the first two free of '/' and '+', the third free of '/', joined by '/' or '+'. |
| CourseRouter.ParseExtendedId | ecommerce/static/js/routers/course_router.js:34 | Text appended after a valid id joins its third part, and matches only while that part holds no '/'. |
| CourseRouter.ParseJoin | ecommerce/static/js/routers/course_router.js:34 | Three non-empty parts joined by '/' or '+' always match, the first two free of separators and the third free of '/'. The match gives back exactly those parts. |
| CourseRouter.JoinParse | ecommerce/static/js/routers/course_router.js:34 | Whatever matches is such a three-part id, re-joined to the same text. |
| CourseRouter.PartsUnique | ecommerce/static/js/routers/course_router.js:34 | A course id splits into its three parts in one way only. |
| CourseRouter.MatchShow | ecommerce/static/js/routers/course_router.js:40 | The show pattern passes a course id, and the path is that id with or without a trailing '/'. |
| CourseRouter.MatchEdit | ecommerce/static/js/routers/course_router.js:41 | The edit pattern passes a course id, and the path is that id followed by '/edit' or '/edit/'. |
| CourseRouter.ShowAcceptsId | ecommerce/static/js/routers/course_router.js:40 | The show pattern accepts an id with or without a trailing '/' and passes the id without it. |
| CourseRouter.EditAcceptsId | ecommerce/static/js/routers/course_router.js:41 | The edit pattern accepts an id followed by '/edit' or '/edit/' and passes the id. |
| CourseRouter.EditPathIsNotShow | ecommerce/static/js/routers/course_router.js:40-41 | No id followed by '/edit' or '/edit/' matches the show pattern. |
| CourseRouter.ShowAndEditDisjoint | ecommerce/static/js/routers/course_router.js:40-41 | No path matches both the show and the edit pattern. |
| CourseRouter.PathPart | ecommerce/static/js/routers/course_router.js:22-25 | The part of a path before its first '?', holding no '?'. |
| CourseRouter.MatchIndex | ecommerce/static/js/routers/course_router.js:23 | The index pattern matches exactly an empty path or a single '/', each optionally followed by a '?' and a query. |
| CourseRouter.MatchNew | ecommerce/static/js/routers/course_router.js:24 | The creation pattern matches exactly 'new' or 'new/', each optionally followed by a '?' and a query. |
| CourseRouter.Dispatch | ecommerce/static/js/routers/course_router.js:22-41 | Routes added later are tried first: `edit`, then `show`, then index, then new. Each route is reached exactly when it matches and no earlier route does. No route is reached exactly when none matches. |
| CourseRouter.IndexRoutes | ecommerce/static/js/routers/course_router.js:23 | With every route in place, '' and '/' reach the index. |
| CourseRouter.NewRoutes | ecommerce/static/js/routers/course_router.js:24 | With every route in place, 'new' and 'new/' reach the creation page. |
| CourseRouter.CourseRoutes | ecommerce/static/js/routers/course_router.js:22-41 | With every route in place, an id with or without '/' reaches `show`, and an id followed by '/edit' or '/edit/' reaches `edit`, each with the id. |
| AlertView.AlertBodyWithTitle | ecommerce/static/js/views/alert_view.js:19-22 | With a non-empty title the body is the bold title, a space, then the message. |
| AlertView.AlertBodyWithoutTitle | ecommerce/static/js/views/alert_view.js:18-22 | With an empty or missing title the body is the message alone. |
| AlertView.AlertBodyShape | ecommerce/static/js/views/alert_view.js:18-22 | The body always ends with the message. Without a truthy title it is the message alone. With one, it starts with '<strong>' and the title, and is 18 characters longer than title and message together. |
| AlertView.AlertView.constructor | ecommerce/static/js/views/alert_view.js:11-15 | A missing or empty option defaults: level 'info', title '', message ''. |
| AlertView.AlertView.Render | ecommerce/static/js/views/alert_view.js:17-25 | The element's body is the built alert body. It gains the class 'alert-' followed by the level, and its role becomes 'alert'. |

## Left out

- The course API request and the URL helper of the offer page and of the redirect are not modelled. The course API is a parameter that returns a course or an error text. The platform's root URL is a parameter. The course image URL added to the offer context is not modelled.
- CouponViews.GetVoucher: an offer is seen through the products of its benefit's range. A benefit without a range makes `get_voucher` raise AttributeError, and the model cannot represent that voucher.
- CouponViews.OfferContext: the success page is modelled as the course and the code only. The framework's other template context entries are not part of this model.
- The commerce toolkit's decisions are inputs, because their logic is not in this repository: voucher activity and availability, `fetch_for_product` and its availability, the offer applicator, the basket total before tax, order metadata and order placement.
- CouponViews.Basket.Flush and CouponViews.Basket.AddProduct require the basket not to be frozen (and, for adding, to be open or saved). These are the toolkit's own refusals, and redemption always meets them after thawing.
- CouponViews.Redeem: the `login_required` decorator is not modelled. An anonymous request is redirected to the login page before any check runs, and the model starts after that point with the user left implicit.
- CouponViews.Redeem: the order's status is compared by equality, where the source tests identity with `is`. Order placement's other effects on the basket, such as submission, are not modelled.
- CouponViews.TotalNotFree: the total in the 406 message is rendered as a whole number. The source formats a decimal amount.
- CouponViews.ProductUnavailable: a product is printed as its title.
- Logging is not modelled.
- MD5 and `hexdigest` are a parameter that returns 32 lower-case hexadecimal digits. The digest's own computation is not modelled.
- Lower- and upper-casing are ASCII only. Python's `lower()` also maps some non-ASCII letters. The KELVIN SIGN (U+212A) becomes an ASCII 'k' and, in Python 2, the dotted capital I (U+0130) an ASCII 'i'. A key holding either raises UnicodeEncodeError in the model, where Python hashes it.
- CatalogueUtils.GenerateUpc: the promise that a UPC tells products apart holds only as far as MD5 has no collision in its last 10 digits. MD5 is a parameter, so the model states the UPC as the digest's tail and promises nothing about collisions.
- CatalogueUtils.SkuKey: a product id is a number. The `unicode(product.id)` of an unsaved product, 'None', is not modelled.
- CatalogueUtils.SkuKey: a seat attribute is either missing or a string. An attribute present with the value None makes the source's `join` raise TypeError, and that case is not modelled.
- CatalogueUtils.SkuKey: an `id_verification_required` attribute is modelled as a boolean, printed 'True' or 'False'. A missing certificate type or credit provider is ''.
- CouponDetailView.SummaryOf: the server is taken to return the payload's benefit pair with the same JavaScript types. The classifier compares with `=== 100`, so a benefit value the server sends back as the text '100.00' would read as a discount. That serialisation is not part of this model.
- CouponFormView.CouponFormView.Render: the classes the template gives the form groups are a fixed parameter of the view. The template is not part of this model, so any dependence of those classes on the attributes is not captured.
- CouponModel.ValidationError: the validation library's pattern validator is not modelled. That covers the `courseId` pattern from a validation-patterns module that is not part of this model, and the library's built-in `number` and `digits` patterns. So course id and quantity never report, and price and benefit value report only their required rule. The pattern validator also fails on a missing value whatever the pattern, so in the source an unset course id IS reported, and the model does not report it. A price or benefit value that is not required and holds no value is skipped in the source, because the required rule stops the other validators, as in the model. For price and benefit value the pattern rule is listed before the required rule, and the library keeps the first message, so where the model reports `ValueRequired` the source shows the pattern message.
- Date parsing and formatting are not modelled. A date attribute is already unset, empty, unparsable, or parsed text with its `new Date` and `moment` readings. The gap between the readings, which is local midnight against midnight UTC for date-only text, is a parameter. `moment.utc` in the payload is modelled as passing the date through.
- The request options `save` sets (method, CSRF header, content type) and the server round trip are not modelled.
- `fillFromCourse`, the seat-type options and the stickit bindings other than the benefit addon are DOM work and are not modelled. So are templates, DataTables, the voucher report download and `formatDateTime` on the detail page.
- CourseRouter: the router library's removal of a leading '#' or '/', and its URI decoding of the extracted id, are not modelled. A query after '?' is accepted by the static routes only, as the library does for string routes.
- CourseRouter: the route handlers that build the page views and replace the page's HTML are not modelled.
- JavaScript numbers are modelled as integers, and arrays as arrays of integers.
- AlertView.AlertView.Render: the level is added as a single class name, whereas the DOM library splits a level that contains spaces into several classes.
