/**
 * The coupon form: the choices it offers, the addon shown beside the benefit
 * value, and which form groups it hides for the current pair of code type and
 * voucher type. The view listens to the model, so every change of either
 * attribute re-runs `toggleFields`.
 */
module CouponFormView {
  import opened JsValues
  import opened CouponModel

  datatype Choice = Choice(value: string, description: string)

  /** `codeTypes`; the first entry is the one `render` selects. */
  const CodeTypes: seq<Choice> := [
    Choice("discount", "Discount Code"),
    Choice("enrollment", "Enrollment Code")]

  /** `voucherTypes`; the first entry is the one `render` selects. */
  const VoucherTypes: seq<Choice> := [
    Choice("Single use", "Can be used once by one customer"),
    Choice("Multi-use", "Can be used multiple times by multiple customers"),
    Choice("Once per customer", "Can only be used once per customer")]

  /** The `onGet` of the `.benefit-addon` binding: the unit shown beside the benefit value. */
  function BenefitAddon(benefitType: Value): (r: string)
    ensures r == "%" <==> benefitType == Str("Percentage")
    ensures r == "$" <==> benefitType == Str("Fixed")
    ensures r == "" <==> benefitType != Str("Percentage") && benefitType != Str("Fixed")
  {
    if benefitType == Str("Percentage") then "%"
    else if benefitType == Str("Fixed") then "$"
    else ""
  }

  /** The form groups whose visibility `toggleFields` decides. */
  datatype FormGroup = PriceGroup | BenefitValueGroup | CodeGroup | QuantityGroup

  /**
   * The groups that carry the 'hidden' class for a code type and a voucher
   * type: the price is entered for enrollment codes, the benefit value for
   * discount codes; a code can be chosen only for a reusable discount; a
   * quantity only for single-use vouchers.
   */
  function HiddenGroups(codeType: Value, voucherType: Value): (h: set<FormGroup>)
    ensures PriceGroup in h <==> codeType == Str("discount")
    ensures (PriceGroup in h) != (BenefitValueGroup in h)
    ensures CodeGroup !in h <==> codeType == Str("discount") && voucherType != SingleUse
    ensures QuantityGroup !in h <==> voucherType == SingleUse
    ensures CodeGroup in h || QuantityGroup in h
  {
    (if codeType == Str("discount") then {PriceGroup} else {BenefitValueGroup})
    + (if codeType == Str("discount") && voucherType != SingleUse then {} else {CodeGroup})
    + (if voucherType == SingleUse then {} else {QuantityGroup})
  }

  /**
   * The form view over one coupon model. Until `render` writes the template
   * into the view's element there are no form groups at all, so `hidden` is
   * empty and `toggleFields` finds nothing to change. Each `render` rewrites
   * the element, so `hidden` goes back to the classes the template gives the
   * groups (`templateHidden`); once `toggleFields` has run after that
   * (`toggled`), `hidden` follows the model.
   */
  class CouponFormView {
    const model: Coupon
    const templateHidden: set<FormGroup>
    var rendered: bool
    var hidden: set<FormGroup>
    ghost var toggled: bool

    ghost predicate Valid()
      reads this, model
    {
      && (!rendered ==> hidden == {} && !toggled)
      && (toggled ==> hidden == HiddenGroups(model.attributes.codeType, model.attributes.voucherType))
    }

    /**
     * `initialize`: the view starts listening to changes of code type and
     * voucher type; its element is still empty.
     */
    constructor (model: Coupon, templateHidden: set<FormGroup>)
      ensures this.model == model && this.templateHidden == templateHidden
      ensures !rendered && hidden == {} && !toggled
      ensures Valid()
    {
      this.model := model;
      this.templateHidden := templateHidden;
      rendered := false;
      hidden := {};
      toggled := false;
    }

    /**
     * `toggleFields`: adds or removes the 'hidden' class on each of the four
     * groups; before the first render the lookups match no element.
     */
    method ToggleFields()
      requires !rendered ==> hidden == {} && !toggled
      modifies this
      ensures rendered == old(rendered)
      ensures rendered ==> toggled && hidden == HiddenGroups(model.attributes.codeType, model.attributes.voucherType)
      ensures !rendered ==> hidden == old(hidden) && toggled == old(toggled)
      ensures Valid()
    {
      if !rendered {
        return;
      }
      var codeType := model.attributes.codeType;
      var voucherType := model.attributes.voucherType;

      if codeType == Str("discount") {
        hidden := hidden + {PriceGroup};
        hidden := hidden - {BenefitValueGroup};
      } else {
        hidden := hidden - {PriceGroup};
        hidden := hidden + {BenefitValueGroup};
      }

      if codeType == Str("discount") && voucherType != SingleUse {
        hidden := hidden - {CodeGroup};
      } else {
        hidden := hidden + {CodeGroup};
      }

      if voucherType == SingleUse {
        hidden := hidden - {QuantityGroup};
      } else {
        hidden := hidden + {QuantityGroup};
      }
      forall g: FormGroup ensures g in hidden <==> g in HiddenGroups(codeType, voucherType) {
        match g
        case PriceGroup =>
        case BenefitValueGroup =>
        case CodeGroup =>
        case QuantityGroup =>
      }
      toggled := true;
    }

    /**
     * `model.set('code_type', value)` with the view's listener attached;
     * `changed` says whether the change event fired.
     */
    method SetCodeType(value: Value) returns (changed: bool)
      requires Valid()
      modifies this, model
      ensures changed <==> old(model.attributes.codeType) != value
      ensures Valid()
      ensures rendered == old(rendered)
      ensures model.attributes == old(model.attributes).(codeType := value)
      ensures old(model.attributes.codeType) != value && rendered ==>
                toggled && hidden == HiddenGroups(value, model.attributes.voucherType)
      ensures old(model.attributes.codeType) == value || !rendered ==>
                hidden == old(hidden) && toggled == old(toggled)
    {
      changed := model.SetCodeType(value);
      if changed {
        ToggleFields();
      }
    }

    /**
     * `model.set('voucher_type', value)` with both listeners attached: the
     * model's `changeVoucherType` first, then the view's `toggleFields`;
     * `changed` says whether the change event fired.
     */
    method SetVoucherType(value: Value) returns (changed: bool)
      requires Valid()
      modifies this, model
      ensures changed <==> old(model.attributes.voucherType) != value
      ensures Valid()
      ensures rendered == old(rendered)
      ensures model.attributes.voucherType == value
      ensures old(model.attributes.voucherType) != value && value == SingleUse ==>
                model.attributes.quantity == Num(1)
      ensures !(changed && value == SingleUse) ==> model.attributes.quantity == old(model.attributes.quantity)
      ensures model.attributes == old(model.attributes).(voucherType := value, quantity := model.attributes.quantity)
      ensures old(model.attributes.voucherType) == value ==> model.attributes == old(model.attributes)
      ensures old(model.attributes.voucherType) != value && rendered ==>
                toggled && hidden == HiddenGroups(model.attributes.codeType, value)
      ensures old(model.attributes.voucherType) == value || !rendered ==>
                hidden == old(hidden) && toggled == old(toggled)
    {
      changed := model.SetVoucherType(value);
      if changed {
        ToggleFields();
      }
    }

    /**
     * `model.set('benefit_type', value)`; `changed` says whether the change
     * event fired, which no listener of this view or the model reacts to.
     */
    method SetBenefitType(value: Value) returns (changed: bool)
      requires Valid()
      modifies model
      ensures changed <==> old(model.attributes.benefitType) != value
      ensures Valid()
      ensures model.attributes == old(model.attributes).(benefitType := value)
    {
      changed := model.SetBenefitType(value);
    }

    /**
     * `render`: the template replaces the element's contents, which puts
     * back the template's classes, and then the first code type, the first
     * voucher type and a percentage benefit are selected. A change event
     * fires for each of the three attributes whose value differs. The view
     * re-toggles on the code-type and voucher-type events, and the model
     * resets the quantity to 1 on the voucher-type event. With neither
     * event, the groups keep the template's classes.
     */
    method Render()
      requires Valid()
      modifies this, model
      ensures Valid()
      ensures rendered
      ensures model.attributes.codeType == Str(CodeTypes[0].value)
      ensures model.attributes.voucherType == Str(VoucherTypes[0].value)
      ensures model.attributes.benefitType == Str("Percentage")
      ensures model.attributes == old(model.attributes).(
                codeType := Str("discount"), voucherType := SingleUse, benefitType := Str("Percentage"),
                quantity := if old(model.attributes.voucherType) != SingleUse then Num(1)
                            else old(model.attributes.quantity))
      ensures toggled <==> old(model.attributes.codeType) != Str("discount")
                           || old(model.attributes.voucherType) != SingleUse
      ensures hidden == if toggled then {PriceGroup, CodeGroup} else templateHidden
    {
      hidden := templateHidden;
      toggled := false;
      rendered := true;
      var _ := SetCodeType(Str(CodeTypes[0].value));
      var _ := SetVoucherType(Str(VoucherTypes[0].value));
      var _ := SetBenefitType(Str("Percentage"));
    }
  }
}
