/** The other revision of the order schemas, with the order types
    `STANDARD`, `OVERSEAS` and `ECOUPON`. Its product, discount and payment
    shapes are the same as those of `OrderSchemas` and are shared; its form
    only asks for a non-empty phone, and its payload carries one product
    object and all the form's keys. */
module FeatureOrderSchemas {
  import opened Wrappers
  import Lib = OrderSchemas

  datatype OrderType = Standard | Overseas | Ecoupon

  function OrderTypeTag(t: OrderType): string {
    match t
    case Standard => "STANDARD"
    case Overseas => "OVERSEAS"
    case Ecoupon => "ECOUPON"
  }

  /** `orderTypeSchema = z.enum(['STANDARD', 'OVERSEAS', 'ECOUPON'])`. */
  function ParseOrderType(s: string): (r: Option<OrderType>)
    ensures r.None? <==> s != "STANDARD" && s != "OVERSEAS" && s != "ECOUPON"
    ensures r.Some? ==> OrderTypeTag(r.value) == s
  {
    if s == "STANDARD" then Some(Standard)
    else if s == "OVERSEAS" then Some(Overseas)
    else if s == "ECOUPON" then Some(Ecoupon)
    else None
  }

  /** First refinement: `STANDARD` and `OVERSEAS` orders need a non-empty
      `addr`. */
  predicate AddrRule(t: OrderType, f: Lib.OrderFormValues) {
    (t == Standard || t == Overseas) ==> Lib.Filled(f.addr)
  }

  /** Second refinement: `OVERSEAS` orders need a non-empty `customsId`. */
  predicate CustomsIdRule(t: OrderType, f: Lib.OrderFormValues) {
    t == Overseas ==> Lib.Filled(f.customsId)
  }

  /** The paths the per-field rules report; the phone only has to be
      non-empty in this revision. */
  function FieldIssues(f: Lib.OrderFormValues): (r: set<Lib.FormField>)
    ensures Lib.OrderTypeKey in r <==> ParseOrderType(f.orderType).None?
    ensures Lib.OrderCstNmKey in r <==> f.orderCstNm == []
    ensures Lib.OrderMobilePhoneKey in r <==> f.orderMobilePhone == []
    ensures Lib.ProductIdKey in r <==> f.productId == []
    ensures Lib.PaymentIdKey in r <==> f.paymentId == []
    ensures Lib.ReceiverKey in r <==> f.receiver == []
    ensures Lib.AddrKey !in r && Lib.CustomsIdKey !in r
  {
    (if ParseOrderType(f.orderType).None? then {Lib.OrderTypeKey} else {})
    + (if f.orderCstNm == [] then {Lib.OrderCstNmKey} else {})
    + (if f.orderMobilePhone == [] then {Lib.OrderMobilePhoneKey} else {})
    + (if f.productId == [] then {Lib.ProductIdKey} else {})
    + (if f.paymentId == [] then {Lib.PaymentIdKey} else {})
    + (if f.receiver == [] then {Lib.ReceiverKey} else {})
  }

  /** `orderFormSchema` of this revision: the paths of all issues it
      reports, the refinements running only once the order type parsed. */
  function FormIssues(f: Lib.OrderFormValues): (r: set<Lib.FormField>)
    ensures forall k :: k != Lib.AddrKey && k != Lib.CustomsIdKey ==> (k in r <==> k in FieldIssues(f))
    ensures Lib.AddrKey in r <==>
      ParseOrderType(f.orderType).Some? && !AddrRule(ParseOrderType(f.orderType).value, f)
    ensures Lib.CustomsIdKey in r <==>
      ParseOrderType(f.orderType).Some? && !CustomsIdRule(ParseOrderType(f.orderType).value, f)
  {
    match ParseOrderType(f.orderType)
    case None => FieldIssues(f)
    case Some(t) =>
      FieldIssues(f)
      + (if !AddrRule(t, f) then {Lib.AddrKey} else {})
      + (if !CustomsIdRule(t, f) then {Lib.CustomsIdKey} else {})
  }

  predicate FormValid(f: Lib.OrderFormValues) {
    FormIssues(f) == {}
  }

  /** The form schema accepts exactly: a known order type, non-empty name,
      phone, product, payment and receiver, an address for `STANDARD` and
      `OVERSEAS`, and a customs id for `OVERSEAS`. */
  lemma FormValidIff(f: Lib.OrderFormValues)
    ensures FormValid(f) <==>
      && ParseOrderType(f.orderType).Some?
      && f.orderCstNm != [] && f.orderMobilePhone != []
      && f.productId != [] && f.paymentId != [] && f.receiver != []
      && (f.orderType == "STANDARD" || f.orderType == "OVERSEAS" ==> Lib.Filled(f.addr))
      && (f.orderType == "OVERSEAS" ==> Lib.Filled(f.customsId))
  {
  }

  /** A phone the other revision rejects can pass this one. */
  lemma PhoneRuleWeaker(f: Lib.OrderFormValues)
    requires f.orderMobilePhone == "not-a-number"
    ensures Lib.OrderMobilePhoneKey in Lib.FormIssues(f)
    ensures Lib.OrderMobilePhoneKey !in FormIssues(f)
  {
  }

  /** The submitted object `{ ...formValues, product, payment, discount }`:
      every form key, plus a single product (possibly unresolved), the
      payment and the nullable discount. */
  datatype OrderPayload = OrderPayload(
    values: Lib.OrderFormValues,
    product: Option<Lib.Product>,
    payment: Option<Lib.Payment>,
    discount: Option<Lib.Discount>)

  /** `orderPayloadSchema` of this revision: a known tag, `addr` present for
      `STANDARD` and `OVERSEAS`, `customsId` present for `OVERSEAS`, a
      product and a payment object, and a null or valid discount. Strings
      are only checked for their type. */
  predicate PayloadValid(p: OrderPayload) {
    && ParseOrderType(p.values.orderType).Some?
    && (p.values.orderType == "STANDARD" || p.values.orderType == "OVERSEAS" ==> p.values.addr.Some?)
    && (p.values.orderType == "OVERSEAS" ==> p.values.customsId.Some?)
    && p.product.Some?
    && p.payment.Some?
    && Lib.NullableDiscountValid(p.discount)
  }
}
