/** The order schemas with the one-letter order types `G` (standard),
    `O` (overseas) and `E` (e-coupon): the shapes of the fetched product,
    discount and payment, the form rules with their two cross-field
    refinements, and the payload union tagged by order type. */
module OrderSchemas {
  import opened Wrappers
  import opened Text

  datatype Product = Product(id: string, name: string, price: real)
  datatype Discount = Discount(id: string, name: string, rate: real)
  /** `paymentMethod` is the source's `method` key (a keyword in Dafny). */
  datatype Payment = Payment(id: string, paymentMethod: string, amount: real)

  /** `discountSchema`: the rate lies between 0 and 1 inclusive. Product and
      payment schemas only check field types, which the datatypes carry. */
  predicate DiscountValid(d: Discount) {
    0.0 <= d.rate <= 1.0
  }

  /** `discountSchema.nullable()`. */
  predicate NullableDiscountValid(d: Option<Discount>) {
    d.None? || DiscountValid(d.value)
  }

  /** `value && value.length > 0` on an optional string. */
  predicate Filled(s: Option<string>) {
    s.Some? && |s.value| > 0
  }

  datatype OrderType = G | O | E

  function OrderTypeTag(t: OrderType): string {
    match t
    case G => "G"
    case O => "O"
    case E => "E"
  }

  /** `orderTypeSchema = z.enum(['G', 'O', 'E'])`. */
  function ParseOrderType(s: string): (r: Option<OrderType>)
    ensures r.None? <==> s != "G" && s != "O" && s != "E"
    ensures r.Some? ==> OrderTypeTag(r.value) == s
  {
    if s == "G" then Some(G) else if s == "O" then Some(O) else if s == "E" then Some(E) else None
  }

  lemma ParseOrderTypeTag(t: OrderType)
    ensures ParseOrderType(OrderTypeTag(t)) == Some(t)
  {
  }

  /** The values of the order form, as the form library holds them. */
  datatype OrderFormValues = OrderFormValues(
    orderType: string,
    orderCstNm: string,
    orderMobilePhone: string,
    productId: string,
    paymentId: string,
    receiver: string,
    addr: Option<string>,
    customsId: Option<string>)

  /** The path an issue of the form schema is reported at. */
  datatype FormField =
    | OrderTypeKey | OrderCstNmKey | OrderMobilePhoneKey | ProductIdKey
    | PaymentIdKey | ReceiverKey | AddrKey | CustomsIdKey

  /** First refinement: `G` and `O` orders need a non-empty `addr`. */
  predicate AddrRule(t: OrderType, f: OrderFormValues) {
    (t == G || t == O) ==> Filled(f.addr)
  }

  /** Second refinement: `O` orders need a non-empty `customsId`. */
  predicate CustomsIdRule(t: OrderType, f: OrderFormValues) {
    t == O ==> Filled(f.customsId)
  }

  /** The paths the per-field rules of the object schema report. */
  function FieldIssues(f: OrderFormValues): (r: set<FormField>)
    ensures OrderTypeKey in r <==> ParseOrderType(f.orderType).None?
    ensures OrderCstNmKey in r <==> f.orderCstNm == []
    ensures OrderMobilePhoneKey in r <==> !IsPhoneNumber(f.orderMobilePhone)
    ensures ProductIdKey in r <==> f.productId == []
    ensures PaymentIdKey in r <==> f.paymentId == []
    ensures ReceiverKey in r <==> f.receiver == []
    ensures AddrKey !in r && CustomsIdKey !in r
  {
    (if ParseOrderType(f.orderType).None? then {OrderTypeKey} else {})
    + (if f.orderCstNm == [] then {OrderCstNmKey} else {})
    + (if !IsPhoneNumber(f.orderMobilePhone) then {OrderMobilePhoneKey} else {})
    + (if f.productId == [] then {ProductIdKey} else {})
    + (if f.paymentId == [] then {PaymentIdKey} else {})
    + (if f.receiver == [] then {ReceiverKey} else {})
  }

  /** `orderFormSchema`: the paths of all issues it reports. An order type
      outside the enum aborts the object, so the refinements then do not
      run; otherwise both refinements run even when a field failed. */
  function FormIssues(f: OrderFormValues): (r: set<FormField>)
    ensures forall k :: k != AddrKey && k != CustomsIdKey ==> (k in r <==> k in FieldIssues(f))
    ensures AddrKey in r <==>
      ParseOrderType(f.orderType).Some? && !AddrRule(ParseOrderType(f.orderType).value, f)
    ensures CustomsIdKey in r <==>
      ParseOrderType(f.orderType).Some? && !CustomsIdRule(ParseOrderType(f.orderType).value, f)
  {
    match ParseOrderType(f.orderType)
    case None => FieldIssues(f)
    case Some(t) =>
      FieldIssues(f)
      + (if !AddrRule(t, f) then {AddrKey} else {})
      + (if !CustomsIdRule(t, f) then {CustomsIdKey} else {})
  }

  predicate FormValid(f: OrderFormValues) {
    FormIssues(f) == {}
  }

  /** The form schema accepts exactly: a known order type, a non-empty
      name, product, payment and receiver, a phone of 10 or 11 digits, an
      address for `G` and `O`, and a customs id for `O`. */
  lemma FormValidIff(f: OrderFormValues)
    ensures FormValid(f) <==>
      && ParseOrderType(f.orderType).Some?
      && f.orderCstNm != [] && f.productId != [] && f.paymentId != [] && f.receiver != []
      && (|f.orderMobilePhone| == 10 || |f.orderMobilePhone| == 11) && AllDigits(f.orderMobilePhone)
      && (f.orderType == "G" || f.orderType == "O" ==> Filled(f.addr))
      && (f.orderType == "O" ==> Filled(f.customsId))
  {
    PhoneNumberIff(f.orderMobilePhone);
    var r := FormIssues(f);
    if r != {} {
      var k :| k in r;
    }
  }

  /** `orderPayloadSchema`'s variants. `addr` and `customsId` are optional
      here because the form code reads them with a non-null assertion that
      does not check anything at run time. */
  datatype OrderPayload =
    | StandardPayload(
        orderCstNm: string, orderMobilePhone: string, receiver: string,
        addr: Option<string>,
        product: seq<Product>, payment: Payment, discount: Option<Discount>)
    | OverseasPayload(
        orderCstNm: string, orderMobilePhone: string, receiver: string,
        addr: Option<string>, customsId: Option<string>,
        product: seq<Product>, payment: Payment, discount: Option<Discount>)
    | EcouponPayload(
        orderCstNm: string, orderMobilePhone: string, receiver: string,
        product: seq<Product>, payment: Payment, discount: Option<Discount>)

  function PayloadOrderType(p: OrderPayload): OrderType {
    match p
    case StandardPayload(_, _, _, _, _, _, _) => G
    case OverseasPayload(_, _, _, _, _, _, _, _) => O
    case EcouponPayload(_, _, _, _, _, _) => E
  }

  /** `orderPayloadSchema`: the variant picked by the tag must carry its
      keys (`addr` for `G`, `addr` and `customsId` for `O`, neither for
      `E`) and the discount must be null or valid. The remaining fields
      are only checked for their type. */
  predicate PayloadValid(p: OrderPayload) {
    && NullableDiscountValid(p.discount)
    && match p
       case StandardPayload(_, _, _, addr, _, _, _) => addr.Some?
       case OverseasPayload(_, _, _, addr, customsId, _, _, _) => addr.Some? && customsId.Some?
       case EcouponPayload(_, _, _, _, _, _) => true
  }

  /** The payload check is about shape only: a name or phone the form would
      reject passes it. */
  lemma PayloadIgnoresFieldRules(p: OrderPayload, name: string, phone: string)
    ensures PayloadValid(p.(orderCstNm := name, orderMobilePhone := phone)) == PayloadValid(p)
  {
  }
}
