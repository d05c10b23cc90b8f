/** The order form's submit path for the `G`/`O`/`E` schemas: resolve the
    chosen product among the fetched ones, give up when the product or the
    payment is missing, build the payload variant of the order type, check
    it against the payload schema, and only then hand it to the submit
    mutation. Rendering, alerts, logging and navigation are left out. */
module OrderForm {
  import opened Wrappers
  import opened OrderSchemas

  /** `products.find(p => p.id === id)`: the first product with the id. */
  function FindProduct(products: seq<Product>, id: string): (r: Option<Product>)
    ensures r.None? <==> forall k :: 0 <= k < |products| ==> products[k].id != id
    ensures r.Some? ==>
      exists k :: 0 <= k < |products| && products[k] == r.value && r.value.id == id
        && forall j :: 0 <= j < k ==> products[j].id != id
    decreases |products|
  {
    if products == [] then None
    else if products[0].id == id then Some(products[0])
    else
      var r := FindProduct(products[1..], id);
      if r.Some? then
        ghost var k :| 0 <= k < |products[1..]| && products[1..][k] == r.value
          && forall j :: 0 <= j < k ==> products[1..][j].id != id;
        assert products[k + 1] == r.value;
        r
      else r
  }

  /** What pressing the submit button ends in. */
  datatype SubmitOutcome =
    | FieldErrors(issues: set<FormField>)  // the form schema failed; the handler never ran
    | Incomplete                           // no product resolved or no payment; nothing sent
    | Invalid                              // the switch or the payload schema threw; nothing sent
    | Submitted(payload: OrderPayload)     // the submit mutation was called with this payload

  /** The payload the handler's `switch` builds, or `None` when the order
      type is none of `G`, `O`, `E` and the `default` branch throws. */
  function Assemble(form: OrderFormValues, product: Product, payment: Payment, discount: Option<Discount>)
    : (r: Option<OrderPayload>)
    ensures r.Some? <==> ParseOrderType(form.orderType).Some?
    ensures r.Some? ==> PayloadOrderType(r.value) == ParseOrderType(form.orderType).value
    ensures r.Some? ==>
      && r.value.orderCstNm == form.orderCstNm
      && r.value.orderMobilePhone == form.orderMobilePhone
      && r.value.receiver == form.receiver
      && r.value.product == [product]
      && r.value.payment == payment
      && r.value.discount == discount
    ensures r.Some? && !r.value.EcouponPayload? ==> r.value.addr == form.addr
    ensures r.Some? && r.value.OverseasPayload? ==> r.value.customsId == form.customsId
  {
    match ParseOrderType(form.orderType)
    case None => None
    case Some(G) =>
      Some(StandardPayload(form.orderCstNm, form.orderMobilePhone, form.receiver,
        form.addr, [product], payment, discount))
    case Some(O) =>
      Some(OverseasPayload(form.orderCstNm, form.orderMobilePhone, form.receiver,
        form.addr, form.customsId, [product], payment, discount))
    case Some(E) =>
      Some(EcouponPayload(form.orderCstNm, form.orderMobilePhone, form.receiver,
        [product], payment, discount))
  }

  /** The assembled payload passes the payload schema exactly when the order
      type is known, the discount is null or valid, and the keys its variant
      needs were in the form. */
  lemma AssembledPayloadValidIff(form: OrderFormValues, product: Product, payment: Payment, discount: Option<Discount>)
    ensures var r := Assemble(form, product, payment, discount);
      r.Some? && PayloadValid(r.value) <==>
        && ParseOrderType(form.orderType).Some?
        && NullableDiscountValid(discount)
        && (form.orderType == "G" || form.orderType == "O" ==> form.addr.Some?)
        && (form.orderType == "O" ==> form.customsId.Some?)
  {
  }

  /** Form values the form schema accepts, combined with a resolved product,
      a payment and a null or valid discount, always give a payload the
      payload schema accepts. */
  lemma ValidFormGivesValidPayload(
    form: OrderFormValues, product: Product, payment: Payment, discount: Option<Discount>)
    requires FormValid(form)
    requires NullableDiscountValid(discount)
    ensures Assemble(form, product, payment, discount).Some?
    ensures PayloadValid(Assemble(form, product, payment, discount).value)
  {
  }

  /** `onFormSubmit`, with `watchedProductId` the product id the component
      watched when it last rendered. */
  method OnFormSubmit(
    form: OrderFormValues, watchedProductId: string,
    products: seq<Product>, payment: Option<Payment>, discount: Option<Discount>)
    returns (outcome: SubmitOutcome)
    ensures outcome == Incomplete <==>
      FindProduct(products, watchedProductId).None? || payment.None?
    ensures outcome.Submitted? ==> PayloadValid(outcome.payload)
    ensures outcome.Submitted? ==>
      Assemble(form, FindProduct(products, watchedProductId).value, payment.value, discount)
        == Some(outcome.payload)
    ensures !outcome.FieldErrors?
    ensures outcome == Invalid <==>
      && FindProduct(products, watchedProductId).Some? && payment.Some?
      && var r := Assemble(form, FindProduct(products, watchedProductId).value, payment.value, discount);
         r.None? || !PayloadValid(r.value)
  {
    var selectedProduct := FindProduct(products, watchedProductId);
    if selectedProduct.None? || payment.None? {
      return Incomplete;
    }
    var payload: OrderPayload;
    match ParseOrderType(form.orderType) {
      case Some(G) =>
        payload := StandardPayload(form.orderCstNm, form.orderMobilePhone, form.receiver,
          form.addr, [selectedProduct.value], payment.value, discount);
      case Some(O) =>
        payload := OverseasPayload(form.orderCstNm, form.orderMobilePhone, form.receiver,
          form.addr, form.customsId, [selectedProduct.value], payment.value, discount);
      case Some(E) =>
        payload := EcouponPayload(form.orderCstNm, form.orderMobilePhone, form.receiver,
          [selectedProduct.value], payment.value, discount);
      case None =>
        return Invalid;
    }
    if !PayloadValid(payload) {
      return Invalid;
    }
    outcome := Submitted(payload);
  }

  /** `handleSubmit(onFormSubmit)` with the form schema as resolver: the
      handler only runs on values the form schema accepts, and by then the
      watched product id is the form's own. */
  method HandleSubmit(
    form: OrderFormValues, products: seq<Product>, payment: Option<Payment>, discount: Option<Discount>)
    returns (outcome: SubmitOutcome)
    ensures outcome.FieldErrors? <==> !FormValid(form)
    ensures outcome.FieldErrors? ==> outcome.issues == FormIssues(form)
    ensures outcome == Incomplete <==>
      FormValid(form) && (FindProduct(products, form.productId).None? || payment.None?)
    ensures outcome.Submitted? ==> FormValid(form) && PayloadValid(outcome.payload)
    ensures
      (FormValid(form) && FindProduct(products, form.productId).Some? && payment.Some?
       && NullableDiscountValid(discount)) ==>
        outcome == Submitted(Assemble(form, FindProduct(products, form.productId).value, payment.value, discount).value)
  {
    var issues := FormIssues(form);
    if issues != {} {
      return FieldErrors(issues);
    }
    outcome := OnFormSubmit(form, form.productId, products, payment, discount);
    var selected := FindProduct(products, form.productId);
    if selected.Some? && payment.Some? && NullableDiscountValid(discount) {
      ValidFormGivesValidPayload(form, selected.value, payment.value, discount);
    }
  }
}
