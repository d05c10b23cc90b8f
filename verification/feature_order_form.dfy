/** The order form's submit path for the `STANDARD`/`OVERSEAS`/`ECOUPON`
    schemas: resolve the product by the form's product id, give up when the
    product or the payment is missing, spread the form values into the
    payload, check it against the payload schema and only then submit it.
    Unlike the other revision, the object submitted is the unparsed payload,
    so it keeps every form key. */
module FeatureOrderForm {
  import opened Wrappers
  import Lib = OrderSchemas
  import opened FeatureOrderSchemas
  import OrderForm

  /** What pressing the submit button ends in. */
  datatype SubmitOutcome =
    | FieldErrors(issues: set<Lib.FormField>)  // the form schema failed; the handler never ran
    | Incomplete                               // no product resolved or no payment; nothing sent
    | Invalid                                  // the payload schema threw; nothing sent
    | Submitted(payload: OrderPayload)         // the submit mutation was called with this payload

  /** A payload whose product did not resolve fails the payload schema. */
  lemma UnresolvedProductRejected(p: OrderPayload)
    requires p.product.None?
    ensures !PayloadValid(p)
  {
  }

  /** Form values the form schema accepts, with a resolved product, a
      payment and a null or valid discount, give a payload the payload
      schema accepts. */
  lemma ValidFormGivesValidPayload(
    form: Lib.OrderFormValues, product: Lib.Product, payment: Lib.Payment, discount: Option<Lib.Discount>)
    requires FormValid(form)
    requires Lib.NullableDiscountValid(discount)
    ensures PayloadValid(OrderPayload(form, Some(product), Some(payment), discount))
  {
  }

  /** `onFormSubmit`. */
  method OnFormSubmit(
    form: Lib.OrderFormValues, products: seq<Lib.Product>,
    payment: Option<Lib.Payment>, discount: Option<Lib.Discount>)
    returns (outcome: SubmitOutcome)
    ensures outcome == Incomplete <==>
      OrderForm.FindProduct(products, form.productId).None? || payment.None?
    ensures outcome.Submitted? ==>
      && outcome.payload == OrderPayload(form, OrderForm.FindProduct(products, form.productId), payment, discount)
      && PayloadValid(outcome.payload)
    ensures outcome == Invalid <==>
      && OrderForm.FindProduct(products, form.productId).Some? && payment.Some?
      && !PayloadValid(OrderPayload(form, OrderForm.FindProduct(products, form.productId), payment, discount))
    ensures !outcome.FieldErrors?
  {
    var selectedProduct := OrderForm.FindProduct(products, form.productId);
    if selectedProduct.None? || payment.None? {
      return Incomplete;
    }
    var payload := OrderPayload(form, selectedProduct, payment, discount);
    if !PayloadValid(payload) {
      return Invalid;
    }
    outcome := Submitted(payload);
  }

  /** `handleSubmit(onFormSubmit)` with this revision's form schema as
      resolver. */
  method HandleSubmit(
    form: Lib.OrderFormValues, products: seq<Lib.Product>,
    payment: Option<Lib.Payment>, discount: Option<Lib.Discount>)
    returns (outcome: SubmitOutcome)
    ensures outcome.FieldErrors? <==> !FormValid(form)
    ensures outcome.FieldErrors? ==> outcome.issues == FormIssues(form)
    ensures outcome == Incomplete <==>
      FormValid(form) && (OrderForm.FindProduct(products, form.productId).None? || payment.None?)
    ensures outcome.Submitted? ==>
      FormValid(form) && PayloadValid(outcome.payload) && outcome.payload.values == form
    ensures
      (FormValid(form) && OrderForm.FindProduct(products, form.productId).Some? && payment.Some?
       && Lib.NullableDiscountValid(discount)) ==>
        outcome == Submitted(OrderPayload(form, OrderForm.FindProduct(products, form.productId), payment, discount))
  {
    var issues := FormIssues(form);
    if issues != {} {
      return FieldErrors(issues);
    }
    outcome := OnFormSubmit(form, products, payment, discount);
    var selected := OrderForm.FindProduct(products, form.productId);
    if selected.Some? && payment.Some? && Lib.NullableDiscountValid(discount) {
      ValidFormGivesValidPayload(form, selected.value, payment.value, discount);
    }
  }
}
