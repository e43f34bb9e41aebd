/** The checkout page: the order summary under the GST policy, the delivery and payment form,
    and the submit button. Submitting marks the page as processing and, after a delay,
    clears the cart and moves on to the success page; the delay and the navigation are not
    modelled, the action dispatched when the delay ends is returned. */
module CheckoutPage {
  import opened Wrappers
  import opened Cart
  import opened Pricing

  /** The fields of the form, each starting out empty. */
  const FormFields: seq<string> := [
    "email", "firstName", "lastName", "address", "city", "state", "zipCode", "phone",
    "paymentMethod", "cardNumber", "expiryDate", "cvv", "nameOnCard", "upiId"
  ]

  const EmptyForm: map<string, string> := map f | f in FormFields :: ""

  /** The three payment choices the radio cards set. */
  const PaymentMethods: seq<string> := ["UPI", "Card", "COD"]

  /** The extra section shown under the payment choices. */
  datatype PaymentSection = UpiFields | CardFields | CodNote | NoSection

  function SectionFor(paymentMethod: string): (s: PaymentSection)
    ensures s == NoSection <==> paymentMethod !in PaymentMethods
    ensures s == UpiFields <==> paymentMethod == PaymentMethods[0]
    ensures s == CardFields <==> paymentMethod == PaymentMethods[1]
    ensures s == CodNote <==> paymentMethod == PaymentMethods[2]
  {
    match paymentMethod
    case "UPI" => UpiFields
    case "Card" => CardFields
    case "COD" => CodNote
    case _ => NoSection
  }

  /** The submit button is disabled while processing or while no payment method is chosen. */
  predicate SubmitDisabledFor(isProcessing: bool, paymentMethod: string) {
    isProcessing || paymentMethod == ""
  }

  /** Choosing any of the three payment methods enables the submit button, unless the page
      is already processing. */
  lemma ChoosingPaymentEnablesSubmit(isProcessing: bool, i: nat)
    requires i < |PaymentMethods|
    ensures SubmitDisabledFor(isProcessing, PaymentMethods[i]) <==> isProcessing
  {
  }

  /** The page's state: the processing flag and the form's fields. */
  class CheckoutForm {
    var isProcessing: bool
    var formData: map<string, string>

    /** Every field of the form has a value. */
    predicate Valid()
      reads this
    {
      forall f :: f in FormFields ==> f in formData
    }

    /** The submit button's `disabled` attribute. */
    predicate SubmitDisabled()
      reads this
      requires Valid()
    {
      SubmitDisabledFor(isProcessing, formData["paymentMethod"])
    }

    constructor ()
      ensures Valid()
      ensures !isProcessing && formData == EmptyForm
      ensures SubmitDisabled()
    {
      isProcessing := false;
      formData := EmptyForm;
    }

    /** `handleInputChange(field, value)`: that field takes the value, every other field and
        the processing flag stay as they were. */
    method HandleInputChange(field: string, value: string)
      requires Valid()
      modifies this
      ensures Valid()
      ensures formData == old(formData)[field := value]
      ensures isProcessing == old(isProcessing)
      ensures forall f :: f in old(formData) && f != field ==> formData[f] == old(formData)[f]
      ensures field == "paymentMethod" ==> (SubmitDisabled() <==> isProcessing || value == "")
      ensures field != "paymentMethod" ==> SubmitDisabled() == old(SubmitDisabled())
    {
      formData := formData[field := value];
    }

    /** `handleSubmit`: the page turns to processing, which disables the button; once the
        delay ends the cart is cleared and the page moves on to the success page. The form is
        left as it was. */
    method HandleSubmit() returns (deferred: Action, target: string)
      requires Valid()
      modifies this
      ensures Valid()
      ensures isProcessing && SubmitDisabled()
      ensures formData == old(formData)
      ensures deferred == ClearCart && target == "/checkout/success"
    {
      isProcessing := true;
      deferred := ClearCart;
      target := "/checkout/success";
    }
  }

  /** What the page shows: the empty view, or the order summary with one line per item, the
      GST quote and the free-shipping hint. */
  datatype SummaryLine = SummaryLine(name: string, quantity: int, amount: real)

  datatype Screen =
    | EmptyCartView
    | OrderSummary(lines: seq<SummaryLine>, quote: Quote, hint: Option<real>)

  function LineFor(item: LineItem): (l: SummaryLine)
    ensures l.name == item.name && l.quantity == item.quantity
    ensures l.amount == item.price * item.quantity as real
    ensures item.quantity >= 1 && item.price >= 0.0 ==> l.amount >= item.price
  {
    SummaryLine(item.name, item.quantity, item.price * item.quantity as real)
  }

  function CheckoutScreen(cart: CartState): (s: Screen)
    ensures s.EmptyCartView? <==> |cart.items| == 0
    ensures s.OrderSummary? ==>
      && |s.lines| == |cart.items|
      && (forall i :: 0 <= i < |s.lines| ==> s.lines[i] == LineFor(cart.items[i]))
      && s.quote == QuoteFor(Gst, cart.total)
      && s.hint == FreeShippingHint(Gst, cart.total)
  {
    if |cart.items| == 0 then EmptyCartView
    else
      OrderSummary(seq(|cart.items|, i requires 0 <= i < |cart.items| => LineFor(cart.items[i])),
                   QuoteFor(Gst, cart.total), FreeShippingHint(Gst, cart.total))
  }

  /** The checkout summary for a non-empty cart: free shipping exactly from 2000 on and 200
      below, 18% GST, and the hint shown exactly when 200 is charged. */
  lemma {:induction false} CheckoutSummaryRules(cart: CartState)
    requires |cart.items| > 0
    ensures var s := CheckoutScreen(cart);
      && (s.quote.shipping == 0.0 <==> cart.total >= 2000.0)
      && (s.quote.shipping == 200.0 <==> cart.total < 2000.0)
      && s.quote.tax == cart.total * 0.18
      && (s.hint.Some? <==> s.quote.shipping == 200.0)
      && (s.hint.Some? ==> s.hint.value == 2000.0 - cart.total)
  {
    var s := CheckoutScreen(cart);
    HintIffShippingCharged(Gst, cart.total);
  }
}
