/** The full cart page. It offers the same quantity controls as the sidebar, but prices the
    cart with its own rates: free shipping from 500, 50 below, and 8% tax. */
module CartPage {
  import opened Wrappers
  import opened Cart
  import opened Pricing
  import CartSidebar

  /** The cart page's dispatchers pass their arguments on unchanged, without confirmation. */
  function UpdateQuantityFor(id: string, quantity: int): (a: Action)
    ensures a.UpdateQuantity? && a.id == id && a.quantity == quantity
  {
    UpdateQuantity(id, quantity)
  }

  function RemoveItemFor(id: string): (a: Action)
    ensures a.RemoveItem? && a.id == id
  {
    RemoveItem(id)
  }

  function ClearCartFor(): (a: Action)
    ensures a.ClearCart?
  {
    ClearCart
  }

  /** The cart page sends the same actions as the sidebar; only the sidebar confirms a
      removal or a clear with a message. */
  lemma SameActionsAsSidebar(id: string, quantity: int)
    ensures CartSidebar.UpdateQuantityFor(id, quantity).action == UpdateQuantityFor(id, quantity)
    ensures CartSidebar.RemoveItemFor(id).action == RemoveItemFor(id)
    ensures CartSidebar.ClearCartFor().action == ClearCartFor()
    ensures CartSidebar.RemoveItemFor(id).confirmation.Some?
    ensures CartSidebar.ClearCartFor().confirmation.Some?
  {
  }

  datatype Page =
    | EmptyCartPage
    | CartSummary(itemCount: int, lines: seq<LineItem>, quote: Quote, freeShippingShown: bool, hint: Option<real>)

  /** The page: empty view without items; otherwise the lines, the summary under the cart
      page's rates ("Free" shown exactly when shipping is waived), and the hint. */
  function CartPageBody(cart: CartState): (p: Page)
    ensures p.EmptyCartPage? <==> |cart.items| == 0
    ensures p.CartSummary? ==>
      && p.itemCount == cart.itemCount && p.lines == cart.items
      && p.quote == QuoteFor(CartPageRates, cart.total)
      && (p.freeShippingShown <==> p.quote.shipping == 0.0)
      && p.hint == FreeShippingHint(CartPageRates, cart.total)
  {
    if |cart.items| == 0 then EmptyCartPage
    else
      CartSummary(cart.itemCount, cart.items, QuoteFor(CartPageRates, cart.total),
                  cart.total >= 500.0, FreeShippingHint(CartPageRates, cart.total))
  }

  /** On the cart page shipping is free exactly from 500 on, otherwise 50, tax is 8%, and the
      hint asks for the difference to 500 exactly when shipping is charged. */
  lemma {:induction false} CartPageRules(cart: CartState)
    requires |cart.items| > 0
    ensures var p := CartPageBody(cart);
      && p.quote.shipping == (if cart.total >= 500.0 then 0.0 else 50.0)
      && p.quote.tax == cart.total * 0.08
      && p.quote.total == cart.total + p.quote.shipping + p.quote.tax
      && (p.hint.Some? <==> p.quote.shipping > 0.0)
      && (p.hint.Some? ==> p.hint.value == 500.0 - cart.total)
  {
    HintIffShippingCharged(CartPageRates, cart.total);
  }

  /** The cart page shows "Free" shipping that the checkout then charges exactly for
      subtotals from 500 up to, but not including, 2000. */
  lemma {:induction false} FreeHereChargedAtCheckout(subtotal: real)
    ensures QuoteFor(CartPageRates, subtotal).shipping == 0.0 && QuoteFor(Gst, subtotal).shipping > 0.0
      <==> 500.0 <= subtotal < 2000.0
  {
    HintIffShippingCharged(Gst, subtotal);
    HintIffShippingCharged(CartPageRates, subtotal);
  }

  /** For every non-negative subtotal the cart page quotes less than the checkout charges. */
  lemma {:induction false} CartPageQuotesLess(subtotal: real)
    requires subtotal >= 0.0
    ensures QuoteFor(CartPageRates, subtotal).total < QuoteFor(Gst, subtotal).total
  {
    var a := QuoteFor(CartPageRates, subtotal);
    var b := QuoteFor(Gst, subtotal);
    assert a.tax <= b.tax;
    if subtotal < 2000.0 {
      assert a.shipping < b.shipping;
    } else {
      assert subtotal * 0.08 < subtotal * 0.18;
    }
  }
}
