/** The slide-out cart: it opens from the header's cart button, lists the lines with their
    quantity controls (those of the `Cart` module), and summarises the cart under the GST
    policy. Its own state is whether it is open. Removing a line and clearing the cart also
    confirm with a message. */
module CartSidebar {
  import opened Wrappers
  import opened Cart
  import opened Pricing
  import CheckoutPage

  /** An action together with the confirmation it shows. */
  datatype Dispatch = Dispatch(action: Action, confirmation: Option<string>)

  /** `updateQuantity(id, quantity)`: passed on unchanged, without a confirmation. */
  function UpdateQuantityFor(id: string, quantity: int): (d: Dispatch)
    ensures d.action.UpdateQuantity? && d.action.id == id && d.action.quantity == quantity
    ensures d.confirmation == None
  {
    Dispatch(UpdateQuantity(id, quantity), None)
  }

  /** `removeItem(id)`: removes that line and confirms. */
  function RemoveItemFor(id: string): (d: Dispatch)
    ensures d.action == RemoveItem(id) && d.confirmation == Some("Item removed from cart")
  {
    Dispatch(RemoveItem(id), Some("Item removed from cart"))
  }

  /** `clearCart()`: clears and confirms. */
  function ClearCartFor(): (d: Dispatch)
    ensures d.action == ClearCart && d.confirmation == Some("Cart cleared")
  {
    Dispatch(ClearCart, Some("Cart cleared"))
  }

  /** The sidebar's body: the empty view, or the lines and the summary. */
  datatype Body =
    | EmptyView
    | Summary(title: int, lines: seq<LineItem>, quote: Quote, hint: Option<real>)

  function SidebarBody(cart: CartState): (b: Body)
    ensures b.EmptyView? <==> |cart.items| == 0
    ensures b.Summary? ==> b.title == cart.itemCount && b.lines == cart.items
    ensures b.Summary? ==> b.quote == QuoteFor(Gst, cart.total) && b.hint == FreeShippingHint(Gst, cart.total)
  {
    if |cart.items| == 0 then EmptyView
    else Summary(cart.itemCount, cart.items, QuoteFor(Gst, cart.total), FreeShippingHint(Gst, cart.total))
  }

  /** The sidebar and the checkout page price a cart the same way: for a non-empty cart
      the two summaries carry the same quote and the same hint. */
  lemma {:induction false} SidebarPricesLikeCheckout(cart: CartState)
    requires |cart.items| > 0
    ensures var b := SidebarBody(cart);
      b.quote.shipping == (if cart.total >= 2000.0 then 0.0 else 200.0)
      && b.quote.tax == cart.total * 0.18
      && (b.hint.Some? <==> b.quote.shipping > 0.0)
    ensures var b, s := SidebarBody(cart), CheckoutPage.CheckoutScreen(cart);
      b.quote == s.quote && b.hint == s.hint
  {
    HintIffShippingCharged(Gst, cart.total);
  }

  /** Whether the sheet is open. */
  class Sidebar {
    var isOpen: bool

    constructor ()
      ensures !isOpen
    {
      isOpen := false;
    }

    /** The sheet's own open/close requests, from its trigger and its close control. */
    method OnOpenChange(open: bool)
      modifies this
      ensures isOpen == open
    {
      isOpen := open;
    }

    /** "Continue Shopping" in the empty view closes the sheet and goes nowhere. */
    method CloseFromButton()
      modifies this
      ensures !isOpen
    {
      isOpen := false;
    }

    /** "Proceed to Checkout" closes the sheet and follows its link to the checkout page. */
    method ProceedToCheckout() returns (target: string)
      modifies this
      ensures !isOpen && target == "/checkout"
    {
      isOpen := false;
      target := "/checkout";
    }
  }
}
