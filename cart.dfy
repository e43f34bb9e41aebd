/** The shopping cart as the pages see it. The cart store itself (its reducer) is not part
    of this model: a page only reads the items, the item count and the subtotal, and sends
    actions. This module holds those inputs, the actions, and the quantity controls that the
    cart sidebar and the cart page both render for each line. */
module Cart {
  import opened Wrappers

  /** One line of the cart as rendered. */
  datatype LineItem = LineItem(id: string, name: string, price: real, quantity: int)

  /** What the pages read from the cart store: `items`, `itemCount` and `total`
      (the subtotal). */
  datatype CartState = CartState(items: seq<LineItem>, itemCount: int, total: real)

  /** The actions the pages dispatch to the cart store. */
  datatype Action =
    | UpdateQuantity(id: string, quantity: int)
    | RemoveItem(id: string)
    | ClearCart

  /** The minus button is disabled at a quantity of one or less. */
  predicate DecrementDisabled(item: LineItem) {
    item.quantity <= 1
  }

  /** Clicking minus: nothing when the button is disabled, otherwise one less. The quantity
      sent is never below one. */
  function Decrement(item: LineItem): (a: Option<Action>)
    ensures a.Some? <==> !DecrementDisabled(item)
    ensures a.Some? ==> (a.value.UpdateQuantity? && a.value.id == item.id
                         && a.value.quantity + 1 == item.quantity && a.value.quantity >= 1)
  {
    if DecrementDisabled(item) then None else Some(UpdateQuantity(item.id, item.quantity - 1))
  }

  /** Clicking plus: one more, for the same line. */
  function Increment(item: LineItem): (a: Action)
    ensures a.UpdateQuantity? && a.id == item.id && a.quantity == item.quantity + 1
  {
    UpdateQuantity(item.id, item.quantity + 1)
  }

  /** `parseInt(text) || 1`, given what `parseInt` made of the typed text (None for NaN):
      NaN and 0 become 1, every other number is kept, negative ones included. */
  function CoerceTyped(parsed: Option<int>): (q: int)
    ensures q != 0
    ensures q == 1 <==> parsed == None || parsed == Some(0) || parsed == Some(1)
    ensures parsed.Some? && parsed.value != 0 ==> q == parsed.value
  {
    match parsed
    case None => 1
    case Some(n) => if n == 0 then 1 else n
  }

  /** Typing into the quantity box sends the coerced number for the same line. */
  function TypedQuantity(item: LineItem, parsed: Option<int>): (a: Action)
    ensures a.UpdateQuantity? && a.id == item.id && a.quantity == CoerceTyped(parsed)
  {
    UpdateQuantity(item.id, CoerceTyped(parsed))
  }

  /** Typing a non-negative number never sends a quantity below one. */
  lemma TypedNonNegativeIsAtLeastOne(item: LineItem, parsed: Option<int>)
    requires parsed.Some? ==> parsed.value >= 0
    ensures TypedQuantity(item, parsed).quantity >= 1
  {
  }

  /** Minus and plus undo each other: after a minus, a plus sends the quantity the line had. */
  lemma DecrementThenIncrement(item: LineItem)
    requires !DecrementDisabled(item)
    ensures var d := Decrement(item).value;
      Increment(item.(quantity := d.quantity)) == UpdateQuantity(item.id, item.quantity)
  {
  }

  /** The trash button removes the line it belongs to. */
  function Remove(item: LineItem): (a: Action)
    ensures a.RemoveItem? && a.id == item.id
  {
    RemoveItem(item.id)
  }
}
