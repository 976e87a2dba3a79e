/** One row of the cart: a quantity stepper and a remove button over one store line. */
module CartItemRow {
  import opened CartContext

  /** The amount shown for a line: unit price times quantity. */
  function LineAmount(item: CartLine): (amount: real)
    ensures item.quantity == 0 ==> amount == 0.0
    ensures item.quantity == 1 ==> amount == item.price
    ensures item.price >= 0.0 && item.quantity >= 0 ==> amount >= 0.0
  {
    item.price * item.quantity as real
  }

  /**
   * The steppers move the amount shown by one unit price: the store quantity
   * `handleIncrement` asks for adds one price, and the one `handleDecrement`
   * asks for removes one.
   */
  lemma StepperMovesAmount(item: CartLine)
    ensures LineAmount(item.(quantity := item.quantity + 1)) == LineAmount(item) + item.price
    ensures item.quantity > 1 ==> LineAmount(item.(quantity := item.quantity - 1)) == LineAmount(item) - item.price
  {
    assert (item.quantity + 1) as real == item.quantity as real + 1.0;
    assert (item.quantity - 1) as real == item.quantity as real - 1.0;
  }

  /** The minus button is disabled at a quantity of 1 or less. */
  predicate DecrementDisabled(item: CartLine) {
    item.quantity <= 1
  }

  /** `handleIncrement`: asks the store to hold one more of this line. */
  method HandleIncrement(item: CartLine, cart: CartChannel)
    modifies cart
    ensures cart.calls == old(cart.calls) + [UpdateQuantity(item.id, item.quantity + 1)]
    ensures item.quantity >= 1 && QuantitiesAtLeastOne(old(cart.calls)) ==> QuantitiesAtLeastOne(cart.calls)
  {
    cart.UpdateQuantity(item.id, item.quantity + 1);
  }

  /** `handleDecrement`: asks for one fewer, but only above 1; at 1 or below it does nothing. */
  method HandleDecrement(item: CartLine, cart: CartChannel)
    modifies cart
    ensures item.quantity > 1 ==> cart.calls == old(cart.calls) + [UpdateQuantity(item.id, item.quantity - 1)]
    ensures item.quantity <= 1 ==> cart.calls == old(cart.calls)
    ensures DecrementDisabled(item) ==> cart.calls == old(cart.calls)
    ensures QuantitiesAtLeastOne(old(cart.calls)) ==> QuantitiesAtLeastOne(cart.calls)
  {
    if item.quantity > 1 {
      cart.UpdateQuantity(item.id, item.quantity - 1);
    }
  }

  /** `handleRemove`: removes exactly this row's line. */
  method HandleRemove(item: CartLine, cart: CartChannel)
    modifies cart
    ensures cart.calls == old(cart.calls) + [RemoveItem(item.id)]
    ensures QuantitiesAtLeastOne(old(cart.calls)) ==> QuantitiesAtLeastOne(cart.calls)
  {
    cart.RemoveItem(item.id);
  }
}
