/**
 * The cart store as the screens see it. Its implementation is not part of
 * this model, so the store is represented only by the calls the screens make
 * into it: `addItem`, `updateQuantity`, `removeItem` and `clearCart`. Its
 * read side (`items`, `getTotal()`, `getItemCount()`) reaches the screens as
 * parameters.
 */
module CartContext {

  /** A line as the store hands it to the cart screens and the cart row. */
  datatype CartLine = CartLine(id: string, name: string, price: real, quantity: int, image: string)

  /** A product as the detail screen receives it from its route. */
  datatype Product = Product(id: string, name: string, description: string, price: real, image: string, category: string)

  /** A product as the detail screen passes it to `addItem`: the route's product spread with the chosen variant. */
  datatype CartProduct = CartProduct(product: Product, variant: string)

  datatype CartCall =
    | AddItem(product: CartProduct, quantity: int)
    | UpdateQuantity(id: string, quantity: int)
    | RemoveItem(id: string)
    | ClearCart

  /** Every quantity the screens have asked the store to hold is at least 1. */
  ghost predicate QuantitiesAtLeastOne(calls: seq<CartCall>) {
    forall i :: 0 <= i < |calls| ==>
      (calls[i].UpdateQuantity? ==> calls[i].quantity >= 1) && (calls[i].AddItem? ==> calls[i].quantity >= 1)
  }

  /** The store's write side: the calls received so far, oldest first. */
  class CartChannel {
    var calls: seq<CartCall>

    constructor ()
      ensures calls == []
    {
      calls := [];
    }

    method AddItem(product: CartProduct, quantity: int)
      modifies this
      ensures calls == old(calls) + [CartCall.AddItem(product, quantity)]
    {
      calls := calls + [CartCall.AddItem(product, quantity)];
    }

    method UpdateQuantity(id: string, quantity: int)
      modifies this
      ensures calls == old(calls) + [CartCall.UpdateQuantity(id, quantity)]
    {
      calls := calls + [CartCall.UpdateQuantity(id, quantity)];
    }

    method RemoveItem(id: string)
      modifies this
      ensures calls == old(calls) + [CartCall.RemoveItem(id)]
    {
      calls := calls + [CartCall.RemoveItem(id)];
    }

    method ClearCart()
      modifies this
      ensures calls == old(calls) + [CartCall.ClearCart]
    {
      calls := calls + [CartCall.ClearCart];
    }
  }
}
