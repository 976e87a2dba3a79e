/** The product detail screen: quantity stepper, variant chips, favourite flag and the two add-to-cart buttons. */
module ProductDetailScreen {
  import opened CartContext

  const Variants: seq<string> := ["Black", "White", "Blue", "Red"]

  datatype Destination = CartRoute | CheckoutRoute

  class ProductDetail {
    const product: Product
    var quantity: int
    var selectedVariant: string
    var isFavorite: bool

    /** The stepper never shows less than 1. */
    ghost predicate Valid()
      reads this
    {
      quantity >= 1
    }

    constructor (product: Product)
      ensures Valid()
      ensures this.product == product && quantity == 1 && selectedVariant == "" && !isFavorite
    {
      this.product := product;
      quantity := 1;
      selectedVariant := "";
      isFavorite := false;
    }

    /** The minus button is disabled at 1 or less. */
    predicate MinusDisabled()
      reads this
    {
      quantity <= 1
    }

    /** Minus sets `max(1, quantity - 1)`. */
    method Minus()
      requires Valid()
      modifies this
      ensures Valid()
      ensures quantity == if old(quantity) > 1 then old(quantity) - 1 else 1
      ensures old(quantity) == 1 ==> quantity == 1
      ensures selectedVariant == old(selectedVariant) && isFavorite == old(isFavorite)
    {
      quantity := if quantity - 1 >= 1 then quantity - 1 else 1;
    }

    /** Plus adds exactly one, with no upper bound. */
    method Plus()
      requires Valid()
      modifies this
      ensures Valid()
      ensures quantity == old(quantity) + 1
      ensures selectedVariant == old(selectedVariant) && isFavorite == old(isFavorite)
    {
      quantity := quantity + 1;
    }

    method SelectVariant(variant: string)
      requires Valid()
      modifies this
      ensures Valid()
      ensures selectedVariant == variant
      ensures quantity == old(quantity) && isFavorite == old(isFavorite)
    {
      selectedVariant := variant;
    }

    /** A chip is drawn selected exactly when its label is the selection. */
    predicate ChipSelected(variant: string)
      reads this
    {
      selectedVariant == variant
    }

    method ToggleFavorite()
      requires Valid()
      modifies this
      ensures Valid()
      ensures isFavorite == !old(isFavorite)
      ensures quantity == old(quantity) && selectedVariant == old(selectedVariant)
    {
      isFavorite := !isFavorite;
    }

    /** `handleAddToCart`: adds the product with the chosen variant and quantity, then goes to the cart. */
    method AddToCart(cart: CartChannel) returns (dest: Destination)
      requires Valid()
      modifies cart
      ensures cart.calls == old(cart.calls) + [AddItem(CartProduct(product, selectedVariant), quantity)]
      ensures QuantitiesAtLeastOne(old(cart.calls)) ==> QuantitiesAtLeastOne(cart.calls)
      ensures dest == CartRoute
    {
      cart.AddItem(CartProduct(product, selectedVariant), quantity);
      dest := CartRoute;
    }

    /** `handleBuyNow`: the same call as add-to-cart, then goes to checkout. */
    method BuyNow(cart: CartChannel) returns (dest: Destination)
      requires Valid()
      modifies cart
      ensures cart.calls == old(cart.calls) + [AddItem(CartProduct(product, selectedVariant), quantity)]
      ensures QuantitiesAtLeastOne(old(cart.calls)) ==> QuantitiesAtLeastOne(cart.calls)
      ensures dest == CheckoutRoute
    {
      cart.AddItem(CartProduct(product, selectedVariant), quantity);
      dest := CheckoutRoute;
    }
  }
}
