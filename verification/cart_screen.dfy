/**
 * The routed cart screen: the summary derived from the store's lines and
 * `getTotal()`, and the choice between the empty state and the filled cart.
 */
module CartScreen {
  import opened CartContext

  const ShippingFee: real := 10.0

  datatype Summary = Summary(subtotal: real, shipping: real, total: real)

  /** The screen body: the empty state, or a header with the line count and a checkout button. */
  datatype CartView =
    | EmptyState
    | FilledCart(headerCount: nat, summary: Summary)

  /** Subtotal, shipping and total as the screen derives them; `storeTotal` is what `getTotal()` returns. */
  function SummaryOf(items: seq<CartLine>, storeTotal: real): (s: Summary)
    ensures s.subtotal == storeTotal
    ensures s.shipping == ShippingFee <==> items != []
    ensures s.shipping == 0.0 <==> items == []
    ensures s.total == s.subtotal + s.shipping
  {
    var shipping := if |items| > 0 then ShippingFee else 0.0;
    Summary(storeTotal, shipping, storeTotal + shipping)
  }

  /** Which body the screen renders. */
  function Render(items: seq<CartLine>, storeTotal: real): (v: CartView)
    ensures v.EmptyState? <==> items == []
    ensures v.FilledCart? ==> v.headerCount == |items| && v.summary == SummaryOf(items, storeTotal)
  {
    if |items| == 0 then EmptyState else FilledCart(|items|, SummaryOf(items, storeTotal))
  }

  /** The checkout action exists only in the filled cart. */
  predicate CanCheckout(v: CartView) {
    v.FilledCart?
  }

  /** An empty cart offers no checkout action, and a non-empty one always does. */
  lemma CheckoutOnlyWhenNonEmpty(items: seq<CartLine>, storeTotal: real)
    ensures CanCheckout(Render(items, storeTotal)) <==> items != []
  {
  }

  /** The header counts lines, not units: two lines of three units each show 2. */
  lemma HeaderCountsLines(a: CartLine, b: CartLine, storeTotal: real)
    requires a.quantity == 3 && b.quantity == 3
    ensures Render([a, b], storeTotal).headerCount == 2
  {
  }
}
