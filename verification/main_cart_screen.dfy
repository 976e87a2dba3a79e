/** The unrouted cart screen over a fixed list of lines, which computes its own subtotal. */
module MainCartScreen {
  import opened CartContext
  import CartItemRow
  import CartScreen

  const CartItems: seq<CartLine> := [CartLine("1", "Wireless Earbuds", 99.99, 1, "https://via.placeholder.com/300")]

  const Shipping: real := 10.0

  /** The `reduce` from 0 that adds each line's price times quantity, left to right. */
  function Subtotal(items: seq<CartLine>): real {
    if items == [] then 0.0 else Subtotal(items[..|items| - 1]) + CartItemRow.LineAmount(items[|items| - 1])
  }

  function Total(items: seq<CartLine>): (t: real)
    ensures t == Subtotal(items) + Shipping
  {
    Subtotal(items) + Shipping
  }

  /** The subtotal of a concatenation is the sum of the subtotals. */
  lemma {:induction false} SubtotalAppend(a: seq<CartLine>, b: seq<CartLine>)
    ensures Subtotal(a + b) == Subtotal(a) + Subtotal(b)
    decreases |b|
  {
    if b == [] {
      assert a + b == a;
    } else {
      assert (a + b)[..|a + b| - 1] == a + b[..|b| - 1];
      SubtotalAppend(a, b[..|b| - 1]);
    }
  }

  /** The subtotal is a sum over lines, so it does not depend on where a line sits: its first line can be split off too. */
  lemma SubtotalCons(x: CartLine, rest: seq<CartLine>)
    ensures Subtotal([x] + rest) == CartItemRow.LineAmount(x) + Subtotal(rest)
  {
    SubtotalAppend([x], rest);
    assert [x][..0] == [];
  }

  /** Lines with non-negative prices and quantities never give a negative subtotal. */
  lemma {:induction false} SubtotalNonNegative(items: seq<CartLine>)
    requires forall i :: 0 <= i < |items| ==> items[i].price >= 0.0 && items[i].quantity >= 0
    ensures Subtotal(items) >= 0.0
  {
    if items != [] {
      SubtotalNonNegative(items[..|items| - 1]);
    }
  }

  /** The fixed list shows one line, a subtotal of 99.99 and a total of 109.99. */
  lemma MockCartFigures()
    ensures |CartItems| == 1
    ensures Subtotal(CartItems) == 99.99
    ensures Total(CartItems) == 109.99
  {
    assert CartItems[..0] == [];
  }

  /**
   * When the store's `getTotal()` is this same sum, the routed screen and
   * this one show the same subtotal and total for a non-empty cart; for an
   * empty cart only the routed one drops the shipping fee.
   */
  lemma ScreensAgree(items: seq<CartLine>)
    ensures items != [] ==> CartScreen.SummaryOf(items, Subtotal(items)).total == Total(items)
    ensures items == [] ==> CartScreen.SummaryOf(items, Subtotal(items)).total == 0.0 && Total(items) == Shipping
  {
  }
}
