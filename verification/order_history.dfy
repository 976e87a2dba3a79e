/** The order history cards: status colour, status label, and amounts shown as stored. */
module OrderHistoryScreen {
  import opened Text
  import opened ThemeColors

  datatype OrderItem = OrderItem(name: string, quantity: int, price: real)

  /** The date string is shown through locale formatting, which is not modelled. */
  datatype Order = Order(id: string, date: string, status: string, total: real, items: seq<OrderItem>)

  const MockOrders: seq<Order> := [
    Order("ORD1234567", "2024-03-15", "delivered", 299.99, [OrderItem("Product 1", 2, 99.99), OrderItem("Product 2", 1, 100.01)]),
    Order("ORD7654321", "2024-03-14", "processing", 149.99, [OrderItem("Product 3", 1, 149.99)])
  ]

  /** `getStatusColor` over the status string. */
  function StatusColor(status: string): (c: ColorRole)
    ensures status == "delivered" <==> c == Secondary
    ensures status == "processing" <==> c == Primary
    ensures status == "cancelled" <==> c == Error
    ensures c == OnSurfaceVariant <==> status != "delivered" && status != "processing" && status != "cancelled"
  {
    if status == "delivered" then Secondary
    else if status == "processing" then Primary
    else if status == "cancelled" then Error
    else OnSurfaceVariant
  }

  /** `status.charAt(0).toUpperCase() + status.slice(1)`. */
  function StatusLabel(status: string): (r: string)
    ensures |r| == |status|
    ensures status == [] ==> r == []
    ensures status != [] ==> r[0] == UpperChar(status[0]) && r[1..] == status[1..]
  {
    if status == [] then [] else [UpperChar(status[0])] + status[1..]
  }

  /** The amounts a card shows: each item's unit price, and the stored order total. */
  datatype OrderCard = OrderCard(statusText: string, color: ColorRole, itemPrices: seq<real>, footer: real)

  function CardOf(o: Order): (card: OrderCard)
    ensures |card.itemPrices| == |o.items|
    ensures forall i :: 0 <= i < |o.items| ==> card.itemPrices[i] == o.items[i].price
    ensures card.footer == o.total
  {
    OrderCard(StatusLabel(o.status), StatusColor(o.status), seq(|o.items|, i requires 0 <= i < |o.items| => o.items[i].price), o.total)
  }

  /** The sum of price times quantity over an order's items; the card does not show it. */
  function ItemsSum(items: seq<OrderItem>): real {
    if items == [] then 0.0 else items[0].price * items[0].quantity as real + ItemsSum(items[1..])
  }

  /**
   * The footer shows the stored total even where it disagrees with the items:
   * an order of one item at 10 with a stored total of 12 shows 12.
   */
  lemma FooterIsStoredTotal()
    ensures CardOf(Order("X", "", "delivered", 12.0, [OrderItem("A", 1, 10.0)])).footer == 12.0
    ensures ItemsSum([OrderItem("A", 1, 10.0)]) == 10.0
  {
  }

  /** The stored totals of the sample orders happen to equal their item sums, and their labels read "Delivered" and "Processing". */
  lemma MockOrdersConsistent()
    ensures forall i :: 0 <= i < |MockOrders| ==> MockOrders[i].total == ItemsSum(MockOrders[i].items)
    ensures StatusLabel(MockOrders[0].status) == "Delivered" && StatusLabel(MockOrders[1].status) == "Processing"
  {
    assert ItemsSum(MockOrders[0].items) == 99.99 * 2.0 + ItemsSum(MockOrders[0].items[1..]);
  }
}
