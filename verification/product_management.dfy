/** The seller's product list: a name search with a status filter, and the status chips. */
module ProductManagementScreen {
  import opened Text
  import opened Seqs
  import opened ThemeColors

  datatype Status = Active | Draft | OutOfStock

  datatype StatusFilter = All | Only(status: Status)

  /** Prices are in kobo. */
  datatype ManagedProduct = ManagedProduct(
    id: string, name: string, price: int, stock: int, category: string, image: string, status: Status)

  const MockProducts: seq<ManagedProduct> := [
    ManagedProduct("1", "Wireless Earbuds", 29999, 50, "Electronics", "https://via.placeholder.com/100", Active),
    ManagedProduct("2", "Smart Watch", 49999, 30, "Electronics", "https://via.placeholder.com/100", Active),
    ManagedProduct("3", "Bluetooth Speaker", 19999, 0, "Electronics", "https://via.placeholder.com/100", OutOfStock)
  ]

  /** The status as the data stores it. */
  function StatusText(s: Status): string {
    match s
    case Active => "active"
    case Draft => "draft"
    case OutOfStock => "out_of_stock"
  }

  predicate Shown(p: ManagedProduct, query: string, filter: StatusFilter) {
    Contains(Lower(p.name), Lower(query)) && (filter == All || p.status == filter.status)
  }

  /** `filteredProducts`. */
  function FilteredProducts(products: seq<ManagedProduct>, query: string, filter: StatusFilter): (r: seq<ManagedProduct>)
    ensures forall i :: 0 <= i < |r| ==> r[i] in products && Shown(r[i], query, filter)
    ensures forall i :: 0 <= i < |products| && Shown(products[i], query, filter) ==> products[i] in r
    ensures IsSubsequence(r, products)
  {
    Filter(products, (p: ManagedProduct) => Shown(p, query, filter))
  }

  /** The empty query with the 'all' filter lists every product, in order. */
  lemma EmptyQueryAllKeepsEverything(products: seq<ManagedProduct>)
    ensures FilteredProducts(products, "", All) == products
  {
    forall i | 0 <= i < |products|
      ensures Shown(products[i], "", All)
    {
      ContainsEmpty(Lower(products[i].name));
    }
    FilterAll(products, (p: ManagedProduct) => Shown(p, "", All));
  }

  /** The header counts all products, whatever the search and filter. */
  function HeaderCount(products: seq<ManagedProduct>, query: string, filter: StatusFilter): (n: nat)
    ensures n == |products| && n >= |FilteredProducts(products, query, filter)|
  {
    |products|
  }

  /** `getStatusColor`; its default branch cannot be reached with these three statuses. */
  function StatusColor(s: Status): (c: ColorRole)
    ensures s == Active ==> c == Primary
    ensures s == Draft ==> c == Secondary
    ensures s == OutOfStock ==> c == Error
  {
    match s
    case Active => Primary
    case Draft => Secondary
    case OutOfStock => Error
  }

  /** The chip text as the screen computes it: only the first '_' becomes a space. */
  function StatusLabelAsWritten(s: Status): (r: string)
    ensures |r| == |StatusText(s)|
  {
    Upper(ReplaceFirst(StatusText(s), '_', ' '))
  }

  /** The evident intent: every '_' becomes a space. */
  function StatusLabel(s: Status): (r: string)
    ensures forall i :: 0 <= i < |r| ==> r[i] != '_'
    ensures |r| == |StatusText(s)|
  {
    Upper(ReplaceAll(StatusText(s), '_', ' '))
  }

  lemma ReplaceFirstOutOfStock()
    ensures ReplaceFirst("out_of_stock", '_', ' ') == "out of_stock"
  {
    ReplaceFirstSplit("out", "of_stock", '_', ' ');
    assert "out" + ['_'] + "of_stock" == "out_of_stock";
    assert "out" + [' '] + "of_stock" == "out of_stock";
  }

  lemma UpperOutOfFirstStock()
    ensures Upper("out of_stock") == "OUT OF_STOCK"
  {
  }

  lemma ReplaceAllOutOfStock()
    ensures ReplaceAll("out_of_stock", '_', ' ') == "out of stock"
  {
  }

  lemma UpperOutOfStock()
    ensures Upper("out of stock") == "OUT OF STOCK"
  {
  }

  /** The screen shows "OUT OF_STOCK" for an out-of-stock product. */
  lemma StatusLabelAsWrittenKeepsUnderscore()
    ensures StatusLabelAsWritten(OutOfStock) == "OUT OF_STOCK"
  {
    ReplaceFirstOutOfStock();
    UpperOutOfFirstStock();
  }

  /** With every '_' replaced, the out-of-stock chip reads "OUT OF STOCK". */
  lemma OutOfStockLabelReadsAsWords()
    ensures StatusLabel(OutOfStock) == "OUT OF STOCK"
  {
    ReplaceAllOutOfStock();
    UpperOutOfStock();
  }

  lemma OtherLabels()
    ensures StatusLabel(Active) == "ACTIVE"
    ensures StatusLabel(Draft) == "DRAFT"
  {
    assert ReplaceAll("active", '_', ' ') == "active";
    assert ReplaceAll("draft", '_', ' ') == "draft";
  }

  datatype StatusChip = StatusChip(text: string, color: ColorRole)

  /** The chip drawn for a product, using the corrected label. */
  function ChipOf(p: ManagedProduct): (chip: StatusChip)
    ensures chip.text == StatusLabel(p.status) && chip.color == StatusColor(p.status)
    ensures forall i :: 0 <= i < |chip.text| ==> chip.text[i] != '_'
  {
    StatusChip(StatusLabel(p.status), StatusColor(p.status))
  }
}
