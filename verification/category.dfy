/** The category list, where one category at a time shows its subcategories. */
module CategoryScreen {
  import opened Wrappers
  import Accordion

  datatype Category = Category(id: string, name: string, icon: string, subCategories: seq<string>)

  const Categories: seq<Category> := [
    Category("1", "Electronics", "laptop", ["Phones", "Laptops", "Tablets", "Accessories"]),
    Category("2", "Fashion", "shirt", ["Men", "Women", "Kids", "Accessories"]),
    Category("3", "Home", "home", ["Furniture", "Decor", "Kitchen", "Garden"]),
    Category("4", "Beauty", "brush", ["Skincare", "Makeup", "Haircare", "Fragrance"])
  ]

  datatype Chevron = ChevronUp | ChevronDown

  /** The subcategories drawn under a category: all of them when it is expanded, none otherwise. */
  function VisibleSubcategories(expanded: Option<string>, c: Category): (r: seq<string>)
    ensures r != [] ==> Accordion.IsExpanded(expanded, c.id)
    ensures Accordion.IsExpanded(expanded, c.id) ==> r == c.subCategories
  {
    if Accordion.IsExpanded(expanded, c.id) then c.subCategories else []
  }

  function ChevronOf(expanded: Option<string>, c: Category): (r: Chevron)
    ensures r == ChevronUp <==> Accordion.IsExpanded(expanded, c.id)
  {
    if Accordion.IsExpanded(expanded, c.id) then ChevronUp else ChevronDown
  }

  /**
   * Whatever was pressed, at most one category of the list shows its
   * subcategories, because the ids of the list are distinct.
   */
  lemma AtMostOneOpen(expanded: Option<string>, i: int, j: int)
    requires 0 <= i < |Categories| && 0 <= j < |Categories|
    requires VisibleSubcategories(expanded, Categories[i]) != [] && VisibleSubcategories(expanded, Categories[j]) != []
    ensures i == j
  {
  }

  /** Nothing is open at first; pressing a category opens it, and pressing it again closes it. */
  lemma PressOpensThenCloses(c: Category)
    requires c.subCategories != []
    ensures VisibleSubcategories(Accordion.Collapsed, c) == []
    ensures VisibleSubcategories(Accordion.Toggle(Accordion.Collapsed, c.id), c) == c.subCategories
    ensures VisibleSubcategories(Accordion.Toggle(Accordion.Toggle(Accordion.Collapsed, c.id), c.id), c) == []
  {
  }
}
