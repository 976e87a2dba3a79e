/** Product search: a case-insensitive substring filter over a fixed catalogue. */
module SearchScreen {
  import opened Text
  import opened Seqs

  datatype SearchProduct = SearchProduct(id: string, name: string, price: real, image: string, description: string)

  const Products: seq<SearchProduct> := [
    SearchProduct("1", "Wireless Earbuds Pro", 99.99, "https://via.placeholder.com/300", "Premium wireless earbuds with noise cancellation"),
    SearchProduct("2", "Smart Watch Series 5", 149.99, "https://via.placeholder.com/300", "Advanced smartwatch with health tracking"),
    SearchProduct("3", "Ultra HD Camera", 199.99, "https://via.placeholder.com/300", "Professional grade digital camera"),
    SearchProduct("4", "Gaming Laptop Pro", 1299.99, "https://via.placeholder.com/300", "High-performance gaming laptop")
  ]

  /** The lowercased name or description contains the lowercased query, spaces included. */
  predicate Matches(p: SearchProduct, query: string) {
    Contains(Lower(p.name), Lower(query)) || Contains(Lower(p.description), Lower(query))
  }

  /** The list `onChangeSearch` stores: empty for a blank query, otherwise the matching products. */
  function Search(catalogue: seq<SearchProduct>, query: string): seq<SearchProduct> {
    if Trim(query) == [] then [] else Filter(catalogue, (p: SearchProduct) => Matches(p, query))
  }

  /**
   * A blank query finds nothing. Any other query finds exactly the matching
   * products, in catalogue order.
   */
  lemma SearchSpec(catalogue: seq<SearchProduct>, query: string)
    ensures IsBlank(query) ==> Search(catalogue, query) == []
    ensures !IsBlank(query) ==>
      && (forall i :: 0 <= i < |Search(catalogue, query)| ==>
            Search(catalogue, query)[i] in catalogue && Matches(Search(catalogue, query)[i], query))
      && (forall i :: 0 <= i < |catalogue| && Matches(catalogue[i], query) ==> catalogue[i] in Search(catalogue, query))
      && IsSubsequence(Search(catalogue, query), catalogue)
  {
    TrimEmptyIffBlank(query);
  }

  /** The screen's state: the text in the search bar and the stored results. */
  datatype SearchState = SearchState(searchQuery: string, filteredProducts: seq<SearchProduct>)

  const InitialState := SearchState("", [])

  /** `onChangeSearch(query)`. */
  function OnChangeSearch(query: string): (st: SearchState)
    ensures st.searchQuery == query
    ensures IsBlank(query) ==> st.filteredProducts == []
    ensures !IsBlank(query) ==> forall i :: 0 <= i < |Products| ==> (Products[i] in st.filteredProducts <==> Matches(Products[i], query))
  {
    SearchSpec(Products, query);
    SearchState(query, Search(Products, query))
  }

  /** A category press puts the category's name in the bar and searches for it. */
  function HandleCategoryPress(category: string): (st: SearchState)
    ensures st == OnChangeSearch(category)
  {
    OnChangeSearch(category)
  }

  /** A trending or recent search chip does the same with its text. */
  function HandleSearchPress(search: string): (st: SearchState)
    ensures st == OnChangeSearch(search)
  {
    OnChangeSearch(search)
  }

  datatype SearchView = Suggestions | Results(products: seq<SearchProduct>)

  /** The suggestions show only while the bar is exactly empty. */
  function ViewOf(st: SearchState): (v: SearchView)
    ensures v.Suggestions? <==> st.searchQuery == ""
  {
    if st.searchQuery == "" then Suggestions else Results(st.filteredProducts)
  }

  /** A whitespace-only query shows an empty results list, not the suggestions. */
  lemma BlankQueryShowsEmptyResults()
    ensures ViewOf(OnChangeSearch("   ")) == Results([])
  {
  }

  lemma LongerNeedleNotContained(hay: string, needle: string)
    requires |needle| > |hay|
    ensures !Contains(hay, needle)
  {
  }

  /**
   * The query is matched untrimmed: "camera" padded with fifty spaces is
   * longer than every name and description, so it finds nothing, though
   * "Ultra HD Camera" contains "camera".
   */
  lemma PaddedQueryFindsNothing()
    ensures Search(Products, "camera" + seq(50, _ => ' ')) == []
  {
    var q := "camera" + seq(50, _ => ' ');
    assert q[0] == 'c';
    forall i | 0 <= i < |Products|
      ensures !Matches(Products[i], q)
    {
      LongerNeedleNotContained(Lower(Products[i].name), Lower(q));
      LongerNeedleNotContained(Lower(Products[i].description), Lower(q));
    }
    assert Trim(q) != [] by {
      TrimEmptyIffBlank(q);
    }
    FilterNone(Products, (p: SearchProduct) => Matches(p, q));
  }

  lemma {:induction false} FilterNone(s: seq<SearchProduct>, p: SearchProduct -> bool)
    requires forall i :: 0 <= i < |s| ==> !p(s[i])
    ensures Filter(s, p) == []
  {
    if s != [] {
      FilterNone(s[1..], p);
    }
  }
}
