/** The bottom tab bar: icons, the cart badge, focus and the press rule. */
module CustomTabBar {
  import opened Wrappers

  /** `getIcon`. */
  function GetIcon(routeName: string, isFocused: bool): (icon: string)
    ensures routeName == "Home" ==> icon == if isFocused then "home" else "home-outline"
    ensures routeName == "Search" ==> icon == "magnify"
    ensures routeName == "Categories" ==> icon == if isFocused then "view-grid" else "view-grid-outline"
    ensures routeName == "Cart" ==> icon == if isFocused then "cart" else "cart-outline"
    ensures routeName == "Profile" ==> icon == if isFocused then "account" else "account-outline"
    ensures routeName !in {"Home", "Search", "Categories", "Cart", "Profile"} ==> icon == "circle"
  {
    if routeName == "Home" then (if isFocused then "home" else "home-outline")
    else if routeName == "Search" then "magnify"
    else if routeName == "Categories" then (if isFocused then "view-grid" else "view-grid-outline")
    else if routeName == "Cart" then (if isFocused then "cart" else "cart-outline")
    else if routeName == "Profile" then (if isFocused then "account" else "account-outline")
    else "circle"
  }

  /** For the four routes with two icons, the unfocused icon is the focused one with "-outline" appended; Search keeps one icon. */
  lemma OutlineWhenUnfocused(routeName: string)
    ensures routeName in {"Home", "Categories", "Cart", "Profile"} ==>
      GetIcon(routeName, false) == GetIcon(routeName, true) + "-outline"
    ensures routeName !in {"Home", "Categories", "Cart", "Profile"} ==>
      GetIcon(routeName, false) == GetIcon(routeName, true)
  {
  }

  /** The badge with the cart count shows only on the Cart tab, and only when the count is positive. */
  function ShowBadge(routeName: string, cartItemCount: int): (shown: bool)
    ensures shown <==> routeName == "Cart" && cartItemCount > 0
  {
    routeName == "Cart" && cartItemCount > 0
  }

  /**
   * `onPress`: the route to navigate to, if any. Whether a listener
   * prevented the emitted `tabPress` event is a parameter.
   */
  function OnPress(routeName: string, isFocused: bool, defaultPrevented: bool): (target: Option<string>)
    ensures target.Some? <==> !isFocused && !defaultPrevented
    ensures target.Some? ==> target.value == routeName
  {
    if !isFocused && !defaultPrevented then Some(routeName) else None
  }

  datatype Tab = Tab(name: string, focused: bool, icon: string, badge: bool)

  /** One tab per route, focused exactly where the route's index is the navigator's index. */
  function Tabs(routes: seq<string>, stateIndex: int, cartItemCount: int): (tabs: seq<Tab>)
    ensures |tabs| == |routes|
    ensures forall i :: 0 <= i < |routes| ==>
      && tabs[i].name == routes[i]
      && (tabs[i].focused <==> i == stateIndex)
      && tabs[i].icon == GetIcon(routes[i], i == stateIndex)
      && (tabs[i].badge <==> ShowBadge(routes[i], cartItemCount))
  {
    seq(|routes|, i requires 0 <= i < |routes| =>
      Tab(routes[i], i == stateIndex, GetIcon(routes[i], i == stateIndex), ShowBadge(routes[i], cartItemCount)))
  }

  /** Exactly one tab is focused when the index is in range, none otherwise; pressing it navigates nowhere. */
  lemma OneFocusedTab(routes: seq<string>, stateIndex: int, cartItemCount: int, i: int, j: int, prevented: bool)
    requires 0 <= i < |routes| && 0 <= j < |routes|
    ensures Tabs(routes, stateIndex, cartItemCount)[i].focused && Tabs(routes, stateIndex, cartItemCount)[j].focused ==> i == j
    ensures i == stateIndex ==> Tabs(routes, stateIndex, cartItemCount)[i].focused
    ensures OnPress(routes[i], Tabs(routes, stateIndex, cartItemCount)[i].focused, prevented).Some? ==> i != stateIndex
  {
  }
}
