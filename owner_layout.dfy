/** The owner's bottom navigation (app/owner/layout.tsx). */
module OwnerLayout {
  import opened Wrappers
  import opened Text
  import opened Nav

  const Home: string := "/owner"

  const Items: seq<NavItem> := [
    NavItem("/owner", "Home", "home"),
    NavItem("/owner/orders", "Orders", "orders"),
    NavItem("/owner/menu", "Menu", "menu"),
    NavItem("/owner/profile", "Profile", "profile")
  ]

  datatype Icon = HomeIcon | OrdersIcon | MenuIcon | ProfileIcon

  /** The `switch` in `NavIcon`: nothing for an unknown type. */
  function NavIcon(kind: string): (r: Option<Icon>)
    ensures r.Some? <==> kind in {"home", "orders", "menu", "profile"}
  {
    if kind == "home" then Some(HomeIcon)
    else if kind == "orders" then Some(OrdersIcon)
    else if kind == "menu" then Some(MenuIcon)
    else if kind == "profile" then Some(ProfileIcon)
    else None
  }

  /** Every item of the bar has an icon. */
  lemma EveryItemHasIcon(i: int)
    requires 0 <= i < |Items|
    ensures NavIcon(Items[i].icon).Some?
  {
  }

  /** Home is highlighted only on "/owner" itself. */
  lemma HomeActiveIffExact(pathname: string)
    ensures Active(Home, Items[0].href, pathname) <==> pathname == "/owner"
  {
  }

  /** The test is a plain prefix test: "/owner/menuX" highlights Menu. */
  lemma PrefixTestIsLoose()
    ensures Active(Home, Items[2].href, "/owner/menuX")
  {
    assert "/owner/menuX"[..|"/owner/menu"|] == "/owner/menu";
  }

  lemma {:induction false} ItemsWellSeparated()
    ensures WellSeparated(Home, Items)
  {
    // Home is the shortest href; the other three part at the character after "/owner/": 'o', 'm' and 'p'.
    forall i, j | 0 <= i < |Items| && 0 <= j < |Items| && i != j
      ensures Items[i].href != Items[j].href
      ensures Items[i].href != Home && Items[j].href != Home ==> !StartsWith(Items[j].href, Items[i].href)
    {
      var a, b := Items[i].href, Items[j].href;
      if i != 0 && j != 0 {
        assert a[7] != b[7];
        NotStartsWithAt(b, a, 7);
      } else {
        assert |a| != |b|;
      }
    }
  }

  /** At most one item of the owner's bar is highlighted, whatever the pathname. */
  lemma OneActiveAtMost(pathname: string, i: int, j: int)
    requires 0 <= i < |Items| && 0 <= j < |Items| && i != j
    ensures !(Active(Home, Items[i].href, pathname) && Active(Home, Items[j].href, pathname))
  {
    ItemsWellSeparated();
    AtMostOneActive(Home, Items, pathname, i, j);
  }
}
