/** The customer's bottom navigation (app/customer/layout.tsx). */
module CustomerLayout {
  import opened Wrappers
  import opened Text
  import opened Nav

  const Home: string := "/customer"

  const Items: seq<NavItem> := [
    NavItem("/customer", "Home", "home"),
    NavItem("/customer/menu", "Menu", "menu"),
    NavItem("/customer/profile", "Profile", "profile")
  ]

  datatype Icon = HomeIcon | MenuIcon | ProfileIcon

  /** The `switch` in `NavIcon`: this bar has no orders icon. */
  function NavIcon(kind: string): (r: Option<Icon>)
    ensures r.Some? <==> kind in {"home", "menu", "profile"}
  {
    if kind == "home" then Some(HomeIcon)
    else if kind == "menu" then Some(MenuIcon)
    else if kind == "profile" then Some(ProfileIcon)
    else None
  }

  lemma EveryItemHasIcon(i: int)
    requires 0 <= i < |Items|
    ensures NavIcon(Items[i].icon).Some?
  {
  }

  /** Home is highlighted only on "/customer" itself; the others on any path under their href. */
  lemma ActiveRule(pathname: string)
    ensures Active(Home, Items[0].href, pathname) <==> pathname == "/customer"
    ensures Active(Home, Items[1].href, pathname) <==> StartsWith(pathname, "/customer/menu")
    ensures Active(Home, Items[2].href, pathname) <==> StartsWith(pathname, "/customer/profile")
  {
  }

  lemma {:induction false} ItemsWellSeparated()
    ensures WellSeparated(Home, Items)
  {
    // Home is the shortest href; the other two part at the character after "/customer/": 'm' and 'p'.
    forall i, j | 0 <= i < |Items| && 0 <= j < |Items| && i != j
      ensures Items[i].href != Items[j].href
      ensures Items[i].href != Home && Items[j].href != Home ==> !StartsWith(Items[j].href, Items[i].href)
    {
      var a, b := Items[i].href, Items[j].href;
      if i != 0 && j != 0 {
        assert a[10] != b[10];
        NotStartsWithAt(b, a, 10);
      } else {
        assert |a| != |b|;
      }
    }
  }

  /** At most one item of the customer's bar is highlighted, whatever the pathname. */
  lemma OneActiveAtMost(pathname: string, i: int, j: int)
    requires 0 <= i < |Items| && 0 <= j < |Items| && i != j
    ensures !(Active(Home, Items[i].href, pathname) && Active(Home, Items[j].href, pathname))
  {
    ItemsWellSeparated();
    AtMostOneActive(Home, Items, pathname, i, j);
  }
}
