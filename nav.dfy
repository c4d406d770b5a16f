/** The bottom navigation bar shared in shape by app/owner/layout.tsx and app/customer/layout.tsx. */
module Nav {
  import opened Text

  datatype NavItem = NavItem(href: string, title: string, icon: string)

  /** An item is highlighted: the home item only on its own path, any other item on every path under its href. */
  predicate Active(home: string, href: string, pathname: string) {
    if href == home then pathname == home else StartsWith(pathname, href)
  }

  /** No non-home href is a prefix of another, and none is a prefix of the home path. */
  predicate WellSeparated(home: string, nav: seq<NavItem>) {
    (forall i, j :: 0 <= i < |nav| && 0 <= j < |nav| && i != j ==>
       nav[i].href != nav[j].href && (nav[i].href != home && nav[j].href != home ==> !StartsWith(nav[j].href, nav[i].href)))
    && (forall i :: 0 <= i < |nav| && nav[i].href != home ==> !StartsWith(home, nav[i].href))
  }

  /** With well-separated hrefs no pathname highlights two items. */
  lemma AtMostOneActive(home: string, nav: seq<NavItem>, pathname: string, i: int, j: int)
    requires WellSeparated(home, nav)
    requires 0 <= i < |nav| && 0 <= j < |nav| && i != j
    ensures !(Active(home, nav[i].href, pathname) && Active(home, nav[j].href, pathname))
  {
    var a, b := nav[i].href, nav[j].href;
    if Active(home, a, pathname) && Active(home, b, pathname) {
      if a != home && b != home {
        if |a| <= |b| {
          PrefixesComparable(pathname, a, b);
        } else {
          PrefixesComparable(pathname, b, a);
        }
      }
    }
  }
}
