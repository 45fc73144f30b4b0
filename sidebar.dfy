/** The admin sidebar: three navigation entries and the test that highlights
    the entry for the current path. */
module Sidebar {
  import Text

  /** A navigation entry: its label and the path it links to. */
  datatype NavItem = NavItem(name: string, path: string)

  /** The dashboard's path, which is a prefix of every other entry's path. */
  const DashboardPath: string := "/admin"

  /** `navItems`, in display order (the icons are left out). */
  const NavItems: seq<NavItem> := [
    NavItem("Dashboard", DashboardPath),
    NavItem("Categories", "/admin/categories"),
    NavItem("Items", "/admin/items")]

  /** `isActive`: the dashboard only on its exact path, any other entry on a
      plain string-prefix match. */
  predicate IsActive(pathname: string, path: string)
  {
    if path == DashboardPath then pathname == DashboardPath else Text.StartsWith(pathname, path)
  }

  /** The highlight flags of the entries, in display order. */
  function ActiveFlags(pathname: string): (flags: seq<bool>)
    ensures |flags| == |NavItems|
    ensures forall i :: 0 <= i < |flags| ==> (flags[i] <==> IsActive(pathname, NavItems[i].path))
  {
    seq(|NavItems|, i requires 0 <= i < |NavItems| => IsActive(pathname, NavItems[i].path))
  }

  /** The dashboard is highlighted on "/admin" alone, not below it. */
  lemma DashboardOnlyExact(pathname: string)
    ensures ActiveFlags(pathname)[0] <==> pathname == DashboardPath
    ensures ActiveFlags(DashboardPath + "/items")[0] == false
  {
    assert ActiveFlags(pathname)[0] == IsActive(pathname, NavItems[0].path);
    assert DashboardPath + "/items" != DashboardPath;
  }

  /** Every entry is highlighted on its own path, and the other entries on any
      path that extends theirs as a string, even without a "/" in between. */
  lemma ActiveOnOwnPath(i: nat, rest: string)
    requires i < |NavItems|
    ensures ActiveFlags(NavItems[i].path)[i]
    ensures i > 0 ==> ActiveFlags(NavItems[i].path + rest)[i]
  {
    var p := NavItems[i].path;
    assert Text.StartsWith(p, p);
    assert i > 0 ==> p != DashboardPath && p <= p + rest;
  }

  /** The prefix test is not segment-aware: "/admin/itemsfoo" highlights Items. */
  lemma ItemsPrefixQuirk()
    ensures ActiveFlags("/admin/items/x")[2]
    ensures ActiveFlags("/admin/itemsfoo")[2]
  {
    ActiveOnOwnPath(2, "/x");
    ActiveOnOwnPath(2, "foo");
    assert NavItems[2].path + "/x" == "/admin/items/x";
    assert NavItems[2].path + "foo" == "/admin/itemsfoo";
  }

  /** No path highlights two entries: "/admin/categories" and "/admin/items"
      differ at their eighth character, and neither is "/admin". */
  lemma AtMostOneActive(pathname: string)
    ensures forall i, j :: 0 <= i < j < |NavItems| && ActiveFlags(pathname)[i] ==> !ActiveFlags(pathname)[j]
  {
    var flags := ActiveFlags(pathname);
    var c := NavItems[1].path;
    var t := NavItems[2].path;
    assert c[7] == 'c' && t[7] == 'i';
    assert pathname == DashboardPath ==> !(c <= pathname) && !(t <= pathname);
    assert c <= pathname ==> pathname[7] == 'c';
    assert t <= pathname ==> pathname[7] == 'i';
  }
}
