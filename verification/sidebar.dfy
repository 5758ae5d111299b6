/** The navigation sidebar (src/components/Sidebar.tsx): the fixed list of
    links and the filter that hides the role-restricted ones. */
module Sidebar {
  import opened Domain

  /** A link; `roles` is `None` when the item has no role list. */
  datatype NavItem = NavItem(title: string, path: string, roles: Option<seq<Role>>)

  /** The roles that see Audit Logs and Analytics. */
  function ReportRoles(): seq<Role>
  {
    [Dgm, Admin, Manager]
  }

  /** The six links: four open to every signed-in user, then the two
      restricted to the report roles; no two share a path. */
  function NavItems(): (r: seq<NavItem>)
    ensures |r| == 6
    ensures forall i :: 0 <= i < 4 ==> r[i].roles.None?
    ensures forall i :: 4 <= i < 6 ==> r[i].roles == Some(ReportRoles())
    ensures forall i, j :: 0 <= i < j < |r| ==> r[i].path != r[j].path
  {
    [ NavItem("Dashboard", "/", None),
      NavItem("Products", "/products", None),
      NavItem("BOMs", "/boms", None),
      NavItem("Suppliers", "/suppliers", None),
      NavItem("Audit Logs", "/audit-logs", Some(ReportRoles())),
      NavItem("Analytics", "/analytics", Some(ReportRoles())) ]
  }

  /** `!item.roles || (currentUser && item.roles.includes(currentUser.role))`. */
  predicate Shown(item: NavItem, role: Option<Role>)
    ensures item.roles.None? ==> Shown(item, role)
    ensures role.None? ==> (Shown(item, role) <==> item.roles.None?)
    ensures item.roles == Some([]) ==> !Shown(item, role)
  {
    item.roles.None? || (role.Some? && role.value in item.roles.value)
  }

  /** `items.filter(...)`: the items shown to `role`, in their order. */
  function ShownAmong(items: seq<NavItem>, role: Option<Role>): (r: seq<NavItem>)
    ensures forall i :: 0 <= i < |r| ==> Shown(r[i], role)
    decreases |items|
  {
    if |items| == 0 then []
    else if Shown(items[0], role) then [items[0]] + ShownAmong(items[1..], role)
    else ShownAmong(items[1..], role)
  }

  /** Nothing shown to the role is dropped. */
  lemma {:induction false} ShownAmongKeepsShown(items: seq<NavItem>, role: Option<Role>, i: nat)
    requires i < |items| && Shown(items[i], role)
    ensures items[i] in ShownAmong(items, role)
    decreases |items|
  {
    if i > 0 {
      assert items[1..][i - 1] == items[i];
      ShownAmongKeepsShown(items[1..], role, i - 1);
    }
  }

  /** Filtering keeps the items' order. */
  lemma {:induction false} ShownAmongKeepsOrder(items: seq<NavItem>, role: Option<Role>)
    ensures Subsequence(ShownAmong(items, role), items)
    decreases |items|
  {
    if |items| > 0 {
      ShownAmongKeepsOrder(items[1..], role);
    }
  }

  /** The links rendered for the current user's role (`None` when signed out). */
  function VisibleItems(role: Option<Role>): seq<NavItem>
  {
    ShownAmong(NavItems(), role)
  }

  /** Items without a role list are shown to everyone, signed out included. */
  lemma UnrestrictedAlwaysShown(role: Option<Role>, item: NavItem)
    requires item in NavItems() && item.roles.None?
    ensures item in VisibleItems(role)
  {
    var i :| 0 <= i < |NavItems()| && NavItems()[i] == item;
    ShownAmongKeepsShown(NavItems(), role, i);
  }

  /** A restricted item is shown only to a listed role, never when signed out. */
  lemma RestrictedNeedsListedRole(role: Option<Role>, item: NavItem)
    requires item in VisibleItems(role) && item.roles.Some?
    ensures role.Some? && role.value in item.roles.value
  {
    var r := VisibleItems(role);
    var i :| 0 <= i < |r| && r[i] == item;
    assert Shown(r[i], role);
  }

  function Titles(items: seq<NavItem>): (r: seq<string>)
    ensures |r| == |items|
    ensures forall i :: 0 <= i < |items| ==> r[i] == items[i].title
  {
    seq(|items|, i requires 0 <= i < |items| => items[i].title)
  }

  lemma ShownAmongCons(x: NavItem, rest: seq<NavItem>, role: Option<Role>)
    ensures ShownAmong([x] + rest, role) == (if Shown(x, role) then [x] else []) + ShownAmong(rest, role)
  {
    assert ([x] + rest)[0] == x && ([x] + rest)[1..] == rest;
  }

  /** Does the role see the report links? */
  predicate SeesReports(role: Option<Role>)
  {
    role.Some? && role.value in ReportRoles()
  }

  /** The visible links, item by item: the four unrestricted ones always, the
      two report links only for a report role. */
  lemma VisibleItemsUnfold(role: Option<Role>)
    ensures !SeesReports(role) ==> VisibleItems(role) == NavItems()[..4]
    ensures SeesReports(role) ==> VisibleItems(role) == NavItems()
  {
    var items := NavItems();
    var t5 := [items[5]];
    var t4 := [items[4]] + t5;
    var t3 := [items[3]] + t4;
    var t2 := [items[2]] + t3;
    var t1 := [items[1]] + t2;
    assert items == [items[0]] + t1;
    ShownAmongCons(items[5], [], role);
    assert [items[5]] + [] == t5;
    ShownAmongCons(items[4], t5, role);
    ShownAmongCons(items[3], t4, role);
    ShownAmongCons(items[2], t3, role);
    ShownAmongCons(items[1], t2, role);
    ShownAmongCons(items[0], t1, role);
    assert items[..4] == [items[0], items[1], items[2], items[3]];
  }

  lemma UnrestrictedTitles()
    ensures Titles(NavItems()[..4]) == ["Dashboard", "Products", "BOMs", "Suppliers"]
  {
    var t := Titles(NavItems()[..4]);
    assert t[0] == "Dashboard" && t[1] == "Products" && t[2] == "BOMs" && t[3] == "Suppliers";
  }

  /** An engineer, and a signed-out visitor, see the four unrestricted links. */
  lemma FourLinksWithoutReportRole(role: Option<Role>)
    requires role == None || role == Some(Engineer)
    ensures Titles(VisibleItems(role)) == ["Dashboard", "Products", "BOMs", "Suppliers"]
  {
    assert !SeesReports(role);
    VisibleItemsUnfold(role);
    UnrestrictedTitles();
  }

  /** Managers, DGMs and admins see all six links, in the list's order. */
  lemma AllLinksForOtherRoles(role: Role)
    requires role != Engineer
    ensures VisibleItems(Some(role)) == NavItems()
  {
    assert SeesReports(Some(role));
    VisibleItemsUnfold(Some(role));
  }
}
