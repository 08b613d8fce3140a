/**
 * The dashboard sidebar: the navigation table with the user types allowed
 * to see each entry, the entries shown to the signed-in user, and the
 * highlighted entry.
 */
module Sidebar {
  import opened Wrappers
  import Seqs
  import opened Js
  import opened UserTypes

  datatype NavItem = NavItem(name: string, href: string, allowed: seq<string>)

  const OVERVIEW := NavItem("Overview", "/dashboard", [ADMIN, EMPLOYEE])
  const REPORTS := NavItem("Reports", "/dashboard/reports", [ADMIN])
  const ASSIGNMENTS := NavItem("Assignments", "/dashboard/assignments", [ADMIN, EMPLOYEE])
  const USERS := NavItem("Users", "/dashboard/users", [ADMIN])
  const ANALYTICS := NavItem("Analytics", "/dashboard/analytics", [ADMIN, EMPLOYEE])
  const SETTINGS := NavItem("Settings", "/dashboard/settings", [ADMIN])

  /** The table, in the order the sidebar lists it. */
  const NAVIGATION: seq<NavItem> := [OVERVIEW, REPORTS, ASSIGNMENTS, USERS, ANALYTICS, SETTINGS]

  /** `user?.userType && item.allowed.includes(user.userType)`; `None` is no signed-in user. */
  predicate Allowed(userType: Option<string>, item: NavItem) {
    Truthy(userType) && userType.value in item.allowed
  }

  function AllowedFor(userType: Option<string>): NavItem -> bool {
    (item: NavItem) => Allowed(userType, item)
  }

  /** `filteredNavigation`: the allowed entries of the table, in its order. */
  function FilteredNavigation(userType: Option<string>): (items: seq<NavItem>)
    ensures forall item :: item in items <==> item in NAVIGATION && Allowed(userType, item)
    ensures Seqs.IsSubsequence(items, NAVIGATION)
  {
    Seqs.FilterIsSubsequence(NAVIGATION, AllowedFor(userType));
    Seqs.Filter(NAVIGATION, AllowedFor(userType))
  }

  /** With no user, or a user without a type, the sidebar lists nothing. */
  lemma NoUserNoItems(userType: Option<string>)
    requires !Truthy(userType)
    ensures FilteredNavigation(userType) == []
  {
    Seqs.FilterNone(NAVIGATION, AllowedFor(userType));
  }

  /** An administrator sees the whole table. */
  lemma AdminSeesAll()
    ensures FilteredNavigation(Some(ADMIN)) == NAVIGATION
  {
    var p := AllowedFor(Some(ADMIN));
    assert p(OVERVIEW) && p(REPORTS) && p(ASSIGNMENTS) && p(USERS) && p(ANALYTICS) && p(SETTINGS);
    EveryEntry(p);
    Seqs.FilterAll(NAVIGATION, p);
  }

  /** What holds of each of the six entries holds of every entry of the table. */
  lemma EveryEntry(q: NavItem -> bool)
    requires q(OVERVIEW) && q(REPORTS) && q(ASSIGNMENTS) && q(USERS) && q(ANALYTICS) && q(SETTINGS)
    ensures forall i :: 0 <= i < |NAVIGATION| ==> q(NAVIGATION[i])
  {
  }

  /** Which entries an employee may see. */
  lemma EmployeeAllowed()
    ensures Allowed(Some(EMPLOYEE), OVERVIEW) && !Allowed(Some(EMPLOYEE), REPORTS) && Allowed(Some(EMPLOYEE), ASSIGNMENTS)
    ensures !Allowed(Some(EMPLOYEE), USERS) && Allowed(Some(EMPLOYEE), ANALYTICS) && !Allowed(Some(EMPLOYEE), SETTINGS)
  {
  }

  /** The employee's entries among the first three and among the last three. */
  lemma EmployeeHalves()
    ensures Seqs.Filter([OVERVIEW, REPORTS, ASSIGNMENTS], AllowedFor(Some(EMPLOYEE))) == [OVERVIEW, ASSIGNMENTS]
    ensures Seqs.Filter([USERS, ANALYTICS, SETTINGS], AllowedFor(Some(EMPLOYEE))) == [ANALYTICS]
  {
    var p := AllowedFor(Some(EMPLOYEE));
    EmployeeAllowed();
    assert p(OVERVIEW) && !p(REPORTS) && p(ASSIGNMENTS) && !p(USERS) && p(ANALYTICS) && !p(SETTINGS);
    Seqs.FilterThree(OVERVIEW, REPORTS, ASSIGNMENTS, p);
    Seqs.FilterThree(USERS, ANALYTICS, SETTINGS, p);
  }

  /** A six-entry table filters as its two halves do. */
  lemma FilterSixByHalves<T(!new)>(a: T, b: T, c: T, d: T, e: T, f: T, p: T -> bool)
    ensures Seqs.Filter([a, b, c, d, e, f], p) == Seqs.Filter([a, b, c], p) + Seqs.Filter([d, e, f], p)
  {
    Seqs.FilterAppend([a, b, c], [d, e, f], p);
    assert [a, b, c, d, e, f] == [a, b, c] + [d, e, f];
  }

  /** An employee sees Overview, Assignments and Analytics, in that order. */
  lemma EmployeeSeesThree()
    ensures FilteredNavigation(Some(EMPLOYEE)) == [OVERVIEW, ASSIGNMENTS, ANALYTICS]
  {
    EmployeeHalves();
    FilterSixByHalves(OVERVIEW, REPORTS, ASSIGNMENTS, USERS, ANALYTICS, SETTINGS, AllowedFor(Some(EMPLOYEE)));
  }

  /** A resident sees nothing. */
  lemma ResidentSeesNothing()
    ensures FilteredNavigation(Some(RESIDENT)) == []
  {
    var p := AllowedFor(Some(RESIDENT));
    assert RESIDENT != ADMIN && RESIDENT != EMPLOYEE by {
      assert |RESIDENT| != |ADMIN| && RESIDENT[0] != EMPLOYEE[0];
    }
    var q := (item: NavItem) => !p(item);
    assert q(OVERVIEW) && q(REPORTS) && q(ASSIGNMENTS) && q(USERS) && q(ANALYTICS) && q(SETTINGS);
    EveryEntry(q);
    Seqs.FilterNone(NAVIGATION, p);
  }

  /** Reports, Users and Settings reach administrators only. */
  lemma AdminOnlyItems(userType: Option<string>)
    requires userType != Some(ADMIN)
    ensures forall item :: item in FilteredNavigation(userType) ==>
      item.name != "Reports" && item.name != "Users" && item.name != "Settings"
  {
  }

  /** `pathname === item.href` */
  predicate IsActive(pathname: string, item: NavItem) {
    pathname == item.href
  }

  /** No two entries share a link, so a path highlights at most one entry. */
  lemma AtMostOneActive(userType: Option<string>, pathname: string)
    ensures forall i, j :: 0 <= i < j < |FilteredNavigation(userType)| ==>
      !(IsActive(pathname, FilteredNavigation(userType)[i]) && IsActive(pathname, FilteredNavigation(userType)[j]))
  {
    var items := FilteredNavigation(userType);
    Seqs.FilterNoDuplicates(NAVIGATION, AllowedFor(userType));
    forall i, j | 0 <= i < j < |items| ensures items[i].href != items[j].href {
      assert items[i] in NAVIGATION && items[j] in NAVIGATION && items[i] != items[j];
      if items[i].href == items[j].href {
        HrefDetermines(items[i], items[j]);
      }
    }
  }

  /** Each link belongs to one entry of the table: the links have six different lengths. */
  lemma HrefDetermines(a: NavItem, b: NavItem)
    requires a in NAVIGATION && b in NAVIGATION && a.href == b.href
    ensures a == b
  {
    assert |OVERVIEW.href| == 10 && |REPORTS.href| == 18 && |ASSIGNMENTS.href| == 22;
    assert |USERS.href| == 16 && |ANALYTICS.href| == 20 && |SETTINGS.href| == 19;
  }
}
