/** The dashboard sidebar (src/components/dashboard/sidebar.tsx): the menu
    each role gets and which entry is highlighted. Icons are left out; an
    entry is its title and its link. */
module Sidebar {
  import opened Seqs
  import opened Types

  datatype NavItem = NavItem(title: string, href: string)

  const BaseItems: seq<NavItem> := [NavItem("Dashboard", "/dashboard")]

  const AdminItems: seq<NavItem> := [
    NavItem("Users", "/dashboard/users"), NavItem("Hostels", "/dashboard/hostels"),
    NavItem("Rooms", "/dashboard/rooms"), NavItem("Bookings", "/dashboard/bookings"),
    NavItem("Complaints", "/dashboard/complaints"), NavItem("Reports", "/dashboard/reports")
  ]

  const StaffItems: seq<NavItem> := [
    NavItem("Students", "/dashboard/students"), NavItem("Rooms", "/dashboard/rooms"),
    NavItem("Bookings", "/dashboard/bookings"), NavItem("Complaints", "/dashboard/complaints"),
    NavItem("Verification", "/dashboard/documents")
  ]

  const StudentItems: seq<NavItem> := [
    NavItem("My Room", "/dashboard/my-room"), NavItem("Complaints", "/dashboard/complaints"),
    NavItem("Documents", "/dashboard/documents")
  ]

  const CommonItems: seq<NavItem> := [NavItem("Profile", "/dashboard/profile")]

  /** `getNavItems()`: Dashboard, the role's items, Profile; anyone who is
      neither admin nor staff, a signed-out visitor included, gets the
      student items. */
  function NavItems(user: Option<User>): (r: seq<NavItem>)
    ensures |r| >= 2 && r[0] == NavItem("Dashboard", "/dashboard") && r[|r| - 1] == NavItem("Profile", "/dashboard/profile")
  {
    if user.Some? && user.value.role == Admin then BaseItems + AdminItems + CommonItems
    else if user.Some? && user.value.role == Staff then BaseItems + StaffItems + CommonItems
    else BaseItems + StudentItems + CommonItems
  }

  /** Admin gets 8 entries, staff 7, everyone else 5, and the middle entries
      are exactly the role's list. */
  lemma NavItemsByRole(user: Option<User>)
    ensures user.Some? && user.value.role == Admin ==> |NavItems(user)| == 8 && NavItems(user)[1..7] == AdminItems
    ensures user.Some? && user.value.role == Staff ==> |NavItems(user)| == 7 && NavItems(user)[1..6] == StaffItems
    ensures !(user.Some? && user.value.role in {Admin, Staff}) ==> |NavItems(user)| == 5 && NavItems(user)[1..4] == StudentItems
  {
  }

  /** An entry is highlighted exactly when the current path is its link. */
  predicate Active(item: NavItem, pathname: string) {
    pathname == item.href
  }

  /** No two entries of a menu share a link, so at most one entry is
      highlighted for any path. */
  lemma {:induction false} AtMostOneActive(user: Option<User>, pathname: string, i: int, j: int)
    requires 0 <= i < |NavItems(user)| && 0 <= j < |NavItems(user)|
    requires Active(NavItems(user)[i], pathname) && Active(NavItems(user)[j], pathname)
    ensures i == j
  {
    var r := NavItems(user);
    assert forall a, b :: 0 <= a < b < |r| ==> r[a].href != r[b].href by {
      if user.Some? && user.value.role == Admin {
        assert r == BaseItems + AdminItems + CommonItems;
      } else if user.Some? && user.value.role == Staff {
        assert r == BaseItems + StaffItems + CommonItems;
      } else {
        assert r == BaseItems + StudentItems + CommonItems;
      }
    }
  }
}
