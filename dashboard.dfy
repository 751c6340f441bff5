/**
 * The dashboard layout's decisions: where to send the visitor once the
 * session is known, which navigation list to show, and the page title.
 */
module DashboardLayout {
  import opened Maybe
  import opened Auth

  /** What the redirect effect does: nothing, or `navigate(path, {replace: true})`. */
  datatype Navigation = Stay | NavigateTo(path: string)

  /** `role` is truthy: present and not the empty string. */
  predicate HasRole(role: Option<string>)
  {
    role.Some? && role.value != ""
  }

  /** `isAdmin`: exactly the role `"admin"`; every other role is a user. */
  predicate IsAdmin(role: Option<string>)
  {
    role == Some("admin")
  }

  /** The redirect effect of the layout. */
  function Redirect(s: Session, pathname: string): (n: Navigation)
    ensures s.loading ==> n == Stay
    ensures !s.loading && s.user.None? ==> n == NavigateTo("/login")
    ensures !s.loading && s.user.Some? && !HasRole(s.role) ==> n == Stay
    ensures s.user.Some? && pathname != "/dashboard" ==> n == Stay
    ensures n == NavigateTo("/dashboard/adminhome") <==>
              !s.loading && s.user.Some? && IsAdmin(s.role) && pathname == "/dashboard"
    ensures n == NavigateTo("/dashboard/userhome") <==>
              !s.loading && s.user.Some? && HasRole(s.role) && !IsAdmin(s.role) && pathname == "/dashboard"
  {
    if s.loading then Stay
    else if s.user.None? then NavigateTo("/login")
    else if !HasRole(s.role) then Stay
    else if pathname == "/dashboard" then
      NavigateTo(if IsAdmin(s.role) then "/dashboard/adminhome" else "/dashboard/userhome")
    else Stay
  }

  /**
   * Once a consistent session has settled with a user, the effect never
   * waits for a role: on `/dashboard` it always sends the visitor to a home page.
   */
  lemma SettledSessionReachesHome(s: Session)
    requires s.Consistent() && !s.loading && s.user.Some?
    ensures Redirect(s, "/dashboard") != Stay
  {
  }

  /**
   * The admin home is only chosen for a session whose role some backend
   * lookup returned as `'admin'`.
   */
  lemma AdminHomeNeedsBackendAdmin(events: seq<Event>)
    requires Redirect(Run(events), "/dashboard") == NavigateTo("/dashboard/adminhome")
    ensures exists i :: 0 <= i < |events| && BackendGrantedAdmin(events[i])
  {
    AdminRoleComesFromBackend(events);
  }

  /** One entry of the side bar; icons and badges are display-only. */
  datatype NavItem = NavItem(name: string, path: string)

  const AdminNavItems: seq<NavItem> := [
    NavItem("Home", "/dashboard/adminhome"),
    NavItem("Bus Management", "/dashboard/busmanagement"),
    NavItem("Transport Schedule", "/dashboard/schedule"),
    NavItem("Live Tracking", "/dashboard/transportLocation"),
    NavItem("Users", "/dashboard/users"),
    NavItem("Bus Applications", "/dashboard/applications"),
    NavItem("Add Notice", "/dashboard/notices")
  ]

  const UserNavItems: seq<NavItem> := [
    NavItem("Home", "/dashboard/userhome"),
    NavItem("Live Tracking", "/dashboard/transportLocation"),
    NavItem("Bus Routes", "/dashboard/transportSchedule"),
    NavItem("Notices", "/dashboard/notice"),
    NavItem("Apply For Bus", "/dashboard/applybus"),
    NavItem("My Applications", "/dashboard/myAppliedBus")
  ]

  /** `navItems`: the admin list for the role `"admin"`, the user list for any other role or none. */
  function NavItems(role: Option<string>): (items: seq<NavItem>)
    ensures IsAdmin(role) ==> items == AdminNavItems
    ensures !IsAdmin(role) ==> items == UserNavItems
  {
    if IsAdmin(role) then AdminNavItems else UserNavItems
  }

  /** `items.find(item => item.path === pathname)`. */
  function FindByPath(items: seq<NavItem>, pathname: string): (r: Option<NavItem>)
    ensures r.None? <==> forall i :: 0 <= i < |items| ==> items[i].path != pathname
    ensures r.Some? ==> exists i :: 0 <= i < |items| && items[i] == r.value && r.value.path == pathname
                                   && forall j :: 0 <= j < i ==> items[j].path != pathname
    decreases |items|
  {
    if items == [] then None
    else if items[0].path == pathname then Some(items[0])
    else
      var r := FindByPath(items[1..], pathname);
      assert r.Some? ==> exists i :: 0 <= i < |items| && items[i] == r.value
                                    && forall j :: 0 <= j < i ==> items[j].path != pathname by {
        if r.Some? {
          var k :| 0 <= k < |items| - 1 && items[1..][k] == r.value
                   && forall j :: 0 <= j < k ==> items[1..][j].path != pathname;
          assert items[k + 1] == r.value;
          assert forall j :: 0 <= j < k + 1 ==> items[j].path != pathname by {
            forall j | 0 < j < k + 1 ensures items[j].path != pathname { assert items[j] == items[1..][j - 1]; }
          }
        }
      }
      r
  }

  /** `pageTitle`: the name of the first item for this path, or `"Dashboard"`. */
  function PageTitle(items: seq<NavItem>, pathname: string): (title: string)
    ensures (forall i :: 0 <= i < |items| ==> items[i].path != pathname) ==> title == "Dashboard"
    ensures (exists i :: 0 <= i < |items| && items[i].path == pathname) ==>
              exists i :: 0 <= i < |items| && items[i].path == pathname && title == items[i].name
                          && forall j :: 0 <= j < i ==> items[j].path != pathname
  {
    match FindByPath(items, pathname)
    case Some(item) => item.name
    case None => "Dashboard"
  }

  /** The title is the name of the first item whose path is the pathname. */
  lemma PageTitleOfFirstMatch(items: seq<NavItem>, pathname: string, k: int)
    requires 0 <= k < |items| && items[k].path == pathname
    requires forall j :: 0 <= j < k ==> items[j].path != pathname
    ensures PageTitle(items, pathname) == items[k].name
  {
  }

  /** An admin on the users page sees the title "Users". */
  lemma AdminUsersPageTitle()
    ensures PageTitle(NavItems(Some("admin")), "/dashboard/users") == "Users"
  {
    var items := AdminNavItems;
    assert items[4] == NavItem("Users", "/dashboard/users");
    assert |items[0].path| == 20 && |items[1].path| == 24 && |items[2].path| == 19 && |items[3].path| == 28;
    PageTitleOfFirstMatch(items, "/dashboard/users", 4);
  }

  /** The user list has no users page, so a user there sees the fallback title. */
  lemma UserUsersPageTitle()
    ensures PageTitle(NavItems(Some("user")), "/dashboard/users") == "Dashboard"
  {
    var items := UserNavItems;
    assert |items[0].path| == 19 && |items[1].path| == 28 && |items[2].path| == 28;
    assert |items[3].path| == 17 && |items[4].path| == 19 && |items[5].path| == 23;
  }
}
