/**
 * The sidebar's navigation: the fixed list of sections, the role filter that
 * decides which of them a user sees, and the rule that marks one active.
 */
module Sidebar {
  import opened Types
  import opened Seqs
  import opened Text

  /** A section link; `roles` absent means every visitor sees it. */
  datatype NavItem = NavItem(title: string, href: string, roles: Option<seq<Role>>)

  const Staff: seq<Role> := [Admin, Manager]

  const DashboardItem := NavItem("Dashboard", "/dashboard", None)
  const ClientsItem := NavItem("Clients", "/clients", Some(Staff))
  const InvoicesItem := NavItem("Invoices", "/invoices", Some(Staff))
  const EmployeesItem := NavItem("Employees", "/employees", Some(Staff))
  const PayrollItem := NavItem("Payroll", "/payroll", Some(Staff))
  const AttendanceItem := NavItem("Attendance", "/attendance", None)
  const LeavesItem := NavItem("Leave Requests", "/leaves", None)
  const ReportsItem := NavItem("Reports", "/reports", Some(Staff))

  /** `navigationItems`, in display order. */
  const NavigationItems: seq<NavItem> := [
    DashboardItem, ClientsItem, InvoicesItem, EmployeesItem,
    PayrollItem, AttendanceItem, LeavesItem, ReportsItem]

  /** `!item.roles || (user && item.roles.includes(user.role))`. */
  predicate Visible(item: NavItem, user: Option<User>)
  {
    item.roles.None? || (user.Some? && user.value.role in item.roles.value)
  }

  function ShownTo(user: Option<User>): NavItem -> bool
  {
    (item: NavItem) => Visible(item, user)
  }

  /** `filteredItems`: the sections this visitor may see, in the list's order. */
  function FilteredItems(user: Option<User>): (items: seq<NavItem>)
    ensures IsFilterOf(items, NavigationItems, ShownTo(user))
  {
    FilterSpec(NavigationItems, ShownTo(user));
    Filter(NavigationItems, ShownTo(user))
  }

  /**
   * The sections shown keep the list's order; an unrestricted section is
   * shown to everyone, and a restricted one exactly when there is a user
   * whose role its list names.
   */
  lemma FilteredItemsSpec(user: Option<User>)
    ensures IsSubsequence(FilteredItems(user), NavigationItems)
    ensures forall item | item in NavigationItems && item.roles.None? :: item in FilteredItems(user)
    ensures forall item | item in NavigationItems && item.roles.Some? ::
      item in FilteredItems(user) <==> user.Some? && user.value.role in item.roles.value
  {
    FilterSpec(NavigationItems, ShownTo(user));
  }

  /** The sections nobody is denied. */
  const OpenItems: seq<NavItem> := [DashboardItem, AttendanceItem, LeavesItem]

  /** Signed out, and signed in as an employee, the sidebar shows exactly Dashboard, Attendance and Leave Requests. */
  lemma EmployeeSeesOpenItems(user: Option<User>)
    requires user.None? || user.value.role == Employee
    ensures FilteredItems(user) == OpenItems
  {
    var p := ShownTo(user);
    var restricted := [ClientsItem, InvoicesItem, EmployeesItem, PayrollItem];
    assert NavigationItems == [DashboardItem] + restricted + [AttendanceItem, LeavesItem] + [ReportsItem];
    FilterAppend([DashboardItem] + restricted + [AttendanceItem, LeavesItem], [ReportsItem], p);
    FilterAppend([DashboardItem] + restricted, [AttendanceItem, LeavesItem], p);
    FilterAppend([DashboardItem], restricted, p);
    FilterKeepsNone(restricted, p);
    FilterKeepsNone([ReportsItem], p);
    FilterKeepsAll([DashboardItem], p);
    FilterKeepsAll([AttendanceItem, LeavesItem], p);
  }

  /** Admins and managers see all eight sections, in order. */
  lemma StaffSeeEverything(user: User)
    requires user.role == Admin || user.role == Manager
    ensures FilteredItems(Some(user)) == NavigationItems
  {
    forall i | 0 <= i < |NavigationItems| ensures ShownTo(Some(user))(NavigationItems[i]) {
    }
    FilterKeepsAll(NavigationItems, ShownTo(Some(user)));
  }

  /**
   * `pathname === item.href || pathname.startsWith(item.href + '/')`: an
   * active link's href is a prefix of the path, and a path no longer than
   * the href is active only when it is the href.
   */
  predicate IsActive(pathname: string, href: string): (active: bool)
    ensures active ==> StartsWith(pathname, href)
    ensures |pathname| <= |href| ==> (active <==> pathname == href)
  {
    pathname == href || StartsWith(pathname, href + "/")
  }

  /**
   * A link is active on its own page and on the pages below it, and nowhere
   * else: the path must be the href itself, or the href followed by a slash.
   */
  lemma IsActiveSpec(pathname: string, href: string)
    ensures IsActive(pathname, href) <==>
      pathname == href || (|pathname| > |href| && pathname[..|href|] == href && pathname[|href|] == '/')
  {
    if |pathname| > |href| && pathname[..|href|] == href && pathname[|href|] == '/' {
      assert pathname[..|href| + 1] == pathname[..|href|] + [pathname[|href|]];
    }
    if StartsWith(pathname, href + "/") {
      assert pathname[..|href|] == (href + "/")[..|href|];
      assert pathname[|href|] == (href + "/")[|href|];
    }
  }

  /** A path that only begins with a section's href is not that section: "/clientsX" is not "/clients". */
  lemma SiblingPathIsNotActive()
    ensures !IsActive("/clientsX", "/clients")
    ensures IsActive("/clients/42", "/clients")
    ensures IsActive("/clients", "/clients")
  {
    IsActiveSpec("/clientsX", "/clients");
    IsActiveSpec("/clients/42", "/clients");
    assert "/clientsX"[8] == 'X';
    assert "/clients/42"[..8] == "/clients";
  }
}
