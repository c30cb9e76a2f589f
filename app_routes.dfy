/** The route table of the application: which screen each path shows, which
    role names each protected path lists, the guard on the public-only login
    page, the redirect of the root path and the not-found fallback. Path
    matching is by exact string comparison. */
module AppRoutes {
  import opened Types
  import opened Sequences

  /** The role lists the table hands to the protected routes. */
  const AllRoles: seq<string> := ["admin", "manager", "employee", "delivery"]
  const AdminManager: seq<string> := ["admin", "manager"]
  const AdminOnly: seq<string> := ["admin"]
  const AdminManagerDelivery: seq<string> := ["admin", "manager", "delivery"]
  const AdminManagerEmployee: seq<string> := ["admin", "manager", "employee"]

  datatype Screen =
    | LoginPage | CallbackPage | ChangePasswordPage
    | DashboardPage | CustomersPage | EmployeesPage | OrdersPage | ProductsPage
    | ProductCategoriesPage | DeliveryPage | ReportsPage | SettingsPage
    | NotFoundPage

  /** What a path renders: a screen behind the public-only guard, a screen
      with no guard, a screen behind the role guard with the roles it lists,
      a redirect, or the not-found screen. */
  datatype RouteElement =
    | PublicOnly(screen: Screen)
    | Unguarded(screen: Screen)
    | Protected(allowedRoles: seq<string>, screen: Screen)
    | Redirect(target: string)
    | NotFound

  const ProtectedPaths: seq<string> := [
    "/dashboard", "/customers", "/employees", "/orders", "/products",
    "/products/categories", "/delivery", "/reports", "/settings"]

  const OtherPaths: seq<string> := ["/login", "/callback", "/change-password", "/"]

  /** The route table. */
  function Route(path: string): (e: RouteElement)
    ensures e.Protected? <==> path in ProtectedPaths
    ensures e.NotFound? <==> path !in ProtectedPaths && path !in OtherPaths
  {
    if path == "/login" then PublicOnly(LoginPage)
    else if path == "/callback" then Unguarded(CallbackPage)
    else if path == "/change-password" then Unguarded(ChangePasswordPage)
    else if path == "/dashboard" then Protected(AllRoles, DashboardPage)
    else if path == "/customers" then Protected(AdminManagerEmployee, CustomersPage)
    else if path == "/employees" then Protected(AdminManager, EmployeesPage)
    else if path == "/orders" then Protected(AllRoles, OrdersPage)
    else if path == "/products" then Protected(AdminManager, ProductsPage)
    else if path == "/products/categories" then Protected(AdminManager, ProductCategoriesPage)
    else if path == "/delivery" then Protected(AdminManagerDelivery, DeliveryPage)
    else if path == "/reports" then Protected(AdminManager, ReportsPage)
    else if path == "/settings" then Protected(AdminOnly, SettingsPage)
    else if path == "/" then Redirect("/dashboard")
    else NotFound
  }

  /** The table entry of `path` lists `role`. */
  predicate Admits(path: string, role: Role) {
    Route(path).Protected? && role.Name() in Route(path).allowedRoles
  }

  /** The roles have distinct names. */
  lemma RoleNamesDistinct(r: Role, s: Role)
    ensures r.Name() == s.Name() <==> r == s
  {
  }

  /** `ALL_ROLES` lists each role once and nothing else, and every other
      role list is part of it. */
  lemma AllRolesComplete()
    ensures NoDuplicates(AllRoles)
    ensures forall r: Role :: r.Name() in AllRoles
    ensures forall i :: 0 <= i < |AllRoles| ==> exists r: Role :: r.Name() == AllRoles[i]
    ensures forall s :: s in AdminManager ==> s in AllRoles
    ensures forall s :: s in AdminOnly ==> s in AllRoles
    ensures forall s :: s in AdminManagerDelivery ==> s in AllRoles
    ensures forall s :: s in AdminManagerEmployee ==> s in AllRoles
  {
    assert AllRoles[0] == Admin.Name() && AllRoles[1] == Manager.Name();
    assert AllRoles[2] == Employee.Name() && AllRoles[3] == Delivery.Name();
  }

  /** Only an administrator is admitted to the settings. */
  lemma SettingsAdminOnly(r: Role)
    ensures Admits("/settings", r) <==> r == Admin
  {
  }

  /** Every role is admitted to the dashboard and the orders. */
  lemma DashboardAndOrdersForAll(r: Role)
    ensures Admits("/dashboard", r) && Admits("/orders", r)
  {
  }

  /** A delivery person is admitted to the dashboard, the orders and the
      delivery screen, and to no other protected path. */
  lemma DeliveryPaths(path: string)
    ensures Admits(path, Delivery) <==> path in ["/dashboard", "/orders", "/delivery"]
  {
  }

  /** An employee is admitted to the dashboard, the customers and the
      orders, and to no other protected path. */
  lemma EmployeePaths(path: string)
    ensures Admits(path, Employee) <==> path in ["/dashboard", "/customers", "/orders"]
  {
  }

  /** A manager is admitted to every protected path but the settings. */
  lemma ManagerPaths(path: string)
    ensures Admits(path, Manager) <==> path in ProtectedPaths && path != "/settings"
  {
  }

  /** An administrator is admitted to every protected path. */
  lemma AdminEverywhere(path: string)
    ensures Admits(path, Admin) <==> path in ProtectedPaths
  {
  }

  /** The root path redirects to the dashboard; a path outside the table
      shows the not-found screen. */
  lemma RootAndFallback(path: string)
    ensures Route("/") == Redirect("/dashboard")
    ensures path !in ProtectedPaths && path !in OtherPaths ==> Route(path) == NotFound
  {
  }

  /** What the public-only guard renders. */
  datatype Guarded = ShowLoading | NavigateTo(target: string) | RenderChildren

  /** `PublicRoute`: nothing is decided while the session resolves; a
      signed-in visitor is sent to the dashboard; anyone else sees the page. */
  function PublicRoute(isLoading: bool, isAuthenticated: bool): (g: Guarded)
    ensures g == ShowLoading <==> isLoading
    ensures g == NavigateTo("/dashboard") <==> !isLoading && isAuthenticated
    ensures g == RenderChildren <==> !isLoading && !isAuthenticated
  {
    if isLoading then ShowLoading
    else if isAuthenticated then NavigateTo("/dashboard")
    else RenderChildren
  }

  /** The login page is the only public-only route, and a signed-in visitor
      who opens it lands on the dashboard once the session has resolved. */
  lemma LoginSendsSignedInToDashboard(path: string, isLoading: bool)
    ensures Route(path).PublicOnly? <==> path == "/login"
    ensures Route("/login").screen == LoginPage
    ensures PublicRoute(isLoading, true) == if isLoading then ShowLoading else NavigateTo("/dashboard")
  {
  }
}
