/** The router: nothing while the session is loading, the sign-in page or a redirect
    home at `/auth`, a guarded page for each application path, and "not found"
    otherwise. */
module AppRoutes {
  import opened Wrappers
  import Layout

  datatype Page =
    | DashboardPage | EmployeesPage | PerformancePage | KpiPage | AccountsPage
    | TutorialsPage | SopsPage | ToolsPage | ProductsPage | ProfilePage | DailyReportPage

  /** A guarded route: its path, whether the guard demands a manager, and its page. */
  datatype RouteEntry = RouteEntry(path: string, requireManager: bool, page: Page)

  /** The guarded routes, in declaration order. */
  const Routes: seq<RouteEntry> := [
    RouteEntry("/", false, DashboardPage),
    RouteEntry("/employees", true, EmployeesPage),
    RouteEntry("/performance", false, PerformancePage),
    RouteEntry("/kpi", false, KpiPage),
    RouteEntry("/accounts", true, AccountsPage),
    RouteEntry("/tutorials", false, TutorialsPage),
    RouteEntry("/sops", false, SopsPage),
    RouteEntry("/tools", false, ToolsPage),
    RouteEntry("/products", false, ProductsPage),
    RouteEntry("/profile", false, ProfilePage),
    RouteEntry("/daily-report", false, DailyReportPage)]

  const AuthPath := "/auth"

  /** What the router renders. `Guarded` is the page inside the route guard, with the
      guard's manager requirement; the guard's own decision is not modelled. */
  datatype Screen = Nothing | RedirectHome | SignIn | Guarded(requireManager: bool, page: Page) | NotFound

  function FindRoute(routes: seq<RouteEntry>, path: string): (r: Option<RouteEntry>)
    ensures r.Some? ==> r.value in routes && r.value.path == path
    ensures r.None? ==> forall e :: e in routes ==> e.path != path
  {
    if |routes| == 0 then None
    else if routes[0].path == path then Some(routes[0])
    else FindRoute(routes[1..], path)
  }

  /** `AppRoutes` for the current session state and location. */
  function Resolve(hasUser: bool, loading: bool, path: string): (s: Screen)
    ensures loading ==> s == Nothing
    ensures !loading && path == AuthPath ==> s == (if hasUser then RedirectHome else SignIn)
    ensures s.Guarded? ==> exists e :: e in Routes && e.path == path && e.page == s.page && e.requireManager == s.requireManager
    ensures s == NotFound <==> !loading && path != AuthPath && forall e :: e in Routes ==> e.path != path
  {
    if loading then Nothing
    else if path == AuthPath then (if hasUser then RedirectHome else SignIn)
    else
      match FindRoute(Routes, path)
      case Some(e) => Guarded(e.requireManager, e.page)
      case None => NotFound
  }

  /** The route paths are distinct, so a path names at most one page, and none of them
      is the sign-in path. */
  lemma PathsDistinct()
    ensures forall i, j :: 0 <= i < j < |Routes| ==> Routes[i].path != Routes[j].path
    ensures forall i :: 0 <= i < |Routes| ==> Routes[i].path != AuthPath
  {
  }

  /** A path is found at the first entry that has it. */
  lemma {:induction false} FindRouteAt(routes: seq<RouteEntry>, i: nat)
    requires i < |routes|
    requires forall j :: 0 <= j < i ==> routes[j].path != routes[i].path
    ensures FindRoute(routes, routes[i].path) == Some(routes[i])
  {
    if i > 0 {
      FindRouteAt(routes[1..], i - 1);
    }
  }

  /** Each application path resolves to its own route once loading is over. */
  lemma ResolveRoute(hasUser: bool, i: nat)
    requires i < |Routes|
    ensures Resolve(hasUser, false, Routes[i].path) == Guarded(Routes[i].requireManager, Routes[i].page)
  {
    PathsDistinct();
    FindRouteAt(Routes, i);
  }

  /** A route that demands a manager is the employees or the accounts route. */
  lemma ManagerRouteIsEmployeesOrAccounts(hasUser: bool, path: string)
    requires Resolve(hasUser, false, path).Guarded? && Resolve(hasUser, false, path).requireManager
    ensures path == "/employees" || path == "/accounts"
  {
    var e :| e in Routes && e.path == path && e.requireManager;
    var i :| 0 <= i < |Routes| && Routes[i] == e;
    ManagerIndices(i);
  }

  /** Only the second and fifth routes demand a manager. */
  lemma ManagerIndices(i: nat)
    requires i < |Routes|
    ensures Routes[i].requireManager <==> i == 1 || i == 4
  {
  }

  /** Only the employees and accounts pages demand a manager. */
  lemma ManagerOnlyRoutes(hasUser: bool, path: string)
    ensures Resolve(hasUser, false, path).Guarded? && Resolve(hasUser, false, path).requireManager
      <==> path == "/employees" || path == "/accounts"
  {
    if path == "/employees" {
      ResolveRoute(hasUser, 1);
    } else if path == "/accounts" {
      ResolveRoute(hasUser, 4);
    } else if Resolve(hasUser, false, path).Guarded? && Resolve(hasUser, false, path).requireManager {
      ManagerRouteIsEmployeesOrAccounts(hasUser, path);
    }
  }

  /** Every navigation entry leads to a guarded page whose manager requirement is the
      entry's manager-only flag. */
  lemma NavigationMatchesRoutes(hasUser: bool)
    ensures forall x :: x in Layout.Navigation ==>
      Resolve(hasUser, false, x.href).Guarded? && Resolve(hasUser, false, x.href).requireManager == x.managerOnly
  {
    forall i | 0 <= i < |Layout.Navigation|
      ensures Resolve(hasUser, false, Layout.Navigation[i].href) == Guarded(Layout.Navigation[i].managerOnly, Routes[i].page)
    {
      assert Layout.Navigation[i].href == Routes[i].path && Layout.Navigation[i].managerOnly == Routes[i].requireManager;
      ResolveRoute(hasUser, i);
    }
  }

  /** The profile and daily-report pages are routed for every signed-in state. */
  lemma ProfileAndDailyReportRouted(hasUser: bool)
    ensures Resolve(hasUser, false, "/profile") == Guarded(false, ProfilePage)
    ensures Resolve(hasUser, false, "/daily-report") == Guarded(false, DailyReportPage)
  {
    ResolveRoute(hasUser, 9);
    assert Routes[9].path == "/profile";
    ResolveRoute(hasUser, 10);
    assert Routes[10].path == "/daily-report";
  }

  /** The navigation links to neither the profile nor the daily-report page. */
  lemma ProfileAndDailyReportUnlisted()
    ensures forall x :: x in Layout.Navigation ==> x.href != "/profile" && x.href != "/daily-report"
  {
    forall x | x in Layout.Navigation ensures x.href != "/profile" && x.href != "/daily-report" {
      assert |x.href| != 8 && |x.href| != 13;
    }
  }

  /** Where each page sits in the route table. */
  function PageIndex(p: Page): nat {
    match p
    case DashboardPage => 0
    case EmployeesPage => 1
    case PerformancePage => 2
    case KpiPage => 3
    case AccountsPage => 4
    case TutorialsPage => 5
    case SopsPage => 6
    case ToolsPage => 7
    case ProductsPage => 8
    case ProfilePage => 9
    case DailyReportPage => 10
  }

  /** Every page has exactly one route: its entry sits at `PageIndex`, and no two
      entries share a page. */
  lemma EveryPageHasOneRoute()
    ensures forall p: Page :: PageIndex(p) < |Routes| && Routes[PageIndex(p)].page == p
    ensures forall i, j :: 0 <= i < j < |Routes| ==> Routes[i].page != Routes[j].page
  {
    forall p: Page ensures PageIndex(p) < |Routes| && Routes[PageIndex(p)].page == p {
      match p
      case DashboardPage =>
      case EmployeesPage =>
      case PerformancePage =>
      case KpiPage =>
      case AccountsPage =>
      case TutorialsPage =>
      case SopsPage =>
      case ToolsPage =>
      case ProductsPage =>
      case ProfilePage =>
      case DailyReportPage =>
    }
  }

  /** Once loading is over, every routed page is rendered by its own path. `Page` lists
      exactly the guarded pages the router imports; the report review page is not
      among them, so no path renders it. */
  lemma EveryPageRendered(hasUser: bool, p: Page)
    ensures Resolve(hasUser, false, Routes[PageIndex(p)].path) == Guarded(Routes[PageIndex(p)].requireManager, p)
  {
    EveryPageHasOneRoute();
    ResolveRoute(hasUser, PageIndex(p));
  }
}
