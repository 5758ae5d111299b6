/** The route table of src/App.tsx as an explicit map from route pattern to the
    chain of route guards wrapped around its page, and what a visitor gets
    when opening each route. */
module AppRoutes {
  import opened Domain
  import opened ProtectedRoute
  import Sidebar
  import EcoEditor

  datatype Page =
    | LoginPage | DashboardPage | ProductListPage | ProductDetailPage | ProductEditorPage
    | BomListPage | BomEditorPage | SupplierListPage | SupplierEditorPage | EcoListPage
    | EcoEditorPage | QualityDashboardPage | NcrEditorPage | AuditLogPage | AnalyticsPage

  /** A route: its pattern, the `allowedRoles` of each enclosing guard from the
      outside in (`None` for a guard without roles), and its page. */
  datatype Route = Route(pattern: string, guards: seq<Option<seq<Role>>>, page: Page)

  function EditorRoles(): seq<Role> { [Engineer, Admin] }
  function SupplierRoles(): seq<Role> { [Manager, Admin] }
  function ReportRoles(): seq<Role> { [Dgm, Admin, Manager] }

  /** Behind the sign-in guard only. */
  function Signed(pattern: string, page: Page): Route
  {
    Route(pattern, [None], page)
  }

  /** Behind the sign-in guard and a role guard. */
  function Restricted(pattern: string, roles: seq<Role>, page: Page): Route
  {
    Route(pattern, [None, Some(roles)], page)
  }

  /** The route table: the login page first and outside every guard, each
      other route behind the sign-in guard. */
  function Routes(): (r: seq<Route>)
    ensures |r| == 20
    ensures r[0] == Route("/login", [], LoginPage)
    ensures forall i :: 1 <= i < |r| ==> |r[i].guards| > 0 && r[i].guards[0] == None
  {
    [ Route("/login", [], LoginPage),
      Signed("/", DashboardPage),
      Signed("/products", ProductListPage),
      Signed("/products/:id", ProductDetailPage),
      Signed("/boms", BomListPage),
      Signed("/suppliers", SupplierListPage),
      Signed("/ecos", EcoListPage),
      Signed("/ecos/:id", EcoEditorPage),
      Signed("/quality", QualityDashboardPage),
      Signed("/quality/ncr/new", NcrEditorPage),
      Signed("/quality/ncr/:id", NcrEditorPage),
      Restricted("/products/new", EditorRoles(), ProductEditorPage),
      Restricted("/products/:id/edit", EditorRoles(), ProductEditorPage),
      Restricted("/boms/new", EditorRoles(), BomEditorPage),
      Restricted("/boms/:id/edit", EditorRoles(), BomEditorPage),
      Restricted("/ecos/new", EditorRoles(), EcoEditorPage),
      Restricted("/suppliers/new", SupplierRoles(), SupplierEditorPage),
      Restricted("/suppliers/:id/edit", SupplierRoles(), SupplierEditorPage),
      Restricted("/audit-logs", ReportRoles(), AuditLogPage),
      Restricted("/analytics", ReportRoles(), AnalyticsPage) ]
  }

  /** What the visitor gets. */
  datatype Screen = Shown(page: Page) | SentToLogin | Denied

  /** Each guard in turn either renders its nested route or stops. */
  function Open(guards: seq<Option<seq<Role>>>, page: Page, isAuthenticated: bool, user: Option<User>): (r: Screen)
    ensures |guards| == 0 ==> r == Shown(page)
    ensures r.Shown? ==> r.page == page
    ensures |guards| > 0 && !isAuthenticated ==> r == SentToLogin
    decreases |guards|
  {
    if |guards| == 0 then Shown(page)
    else
      match Guard(isAuthenticated, user, guards[0])
      case RedirectToLogin => SentToLogin
      case AccessDenied => Denied
      case RenderChild => Open(guards[1..], page, isAuthenticated, user)
  }

  function Visit(route: Route, isAuthenticated: bool, user: Option<User>): (r: Screen)
    ensures route.guards == [] ==> r == Shown(route.page)
    ensures route.guards != [] && !isAuthenticated ==> r == SentToLogin
    ensures r.Shown? ==> r.page == route.page
  {
    Open(route.guards, route.page, isAuthenticated, user)
  }

  /** Route patterns, for stating facts over the table. */
  ghost predicate IsViewPattern(pattern: string)
  {
    pattern in ["/", "/products", "/products/:id", "/boms", "/suppliers", "/ecos", "/ecos/:id",
                "/quality", "/quality/ncr/new", "/quality/ncr/:id"]
  }

  /** Only the login page is outside the sign-in guard; every other route has
      it outermost. */
  lemma LoginOnlyUnguarded(i: nat)
    requires i < |Routes()|
    ensures Routes()[i].guards == [] <==> Routes()[i].pattern == "/login"
    ensures Routes()[i].pattern != "/login" ==> Routes()[i].guards[0] == None
  {
  }

  /** A signed-out visitor reaches only the login page. */
  lemma SignedOutSeesOnlyLogin(i: nat, user: Option<User>)
    requires i < |Routes()|
    ensures Visit(Routes()[i], false, user) == if Routes()[i].pattern == "/login" then Shown(LoginPage) else SentToLogin
  {
    LoginOnlyUnguarded(i);
  }

  /** The view routes ask for a signed-in visitor and nothing more. */
  lemma ViewRoutesNeedSignInOnly(i: nat, u: User)
    requires i < |Routes()| && IsViewPattern(Routes()[i].pattern)
    ensures Routes()[i].guards == [None]
    ensures Visit(Routes()[i], true, Some(u)) == Shown(Routes()[i].page)
  {
  }

  /** Opening a route with one role guard, signed in: the page exactly when the
      role is listed, Access Denied otherwise. */
  lemma RestrictedVisit(pattern: string, roles: seq<Role>, page: Page, u: User)
    ensures Visit(Restricted(pattern, roles, page), true, Some(u))
         == if u.role in roles then Shown(page) else Denied
  {
    var guards := Restricted(pattern, roles, page).guards;
    assert Guard(true, Some(u), guards[0]) == RenderChild;
    assert guards[1..] == [Some(roles)];
    assert guards[1..][1..] == [];
    assert Open(guards, page, true, Some(u)) == Open(guards[1..], page, true, Some(u));
  }

  ghost predicate IsEditorPattern(pattern: string)
  {
    pattern in ["/products/new", "/products/:id/edit", "/boms/new", "/boms/:id/edit", "/ecos/new"]
  }

  ghost predicate IsSupplierEditorPattern(pattern: string)
  {
    pattern in ["/suppliers/new", "/suppliers/:id/edit"]
  }

  ghost predicate IsReportPattern(pattern: string)
  {
    pattern in ["/audit-logs", "/analytics"]
  }

  /** The role guard of each restricted route. */
  lemma RestrictedRoles(i: nat)
    requires i < |Routes()|
    ensures IsEditorPattern(Routes()[i].pattern)
            ==> Routes()[i] == Restricted(Routes()[i].pattern, EditorRoles(), Routes()[i].page)
    ensures IsSupplierEditorPattern(Routes()[i].pattern)
            ==> Routes()[i] == Restricted(Routes()[i].pattern, SupplierRoles(), Routes()[i].page)
    ensures IsReportPattern(Routes()[i].pattern)
            ==> Routes()[i] == Restricted(Routes()[i].pattern, ReportRoles(), Routes()[i].page)
  {
  }

  /** Signed in, the product and BOM editors and the new-ECO page open for
      engineers and admins, the supplier editors for managers and admins, the
      reports for DGMs, admins and managers; anyone else gets Access Denied. */
  lemma WhoOpensWhat(i: nat, u: User)
    requires i < |Routes()|
    ensures IsEditorPattern(Routes()[i].pattern) ==>
              Visit(Routes()[i], true, Some(u)) == if u.role in {Engineer, Admin} then Shown(Routes()[i].page) else Denied
    ensures IsSupplierEditorPattern(Routes()[i].pattern) ==>
              Visit(Routes()[i], true, Some(u)) == if u.role in {Manager, Admin} then Shown(Routes()[i].page) else Denied
    ensures IsReportPattern(Routes()[i].pattern) ==>
              Visit(Routes()[i], true, Some(u)) == if u.role != Engineer then Shown(Routes()[i].page) else Denied
  {
    var r := Routes()[i];
    RestrictedRoles(i);
    if IsEditorPattern(r.pattern) {
      RestrictedVisit(r.pattern, EditorRoles(), r.page, u);
    } else if IsSupplierEditorPattern(r.pattern) {
      RestrictedVisit(r.pattern, SupplierRoles(), r.page, u);
    } else if IsReportPattern(r.pattern) {
      RestrictedVisit(r.pattern, ReportRoles(), r.page, u);
    }
  }

  /** The sidebar shows the Audit Logs and Analytics links to exactly the roles
      that the route table lets through to the pages they link to. */
  lemma SidebarMatchesReportRoutes(i: nat, k: nat, u: User)
    requires i < |Routes()| && 4 <= k < |Sidebar.NavItems()|
    requires Routes()[i].pattern == Sidebar.NavItems()[k].path
    ensures IsReportPattern(Routes()[i].pattern)
    ensures Sidebar.Shown(Sidebar.NavItems()[k], Some(u.role)) <==> Visit(Routes()[i], true, Some(u)).Shown?
  {
    WhoOpensWhat(i, u);
  }

  /** Whoever can open the new-ECO route also gets its Save button: the route's
      roles are exactly those that may edit a draft ECO. */
  lemma NewEcoRouteMatchesSave(i: nat, u: User)
    requires i < |Routes()| && Routes()[i].pattern == "/ecos/new"
    ensures Visit(Routes()[i], true, Some(u)).Shown?
            <==> EcoEditor.SaveShown(Some(u.role), EcoEditor.DefaultForm().status)
  {
    WhoOpensWhat(i, u);
    EcoEditor.NewEcoSavers(Some(u.role));
  }
}
