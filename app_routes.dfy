/** The route table of the React client (frontend/src/App.jsx): which page each path shows
    and which guard wraps it, and what the client then shows at a path. */
module AppRoutes {
  import opened Common
  import opened Router
  import Jwt
  import ProtectedRoute
  import AdminRoute

  datatype Page =
    | HomePage | LoginPage | SignupPage | KycPage | CreateAccountPage
    | DashboardPage | TransactionPage | AdminLoginPage | AdminDashboardPage

  /** The element wrapped around a page: none, `ProtectedRoute` or `AdminRoute`. */
  datatype Wrapper = Unguarded | Protected | AdminOnly

  datatype Route = Route(wrapper: Wrapper, page: Page)

  /** The `<Route>` elements, in order: the route whose path is `path`, if any. */
  function Match(path: string): (r: Option<Route>)
  {
    if path == "/" then Some(Route(Unguarded, HomePage))
    else if path == "/login" then Some(Route(Unguarded, LoginPage))
    else if path == "/signup" then Some(Route(Unguarded, SignupPage))
    else if path == "/kyc" then Some(Route(Unguarded, KycPage))
    else if path == "/create-account" then Some(Route(Protected, CreateAccountPage))
    else if path == "/dashboard" then Some(Route(Protected, DashboardPage))
    else if path == "/transaction" then Some(Route(Protected, TransactionPage))
    else if path == "/admin/login" then Some(Route(Unguarded, AdminLoginPage))
    else if path == "/admin" then Some(Route(AdminOnly, AdminDashboardPage))
    else None
  }

  /** What the client shows at a path. */
  datatype Screen = NoMatch | Waiting | Redirect(to: string) | Show(page: Page)

  /** The screen at `path`, given the status the `ProtectedRoute` there has reached and the
      token `AdminRoute` reads. */
  function ScreenAt(path: string, status: ProtectedRoute.Status, token: Option<string>,
                    parse: string -> Option<Jwt.Json>): (s: Screen)
  {
    match Match(path)
    case None => NoMatch
    case Some(route) =>
      var e := match route.wrapper
        case Unguarded => Children
        case Protected => ProtectedRoute.Render(status, path)
        case AdminOnly => AdminRoute.Decide(token, parse);
      match e
      case Placeholder => Waiting
      case Navigate(to) => Redirect(to)
      case Children => Show(route.page)
  }

  /** The wrapper of every path of the table, and no path outside it has a route. */
  lemma WrapperOfPath(path: string)
    ensures Match(path).Some? && Match(path).value.wrapper == Protected <==>
      path in {"/create-account", "/dashboard", "/transaction"}
    ensures Match(path).Some? && Match(path).value.wrapper == AdminOnly <==> path == "/admin"
    ensures Match(path).Some? && Match(path).value.wrapper == Unguarded <==>
      path in {"/", "/login", "/signup", "/kyc", "/admin/login"}
  {
  }

  /** Status "kyc" on a guarded path redirects to /kyc, which is unguarded and so shows the
      KYC page whatever the status: the redirect cannot loop. */
  lemma KycRedirectLands(path: string, status: ProtectedRoute.Status, token: Option<string>,
                         parse: string -> Option<Jwt.Json>)
    requires Match(path).Some? && Match(path).value.wrapper == Protected
    ensures ScreenAt(path, ProtectedRoute.NeedsKyc, token, parse) == Redirect("/kyc")
    ensures ScreenAt("/kyc", status, token, parse) == Show(KycPage)
  {
  }

  /** Status "account" shows the create-account page at /create-account and redirects there
      from the other guarded paths. */
  lemma AccountRedirectLands(path: string, token: Option<string>, parse: string -> Option<Jwt.Json>)
    requires Match(path).Some? && Match(path).value.wrapper == Protected
    ensures ScreenAt("/create-account", ProtectedRoute.NeedsAccount, token, parse) == Show(CreateAccountPage)
    ensures path != "/create-account" ==>
      ScreenAt(path, ProtectedRoute.NeedsAccount, token, parse) == Redirect("/create-account")
  {
  }

  /** Every redirect leads to another path of the table. */
  lemma RedirectsStayInTable(path: string, status: ProtectedRoute.Status, token: Option<string>,
                             parse: string -> Option<Jwt.Json>)
    requires ScreenAt(path, status, token, parse).Redirect?
    ensures ScreenAt(path, status, token, parse).to != path
    ensures Match(ScreenAt(path, status, token, parse).to).Some?
  {
  }
}
