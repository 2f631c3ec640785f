/** The route table of src/App.jsx with its two session guards, as a pure
    policy from (path, stored token) to a rendered page or a redirect. */
module Routes {
  import opened TodoData
  import opened Text
  import opened Session

  datatype Page = LoginPage | SignupPage | DashboardPage

  /** What a route element renders: a page, or `<Navigate to=... />`. */
  datatype Element = Render(page: Page) | Redirect(to: string)

  const LoginPath := "/login"
  const SignupPath := "/signup"
  const DashboardPath := "/dashboard"

  /** Only a logged-in user sees `child`; anyone else goes to the login page. */
  function ProtectedRoute(token: Option<string>, child: Page): (e: Element)
    ensures e.Redirect? <==> !Truthy(token)
    ensures e.Redirect? ==> e.to == LoginPath
    ensures e.Render? ==> e.page == child
  {
    if !Truthy(token) then Redirect(LoginPath) else Render(child)
  }

  /** Only a logged-out user sees `child`; anyone else goes to the dashboard. */
  function RedirectIfLoggedIn(token: Option<string>, child: Page): (e: Element)
    ensures e.Redirect? <==> Truthy(token)
    ensures e.Redirect? ==> e.to == DashboardPath
    ensures e.Render? ==> e.page == child
  {
    if Truthy(token) then Redirect(DashboardPath) else Render(child)
  }

  function TrimTrailingSlashes(path: string): (r: string)
    ensures |r| <= |path| && r == path[..|r|]
    ensures r == [] || r[|r| - 1] != '/'
    ensures forall i :: |r| <= i < |path| ==> path[i] == '/'
  {
    if path != [] && path[|path| - 1] == '/' then TrimTrailingSlashes(path[..|path| - 1]) else path
  }

  /** How the router matches a route pattern: case-insensitively, ignoring
      trailing slashes. */
  predicate Matches(path: string, pattern: string) {
    ToLower(TrimTrailingSlashes(path)) == pattern
  }

  /** The element the route table gives for `path`; `*` catches the rest. */
  function Route(path: string, token: Option<string>): (e: Element)
    ensures e.Redirect? ==> e.to == LoginPath || e.to == DashboardPath
  {
    if Matches(path, LoginPath) then RedirectIfLoggedIn(token, LoginPage)
    else if Matches(path, SignupPath) then RedirectIfLoggedIn(token, SignupPage)
    else if Matches(path, DashboardPath) then ProtectedRoute(token, DashboardPage)
    else Redirect(LoginPath)
  }

  /** The patterns are distinct, so at most one route matches a path. */
  lemma RoutesDisjoint(path: string)
    ensures !(Matches(path, LoginPath) && Matches(path, SignupPath))
    ensures !(Matches(path, LoginPath) && Matches(path, DashboardPath))
    ensures !(Matches(path, SignupPath) && Matches(path, DashboardPath))
  {
  }

  /** The route table, case by case. */
  lemma RouteTable(path: string, token: Option<string>)
    ensures Matches(path, LoginPath) || Matches(path, SignupPath) ==>
      Route(path, token) == (if Truthy(token) then Redirect(DashboardPath)
                             else Render(if Matches(path, LoginPath) then LoginPage else SignupPage))
    ensures Matches(path, DashboardPath) ==>
      Route(path, token) == (if Truthy(token) then Render(DashboardPage) else Redirect(LoginPath))
    ensures !Matches(path, LoginPath) && !Matches(path, SignupPath) && !Matches(path, DashboardPath) ==>
      Route(path, token) == Redirect(LoginPath)
  {
    RoutesDisjoint(path);
  }

  /** A path already in canonical form matches itself. */
  lemma CanonicalPathMatches(path: string)
    requires path != [] && path[|path| - 1] != '/'
    requires forall i :: 0 <= i < |path| ==> !IsUpper(path[i])
    ensures Matches(path, path)
  {
    ToLowerOfLower(path);
  }

  lemma LiteralPathsMatch()
    ensures Matches(LoginPath, LoginPath)
    ensures Matches(SignupPath, SignupPath)
    ensures Matches(DashboardPath, DashboardPath)
  {
    CanonicalPathMatches(LoginPath);
    CanonicalPathMatches(SignupPath);
    CanonicalPathMatches(DashboardPath);
  }

  /** Where the guards' redirect targets themselves route to. */
  lemma RouteTargets(token: Option<string>)
    ensures Route(LoginPath, token) == RedirectIfLoggedIn(token, LoginPage)
    ensures Route(DashboardPath, token) == ProtectedRoute(token, DashboardPage)
  {
    LiteralPathsMatch();
    RoutesDisjoint(DashboardPath);
  }

  /** Follows at most `fuel` redirects; None when more would be needed. */
  function Navigate(path: string, token: Option<string>, fuel: nat): Option<Page>
    decreases fuel
  {
    match Route(path, token)
    case Render(page) => Some(page)
    case Redirect(to) => if fuel == 0 then None else Navigate(to, token, fuel - 1)
  }

  /** The page a visitor of `path` ends up on. */
  function Landing(path: string, token: Option<string>): Page {
    if Truthy(token) then DashboardPage
    else if Matches(path, SignupPath) then SignupPage
    else LoginPage
  }

  /** There is no redirect loop: two redirects always reach a page, and it is
      the dashboard with a token, and the login or signup page without. */
  lemma NoRedirectLoop(path: string, token: Option<string>)
    ensures Navigate(path, token, 2) == Some(Landing(path, token))
  {
    RouteTargets(token);
    RouteTable(path, token);
    if Truthy(token) {
      assert Navigate(DashboardPath, token, 0) == Some(DashboardPage);
      assert Navigate(LoginPath, token, 1) == Some(DashboardPage);
    } else {
      assert Navigate(LoginPath, token, 1) == Some(LoginPage);
    }
  }

  /** Two redirects are needed: an unknown path goes to the login page, which
      sends a logged-in user on to the dashboard. */
  lemma TwoRedirectsNeeded(token: Option<string>)
    requires Truthy(token)
    ensures Route("/", token) == Redirect(LoginPath)
    ensures Navigate("/", token, 1) == None
  {
    LiteralPathsMatch();
    assert TrimTrailingSlashes("/") == [];
  }

  /** A cleared session (token expiry) no longer reaches the dashboard. */
  lemma ClearedSessionIsLoggedOut(path: string)
    ensures Navigate(path, TokenOf(map[]), 2) != Some(DashboardPage)
  {
    NoRedirectLoop(path, TokenOf(map[]));
  }
}
