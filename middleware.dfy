/** The route authorization gate that runs in front of every request: from whether
    the request carries a user id and from the request's pathname it decides to let
    the request through or to redirect it to the dashboard or to the sign-in page. */
module Middleware {
  import opened JsValues

  const HomePath := "/home"
  const SignInPath := "/sign-in"
  const ApiPrefix := "/api"

  /** Pages reachable without signing in. */
  const PublicRoutes: seq<string> := ["/sign-up", "/sign-in", "/", "/home"]

  /** API routes reachable without signing in. */
  const PublicApiRoutes: seq<string> := ["/api/videos"]

  /** What the gate does with a request: pass it on, or answer with a redirect to `target`. */
  datatype Action = Next | Redirect(target: string)

  /** A route matcher built from a list of paths, matching a pathname exactly. */
  predicate IsPublicRoute(pathname: string)
    ensures IsPublicRoute(pathname) <==>
      pathname == "/sign-up" || pathname == "/sign-in" || pathname == "/" || pathname == "/home"
  {
    pathname in PublicRoutes
  }

  predicate IsPublicApiRoute(pathname: string)
    ensures IsPublicApiRoute(pathname) <==> pathname == "/api/videos"
  {
    pathname in PublicApiRoutes
  }

  /** The gate as written: the redirect for signed-in users on a public page, then two
      redirects to sign-in for signed-out users, otherwise pass through. The redirect
      targets are the only two fixed pages, and which one is chosen depends on whether
      the user is signed in. */
  function Gate(userId: Option<string>, pathname: string): (a: Action)
    ensures a.Redirect? ==> a.target == HomePath || a.target == SignInPath
    ensures a == Redirect(HomePath) ==> TruthyString(userId)
    ensures a == Redirect(SignInPath) ==> !TruthyString(userId)
  {
    var signedIn := TruthyString(userId);
    var isAccessingDashboard := pathname == HomePath;
    var isApiRequest := StartsWith(pathname, ApiPrefix);
    if signedIn && IsPublicRoute(pathname) && !isAccessingDashboard then
      Redirect(HomePath)
    else if !signedIn && !IsPublicRoute(pathname) && !IsPublicApiRoute(pathname) then
      Redirect(SignInPath)
    else if !signedIn && isApiRequest && !IsPublicApiRoute(pathname) then
      Redirect(SignInPath)
    else
      Next
  }

  /** The gate with its second signed-out check (the API-request redirect) removed. */
  function GateWithoutApiCheck(userId: Option<string>, pathname: string): (a: Action)
    ensures a.Redirect? <==>
      if TruthyString(userId) then IsPublicRoute(pathname) && pathname != HomePath
      else !IsPublicRoute(pathname) && !IsPublicApiRoute(pathname)
  {
    var signedIn := TruthyString(userId);
    if signedIn && IsPublicRoute(pathname) && pathname != HomePath then
      Redirect(HomePath)
    else if !signedIn && !IsPublicRoute(pathname) && !IsPublicApiRoute(pathname) then
      Redirect(SignInPath)
    else
      Next
  }

  /** The route classes of the decision table. */
  datatype RouteClass = Dashboard | PublicPage | PublicApi | Protected

  function Classify(pathname: string): (c: RouteClass)
    ensures c == Dashboard <==> pathname == HomePath
    ensures c == PublicPage <==> IsPublicRoute(pathname) && pathname != HomePath
    ensures c == PublicApi <==> IsPublicApiRoute(pathname)
    ensures c == Protected <==> !IsPublicRoute(pathname) && !IsPublicApiRoute(pathname)
  {
    if pathname == HomePath then Dashboard
    else if IsPublicRoute(pathname) then PublicPage
    else if IsPublicApiRoute(pathname) then PublicApi
    else Protected
  }

  /** The decision table over route classes: signed-in users are sent from public pages
      to the dashboard, signed-out users from protected routes to sign-in. */
  function Decide(signedIn: bool, c: RouteClass): Action
  {
    match c
    case Dashboard => Next
    case PublicPage => if signedIn then Redirect(HomePath) else Next
    case PublicApi => Next
    case Protected => if signedIn then Next else Redirect(SignInPath)
  }

  /** None of the public pages is an API request. */
  lemma NoPublicRouteIsApi(pathname: string)
    requires IsPublicRoute(pathname)
    ensures !StartsWith(pathname, ApiPrefix)
  {
    assert PublicRoutes[0][..4] == "/sig";
    assert PublicRoutes[1][..4] == "/sig";
    assert PublicRoutes[3][..4] == "/hom";
  }

  /** The second signed-out check never changes the result: removing it gives the same gate. */
  lemma ApiCheckRedundant(userId: Option<string>, pathname: string)
    ensures Gate(userId, pathname) == GateWithoutApiCheck(userId, pathname)
  {
    if IsPublicRoute(pathname) {
      NoPublicRouteIsApi(pathname);
    }
  }

  /** The gate is the decision table applied to the user's presence and the route class. */
  lemma GateFollowsDecisionTable(userId: Option<string>, pathname: string)
    ensures Gate(userId, pathname) == Decide(TruthyString(userId), Classify(pathname))
  {
    ApiCheckRedundant(userId, pathname);
  }

  /** The decision depends on the user id only through its presence. */
  lemma GateDependsOnlyOnPresence(u1: Option<string>, u2: Option<string>, pathname: string)
    requires TruthyString(u1) == TruthyString(u2)
    ensures Gate(u1, pathname) == Gate(u2, pathname)
  {
  }

  /** A signed-in user is redirected to the dashboard exactly when on a public page other
      than the dashboard; otherwise the request goes through, and never to sign-in. */
  lemma SignedInGate(userId: Option<string>, pathname: string)
    requires TruthyString(userId)
    ensures Gate(userId, pathname) == Redirect(HomePath) <==>
      IsPublicRoute(pathname) && pathname != HomePath
    ensures Gate(userId, pathname) == Next <==>
      pathname == HomePath || !IsPublicRoute(pathname)
    ensures Gate(userId, pathname) != Redirect(SignInPath)
  {
  }

  /** A signed-out user is redirected to sign-in exactly on a path that is neither a public
      page nor a public API route, and is never redirected to the dashboard. */
  lemma SignedOutGate(userId: Option<string>, pathname: string)
    requires !TruthyString(userId)
    ensures Gate(userId, pathname) == Redirect(SignInPath) <==>
      !IsPublicRoute(pathname) && !IsPublicApiRoute(pathname)
    ensures Gate(userId, pathname) == Next <==>
      IsPublicRoute(pathname) || IsPublicApiRoute(pathname)
    ensures Gate(userId, pathname) != Redirect(HomePath)
  {
    ApiCheckRedundant(userId, pathname);
  }

  /** Following a redirect of the gate, with the same user, is let through: no redirect loop. */
  lemma NoRedirectLoop(userId: Option<string>, pathname: string)
    requires Gate(userId, pathname).Redirect?
    ensures Gate(userId, Gate(userId, pathname).target) == Next
  {
    assert HomePath == PublicRoutes[3];
    assert SignInPath == PublicRoutes[1];
    NoPublicRouteIsApi(SignInPath);
  }
}
