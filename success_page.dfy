/**
 * The OAuth callback of src/pages/Success.tsx: the "token" and "user" query
 * parameters either establish a session, which then leads to "/dashboard", or
 * leave the session untouched and lead back to "/auth".
 */
module SuccessPage {
  import opened Replies
  import AuthContext
  import App

  /** What the callback effect decides from the two query parameters. */
  datatype Callback =
    | Establish(token: string, user: AuthContext.User)
    | MissingParams
    | Malformed

  /** The decision: both parameters must be truthy, and the user parameter
      must URI-decode and then parse as a user. */
  function Decide(codec: AuthContext.Codec, tokenParam: Option<string>, userParam: Option<string>): (c: Callback)
    ensures c == MissingParams <==> !Truthy(tokenParam) || !Truthy(userParam)
    ensures c.Establish? ==> Some(c.token) == tokenParam && c.token != ""
    ensures c.Establish? ==>
      exists decoded :: codec.decodeUri(userParam.value) == Some(decoded) && codec.parse(decoded) == Some(c.user)
    ensures c == Malformed <==>
      Truthy(tokenParam) && Truthy(userParam)
      && (codec.decodeUri(userParam.value).None? || codec.parse(codec.decodeUri(userParam.value).value).None?)
  {
    if !Truthy(tokenParam) || !Truthy(userParam) then MissingParams
    else
      match codec.decodeUri(userParam.value)
      case None => Malformed
      case Some(decoded) =>
        match codec.parse(decoded)
        case None => Malformed
        case Some(u) => Establish(tokenParam.value, u)
  }

  /** The one path each run navigates to. */
  function TargetOf(c: Callback): (r: string)
    ensures r == App.DashboardPath <==> c.Establish?
    ensures r == App.AuthPath <==> !c.Establish?
  {
    if c.Establish? then App.DashboardPath else App.AuthPath
  }

  /** The callback effect: on a session it calls `setToken` and then `setUser`;
      otherwise it leaves the session as it was. `target` is the one navigation. */
  method HandleCallback(auth: AuthContext.AuthProvider, tokenParam: Option<string>, userParam: Option<string>)
    returns (target: string)
    modifies auth
    ensures var c := Decide(auth.codec, tokenParam, userParam);
      target == TargetOf(c)
      && (c.Establish? ==>
            auth.State() == AuthContext.WithUser(AuthContext.WithToken(old(auth.State()), c.token), c.user, auth.codec))
      && (!c.Establish? ==> auth.State() == old(auth.State()))
  {
    var c := Decide(auth.codec, tokenParam, userParam);
    if c.Establish? {
      auth.SetToken(c.token);
      auth.SetUser(c.user);
    }
    target := TargetOf(c);
  }

  /** A session established by the callback survives a reload: the restore
      effect brings back the same token and user without throwing. */
  lemma EstablishedSessionSurvivesReload(s: AuthContext.Session, codec: AuthContext.Codec, tokenParam: Option<string>, userParam: Option<string>)
    requires AuthContext.RoundTrips(codec)
    requires Decide(codec, tokenParam, userParam).Establish?
    ensures var c := Decide(codec, tokenParam, userParam);
      var after := AuthContext.WithUser(AuthContext.WithToken(s, c.token), c.user, codec);
      AuthContext.Reloaded(after, codec).token == Some(c.token)
      && AuthContext.Reloaded(after, codec).user == Some(c.user)
  {
    var c := Decide(codec, tokenParam, userParam);
    AuthContext.SettersPersist(s, c.token, c.user, codec);
  }

  /** Wherever the callback leads, a page renders for the session it leaves:
      the dashboard for an established session; for a failed callback, the
      sign-in page when nobody was signed in, and otherwise the redirect from
      "/auth" back to the dashboard of the session already there. */
  lemma TargetRenders(routes: seq<App.Route>, c: Callback)
    requires App.IsRouteTable(routes)
    ensures c.Establish? ==> App.Visit(routes, TargetOf(c), true) == App.Render(App.Dashboard)
    ensures !c.Establish? ==> App.Visit(routes, TargetOf(c), false) == App.Render(App.Auth)
    ensures !c.Establish? ==> App.Visit(routes, TargetOf(c), true) == App.Redirect(App.DashboardPath)
    ensures !c.Establish? ==>
      App.Visit(routes, App.Visit(routes, TargetOf(c), true).to, true) == App.Render(App.Dashboard)
  {
    App.RedirectTargetsRender(routes);
    App.VisitRoute(routes, 3, App.AuthPath, true);
  }
}
