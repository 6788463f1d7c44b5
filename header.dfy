/**
 * The decisions of the page header in src/components/shared/Header.tsx: where
 * the Back button leads, where the logo leads, which parts of the header are
 * shown, and what signing out from the user menu does.
 */
module Header {
  import opened Replies
  import AuthContext
  import App

  const RootPath := "/"
  const IntroPath := "/intro"
  const GetStartedPath := "/get-started"

  /** `getBackPath` for the header's optional `backPath` property, the presence
      of a user and the current `location.pathname`. */
  function BackPath(backPath: Option<string>, signedIn: bool, pathname: string): (r: string)
    ensures Truthy(backPath) ==> r == backPath.value
    ensures !Truthy(backPath) ==> r in {RootPath, App.DashboardPath, IntroPath, GetStartedPath}
    ensures !Truthy(backPath) && signedIn ==> r != pathname
    ensures !Truthy(backPath) && signedIn ==> (r == RootPath <==> pathname == App.DashboardPath)
    ensures !Truthy(backPath) && signedIn && pathname != App.DashboardPath ==> r == App.DashboardPath
    ensures !Truthy(backPath) && !signedIn ==> (r == GetStartedPath <==> pathname == App.AuthPath)
    ensures !Truthy(backPath) && !signedIn ==> (r == IntroPath <==> pathname != App.AuthPath)
  {
    if Truthy(backPath) then backPath.value
    else if signedIn then
      if pathname == App.DashboardPath then RootPath else App.DashboardPath
    else if pathname == GetStartedPath then IntroPath
    else if pathname == App.AuthPath then GetStartedPath
    else IntroPath
  }

  /** A visit to one of the four fallback targets of the Back button, decided by its route. */
  lemma FallbackTargetRenders(routes: seq<App.Route>, target: string, signedIn: bool)
    requires App.IsRouteTable(routes)
    requires target in {RootPath, App.DashboardPath, IntroPath, GetStartedPath}
    requires target == RootPath || (target == App.DashboardPath <==> signedIn)
    ensures App.Visit(routes, target, signedIn).Render?
  {
    if target == RootPath {
      App.VisitRoute(routes, 0, target, signedIn);
    } else if target == IntroPath {
      App.VisitRoute(routes, 1, target, signedIn);
    } else if target == GetStartedPath {
      App.VisitRoute(routes, 2, target, signedIn);
    } else {
      App.VisitRoute(routes, 7, target, signedIn);
    }
  }

  /** Without an explicit `backPath`, Back never leads to a redirect: signed in
      it leads to "/" or to the protected dashboard, signed out to the public
      "/intro" or "/get-started". */
  lemma BackNeverRedirects(routes: seq<App.Route>, signedIn: bool, pathname: string)
    requires App.IsRouteTable(routes)
    ensures App.Visit(routes, BackPath(None, signedIn, pathname), signedIn).Render?
  {
    FallbackTargetRenders(routes, BackPath(None, signedIn, pathname), signedIn);
  }

  /** Signed out on "/intro" (or on any path but "/get-started" and "/auth"),
      Back leads to "/intro": on the intro page it stays where it is. */
  lemma BackFromIntroStays()
    ensures BackPath(None, false, IntroPath) == IntroPath
  {
  }

  /** The logo link: the dashboard for a signed-in user, the intro page otherwise. */
  function LogoTarget(signedIn: bool): (r: string)
    ensures signedIn <==> r == App.DashboardPath
    ensures !signedIn <==> r == IntroPath
  {
    if signedIn then App.DashboardPath else IntroPath
  }

  /** The logo always leads to a page that renders for the same visitor. */
  lemma LogoRenders(routes: seq<App.Route>, signedIn: bool)
    requires App.IsRouteTable(routes)
    ensures App.Visit(routes, LogoTarget(signedIn), signedIn).Render?
  {
    FallbackTargetRenders(routes, LogoTarget(signedIn), signedIn);
  }

  /** Which parts of the header appear. */
  datatype Chrome = Chrome(navLinks: bool, mobileMenu: bool, userMenu: bool, signInLink: bool)

  function Shown(signedIn: bool): (c: Chrome)
    ensures c.navLinks <==> signedIn
    ensures c.mobileMenu <==> signedIn
    ensures c.userMenu <==> signedIn
    ensures c.signInLink <==> !signedIn
  {
    Chrome(signedIn, signedIn, signedIn, !signedIn)
  }

  /** The targets of the navigation links and of the user menu's Profile entry. */
  const MemberLinks: set<string> := {"/dashboard", "/summaries", "/flashcards", "/quizzes", "/export", "/profile"}

  /** Every link shown only to a signed-in user leads to a protected page: it
      renders for that user and would send anyone else to "/auth". */
  lemma MemberLinksProtected(routes: seq<App.Route>, target: string)
    requires App.IsRouteTable(routes)
    requires target in MemberLinks
    ensures App.Visit(routes, target, true).Render?
    ensures App.Visit(routes, target, false) == App.Redirect(App.AuthPath)
  {
    var i: nat :=
      if target == "/dashboard" then 7
      else if target == "/profile" then 8
      else if target == "/summaries" then 9
      else if target == "/flashcards" then 10
      else if target == "/quizzes" then 11
      else 13;
    App.VisitRoute(routes, i, target, true);
    App.VisitRoute(routes, i, target, false);
  }

  /** The Sign In link leads to the public sign-in page. */
  lemma SignInLinkPublic(routes: seq<App.Route>)
    requires App.IsRouteTable(routes)
    ensures App.Visit(routes, App.AuthPath, false) == App.Render(App.Auth)
  {
    App.RedirectTargetsRender(routes);
  }

  /** `handleSignOut`: the session ends and the visitor is sent to "/intro". */
  method HandleSignOut(auth: AuthContext.AuthProvider) returns (target: string)
    modifies auth
    ensures auth.State() == AuthContext.SignedOut(old(auth.State()))
    ensures target == IntroPath
  {
    auth.SignOut();
    target := IntroPath;
  }

  /** After signing out from the header, the page navigated to renders. */
  lemma SignOutLandsOnIntro(routes: seq<App.Route>)
    requires App.IsRouteTable(routes)
    ensures App.Visit(routes, IntroPath, false) == App.Render(App.Intro)
  {
    App.VisitRoute(routes, 1, IntroPath, false);
  }
}
