/**
 * The route table of src/App.tsx and its two guards: ProtectedRoute renders
 * its page only for a signed-in user and sends everyone else to "/auth";
 * PublicRoute renders its page only when nobody is signed in and sends a
 * signed-in user to "/dashboard".
 */
module App {
  import opened Replies

  datatype Guard = Unguarded | PublicOnly | ProtectedOnly

  datatype Page =
    | Index | Intro | GetStarted | Auth | PasswordReset | AuthSuccess
    | Dashboard | Profile | Summaries | Flashcards | Quizzes | Quiz | Export | NotFound

  /** A route path: a literal path, or a literal prefix followed by one
      non-empty `:param` segment (`Param("/quiz/")` stands for "/quiz/:id"). */
  datatype Pattern = Exact(path: string) | Param(prefix: string)

  datatype Route = Route(pattern: Pattern, guard: Guard, page: Page)

  /** What a visit to a path produces. */
  datatype Outcome = Render(page: Page) | Redirect(to: string)

  const AuthPath := "/auth"
  const DashboardPath := "/dashboard"

  function ProtectedRoute(signedIn: bool, page: Page): (o: Outcome)
    ensures o.Render? <==> signedIn
    ensures o.Render? ==> o.page == page
    ensures !signedIn ==> o == Redirect(AuthPath)
  {
    if signedIn then Render(page) else Redirect(AuthPath)
  }

  function PublicRoute(signedIn: bool, page: Page): (o: Outcome)
    ensures o.Render? <==> !signedIn
    ensures o.Render? ==> o.page == page
    ensures signedIn ==> o == Redirect(DashboardPath)
  {
    if !signedIn then Render(page) else Redirect(DashboardPath)
  }

  function Guarded(guard: Guard, signedIn: bool, page: Page): Outcome
  {
    match guard
    case Unguarded => Render(page)
    case PublicOnly => PublicRoute(signedIn, page)
    case ProtectedOnly => ProtectedRoute(signedIn, page)
  }

  predicate Matches(pattern: Pattern, path: string)
  {
    match pattern
    case Exact(p) => path == p
    case Param(prefix) =>
      prefix < path && '/' !in path[|prefix|..]
  }

  /** The routes as AppRoutes declares them; any other path falls to "*" (NotFound). */
  const AsWrittenRoutes: seq<Route> := [
    Route(Exact("/"), Unguarded, Index),
    Route(Exact("/intro"), PublicOnly, Intro),
    Route(Exact("/get-started"), PublicOnly, GetStarted),
    Route(Exact("/auth"), PublicOnly, Auth),
    Route(Exact("/password-reset"), PublicOnly, PasswordReset),
    Route(Param("/password-reset/"), PublicOnly, PasswordReset),
    Route(Exact("/auth/success"), Unguarded, AuthSuccess),
    Route(Exact("/dashboard"), ProtectedOnly, Dashboard),
    Route(Exact("/profile"), ProtectedOnly, Profile),
    Route(Exact("/summaries"), ProtectedOnly, Summaries),
    Route(Exact("/flashcards"), ProtectedOnly, Flashcards),
    Route(Exact("/quizzes"), ProtectedOnly, Quizzes),
    Route(Param("/quiz/"), ProtectedOnly, Quiz),
    Route(Exact("/export"), ProtectedOnly, Export)
  ]

  /** The table with the route that the flashcard generation on the summaries
      page navigates to ("/flashcards/:id"), which AppRoutes lacks. */
  const Routes: seq<Route> := AsWrittenRoutes + [Route(Param("/flashcards/"), ProtectedOnly, Flashcards)]

  /** The two tables the model speaks about: the one AppRoutes declares, and
      the corrected one. */
  predicate IsRouteTable(routes: seq<Route>)
  {
    routes == AsWrittenRoutes || routes == Routes
  }

  /** The first route of the table that matches the path. */
  function Lookup(routes: seq<Route>, path: string): (r: Option<Route>)
    ensures r.Some? ==> r.value in routes && Matches(r.value.pattern, path)
    ensures r.None? ==> forall i :: 0 <= i < |routes| ==> !Matches(routes[i].pattern, path)
  {
    if routes == [] then None
    else if Matches(routes[0].pattern, path) then Some(routes[0])
    else Lookup(routes[1..], path)
  }

  function Visit(routes: seq<Route>, path: string, signedIn: bool): Outcome
  {
    match Lookup(routes, path)
    case Some(r) => Guarded(r.guard, signedIn, r.page)
    case None => Render(NotFound)
  }

  /** Looking a path up in a table extended at its end: a route of the
      original table, when one matches, still wins. */
  lemma {:induction false} LookupAppend(a: seq<Route>, b: seq<Route>, path: string)
    ensures Lookup(a + b, path) == if Lookup(a, path).Some? then Lookup(a, path) else Lookup(b, path)
    decreases |a|
  {
    if a == [] {
      assert a + b == b;
    } else {
      assert (a + b)[0] == a[0];
      assert (a + b)[1..] == a[1..] + b;
      if !Matches(a[0].pattern, path) {
        LookupAppend(a[1..], b, path);
      }
    }
  }

  /** The two tables disagree only on the paths of "/flashcards/:id". */
  lemma AsWrittenAgrees(path: string, signedIn: bool)
    requires !Matches(Param("/flashcards/"), path)
    ensures Visit(AsWrittenRoutes, path, signedIn) == Visit(Routes, path, signedIn)
  {
    var added := [Route(Param("/flashcards/"), ProtectedOnly, Flashcards)];
    LookupAppend(AsWrittenRoutes, added, path);
    assert Lookup(added, path) == None;
  }

  /** Two patterns that no path matches both; decided on the literals alone. */
  predicate Disjoint(a: Pattern, b: Pattern)
  {
    match (a, b)
    case (Exact(p), Exact(q)) => p != q
    case (Exact(p), Param(q)) => !(q < p)
    case (Param(q), Exact(p)) => !(q < p)
    case (Param(q1), Param(q2)) => !(q1 <= q2) && !(q2 <= q1)
  }

  lemma DisjointNeverBothMatch(a: Pattern, b: Pattern, path: string)
    requires Disjoint(a, b) && Matches(a, path)
    ensures !Matches(b, path)
  {
  }

  /** No path is matched by two routes of the table. */
  predicate Unambiguous(routes: seq<Route>)
  {
    forall i, j :: 0 <= i < j < |routes| ==> Disjoint(routes[i].pattern, routes[j].pattern)
  }

  /** Neither of two paths that differ at position k is a prefix of the other. */
  lemma DifferAt(q: string, p: string, k: nat)
    requires k < |q| && k < |p| && q[k] != p[k]
    ensures !(q <= p) && !(p <= q) && q != p
  {
  }

  /** The pairs of declared paths whose difference is not visible from their lengths. */
  lemma DeclaredPathsDiffer()
    ensures !("/quiz/" <= "/get-started") && !("/quiz/" <= "/password-reset")
    ensures !("/quiz/" <= "/auth/success") && !("/quiz/" <= "/dashboard")
    ensures !("/quiz/" <= "/profile") && !("/quiz/" <= "/summaries")
    ensures !("/quiz/" <= "/flashcards") && !("/quiz/" <= "/quizzes") && !("/quiz/" <= "/export")
    ensures !("/quiz/" <= "/password-reset/") && !("/password-reset/" <= "/quiz/")
    ensures "/profile" != "/quizzes" && "/dashboard" != "/summaries"
  {
    DifferAt("/quiz/", "/get-started", 1);
    DifferAt("/quiz/", "/password-reset", 1);
    DifferAt("/quiz/", "/auth/success", 1);
    DifferAt("/quiz/", "/dashboard", 1);
    DifferAt("/quiz/", "/profile", 1);
    DifferAt("/quiz/", "/summaries", 1);
    DifferAt("/quiz/", "/flashcards", 1);
    DifferAt("/quiz/", "/quizzes", 5);
    DifferAt("/quiz/", "/export", 1);
    DifferAt("/quiz/", "/password-reset/", 1);
    DifferAt("/profile", "/quizzes", 1);
    DifferAt("/dashboard", "/summaries", 1);
  }

  /** Route k shares no path with any route declared before it. */
  lemma DisjointFromEarlier(k: nat)
    requires k < |AsWrittenRoutes|
    ensures forall i :: 0 <= i < k ==> Disjoint(AsWrittenRoutes[i].pattern, AsWrittenRoutes[k].pattern)
  {
    DeclaredPathsDiffer();
  }

  lemma AsWrittenUnambiguous()
    ensures Unambiguous(AsWrittenRoutes)
  {
    forall i, j | 0 <= i < j < |AsWrittenRoutes|
      ensures Disjoint(AsWrittenRoutes[i].pattern, AsWrittenRoutes[j].pattern)
    {
      DisjointFromEarlier(j);
    }
  }

  /** The added "/flashcards/:id" route shares no path with the declared ones. */
  lemma FlashcardsParamIsNew()
    ensures forall i :: 0 <= i < |AsWrittenRoutes| ==> Disjoint(AsWrittenRoutes[i].pattern, Param("/flashcards/"))
  {
    var f := Param("/flashcards/");
    assert "/auth/success"[1] != "/flashcards/"[1];
    assert "/auth/success"[..12] != "/flashcards/";
    assert "/password-reset/"[..12] != "/flashcards/"[..12] by {
      assert "/password-reset/"[1] != "/flashcards/"[1];
    }
    assert "/quiz/"[..6] != "/flashcards/"[..6] by {
      assert "/quiz/"[1] != "/flashcards/"[1];
    }
    forall i | 0 <= i < |AsWrittenRoutes|
      ensures Disjoint(AsWrittenRoutes[i].pattern, f)
    {
    }
  }

  lemma RoutesUnambiguous()
    ensures Unambiguous(Routes)
  {
    AsWrittenUnambiguous();
    FlashcardsParamIsNew();
    var n := |AsWrittenRoutes|;
    assert forall i :: 0 <= i < n ==> Routes[i] == AsWrittenRoutes[i];
    assert Routes[n].pattern == Param("/flashcards/");
  }

  /** In an unambiguous table, the route a path matches is the one Lookup finds. */
  lemma LookupFinds(routes: seq<Route>, path: string, i: nat)
    requires Unambiguous(routes) && i < |routes| && Matches(routes[i].pattern, path)
    ensures Lookup(routes, path) == Some(routes[i])
  {
    var r := Lookup(routes, path);
    assert r.Some?;
    var j :| 0 <= j < |routes| && routes[j] == r.value;
    if j < i {
      DisjointNeverBothMatch(routes[j].pattern, routes[i].pattern, path);
    } else if i < j {
      DisjointNeverBothMatch(routes[i].pattern, routes[j].pattern, path);
    }
  }

  /** A guarded route renders for exactly one user state, and an unguarded one for both. */
  lemma GuardsSplitUsers(guard: Guard, page: Page)
    ensures guard == PublicOnly ==>
      (Guarded(guard, false, page) == Render(page) && Guarded(guard, true, page) == Redirect(DashboardPath))
    ensures guard == ProtectedOnly ==>
      (Guarded(guard, true, page) == Render(page) && Guarded(guard, false, page) == Redirect(AuthPath))
    ensures guard == Unguarded ==> Guarded(guard, true, page) == Guarded(guard, false, page) == Render(page)
  {
  }

  /** A visit to a path that a route of an unambiguous table matches is decided by that route's guard. */
  lemma VisitMatched(routes: seq<Route>, path: string, i: nat, signedIn: bool)
    requires Unambiguous(routes) && i < |routes| && Matches(routes[i].pattern, path)
    ensures Visit(routes, path, signedIn) == Guarded(routes[i].guard, signedIn, routes[i].page)
  {
    LookupFinds(routes, path, i);
  }

  /** The declared routes keep their places in the corrected table. */
  lemma RoutesExtendAsWritten()
    ensures Unambiguous(Routes) && Unambiguous(AsWrittenRoutes)
    ensures |Routes| == |AsWrittenRoutes| + 1
    ensures forall i :: 0 <= i < |AsWrittenRoutes| ==> Routes[i] == AsWrittenRoutes[i]
  {
    AsWrittenUnambiguous();
    RoutesUnambiguous();
  }

  /** Both redirect targets render at once: "/auth" is public and "/dashboard" protected. */
  lemma RedirectTargetsRender(routes: seq<Route>)
    requires IsRouteTable(routes)
    ensures Visit(routes, AuthPath, false) == Render(Auth)
    ensures Visit(routes, DashboardPath, true) == Render(Dashboard)
  {
    RoutesExtendAsWritten();
    assert routes[3] == AsWrittenRoutes[3] && routes[7] == AsWrittenRoutes[7];
    VisitMatched(routes, AuthPath, 3, false);
    VisitMatched(routes, DashboardPath, 7, true);
  }

  /** Every redirect chain has length one: whatever path is visited, a redirect
      lands on a path that renders for the same user state. */
  lemma RedirectsSettle(routes: seq<Route>, path: string, signedIn: bool)
    requires IsRouteTable(routes)
    ensures Visit(routes, path, signedIn).Redirect? ==> Visit(routes, Visit(routes, path, signedIn).to, signedIn).Render?
  {
    RedirectTargetsRender(routes);
    match Lookup(routes, path)
    case None =>
    case Some(r) =>
      GuardsSplitUsers(r.guard, r.page);
  }

  /** "/" and "/auth/success" render for everyone; a path no route matches
      renders NotFound (under the declared table, "/flashcards/abc" is one). */
  lemma UnguardedPaths(routes: seq<Route>, signedIn: bool, path: string)
    requires IsRouteTable(routes)
    ensures Visit(routes, "/", signedIn) == Render(Index)
    ensures Visit(routes, "/auth/success", signedIn) == Render(AuthSuccess)
    ensures (forall i :: 0 <= i < |routes| ==> !Matches(routes[i].pattern, path)) ==>
      Visit(routes, path, signedIn) == Render(NotFound)
  {
    RoutesExtendAsWritten();
    VisitMatched(routes, "/", 0, signedIn);
    VisitMatched(routes, "/auth/success", 6, signedIn);
  }

  /** A visit to a path that route i of either table matches. */
  lemma VisitRoute(routes: seq<Route>, i: nat, path: string, signedIn: bool)
    requires IsRouteTable(routes) && i < |routes| && Matches(routes[i].pattern, path)
    ensures Visit(routes, path, signedIn) == Guarded(routes[i].guard, signedIn, routes[i].page)
  {
    RoutesExtendAsWritten();
    VisitMatched(routes, path, i, signedIn);
  }

  /** The pages only a signed-out visitor sees, and the pages only a signed-in user sees. */
  const PublicPages: set<Page> := {Intro, GetStarted, Auth, PasswordReset}
  const ProtectedPages: set<Page> := {Dashboard, Profile, Summaries, Flashcards, Quizzes, Quiz, Export}

  /** The guard each route of the table carries is decided by its page. */
  lemma GuardsOfTable(routes: seq<Route>)
    requires IsRouteTable(routes)
    ensures forall i :: 0 <= i < |routes| ==>
      (routes[i].guard == PublicOnly <==> routes[i].page in PublicPages)
    ensures forall i :: 0 <= i < |routes| ==>
      (routes[i].guard == ProtectedOnly <==> routes[i].page in ProtectedPages)
    ensures forall i :: 0 <= i < |routes| ==>
      (routes[i].guard == Unguarded <==> routes[i].page in {Index, AuthSuccess})
  {
    assert forall i :: 0 <= i < |AsWrittenRoutes| ==> Routes[i] == AsWrittenRoutes[i];
  }

  /** A path of a declared route shows its page signed out exactly for the
      public and unguarded pages, and signed in exactly for the protected and
      unguarded pages. */
  lemma PageReachability(routes: seq<Route>, i: nat, path: string)
    requires IsRouteTable(routes) && i < |routes| && Matches(routes[i].pattern, path)
    ensures Visit(routes, path, false) == Render(routes[i].page) <==>
      routes[i].page in PublicPages || routes[i].page in {Index, AuthSuccess}
    ensures Visit(routes, path, true) == Render(routes[i].page) <==>
      routes[i].page in ProtectedPages || routes[i].page in {Index, AuthSuccess}
  {
    VisitRoute(routes, i, path, false);
    VisitRoute(routes, i, path, true);
    GuardsOfTable(routes);
  }

  /** A quiz path, matched by the ":id" route, sends a signed-out visitor to "/auth". */
  lemma QuizPathSignedOut(routes: seq<Route>, id: string)
    requires IsRouteTable(routes)
    requires id != "" && '/' !in id
    ensures Visit(routes, "/quiz/" + id, false) == Redirect(AuthPath)
    ensures Visit(routes, "/quiz/" + id, true) == Render(Quiz)
  {
    var path := "/quiz/" + id;
    assert path[..6] == "/quiz/" && path[6..] == id;
    VisitRoute(routes, 12, path, false);
    VisitRoute(routes, 12, path, true);
  }

  /** Every declared route that has a guard renders for exactly one user state. */
  lemma EachGuardedRouteOneState(routes: seq<Route>, i: nat, path: string)
    requires IsRouteTable(routes)
    requires i < |routes| && Matches(routes[i].pattern, path) && routes[i].guard != Unguarded
    ensures Visit(routes, path, true).Render? != Visit(routes, path, false).Render?
  {
    RoutesExtendAsWritten();
    VisitMatched(routes, path, i, true);
    VisitMatched(routes, path, i, false);
  }
}
