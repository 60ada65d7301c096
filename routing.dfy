/**
 * The application's route table and its protected-route gate. The
 * authentication flag is an input: where it comes from (the stored token)
 * is outside this model.
 */
module Routing {
  import opened Wrappers

  /** The pages the application can render. */
  datatype Page = LoginPage | DashboardPage | ContactsPage

  /** What a route renders: a page on its own, or a page behind the gate. */
  datatype Element = Open(page: Page) | Guarded(child: Page)

  datatype Route = Route(path: string, element: Element)

  /** The result of evaluating a path: a page (inside the shared layout or
      not), a redirect, or nothing when no route matches. */
  datatype Outcome = Render(page: Page, inLayout: bool) | Redirect(to: string) | NoMatch

  const LoginPath: string := "/login"
  const RootPath: string := "/"
  const ContactsPath: string := "/contacts"

  /** The route table, in declaration order. */
  const Routes: seq<Route> := [
    Route(LoginPath, Open(LoginPage)),
    Route(RootPath, Guarded(DashboardPage)),
    Route(ContactsPath, Guarded(ContactsPage))
  ]

  /** The gate: the child inside the layout when authenticated, otherwise a
      redirect to the login screen. */
  function PrivateRoute(child: Page, isAuthenticated: bool): (o: Outcome)
    ensures o.Render? <==> isAuthenticated
    ensures o.Render? ==> o.page == child && o.inLayout
    ensures !o.Render? ==> o == Redirect(LoginPath)
  {
    if isAuthenticated then Render(child, true) else Redirect(LoginPath)
  }

  /** The element of the first route whose path equals `path`. */
  function Lookup(table: seq<Route>, path: string): (r: Option<Element>)
    ensures r.Some? <==> exists i :: 0 <= i < |table| && table[i].path == path
    ensures r.Some? ==> Route(path, r.value) in table
    decreases |table|
  {
    if table == [] then None
    else if table[0].path == path then Some(table[0].element)
    else
      var r := Lookup(table[1..], path);
      assert forall i :: 1 <= i < |table| ==> table[i] == table[1..][i - 1];
      r
  }

  /** Evaluates a path with the given authentication state. */
  function Resolve(path: string, isAuthenticated: bool): (o: Outcome)
    ensures o.NoMatch? <==> forall i :: 0 <= i < |Routes| ==> Routes[i].path != path
    ensures o.Redirect? ==> o.to == LoginPath && !isAuthenticated
    ensures o.Render? && o.inLayout ==> isAuthenticated && o.page != LoginPage
    ensures o.Render? && !o.inLayout ==> o.page == LoginPage && path == LoginPath
  {
    match Lookup(Routes, path)
    case None => NoMatch
    case Some(Open(p)) => Render(p, false)
    case Some(Guarded(c)) => PrivateRoute(c, isAuthenticated)
  }

  /** No two routes share a path, so the order of the table does not matter. */
  lemma RoutePathsDistinct()
    ensures forall i, j :: 0 <= i < j < |Routes| ==> Routes[i].path != Routes[j].path
  {
  }

  /** The login screen renders on its own, signed in or not. */
  lemma LoginIsPublic(isAuthenticated: bool)
    ensures Resolve(LoginPath, isAuthenticated) == Render(LoginPage, false)
  {
  }

  /** `/` is the dashboard and `/contacts` the contacts page, both behind the
      gate: they behave alike and differ only in the child rendered. */
  lemma GuardedPages(isAuthenticated: bool)
    ensures Resolve(RootPath, isAuthenticated) == PrivateRoute(DashboardPage, isAuthenticated)
    ensures Resolve(ContactsPath, isAuthenticated) == PrivateRoute(ContactsPage, isAuthenticated)
  {
    assert Routes[0].path != RootPath && Routes[1..][0] == Route(RootPath, Guarded(DashboardPage));
    assert Lookup(Routes, RootPath) == Some(Guarded(DashboardPage));
    assert Routes[1..][0].path != ContactsPath && Routes[1..][1..][0] == Route(ContactsPath, Guarded(ContactsPage));
    assert Lookup(Routes, ContactsPath) == Lookup(Routes[1..][1..], ContactsPath);
  }

  /** Signed out, no path renders anything but the login screen: every
      guarded path redirects to it. */
  lemma SignedOutSeesOnlyLogin(path: string)
    ensures Resolve(path, false).Render? ==> Resolve(path, false) == Render(LoginPage, false)
    ensures Resolve(path, false).Redirect? ==> Resolve(path, false).to == LoginPath
  {
  }

  /** Signed in, the guarded pages render inside the layout and nothing redirects. */
  lemma SignedInNeverRedirected(path: string)
    ensures !Resolve(path, true).Redirect?
    ensures Resolve(path, true).Render? && Resolve(path, true).page != LoginPage ==>
              Resolve(path, true).inLayout
  {
  }

  /** Signing in changes only the guarded routes: whatever rendered signed
      out renders the same signed in. */
  lemma SigningInOnlyOpensGuarded(path: string)
    ensures Resolve(path, false).Render? ==> Resolve(path, true) == Resolve(path, false)
    ensures Resolve(path, false).NoMatch? <==> Resolve(path, true).NoMatch?
  {
  }

  /** A redirect always lands on a route that renders without authentication,
      so no path redirects in a loop. */
  lemma RedirectLandsOnLogin(path: string, isAuthenticated: bool)
    ensures Resolve(path, isAuthenticated).Redirect? ==>
              Resolve(Resolve(path, isAuthenticated).to, isAuthenticated) == Render(LoginPage, false)
  {
  }

  /** A path outside the table matches no route. */
  lemma UnlistedPathsMatchNothing(path: string, isAuthenticated: bool)
    requires path != LoginPath && path != RootPath && path != ContactsPath
    ensures Resolve(path, isAuthenticated) == NoMatch
  {
    assert forall i :: 0 <= i < |Routes| ==> Routes[i].path != path;
  }
}
