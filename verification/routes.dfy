/**
 The route table of the application shell: which page a path shows, or where it
 redirects, given whether someone is signed in; and the shell around it (spinner
 while the first auth event is awaited, navigation bar only when signed in).
 */
module Routing {
  import opened Wrappers
  import opened Session

  datatype Page = LoginPage | RegisterPage | DashboardPage | NewAppointmentPage

  /** What the router does for a path: show a page, redirect (replacing history), or match nothing. */
  datatype RouteOutcome = Render(page: Page) | Redirect(to: string) | NoMatch

  const LoginPath := "/login"
  const RegisterPath := "/register"
  const DashboardPath := "/dashboard"
  const NewAppointmentPath := "/new-appointment"
  const RootPath := "/"

  /** The path each page is mounted at. */
  function PathOf(p: Page): string {
    match p
    case LoginPage => LoginPath
    case RegisterPage => RegisterPath
    case DashboardPage => DashboardPath
    case NewAppointmentPage => NewAppointmentPath
  }

  /** Pages meant for signed-in users only. */
  predicate Protected(p: Page) {
    p == DashboardPage || p == NewAppointmentPage
  }

  /** Where a signed-in, respectively signed-out, visitor is sent when a page is not for them. */
  function Home(isAuthenticated: bool): string {
    if isAuthenticated then DashboardPath else LoginPath
  }

  function Route(path: string, isAuthenticated: bool): (r: RouteOutcome)
    // public pages: shown only to signed-out visitors
    ensures path == LoginPath ==> (r == Render(LoginPage) <==> !isAuthenticated)
                                   && (r == Redirect(DashboardPath) <==> isAuthenticated)
    ensures path == RegisterPath ==> (r == Render(RegisterPage) <==> !isAuthenticated)
                                      && (r == Redirect(DashboardPath) <==> isAuthenticated)
    // protected pages: shown only to signed-in visitors
    ensures path == DashboardPath ==> (r == Render(DashboardPage) <==> isAuthenticated)
                                       && (r == Redirect(LoginPath) <==> !isAuthenticated)
    ensures path == NewAppointmentPath ==> (r == Render(NewAppointmentPage) <==> isAuthenticated)
                                            && (r == Redirect(LoginPath) <==> !isAuthenticated)
    // the root always redirects
    ensures path == RootPath ==> r == Redirect(Home(isAuthenticated))
    // a page is shown only at its own path and only to the visitors it is meant for
    ensures r.Render? ==> PathOf(r.page) == path && (Protected(r.page) <==> isAuthenticated)
    ensures r.NoMatch? <==> path !in {LoginPath, RegisterPath, DashboardPath, NewAppointmentPath, RootPath}
  {
    if path == LoginPath then
      if !isAuthenticated then Render(LoginPage) else Redirect(DashboardPath)
    else if path == RegisterPath then
      if !isAuthenticated then Render(RegisterPage) else Redirect(DashboardPath)
    else if path == DashboardPath then
      if isAuthenticated then Render(DashboardPage) else Redirect(LoginPath)
    else if path == NewAppointmentPath then
      if isAuthenticated then Render(NewAppointmentPage) else Redirect(LoginPath)
    else if path == RootPath then
      Redirect(if isAuthenticated then DashboardPath else LoginPath)
    else
      NoMatch
  }

  /** Following one redirect always lands on a page: the route table has no redirect chains or loops. */
  lemma RedirectsSettle(path: string, isAuthenticated: bool)
    ensures Route(path, isAuthenticated).Redirect? ==>
              Route(Route(path, isAuthenticated).to, isAuthenticated).Render?
  {
  }

  /** What the shell renders. */
  datatype Screen = Spinner | Shell(navbar: bool, content: RouteOutcome)

  function View(s: AuthState, path: string): (v: Screen)
    ensures v.Spinner? <==> s.loading
    ensures v.Shell? ==> (v.navbar <==> s.isAuthenticated)
    ensures v.Shell? ==> v.content == Route(path, s.isAuthenticated)
  {
    if s.loading then Spinner else Shell(s.isAuthenticated, Route(path, s.isAuthenticated))
  }

  /** In a consistent state, a protected page is always handed a user object. */
  lemma ProtectedPagesGetAUser(s: AuthState, path: string)
    requires Consistent(s)
    ensures View(s, path).Shell? && View(s, path).content.Render? && Protected(View(s, path).content.page)
            ==> s.user.Some?
  {
  }
}
