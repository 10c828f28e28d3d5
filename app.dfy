/**
 * The application's routing: the guard in front of the dashboard, the
 * wrapper around the login and sign-up forms with its own two inner
 * routes, and the two-entry route table that sends every path to one of
 * them.
 */
module App {
  import opened Wrappers
  import opened Strings
  import opened AuthContext

  /** The form the wrapper's inner routes pick. */
  datatype AuthForm = LoginForm | SignupForm

  /**
   * What a route renders. `AuthPage` is the wrapper's landing page, with
   * the form its inner routes picked, or no form at all.
   */
  datatype View = LoadingScreen | Children | RedirectTo(target: string) | AuthPage(form: Option<AuthForm>)

  /** `ProtectedRoute`: loading first, then the children for a user, else back to the login form. */
  function ProtectedRoute(loading: bool, user: Option<User>): (v: View)
    ensures v == LoadingScreen <==> loading
    ensures v == Children <==> !loading && user.Some?
    ensures v.RedirectTo? <==> !loading && user.None?
    ensures v.RedirectTo? ==> v.target == "/login"
  {
    if loading then LoadingScreen
    else if user.Some? then Children
    else RedirectTo("/login")
  }

  /** The wrapper's inner routes: the login form at `/login`, the sign-up form at `/signup`, nothing elsewhere. */
  function InnerRoute(pathname: string): (form: Option<AuthForm>)
    ensures form == Some(LoginForm) <==> pathname == "/login"
    ensures form == Some(SignupForm) <==> pathname == "/signup"
    ensures form == None <==> pathname != "/login" && pathname != "/signup"
  {
    if pathname == "/login" then Some(LoginForm)
    else if pathname == "/signup" then Some(SignupForm)
    else None
  }

  /**
   * `AuthWrapper`: loading first, then a user goes to the dashboard, then
   * `/` goes to the login form, and any other path shows the landing page
   * with whatever form the inner routes pick for it.
   */
  function AuthWrapper(loading: bool, user: Option<User>, pathname: string): (v: View)
    ensures v != Children
    ensures v == LoadingScreen <==> loading
    ensures v == RedirectTo("/dashboard") <==> !loading && user.Some?
    ensures v == RedirectTo("/login") <==> !loading && user.None? && pathname == "/"
    ensures v.AuthPage? <==> !loading && user.None? && pathname != "/"
    ensures v.AuthPage? ==> v.form == InnerRoute(pathname)
  {
    if loading then LoadingScreen
    else if user.Some? then RedirectTo("/dashboard")
    else if pathname == "/" then RedirectTo("/login")
    else AuthPage(InnerRoute(pathname))
  }

  /** The dashboard wildcard pattern: the dashboard itself or anything below it. */
  function UnderDashboard(pathname: string): (b: bool)
    ensures b ==> IsPrefix("/dashboard", pathname)
    ensures b && |pathname| > |"/dashboard"| ==> pathname[|"/dashboard"|] == '/'
    ensures pathname == "/dashboard" ==> b
    ensures IsPrefix("/dashboard/", pathname) ==> b
  {
    pathname == "/dashboard" || IsPrefix("/dashboard/", pathname)
  }

  /** The route table: the dashboard wildcard behind the guard, every other path to the wrapper. */
  function Route(loading: bool, user: Option<User>, pathname: string): (v: View)
    ensures UnderDashboard(pathname) ==> v == ProtectedRoute(loading, user)
    ensures !UnderDashboard(pathname) ==> v == AuthWrapper(loading, user, pathname)
  {
    if UnderDashboard(pathname) then ProtectedRoute(loading, user) else AuthWrapper(loading, user, pathname)
  }

  /** Only a signed-in user, once loading is over, is shown the dashboard, on any path. */
  lemma OnlyUsersSeeDashboard(loading: bool, user: Option<User>, pathname: string)
    ensures Route(loading, user, pathname) == Children <==> !loading && user.Some? && UnderDashboard(pathname)
  {
  }

  /** A signed-in user, once loading is over, never sees the login or sign-up forms. */
  lemma UsersNeverSeeForms(user: User, pathname: string)
    ensures !Route(false, Some(user), pathname).AuthPage?
  {
  }

  /** While the session fetch is unsettled every path shows the loading screen, signed in or not. */
  lemma LoadingHidesEveryRoute(user: Option<User>, pathname: string)
    ensures Route(true, user, pathname) == LoadingScreen
  {
  }

  /** A redirect target is a route whose own answer is final: following one redirect never leads to another. */
  lemma {:induction false} OneRedirectSettles(user: Option<User>, pathname: string)
    ensures Route(false, user, pathname).RedirectTo? ==>
      !Route(false, user, Route(false, user, pathname).target).RedirectTo?
  {
    assert UnderDashboard("/dashboard");
    assert !IsPrefix("/dashboard/", "/login");
  }

  /** A session fetch that rejects leaves the provider loading, so every path keeps the loading screen. */
  method RejectedFetchShowsLoading(pathname: string) returns (v: View)
    ensures v == LoadingScreen
  {
    var auth := new AuthState();
    auth.SessionFetched(SessionRejected);
    v := Route(auth.loading, auth.user, pathname);
  }

  /** A signed-in user who opens the login form is sent to the dashboard and then shown it. */
  lemma SignedInLoginReachesDashboard(user: User)
    ensures Route(false, Some(user), "/login") == RedirectTo("/dashboard")
    ensures Route(false, Some(user), "/dashboard") == Children
  {
    assert !IsPrefix("/dashboard/", "/login");
  }

  /** A visitor who opens a dashboard tab is sent to the login form, which is then shown. */
  lemma VisitorReachesLoginForm(pathname: string)
    requires UnderDashboard(pathname)
    ensures Route(false, None, pathname) == RedirectTo("/login")
    ensures Route(false, None, "/login") == AuthPage(Some(LoginForm))
  {
    assert !IsPrefix("/dashboard/", "/login");
  }
}
