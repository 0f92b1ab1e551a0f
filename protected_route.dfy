/** The route guard: a spinner while the session is loading, the protected
    children for a signed-in user, and otherwise nothing, with a redirect to
    the profile page that replaces the current history entry. */
module ProtectedRoute {
  import opened Wrappers
  import AuthContext

  const ProfilePath: string := "/profile"

  datatype RouteView = RouteSpinner | Children | Nothing

  /** A `navigate(path, { replace })` call. */
  datatype Redirect = Redirect(path: string, replace: bool)

  /** The render and the effect's redirect, if any. */
  function Guard(loading: bool, isLoggedIn: bool): (r: (RouteView, Option<Redirect>))
    ensures r.0 == RouteSpinner <==> loading
    ensures r.0 == Children <==> !loading && isLoggedIn
    ensures r.1.Some? <==> !loading && !isLoggedIn
    ensures r.1.Some? ==> r.1.value == Redirect(ProfilePath, true)
    ensures !isLoggedIn ==> r.0 != Children
    ensures loading ==> r.1.None?
  {
    if loading then (RouteSpinner, None)
    else if isLoggedIn then (Children, None)
    else (Nothing, Some(Redirect(ProfilePath, true)))
  }

  /** On a fresh page load the guard lets a stored user straight through and
      sends everyone else (nothing stored, or a corrupt value) to the profile. */
  lemma GuardAfterStartup(stored: Option<AuthContext.StoredUser>)
    ensures var s := AuthContext.AfterRestore(AuthContext.Initial(stored));
      && (stored.Some? && stored.value.Json? ==> Guard(s.loading, s.isLoggedIn).0 == Children)
      && (stored.None? || stored == Some(AuthContext.Blank) || stored == Some(AuthContext.Corrupt) ==>
            Guard(s.loading, s.isLoggedIn) == (Nothing, Some(Redirect(ProfilePath, true))))
  {
    AuthContext.StartupEndsLoading(stored);
  }
}
