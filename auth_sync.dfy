/** The hook that keeps the favourites store in step with the session: load
    the favourites of the signed-in email, or clear them. The two store
    callbacks are outside this model; the hook's choice is its result. */
module AuthSync {
  import opened Wrappers
  import AuthContext

  const EmailKey: string := "email"

  /** What a run of the effect asks the favourites store to do. */
  datatype FavouritesAction = LoadFavourites(email: string) | ClearFavourites | NoAction

  /** `user?.email` when it is truthy. */
  function SignedInEmail(user: Option<AuthContext.User>): (r: Option<string>)
    ensures r.Some? <==> user.Some? && EmailKey in user.value && user.value[EmailKey] != ""
    ensures r.Some? ==> r.value == user.value[EmailKey]
  {
    if user.Some? && EmailKey in user.value && user.value[EmailKey] != "" then Some(user.value[EmailKey])
    else None
  }

  /** `useAuthSync`: load for a signed-in user with an email, clear otherwise. */
  function SyncAction(isLoggedIn: bool, user: Option<AuthContext.User>): (a: FavouritesAction)
    ensures a != NoAction
    ensures a.LoadFavourites? <==> isLoggedIn && SignedInEmail(user).Some?
    ensures a.LoadFavourites? ==> a.email == user.value[EmailKey]
    ensures !isLoggedIn ==> a == ClearFavourites
  {
    if isLoggedIn && SignedInEmail(user).Some? then LoadFavourites(SignedInEmail(user).value)
    else ClearFavourites
  }

  /** After a successful login the hook loads the favourites of the email
      the user signed in with. */
  lemma LoginLoadsOwnFavourites(s: AuthContext.Session, data: AuthContext.User, now: string)
    requires EmailKey in data && data[EmailKey] != ""
    ensures var r := AuthContext.AfterLogin(s, data, now, true).0;
      SyncAction(r.isLoggedIn, r.user) == LoadFavourites(data[EmailKey])
  {
    var r := AuthContext.AfterLogin(s, data, now, true).0;
    assert EmailKey != AuthContext.LoginTimeKey;
    assert AuthContext.Stamped(r.user.value, data, AuthContext.LoginTimeKey, now);
  }

  /** After a logout the hook clears the favourites. */
  lemma LogoutClearsFavourites(s: AuthContext.Session)
    ensures var r := AuthContext.AfterLogout(s);
      SyncAction(r.isLoggedIn, r.user) == ClearFavourites
  {
  }
}
