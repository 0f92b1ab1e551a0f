/** The profile page: its own favourites-sync effect, which unlike the hook
    holds back the clear while the session is still loading, and its three
    render branches. */
module Profile {
  import opened Wrappers
  import AuthContext
  import opened AuthSync

  /** The effect: load for a signed-in user with an email; otherwise clear,
      but only once loading has finished. */
  function ProfileSyncAction(isLoggedIn: bool, user: Option<AuthContext.User>, loading: bool)
    : (a: FavouritesAction)
    ensures a.LoadFavourites? <==> isLoggedIn && SignedInEmail(user).Some?
    ensures a.LoadFavourites? ==> a.email == user.value[EmailKey]
    ensures a == ClearFavourites <==> !loading && !(isLoggedIn && SignedInEmail(user).Some?)
    ensures a == NoAction <==> loading && !(isLoggedIn && SignedInEmail(user).Some?)
  {
    if isLoggedIn && SignedInEmail(user).Some? then LoadFavourites(SignedInEmail(user).value)
    else if !loading then ClearFavourites
    else NoAction
  }

  /** Once loading has finished the page and the hook make the same choice;
      they differ only while loading, where the page holds back the clear. */
  lemma ProfileAgreesWithHookAfterLoading(isLoggedIn: bool, user: Option<AuthContext.User>, loading: bool)
    ensures !loading ==> ProfileSyncAction(isLoggedIn, user, loading) == SyncAction(isLoggedIn, user)
    ensures loading && SyncAction(isLoggedIn, user) == ClearFavourites ==>
      ProfileSyncAction(isLoggedIn, user, loading) == NoAction
  {
  }

  /** The render branches. The page shows the user's name and email and the
      number of favourites. */
  datatype ProfileView =
    | Spinner
    | LoginRegisterForm
    | ProfilePage(name: Option<string>, email: Option<string>, favouriteCount: nat)

  function Field(user: Option<AuthContext.User>, key: string): (r: Option<string>)
    ensures r.Some? <==> user.Some? && key in user.value
    ensures r.Some? ==> r.value == user.value[key]
  {
    if user.Some? && key in user.value then Some(user.value[key]) else None
  }

  function ProfileRender<M>(loading: bool, isLoggedIn: bool, user: Option<AuthContext.User>, favourites: seq<M>)
    : (v: ProfileView)
    ensures v == Spinner <==> loading
    ensures v == LoginRegisterForm <==> !loading && !isLoggedIn
    ensures v.ProfilePage? <==> !loading && isLoggedIn
    ensures v.ProfilePage? ==>
      && v.favouriteCount == |favourites|
      && v.name == Field(user, "name") && v.email == Field(user, EmailKey)
  {
    if loading then Spinner
    else if !isLoggedIn then LoginRegisterForm
    else ProfilePage(Field(user, "name"), Field(user, EmailKey), |favourites|)
  }

  /** The page never stays on the spinner after the startup restore, whatever
      storage held: it shows the form or the profile. */
  lemma NoSpinnerAfterStartup<M>(stored: Option<AuthContext.StoredUser>, favourites: seq<M>)
    ensures var s := AuthContext.AfterRestore(AuthContext.Initial(stored));
      ProfileRender(s.loading, s.isLoggedIn, s.user, favourites) != Spinner
  {
    AuthContext.StartupEndsLoading(stored);
  }
}
