/** The simulated sign-in session: the in-memory `isLoggedIn`, `user` and
    `loading` state plus the one persisted `"user"` slot of local storage.
    Every operation that persists writes storage first and only then updates
    memory, so a failed write leaves memory untouched. */
module AuthContext {
  import opened Wrappers

  /** A user record: field name to value, so that `{...a, ...b}` is `a + b`. */
  type User = map<string, string>

  /** What `localStorage.getItem("user")` holds when the key exists: the empty
      string (falsy, skipped), text that parses (to a user object or to
      `null`), or text that fails to parse. */
  datatype StoredUser = Blank | Json(user: Option<User>) | Corrupt

  datatype Session = Session(
    isLoggedIn: bool,
    user: Option<User>,
    loading: bool,
    stored: Option<StoredUser>)   // None: the "user" key is absent

  const LoginTimeKey: string := "loginTime"
  const RegistrationTimeKey: string := "registrationTime"

  /** The state before the startup effect has run. */
  function Initial(stored: Option<StoredUser>): Session {
    Session(false, None, true, stored)
  }

  /** Whenever there is a user in memory, storage holds exactly that user. */
  predicate Mirrored(s: Session) {
    s.user.Some? ==> s.stored == Some(Json(s.user))
  }

  /** `u` is `base` with `key` set to `value` and every other field kept. */
  predicate Stamped(u: User, base: User, key: string, value: string) {
    && u.Keys == base.Keys + {key}
    && u[key] == value
    && forall k :: k in base && k != key ==> u[k] == base[k]
  }

  /** The startup effect: a parseable stored value becomes the user and signs
      in; an unparseable one is removed; then loading ends. */
  function AfterRestore(s: Session): (r: Session)
    ensures !r.loading
    ensures s.stored.Some? && s.stored.value.Json? ==> r.isLoggedIn && r.user == s.stored.value.user
    ensures s.stored == Some(Corrupt) ==> r.stored.None?
    ensures s.stored != Some(Corrupt) ==> r.stored == s.stored
    ensures !(s.stored.Some? && s.stored.value.Json?) ==> r.isLoggedIn == s.isLoggedIn && r.user == s.user
  {
    var restored :=
      match s.stored
      case Some(Json(u)) => s.(user := u, isLoggedIn := true)
      case Some(Corrupt) => s.(stored := None)
      case _ => s;
    restored.(loading := false)
  }

  /** `login`: on a successful write the stored and in-memory user are the
      input plus `loginTime`, and the session is signed in. */
  function AfterLogin(s: Session, userData: User, now: string, writeOk: bool): (r: (Session, bool))
    ensures r.1 == writeOk
    ensures !writeOk ==> r.0 == s
    ensures writeOk ==> r.0.isLoggedIn && r.0.loading == s.loading
    ensures writeOk ==> r.0.user.Some? && Stamped(r.0.user.value, userData, LoginTimeKey, now)
    ensures writeOk ==> r.0.stored == Some(Json(r.0.user))
  {
    if !writeOk then (s, false)
    else
      var u := userData[LoginTimeKey := now];
      (s.(stored := Some(Json(Some(u))), user := Some(u), isLoggedIn := true), true)
  }

  /** `register`: as `login`, with both `loginTime` and `registrationTime`. */
  function AfterRegister(s: Session, userData: User, loginNow: string, registrationNow: string, writeOk: bool)
    : (r: (Session, bool))
    ensures r.1 == writeOk
    ensures !writeOk ==> r.0 == s
    ensures writeOk ==> r.0.isLoggedIn && r.0.loading == s.loading
    ensures writeOk ==> r.0.user.Some?
    ensures writeOk ==> Stamped(r.0.user.value, userData[LoginTimeKey := loginNow],
                                RegistrationTimeKey, registrationNow)
    ensures writeOk ==> r.0.stored == Some(Json(r.0.user))
  {
    if !writeOk then (s, false)
    else
      var u := userData[LoginTimeKey := loginNow][RegistrationTimeKey := registrationNow];
      (s.(stored := Some(Json(Some(u))), user := Some(u), isLoggedIn := true), true)
  }

  /** `logout`: the key is removed and the session is signed out. */
  function AfterLogout(s: Session): (r: Session)
    ensures r.stored.None? && r.user.None? && !r.isLoggedIn
    ensures r.loading == s.loading
  {
    s.(stored := None, user := None, isLoggedIn := false)
  }

  /** `updateUser`: the old user's fields overridden by the given ones (a
      `null` user spreads as no fields), persisted; `isLoggedIn` untouched. */
  function AfterUpdate(s: Session, updatedData: User, writeOk: bool): (r: (Session, bool))
    ensures r.1 == writeOk
    ensures !writeOk ==> r.0 == s
    ensures r.0.isLoggedIn == s.isLoggedIn && r.0.loading == s.loading
    ensures writeOk ==> r.0.user.Some? && r.0.stored == Some(Json(r.0.user))
    ensures writeOk ==> r.0.user.value.Keys == updatedData.Keys + (if s.user.Some? then s.user.value.Keys else {})
    ensures writeOk ==> forall k :: k in updatedData ==> r.0.user.value[k] == updatedData[k]
    ensures writeOk && s.user.Some? ==>
      forall k :: k in s.user.value && k !in updatedData ==> r.0.user.value[k] == s.user.value[k]
  {
    if !writeOk then (s, false)
    else
      var base: User := if s.user.Some? then s.user.value else map[];
      var u := base + updatedData;
      (s.(stored := Some(Json(Some(u))), user := Some(u)), true)
  }

  // ---------------------------------------------------------------------
  // Properties across operations.
  // ---------------------------------------------------------------------

  /** Startup never leaves the app loading, whatever storage held. */
  lemma StartupEndsLoading(stored: Option<StoredUser>)
    ensures !AfterRestore(Initial(stored)).loading
    ensures stored == Some(Corrupt) ==> AfterRestore(Initial(stored)) == Session(false, None, false, None)
    ensures stored.None? || stored == Some(Blank) ==>
      AfterRestore(Initial(stored)) == Session(false, None, false, stored)
  {
  }

  /** Every operation keeps storage a mirror of the in-memory user. */
  lemma MirroredPreserved(s: Session, data: User, t1: string, t2: string, writeOk: bool)
    requires Mirrored(s)
    ensures Mirrored(AfterRestore(s))
    ensures Mirrored(AfterLogin(s, data, t1, writeOk).0)
    ensures Mirrored(AfterRegister(s, data, t1, t2, writeOk).0)
    ensures Mirrored(AfterLogout(s))
    ensures Mirrored(AfterUpdate(s, data, writeOk).0)
  {
  }

  /** A reload restores the signed-in user: starting over from what storage
      holds gives back the same user, signed in. */
  lemma ReloadRestoresUser(s: Session)
    requires Mirrored(s) && s.user.Some?
    ensures AfterRestore(Initial(s.stored)).isLoggedIn
    ensures AfterRestore(Initial(s.stored)).user == s.user
  {
  }

  /** After a successful login, a reload signs the same user back in. */
  lemma LoginSurvivesReload(s: Session, data: User, now: string)
    ensures AfterRestore(Initial(AfterLogin(s, data, now, true).0.stored)).user
         == AfterLogin(s, data, now, true).0.user
    ensures AfterRestore(Initial(AfterLogin(s, data, now, true).0.stored)).isLoggedIn
  {
  }

  /** After logout, a reload stays signed out. */
  lemma LogoutSurvivesReload(s: Session)
    ensures !AfterRestore(Initial(AfterLogout(s).stored)).isLoggedIn
    ensures AfterRestore(Initial(AfterLogout(s).stored)).user.None?
  {
  }

  /** `isLoggedIn` and the presence of a user are not tied together: a stored
      literal `null` signs in with no user, and an update after logout leaves
      a user in memory while signed out. */
  lemma LoggedInWithoutUser()
    ensures AfterRestore(Initial(Some(Json(None)))).isLoggedIn
    ensures AfterRestore(Initial(Some(Json(None)))).user.None?
  {
  }

  lemma UserWithoutLogin(s: Session, data: User)
    ensures !AfterUpdate(AfterLogout(s), data, true).0.isLoggedIn
    ensures AfterUpdate(AfterLogout(s), data, true).0.user == Some(data)
  {
    assert map[] + data == data;
  }

  // ---------------------------------------------------------------------
  // The provider component: the same operations as in-place updates.
  // ---------------------------------------------------------------------

  class AuthProvider {
    var isLoggedIn: bool
    var user: Option<User>
    var loading: bool
    var stored: Option<StoredUser>   // the "user" key of local storage

    function State(): Session
      reads this
    {
      Session(isLoggedIn, user, loading, stored)
    }

    constructor (storage: Option<StoredUser>)
      ensures State() == Initial(storage)
    {
      isLoggedIn, user, loading, stored := false, None, true, storage;
    }

    /** The startup effect. */
    method Restore()
      modifies this
      ensures State() == AfterRestore(old(State()))
    {
      if stored.Some? {
        match stored.value
        case Json(u) =>
          user := u;
          isLoggedIn := true;
        case Corrupt =>
          stored := None;
        case Blank =>
      }
      loading := false;
    }

    method Login(userData: User, now: string, writeOk: bool) returns (ok: bool)
      modifies this
      ensures (State(), ok) == AfterLogin(old(State()), userData, now, writeOk)
    {
      var u := userData[LoginTimeKey := now];
      if !writeOk {
        return false;
      }
      stored := Some(Json(Some(u)));
      user := Some(u);
      isLoggedIn := true;
      return true;
    }

    method Register(userData: User, loginNow: string, registrationNow: string, writeOk: bool)
      returns (ok: bool)
      modifies this
      ensures (State(), ok) == AfterRegister(old(State()), userData, loginNow, registrationNow, writeOk)
    {
      var u := userData[LoginTimeKey := loginNow][RegistrationTimeKey := registrationNow];
      if !writeOk {
        return false;
      }
      stored := Some(Json(Some(u)));
      user := Some(u);
      isLoggedIn := true;
      return true;
    }

    method Logout()
      modifies this
      ensures State() == AfterLogout(old(State()))
    {
      stored := None;
      user := None;
      isLoggedIn := false;
    }

    method UpdateUser(updatedData: User, writeOk: bool) returns (ok: bool)
      modifies this
      ensures (State(), ok) == AfterUpdate(old(State()), updatedData, writeOk)
    {
      var base: User := if user.Some? then user.value else map[];
      var u := base + updatedData;
      if !writeOk {
        return false;
      }
      stored := Some(Json(Some(u)));
      user := Some(u);
      return true;
    }
  }
}
