/** The sign-in / registration form: its validation chain, the user record
    it hands to the session, and its field, mode and submission state. */
module LoginRegister {
  import opened Wrappers
  import opened Text
  import AuthContext

  datatype FormData = FormData(email: string, password: string, name: string)

  /** The `name` attribute of the three inputs. */
  datatype Field = Email | Password | Name

  const EmptyForm: FormData := FormData("", "", "")

  const MissingFields: string := "Please fill in all required fields"
  const MissingName: string := "Please enter your name"
  const InvalidEmail: string := "Please enter a valid email address"
  const ShortPassword: string := "Password must be at least 3 characters long"
  const MinPasswordLength: nat := 3

  // ---------------------------------------------------------------------
  // Validation.
  // ---------------------------------------------------------------------

  /** `validateForm`: the first failing check's message, or None. */
  function ValidateForm(form: FormData, showLogin: bool): (r: Option<string>)
    ensures r.None? <==>
      && form.email != "" && form.password != ""
      && (showLogin || form.name != "")
      && '@' in form.email
      && |form.password| >= MinPasswordLength
    ensures form.email == "" || form.password == "" ==> r == Some(MissingFields)
    ensures r == Some(MissingName) <==>
      form.email != "" && form.password != "" && !showLogin && form.name == ""
    ensures r == Some(InvalidEmail) <==>
      form.email != "" && form.password != "" && (showLogin || form.name != "") && '@' !in form.email
    ensures r == Some(ShortPassword) <==>
      && form.email != "" && form.password != "" && (showLogin || form.name != "")
      && '@' in form.email && |form.password| < MinPasswordLength
  {
    if form.email == "" || form.password == "" then Some(MissingFields)
    else if !showLogin && form.name == "" then Some(MissingName)
    else if form.email != "" && '@' !in form.email then Some(InvalidEmail)
    else if form.password != "" && |form.password| < MinPasswordLength then Some(ShortPassword)
    else None
  }

  /** The four checks as independent (fails, message) pairs, in source order. */
  function Checks(form: FormData, showLogin: bool): seq<(bool, string)> {
    [ (form.email == "" || form.password == "", MissingFields),
      (!showLogin && form.name == "", MissingName),
      ('@' !in form.email, InvalidEmail),
      (|form.password| < MinPasswordLength, ShortPassword) ]
  }

  /** The message of the first failing check, or None. */
  function FirstFailure(checks: seq<(bool, string)>): (r: Option<string>)
    ensures r.None? <==> forall i :: 0 <= i < |checks| ==> !checks[i].0
    ensures r.Some? ==> exists i :: 0 <= i < |checks| && checks[i].0 && checks[i].1 == r.value
                                   && forall j :: 0 <= j < i ==> !checks[j].0
  {
    if checks == [] then None
    else if checks[0].0 then Some(checks[0].1)
    else
      var rest := FirstFailure(checks[1..]);
      assert forall i :: 1 <= i < |checks| ==> checks[i] == checks[1..][i - 1];
      rest
  }

  /** Validation is exactly "the first failing check in source order decides":
      the guards that repeat an earlier check change nothing. */
  lemma ValidateIsFirstFailure(form: FormData, showLogin: bool)
    ensures ValidateForm(form, showLogin) == FirstFailure(Checks(form, showLogin))
  {
    var c0 := Checks(form, showLogin);
    var c1 := c0[1..];
    var c2 := c1[1..];
    var c3 := c2[1..];
    assert FirstFailure(c3[1..]) == None;
    assert FirstFailure(c3) == if c3[0].0 then Some(c3[0].1) else None;
    assert FirstFailure(c2) == if c2[0].0 then Some(c2[0].1) else FirstFailure(c3);
    assert FirstFailure(c1) == if c1[0].0 then Some(c1[0].1) else FirstFailure(c2);
    assert FirstFailure(c0) == if c0[0].0 then Some(c0[0].1) else FirstFailure(c1);
  }

  // ---------------------------------------------------------------------
  // The record handed to the session.
  // ---------------------------------------------------------------------

  /** On login the name is the typed name, or else the email up to its first `@`. */
  function DisplayName(form: FormData): (r: string)
    ensures form.name != "" ==> r == form.name
    ensures form.name == "" ==> r <= form.email && '@' !in r
    ensures form.name == "" && '@' in form.email ==> r + "@" <= form.email
    ensures form.name == "" && '@' !in form.email ==> r == form.email
  {
    if form.name != "" then form.name
    else
      var r := BeforeFirst(form.email, '@');
      assert |r| == |form.email| ==> r == form.email;
      r
  }

  function LoginUserData(form: FormData): AuthContext.User {
    map["name" := DisplayName(form), "email" := form.email]
  }

  function RegisterUserData(form: FormData): AuthContext.User {
    map["name" := form.name, "email" := form.email]
  }

  /** A login that passes validation without a typed name signs in under the
      email's local part: the email is that name, an `@`, and the rest. */
  lemma LoginNameFromEmail(form: FormData)
    requires ValidateForm(form, true).None? && form.name == ""
    ensures LoginUserData(form)["email"] == form.email
    ensures exists rest :: form.email == LoginUserData(form)["name"] + "@" + rest
  {
    var n := DisplayName(form);
    assert LoginUserData(form)["name"] == n;
    assert form.email == n + "@" + form.email[|n| + 1..];
  }

  // ---------------------------------------------------------------------
  // Field updates.
  // ---------------------------------------------------------------------

  function FieldValue(form: FormData, f: Field): string {
    match f
    case Email => form.email
    case Password => form.password
    case Name => form.name
  }

  /** `handleInputChange`: the named field takes the value, the others stay. */
  function WithField(form: FormData, f: Field, value: string): (r: FormData)
    ensures FieldValue(r, f) == value
    ensures forall g :: g != f ==> FieldValue(r, g) == FieldValue(form, g)
  {
    match f
    case Email => form.(email := value)
    case Password => form.(password := value)
    case Name => form.(name := value)
  }

  /** A submission waiting on its 500 ms delay, with the record it will send. */
  datatype PendingSubmit = PendingLogin(userData: AuthContext.User) | PendingRegister(userData: AuthContext.User)

  class LoginForm {
    var showLogin: bool
    var form: FormData
    var isSubmitting: bool
    var pending: Option<PendingSubmit>

    /** A submission is in flight exactly while its delay is pending. */
    predicate Valid()
      reads this
    {
      isSubmitting <==> pending.Some?
    }

    constructor ()
      ensures Valid() && showLogin && form == EmptyForm && !isSubmitting
    {
      showLogin, form, isSubmitting, pending := true, EmptyForm, false, None;
    }

    method HandleInputChange(f: Field, value: string)
      modifies this
      ensures form == WithField(old(form), f, value)
      ensures showLogin == old(showLogin) && isSubmitting == old(isSubmitting) && pending == old(pending)
    {
      form := WithField(form, f, value);
    }

    /** The Login and Register tabs set the mode and keep what was typed. */
    method SelectMode(login: bool)
      modifies this
      ensures showLogin == login
      ensures form == old(form) && isSubmitting == old(isSubmitting) && pending == old(pending)
    {
      showLogin := login;
    }

    /** `handleToggleMode`: flip the mode and clear all three fields. */
    method HandleToggleMode()
      modifies this
      ensures showLogin == !old(showLogin) && form == EmptyForm
      ensures isSubmitting == old(isSubmitting) && pending == old(pending)
    {
      showLogin := !showLogin;
      form := EmptyForm;
    }

    /** Submitting the form (`handleLogin` or `handleRegister` by mode). A
        failed validation returns its message and changes nothing, so no
        login or registration can follow; otherwise the delay starts. The
        submit button and inputs are disabled while a submission is in
        flight, so a second submit cannot start one. */
    method Submit() returns (error: Option<string>)
      requires Valid() && !isSubmitting
      modifies this
      ensures Valid()
      ensures error == ValidateForm(old(form), old(showLogin))
      ensures error.Some? ==> unchanged(this)
      ensures error.None? ==> isSubmitting && form == old(form) && showLogin == old(showLogin)
      ensures error.None? && showLogin ==> pending == Some(PendingLogin(LoginUserData(form)))
      ensures error.None? && !showLogin ==> pending == Some(PendingRegister(RegisterUserData(form)))
    {
      error := ValidateForm(form, showLogin);
      if error.Some? {
        return;
      }
      isSubmitting := true;
      pending := Some(if showLogin then PendingLogin(LoginUserData(form)) else PendingRegister(RegisterUserData(form)));
    }

    /** The delay elapses: the pending record goes to `login` or `register`;
        on success the fields are cleared; either way submission ends. */
    method DelayElapsed(auth: AuthContext.AuthProvider, loginNow: string, registrationNow: string, writeOk: bool)
      returns (ok: bool)
      requires Valid() && pending.Some?
      modifies this, auth
      ensures Valid() && !isSubmitting && showLogin == old(showLogin)
      ensures form == if ok then EmptyForm else old(form)
      ensures old(pending).value.PendingLogin? ==>
        (auth.State(), ok) == AuthContext.AfterLogin(old(auth.State()), old(pending).value.userData, loginNow, writeOk)
      ensures old(pending).value.PendingRegister? ==>
        (auth.State(), ok) == AuthContext.AfterRegister(old(auth.State()), old(pending).value.userData,
                                                        loginNow, registrationNow, writeOk)
    {
      match pending.value {
        case PendingLogin(data) =>
          ok := auth.Login(data, loginNow, writeOk);
        case PendingRegister(data) =>
          ok := auth.Register(data, loginNow, registrationNow, writeOk);
      }
      if ok {
        form := EmptyForm;
      }
      isSubmitting := false;
      pending := None;
    }
  }
}
