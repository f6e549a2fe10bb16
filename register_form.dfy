/** The registration form: its ordered field checks and the register, login, store-token
    sequence. */
module RegisterForm {
  import opened Wrappers
  import opened JsStrings
  import opened Api
  import opened AuthContext

  const FillInAllFields := "Please fill in all fields"
  const PasswordsDiffer := "Passwords do not match"
  const PasswordTooShort := "Password must be at least 6 characters long"
  const RegistrationFallback := "Registration failed. Username may already exist."
  const MinPasswordLength := 6

  predicate Filled(s: string) {
    Truthy(Trim(s))
  }

  /** The checks of `handleSubmit`, first failure first: a blank field, then differing
      passwords, then a password shorter than six characters, counted before trimming.
      `None` lets the submit go ahead. */
  function Validate(username: string, password: string, confirm: string): (r: Option<string>)
    ensures r.None? <==>
      Filled(username) && Filled(password) && Filled(confirm) && password == confirm && |password| >= MinPasswordLength
    ensures !(Filled(username) && Filled(password) && Filled(confirm)) ==> r == Some(FillInAllFields)
    ensures Filled(username) && Filled(password) && Filled(confirm) && password != confirm ==>
      r == Some(PasswordsDiffer)
    ensures (Filled(username) && Filled(password) && Filled(confirm) && password == confirm
      && |password| < MinPasswordLength) ==> r == Some(PasswordTooShort)
  {
    if !Filled(username) || !Filled(password) || !Filled(confirm) then Some(FillInAllFields)
    else if password != confirm then Some(PasswordsDiffer)
    else if |password| < MinPasswordLength then Some(PasswordTooShort)
    else None
  }

  /** The length check counts surrounding spaces: " abcd " passes although only four
      characters remain after trimming, while six spaces fail as a blank field. */
  lemma LengthCheckIgnoresTrimming()
    ensures Validate("alice", " abcd ", " abcd ") == None
    ensures Validate("alice", "      ", "      ") == Some(FillInAllFields)
  {
    var p := " abcd ";
    assert !IsWhitespace(p[1]);
    assert !AllWhitespace(p);
    assert !AllWhitespace("alice") by { assert !IsWhitespace("alice"[0]); }
  }

  /** `err.message || fallback` */
  function ShownError(message: string): (e: string)
    ensures Truthy(e)
    ensures Truthy(message) ==> e == message
  {
    if Truthy(message) then message else RegistrationFallback
  }

  /** A non-ok register or login response whose body is JSON always carries a message, so
      the form's own fallback text only shows for a failure without a message. */
  lemma FallbackOnlyWithoutMessage<T>(resp: Response<T>, fallback: string)
    requires resp.HttpError? && resp.errorBody.ErrorJson? && Truthy(fallback)
    ensures ShownError(AuthCallOutcome(resp, fallback).error) == AuthCallOutcome(resp, fallback).error
  {
    AuthHttpFailureMessageNonEmpty(resp, fallback);
  }

  class Form {
    var username: string
    var password: string
    var confirmPassword: string
    var error: string
    var loading: bool

    constructor ()
      ensures username == "" && password == "" && confirmPassword == "" && error == "" && !loading
    {
      username, password, confirmPassword, error := "", "", "", "";
      loading := false;
    }

    /** `handleSubmit()`. The error is cleared first. A failed check sends nothing. Otherwise
        register is sent, then login only if register succeeded, and the token reaches the
        session only if both did; loading ends either way. */
    method HandleSubmit(api: ApiClient, auth: AuthProvider, registerResp: Response<()>, loginResp: Response<LoginReply>)
      requires api.storage == auth.storage
      modifies this, api, auth, auth.storage
      ensures username == old(username) && password == old(password) && confirmPassword == old(confirmPassword)
      ensures var v := Validate(old(username), old(password), old(confirmPassword));
        v.Some? ==>
          && error == v.value && loading == old(loading)
          && api.sent == old(api.sent) && auth.State() == old(auth.State())
      ensures var v := Validate(old(username), old(password), old(confirmPassword));
        var credentials := Credentials(old(username), old(password));
        var reg := Request(POST, RegisterPath, [ContentType], credentials);
        var log := Request(POST, LoginPath, [ContentType], credentials);
        var regOutcome := AuthCallOutcome(registerResp, RegistrationFailed);
        var logOutcome := AuthCallOutcome(loginResp, LoginFailed);
        v.None? ==>
          && !loading
          && (regOutcome.Err? ==>
                && api.sent == old(api.sent) + [reg]
                && error == ShownError(regOutcome.error)
                && auth.State() == old(auth.State()))
          && (regOutcome.Ok? && logOutcome.Err? ==>
                && api.sent == old(api.sent) + [reg, log]
                && error == ShownError(logOutcome.error)
                && auth.State() == old(auth.State()))
          && (regOutcome.Ok? && logOutcome.Ok? ==>
                && api.sent == old(api.sent) + [reg, log]
                && error == ""
                && auth.State() == LoggedIn(old(auth.State()), logOutcome.value.token))
    {
      error := "";
      var check := Validate(username, password, confirmPassword);
      if check.Some? {
        error := check.value;
        return;
      }
      loading := true;
      var registered := api.Register(username, password, registerResp);
      if registered.Err? {
        error := ShownError(registered.error);
      } else {
        var data := api.Login(username, password, loginResp);
        if data.Err? {
          error := ShownError(data.error);
        } else {
          auth.Login(data.value.token);
        }
      }
      loading := false;
    }
  }
}
