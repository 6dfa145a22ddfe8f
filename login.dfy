/** The login screen: a phone and password checked on the client, posted,
    and on success the user record and token kept in local storage. */
module Login {
  import opened Js
  import opened Text
  import opened Catalog
  import opened Browser

  const PhoneRequired := "Phone number is required"
  const InvalidPhone := "Please enter a valid phone number (10-15 digits)"
  const PasswordRequired := "Password is required"

  const InvalidCredentials := "Invalid phone number or password"
  const TooManyAttempts := "Too many attempts. Please try again later."
  const ServerError := "Server error. Please try again later."
  const LoginFailedDefault := "Login failed. Please try again."

  // ---------------------------------------------------------------------
  // The phone pattern ^[0-9]{10,15}$

  /** `/^[0-9]{10,15}$/.test(phone)`: ten to fifteen ASCII digits. */
  predicate IsLoginPhone(phone: string)
  {
    10 <= |phone| <= 15 && AllDigits(phone)
  }

  /** `[0-9]` repeated exactly `n` times. */
  function DigitRun(n: nat): (p: seq<CharClass>)
    ensures |p| == n
    ensures forall i :: 0 <= i < n ==> p[i] == Digit
  {
    seq(n, _ => Digit)
  }

  /** The bounded repetition is the union of its fixed-length patterns: the
      test accepts a phone exactly when one run of ten to fifteen digits
      matches it. */
  lemma LoginPhoneIsRepetition(phone: string)
    ensures IsLoginPhone(phone) <==> exists n :: 10 <= n <= 15 && MatchesPattern(DigitRun(n), phone)
  {
    MatchesPatternIff(DigitRun(|phone|), phone);
    if IsLoginPhone(phone) {
      assert MatchesPattern(DigitRun(|phone|), phone);
    }
    forall n | 10 <= n <= 15 && MatchesPattern(DigitRun(n), phone)
      ensures IsLoginPhone(phone)
    {
      MatchesPatternIff(DigitRun(n), phone);
    }
  }

  // ---------------------------------------------------------------------
  // Validation

  datatype LoginField = PhoneField | PasswordField

  datatype LoginForm = LoginForm(phone: string, password: string)

  const EmptyForm := LoginForm("", "")

  /** The `errors` object of the screen: a key per field, absent (None) or
      holding a message. */
  datatype LoginErrors = LoginErrors(phone: Option<string>, password: Option<string>)
  {
    /** `Object.keys(errors).length === 0`. */
    predicate NoKeys()
    {
      phone.None? && password.None?
    }

    function Get(field: LoginField): Option<string>
    {
      match field
      case PhoneField => phone
      case PasswordField => password
    }

    /** `if (errors[name]) setErrors({...errors, [name]: ""})`. */
    function Cleared(field: LoginField): (r: LoginErrors)
      ensures !Shown(r.Get(field))
      ensures r.Get(field).Some? <==> Get(field).Some?
      ensures forall other :: other != field ==> r.Get(other) == Get(other)
    {
      match field
      case PhoneField => this.(phone := ClearedMessage(phone))
      case PasswordField => this.(password := ClearedMessage(password))
    }
  }

  const NoErrors := LoginErrors(None, None)

  /** `newErrors` as `validateForm` builds it: the phone is reported when it
      is missing or not ten to fifteen digits, the password when it is
      missing. */
  function ValidationErrors(f: LoginForm): (r: LoginErrors)
    ensures r.phone.Some? <==> !IsLoginPhone(f.phone)
    ensures r.phone == Some(PhoneRequired) <==> f.phone == ""
    ensures r.phone.Some? && f.phone != "" ==> r.phone == Some(InvalidPhone)
    ensures r.password.Some? <==> f.password == ""
    ensures r.password.Some? ==> r.password == Some(PasswordRequired)
  {
    LoginErrors(
      if f.phone == "" then Some(PhoneRequired)
      else if !IsLoginPhone(f.phone) then Some(InvalidPhone)
      else None,
      if f.password == "" then Some(PasswordRequired) else None)
  }

  /** The body of `validateForm`: `newErrors` filled in rule by rule. */
  method BuildErrors(f: LoginForm) returns (newErrors: LoginErrors)
    ensures newErrors == ValidationErrors(f)
  {
    newErrors := NoErrors;
    if f.phone == "" {
      newErrors := newErrors.(phone := Some(PhoneRequired));
    } else if !IsLoginPhone(f.phone) {
      newErrors := newErrors.(phone := Some(InvalidPhone));
    }
    if f.password == "" {
      newErrors := newErrors.(password := Some(PasswordRequired));
    }
  }

  /** `validateForm()` is true exactly for a phone of ten to fifteen digits
      and a password that is not empty. */
  lemma ValidIff(f: LoginForm)
    ensures ValidationErrors(f).NoKeys() <==> IsLoginPhone(f.phone) && f.password != ""
  {
  }

  // ---------------------------------------------------------------------
  // Submission

  /** The multipart body posted to the login endpoint. */
  datatype Credentials = Credentials(phone: string, password: string)

  /** The fields of a successful reply the screen reads; each may be
      missing. */
  datatype LoginReply = LoginReply(
    userId: Option<int>,
    name: Option<string>,
    email: Option<string>,
    phone: Option<string>,
    token: Option<string>)

  datatype LoginOutcome = LoggedIn(reply: LoginReply) | LoginFailed(failure: RequestFailure)

  /** `userData`: the reply's fields under the screen's names, the token
      defaulting to the empty string. */
  function UserFromReply(reply: LoginReply): (u: UserData)
    ensures u.id == reply.userId && u.name == reply.name
    ensures u.email == reply.email && u.phone == reply.phone
    ensures u.token == reply.token.GetOr("")
  {
    UserData(reply.userId, reply.name, reply.email, reply.phone, Or(reply.token, ""))
  }

  /** The catch block: fixed messages for 401, 429 and 500, the server's
      `error` (or the default) for any other status, the network message
      when no answer came. */
  function FailureMessage(failure: RequestFailure): (r: string)
    ensures r != ""
    ensures failure.ServerReplied? && failure.status == 401 ==> r == InvalidCredentials
    ensures failure.ServerReplied? && failure.status == 429 ==> r == TooManyAttempts
    ensures failure.ServerReplied? && failure.status == 500 ==> r == ServerError
    ensures failure.ServerReplied? && failure.status !in {401, 429, 500} ==>
              r == Or(failure.error, LoginFailedDefault)
    ensures failure == NoReply ==> r == NetworkMessage
    ensures failure == NotSent ==> r == LoginFailedDefault
  {
    match failure
    case ServerReplied(status, error) =>
      if status == 401 then InvalidCredentials
      else if status == 429 then TooManyAttempts
      else if status == 500 then ServerError
      else Or(error, LoginFailedDefault)
    case NoReply => NetworkMessage
    case NotSent => LoginFailedDefault
  }

  /** The screen's state together with what it leaves behind: the requests
      sent, local storage, the users handed to `onLoginSuccess` (when the
      parent passed one), and the page navigated to. */
  datatype LoginState = LoginState(
    form: LoginForm,
    errors: LoginErrors,
    apiError: string,
    isSubmitting: bool,
    sent: seq<Credentials>,
    storage: Storage,
    hasCallback: bool,
    notified: seq<UserData>,
    route: Option<string>)

  function Initial(storage: Storage, hasCallback: bool): LoginState
  {
    LoginState(EmptyForm, NoErrors, "", false, [], storage, hasCallback, [], None)
  }

  function SetField(f: LoginForm, field: LoginField, value: string): LoginForm
  {
    match field
    case PhoneField => f.(phone := value)
    case PasswordField => f.(password := value)
  }

  /** `handleChange`: the field takes the value and its message is blanked;
      the other field and its message stay. */
  function Edit(s: LoginState, field: LoginField, value: string): (t: LoginState)
    ensures t.errors == s.errors.Cleared(field) && !Shown(t.errors.Get(field))
    ensures t.form == SetField(s.form, field, value)
    ensures t == s.(form := t.form, errors := t.errors)
  {
    s.(form := SetField(s.form, field, value), errors := s.errors.Cleared(field))
  }

  /** The local storage after a successful login: the user record as JSON
      and its token as text. */
  function SaveSession(storage: Storage, u: UserData): (r: Storage)
    ensures r.Keys == storage.Keys + {UserKey, TokenKey}
    ensures r[UserKey] == UserJson(u) && r[TokenKey] == Text(u.token)
    ensures forall k :: k in storage && k != UserKey && k != TokenKey ==> r[k] == storage[k]
  {
    storage[UserKey := UserJson(u)][TokenKey := Text(u.token)]
  }

  /** The `try`/`catch`/`finally` of `handleSubmit` for a valid form. */
  function Post(s: LoginState, outcome: LoginOutcome): (t: LoginState)
    requires s.apiError == ""
    ensures t.form == s.form && t.errors == s.errors && !t.isSubmitting
    ensures t.sent == s.sent + [Credentials(s.form.phone, s.form.password)]
    ensures t.hasCallback == s.hasCallback
    ensures outcome.LoggedIn? ==>
              && t.apiError == ""
              && t.storage == SaveSession(s.storage, UserFromReply(outcome.reply))
              && t.notified == s.notified + (if s.hasCallback then [UserFromReply(outcome.reply)] else [])
              && t.route == Some(HomePath)
    ensures outcome.LoginFailed? ==>
              && t.apiError == FailureMessage(outcome.failure)
              && t.storage == s.storage && t.notified == s.notified && t.route == s.route
  {
    var posted := s.(sent := s.sent + [Credentials(s.form.phone, s.form.password)], isSubmitting := false);
    match outcome
    case LoggedIn(reply) =>
      var u := UserFromReply(reply);
      posted.(
        storage := SaveSession(s.storage, u),
        notified := s.notified + (if s.hasCallback then [u] else []),
        route := Some(HomePath))
    case LoginFailed(failure) => posted.(apiError := FailureMessage(failure))
  }

  /** `handleSubmit` with the outcome of the request as input. */
  function Submit(s: LoginState, outcome: LoginOutcome): (t: LoginState)
    ensures t.form == s.form && t.errors == ValidationErrors(s.form)
    ensures !ValidationErrors(s.form).NoKeys() ==> t == s.(apiError := "", errors := t.errors)
    ensures ValidationErrors(s.form).NoKeys() ==> t == Post(s.(apiError := "", errors := t.errors), outcome)
  {
    var errors := ValidationErrors(s.form);
    var cleared := s.(apiError := "", errors := errors);
    if !errors.NoKeys() then cleared else Post(cleared, outcome)
  }

  /** A phone that is not ten to fifteen digits is never sent, and nothing
      is stored and no page is opened. */
  lemma BadPhoneNeverSent(s: LoginState, outcome: LoginOutcome)
    requires !IsLoginPhone(s.form.phone)
    ensures Submit(s, outcome).sent == s.sent
    ensures Submit(s, outcome).storage == s.storage
    ensures Submit(s, outcome).route == s.route
  {
  }

  /** After a successful login the stored token and the token inside the
      stored user record are both the reply's token, or the empty string
      when the reply has none. */
  lemma StoredTokenIsReplyToken(s: LoginState, reply: LoginReply)
    requires IsLoginPhone(s.form.phone) && s.form.password != ""
    ensures Submit(s, LoggedIn(reply)).storage[TokenKey] == Text(reply.token.GetOr(""))
    ensures Submit(s, LoggedIn(reply)).storage[UserKey].user.token == reply.token.GetOr("")
    ensures !Submit(s, LoggedIn(reply)).isSubmitting
  {
    ValidIff(s.form);
  }

  /** A failed login leaves the session as it was and shows a message. */
  lemma FailedLoginKeepsSession(s: LoginState, failure: RequestFailure)
    ensures Submit(s, LoginFailed(failure)).storage == s.storage
    ensures Submit(s, LoginFailed(failure)).route == s.route
    ensures ValidationErrors(s.form).NoKeys() ==> Submit(s, LoginFailed(failure)).apiError != ""
  {
  }

  class LoginScreen {
    var form: LoginForm
    var errors: LoginErrors
    var apiError: string
    var isSubmitting: bool
    var sent: seq<Credentials>
    var storage: Storage
    const hasCallback: bool
    var notified: seq<UserData>
    var route: Option<string>

    function State(): LoginState
      reads this
    {
      LoginState(form, errors, apiError, isSubmitting, sent, storage, hasCallback, notified, route)
    }

    /** The screen over the browser's storage, with or without an
        `onLoginSuccess` handler. */
    constructor (initialStorage: Storage, withCallback: bool)
      ensures State() == Initial(initialStorage, withCallback)
    {
      form, errors, apiError, isSubmitting := EmptyForm, NoErrors, "", false;
      sent, storage, hasCallback, notified, route := [], initialStorage, withCallback, [], None;
    }

    method Validate() returns (valid: bool)
      modifies this
      ensures State() == old(State()).(errors := ValidationErrors(form))
      ensures valid <==> IsLoginPhone(form.phone) && form.password != ""
    {
      var newErrors := BuildErrors(form);
      errors := newErrors;
      valid := newErrors.NoKeys();
    }

    method Change(field: LoginField, value: string)
      modifies this
      ensures State() == Edit(old(State()), field, value)
    {
      form := SetField(form, field, value);
      if Shown(errors.Get(field)) {
        errors := errors.Cleared(field);
      }
    }

    method HandleSubmit(outcome: LoginOutcome)
      modifies this
      ensures State() == Submit(old(State()), outcome)
    {
      apiError := "";
      var valid := Validate();
      if valid {
        Send(outcome);
      }
    }

    /** The request of a valid form and what its outcome sets. */
    method Send(outcome: LoginOutcome)
      requires apiError == ""
      modifies this
      ensures State() == Post(old(State()), outcome)
    {
      isSubmitting := true;
      sent := sent + [Credentials(form.phone, form.password)];
      match outcome {
        case LoggedIn(reply) =>
          var userData := UserData(reply.userId, reply.name, reply.email, reply.phone, Or(reply.token, ""));
          storage := storage[UserKey := UserJson(userData)];
          storage := storage[TokenKey := Text(userData.token)];
          if hasCallback {
            notified := notified + [userData];
          }
          route := Some(HomePath);
        case LoginFailed(failure) =>
          var errorMessage := LoginFailedDefault;
          if failure.ServerReplied? {
            if failure.status == 401 {
              errorMessage := InvalidCredentials;
            } else if failure.status == 429 {
              errorMessage := TooManyAttempts;
            } else if failure.status == 500 {
              errorMessage := ServerError;
            } else {
              errorMessage := Or(failure.error, errorMessage);
            }
          } else if failure.NoReply? {
            errorMessage := NetworkMessage;
          }
          apiError := errorMessage;
      }
      isSubmitting := false;
    }
  }
}
