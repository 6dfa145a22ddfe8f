/** The registration form: field-by-field validation into an error map,
    the clearing of a field's error on edit, and the messages a submission
    ends with. */
module Register {
  import opened Js
  import opened Text
  import opened Catalog
  import opened Browser

  const NameRequired := "Full name is required"
  const InvalidEmail := "Please enter a valid email address"
  const PhoneRequired := "Phone number is required"
  const PasswordRequired := "Password is required"
  const PasswordTooShort := "Password must be at least 8 characters"
  const PasswordsDiffer := "Passwords do not match"
  const RegisteredDefault := "Registration successful!"
  const RegisterFailedDefault := "Registration failed. Please try again."
  const MinPasswordLength := 8

  // ---------------------------------------------------------------------
  // The email pattern ^[^\s@]+@[^\s@]+\.[^\s@]+$

  /** `[^\s@]`: neither white space nor '@'. */
  predicate EmailChar(c: char)
  {
    !IsSpace(c) && c != '@'
  }

  predicate EmailChars(s: string)
  {
    forall i :: 0 <= i < |s| ==> EmailChar(s[i])
  }

  /** The position of the first '@', or the length when there is none. */
  function FirstAt(s: string): (i: nat)
    ensures i <= |s|
    ensures i < |s| ==> s[i] == '@'
    ensures forall j :: 0 <= j < i ==> s[j] != '@'
  {
    if s == [] then 0
    else if s[0] == '@' then 0
    else 1 + FirstAt(s[1..])
  }

  /** The part after the '@': pattern characters only, with a '.' that has
      at least one character on each side. */
  predicate DomainWithDot(d: string)
  {
    |d| >= 3 && EmailChars(d) && '.' in d[1..|d| - 1]
  }

  /** The test the form runs: the first '@' splits the address into a
      non-empty local part and a domain with an inner dot. A second '@'
      would have to sit in the domain, where no '@' may be. */
  predicate IsEmail(s: string)
  {
    var i := FirstAt(s);
    0 < i < |s| && EmailChars(s[..i]) && DomainWithDot(s[i + 1..])
  }

  /** The pattern read as a grammar: three non-empty runs of pattern
      characters joined by '@' and '.'. */
  ghost predicate EmailShape(s: string)
  {
    exists local, domain, tld ::
      && local != [] && domain != [] && tld != []
      && EmailChars(local) && EmailChars(domain) && EmailChars(tld)
      && s == local + "@" + domain + "." + tld
  }

  /** Every address the test accepts has the shape of the pattern. */
  lemma EmailTestSound(s: string)
    requires IsEmail(s)
    ensures EmailShape(s)
  {
    var i := FirstAt(s);
    var d := s[i + 1..];
    var inner := d[1..|d| - 1];
    var m :| 0 <= m < |inner| && inner[m] == '.';
    var k := m + 1;
    assert d[k] == '.';
    var local, domain, tld := s[..i], d[..k], d[k + 1..];
    assert d == domain + "." + tld;
    assert s == local + "@" + d;
    assert EmailChars(domain) by {
      assert forall j :: 0 <= j < |domain| ==> domain[j] == d[j];
    }
    assert EmailChars(tld) by {
      assert forall j :: 0 <= j < |tld| ==> tld[j] == d[k + 1 + j];
    }
    assert local != [] && domain != [] && tld != [];
    assert s == local + "@" + domain + "." + tld;
  }

  /** Every address of the pattern's shape passes the test. */
  lemma EmailTestComplete(s: string, local: string, domain: string, tld: string)
    requires local != [] && domain != [] && tld != []
    requires EmailChars(local) && EmailChars(domain) && EmailChars(tld)
    requires s == local + "@" + domain + "." + tld
    ensures IsEmail(s)
  {
    var d := domain + "." + tld;
    assert s == local + "@" + d;
    FirstAtAfterLocal(local, d);
    DomainJoined(domain, tld);
    assert s[..|local|] == local && s[|local| + 1..] == d;
  }

  /** The first '@' of `local@rest` is the one after `local` when `local`
      has none. */
  lemma FirstAtAfterLocal(local: string, rest: string)
    requires EmailChars(local)
    ensures FirstAt(local + "@" + rest) == |local|
  {
    var s := local + "@" + rest;
    assert s[|local|] == '@';
    assert forall j :: 0 <= j < |local| ==> s[j] == local[j];
  }

  /** `domain.tld` is a domain with an inner dot. */
  lemma DomainJoined(domain: string, tld: string)
    requires domain != [] && tld != []
    requires EmailChars(domain) && EmailChars(tld)
    ensures DomainWithDot(domain + "." + tld)
  {
    var d := domain + "." + tld;
    assert d[1..|d| - 1][|domain| - 1] == '.';
    forall j | 0 <= j < |d|
      ensures EmailChar(d[j])
    {
      if j < |domain| {
        assert d[j] == domain[j];
      } else if j > |domain| {
        assert d[j] == tld[j - |domain| - 1];
      }
    }
  }

  /** The test and the grammar accept the same addresses. */
  lemma IsEmailIff(s: string)
    ensures IsEmail(s) <==> EmailShape(s)
  {
    if IsEmail(s) {
      EmailTestSound(s);
    }
    if EmailShape(s) {
      var local, domain, tld :|
        && local != [] && domain != [] && tld != []
        && EmailChars(local) && EmailChars(domain) && EmailChars(tld)
        && s == local + "@" + domain + "." + tld;
      EmailTestComplete(s, local, domain, tld);
    }
  }

  /** An address with white space in it is refused. */
  lemma EmailRejectsSpace(s: string, j: int)
    requires 0 <= j < |s| && IsSpace(s[j])
    ensures !IsEmail(s)
  {
    var i := FirstAt(s);
    if j < i {
      assert s[..i][j] == s[j];
    } else if i < j < |s| {
      assert s[i + 1..][j - i - 1] == s[j];
    }
  }

  /** An address with a second '@' is refused. */
  lemma EmailRejectsSecondAt(s: string, j: int)
    requires FirstAt(s) < j < |s| && s[j] == '@'
    ensures !IsEmail(s)
  {
    var i := FirstAt(s);
    assert s[i + 1..][j - i - 1] == s[j];
  }

  // ---------------------------------------------------------------------
  // Validation

  datatype RegisterField = Name | Email | Phone | Password | ConfirmPassword

  datatype RegisterForm = RegisterForm(name: string, email: string, phone: string, password: string, confirmPassword: string)

  const EmptyForm := RegisterForm("", "", "", "", "")

  /** The `errors` object: each field's key is absent (None) or holds a
      message. An edit blanks a message but keeps its key. */
  datatype RegisterErrors = RegisterErrors(
    name: Option<string>,
    email: Option<string>,
    phone: Option<string>,
    password: Option<string>,
    confirmPassword: Option<string>)
  {
    /** `Object.keys(errors).length === 0`. */
    predicate NoKeys()
    {
      name.None? && email.None? && phone.None? && password.None? && confirmPassword.None?
    }

    function Get(field: RegisterField): Option<string>
    {
      match field
      case Name => name
      case Email => email
      case Phone => phone
      case Password => password
      case ConfirmPassword => confirmPassword
    }

    /** `if (errors[name]) setErrors({...errors, [name]: ""})`. */
    function Cleared(field: RegisterField): (r: RegisterErrors)
      ensures !Shown(r.Get(field))
      ensures r.Get(field).Some? <==> Get(field).Some?
      ensures forall other :: other != field ==> r.Get(other) == Get(other)
    {
      match field
      case Name => this.(name := ClearedMessage(name))
      case Email => this.(email := ClearedMessage(email))
      case Phone => this.(phone := ClearedMessage(phone))
      case Password => this.(password := ClearedMessage(password))
      case ConfirmPassword => this.(confirmPassword := ClearedMessage(confirmPassword))
    }
  }

  const NoErrors := RegisterErrors(None, None, None, None, None)

  /** `newErrors` as `validateForm` builds it: an entry exactly for each
      failing rule, with that rule's message. */
  function ValidationErrors(f: RegisterForm): (r: RegisterErrors)
    ensures r.name.Some? <==> IsBlank(f.name)
    ensures r.email.Some? <==> f.email != "" && !IsEmail(f.email)
    ensures r.phone.Some? <==> f.phone == ""
    ensures r.password.Some? <==> |f.password| < MinPasswordLength
    ensures r.confirmPassword.Some? <==> f.password != f.confirmPassword
    ensures r.name.Some? ==> r.name.value == NameRequired
    ensures r.email.Some? ==> r.email.value == InvalidEmail
    ensures r.phone.Some? ==> r.phone.value == PhoneRequired
    ensures r.password.Some? ==> r.password.value == if f.password == "" then PasswordRequired else PasswordTooShort
    ensures r.confirmPassword.Some? ==> r.confirmPassword.value == PasswordsDiffer
  {
    TrimEmptyIffBlank(f.name);
    RegisterErrors(
      if Trim(f.name) == "" then Some(NameRequired) else None,
      if f.email != "" && !IsEmail(f.email) then Some(InvalidEmail) else None,
      if f.phone == "" then Some(PhoneRequired) else None,
      if f.password == "" then Some(PasswordRequired)
      else if |f.password| < MinPasswordLength then Some(PasswordTooShort)
      else None,
      if f.password != f.confirmPassword then Some(PasswordsDiffer) else None)
  }

  /** The body of `validateForm`: `newErrors` filled in rule by rule. */
  method BuildErrors(f: RegisterForm) returns (newErrors: RegisterErrors)
    ensures newErrors == ValidationErrors(f)
  {
    newErrors := NoErrors;
    if Trim(f.name) == "" {
      newErrors := newErrors.(name := Some(NameRequired));
    }
    if f.email != "" && !IsEmail(f.email) {
      newErrors := newErrors.(email := Some(InvalidEmail));
    }
    if f.phone == "" {
      newErrors := newErrors.(phone := Some(PhoneRequired));
    }
    if f.password == "" {
      newErrors := newErrors.(password := Some(PasswordRequired));
    } else if |f.password| < MinPasswordLength {
      newErrors := newErrors.(password := Some(PasswordTooShort));
    }
    if f.password != f.confirmPassword {
      newErrors := newErrors.(confirmPassword := Some(PasswordsDiffer));
    }
  }

  /** A form that passes: a name that is not blank, an email that is empty
      or well formed, a phone, and a password of at least eight characters
      typed the same way twice. */
  predicate Acceptable(f: RegisterForm)
  {
    && !IsBlank(f.name)
    && (f.email == "" || IsEmail(f.email))
    && f.phone != ""
    && |f.password| >= MinPasswordLength
    && f.confirmPassword == f.password
  }

  /** `validateForm()` is true exactly for an acceptable form. */
  lemma ValidIff(f: RegisterForm)
    ensures ValidationErrors(f).NoKeys() <==> Acceptable(f)
  {
  }

  /** The confirmation is checked on its own: a mismatch is reported even
      when the password itself is already refused. */
  lemma MismatchReportedBesidePasswordError(f: RegisterForm)
    requires f.password == "" && f.confirmPassword != ""
    ensures ValidationErrors(f).password == Some(PasswordRequired)
    ensures ValidationErrors(f).confirmPassword == Some(PasswordsDiffer)
  {
  }

  // ---------------------------------------------------------------------
  // Submission

  /** The multipart body posted to the register endpoint; the confirmation
      is not sent. */
  datatype Registration = Registration(name: string, email: string, phone: string, password: string)

  datatype RegisterOutcome = Registered(message: Option<string>) | RegisterFailed(failure: RequestFailure)

  /** The catch block: the server's `error` or the default when it
      answered, the network message when nothing came back. */
  function FailureMessage(failure: RequestFailure): (r: string)
    ensures r != ""
    ensures failure.ServerReplied? ==> r == Or(failure.error, RegisterFailedDefault)
    ensures failure == NoReply ==> r == NetworkMessage
    ensures failure == NotSent ==> r == RegisterFailedDefault
  {
    match failure
    case ServerReplied(_, error) => Or(error, RegisterFailedDefault)
    case NoReply => NetworkMessage
    case NotSent => RegisterFailedDefault
  }

  datatype RegisterState = RegisterState(
    form: RegisterForm,
    errors: RegisterErrors,
    apiError: string,
    successMessage: string,
    isSubmitting: bool,
    sent: seq<Registration>,
    redirect: Option<string>)

  const Initial := RegisterState(EmptyForm, NoErrors, "", "", false, [], None)

  function SetField(f: RegisterForm, field: RegisterField, value: string): RegisterForm
  {
    match field
    case Name => f.(name := value)
    case Email => f.(email := value)
    case Phone => f.(phone := value)
    case Password => f.(password := value)
    case ConfirmPassword => f.(confirmPassword := value)
  }

  /** `handleChange`: the field takes the value and its message is blanked;
      the other fields and their messages stay. */
  function Edit(s: RegisterState, field: RegisterField, value: string): (t: RegisterState)
    ensures t.errors == s.errors.Cleared(field) && !Shown(t.errors.Get(field))
    ensures t.form == SetField(s.form, field, value)
    ensures t == s.(form := t.form, errors := t.errors)
  {
    s.(form := SetField(s.form, field, value), errors := s.errors.Cleared(field))
  }

  /** `handleSubmit` with the outcome as input: an invalid form stores its
      errors and sends nothing; a valid one is posted and ends in the
      server's message (and a scheduled move to the home page) or in the
      failure message. */
  function Submit(s: RegisterState, outcome: RegisterOutcome): (t: RegisterState)
    ensures t.form == s.form && t.errors == ValidationErrors(s.form)
    ensures t.apiError == "" || t.successMessage == ""
    ensures !Acceptable(s.form) ==>
              && t.sent == s.sent && t.apiError == "" && t.successMessage == ""
              && t.redirect == s.redirect && t.isSubmitting == s.isSubmitting
    ensures Acceptable(s.form) ==> !t.isSubmitting
    ensures Acceptable(s.form) ==>
              t.sent == s.sent + [Registration(s.form.name, s.form.email, s.form.phone, s.form.password)]
    ensures Acceptable(s.form) && outcome.Registered? ==>
              t.successMessage == Or(outcome.message, RegisteredDefault) && t.redirect == Some(HomePath)
    ensures Acceptable(s.form) && outcome.RegisterFailed? ==>
              t.apiError == FailureMessage(outcome.failure) && t.successMessage == "" && t.redirect == s.redirect
  {
    Conclude(Validated(s), outcome)
  }

  /** The first half of `handleSubmit`: both messages cleared and the
      form's errors stored. */
  function Validated(s: RegisterState): (t: RegisterState)
    ensures t.apiError == "" && t.successMessage == ""
    ensures t.errors.NoKeys() <==> Acceptable(s.form)
    ensures t == s.(apiError := "", successMessage := "", errors := ValidationErrors(s.form))
  {
    s.(apiError := "", successMessage := "", errors := ValidationErrors(s.form))
  }

  /** The second half: a form with errors stops there, one without is posted. */
  function Conclude(s: RegisterState, outcome: RegisterOutcome): (t: RegisterState)
    requires s.apiError == "" && s.successMessage == ""
    ensures t.form == s.form && t.errors == s.errors
    ensures s.errors.NoKeys() <==> t.sent == s.sent + [Registration(s.form.name, s.form.email, s.form.phone, s.form.password)]
    ensures !s.errors.NoKeys() ==> t.sent == s.sent && t.redirect == s.redirect && t.isSubmitting == s.isSubmitting
    ensures t.apiError == "" || t.successMessage == ""
    ensures t.redirect != s.redirect ==> s.errors.NoKeys() && outcome.Registered? && t.redirect == Some(HomePath)
  {
    if s.errors.NoKeys() then Post(s, outcome) else s
  }

  /** The `try`/`catch`/`finally` of `handleSubmit` for a valid form: the
      request is sent, the outcome sets one message, and the button is
      enabled again. */
  function Post(s: RegisterState, outcome: RegisterOutcome): (t: RegisterState)
    requires s.apiError == "" && s.successMessage == ""
    ensures t.form == s.form && t.errors == s.errors && !t.isSubmitting
    ensures t.sent == s.sent + [Registration(s.form.name, s.form.email, s.form.phone, s.form.password)]
    ensures t.apiError == "" || t.successMessage == ""
    ensures outcome.Registered? ==> t.successMessage != "" && t.redirect == Some(HomePath)
    ensures outcome.RegisterFailed? ==> t.apiError != "" && t.redirect == s.redirect
  {
    var posted := s.(
      sent := s.sent + [Registration(s.form.name, s.form.email, s.form.phone, s.form.password)],
      isSubmitting := false);
    match outcome
    case Registered(message) => posted.(successMessage := Or(message, RegisteredDefault), redirect := Some(HomePath))
    case RegisterFailed(failure) => posted.(apiError := FailureMessage(failure))
  }

  /** A password that is too short is never sent. */
  lemma ShortPasswordNeverSent(s: RegisterState, outcome: RegisterOutcome)
    requires |s.form.password| < MinPasswordLength
    ensures Submit(s, outcome).sent == s.sent
  {
  }

  class RegisterScreen {
    var form: RegisterForm
    var errors: RegisterErrors
    var apiError: string
    var successMessage: string
    var isSubmitting: bool
    var sent: seq<Registration>
    var redirect: Option<string>

    function State(): RegisterState
      reads this
    {
      RegisterState(form, errors, apiError, successMessage, isSubmitting, sent, redirect)
    }

    constructor ()
      ensures State() == Initial
    {
      form, errors, apiError, successMessage := EmptyForm, NoErrors, "", "";
      isSubmitting, sent, redirect := false, [], None;
    }

    /** `validateForm`: build `newErrors`, store it, and report whether it
        has no keys. */
    method Validate() returns (valid: bool)
      modifies this
      ensures State() == old(State()).(errors := ValidationErrors(form))
      ensures valid <==> errors.NoKeys()
      ensures valid <==> Acceptable(form)
    {
      var newErrors := BuildErrors(form);
      errors := newErrors;
      valid := newErrors.NoKeys();
    }

    method Change(field: RegisterField, value: string)
      modifies this
      ensures State() == Edit(old(State()), field, value)
    {
      form := SetField(form, field, value);
      if Shown(errors.Get(field)) {
        errors := errors.Cleared(field);
      }
    }

    method HandleSubmit(outcome: RegisterOutcome)
      modifies this
      ensures State() == Submit(old(State()), outcome)
    {
      ghost var s := State();
      apiError := "";
      successMessage := "";
      ghost var cleared := State();
      assert cleared == s.(apiError := "", successMessage := "");
      var valid := Validate();
      assert State() == cleared.(errors := ValidationErrors(cleared.form));
      if valid {
        Send(outcome);
      }
    }

    /** The request of a valid form and what its outcome sets. */
    method Send(outcome: RegisterOutcome)
      requires apiError == "" && successMessage == ""
      modifies this
      ensures State() == Post(old(State()), outcome)
    {
      isSubmitting := true;
      sent := sent + [Registration(form.name, form.email, form.phone, form.password)];
      match outcome {
        case Registered(message) =>
          successMessage := Or(message, RegisteredDefault);
          redirect := Some(HomePath);
        case RegisterFailed(failure) =>
          var errorMessage := RegisterFailedDefault;
          if failure.ServerReplied? {
            errorMessage := Or(failure.error, errorMessage);
          } else if failure.NoReply? {
            errorMessage := NetworkMessage;
          }
          apiError := errorMessage;
      }
      isSubmitting := false;
    }
  }
}
