/** src/components/auth/AuthForms.tsx: the checks the sign-in and sign-up
    form makes before it calls the authentication service, and the message
    it shows when that call throws. The three validators of the validation
    utilities are not part of this model: they are function parameters. */
module AuthForms {
  import opened Records
  import Text

  datatype Mode = SignIn | SignUp

  /** What `validatePassword` and `validateUsername` return. */
  datatype Validation = Validation(valid: bool, errors: seq<string>)

  /** `v.errors[0]`; an empty list gives `undefined`, which like the empty
      string keeps the key and shows no text. */
  function FirstError(v: Validation): (s: string)
    ensures v.errors != [] ==> s == v.errors[0]
    ensures v.errors == [] ==> s == ""
  {
    if v.errors == [] then "" else v.errors[0]
  }

  /** The keys of the form's error record. */
  datatype Field = EmailField | PasswordField | UsernameField | ConfirmField | FormField

  /** The email check of `validateForm`, in both modes. */
  function EmailError(email: string, validEmail: string -> bool): (e: Option<string>)
    ensures email == "" ==> e == Some("Email is required")
    ensures email != "" && !validEmail(email) ==> e == Some("Please enter a valid email")
    ensures email != "" && validEmail(email) ==> e.None?
  {
    if email == "" then Some("Email is required")
    else if !validEmail(email) then Some("Please enter a valid email")
    else None
  }

  /** The password check: presence in both modes, strength only on sign-up. */
  function PasswordError(mode: Mode, password: string, checkPassword: string -> Validation): (e: Option<string>)
    ensures password == "" ==> e == Some("Password is required")
    ensures password != "" && mode == SignIn ==> e.None?
    ensures password != "" && mode == SignUp ==>
      e == (if checkPassword(password).valid then None else Some(FirstError(checkPassword(password))))
  {
    if password == "" then Some("Password is required")
    else if mode == SignUp && !checkPassword(password).valid then Some(FirstError(checkPassword(password)))
    else None
  }

  /** The username check, on sign-up only. */
  function UsernameError(mode: Mode, username: string, checkUsername: string -> Validation): (e: Option<string>)
    ensures mode == SignIn ==> e.None?
    ensures mode == SignUp && username == "" ==> e == Some("Username is required")
    ensures mode == SignUp && username != "" ==>
      e == (if checkUsername(username).valid then None else Some(FirstError(checkUsername(username))))
  {
    if mode == SignIn then None
    else if username == "" then Some("Username is required")
    else if !checkUsername(username).valid then Some(FirstError(checkUsername(username)))
    else None
  }

  /** The confirmation check, on sign-up only. */
  function ConfirmError(mode: Mode, password: string, confirmPassword: string): (e: Option<string>)
    ensures mode == SignIn ==> e.None?
    ensures mode == SignUp && confirmPassword == "" ==> e == Some("Please confirm your password")
    ensures mode == SignUp && confirmPassword != "" ==>
      (e.Some? <==> password != confirmPassword) && (e.Some? ==> e.value == "Passwords do not match")
  {
    if mode == SignIn then None
    else if confirmPassword == "" then Some("Please confirm your password")
    else if password != confirmPassword then Some("Passwords do not match")
    else None
  }

  /** The values of the form that the checks read. */
  datatype Entries = Entries(email: string, password: string, confirmPassword: string, username: string)

  /** The three validators. */
  datatype Validators = Validators(
    validEmail: string -> bool,
    checkPassword: string -> Validation,
    checkUsername: string -> Validation)

  /** The error `validateForm` records under `f`, if any. */
  function ErrorFor(f: Field, mode: Mode, e: Entries, v: Validators): Option<string> {
    match f
    case EmailField => EmailError(e.email, v.validEmail)
    case PasswordField => PasswordError(mode, e.password, v.checkPassword)
    case UsernameField => UsernameError(mode, e.username, v.checkUsername)
    case ConfirmField => ConfirmError(mode, e.password, e.confirmPassword)
    case FormField => None
  }

  /** The form passes validation: no field has an error. */
  predicate Passes(mode: Mode, e: Entries, v: Validators) {
    forall f: Field :: ErrorFor(f, mode, e, v).None?
  }

  /** `m` with `e` recorded under `f`, when there is an error. */
  function Put(m: map<Field, string>, f: Field, e: Option<string>): map<Field, string> {
    if e.Some? then m[f := e.value] else m
  }

  /** The record `validateForm` builds: the email, password, username and
      confirmation errors, in that order. */
  function ErrorRecord(mode: Mode, e: Entries, v: Validators): map<Field, string> {
    var withEmail := Put(map[], EmailField, EmailError(e.email, v.validEmail));
    var withPassword := Put(withEmail, PasswordField, PasswordError(mode, e.password, v.checkPassword));
    var withUsername := Put(withPassword, UsernameField, UsernameError(mode, e.username, v.checkUsername));
    Put(withUsername, ConfirmField, ConfirmError(mode, e.password, e.confirmPassword))
  }

  /** The record holds exactly the fields that have an error, each with its
      message, and it is empty exactly when the form passes. */
  lemma {:induction false} ErrorRecordSpec(mode: Mode, e: Entries, v: Validators)
    ensures var r := ErrorRecord(mode, e, v);
      && (forall f :: f in r <==> ErrorFor(f, mode, e, v).Some?)
      && (forall f :: f in r ==> r[f] == ErrorFor(f, mode, e, v).value)
      && (r == map[] <==> Passes(mode, e, v))
  {
    var r := ErrorRecord(mode, e, v);
    forall f ensures (f in r <==> ErrorFor(f, mode, e, v).Some?) && (f in r ==> r[f] == ErrorFor(f, mode, e, v).value) {
      PutKeeps(f, mode, e, v);
    }
    if Passes(mode, e, v) {
      assert forall f :: f !in r;
      assert r == map[];
    } else {
      var f: Field :| ErrorFor(f, mode, e, v).Some?;
      assert f in r;
    }
  }

  /** Field `f` of the record, step by step. */
  lemma {:induction false} PutKeeps(f: Field, mode: Mode, e: Entries, v: Validators)
    ensures var r := ErrorRecord(mode, e, v);
      (f in r <==> ErrorFor(f, mode, e, v).Some?) && (f in r ==> r[f] == ErrorFor(f, mode, e, v).value)
  {
    match f
    case EmailField =>
    case PasswordField =>
    case UsernameField =>
    case ConfirmField =>
    case FormField =>
  }

  /** Sign-in checks only that the email is present and valid and that a
      password is given: the validators for password strength and username,
      and the confirmation, play no part. */
  lemma {:induction false} SignInChecksTwoFields(e: Entries, v: Validators, other: Validators)
    requires v.validEmail == other.validEmail
    ensures Passes(SignIn, e, v) <==> e.email != "" && v.validEmail(e.email) && e.password != ""
    ensures Passes(SignIn, e, v) == Passes(SignIn, e, other)
  {
    if e.email != "" && v.validEmail(e.email) && e.password != "" {
      forall f: Field ensures ErrorFor(f, SignIn, e, v).None? && ErrorFor(f, SignIn, e, other).None? {
      }
    } else if e.email == "" || !v.validEmail(e.email) {
      assert ErrorFor(EmailField, SignIn, e, v).Some?;
      assert ErrorFor(EmailField, SignIn, e, other).Some?;
    } else {
      assert ErrorFor(PasswordField, SignIn, e, v).Some?;
      assert ErrorFor(PasswordField, SignIn, e, other).Some?;
    }
  }

  /** A sign-up with mismatched passwords never passes. */
  lemma {:induction false} MismatchNeverPasses(e: Entries, v: Validators)
    requires e.password != e.confirmPassword
    ensures !Passes(SignUp, e, v)
  {
    assert ErrorFor(ConfirmField, SignUp, e, v).Some?;
  }

  /** What the form asks the authentication service to do. */
  datatype Call = NoCall | CallSignIn(email: string, password: string)
                | CallSignUp(email: string, password: string, username: string)

  const ConfirmEmailText: string :=
    "Please check your email and click the confirmation link before signing in. Check your spam folder if you don't see it."
  const BadCredentialsText: string := "Invalid email or password. Please try again."
  const AlreadyRegisteredText: string := "An account with this email already exists. Please sign in instead."
  const GenericText: string := "An error occurred during authentication"

  const NotConfirmedKey: string := "Email not confirmed"
  const BadCredentialsKey: string := "Invalid login credentials"
  const RegisteredKey: string := "User already registered"

  /** The message for a failed call: for an `Error`, the first of the three
      keys that its message contains picks a friendly text, and otherwise the
      message itself is shown; any other thrown value gives the generic text. */
  function AuthErrorMessage(thrown: Failure): (m: string)
    ensures thrown.Rejected? ==> m == GenericText
    ensures thrown.Thrown? && Text.Includes(thrown.message, NotConfirmedKey) ==> m == ConfirmEmailText
    ensures (thrown.Thrown? && !Text.Includes(thrown.message, NotConfirmedKey)
             && Text.Includes(thrown.message, BadCredentialsKey)) ==> m == BadCredentialsText
    ensures (thrown.Thrown? && !Text.Includes(thrown.message, NotConfirmedKey)
             && !Text.Includes(thrown.message, BadCredentialsKey)
             && Text.Includes(thrown.message, RegisteredKey)) ==> m == AlreadyRegisteredText
    ensures (thrown.Thrown? && !Text.Includes(thrown.message, NotConfirmedKey)
             && !Text.Includes(thrown.message, BadCredentialsKey)
             && !Text.Includes(thrown.message, RegisteredKey)) ==> m == thrown.message
  {
    match thrown
    case Rejected(_) => GenericText
    case Thrown(msg) =>
      if Text.Includes(msg, NotConfirmedKey) then ConfirmEmailText
      else if Text.Includes(msg, BadCredentialsKey) then BadCredentialsText
      else if Text.Includes(msg, RegisteredKey) then AlreadyRegisteredText
      else msg
  }

  /** The message is one of the fixed texts or the thrown message itself. */
  lemma {:induction false} AuthErrorMessageShown(thrown: Failure)
    ensures var m := AuthErrorMessage(thrown);
      m in {ConfirmEmailText, BadCredentialsText, AlreadyRegisteredText, GenericText}
      || (thrown.Thrown? && m == thrown.message)
  {
  }

  class AuthForm {
    const mode: Mode
    var email: string
    var password: string
    var confirmPassword: string
    var username: string
    var errors: map<Field, string>

    function Values(): Entries
      reads this
    {
      Entries(email, password, confirmPassword, username)
    }

    constructor(mode: Mode)
      ensures this.mode == mode && Values() == Entries("", "", "", "") && errors == map[]
    {
      this.mode := mode;
      email := "";
      password := "";
      confirmPassword := "";
      username := "";
      errors := map[];
    }

    /** `validateForm`: the error record is rebuilt field by field and
        replaces the old one; the form is valid exactly when it is empty. */
    method ValidateForm(v: Validators) returns (ok: bool)
      modifies this
      ensures Values() == old(Values())
      ensures errors == ErrorRecord(mode, Values(), v)
      ensures ok <==> Passes(mode, Values(), v)
    {
      var newErrors: map<Field, string> := map[];
      if email == "" {
        newErrors := newErrors[EmailField := "Email is required"];
      } else if !v.validEmail(email) {
        newErrors := newErrors[EmailField := "Please enter a valid email"];
      }
      ghost var withEmail := newErrors;
      assert withEmail == Put(map[], EmailField, EmailError(email, v.validEmail));
      if password == "" {
        newErrors := newErrors[PasswordField := "Password is required"];
      } else if mode == SignUp {
        var passwordValidation := v.checkPassword(password);
        if !passwordValidation.valid {
          newErrors := newErrors[PasswordField := FirstError(passwordValidation)];
        }
      }
      ghost var withPassword := newErrors;
      assert withPassword == Put(withEmail, PasswordField, PasswordError(mode, password, v.checkPassword));
      if mode == SignUp {
        if username == "" {
          newErrors := newErrors[UsernameField := "Username is required"];
        } else {
          var usernameValidation := v.checkUsername(username);
          if !usernameValidation.valid {
            newErrors := newErrors[UsernameField := FirstError(usernameValidation)];
          }
        }
        assert newErrors == Put(withPassword, UsernameField, UsernameError(mode, username, v.checkUsername));
        if confirmPassword == "" {
          newErrors := newErrors[ConfirmField := "Please confirm your password"];
        } else if password != confirmPassword {
          newErrors := newErrors[ConfirmField := "Passwords do not match"];
        }
      }
      assert newErrors == ErrorRecord(mode, Values(), v);
      ErrorRecordSpec(mode, Values(), v);
      errors := newErrors;
      ok := newErrors == map[];  // `Object.keys(newErrors).length === 0`
    }

    /** `handleSubmit`: an invalid form calls nothing; a valid one signs in
        or signs up with its values. A failed call leaves only the mapped
        message in the error record. */
    method HandleSubmit(v: Validators, thrown: Option<Failure>) returns (call: Call, succeeded: bool)
      modifies this
      ensures Values() == old(Values())
      ensures !Passes(mode, Values(), v) ==>
        call == NoCall && !succeeded && errors == ErrorRecord(mode, Values(), v)
      ensures Passes(mode, Values(), v) && mode == SignIn ==> call == CallSignIn(email, password)
      ensures Passes(mode, Values(), v) && mode == SignUp ==> call == CallSignUp(email, password, username)
      ensures Passes(mode, Values(), v) ==>
        && (succeeded <==> thrown.None?)
        && errors == (if thrown.None? then map[] else map[FormField := AuthErrorMessage(thrown.value)])
    {
      var ok := ValidateForm(v);
      ErrorRecordSpec(mode, Values(), v);
      if !ok {
        return NoCall, false;
      }
      call := if mode == SignIn then CallSignIn(email, password) else CallSignUp(email, password, username);
      match thrown {
        case None =>
          succeeded := true;
        case Some(t) =>
          succeeded := false;
          errors := map[FormField := AuthErrorMessage(t)];
      }
    }
  }
}
