// The sign-in page of src/pages/Auth.tsx as far as the security core sees
// it: the table of field rules handed to the form hook, the rule that a
// submission stops before the rate limiter when the form does not validate,
// and the reset of form and limiter on a change of mode.

module AuthPage {
  import opened Common
  import opened TextPatterns
  import opened OrderedMaps
  import opened FormValidation
  import RateLimit

  /** The email rule's custom check: a `.` somewhere. */
  function EmailCustom(value: string): Option<string>
  {
    if !Includes(value, ".") then Some("Please enter a valid email address") else None
  }

  /** The password rule's custom check: the first missing character class. */
  function PasswordCustom(value: string): Option<string>
  {
    if !ContainsChar(value, IsDigit) then Some("Password must contain at least one number")
    else if !ContainsChar(value, IsLower) then Some("Password must contain at least one lowercase letter")
    else if !ContainsChar(value, IsUpper) then Some("Password must contain at least one uppercase letter")
    else None
  }

  /** The `validations` table. */
  const Validations: map<string, Rules> := map[
    "email" := Rules(true, None, None, Some(EmailPattern), Some(EmailCustom)),
    "password" := Rules(true, Some(6), None, None, Some(PasswordCustom)),
    "username" := Rules(true, Some(3), Some(20), Some(IsWordString), None),
    "fullName" := Rules(true, Some(2), Some(50), None, None)
  ]

  /** The form's initial values, in key order. */
  const InitialValues: OMap<string, string> :=
    [("email", ""), ("password", ""), ("username", ""), ("fullName", ""), ("verificationCode", "")]

  /**
   * An email is accepted exactly when it is non-empty and matches the
   * address pattern; the custom "." check is never the one that fails,
   * because every address the pattern accepts contains a dot.
   */
  lemma EmailRule(value: string)
    ensures ValidateField(Validations, "email", value) ==
      if value == "" then Some(RequiredMessage("email"))
      else if !EmailPattern(value) then Some(FormatMessage("email"))
      else None
  {
    if value != "" && EmailPattern(value) {
      EmailHasDot(value);
    }
  }

  /** A password needs six characters, then a digit, a lower-case and an upper-case letter, reported in that order. */
  lemma PasswordRule(value: string)
    ensures ValidateField(Validations, "password", value) ==
      if value == "" then Some(RequiredMessage("password"))
      else if |value| < 6 then Some(MinLengthMessage("password", 6))
      else PasswordCustom(value)
    ensures ValidateField(Validations, "password", value) == None <==>
      |value| >= 6 && ContainsChar(value, IsDigit) && ContainsChar(value, IsLower) && ContainsChar(value, IsUpper)
  {
  }

  /** A user name is 3 to 20 characters of letters, digits and `_`. */
  lemma UsernameRule(value: string)
    ensures ValidateField(Validations, "username", value) == None <==> 3 <= |value| <= 20 && IsWordString(value)
  {
  }

  /** A full name is 2 to 50 characters of anything. */
  lemma FullNameRule(value: string)
    ensures ValidateField(Validations, "fullName", value) == None <==> 2 <= |value| <= 50
  {
  }

  datatype Mode = Login | Signup | ResetPassword | TwoFactor

  datatype SubmitOutcome =
    | NotValidated                            // `if (!validateForm()) return;`
    | Throttled(why: RateLimit.RecordOutcome) // `recordAttempt` threw
    | Submitted(mode: Mode)                   // the mode's request is sent

  /** The page's own state around the two hooks it drives. */
  class Page {
    var mode: Mode
    const form: Form
    const limiter: RateLimit.RateLimiter

    constructor (limiterConfig: RateLimit.Config)
      ensures mode == Login && fresh(form) && fresh(limiter)
      ensures form.validations == Validations && form.values == InitialValues && form.initialValues == InitialValues
      ensures limiter.State() == RateLimit.InitialState && limiter.cfg == limiterConfig
    {
      mode := Login;
      form := new Form(InitialValues, Validations);
      limiter := new RateLimit.RateLimiter(limiterConfig);
    }

    /** `handleSubmit`, up to the request it sends. */
    method HandleSubmit(now: int) returns (out: SubmitOutcome)
      modifies form, limiter
      ensures form.values == old(form.values)
      ensures !FormValid(form.validations, old(form.values)) ==>
        out == NotValidated && limiter.State() == old(limiter.State())
      ensures FormValid(form.validations, old(form.values)) ==>
        var r := RateLimit.Record(limiter.cfg, old(limiter.State()), now, None);
        limiter.State() == r.1 && out == (if r.0.Accepted? then Submitted(mode) else Throttled(r.0))
    {
      var ok := form.ValidateForm();
      if !ok {
        return NotValidated;
      }
      var o := limiter.RecordAttempt(now, None);
      if o.Accepted? {
        out := Submitted(mode);
      } else {
        out := Throttled(o);
      }
    }

    /** `handleModeChange`: the new mode, a fresh form and an empty limiter. */
    method HandleModeChange(newMode: Mode)
      modifies this, form, limiter
      ensures mode == newMode
      ensures form.values == form.initialValues && form.errors == map[] && form.touched == map[] && !form.isValid
      ensures limiter.State() == RateLimit.InitialState
    {
      mode := newMode;
      form.ResetForm();
      limiter.Reset();
    }
  }

  /**
   * The whole-form check also runs the sign-up rules: while the user name
   * is empty (it is only shown, and so only filled in, in sign-up mode) no
   * form validates, so a login or password-reset submission never gets past
   * validation.
   */
  lemma LoginFormNeverValid(values: OMap<string, string>, i: nat)
    requires i < |values| && values[i] == ("username", "")
    ensures !FormValid(Validations, values)
  {
    assert FieldFails(Validations, values[i]);
  }

  /** The login form as the user leaves it: only email and password typed in. */
  function LoginValues(email: string, password: string): OMap<string, string>
  {
    Put(Put(InitialValues, "email", email), "password", password)
  }

  lemma LoginValuesShape(email: string, password: string)
    ensures LoginValues(email, password) ==
      [("email", email), ("password", password), ("username", ""), ("fullName", ""), ("verificationCode", "")]
  {
    var m := Put(InitialValues, "email", email);
    assert HasKey(InitialValues, "email") by { assert Keys(InitialValues)[0] == "email"; }
    assert IndexOf(InitialValues, "email") == 0;
    assert m == [("email", email), ("password", ""), ("username", ""), ("fullName", ""), ("verificationCode", "")];
    assert HasKey(m, "password") by { assert Keys(m)[1] == "password"; }
    assert IndexOf(m, "password") == 1;
  }

  /** Even correct credentials are refused by the page as written. */
  lemma CorrectCredentialsRefused(email: string, password: string)
    ensures !FormValid(Validations, LoginValues(email, password))
  {
    LoginValuesShape(email, password);
    LoginFormNeverValid(LoginValues(email, password), 2);
  }

  /** The fields each mode shows. */
  function ShownFields(mode: Mode): set<string>
  {
    match mode
    case Login => {"email", "password"}
    case Signup => {"email", "password", "username", "fullName"}
    case ResetPassword => {"email"}
    case TwoFactor => {}
  }

  /** The evidently intended check: only the fields the mode shows must validate. */
  predicate ModeFormValid(mode: Mode, values: OMap<string, string>)
  {
    forall i :: 0 <= i < |values| && values[i].0 in ShownFields(mode) ==> !FieldFails(Validations, values[i])
  }

  /**
   * Under the intended check, a login with an acceptable email and password
   * validates, while sign-up still demands every sign-up field.
   */
  lemma ModeFormValidAcceptsLogin(email: string, password: string)
    requires email != "" && EmailPattern(email)
    requires |password| >= 6 && ContainsChar(password, IsDigit) && ContainsChar(password, IsLower) && ContainsChar(password, IsUpper)
    ensures ModeFormValid(Login, LoginValues(email, password))
    ensures !ModeFormValid(Signup, LoginValues(email, password))
  {
    EmailRule(email);
    PasswordRule(password);
    LoginValuesShape(email, password);
    LoginFieldsValid(LoginValues(email, password), email, password);
    SignupNeedsUsername(LoginValues(email, password));
  }

  lemma LoginFieldsValid(v: OMap<string, string>, email: string, password: string)
    requires v == [("email", email), ("password", password), ("username", ""), ("fullName", ""), ("verificationCode", "")]
    requires ValidateField(Validations, "email", email) == None && ValidateField(Validations, "password", password) == None
    ensures ModeFormValid(Login, v)
  {
    forall i | 0 <= i < |v| && v[i].0 in ShownFields(Login) ensures !FieldFails(Validations, v[i]) {
      assert i == 0 || i == 1;
    }
  }

  lemma SignupNeedsUsername(v: OMap<string, string>)
    requires |v| > 2 && v[2] == ("username", "")
    ensures !ModeFormValid(Signup, v)
  {
    assert FieldFails(Validations, v[2]);
  }
}
