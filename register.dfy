/**
 * The registration form (Register.js): field edits, the client-side validation that fills an
 * error dictionary field by field, and the branching on the sign-up result.
 */
module Registration {
  import opened Wrappers
  import opened JsText

  /** The form's inputs, by their `name` attribute. */
  datatype Field = FirstName | LastName | Email | Password | ConfirmPassword

  datatype FormData = FormData(firstName: string, lastName: string, email: string, password: string, confirmPassword: string)

  const EmptyForm := FormData("", "", "", "", "")

  const FirstNameRequired := "First name is required"
  const LastNameRequired := "Last name is required"
  const EmailRequired := "Email is required"
  const EmailInvalid := "Email is invalid"
  const PasswordRequired := "Password is required"
  const PasswordTooShort := "Password must be at least 6 characters"
  const PasswordsDiffer := "Passwords do not match"
  const MinPasswordLength := 6

  /** `formData[name]`. */
  function Get(form: FormData, field: Field): string {
    match field
    case FirstName => form.firstName
    case LastName => form.lastName
    case Email => form.email
    case Password => form.password
    case ConfirmPassword => form.confirmPassword
  }

  /** `{...formData, [name]: value}`: the named field takes the value and every other field keeps its own. */
  function WithField(form: FormData, field: Field, value: string): (r: FormData)
    ensures Get(r, field) == value
    ensures forall f :: f != field ==> Get(r, f) == Get(form, f)
  {
    match field
    case FirstName => form.(firstName := value)
    case LastName => form.(lastName := value)
    case Email => form.(email := value)
    case Password => form.(password := value)
    case ConfirmPassword => form.(confirmPassword := value)
  }

  /** Editing a field twice keeps only the second value. */
  lemma WithFieldTwice(form: FormData, field: Field, a: string, b: string)
    ensures WithField(WithField(form, field, a), field, b) == WithField(form, field, b)
  {
  }

  /**
   * The regular expression `\S+@\S+\.\S+` matches inside `s` with its `@` at `p` and its
   * `.` at `q`: a non-space before the `@`, only non-spaces (at least one) between the two,
   * and a non-space after the `.`.
   */
  predicate EmailAt(s: string, p: int, q: int)
    requires 0 < p && p + 1 < q && q + 1 < |s|
  {
    && s[p] == '@' && !IsSpace(s[p - 1])
    && s[q] == '.' && !IsSpace(s[q + 1])
    && (forall k :: p < k < q ==> !IsSpace(s[k]))
  }

  /** `/\S+@\S+\.\S+/.test(s)`: the pattern matches somewhere in `s`. */
  predicate MatchesEmailPattern(s: string) {
    exists p, q :: 0 < p && p + 1 < q && q + 1 < |s| && EmailAt(s, p, q)
  }

  /** A plain address matches. */
  lemma PlainAddressMatches()
    ensures MatchesEmailPattern("ann@example.com")
  {
    assert EmailAt("ann@example.com", 3, 11);
  }

  /** Without a dot after the `@`, or with a space inside, the pattern does not match. */
  lemma BrokenAddressesDoNotMatch()
    ensures !MatchesEmailPattern("ann@example")
    ensures !MatchesEmailPattern("ann@ex ample.com")
  {
    var s := "ann@example";
    forall p, q | 0 < p && p + 1 < q && q + 1 < |s|
      ensures !EmailAt(s, p, q)
    {
      if s[p] == '@' {
        assert p == 3;
      }
    }
    var t := "ann@ex ample.com";
    forall p, q | 0 < p && p + 1 < q && q + 1 < |t|
      ensures !EmailAt(t, p, q)
    {
      if t[p] == '@' && t[q] == '.' {
        assert p == 3 && q == 12;
        assert IsSpace(t[6]);
      }
    }
  }

  /** A match needs at least five characters: one on each side of `@` and `.`, and those two. */
  lemma ShortEmailsDoNotMatch(s: string)
    requires |s| < 5
    ensures !MatchesEmailPattern(s)
  {
  }

  /** The first or last name's check: missing when `name.trim()` is empty, that is when the name is all white space. */
  function NameError(name: string, message: string): (r: Option<string>)
    ensures r.Some? <==> AllSpace(name)
    ensures r.Some? ==> r.value == message
  {
    if AllSpace(name) then Some(message) else None
  }

  /** The email's check: required when all white space, otherwise invalid when the pattern does not match the untrimmed text. */
  function EmailError(email: string): (r: Option<string>)
    ensures r.Some? <==> AllSpace(email) || !MatchesEmailPattern(email)
    ensures r == Some(EmailRequired) <==> AllSpace(email)
  {
    if AllSpace(email) then Some(EmailRequired)
    else if !MatchesEmailPattern(email) then Some(EmailInvalid)
    else None
  }

  /** The password's check: required when empty, otherwise too short under six characters. */
  function PasswordError(password: string): (r: Option<string>)
    ensures r.Some? <==> |password| < MinPasswordLength
    ensures r == Some(PasswordRequired) <==> password == ""
  {
    if password == "" then Some(PasswordRequired)
    else if |password| < MinPasswordLength then Some(PasswordTooShort)
    else None
  }

  /** The confirmation's check: it differs whenever it is not the password, whatever the other checks found. */
  function ConfirmError(password: string, confirm: string): (r: Option<string>)
    ensures r.Some? <==> password != confirm
    ensures r.Some? ==> r.value == PasswordsDiffer
  {
    if password != confirm then Some(PasswordsDiffer) else None
  }

  /** The check that governs one field. */
  function FieldError(form: FormData, field: Field): Option<string> {
    match field
    case FirstName => NameError(form.firstName, FirstNameRequired)
    case LastName => NameError(form.lastName, LastNameRequired)
    case Email => EmailError(form.email)
    case Password => PasswordError(form.password)
    case ConfirmPassword => ConfirmError(form.password, form.confirmPassword)
  }

  /** Every check passes. */
  predicate FormValid(form: FormData) {
    && !AllSpace(form.firstName) && !AllSpace(form.lastName)
    && !AllSpace(form.email) && MatchesEmailPattern(form.email)
    && |form.password| >= MinPasswordLength && form.password == form.confirmPassword
  }

  /** The blank checks are Register.js's `!x.trim()` tests: a text is all white space exactly when trimming empties it. */
  lemma BlankChecksAreTrimChecks(form: FormData)
    ensures FieldError(form, FirstName).Some? <==> Trim(form.firstName) == ""
    ensures FieldError(form, LastName).Some? <==> Trim(form.lastName) == ""
    ensures FieldError(form, Email) == Some(EmailRequired) <==> Trim(form.email) == ""
  {
    TrimEmptyIff(form.firstName);
    TrimEmptyIff(form.lastName);
    TrimEmptyIff(form.email);
  }

  /** `errors[field] = message` when the check produced a message; the dictionary otherwise. */
  function Recorded(errors: map<Field, string>, field: Field, error: Option<string>): map<Field, string> {
    if error.Some? then errors[field := error.value] else errors
  }

  /** Recording the five checks in turn, starting from an empty dictionary, keys each message by its own field. */
  lemma RecordedFive(first: Option<string>, last: Option<string>, email: Option<string>,
                     password: Option<string>, confirm: Option<string>)
    ensures
      var m := Recorded(Recorded(Recorded(Recorded(Recorded(map[], FirstName, first),
                 LastName, last), Email, email), Password, password), ConfirmPassword, confirm);
      && (FirstName in m <==> first.Some?) && (FirstName in m ==> m[FirstName] == first.value)
      && (LastName in m <==> last.Some?) && (LastName in m ==> m[LastName] == last.value)
      && (Email in m <==> email.Some?) && (Email in m ==> m[Email] == email.value)
      && (Password in m <==> password.Some?) && (Password in m ==> m[Password] == password.value)
      && (ConfirmPassword in m <==> confirm.Some?) && (ConfirmPassword in m ==> m[ConfirmPassword] == confirm.value)
  {
  }

  /** The dictionary holds the field's message exactly when the field's check fails. */
  predicate Reports(errors: map<Field, string>, form: FormData, field: Field) {
    && (field in errors <==> FieldError(form, field).Some?)
    && (field in errors ==> errors[field] == FieldError(form, field).value)
  }

  /**
   * validateForm: fills the error dictionary field by field. A field has an entry exactly
   * when its check fails, holding that check's message; the dictionary is empty exactly when
   * the form is valid.
   */
  method ValidateForm(form: FormData) returns (errors: map<Field, string>)
    ensures forall f :: Reports(errors, form, f)
    ensures errors == map[] <==> FormValid(form)
  {
    errors := map[];
    var first, last, email := FieldError(form, FirstName), FieldError(form, LastName), FieldError(form, Email);
    var password, confirm := FieldError(form, Password), FieldError(form, ConfirmPassword);
    errors := Recorded(errors, FirstName, first);
    errors := Recorded(errors, LastName, last);
    errors := Recorded(errors, Email, email);
    errors := Recorded(errors, Password, password);
    errors := Recorded(errors, ConfirmPassword, confirm);
    RecordedFive(first, last, email, password, confirm);
    ReportsEveryField(errors, form);
  }

  /** Five reports, one per field, are the report on every field; then no entry means a valid form. */
  lemma ReportsEveryField(errors: map<Field, string>, form: FormData)
    requires Reports(errors, form, FirstName) && Reports(errors, form, LastName) && Reports(errors, form, Email)
    requires Reports(errors, form, Password) && Reports(errors, form, ConfirmPassword)
    ensures forall f :: Reports(errors, form, f)
    ensures errors == map[] <==> FormValid(form)
  {
    forall f ensures Reports(errors, form, f) {
      match f
      case FirstName =>
      case LastName =>
      case Email =>
      case Password =>
      case ConfirmPassword =>
    }
    FormValidIff(form);
    if errors != map[] {
      var f :| f in errors;
      match f
      case FirstName =>
      case LastName =>
      case Email =>
      case Password =>
      case ConfirmPassword =>
    }
  }

  /** A form is valid exactly when none of the five checks produces a message. */
  lemma FormValidIff(form: FormData)
    ensures FormValid(form) <==>
      (&& FieldError(form, FirstName).None? && FieldError(form, LastName).None?
       && FieldError(form, Email).None? && FieldError(form, Password).None?
       && FieldError(form, ConfirmPassword).None?)
  {
  }

  /** What `register(formData)` resolved to. */
  datatype RegisterResult = Registered(requiresOtp: bool) | Rejected(error: string)

  /** A navigation: the route and the email handed to it in the location state, if any. */
  datatype Navigation = Navigation(path: string, email: Option<string>)

  class RegisterForm {
    var formData: FormData
    var registerError: string
    var validationErrors: map<Field, string>
    /** The forms passed to `register`, in order. */
    var registerCalls: seq<FormData>
    var navigatedTo: Option<Navigation>

    constructor ()
      ensures formData == EmptyForm && registerError == "" && validationErrors == map[]
      ensures registerCalls == [] && navigatedTo == None
    {
      formData := EmptyForm;
      registerError := "";
      validationErrors := map[];
      registerCalls := [];
      navigatedTo := None;
    }

    /** handleChange: the named field takes the input's value. */
    method HandleChange(field: Field, value: string)
      modifies this`formData
      ensures formData == WithField(old(formData), field, value)
    {
      formData := WithField(formData, field, value);
    }

    /**
     * The rest of handleSubmit once the form is valid: `register` is called with the form,
     * and its result either navigates (to OTP verification with the email, or to the
     * dashboard) or shows its error.
     */
    method Register(result: RegisterResult)
      modifies this`registerError, this`registerCalls, this`navigatedTo
      ensures registerCalls == old(registerCalls) + [formData]
      ensures result.Registered? ==>
        registerError == old(registerError)
        && navigatedTo == Some(if result.requiresOtp then Navigation("/verify-otp", Some(formData.email))
                               else Navigation("/dashboard", None))
      ensures result.Rejected? ==> registerError == result.error && navigatedTo == old(navigatedTo)
    {
      registerCalls := registerCalls + [formData];
      match result {
        case Registered(requiresOtp) =>
          if requiresOtp {
            navigatedTo := Some(Navigation("/verify-otp", Some(formData.email)));
          } else {
            navigatedTo := Some(Navigation("/dashboard", None));
          }
        case Rejected(error) =>
          registerError := error;
      }
    }

    /**
     * handleSubmit: the errors are reset and the form validated; with any error the errors
     * are shown and `register` is not called. Otherwise `register` is called with the form,
     * and its result either navigates (to OTP verification with the email, or to the
     * dashboard) or shows its error.
     */
    method HandleSubmit(result: RegisterResult)
      modifies this`registerError, this`validationErrors, this`registerCalls, this`navigatedTo
      ensures forall f :: Reports(validationErrors, formData, f)
      ensures validationErrors == map[] <==> FormValid(formData)
      ensures validationErrors != map[] ==>
        registerCalls == old(registerCalls) && registerError == "" && navigatedTo == old(navigatedTo)
      ensures validationErrors == map[] ==> registerCalls == old(registerCalls) + [formData]
      ensures validationErrors == map[] && result.Registered? ==>
        registerError == ""
        && navigatedTo == Some(if result.requiresOtp then Navigation("/verify-otp", Some(formData.email))
                               else Navigation("/dashboard", None))
      ensures validationErrors == map[] && result.Rejected? ==>
        registerError == result.error && navigatedTo == old(navigatedTo)
    {
      registerError := "";
      validationErrors := map[];
      var errors := ValidateForm(formData);
      if |errors| > 0 {
        validationErrors := errors;
        return;
      }
      assert errors == map[];
      Register(result);
    }
  }
}
