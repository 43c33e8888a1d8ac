/** The login form (src/components/LoginForm.tsx): field validation, the edit
    handler, and the submit flow around `authService.login`. The `await`
    splits submission into `Submit` (validation and sending) and `Resolve`
    (what runs when the call settles). */
module LoginForm {
  import opened Types
  import opened Browser
  import opened Validation
  import Auth
  import opened AuthService

  datatype Field = Email | Password

  const FALLBACK_MESSAGE: string := "invalid email or password"
  const AFTER_LOGIN: string := "/users"

  function Get(d: LoginDto, f: Field): string {
    match f
    case Email => d.email
    case Password => d.password
  }

  /** `{ ...prev, [name]: value }` */
  function With(d: LoginDto, f: Field, value: string): (r: LoginDto)
    ensures Get(r, f) == value
    ensures forall g | g != f :: Get(r, g) == Get(d, g)
  {
    match f
    case Email => d.(email := value)
    case Password => d.(password := value)
  }

  /** The errors `validateForm` reports: a key only for a field that fails, with its message. */
  function FieldErrors(d: LoginDto): (errors: map<Field, string>)
    ensures Email in errors <==> !MatchesEmailPattern(d.email)
    ensures Password in errors <==> Utf16Length(d.password) < MIN_PASSWORD_LENGTH
    ensures forall f | f in errors :: errors[f] == (match f case Email => EmailError(d.email) case Password => PasswordError(d.password))
    ensures forall f | f in errors :: errors[f] != ""
  {
    var withEmail: map<Field, string> := if EmailError(d.email) != "" then map[Email := EmailError(d.email)] else map[];
    if PasswordError(d.password) != "" then withEmail[Password := PasswordError(d.password)] else withEmail
  }

  /** A valid form is one whose email matches the pattern and whose password is long enough. */
  lemma ValidIffBothFieldsPass(d: LoginDto)
    ensures FieldErrors(d) == map[] <==> MatchesEmailPattern(d.email) && Utf16Length(d.password) >= MIN_PASSWORD_LENGTH
  {
    if !MatchesEmailPattern(d.email) {
      assert Email in FieldErrors(d);
    } else if Utf16Length(d.password) < MIN_PASSWORD_LENGTH {
      assert Password in FieldErrors(d);
    }
  }

  /** Whether the response lets the user in: `response.success && response.data`. */
  predicate Granted(r: ApiResponse<LoginResponse>) {
    r.success && r.data.Some?
  }

  class Component {
    var formData: LoginDto
    var errors: map<Field, string>
    var loading: bool
    var apiError: string

    constructor ()
      ensures formData == LoginDto("", "") && errors == map[] && !loading && apiError == ""
    {
      formData := LoginDto("", "");
      errors := map[];
      loading := false;
      apiError := "";
    }

    /** Fills a fresh error object field by field and reports whether it stayed empty. */
    method ValidateForm() returns (valid: bool)
      modifies this`errors
      ensures errors == FieldErrors(formData)
      ensures valid <==> errors == map[]
    {
      var newErrors: map<Field, string> := map[];
      var emailError := EmailError(formData.email);
      if emailError != "" {
        newErrors := newErrors[Email := emailError];
      }
      var passwordError := PasswordError(formData.password);
      if passwordError != "" {
        newErrors := newErrors[Password := passwordError];
      }
      errors := newErrors;
      valid := |newErrors| == 0;
    }

    /** Editing one field: only that field changes, its shown error is blanked,
        and the banner is cleared. */
    method HandleChange(field: Field, value: string)
      modifies this`formData, this`errors, this`apiError
      ensures formData == With(old(formData), field, value)
      ensures field in old(errors) && old(errors)[field] != "" ==> errors == old(errors)[field := ""]
      ensures !(field in old(errors) && old(errors)[field] != "") ==> errors == old(errors)
      ensures apiError == ""
    {
      formData := With(formData, field, value);
      if field in errors && errors[field] != "" {
        errors := errors[field := ""];
      }
      apiError := "";
    }

    /** The synchronous part of `handleSubmit`: validate, and only when valid
        start loading and send the login request. */
    method Submit(w: Window) returns (sent: bool)
      modifies this`errors, this`loading, this`apiError, w`trace
      ensures errors == FieldErrors(formData)
      ensures sent <==> FieldErrors(formData) == map[]
      ensures sent ==> loading && apiError == "" && w.trace == old(w.trace) + [Sent(LoginRequest(formData))]
      ensures !sent ==> loading == old(loading) && apiError == old(apiError) && w.trace == old(w.trace)
    {
      var valid := ValidateForm();
      if !valid {
        return false;
      }
      loading := true;
      apiError := "";
      w.Send(LoginRequest(formData));
      sent := true;
    }

    /** What runs once `authService.login` settles with the given HTTP outcome. */
    method Resolve(w: Window, outcome: HttpOutcome<LoginResponse>)
      modifies this`loading, this`apiError, w`storage, w`trace
      ensures !loading
      ensures outcome.Delivered? && Granted(outcome.body) ==>
        && apiError == old(apiError)
        && (w.defined ==> w.storage == Auth.WithToken(old(w.storage), outcome.body.data.value.accessToken))
        && (w.defined ==> Auth.GetToken(w) == Some(outcome.body.data.value.accessToken))
        && (!w.defined ==> w.storage == old(w.storage))
        && w.trace == old(w.trace)
                      + (if w.defined then [Auth.Notification(w.storage)] else [])
                      + [Navigated(Replace, AFTER_LOGIN)]
      ensures outcome.Delivered? && !Granted(outcome.body) ==>
        apiError == old(apiError) && w.storage == old(w.storage) && w.trace == old(w.trace)
      ensures outcome.Failed? ==>
        && apiError == MessageOr(Normalize(LoginOp, outcome.error), FALLBACK_MESSAGE)
        && w.storage == old(w.storage) && w.trace == old(w.trace)
    {
      match Settle(LoginOp, outcome) {
        case Resolved(response) =>
          if Granted(response) {
            Auth.SetToken(w, response.data.value.accessToken);
            w.Navigate(Replace, AFTER_LOGIN);
          }
        case Rejected(error) =>
          apiError := MessageOr(error, FALLBACK_MESSAGE);
      }
      loading := false;
    }
  }
}
