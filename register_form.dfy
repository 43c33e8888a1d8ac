/** The registration form (src/components/RegisterForm.tsx): validation of
    the four fields, the edit handler, the submit flow around
    `authService.register`, and the success modal. `Submit` is the part
    before the `await`, `Resolve` the part after it. */
module RegisterForm {
  import opened Types
  import opened Browser
  import opened Validation
  import opened AuthService

  datatype Field = FirstName | LastName | Email | Password

  const FIRST_NAME_REQUIRED: string := "First name is required"
  const LAST_NAME_REQUIRED: string := "Last name is required"
  const FALLBACK_MESSAGE: string := "Failed to register user"
  const EMPTY_FORM: RegisterUserDto := RegisterUserDto("", "", "", "")

  /** The input's `name` attribute. */
  function Name(f: Field): string {
    match f
    case FirstName => "firstName"
    case LastName => "lastName"
    case Email => "email"
    case Password => "password"
  }

  function Get(d: RegisterUserDto, f: Field): string {
    match f
    case FirstName => d.firstName
    case LastName => d.lastName
    case Email => d.email
    case Password => d.password
  }

  /** `{ ...prev, [name]: value }` */
  function With(d: RegisterUserDto, f: Field, value: string): (r: RegisterUserDto)
    ensures Get(r, f) == value
    ensures forall g | g != f :: Get(r, g) == Get(d, g)
  {
    match f
    case FirstName => d.(firstName := value)
    case LastName => d.(lastName := value)
    case Email => d.(email := value)
    case Password => d.(password := value)
  }

  /** The message `validateForm` records for one field, "" when it passes. */
  function FieldError(d: RegisterUserDto, f: Field): (e: string)
    ensures f == FirstName ==> (e != "" <==> d.firstName == "")
    ensures f == LastName ==> (e != "" <==> d.lastName == "")
    ensures f == Email ==> (e == "" <==> MatchesEmailPattern(d.email))
    ensures f == Password ==> (e == "" <==> Utf16Length(d.password) >= MIN_PASSWORD_LENGTH)
    ensures f == FirstName && e != "" ==> e == FIRST_NAME_REQUIRED
    ensures f == LastName && e != "" ==> e == LAST_NAME_REQUIRED
    ensures f == Email ==> e == EmailError(d.email)
    ensures f == Password ==> e == PasswordError(d.password)
  {
    match f
    case FirstName => if d.firstName == "" then FIRST_NAME_REQUIRED else ""
    case LastName => if d.lastName == "" then LAST_NAME_REQUIRED else ""
    case Email => EmailError(d.email)
    case Password => PasswordError(d.password)
  }

  /** Adds `f`'s message to `errors` when `f` fails. */
  function Record(errors: map<Field, string>, d: RegisterUserDto, f: Field): (r: map<Field, string>)
    ensures forall g :: g in r <==> g in errors || (g == f && FieldError(d, f) != "")
    ensures forall g | g in r :: r[g] == if g == f && FieldError(d, f) != "" then FieldError(d, f) else errors[g]
  {
    if FieldError(d, f) != "" then errors[f := FieldError(d, f)] else errors
  }

  /** The error object: a key exactly for the failing fields. */
  function FieldErrors(d: RegisterUserDto): (errors: map<Field, string>)
    ensures forall f :: f in errors <==> FieldError(d, f) != ""
    ensures forall f | f in errors :: errors[f] == FieldError(d, f)
  {
    Record(Record(Record(Record(map[], d, FirstName), d, LastName), d, Email), d, Password)
  }

  /** The form is valid exactly when all four rules pass; the email and
      password rules are the login form's. */
  lemma ValidIffAllFieldsPass(d: RegisterUserDto)
    ensures FieldErrors(d) == map[] <==>
      && d.firstName != "" && d.lastName != ""
      && MatchesEmailPattern(d.email) && Utf16Length(d.password) >= MIN_PASSWORD_LENGTH
  {
    if d.firstName == "" { assert FirstName in FieldErrors(d); }
    else if d.lastName == "" { assert LastName in FieldErrors(d); }
    else if !MatchesEmailPattern(d.email) { assert Email in FieldErrors(d); }
    else if Utf16Length(d.password) < MIN_PASSWORD_LENGTH { assert Password in FieldErrors(d); }
  }

  class Component {
    var formData: RegisterUserDto
    var errors: map<Field, string>
    var loading: bool
    var showSuccessModal: bool
    var apiError: string

    constructor ()
      ensures formData == EMPTY_FORM && errors == map[] && !loading && !showSuccessModal && apiError == ""
    {
      formData := EMPTY_FORM;
      errors := map[];
      loading := false;
      showSuccessModal := false;
      apiError := "";
    }

    /** Fills a fresh error object field by field and reports whether it stayed empty. */
    method ValidateForm() returns (valid: bool)
      modifies this`errors
      ensures errors == FieldErrors(formData)
      ensures valid <==> errors == map[]
    {
      var newErrors: map<Field, string> := map[];
      if formData.firstName == "" {
        newErrors := newErrors[FirstName := FIRST_NAME_REQUIRED];
      }
      assert newErrors == Record(map[], formData, FirstName);
      if formData.lastName == "" {
        newErrors := newErrors[LastName := LAST_NAME_REQUIRED];
      }
      assert newErrors == Record(Record(map[], formData, FirstName), formData, LastName);
      var emailError := EmailError(formData.email);
      if emailError != "" {
        newErrors := newErrors[Email := emailError];
      }
      var passwordError := PasswordError(formData.password);
      if passwordError != "" {
        newErrors := newErrors[Password := passwordError];
      }
      errors := newErrors;
      valid := |newErrors| == 0;
    }

    /** Editing one field: only that field changes, its shown error is blanked,
        the banner is cleared, and `onChange(name, value)` is called. */
    method HandleChange(w: Window, field: Field, value: string)
      modifies this`formData, this`errors, this`apiError, w`trace
      ensures formData == With(old(formData), field, value)
      ensures field in old(errors) && old(errors)[field] != "" ==> errors == old(errors)[field := ""]
      ensures !(field in old(errors) && old(errors)[field] != "") ==> errors == old(errors)
      ensures apiError == ""
      ensures w.trace == old(w.trace) + [Called(OnChange(Name(field), value))]
    {
      formData := With(formData, field, value);
      if field in errors && errors[field] != "" {
        errors := errors[field := ""];
      }
      apiError := "";
      w.Call(OnChange(Name(field), value));
    }

    /** The synchronous part of `handleSubmit`: validate; when valid, start
        loading, hand the data to `onSubmit`, then send the request. */
    method Submit(w: Window) returns (sent: bool)
      modifies this`errors, this`loading, this`apiError, w`trace
      ensures errors == FieldErrors(formData)
      ensures sent <==> FieldErrors(formData) == map[]
      ensures sent ==> && loading && apiError == ""
                       && w.trace == old(w.trace) + [Called(OnSubmit(formData)), Sent(RegisterRequest(formData))]
      ensures !sent ==> loading == old(loading) && apiError == old(apiError) && w.trace == old(w.trace)
    {
      var valid := ValidateForm();
      if !valid {
        return false;
      }
      loading := true;
      apiError := "";
      w.Call(OnSubmit(formData));
      w.Send(RegisterRequest(formData));
      sent := true;
    }

    /** What runs once `authService.register` settles with the given HTTP outcome. */
    method Resolve(w: Window, outcome: HttpOutcome<User>)
      modifies this`formData, this`loading, this`showSuccessModal, this`apiError, w`trace
      ensures !loading
      ensures outcome.Delivered? && outcome.body.success ==>
        && showSuccessModal && formData == EMPTY_FORM && apiError == old(apiError)
        && w.trace == old(w.trace) + [Called(OnSuccess(outcome.body.data))]
      ensures outcome.Delivered? && !outcome.body.success ==>
        && showSuccessModal == old(showSuccessModal) && formData == old(formData)
        && apiError == old(apiError) && w.trace == old(w.trace)
      ensures outcome.Failed? ==>
        var message := MessageOr(Normalize(RegisterOp, outcome.error), FALLBACK_MESSAGE);
        && apiError == message && formData == old(formData)
        && showSuccessModal == old(showSuccessModal)
        && w.trace == old(w.trace) + [Called(OnError(message))]
    {
      match Settle(RegisterOp, outcome) {
        case Resolved(response) =>
          if response.success {
            showSuccessModal := true;
            formData := EMPTY_FORM;
            w.Call(OnSuccess(response.data));
          }
        case Rejected(error) =>
          var message := MessageOr(error, FALLBACK_MESSAGE);
          apiError := message;
          w.Call(OnError(message));
      }
      loading := false;
    }

    method HandleCloseModal(w: Window)
      modifies this`showSuccessModal, w`trace
      ensures !showSuccessModal
      ensures w.trace == old(w.trace) + [Called(OnCloseModal)]
    {
      showSuccessModal := false;
      w.Call(OnCloseModal);
    }
  }
}
