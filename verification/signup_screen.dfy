/** The signup form: its ordered validation and the call to `signup`. */
module SignupScreen {
  import opened Wrappers
  import opened AuthContext

  const FillAllFields := "Please fill in all fields"
  const PasswordsDiffer := "Passwords do not match"
  const PasswordTooShort := "Password must be at least 6 characters"
  const SignupFailed := "Failed to create account"
  const MinPasswordLength := 6

  datatype SignupForm = SignupForm(fullName: string, email: string, password: string, confirmPassword: string)

  /** What a valid form satisfies, independently of the check order. */
  predicate SignupValid(f: SignupForm) {
    f.fullName != "" && f.email != "" && f.password != "" && f.confirmPassword != ""
    && f.password == f.confirmPassword && |f.password| >= MinPasswordLength
  }

  /** The message of the first failing check, or "" when every check passes. */
  function SignupError(f: SignupForm): (message: string)
    ensures message == "" <==> SignupValid(f)
    ensures message == FillAllFields <==>
      f.fullName == "" || f.email == "" || f.password == "" || f.confirmPassword == ""
    ensures message == PasswordsDiffer <==>
      f.fullName != "" && f.email != "" && f.password != "" && f.confirmPassword != ""
      && f.password != f.confirmPassword
    ensures message == PasswordTooShort <==>
      f.fullName != "" && f.email != "" && f.password != "" && f.confirmPassword != ""
      && f.password == f.confirmPassword && |f.password| < MinPasswordLength
  {
    if f.fullName == "" || f.email == "" || f.password == "" || f.confirmPassword == "" then FillAllFields
    else if f.password != f.confirmPassword then PasswordsDiffer
    else if |f.password| < MinPasswordLength then PasswordTooShort
    else ""
  }

  datatype SignupRequest = SignupRequest(fullName: string, email: string, password: string)

  datatype Field = FullName | Email | Password | ConfirmPassword

  class SignupScreenState {
    var form: SignupForm
    var loading: bool
    var error: string

    constructor ()
      ensures form == SignupForm("", "", "", "") && !loading && error == ""
    {
      form := SignupForm("", "", "", "");
      loading := false;
      error := "";
    }

    /** Every field edit stores the text and clears the error. */
    method Edit(field: Field, text: string)
      modifies this
      ensures form == match field
        case FullName => old(form).(fullName := text)
        case Email => old(form).(email := text)
        case Password => old(form).(password := text)
        case ConfirmPassword => old(form).(confirmPassword := text)
      ensures error == "" && loading == old(loading)
    {
      match field {
        case FullName => form := form.(fullName := text);
        case Email => form := form.(email := text);
        case Password => form := form.(password := text);
        case ConfirmPassword => form := form.(confirmPassword := text);
      }
      error := "";
    }

    /** `validateForm`: early returns in priority order, each writing its message. */
    method ValidateForm() returns (ok: bool)
      modifies this
      ensures ok <==> SignupValid(form)
      ensures !ok ==> error == SignupError(form)
      ensures ok ==> error == old(error)
      ensures form == old(form) && loading == old(loading)
    {
      if form.fullName == "" || form.email == "" || form.password == "" || form.confirmPassword == "" {
        error := FillAllFields;
        return false;
      }
      if form.password != form.confirmPassword {
        error := PasswordsDiffer;
        return false;
      }
      if |form.password| < MinPasswordLength {
        error := PasswordTooShort;
        return false;
      }
      return true;
    }

    /**
     * `handleSignup`: `signup` is called only for a valid form, with the name,
     * email and password. `signupThrows` is the outcome of that awaited call
     * and `clockId` the id the session would give the new user.
     */
    method HandleSignup(auth: AuthSession, signupThrows: bool, clockId: string) returns (request: Option<SignupRequest>)
      modifies this, auth
      ensures form == old(form)
      ensures request.Some? <==> SignupValid(form)
      ensures request.Some? ==> request.value == SignupRequest(form.fullName, form.email, form.password)
      ensures request.None? ==> error == SignupError(form) && auth.user == old(auth.user) && loading == old(loading)
      ensures request.Some? && !signupThrows ==>
        error == "" && !loading && auth.user == Some(User(clockId, form.email, form.fullName))
      ensures request.Some? && signupThrows ==>
        error == SignupFailed && !loading && auth.user == old(auth.user)
    {
      var ok := ValidateForm();
      if !ok {
        return None;
      }
      loading := true;
      error := "";
      request := Some(SignupRequest(form.fullName, form.email, form.password));
      if signupThrows {
        error := SignupFailed;
      } else {
        auth.Signup(form.fullName, form.email, form.password, clockId);
      }
      loading := false;
    }
  }

  /** The checks run in order: a short, mismatched pair reports the mismatch, not the length. */
  lemma MismatchBeforeLength()
    ensures SignupError(SignupForm("A", "a@b", "abc", "abd")) == PasswordsDiffer
  {
  }
}
