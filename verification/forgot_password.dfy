/** The password-reset form. */
module ForgotPasswordScreen {
  import opened Wrappers
  import opened AuthContext

  const EnterEmail := "Please enter your email address"
  const ResetFailed := "Failed to send reset password email"

  class ResetForm {
    var email: string
    var loading: bool
    var error: string
    var success: bool

    constructor ()
      ensures email == "" && !loading && error == "" && !success
    {
      email, loading, error, success := "", false, "", false;
    }

    method EditEmail(text: string)
      modifies this
      ensures email == text && error == ""
      ensures loading == old(loading) && success == old(success)
    {
      email := text;
      error := "";
    }

    /**
     * `handleResetPassword`. `resetThrows` is the outcome of the awaited
     * `resetPassword` call. Returns the address passed to it, if it was called.
     */
    method HandleResetPassword(auth: AuthSession, resetThrows: bool) returns (request: Option<string>)
      modifies this, auth
      ensures email == old(email)
      ensures request.Some? <==> email != ""
      ensures request.Some? ==> request.value == email
      ensures auth.user == old(auth.user)
      ensures request.None? ==> error == EnterEmail && success == old(success) && loading == old(loading)
      ensures request.Some? && !resetThrows ==> success && error == "" && !loading
      ensures request.Some? && resetThrows ==> success == old(success) && error == ResetFailed && !loading
    {
      if email == "" {
        error := EnterEmail;
        return None;
      }
      loading := true;
      error := "";
      request := Some(email);
      auth.ResetPassword(email);
      if resetThrows {
        error := ResetFailed;
      } else {
        success := true;
      }
      loading := false;
    }
  }
}
