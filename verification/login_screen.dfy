/** The login form: the empty-field guard, the call to `login`, and the guest button. */
module LoginScreen {
  import opened Wrappers
  import opened AuthContext

  const FillAllFields := "Please fill in all fields"
  const InvalidCredentials := "Invalid email or password"

  datatype Credentials = Credentials(email: string, password: string)

  class LoginForm {
    var email: string
    var password: string
    var loading: bool
    var error: string

    constructor ()
      ensures email == "" && password == "" && !loading && error == ""
    {
      email, password, loading, error := "", "", false, "";
    }

    method EditEmail(text: string)
      modifies this
      ensures email == text && error == ""
      ensures password == old(password) && loading == old(loading)
    {
      email := text;
      error := "";
    }

    method EditPassword(text: string)
      modifies this
      ensures password == text && error == ""
      ensures email == old(email) && loading == old(loading)
    {
      password := text;
      error := "";
    }

    /**
     * `handleLogin`. The fields are tested for emptiness without trimming.
     * `loginThrows` is the outcome of the awaited `login` call, which the
     * session shown here never rejects. Returns the credentials passed to
     * `login`, if it was called.
     */
    method HandleLogin(auth: AuthSession, loginThrows: bool) returns (request: Option<Credentials>)
      modifies this, auth
      ensures email == old(email) && password == old(password)
      ensures request.Some? <==> old(email) != "" && old(password) != ""
      ensures request.Some? ==> request.value == Credentials(email, password)
      ensures request.None? ==> error == FillAllFields && loading == old(loading) && auth.user == old(auth.user)
      ensures request.Some? && !loginThrows ==>
        error == "" && !loading && auth.user == Some(User(LoginUserId, email, LoginName))
      ensures request.Some? && loginThrows ==>
        error == InvalidCredentials && !loading && auth.user == old(auth.user)
    {
      if email == "" || password == "" {
        error := FillAllFields;
        return None;
      }
      loading := true;
      error := "";
      request := Some(Credentials(email, password));
      if loginThrows {
        error := InvalidCredentials;
      } else {
        auth.Login(email, password);
      }
      loading := false;
    }

    /**
     * `handleGuestLogin`: the guest call is not part of the auth interface and
     * its effect is unknown. Whether it returns or throws, the catch only logs,
     * so the error text is untouched and `finally` ends loading.
     */
    method HandleGuestLogin()
      modifies this
      ensures !loading
      ensures error == old(error) && email == old(email) && password == old(password)
    {
      loading := true;
      loading := false;
    }
  }
}
