/**
 * The simulated auth session: a user that `login` and `signup` set and
 * `logout` clears. No call reaches a server; `signup`'s id comes from the
 * clock and is a parameter here.
 */
module AuthContext {
  import opened Wrappers

  datatype User = User(id: string, email: string, name: string)

  const LoginUserId := "1"
  const LoginName := "John Doe"

  class AuthSession {
    var user: Option<User>

    /** `isAuthenticated` is `!!user`. */
    predicate IsAuthenticated()
      reads this
    {
      user.Some?
    }

    constructor ()
      ensures user == None && !IsAuthenticated()
    {
      user := None;
    }

    /** Any credentials are accepted: the user gets id "1", the given email and a fixed name. */
    method Login(email: string, password: string)
      modifies this
      ensures user == Some(User(LoginUserId, email, LoginName))
      ensures IsAuthenticated()
    {
      user := Some(User(LoginUserId, email, LoginName));
    }

    /** The new user carries the given name and email; its id is the clock reading `clockId`. */
    method Signup(fullName: string, email: string, password: string, clockId: string)
      modifies this
      ensures user == Some(User(clockId, email, fullName))
      ensures IsAuthenticated()
    {
      user := Some(User(clockId, email, fullName));
    }

    /** Waits and logs; the session is not touched. */
    method ResetPassword(email: string)
      modifies this
      ensures user == old(user)
      ensures IsAuthenticated() == old(IsAuthenticated())
    {
    }

    method Logout()
      modifies this
      ensures user == None && !IsAuthenticated()
    {
      user := None;
    }
  }
}
