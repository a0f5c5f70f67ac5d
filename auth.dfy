/** The session of src/contexts/AuthContext.tsx: fixed credentials, a user restored from
    the browser's saved session when the application starts, login and logout. The saved
    session is the field `saved`; its JSON encoding is not modelled. */
module Auth {
  import opened Wrappers
  import opened Types

  const AdminUser: User := User("1", "admin", true)

  /** The only credentials the application accepts. */
  predicate Credenciais(username: string, password: string) {
    username == "admin" && password == "acesso123"
  }

  class AuthSession {
    var user: Option<User>
    var isLoading: bool
    /** The browser's saved session under the key 'salon_user'. */
    var saved: Option<User>

    /** The session shown agrees with the saved one. */
    predicate Synced()
      reads this
    {
      user == saved
    }

    /** Mounting the provider: no user yet, loading, the saved session as found. */
    constructor(saved: Option<User>)
      ensures user.None? && isLoading && this.saved == saved
    {
      user := None;
      isLoading := true;
      this.saved := saved;
    }

    /** The start-up effect: the saved session, if any, becomes the user; loading ends. */
    method Restore()
      modifies this
      ensures user == (if saved.Some? then saved else old(user))
      ensures saved == old(saved) && !isLoading
      ensures old(user).None? ==> Synced()
    {
      if saved.Some? {
        user := saved;
      }
      isLoading := false;
    }

    /** Accepts exactly the fixed credentials, then signs in the administrator and saves
        the session; anything else changes nothing. */
    method Login(username: string, password: string) returns (ok: bool)
      modifies this
      ensures ok <==> Credenciais(username, password)
      ensures ok ==> user == Some(AdminUser) && saved == Some(AdminUser) && Synced()
      ensures !ok ==> user == old(user) && saved == old(saved)
      ensures isLoading == old(isLoading)
      ensures old(Synced()) ==> Synced()
    {
      if username == "admin" && password == "acesso123" {
        var newUser := User("1", "admin", true);
        user := Some(newUser);
        saved := Some(newUser);
        return true;
      }
      return false;
    }

    /** Signs out and forgets the saved session. */
    method Logout()
      modifies this
      ensures user.None? && saved.None? && Synced()
      ensures isLoading == old(isLoading)
    {
      user := None;
      saved := None;
    }
  }

  /** A user can only be signed in by a saved session or by the fixed credentials: from
      a fresh start with nothing saved, any login attempt that is not the fixed pair
      leaves nobody signed in. */
  method FreshStartRefusesOthers(username: string, password: string) returns (signedIn: bool)
    ensures signedIn <==> Credenciais(username, password)
  {
    var session := new AuthSession(None);
    session.Restore();
    var ok := session.Login(username, password);
    signedIn := session.user.Some?;
  }
}
