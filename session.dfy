/** Sign-in and the session token: the credentials check, the `jwt`
    callback that fills and refreshes the token, and the `session` callback
    that copies the token into the session the pages see. */
module Session {
  import opened Common
  import Accounts

  const CredentialsRequired := "Email and password required"
  const InvalidCredentials := "Invalid credentials"

  /** The sign-in form as received; either field may be missing. */
  datatype Credentials = Credentials(email: Option<string>, password: Option<string>)

  /** What a successful sign-in hands to the `jwt` callback. */
  datatype AuthUser = AuthUser(id: UserId, email: string, name: string, isAdmin: bool, emailVerified: bool)

  datatype AuthResult = Signed(user: AuthUser) | Denied(message: string)

  /** Why the `jwt` callback runs. */
  datatype Trigger = SignIn | SignUp | Update | NoTrigger

  /** The three claims the application adds to the token. */
  datatype Claims = Claims(id: Option<UserId>, isAdmin: Option<bool>, emailVerified: Option<bool>)

  /** `authorize`: both fields required, then lookup by exact email, then
      the password check. `matches(plain, hash)` is the hash comparison. An
      unknown email and a wrong password are answered alike. */
  function Authorize(credentials: Option<Credentials>, users: map<UserId, Accounts.User>,
                     emailIndex: map<string, UserId>, matches: (string, string) -> bool): (r: AuthResult)
    ensures credentials.None? || !Truthy(credentials.value.email) || !Truthy(credentials.value.password) ==>
      r == Denied(CredentialsRequired)
    ensures r.Denied? ==> r.message == CredentialsRequired || r.message == InvalidCredentials
    ensures (credentials.Some? && Truthy(credentials.value.email) && Truthy(credentials.value.password) &&
             r.Denied?) ==> r.message == InvalidCredentials
    ensures r.Signed? <==>
      && credentials.Some? && Truthy(credentials.value.email) && Truthy(credentials.value.password)
      && Accounts.Lookup(users, emailIndex, credentials.value.email.value).Some?
      && matches(credentials.value.password.value,
                 Accounts.Lookup(users, emailIndex, credentials.value.email.value).value.password)
    ensures r.Signed? ==>
      var u := Accounts.Lookup(users, emailIndex, credentials.value.email.value).value;
      r.user == AuthUser(u.id, u.email, u.name, u.isAdmin, u.emailVerified)
  {
    if credentials.None? || !Truthy(credentials.value.email) || !Truthy(credentials.value.password) then
      Denied(CredentialsRequired)
    else
      match Accounts.Lookup(users, emailIndex, credentials.value.email.value)
      case None => Denied(InvalidCredentials)
      case Some(u) =>
        if !matches(credentials.value.password.value, u.password) then Denied(InvalidCredentials)
        else Signed(AuthUser(u.id, u.email, u.name, u.isAdmin, u.emailVerified))
  }

  /** A caller cannot tell an unregistered email from a registered one with
      a wrong password. */
  lemma {:induction false} NoAccountEnumeration(unknown: string, known: string, p1: string, p2: string,
                                                users: map<UserId, Accounts.User>, emailIndex: map<string, UserId>,
                                                matches: (string, string) -> bool)
    requires |unknown| > 0 && |known| > 0 && |p1| > 0 && |p2| > 0
    requires Accounts.Lookup(users, emailIndex, unknown).None?
    requires Accounts.Lookup(users, emailIndex, known).Some?
    requires !matches(p2, Accounts.Lookup(users, emailIndex, known).value.password)
    ensures Authorize(Some(Credentials(Some(unknown), Some(p1))), users, emailIndex, matches)
         == Authorize(Some(Credentials(Some(known), Some(p2))), users, emailIndex, matches)
         == Denied(InvalidCredentials)
  {
  }

  /** The signed token's application claims. */
  class Token {
    var id: Option<UserId>
    var isAdmin: Option<bool>
    var emailVerified: Option<bool>

    constructor ()
      ensures id.None? && isAdmin.None? && emailVerified.None?
    {
      id, isAdmin, emailVerified := None, None, None;
    }

    function AsClaims(): (c: Claims)
      reads this
      ensures c.id == id && c.isAdmin == isAdmin && c.emailVerified == emailVerified
    {
      Claims(id, isAdmin, emailVerified)
    }

    /** The `jwt` callback. On sign-in (`user` present) the three claims are
        copied from the user; on an `update` whose session payload defines
        `emailVerified`, that claim alone is overwritten. Nothing else
        changes it. */
    method Jwt(user: Option<AuthUser>, trigger: Trigger, refresh: Option<bool>)
      modifies this
      ensures id == (if user.Some? then Some(user.value.id) else old(id))
      ensures isAdmin == (if user.Some? then Some(user.value.isAdmin) else old(isAdmin))
      ensures emailVerified ==
        (if trigger == Update && refresh.Some? then refresh
         else if user.Some? then Some(user.value.emailVerified)
         else old(emailVerified))
    {
      if user.Some? {
        id := Some(user.value.id);
        isAdmin := Some(user.value.isAdmin);
        emailVerified := Some(user.value.emailVerified);
      }
      if trigger == Update && refresh.Some? {
        emailVerified := refresh;
      }
    }
  }

  /** `session.user` as the pages see it. */
  class SessionView {
    var userId: Option<UserId>
    var isAdmin: Option<bool>
    var emailVerified: Option<bool>

    constructor ()
      ensures userId.None? && isAdmin.None? && emailVerified.None?
    {
      userId, isAdmin, emailVerified := None, None, None;
    }

    /** The `session` callback: with a token, the three claims are copied
        into the session; without one the session is left as it is. */
    method Populate(token: Token?)
      modifies this
      ensures token != null ==>
        userId == token.id && isAdmin == token.isAdmin && emailVerified == token.emailVerified
      ensures token == null ==>
        userId == old(userId) && isAdmin == old(isAdmin) && emailVerified == old(emailVerified)
    {
      if token != null {
        userId := token.id;
        isAdmin := token.isAdmin;
        emailVerified := token.emailVerified;
      }
    }
  }

  /** Sign in, then refresh the session with `update({ emailVerified: true })`
      once the address is verified: the session now says verified, and the
      id and admin flag are still the signed-in user's. */
  method RefreshAfterVerification(token: Token, view: SessionView, user: AuthUser)
    modifies token, view
    ensures view.userId == Some(user.id) && view.isAdmin == Some(user.isAdmin)
    ensures view.emailVerified == Some(true)
  {
    token.Jwt(Some(user), SignIn, None);
    view.Populate(token);
    token.Jwt(None, Update, Some(true));
    view.Populate(token);
  }
}
