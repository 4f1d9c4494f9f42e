/** The account-code lifecycle: registration, e-mail verification codes and
    password-reset codes over the user table.

    Each route handler that writes is a method of `UserTable`: an
    early-return chain of checks, in the handler's order, that ends in at
    most one write to the table; the read-only reset-code check is a
    function. Time is the request's `now` in milliseconds; the random part of a
    code is the `draw` the handler took from `Math.random`; password hashing
    is the function `hash` the caller supplies; whether the mail send call
    returned without throwing is the flag `delivered` (what the send returns
    is never read). */
module Accounts {
  import opened Common
  import opened Numerals
  import opened EmailValidation

  /** Lifetime of every code: 15 minutes, in milliseconds. */
  const CodeLifetime: int := 15 * 60 * 1000
  const MinPasswordLength: nat := 6
  const CodeLength: nat := 6

  const AllFieldsRequired := "All fields are required"
  const PasswordTooShort := "Password must be at least 6 characters"
  const AccountExists := "An account with that email already exists"
  const NotAuthenticated := "Not authenticated"
  const UserNotFound := "User not found"
  const AlreadyVerifiedOnSend := "Email is already verified"
  const SendFailed := "Error sending the email"
  const InvalidCode := "Invalid code"
  const AlreadyVerified := "Email already verified"
  const NoActiveCode := "No active code. Please request a new one."
  const CodeExpired := "The code has expired. Please request a new one."
  const IncorrectCode := "Incorrect code"
  const EmailRequired := "Email is required"
  const RecoveryFailed := "Error processing the request"
  const IncompleteData := "Incomplete data"
  const InvalidOrExpired := "Invalid or expired code"
  const NoActiveRequest := "No active request found. Please request the code again."

  /** A row of the user table. Absent codes and expiries are `None`. */
  datatype User = User(
    id: UserId,
    name: string,
    email: string,
    password: string,
    isAdmin: bool,
    emailVerified: bool,
    verificationCode: Option<string>,
    verificationExpiry: Option<int>,
    resetCode: Option<string>,
    resetCodeExpiry: Option<int>)

  /** A code handed to the mail provider, and the address it goes to. */
  datatype Mail = Mail(to: string, code: string)

  /** A stored code is accepted for `given` at time `now` when it is present
      with an expiry, has not expired (`now > expiry` is expired, so the
      expiry instant itself is still accepted) and equals `given`. */
  predicate CodeAccepted(stored: Option<string>, expiry: Option<int>, given: string, now: int)
  {
    Truthy(stored) && expiry.Some? && !(now > expiry.value) && stored.value == given
  }

  /** `prisma.user.findUnique({ where: { email } })`: an exact,
      case-sensitive match through the unique e-mail index. */
  function Lookup(users: map<UserId, User>, emailIndex: map<string, UserId>, email: string): Option<User>
  {
    if email in emailIndex && emailIndex[email] in users then Some(users[emailIndex[email]]) else None
  }

  function NewUser(id: UserId, name: string, email: string, hashed: string): User
  {
    User(id, name, email, hashed, false, false, None, None, None, None)
  }

  function Verified(u: User): User
  {
    u.(emailVerified := true, verificationCode := None, verificationExpiry := None)
  }

  function WithPassword(u: User, hashed: string): User
  {
    u.(password := hashed, resetCode := None, resetCodeExpiry := None)
  }

  class UserTable {
    var users: map<UserId, User>
    /** The unique index on `email`. */
    var emailIndex: map<string, UserId>

    /** Rows are keyed by their id, and the e-mail index names exactly the
        rows, so no two users share an e-mail. */
    ghost predicate Valid()
      reads this
    {
      && (forall id :: id in users ==>
            users[id].id == id && users[id].email in emailIndex && emailIndex[users[id].email] == id)
      && (forall e :: e in emailIndex ==> emailIndex[e] in users && users[emailIndex[e]].email == e)
    }

    constructor ()
      ensures Valid() && users == map[] && emailIndex == map[]
    {
      users := map[];
      emailIndex := map[];
    }

    function FindByEmail(email: string): (r: Option<User>)
      reads this
      requires Valid()
      ensures r.Some? <==> email in emailIndex
      ensures r.Some? ==> r.value.email == email && r.value.id in users && users[r.value.id] == r.value
    {
      Lookup(users, emailIndex, email)
    }

    /** Replaces a row by one with the same id and e-mail. */
    method Put(u: User)
      requires Valid() && u.id in users && users[u.id].email == u.email
      modifies this
      ensures Valid()
      ensures users == old(users)[u.id := u] && emailIndex == old(emailIndex)
    {
      users := users[u.id := u];
    }

    // -------------------------------------------------------------------
    // POST /api/auth/register
    // -------------------------------------------------------------------

    /** Checks, in order: all three fields present, password length, e-mail
        domain, e-mail not yet taken; then inserts a non-admin, unverified
        user whose stored password is `hash(password)`. `newId` is the id
        the database assigns. */
    method Register(name: Option<string>, email: Option<string>, password: Option<string>,
                    hash: string -> string, newId: UserId) returns (reply: Reply)
      requires Valid() && newId !in users
      modifies this
      ensures Valid()
      ensures !(Truthy(name) && Truthy(email) && Truthy(password)) ==> reply == Err(400, AllFieldsRequired)
      ensures Truthy(name) && Truthy(email) && Truthy(password) ==>
        if |password.value| < MinPasswordLength then reply == Err(400, PasswordTooShort)
        else if !IsValidEmailDomain(email.value) then reply == Err(400, DomainMessage)
        else if email.value in old(emailIndex) then reply == Err(400, AccountExists)
        else reply == Ok(201, Some(newId))
      ensures reply.Err? ==> users == old(users) && emailIndex == old(emailIndex)
      ensures reply.Ok? ==>
        && users == old(users)[newId := NewUser(newId, name.value, email.value, hash(password.value))]
        && emailIndex == old(emailIndex)[email.value := newId]
      ensures reply.Ok? ==> |users| == |old(users)| + 1
    {
      if !Truthy(name) || !Truthy(email) || !Truthy(password) {
        return Err(400, AllFieldsRequired);
      }
      if |password.value| < MinPasswordLength {
        return Err(400, PasswordTooShort);
      }
      if !IsValidEmailDomain(email.value) {
        return Err(400, DomainMessage);
      }
      var existing := FindByEmail(email.value);
      if existing.Some? {
        return Err(400, AccountExists);
      }
      var hashed := hash(password.value);
      users := users[newId := NewUser(newId, name.value, email.value, hashed)];
      emailIndex := emailIndex[email.value := newId];
      reply := Ok(201, Some(newId));
    }

    // -------------------------------------------------------------------
    // POST /api/auth/send-verification
    // -------------------------------------------------------------------

    /** For the signed-in, unverified user: stores a fresh six-digit code
        valid for 15 minutes (replacing any earlier one), then mails it. The
        code is stored before sending, so a send call that throws answers 500 but
        leaves the code in place. */
    method SendVerification(session: Option<UserId>, draw: nat, now: int, delivered: bool)
      returns (reply: Reply, mail: Option<Mail>)
      requires Valid() && draw < 900000
      modifies this
      ensures Valid() && emailIndex == old(emailIndex)
      ensures session.None? ==> reply == Err(401, NotAuthenticated)
      ensures session.Some? && session.value !in old(users) ==> reply == Err(404, UserNotFound)
      ensures session.Some? && session.value in old(users) && old(users)[session.value].emailVerified ==>
        reply == Err(400, AlreadyVerifiedOnSend)
      ensures mail.None? ==> users == old(users)
      ensures mail.Some? <==> session.Some? && session.value in old(users) && !old(users)[session.value].emailVerified
      ensures mail.Some? ==>
        var u := old(users)[session.value];
        && mail.value == Mail(u.email, GenerateCode(draw))
        && users == old(users)[session.value := u.(verificationCode := Some(GenerateCode(draw)),
                                                     verificationExpiry := Some(now + CodeLifetime))]
        && reply == (if delivered then Ok(200, None) else Err(500, SendFailed))
    {
      mail := None;
      if session.None? {
        return Err(401, NotAuthenticated), mail;
      }
      if session.value !in users {
        return Err(404, UserNotFound), mail;
      }
      var user := users[session.value];
      if user.emailVerified {
        return Err(400, AlreadyVerifiedOnSend), mail;
      }
      var code := GenerateCode(draw);
      var expiry := now + CodeLifetime;
      Put(user.(verificationCode := Some(code), verificationExpiry := Some(expiry)));
      mail := Some(Mail(user.email, code));
      if !delivered {
        return Err(500, SendFailed), mail;
      }
      reply := Ok(200, None);
    }

    // -------------------------------------------------------------------
    // POST /api/auth/verify-email
    // -------------------------------------------------------------------

    /** Checks, in order: a session; a code of length 6 (before any lookup);
        the user exists and is not yet verified; a stored code with an
        expiry; not expired; equal codes. On success marks the user verified
        and clears the code. Every failure leaves the table unchanged. */
    method VerifyEmail(session: Option<UserId>, code: Option<string>, now: int) returns (reply: Reply)
      requires Valid()
      modifies this
      ensures Valid() && emailIndex == old(emailIndex)
      ensures session.None? ==> reply == Err(401, NotAuthenticated)
      ensures session.Some? && !(Truthy(code) && |code.value| == CodeLength) ==> reply == Err(400, InvalidCode)
      ensures session.Some? && Truthy(code) && |code.value| == CodeLength ==>
        var id := session.value;
        if id !in old(users) then reply == Err(404, UserNotFound)
        else
          var u := old(users)[id];
          if u.emailVerified then reply == Err(400, AlreadyVerified)
          else if !Truthy(u.verificationCode) || u.verificationExpiry.None? then reply == Err(400, NoActiveCode)
          else if now > u.verificationExpiry.value then reply == Err(400, CodeExpired)
          else if u.verificationCode.value != code.value then reply == Err(400, IncorrectCode)
          else reply == Ok(200, None)
      ensures reply.Ok? <==>
        && session.Some? && code.Some? && |code.value| == CodeLength
        && session.value in old(users) && !old(users)[session.value].emailVerified
        && CodeAccepted(old(users)[session.value].verificationCode,
                        old(users)[session.value].verificationExpiry, code.value, now)
      ensures reply.Err? ==> users == old(users)
      ensures reply.Ok? ==> users == old(users)[session.value := Verified(old(users)[session.value])]
    {
      if session.None? {
        return Err(401, NotAuthenticated);
      }
      if !Truthy(code) || |code.value| != CodeLength {
        return Err(400, InvalidCode);
      }
      if session.value !in users {
        return Err(404, UserNotFound);
      }
      var user := users[session.value];
      if user.emailVerified {
        return Err(400, AlreadyVerified);
      }
      if !Truthy(user.verificationCode) || user.verificationExpiry.None? {
        return Err(400, NoActiveCode);
      }
      if now > user.verificationExpiry.value {
        return Err(400, CodeExpired);
      }
      if user.verificationCode.value != code.value {
        return Err(400, IncorrectCode);
      }
      Put(Verified(user));
      reply := Ok(200, None);
    }

    // -------------------------------------------------------------------
    // POST /api/auth/forgot-password
    // -------------------------------------------------------------------

    /** Checks, in order: an e-mail; an accepted domain. An unknown address
        gets the same `{ success: true }` as a known one and nothing is
        written. For a known user a fresh reset code valid for 15 minutes
        replaces any earlier one and is mailed; a send call that throws answers 500
        with the code still stored. */
    method ForgotPassword(email: Option<string>, draw: nat, now: int, delivered: bool)
      returns (reply: Reply, mail: Option<Mail>)
      requires Valid() && draw < 900000
      modifies this
      ensures Valid() && emailIndex == old(emailIndex)
      ensures !Truthy(email) ==> reply == Err(400, EmailRequired)
      ensures Truthy(email) && !IsValidEmailDomain(email.value) ==> reply == Err(400, DomainMessage)
      ensures Truthy(email) && IsValidEmailDomain(email.value) && email.value !in old(emailIndex) ==>
        reply == Ok(200, None)
      ensures mail.None? ==> users == old(users)
      ensures mail.Some? <==> Truthy(email) && IsValidEmailDomain(email.value) && email.value in old(emailIndex)
      ensures mail.Some? ==>
        var id := old(emailIndex)[email.value];
        && mail.value == Mail(email.value, GenerateCode(draw))
        && users == old(users)[id := old(users)[id].(resetCode := Some(GenerateCode(draw)),
                                                     resetCodeExpiry := Some(now + CodeLifetime))]
        && reply == (if delivered then Ok(200, None) else Err(500, RecoveryFailed))
    {
      mail := None;
      if !Truthy(email) {
        return Err(400, EmailRequired), mail;
      }
      if !IsValidEmailDomain(email.value) {
        return Err(400, DomainMessage), mail;
      }
      var found := FindByEmail(email.value);
      if found.None? {
        return Ok(200, None), mail;
      }
      var user := found.value;
      var code := GenerateCode(draw);
      var expiry := now + CodeLifetime;
      Put(user.(resetCode := Some(code), resetCodeExpiry := Some(expiry)));
      mail := Some(Mail(email.value, code));
      if !delivered {
        return Err(500, RecoveryFailed), mail;
      }
      reply := Ok(200, None);
    }

    // -------------------------------------------------------------------
    // POST /api/auth/verify-reset-code
    // -------------------------------------------------------------------

    /** Read-only: e-mail and code present; then an unknown user, a missing
        code and a missing expiry all give the same "Invalid or expired
        code"; then the expiry; then equality. No length check here. */
    function VerifyResetCode(email: Option<string>, code: Option<string>, now: int): (r: Reply)
      reads this
      requires Valid()
      ensures r.Ok? <==>
        && Truthy(email) && Truthy(code) && email.value in emailIndex
        && var u := users[emailIndex[email.value]];
           CodeAccepted(u.resetCode, u.resetCodeExpiry, code.value, now)
      ensures !(Truthy(email) && Truthy(code)) ==> r == Err(400, IncompleteData)
      ensures Truthy(email) && Truthy(code) ==>
        if email.value !in emailIndex then r == Err(400, InvalidOrExpired)
        else
          var u := users[emailIndex[email.value]];
          if !Truthy(u.resetCode) || u.resetCodeExpiry.None? then r == Err(400, InvalidOrExpired)
          else if now > u.resetCodeExpiry.value then r == Err(400, CodeExpired)
          else if u.resetCode.value != code.value then r == Err(400, IncorrectCode)
          else r == Ok(200, None)
    {
      if !Truthy(email) || !Truthy(code) then Err(400, IncompleteData)
      else
        var found := FindByEmail(email.value);
        if found.None? || !Truthy(found.value.resetCode) || found.value.resetCodeExpiry.None? then
          Err(400, InvalidOrExpired)
        else if now > found.value.resetCodeExpiry.value then Err(400, CodeExpired)
        else if found.value.resetCode.value != code.value then Err(400, IncorrectCode)
        else Ok(200, None)
    }

    // -------------------------------------------------------------------
    // POST /api/auth/reset-password
    // -------------------------------------------------------------------

    /** Checks, in order: all three fields; new password length (before the
        lookup); the user exists; a stored reset code with an expiry; not
        expired; equal codes. On success stores `hash(newPassword)` and
        clears the reset code, so a code works once. Failures write
        nothing. */
    method ResetPassword(email: Option<string>, code: Option<string>, newPassword: Option<string>,
                         hash: string -> string, now: int) returns (reply: Reply)
      requires Valid()
      modifies this
      ensures Valid() && emailIndex == old(emailIndex)
      ensures !(Truthy(email) && Truthy(code) && Truthy(newPassword)) ==> reply == Err(400, AllFieldsRequired)
      ensures Truthy(email) && Truthy(code) && Truthy(newPassword) ==>
        if |newPassword.value| < MinPasswordLength then reply == Err(400, PasswordTooShort)
        else if email.value !in old(emailIndex) then reply == Err(400, InvalidOrExpired)
        else
          var u := old(users)[old(emailIndex)[email.value]];
          if !Truthy(u.resetCode) || u.resetCodeExpiry.None? then reply == Err(400, NoActiveRequest)
          else if now > u.resetCodeExpiry.value then reply == Err(400, CodeExpired)
          else if u.resetCode.value != code.value then reply == Err(400, IncorrectCode)
          else reply == Ok(200, None)
      // The same user state and clock accept a code here exactly when
      // verify-reset-code accepts it.
      ensures reply.Ok? <==>
        Truthy(newPassword) && |newPassword.value| >= MinPasswordLength && old(VerifyResetCode(email, code, now)).Ok?
      ensures reply.Err? ==> users == old(users)
      ensures reply.Ok? ==>
        var id := old(emailIndex)[email.value];
        users == old(users)[id := WithPassword(old(users)[id], hash(newPassword.value))]
      // A code that reset the password is gone: no code is accepted any more.
      ensures reply.Ok? ==> forall c, t :: VerifyResetCode(email, c, t).Err?
    {
      if !Truthy(email) || !Truthy(code) || !Truthy(newPassword) {
        return Err(400, AllFieldsRequired);
      }
      if |newPassword.value| < MinPasswordLength {
        return Err(400, PasswordTooShort);
      }
      var found := FindByEmail(email.value);
      if found.None? {
        return Err(400, InvalidOrExpired);
      }
      var user := found.value;
      if !Truthy(user.resetCode) || user.resetCodeExpiry.None? {
        return Err(400, NoActiveRequest);
      }
      if now > user.resetCodeExpiry.value {
        return Err(400, CodeExpired);
      }
      if user.resetCode.value != code.value {
        return Err(400, IncorrectCode);
      }
      var hashed := hash(newPassword.value);
      Put(WithPassword(user, hashed));
      reply := Ok(200, None);
    }
  }

  // ---------------------------------------------------------------------
  // The lifecycle across requests
  // ---------------------------------------------------------------------

  /** A code sent at `sentAt` and entered by the same user at any time up to
      and including `sentAt + 15 min` verifies the address; repeating the
      same request then fails as already verified. */
  method SendThenVerify(table: UserTable, id: UserId, draw: nat, sentAt: int, enteredAt: int)
    returns (first: Reply, second: Reply)
    requires table.Valid() && draw < 900000
    requires id in table.users && !table.users[id].emailVerified
    requires enteredAt <= sentAt + CodeLifetime
    modifies table
    ensures table.Valid() && id in table.users && table.users[id].emailVerified
    ensures first == Ok(200, None)
    ensures second == Err(400, AlreadyVerified)
  {
    var sent, mail := table.SendVerification(Some(id), draw, sentAt, true);
    first := table.VerifyEmail(Some(id), Some(mail.value.code), enteredAt);
    second := table.VerifyEmail(Some(id), Some(mail.value.code), enteredAt);
  }

  /** One millisecond after the 15 minutes, the same code is refused as
      expired and the user stays unverified. */
  method SendThenVerifyLate(table: UserTable, id: UserId, draw: nat, sentAt: int)
    returns (reply: Reply)
    requires table.Valid() && draw < 900000
    requires id in table.users && !table.users[id].emailVerified
    modifies table
    ensures table.Valid() && id in table.users && !table.users[id].emailVerified
    ensures reply == Err(400, CodeExpired)
  {
    var sent, mail := table.SendVerification(Some(id), draw, sentAt, true);
    reply := table.VerifyEmail(Some(id), Some(mail.value.code), sentAt + CodeLifetime + 1);
  }

  /** A reset code sent by forgot-password is accepted by verify-reset-code
      (which changes nothing), then by reset-password, and after that by
      neither. */
  method RecoverPassword(table: UserTable, email: string, draw: nat, sentAt: int, enteredAt: int,
                         newPassword: string, hash: string -> string)
    returns (check: Reply, reset: Reply, replay: Reply)
    requires table.Valid() && draw < 900000
    requires email in table.emailIndex && IsValidEmailDomain(email)
    requires |newPassword| >= MinPasswordLength
    requires enteredAt <= sentAt + CodeLifetime
    modifies table
    ensures table.Valid()
    ensures check == Ok(200, None) && reset == Ok(200, None)
    ensures replay.Err?
    ensures email in table.emailIndex && table.users[table.emailIndex[email]].password == hash(newPassword)
  {
    var sent, mail := table.ForgotPassword(Some(email), draw, sentAt, true);
    var code := mail.value.code;
    check := table.VerifyResetCode(Some(email), Some(code), enteredAt);
    reset := table.ResetPassword(Some(email), Some(code), Some(newPassword), hash, enteredAt);
    replay := table.ResetPassword(Some(email), Some(code), Some(newPassword), hash, enteredAt);
  }
}
