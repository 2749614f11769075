/** Account handlers of controllers/userController.js: registration with an e-mailed verification code,
    e-mail verification, password recovery, and the admin operations on users. The random code is a
    parameter drawn from [100000, 999999), the clock is `now` in milliseconds, the password hash is an
    uninterpreted function and a mail delivery is a boolean saying whether it succeeded. */
module UserController {
  import opened Models
  import opened Database

  // ---------------------------------------------------------------- codes

  /** Ten minutes, in milliseconds: how long a code stays valid. */
  const CodeLifetime: int := 10 * 60 * 1000

  predicate IsDigit(c: char) {
    '0' <= c <= '9'
  }

  predicate IsDigits(s: string) {
    forall i :: 0 <= i < |s| ==> IsDigit(s[i])
  }

  function DigitChar(d: nat): (c: char)
    requires d < 10
    ensures IsDigit(c) && c as int - '0' as int == d
  {
    ('0' as int + d) as char
  }

  /** `toString()` of a non-negative integer: its decimal digits, most significant first. */
  function DecimalText(n: nat): (r: string)
    ensures |r| >= 1 && IsDigits(r)
    decreases n
  {
    if n < 10 then [DigitChar(n)] else DecimalText(n / 10) + [DigitChar(n % 10)]
  }

  /** The number a string of decimal digits denotes. */
  function DecimalValue(s: string): nat
    requires IsDigits(s)
    decreases |s|
  {
    if s == [] then 0 else 10 * DecimalValue(s[..|s| - 1]) + (s[|s| - 1] as int - '0' as int)
  }

  /** Reading the digits back gives the number. */
  lemma {:induction false} DecimalRoundTrip(n: nat)
    ensures DecimalValue(DecimalText(n)) == n
    decreases n
  {
    var s := DecimalText(n);
    if n >= 10 {
      DecimalRoundTrip(n / 10);
      assert s[..|s| - 1] == DecimalText(n / 10);
    } else {
      assert s[..|s| - 1] == [];
    }
  }

  /** Different draws give different codes. */
  lemma CodesDiffer(a: nat, b: nat)
    requires a != b
    ensures DecimalText(a) != DecimalText(b)
  {
    DecimalRoundTrip(a);
    DecimalRoundTrip(b);
  }

  /** A stored code has expired only when an expiry is set and lies strictly before `now`; comparing an
      absent expiry with a date is false in JavaScript. */
  predicate Expired(u: User, now: int) {
    u.codeExpires.Some? && u.codeExpires.value < now
  }

  /** A code is accepted when it equals the stored one, absent values included, and has not expired. */
  predicate CodeAccepted(u: User, code: Option<string>, now: int) {
    u.verificationCode == code && !Expired(u, now)
  }

  /** A user with a fresh code and expiry. */
  function WithCode(u: User, code: nat, now: int): (r: User)
    ensures r.(verificationCode := u.verificationCode, codeExpires := u.codeExpires) == u
    ensures forall t :: CodeAccepted(r, Some(DecimalText(code)), t) <==> t <= now + CodeLifetime
  {
    u.(verificationCode := Some(DecimalText(code)), codeExpires := Some(now + CodeLifetime))
  }

  /** A user whose code and expiry are cleared. */
  function Cleared(u: User): (r: User)
    ensures r.verificationCode.None? && r.codeExpires.None?
    ensures r.(verificationCode := u.verificationCode, codeExpires := u.codeExpires) == u
  {
    u.(verificationCode := None, codeExpires := None)
  }

  /** Once used, a code is gone: the same code is refused at any later time. */
  lemma CodeSingleUse(u: User, c: string, t: int)
    ensures !CodeAccepted(Cleared(u), Some(c), t)
  {
  }

  /** Literal comparison: a user without a stored code and expiry accepts a request without a code. */
  lemma AbsentCodeMatchesAbsent(u: User, t: int)
    requires u.verificationCode.None? && u.codeExpires.None?
    ensures CodeAccepted(u, None, t)
  {
  }

  // ---------------------------------------------------------------- lookup

  /** `findOne({ email })` over the users with ids below `n`, in insertion order; no e-mail finds nobody. */
  function UserWithEmail(users: map<Id, User>, email: Option<string>, n: nat): (r: Option<Id>)
    ensures r.Some? ==> r.value < n && r.value in users && email == Some(users[r.value].email)
    ensures r.Some? ==> forall k: Id :: k < r.value && k in users ==> email != Some(users[k].email)
    ensures r.None? ==> forall k: Id :: k < n && k in users ==> email != Some(users[k].email)
    decreases n
  {
    if n == 0 then None
    else
      var r := UserWithEmail(users, email, n - 1);
      if r.Some? then r
      else if n - 1 in users && email == Some(users[n - 1].email) then Some(n - 1)
      else None
  }

  /** Adding a user whose e-mail nobody has keeps e-mails unique. */
  lemma AddKeepsEmailsUnique(users: map<Id, User>, id: Id, u: User)
    requires EmailsUnique(users) && id !in users
    requires forall k :: k in users ==> users[k].email != u.email
    ensures EmailsUnique(users[id := u])
  {
  }

  /** Rewriting a user without touching its e-mail keeps e-mails unique. */
  lemma UpdateKeepsEmailsUnique(users: map<Id, User>, id: Id, u: User)
    requires EmailsUnique(users) && id in users && u.email == users[id].email
    ensures EmailsUnique(users[id := u])
  {
    var users' := users[id := u];
    forall a, b | a in users' && b in users' && users'[a].email == users'[b].email ensures a == b {
      assert users'[a].email == users[a].email && users'[b].email == users[b].email;
    }
  }

  // ---------------------------------------------------------------- handlers

  /** The body of a registration. */
  datatype Registration = Registration(nombre: Option<string>, email: Option<string>, password: Option<string>)

  /** registerUser: 400 for a missing field or an e-mail already registered; the code is mailed before
      anything is saved, so a failed delivery answers 500 and stores nothing; otherwise a `cliente`,
      not verified, with the hashed password, the code and its expiry ten minutes from now. */
  method RegisterUser(st: Store, req: Registration, code: nat, now: int, mailOk: bool, hash: string -> string)
    returns (out: Outcome<Id>)
    requires st.Valid()
    requires 100000 <= code < 999999
    modifies st`users, st`nextId
    ensures st.Valid()
    ensures !Truthy(req.nombre) || !Truthy(req.email) || !Truthy(req.password) ==>
      out == BadRequest && st.users == old(st.users) && st.nextId == old(st.nextId)
    ensures Truthy(req.nombre) && Truthy(req.email) && Truthy(req.password) ==>
      if UserWithEmail(old(st.users), req.email, old(st.nextId)).Some? then
        out == BadRequest && st.users == old(st.users) && st.nextId == old(st.nextId)
      else if !mailOk then
        out == ServerError && st.users == old(st.users) && st.nextId == old(st.nextId)
      else
        var u := User(req.nombre.value, req.email.value, hash(req.password.value), Cliente, false,
          Some(DecimalText(code)), Some(now + CodeLifetime));
        && out == Ok(old(st.nextId))
        && old(st.nextId) !in old(st.users)
        && st.users == old(st.users)[old(st.nextId) := u]
        && VerificarPassword(u, req.password.value, hash)
  {
    if !Truthy(req.nombre) || !Truthy(req.email) || !Truthy(req.password) {
      return BadRequest;
    }
    var usuarioExistente := UserWithEmail(st.users, req.email, st.nextId);
    if usuarioExistente.Some? {
      return BadRequest;
    }
    var usuario := User(req.nombre.value, req.email.value, req.password.value, Cliente, false, None, None);
    usuario := WithCode(usuario, code, now);
    if !mailOk {
      return ServerError;
    }
    usuario := PreSave(usuario, true, hash);
    var id := st.NewId();
    AddKeepsEmailsUnique(st.users, id, usuario);
    st.users := st.users[id := usuario];
    out := Ok(id);
  }

  /** verifyEmail: 404 for an unknown e-mail, then 400 if already verified, 400 for a different code
      and 400 for an expired one; otherwise the user is verified and the code and expiry are cleared. */
  method VerifyEmail(st: Store, email: Option<string>, code: Option<string>, now: int) returns (out: Outcome<()>)
    requires st.Valid()
    modifies st`users
    ensures st.Valid()
    ensures var found := UserWithEmail(old(st.users), email, st.nextId);
      if found.None? then out == NotFound && st.users == old(st.users)
      else
        var u := old(st.users)[found.value];
        if u.verified || !CodeAccepted(u, code, now) then out == BadRequest && st.users == old(st.users)
        else out == Ok(()) && st.users == old(st.users)[found.value := Cleared(u).(verified := true)]
  {
    var found := UserWithEmail(st.users, email, st.nextId);
    if found.None? {
      return NotFound;
    }
    var user := st.users[found.value];
    if user.verified {
      return BadRequest;
    }
    if user.verificationCode != code {
      return BadRequest;
    }
    if user.codeExpires.Some? && user.codeExpires.value < now {
      return BadRequest;
    }
    user := Cleared(user).(verified := true);
    user := PreSave(user, false, x => x);
    UpdateKeepsEmailsUnique(st.users, found.value, user);
    st.users := st.users[found.value := user];
    out := Ok(());
  }

  /** sendResetCode: 404 for an unknown e-mail; otherwise any previous code and expiry are overwritten and
      saved before the mail is sent, so a failed delivery answers 500 with the new code already stored.
      The account need not be verified. */
  method SendResetCode(st: Store, email: Option<string>, code: nat, now: int, mailOk: bool) returns (out: Outcome<()>)
    requires st.Valid()
    requires 100000 <= code < 999999
    modifies st`users
    ensures st.Valid()
    ensures var found := UserWithEmail(old(st.users), email, st.nextId);
      if found.None? then out == NotFound && st.users == old(st.users)
      else
        && st.users == old(st.users)[found.value := WithCode(old(st.users)[found.value], code, now)]
        && out == (if mailOk then Ok(()) else ServerError)
  {
    var found := UserWithEmail(st.users, email, st.nextId);
    if found.None? {
      return NotFound;
    }
    var user := WithCode(st.users[found.value], code, now);
    UpdateKeepsEmailsUnique(st.users, found.value, user);
    st.users := st.users[found.value := user];
    if !mailOk {
      return ServerError;
    }
    out := Ok(());
  }

  /** resetPassword: the same 400 for an unknown e-mail and a different code, 400 for an expired code;
      a missing or empty new password fails the `required` validation (500) and nothing is saved;
      otherwise the new password is stored hashed and the code and expiry are cleared. */
  method ResetPassword(st: Store, email: Option<string>, code: Option<string>, newPassword: Option<string>,
                       now: int, hash: string -> string) returns (out: Outcome<()>)
    requires st.Valid()
    modifies st`users
    ensures st.Valid()
    ensures var found := UserWithEmail(old(st.users), email, st.nextId);
      if found.None? || !CodeAccepted(old(st.users)[found.value], code, now) then
        out == BadRequest && st.users == old(st.users)
      else if !Truthy(newPassword) then out == ServerError && st.users == old(st.users)
      else
        var u := Cleared(old(st.users)[found.value]).(password := hash(newPassword.value));
        && out == Ok(())
        && st.users == old(st.users)[found.value := u]
        && VerificarPassword(u, newPassword.value, hash)
  {
    var found := UserWithEmail(st.users, email, st.nextId);
    if found.None? || st.users[found.value].verificationCode != code {
      return BadRequest;
    }
    var user := st.users[found.value];
    if user.codeExpires.Some? && user.codeExpires.value < now {
      return BadRequest;
    }
    if !Truthy(newPassword) {
      return ServerError;
    }
    user := Cleared(user).(password := newPassword.value);
    user := PreSave(user, true, hash);
    UpdateKeepsEmailsUnique(st.users, found.value, user);
    st.users := st.users[found.value := user];
    out := Ok(());
  }

  /** The body of an admin's create-user request. */
  datatype NewUser = NewUser(nombre: Option<string>, email: Option<string>, password: Option<string>, rol: Option<string>)

  /** createUser (admins): 400 for a missing field or an e-mail already registered; a role outside the
      enum fails validation (500); otherwise the user is stored with that role, not verified, no code,
      and the hashed password. */
  method CreateUser(st: Store, caller: Id, req: NewUser, hash: string -> string) returns (out: Outcome<Id>)
    requires st.Valid() && caller in st.users && st.users[caller].rol == Admin
    modifies st`users, st`nextId
    ensures st.Valid()
    ensures !Truthy(req.nombre) || !Truthy(req.email) || !Truthy(req.password) || !Truthy(req.rol) ==>
      out == BadRequest && st.users == old(st.users) && st.nextId == old(st.nextId)
    ensures Truthy(req.nombre) && Truthy(req.email) && Truthy(req.password) && Truthy(req.rol) ==>
      if UserWithEmail(old(st.users), req.email, old(st.nextId)).Some? then
        out == BadRequest && st.users == old(st.users) && st.nextId == old(st.nextId)
      else if ParseRol(req.rol.value).None? then
        out == ServerError && st.users == old(st.users) && st.nextId == old(st.nextId)
      else
        var u := User(req.nombre.value, req.email.value, hash(req.password.value), ParseRol(req.rol.value).value,
          false, None, None);
        && out == Ok(old(st.nextId))
        && old(st.nextId) !in old(st.users)
        && st.users == old(st.users)[old(st.nextId) := u]
        && RolText(u.rol) == req.rol.value
  {
    if !Truthy(req.nombre) || !Truthy(req.email) || !Truthy(req.password) || !Truthy(req.rol) {
      return BadRequest;
    }
    var usuarioExistente := UserWithEmail(st.users, req.email, st.nextId);
    if usuarioExistente.Some? {
      return BadRequest;
    }
    var rol := ParseRol(req.rol.value);
    if rol.None? {
      return ServerError;
    }
    var nuevoUsuario := PreSave(User(req.nombre.value, req.email.value, req.password.value, rol.value, false, None, None), true, hash);
    var id := st.NewId();
    AddKeepsEmailsUnique(st.users, id, nuevoUsuario);
    st.users := st.users[id := nuevoUsuario];
    out := Ok(id);
  }

  /** deleteUser (admins): 404 for a missing user; otherwise only that user is removed. */
  method DeleteUser(st: Store, caller: Id, id: Id) returns (out: Outcome<()>)
    requires st.Valid() && caller in st.users && st.users[caller].rol == Admin
    modifies st`users
    ensures st.Valid()
    ensures id !in old(st.users) ==> out == NotFound && st.users == old(st.users)
    ensures id in old(st.users) ==> out == Ok(()) && st.users == old(st.users) - {id}
  {
    if id !in st.users {
      return NotFound;
    }
    st.users := st.users - {id};
    out := Ok(());
  }

  /** getUsersByRol (admins): 400 without a role; otherwise exactly the users whose role has that text,
      returned without their password (blanked here). */
  function GetUsersByRol(users: map<Id, User>, rol: Option<string>): (r: Outcome<map<Id, User>>)
    ensures r == BadRequest <==> !Truthy(rol)
    ensures r.Ok? <==> Truthy(rol)
    ensures r.Ok? ==> forall k :: k in r.value <==> k in users && RolText(users[k].rol) == rol.value
    ensures r.Ok? ==> forall k :: k in r.value ==> r.value[k] == users[k].(password := "")
  {
    if !Truthy(rol) then BadRequest
    else Ok(map k | k in users && RolText(users[k].rol) == rol.value :: users[k].(password := ""))
  }

  /** A role text outside the enum matches nobody. */
  lemma UnknownRolMatchesNobody(users: map<Id, User>, rol: string)
    requires rol != "" && ParseRol(rol).None?
    ensures GetUsersByRol(users, Some(rol)) == Ok(map[])
  {
    var r := GetUsersByRol(users, Some(rol)).value;
    assert forall k :: k in users ==> RolText(users[k].rol) != rol;
    assert r == map[];
  }
}
