/** The account handlers of Backend/controllers/authController.js over the
    user collection: local registration and login, Google ID-token login,
    administrator verification and the password-reset request. Replies carry
    the HTTP status, the user the body describes and the token it carries. */
module Auth {
  import opened Common
  import opened Store
  import opened Tokens

  datatype AuthReply = AuthReply(status: Status, user: Option<Id>, token: Option<Token>)

  const Refused: AuthReply := AuthReply(BadRequest, None, None)

  // ---- register ----

  /** The record `register` creates. `role` is "" when the body has no (or a
      falsy) role: it then defaults to `'user'`, but `verified` compares the
      role as sent with `'user'`. */
  function LocalUser(name: string, email: string, password: string, role: string): (u: User)
    ensures u.role == (if role == "" then UserRole else role)
    ensures u.verified <==> role == UserRole
    ensures u.email == email && u.password == Some(password) && u.authType == Some("local")
  {
    User(
      name := name,
      email := email,
      password := Some(password),
      role := if role == "" then UserRole else role,
      authType := Some("local"),
      verified := role == UserRole,
      googleId := None,
      profilePicture := None)
  }

  /** Omitting the role gives role `'user'` yet an unverified account, which
      `login` then refuses with 403. */
  lemma OmittedRoleIsUnverified(name: string, email: string, password: string)
    ensures LocalUser(name, email, password, "").role == UserRole
    ensures !LocalUser(name, email, password, "").verified
  {
  }

  /** Any role other than the literal `'user'` (an administrator included) is stored as sent and unverified. */
  lemma OtherRolesAreUnverified(name: string, email: string, password: string, role: string)
    requires role != "" && role != UserRole
    ensures LocalUser(name, email, password, role).role == role
    ensures !LocalUser(name, email, password, role).verified
  {
  }

  method Register(db: Database, name: string, email: string, password: string, role: string)
    returns (r: AuthReply)
    requires db.Valid()
    modifies db`users, db`nextId
    ensures db.Valid()
    ensures (name == "" || email == "" || password == "") ==> r == Refused && db.users == old(db.users)
    ensures name != "" && email != "" && password != "" && EmailTaken(old(db.users), email) ==>
      r == Refused && db.users == old(db.users)
    ensures name != "" && email != "" && password != "" && !EmailTaken(old(db.users), email) ==>
      && r.status == Created && r.user.Some? && r.user.value !in old(db.users)
      && db.users == old(db.users)[r.user.value := LocalUser(name, email, password, role)]
      && r.token == Some(GenerateToken(r.user.value))
  {
    if name == "" || email == "" || password == "" {
      return Refused;
    }
    var taken := db.FindUserByEmail(email);
    if taken.Some? {
      return Refused;
    }
    var id := db.NewId();
    db.users := db.users[id := LocalUser(name, email, password, role)];
    r := AuthReply(Created, Some(id), Some(GenerateToken(id)));
  }

  // ---- login ----

  /** The JavaScript values `!password === user.password` compares. */
  datatype JsValue = JsUndefined | JsBool(b: bool) | JsString(s: string)

  function StoredPassword(p: Option<string>): JsValue {
    if p.None? then JsUndefined else JsString(p.value)
  }

  /** `!password === user.password`: `!` binds tighter than `===`, so a boolean
      is compared strictly with the stored string. */
  predicate PasswordMismatch(password: string, stored: Option<string>) {
    JsBool(password == "") == StoredPassword(stored)
  }

  /** The password test never rejects: a boolean is never strictly equal to a string or `undefined`. */
  lemma PasswordCheckNeverRejects(password: string, stored: Option<string>)
    ensures !PasswordMismatch(password, stored)
  {
  }

  /** `login`. An unknown e-mail reaches `console.log(user.password)` with a
      null user; the throw is caught and answered with 500 before the 401
      branch is reached. The password's value plays no part in the outcome. */
  method Login(db: Database, email: string, password: string) returns (r: AuthReply)
    requires db.Valid()
    ensures (email == "" || password == "") ==> r == Refused
    ensures email != "" && password != "" && !EmailTaken(db.users, email) ==> r == AuthReply(ServerError, None, None)
    ensures email != "" && password != "" ==>
      forall id :: id in db.users && db.users[id].email == email ==>
        r == (if db.users[id].verified then AuthReply(Ok, Some(id), Some(GenerateToken(id)))
              else AuthReply(Forbidden, None, None))
    ensures r.status != Unauthorized
  {
    if email == "" || password == "" {
      return Refused;
    }
    var found := db.FindUserByEmail(email);
    if found.None? {
      return AuthReply(ServerError, None, None);
    }
    var id := found.value;
    var u := db.users[id];
    r := if PasswordMismatch(password, u.password) then AuthReply(Unauthorized, None, None)
         else if !u.verified then AuthReply(Forbidden, None, None)
         else AuthReply(Ok, Some(id), Some(GenerateToken(id)));
  }

  // ---- googleLogin ----

  /** The verified ID token's payload; `picture` may be absent. */
  datatype GooglePayload = GooglePayload(sub: string, email: string, name: string, picture: Option<string>)

  /** A record `{ $or: [{ googleId }, { email }] }` selects. */
  predicate GoogleMatch(u: User, p: GooglePayload) {
    u.googleId == Some(p.sub) || u.email == p.email
  }

  predicate AnyGoogleMatch(users: map<Id, User>, p: GooglePayload) {
    exists id :: id in users && GoogleMatch(users[id], p)
  }

  predicate HasGoogleId(u: User) {
    u.googleId.Some? && u.googleId.value != ""
  }

  /** The record created when nothing matches. */
  function GoogleUser(p: GooglePayload): (u: User)
    ensures u.verified && u.role == UserRole && u.googleId == Some(p.sub) && u.email == p.email
  {
    User(name := p.name, email := p.email, password := None, role := UserRole, authType := None,
         verified := true, googleId := Some(p.sub), profilePicture := p.picture)
  }

  /** A matched record after `googleLogin`: backfilled when it has no Google
      id, otherwise as it was. */
  function Linked(u: User, p: GooglePayload): (v: User)
    ensures HasGoogleId(u) ==> v == u
    ensures !HasGoogleId(u) ==>
      v.googleId == Some(p.sub) && v.verified && v.profilePicture == p.picture
    ensures v.email == u.email && v.role == u.role && v.name == u.name && v.password == u.password
  {
    if HasGoogleId(u) then u else u.(googleId := Some(p.sub), verified := true, profilePicture := p.picture)
  }

  /** Linking is idempotent: a second login with the same payload changes nothing more. */
  lemma LinkedIdempotent(u: User, p: GooglePayload)
    ensures Linked(Linked(u, p), p) == Linked(u, p)
  {
  }

  /** `googleLogin`. `verifyIdToken` is the Google client's verification (None:
      it throws, answered with 500). Among several matching users the store
      returns any one. */
  method GoogleLogin(db: Database, idToken: string, verifyIdToken: string -> Option<GooglePayload>)
    returns (r: AuthReply)
    requires db.Valid()
    modifies db`users, db`nextId
    ensures db.Valid()
    ensures verifyIdToken(idToken).None? ==> r == AuthReply(ServerError, None, None) && db.users == old(db.users)
    ensures verifyIdToken(idToken).Some? && !AnyGoogleMatch(old(db.users), verifyIdToken(idToken).value) ==>
      && r.status == Ok && r.user.Some? && r.user.value !in old(db.users)
      && db.users == old(db.users)[r.user.value := GoogleUser(verifyIdToken(idToken).value)]
    ensures verifyIdToken(idToken).Some? && AnyGoogleMatch(old(db.users), verifyIdToken(idToken).value) ==>
      && r.status == Ok && r.user.Some? && r.user.value in old(db.users)
      && GoogleMatch(old(db.users)[r.user.value], verifyIdToken(idToken).value)
      && db.users == old(db.users)[r.user.value := Linked(old(db.users)[r.user.value], verifyIdToken(idToken).value)]
    ensures r.status == Ok ==>
      && r.user.Some? && r.user.value in db.users
      && r.token == Some(GoogleLoginToken(r.user.value, db.users[r.user.value].email, db.users[r.user.value].role))
  {
    var payload := verifyIdToken(idToken);
    if payload.None? {
      return AuthReply(ServerError, None, None);
    }
    var p := payload.value;
    var id: Id;
    if k :| k in db.users && GoogleMatch(db.users[k], p) {
      id := k;
      var u := db.users[k];
      db.users := db.users[k := Linked(u, p)];
    } else {
      id := db.NewId();
      db.users := db.users[id := GoogleUser(p)];
    }
    var u := db.users[id];
    r := AuthReply(Ok, Some(id), Some(GoogleLoginToken(id, u.email, u.role)));
  }

  // ---- verifyUser ----

  /** The user collection after `verifyUser(id)`. */
  function MarkVerified(users: map<Id, User>, id: Id): (r: map<Id, User>)
    ensures r.Keys == users.Keys
    ensures id in users ==> r[id].verified
    ensures forall k :: k in users ==> r[k].(verified := users[k].verified) == users[k]
    ensures forall k :: k in users && k != id ==> r[k] == users[k]
  {
    if id in users then users[id := users[id].(verified := true)] else users
  }

  lemma VerifyIdempotent(users: map<Id, User>, id: Id)
    ensures MarkVerified(MarkVerified(users, id), id) == MarkVerified(users, id)
  {
  }

  method VerifyUser(db: Database, id: Id) returns (status: Status)
    requires db.Valid()
    modifies db`users
    ensures db.Valid()
    ensures status == (if id in old(db.users) then Ok else NotFound)
    ensures db.users == MarkVerified(old(db.users), id)
  {
    if id !in db.users {
      return NotFound;
    }
    db.users := db.users[id := db.users[id].(verified := true)];
    status := Ok;
  }

  // ---- forgotPassword ----

  /** `forgotPassword`: the reset token is minted for the matching user and
      returned in the body only when `development` (NODE_ENV) holds. */
  method ForgotPassword(db: Database, email: string, development: bool) returns (status: Status, resetToken: Option<Token>)
    requires db.Valid()
    ensures !EmailTaken(db.users, email) ==> status == NotFound && resetToken.None?
    ensures EmailTaken(db.users, email) ==> status == Ok
    ensures forall id :: id in db.users && db.users[id].email == email ==>
      resetToken == (if development then Some(ResetToken(id)) else None)
  {
    var found := db.FindUserByEmail(email);
    if found.None? {
      return NotFound, None;
    }
    status := Ok;
    resetToken := if development then Some(ResetToken(found.value)) else None;
  }
}
