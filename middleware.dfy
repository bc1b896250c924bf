/** The route guards: `protect`, which reads a bearer token from the
    Authorization header, verifies it and attaches the user it names to the
    request; and `authorize`, a role gate over the attached user. */
module Middleware {
  import opened Common
  import opened Strings
  import opened Store
  import opened Tokens
  import opened Passport

  datatype Reply = Reply(status: Status, message: string)

  const NoTokenReply: Reply := Reply(Unauthorized, "Not authorized, no token")
  const NotAuthorizedReply: Reply := Reply(Unauthorized, "Not authorized")
  const ForbiddenReply: Reply := Reply(Forbidden, "You are not authorized to access this route")

  /** What `protect` does to `req.user`: leaves it alone, or assigns the lookup
      result (None is the `null` of a failed lookup). */
  datatype Attachment = Untouched | Attached(user: Option<User>)

  /** Everything one run of `protect` does: the request's user, the responses it
      sends in order (a second one is an attempt after headers were sent) and
      whether it hands over to the next handler. */
  datatype GuardResult = GuardResult(attachment: Attachment, replies: seq<Reply>, next: bool)

  /** `.select('-password')` */
  function WithoutPassword(u: User): (r: User)
    ensures r.password.None?
    ensures r == u.(password := None)
  {
    u.(password := None)
  }

  /** `authorization.split(' ')[1]`, which is `undefined` (None) without a space. */
  function HeaderToken(header: string): Option<string> {
    var words := Split(header, ' ');
    if |words| >= 2 then Some(words[1]) else None
  }

  /** The inner `try` of `protect`, once the header starts with `Bearer`. A
      missing or empty token makes `jwt.verify` throw without consulting the key. */
  function Verified(users: map<Id, User>, token: Option<string>, verify: string -> Option<Claims>): GuardResult {
    var claims := if token.Some? && token.value != "" then verify(token.value) else None;
    if claims.None? then GuardResult(Untouched, [NotAuthorizedReply], false)
    else match JwtLookup(users, claims.value)
      case None => GuardResult(Attached(None), [NotAuthorizedReply], false)
      case Some(u) => GuardResult(Attached(Some(WithoutPassword(u))), [], true)
  }

  /** `protect` as a function of the user store, the header (None: absent) and
      the verifier: the `Bearer` branch, then the trailing `!token` check. */
  function Guard(users: map<Id, User>, header: Option<string>, verify: string -> Option<Claims>): GuardResult {
    if header.None? || !StartsWith(header.value, "Bearer") then GuardResult(Untouched, [NoTokenReply], false)
    else
      var token := HeaderToken(header.value);
      var tried := Verified(users, token, verify);
      if token.None? || token.value == "" then tried.(replies := tried.replies + [NoTokenReply]) else tried
  }

  /** The per-request state `protect` writes. */
  class Exchange {
    var user: Option<User>
    var replies: seq<Reply>
    var nextCalled: bool

    constructor ()
      ensures user.None? && replies == [] && !nextCalled
    {
      user, replies, nextCalled := None, [], false;
    }
  }

  method Protect(db: Database, ex: Exchange, header: Option<string>, verify: string -> Option<Claims>)
    modifies ex
    ensures var g := Guard(db.users, header, verify);
      && ex.user == (if g.attachment.Attached? then g.attachment.user else old(ex.user))
      && ex.replies == old(ex.replies) + g.replies
      && ex.nextCalled == (old(ex.nextCalled) || g.next)
  {
    var token: Option<string> := None;
    if header.Some? && StartsWith(header.value, "Bearer") {
      token := HeaderToken(header.value);
      var claims := if token.Some? && token.value != "" then verify(token.value) else None;
      if claims.None? {
        ex.replies := ex.replies + [NotAuthorizedReply];
      } else {
        var found := JwtLookup(db.users, claims.value);
        ex.user := if found.Some? then Some(WithoutPassword(found.value)) else None;
        if found.None? {
          ex.replies := ex.replies + [NotAuthorizedReply];
          return;
        }
        ex.nextCalled := true;
      }
    }
    if token.None? || token.value == "" {
      ex.replies := ex.replies + [NoTokenReply];
    }
  }

  /** An absent header, or one not starting with `Bearer`, is answered once with
      401 "no token"; the request's user is not touched. */
  lemma NoBearerHeader(users: map<Id, User>, header: Option<string>, verify: string -> Option<Claims>)
    requires header.None? || !StartsWith(header.value, "Bearer")
    ensures Guard(users, header, verify) == GuardResult(Untouched, [NoTokenReply], false)
  {
  }

  /** The header `Bearer` alone has no second word: the verifier's throw is
      answered with 401, and the trailing check tries to answer 401 again. */
  lemma BareBearerAnswersTwice(users: map<Id, User>, verify: string -> Option<Claims>)
    ensures Guard(users, Some("Bearer"), verify) == GuardResult(Untouched, [NotAuthorizedReply, NoTokenReply], false)
  {
    assert StartsWith("Bearer", "Bearer");
    assert IndexOf("Bearer", ' ').None?;
  }

  /** Every rejection starts with a 401; a pass sends nothing and attaches a
      stored user with the password removed. */
  lemma {:induction false} GuardOutcomes(users: map<Id, User>, header: Option<string>, verify: string -> Option<Claims>)
    ensures var g := Guard(users, header, verify);
      && (!g.next ==> |g.replies| >= 1 && g.replies[0].status == Unauthorized)
      && (g.next ==> g.replies == [] && g.attachment.Attached? && g.attachment.user.Some?)
      && (g.next ==> exists id :: id in users && g.attachment.user.value == WithoutPassword(users[id]))
      && (g.attachment.Attached? && g.attachment.user.Some? ==> g.next)
  {
    var g := Guard(users, header, verify);
    if g.next {
      var token := HeaderToken(header.value);
      var claims := verify(token.value);
      var id := claims.value.id.value;
      assert id in users && g.attachment.user.value == WithoutPassword(users[id]);
    }
  }

  /** The token is the word after `Bearer `: a token minted by login for a
      stored user lets the request through with that user attached. */
  lemma LoginTokenAdmitted(users: map<Id, User>, id: Id, token: string, verify: string -> Option<Claims>)
    requires id in users
    requires token != "" && ' ' !in token
    requires verify(token) == Some(GenerateToken(id).claims)
    ensures Guard(users, Some("Bearer " + token), verify) == GuardResult(Attached(Some(WithoutPassword(users[id]))), [], true)
  {
    var header := "Bearer " + token;
    assert header == "Bearer" + [' '] + token;
    assert header[..6] == "Bearer";
    SplitTwoWords("Bearer", token, ' ');
    assert HeaderToken(header) == Some(token);
  }

  /** A token minted by `googleLogin` verifies but names no user under `id`:
      `req.user` becomes null and the answer is 401. */
  lemma GoogleLoginTokenRefused(users: map<Id, User>, id: Id, email: string, role: string,
                                token: string, verify: string -> Option<Claims>)
    requires token != "" && ' ' !in token
    requires verify(token) == Some(GoogleLoginToken(id, email, role).claims)
    ensures Guard(users, Some("Bearer " + token), verify) == GuardResult(Attached(None), [NotAuthorizedReply], false)
  {
    var header := "Bearer " + token;
    assert header == "Bearer" + [' '] + token;
    assert header[..6] == "Bearer";
    SplitTwoWords("Bearer", token, ' ');
    assert HeaderToken(header) == Some(token);
  }

  /** A token the verifier rejects is answered with 401 and `next` is not called. */
  lemma RejectedTokenRefused(users: map<Id, User>, token: string, verify: string -> Option<Claims>)
    requires token != "" && ' ' !in token
    requires verify(token).None?
    ensures Guard(users, Some("Bearer " + token), verify) == GuardResult(Untouched, [NotAuthorizedReply], false)
  {
    var header := "Bearer " + token;
    assert header == "Bearer" + [' '] + token;
    assert header[..6] == "Bearer";
    SplitTwoWords("Bearer", token, ' ');
    assert HeaderToken(header) == Some(token);
  }

  /** The role gate's verdict: hand over, or answer. */
  datatype Gate = Pass | Deny(reply: Reply)

  /** `authorize(...roles)` applied to the request's user. */
  function Authorize(roles: seq<string>, user: Option<User>): (g: Gate)
    ensures g.Pass? <==> user.Some? && user.value.role in roles
  {
    if user.None? then Deny(NotAuthorizedReply)
    else if user.value.role !in roles then Deny(ForbiddenReply)
    else Pass
  }

  /** No attached user: 401; a role outside the list: 403. */
  lemma AuthorizeDenials(roles: seq<string>, user: Option<User>)
    ensures user.None? ==> Authorize(roles, user) == Deny(NotAuthorizedReply)
    ensures user.Some? && user.value.role !in roles ==> Authorize(roles, user) == Deny(ForbiddenReply)
    ensures Authorize(roles, user).Deny? ==> Authorize(roles, user).reply.status in {Unauthorized, Forbidden}
  {
  }

  /** Only the role matters: two users with the same role get the same verdict. */
  lemma AuthorizeSeesOnlyRole(roles: seq<string>, u: User, v: User)
    requires u.role == v.role
    ensures Authorize(roles, Some(u)) == Authorize(roles, Some(v))
  {
  }

  /** Allowing more roles never turns a pass into a denial. */
  lemma AuthorizeMonotone(roles: seq<string>, more: seq<string>, user: Option<User>)
    requires forall r :: r in roles ==> r in more
    ensures Authorize(roles, user).Pass? ==> Authorize(more, user).Pass?
  {
  }

  /** `protect, authorize('admin')` as the booking-status, trip-management and
      blog-management routes mount them: a login token gets through both exactly when its user is an admin. */
  lemma AdminRouteWithLoginToken(users: map<Id, User>, id: Id, token: string, verify: string -> Option<Claims>)
    requires id in users
    requires token != "" && ' ' !in token
    requires verify(token) == Some(GenerateToken(id).claims)
    ensures var g := Guard(users, Some("Bearer " + token), verify);
      g.next && (Authorize([AdminRole], g.attachment.user).Pass? <==> users[id].role == AdminRole)
  {
    LoginTokenAdmitted(users, id, token, verify);
  }
}
