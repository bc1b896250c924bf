/** The two Passport strategies: the JWT strategy's user lookup and the Google
    OAuth callback that resolves a provider profile by e-mail or creates a
    user whose role comes from the request's `state` parameter. */
module Passport {
  import opened Common
  import opened Store
  import opened Tokens

  /** `User.findById(jwt_payload.id)`: the user the `id` claim names, or
      `false` (None) when the claim is missing or names nobody. */
  function JwtLookup(users: map<Id, User>, claims: Claims): (r: Option<User>)
    ensures r.Some? <==> claims.id.Some? && claims.id.value in users
    ensures r.Some? ==> r.value == users[claims.id.value]
  {
    if claims.id.Some? && claims.id.value in users then Some(users[claims.id.value]) else None
  }

  /** A token minted by register or login resolves to the user it was minted for. */
  lemma IssuedTokenResolves(users: map<Id, User>, id: Id)
    requires id in users
    ensures JwtLookup(users, GenerateToken(id).claims) == Some(users[id])
  {
  }

  /** A token minted by `googleLogin` carries `userId`, not `id`, and never resolves. */
  lemma GoogleLoginTokenNeverResolves(users: map<Id, User>, id: Id, email: string, role: string)
    ensures JwtLookup(users, GoogleLoginToken(id, email, role).claims) == None
  {
  }

  /** The JSON object decoded from the base64 `state`; `role` is "" when absent or falsy. */
  datatype DecodedState = DecodedState(role: string)

  /** The role a Google-created user gets: the decoded state's role when it is
      truthy, otherwise `'user'`; a state that cannot be decoded is logged and ignored. */
  function RoleFromState(state: Option<string>, decode: string -> Option<DecodedState>): (role: string)
    ensures role != ""
    ensures role == UserRole || (state.Some? && decode(state.value) == Some(DecodedState(role)))
  {
    if state.None? || state.value == "" then UserRole
    else match decode(state.value)
      case None => UserRole
      case Some(d) => if d.role != "" then d.role else UserRole
  }

  /** The decoded role is used verbatim, unchecked against any role set: a
      state carrying `admin` creates an administrator. */
  lemma StateRoleTrustedVerbatim(state: string, decode: string -> Option<DecodedState>, role: string)
    requires state != "" && role != ""
    requires decode(state) == Some(DecodedState(role))
    ensures RoleFromState(Some(state), decode) == role
  {
  }

  /** No state, or one that does not decode, leaves the default role and does not fail. */
  lemma UndecodableStateGivesUser(state: Option<string>, decode: string -> Option<DecodedState>)
    requires state.None? || state.value == "" || decode(state.value).None?
    ensures RoleFromState(state, decode) == UserRole
  {
  }

  /** The provider profile: `emails[i].value` and `photos[i].value` flattened
      to strings; `photos` is None when the profile carries no photos array. */
  datatype GoogleProfile = GoogleProfile(id: string, displayName: string, emails: seq<string>, photos: Option<seq<string>>)

  /** The record the Google strategy creates; `randomPassword` is `crypto.randomBytes(20).toString('hex')`. */
  function ProfileUser(profile: GoogleProfile, role: string, randomPassword: string): (u: User)
    requires profile.emails != [] && profile.photos.Some?
    ensures u.verified && u.googleId == Some(profile.id) && u.password == Some(randomPassword)
    ensures u.email == profile.emails[0] && u.role == role
    ensures u.profilePicture == (if profile.photos.value == [] then None else Some(profile.photos.value[0]))
  {
    User(
      name := profile.displayName,
      email := profile.emails[0],
      password := Some(randomPassword),
      role := role,
      authType := None,
      verified := true,
      googleId := Some(profile.id),
      profilePicture := if profile.photos.value == [] then None else Some(profile.photos.value[0]))
  }

  /** The Google strategy's verify callback. The result is the user passed to
      `done`, or None for `done(error, null)`: a profile without e-mail, or a
      new user's profile without a photos array, whose `photos[0]` throws. It
      looks users up by the first e-mail only, never by Google id, and
      returns an existing user as it is. */
  method GoogleCallback(db: Database, profile: GoogleProfile, state: Option<string>,
                        decode: string -> Option<DecodedState>, randomPassword: string)
    returns (r: Option<Id>)
    requires db.Valid()
    modifies db`users, db`nextId
    ensures db.Valid()
    ensures profile.emails == [] ==> r.None? && db.users == old(db.users)
    ensures profile.emails != [] && EmailTaken(old(db.users), profile.emails[0]) ==>
      && r.Some? && r.value in old(db.users)
      && old(db.users)[r.value].email == profile.emails[0]
      && db.users == old(db.users)
    ensures profile.emails != [] && !EmailTaken(old(db.users), profile.emails[0]) && profile.photos.None? ==>
      r.None? && db.users == old(db.users)
    ensures profile.emails != [] && !EmailTaken(old(db.users), profile.emails[0]) && profile.photos.Some? ==>
      && r.Some? && r.value !in old(db.users)
      && db.users == old(db.users)[r.value := ProfileUser(profile, RoleFromState(state, decode), randomPassword)]
  {
    if profile.emails == [] {
      // `profile.emails[0].value` throws; the strategy reports the error.
      return None;
    }
    var found := db.FindUserByEmail(profile.emails[0]);
    if found.Some? {
      return found;
    }
    var role := RoleFromState(state, decode);
    if profile.photos.None? {
      // `profile.photos[0]` throws before the user is created.
      return None;
    }
    var id := db.NewId();
    db.users := db.users[id := ProfileUser(profile, role, randomPassword)];
    r := Some(id);
  }
}
