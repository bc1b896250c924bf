/** Bearer tokens as abstract records. Signing and verification belong to the
    JWT library and are not modelled; what is kept is which claims a token
    carries and how long it lives (`expiresIn`, in seconds). */
module Tokens {
  import opened Common

  /** `'30d'` */
  const ThirtyDays: nat := 30 * 24 * 60 * 60
  /** `'1h'` */
  const OneHour: nat := 60 * 60

  /** A JWT payload; a claim the issuer did not set is None. */
  datatype Claims = Claims(id: Option<Id>, userId: Option<Id>, email: Option<string>, role: Option<string>)

  datatype Token = Token(claims: Claims, expiresIn: nat)

  /** `generateToken(id)`: the token of register and login, `{ id }` for 30 days. */
  function GenerateToken(id: Id): Token {
    Token(Claims(Some(id), None, None, None), ThirtyDays)
  }

  /** The token `googleLogin` signs: `{ userId, email, role }` for 30 days. */
  function GoogleLoginToken(id: Id, email: string, role: string): Token {
    Token(Claims(None, Some(id), Some(email), Some(role)), ThirtyDays)
  }

  /** The password-reset token of `forgotPassword`: `{ id }` for one hour. */
  function ResetToken(id: Id): Token {
    Token(Claims(Some(id), None, None, None), OneHour)
  }

  /** The login token and the Google-login token name the user under different
      claims: only the former carries `id`. */
  lemma ClaimNames(id: Id, email: string, role: string)
    ensures GenerateToken(id).claims.id == Some(id) && GenerateToken(id).claims.userId.None?
    ensures GoogleLoginToken(id, email, role).claims.id.None?
    ensures GoogleLoginToken(id, email, role).claims.userId == Some(id)
    ensures GenerateToken(id).expiresIn == 2592000 && ResetToken(id).expiresIn == 3600
  {
  }
}
