/**
 * The two JSON Web Tokens the controller issues, with the signing secret reduced
 * to a tag: a token signed with the ACCESS secret verifies only against the ACCESS
 * secret, and likewise for REFRESH. Times are whole seconds since the epoch; a
 * token is expired once `now >= exp`.
 */
module Tokens {
  import opened Wrappers
  import opened UserModel

  /** Which of the two environment secrets signed the token. */
  datatype Secret = AccessSecret | RefreshSecret

  /** The number of `.` characters in a text. */
  function Dots(s: string): nat
  {
    if s == [] then 0 else Dots(s[..|s| - 1]) + (if s[|s| - 1] == '.' then 1 else 0)
  }

  /** Text that `split(".")` cuts into exactly three parts, as every token is. */
  type ThreePartText = s: string | Dots(s) == 2 witness ".."

  /**
   * What a client can present as a token: one signed by either secret; a well-formed
   * token whose signature matches neither (tampered with, or signed elsewhere); three
   * dot-separated parts that do not decode; or any other text.
   */
  datatype Token =
    | Jwt(signedWith: Secret, userId: UserId, iat: nat, exp: nat)
    | Forged(userId: UserId, iat: nat, exp: nat)
    | Undecodable(parts: ThreePartText)
    | Garbled(raw: string)

  /** `expiresIn: "15m"`, in seconds. */
  const ACCESS_LIFETIME: nat := 15 * 60
  /** `expiresIn: "7d"`, in seconds. */
  const REFRESH_LIFETIME: nat := 7 * 24 * 60 * 60

  /** Cookie `maxAge` values, in milliseconds. */
  const ACCESS_COOKIE_MAX_AGE: nat := 15 * 60 * 1000
  const REFRESH_COOKIE_MAX_AGE: nat := 7 * 24 * 60 * 60 * 1000

  function Lifetime(key: Secret): nat
  {
    match key
    case AccessSecret => ACCESS_LIFETIME
    case RefreshSecret => REFRESH_LIFETIME
  }

  /** `jwt.sign({ userId }, secret, { expiresIn })` at time `now`. */
  function Sign(key: Secret, u: UserId, now: nat): Token
  {
    Jwt(key, u, now, now + Lifetime(key))
  }

  datatype TokenPair = TokenPair(accessToken: Token, refreshToken: Token)

  /** `generateTokens(userId)`. */
  function GenerateTokens(u: UserId, now: nat): (pair: TokenPair)
    ensures pair.accessToken == Jwt(AccessSecret, u, now, now + 900)
    ensures pair.refreshToken == Jwt(RefreshSecret, u, now, now + 604800)
    ensures pair.accessToken != pair.refreshToken
  {
    TokenPair(Sign(AccessSecret, u, now), Sign(RefreshSecret, u, now))
  }

  /** The errors `jwt.verify` throws, by their `message`. */
  datatype JwtError = Malformed | InvalidToken | InvalidSignature | Expired
  {
    function Message(): string
    {
      match this
      case Malformed => "jwt malformed"
      case InvalidToken => "invalid token"
      case InvalidSignature => "invalid signature"
      case Expired => "jwt expired"
    }
  }

  /**
   * `jwt.verify(token, secret)` at time `now`: the token's shape is checked first,
   * then its signature, then its expiry.
   */
  function Verify(t: Token, key: Secret, now: nat): (r: Result<UserId, JwtError>)
    ensures r.Ok? <==> t.Jwt? && t.signedWith == key && now < t.exp
    ensures r.Ok? ==> r.value == t.userId
    ensures r == Err(Expired) <==> t.Jwt? && t.signedWith == key && t.exp <= now
    ensures r == Err(InvalidSignature) <==> t.Forged? || (t.Jwt? && t.signedWith != key)
    ensures r == Err(Malformed) <==> t.Garbled?
    ensures r == Err(InvalidToken) <==> t.Undecodable?
  {
    match t
    case Garbled(_) => Err(Malformed)
    case Undecodable(_) => Err(InvalidToken)
    case Forged(_, _, _) => Err(InvalidSignature)
    case Jwt(signedWith, u, _, exp) =>
      if signedWith != key then Err(InvalidSignature)
      else if now >= exp then Err(Expired)
      else Ok(u)
  }

  /** A freshly signed token verifies against its own secret until its lifetime is over, and then expires. */
  lemma VerifySigned(key: Secret, u: UserId, issued: nat, now: nat)
    ensures now < issued + Lifetime(key) ==> Verify(Sign(key, u, issued), key, now) == Ok(u)
    ensures now >= issued + Lifetime(key) ==> Verify(Sign(key, u, issued), key, now) == Err(Expired)
  {
  }

  /** A token of one class is never accepted as the other, whatever its expiry. */
  lemma WrongClassRejected(t: Token, now: nat)
    requires t.Jwt?
    ensures t.signedWith == AccessSecret ==> Verify(t, RefreshSecret, now) == Err(InvalidSignature)
    ensures t.signedWith == RefreshSecret ==> Verify(t, AccessSecret, now) == Err(InvalidSignature)
  {
  }

  /** Each cookie lives exactly as long as the token it carries. */
  lemma CookieMaxAgeMatchesLifetime()
    ensures ACCESS_COOKIE_MAX_AGE == 1000 * Lifetime(AccessSecret)
    ensures REFRESH_COOKIE_MAX_AGE == 1000 * Lifetime(RefreshSecret)
  {
  }
}
