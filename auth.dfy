/** Password hashing and the JSON Web Tokens (RFC 7519) that carry sessions.

    The signing library and the Argon2 hasher are foreign code; they are
    modelled by their ideal behaviour:
    - a token is the value built from its claims, the secret and the
      algorithm it was signed with, so two tokens are equal exactly when they
      were made from the same claims with the same key, and decoding gives
      back the claims of a token signed with the configured key and algorithm
      that has not expired;
    - a password hash determines the password it was made from (no two
      passwords share a hash), and carries the per-call salt.
    Times are whole seconds, as the "exp" and "iat" claims are. */
module Auth {
  import opened Common
  import opened Config

  const SecondsPerMinute: int := 60
  const SecondsPerDay: int := 86400

  /** The private claim value that marks a refresh token. */
  const RefreshType: string := "refresh"

  // ---------------------------------------------------------------------
  // Passwords

  /** An Argon2 hash string: the salt drawn for this call and the password
      it was computed from (the hash is collision-free in this model; that it
      cannot be inverted is not something the model can express). */
  datatype PasswordHash = Argon2(salt: nat, preimage: string)

  /** `hash_password`: hashes with a fresh salt, given here as a parameter. */
  function HashPassword(password: string, salt: nat): (hashed: PasswordHash)
    ensures VerifyPassword(password, hashed)
    ensures forall other :: VerifyPassword(other, hashed) ==> other == password
    ensures hashed.salt == salt
  {
    Argon2(salt, password)
  }

  /** `verify_password`. */
  predicate VerifyPassword(password: string, hashed: PasswordHash): (ok: bool)
    ensures ok <==> hashed == Argon2(hashed.salt, password)
  {
    hashed.preimage == password
  }

  // ---------------------------------------------------------------------
  // Tokens

  /** The claims of a token: "exp" (section 4.1.4 of RFC 7519), "iat"
      (section 4.1.6), "sub" (section 4.1.2), "jti" (section 4.1.7) and the
      private "type" claim. The unique id is drawn from a counter. */
  datatype Claims = Claims(exp: int, iat: int, sub: Option<string>, jti: nat, tokenType: Option<string>)

  /** A token string: either one the signing library produced from claims,
      a key and an algorithm, or any other text a client sends. */
  datatype Token = Jwt(claims: Claims, key: string, algorithm: string) | Opaque(text: string)

  /** Why `jwt.decode` raises a `JWTError`. */
  datatype DecodeError = Malformed | BadSignature | Expired

  /** `jwt.encode`: the token determines the claims, key and algorithm it
      was made from. */
  function Encode(claims: Claims, key: string, algorithm: string): (token: Token)
    ensures token.Jwt? && token.claims == claims && token.key == key && token.algorithm == algorithm
  {
    Jwt(claims, key, algorithm)
  }

  /** `decode_token`: the claims of a well-formed token signed with the
      configured secret and algorithm whose "exp" is not before `now`;
      otherwise the error the library raises. */
  function DecodeToken(cfg: Settings, token: Token, now: int): (r: Result<Claims, DecodeError>)
    ensures r.Ok? ==> token == Encode(r.value, cfg.jwtSecretKey, cfg.algorithm) && now <= r.value.exp
  {
    match token
    case Opaque(_) => Err(Malformed)
    case Jwt(claims, key, algorithm) =>
      if key != cfg.jwtSecretKey || algorithm != cfg.algorithm then Err(BadSignature)
      else if claims.exp < now then Err(Expired)
      else Ok(claims)
  }

  /** Decoding inverts encoding while the token is unexpired, and fails
      once it has expired. */
  lemma DecodeEncode(cfg: Settings, claims: Claims, now: int)
    ensures DecodeToken(cfg, Encode(claims, cfg.jwtSecretKey, cfg.algorithm), now)
         == if now <= claims.exp then Ok(claims) else Err(Expired)
  {
  }

  /** The lifetime in seconds chosen by `if expires_delta:`: an absent or
      zero delta is falsy and falls back to the configured default. */
  function Lifetime(expiresDelta: Option<int>, default: int): (seconds: int)
    ensures expiresDelta == None || expiresDelta == Some(0) ==> seconds == default
    ensures expiresDelta.Some? && expiresDelta.value != 0 ==> seconds == expiresDelta.value
  {
    match expiresDelta
    case Some(delta) => if delta != 0 then delta else default
    case None => default
  }

  /** `create_access_token`: claims {exp, iat, sub, jti} and no "type". */
  function CreateAccessToken(cfg: Settings, subject: string, now: int,
                             expiresDelta: Option<int>, jti: nat): (token: Token)
    ensures token.Jwt? && token.claims.tokenType == None
    ensures token.claims.sub == Some(subject) && token.claims.iat == now && token.claims.jti == jti
    ensures token.claims.exp == now + Lifetime(expiresDelta, cfg.accessTokenExpireMinutes * SecondsPerMinute)
    ensures forall at | at <= token.claims.exp :: DecodeToken(cfg, token, at) == Ok(token.claims)
    ensures forall at | at > token.claims.exp :: DecodeToken(cfg, token, at) == Err(Expired)
  {
    var expire := now + Lifetime(expiresDelta, cfg.accessTokenExpireMinutes * SecondsPerMinute);
    Encode(Claims(expire, now, Some(subject), jti, None), cfg.jwtSecretKey, cfg.algorithm)
  }

  /** `create_refresh_token`: claims {exp, iat, sub, jti, type: "refresh"}. */
  function CreateRefreshToken(cfg: Settings, subject: string, now: int,
                              expiresDelta: Option<int>, jti: nat): (token: Token)
    ensures token.Jwt? && token.claims.tokenType == Some(RefreshType)
    ensures token.claims.sub == Some(subject) && token.claims.iat == now && token.claims.jti == jti
    ensures token.claims.exp == now + Lifetime(expiresDelta, cfg.refreshTokenExpireDays * SecondsPerDay)
    ensures forall at | at <= token.claims.exp :: DecodeToken(cfg, token, at) == Ok(token.claims)
    ensures forall at | at > token.claims.exp :: DecodeToken(cfg, token, at) == Err(Expired)
  {
    var expire := now + Lifetime(expiresDelta, cfg.refreshTokenExpireDays * SecondsPerDay);
    Encode(Claims(expire, now, Some(subject), jti, Some(RefreshType)), cfg.jwtSecretKey, cfg.algorithm)
  }

  /** With the default settings and no delta, an access token lives 15
      minutes and a refresh token 7 days; a zero delta behaves like none. */
  lemma DefaultLifetimes(cfg: Settings, subject: string, now: int, jti: nat)
    requires cfg.accessTokenExpireMinutes == AccessTokenExpireMinutes
    requires cfg.refreshTokenExpireDays == RefreshTokenExpireDays
    ensures CreateAccessToken(cfg, subject, now, None, jti).claims.exp == now + 900
    ensures CreateRefreshToken(cfg, subject, now, None, jti).claims.exp == now + 604800
    ensures CreateAccessToken(cfg, subject, now, Some(0), jti) == CreateAccessToken(cfg, subject, now, None, jti)
    ensures CreateRefreshToken(cfg, subject, now, Some(0), jti) == CreateRefreshToken(cfg, subject, now, None, jti)
  {
  }

  /** Tokens drawn with different ids are different tokens, whatever their
      subject and time; an access token is never a refresh token. */
  lemma FreshIdsGiveDistinctTokens(cfg: Settings, sub1: string, sub2: string, now1: int, now2: int,
                                   d1: Option<int>, d2: Option<int>, jti1: nat, jti2: nat)
    ensures jti1 != jti2 ==> CreateRefreshToken(cfg, sub1, now1, d1, jti1) != CreateRefreshToken(cfg, sub2, now2, d2, jti2)
    ensures jti1 != jti2 ==> CreateAccessToken(cfg, sub1, now1, d1, jti1) != CreateAccessToken(cfg, sub2, now2, d2, jti2)
    ensures CreateAccessToken(cfg, sub1, now1, d1, jti1) != CreateRefreshToken(cfg, sub2, now2, d2, jti2)
  {
  }
}
