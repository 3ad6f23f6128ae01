/**
 * backend/auth/core/security.py: token shaping around an abstract JWS library, and password
 * hashing around an abstract hash function.
 */
module Security {
  import opened Wrappers
  import opened Base
  import opened Json

  /** backend/auth/core/config.py: the configured token lifetimes, in minutes. */
  const ACCESS_TOKEN_EXPIRE_MINUTES := 15
  const REFRESH_TOKEN_EXPIRE_MINUTES := 7 * 24 * 60

  /** The settings `SiteAuthManager.__init__` reads once; the keys and algorithm live in `Jws`. */
  datatype SiteAuthManager = SiteAuthManager(accessTokenExpireMinutes: int, refreshTokenExpireMinutes: int)

  function FromSettings(): (m: SiteAuthManager)
    ensures m.accessTokenExpireMinutes == 15 && m.refreshTokenExpireMinutes == 10080
  {
    SiteAuthManager(ACCESS_TOKEN_EXPIRE_MINUTES, REFRESH_TOKEN_EXPIRE_MINUTES)
  }

  type Token = string

  /** The algorithm `AuthorizationJWT` configures (config.py:51), the only one `decode` is given. */
  const ALGORITHM := "RS256"

  /**
   * What PyJWT's `decode` learns from a token before it looks at any claim, in its order: a token
   * it cannot parse is a `DecodeError`; a header whose `alg` is missing or not the configured one
   * raises `InvalidAlgorithmError` before any signature is checked; a bad signature raises
   * `InvalidSignatureError`, a kind of `DecodeError`.
   */
  datatype Opened =
    | Verified(header: Object, claims: Object) // parsed, `alg` allowed, signature valid
    | AlgorithmRefused                         // `InvalidAlgorithmError`, not a `DecodeError`
    | Unreadable                               // `DecodeError` or `InvalidSignatureError`

  /** The signing library with the configured key pair: `sign(header, claims)` and `open(token)`. */
  datatype Jws = Jws(sign: (Object, Object) -> Token, open: Token -> Opened)

  /** `jwt.encode` writes the configured `alg` into the header unless the given header names its own. */
  predicate KeepsAlgorithm(head: Object)
  {
    "alg" !in head || head["alg"] == Str(ALGORITHM)
  }

  /** What the library guarantees: a token it signed with the configured algorithm opens to what was signed. */
  ghost predicate SignatureRoundTrip(jws: Jws)
  {
    forall header: Object, claims: Object :: KeepsAlgorithm(header) ==> jws.open(jws.sign(header, claims)) == Verified(header, claims)
  }

  /** The expiry: `now + expire_timedelta` when that is truthy (non-zero), else `now + expire_minutes`. */
  function Expiry(now: Time, expireMinutes: int, expireTimedelta: Option<int>): (exp: Time)
    ensures expireTimedelta.Some? && expireTimedelta.value != 0 ==> exp == now + expireTimedelta.value
    ensures expireTimedelta.None? || expireTimedelta.value == 0 ==> exp == now + 60 * expireMinutes
  {
    if expireTimedelta.Some? && expireTimedelta.value != 0 then now + expireTimedelta.value
    else now + 60 * expireMinutes
  }

  /** The claims put into a token: a copy of the payload with `exp` and `iat` set. */
  function Claims(payload: Object, exp: Time, iat: Time): (c: Object)
    ensures c.Keys == payload.Keys + {"exp", "iat"}
    ensures c["exp"] == Int(exp) && c["iat"] == Int(iat)
    ensures forall k :: k in payload && k != "exp" && k != "iat" ==> c[k] == payload[k]
  {
    payload["exp" := Int(exp)]["iat" := Int(iat)]
  }

  /** `_encode_token`: the clock reading `now` becomes `iat`. */
  function EncodeToken(jws: Jws, head: Object, payload: Object, expireMinutes: int,
                       expireTimedelta: Option<int>, now: Time): (t: Token)
    ensures SignatureRoundTrip(jws) && KeepsAlgorithm(head) ==>
              jws.open(t) == Verified(head, Claims(payload, Expiry(now, expireMinutes, expireTimedelta), now))
  {
    jws.sign(head, Claims(payload, Expiry(now, expireMinutes, expireTimedelta), now))
  }

  /** `create_access_token`: a token that expires after the access lifetime, unless one is given. */
  function CreateAccessToken(m: SiteAuthManager, jws: Jws, head: Object, payload: Object,
                             expireTimedelta: Option<int>, now: Time): (t: Token)
    ensures SignatureRoundTrip(jws) && KeepsAlgorithm(head) ==>
              jws.open(t) == Verified(head, Claims(payload, Expiry(now, m.accessTokenExpireMinutes, expireTimedelta), now))
  {
    EncodeToken(jws, head, payload, m.accessTokenExpireMinutes, expireTimedelta, now)
  }

  /** `create_refresh_token`: a token that expires after the refresh lifetime, unless one is given. */
  function CreateRefreshToken(m: SiteAuthManager, jws: Jws, head: Object, payload: Object,
                              expireTimedelta: Option<int>, now: Time): (t: Token)
    ensures SignatureRoundTrip(jws) && KeepsAlgorithm(head) ==>
              jws.open(t) == Verified(head, Claims(payload, Expiry(now, m.refreshTokenExpireMinutes, expireTimedelta), now))
  {
    EncodeToken(jws, head, payload, m.refreshTokenExpireMinutes, expireTimedelta, now)
  }

  /** What `decode_token` hands back, or that the library raised an error it does not catch. */
  datatype Decoded =
    | Payload(claims: Object)          // valid signature, not expired
    | UnverifiedHeader(header: Object) // `ExpiredSignatureError`: the header, unauthenticated
    | NoPayload                        // `DecodeError`: `None`
    | Raises                           // `InvalidAlgorithmError`, `InvalidIssuedAtError`, `ImmatureSignatureError` propagate
  {
    /** The dictionary the caller sees, or `None`; the caller cannot tell a header from claims. */
    function AsDict(): Option<Object>
    {
      match this
      case Payload(c) => Some(c)
      case UnverifiedHeader(h) => Some(h)
      case _ => None
    }
  }

  /**
   * `decode_token` at time `now`. A refused algorithm escapes the `except` clauses, which catch only
   * `ExpiredSignatureError` and `DecodeError`. Of a verified token PyJWT checks the claims in its
   * order: `iat` must be an integer not in the future, then `exp`, when present, must be an integer
   * (else `DecodeError`) and later than now (else `ExpiredSignatureError`). Claims are taken as the
   * integers this service signs: the library's coercion of numeric strings, its checks on `nbf`,
   * `aud` and `sub` are not modelled.
   */
  function DecodeToken(jws: Jws, token: Token, now: Time): (r: Decoded)
    ensures jws.open(token).Unreadable? ==> r == NoPayload
    ensures jws.open(token).AlgorithmRefused? ==> r == Raises
    ensures r.Payload? ==> jws.open(token).Verified? && r.claims == jws.open(token).claims
    ensures r.UnverifiedHeader? ==> jws.open(token).Verified? && r.header == jws.open(token).header
  {
    match jws.open(token)
    case Unreadable => NoPayload
    case AlgorithmRefused => Raises
    case Verified(header, claims) =>
      if "iat" in claims && (!claims["iat"].Int? || claims["iat"].i > now) then Raises
      else if "exp" in claims && !claims["exp"].Int? then NoPayload
      else if "exp" in claims && claims["exp"].i <= now then UnverifiedHeader(header)
      else Payload(claims)
  }

  /** A token decoded from its issue time up to (not including) its expiry yields exactly its claims. */
  lemma DecodeBeforeExpiry(jws: Jws, head: Object, payload: Object, expireMinutes: int,
                           expireTimedelta: Option<int>, issued: Time, now: Time)
    requires SignatureRoundTrip(jws) && KeepsAlgorithm(head)
    requires issued <= now < Expiry(issued, expireMinutes, expireTimedelta)
    ensures DecodeToken(jws, EncodeToken(jws, head, payload, expireMinutes, expireTimedelta, issued), now)
            == Payload(Claims(payload, Expiry(issued, expireMinutes, expireTimedelta), issued))
  {
    var c := Claims(payload, Expiry(issued, expireMinutes, expireTimedelta), issued);
    assert jws.open(jws.sign(head, c)) == Verified(head, c);
  }

  /** From its expiry on, a token yields its unverified header, never its claims. */
  lemma DecodeAfterExpiry(jws: Jws, head: Object, payload: Object, expireMinutes: int,
                          expireTimedelta: Option<int>, issued: Time, now: Time)
    requires SignatureRoundTrip(jws) && KeepsAlgorithm(head)
    requires issued <= now && Expiry(issued, expireMinutes, expireTimedelta) <= now
    ensures DecodeToken(jws, EncodeToken(jws, head, payload, expireMinutes, expireTimedelta, issued), now)
            == UnverifiedHeader(head)
  {
    var c := Claims(payload, Expiry(issued, expireMinutes, expireTimedelta), issued);
    assert jws.open(jws.sign(head, c)) == Verified(head, c);
  }

  /** Past the algorithm check decoding never looks at the header: two such headers over the same claims decode alike. */
  lemma DecodeIgnoresHeader(jws: Jws, h1: Object, h2: Object, claims: Object, now: Time)
    requires SignatureRoundTrip(jws) && KeepsAlgorithm(h1) && KeepsAlgorithm(h2)
    ensures var r1 := DecodeToken(jws, jws.sign(h1, claims), now);
            var r2 := DecodeToken(jws, jws.sign(h2, claims), now);
            r1.Payload? == r2.Payload? && (r1.Payload? ==> r1 == r2)
            && r1.NoPayload? == r2.NoPayload? && r1.Raises? == r2.Raises?
  {
    assert jws.open(jws.sign(h1, claims)) == Verified(h1, claims);
    assert jws.open(jws.sign(h2, claims)) == Verified(h2, claims);
  }

  /** An access token lives 15 minutes and a refresh token 10080 minutes (7 days), in seconds. */
  lemma TokenLifetimes(jws: Jws, head: Object, payload: Object, now: Time)
    requires SignatureRoundTrip(jws) && KeepsAlgorithm(head)
    ensures var m := FromSettings();
      jws.open(CreateAccessToken(m, jws, head, payload, None, now))
        == Verified(head, Claims(payload, now + 900, now))
      && jws.open(CreateRefreshToken(m, jws, head, payload, None, now))
        == Verified(head, Claims(payload, now + 604800, now))
  {
    assert jws.open(jws.sign(head, Claims(payload, now + 900, now))) == Verified(head, Claims(payload, now + 900, now));
    assert jws.open(jws.sign(head, Claims(payload, now + 604800, now))) == Verified(head, Claims(payload, now + 604800, now));
  }

  /** The salt `bcrypt.gensalt()` draws. */
  type Salt = string

  /** bcrypt's `hashpw(password, salt)` and `checkpw(password, hashed)`, over text. */
  datatype PasswordHasher = PasswordHasher(hashpw: (string, Salt) -> string, checkpw: (string, string) -> bool)

  /** What bcrypt guarantees: a password checks against any of its own digests. */
  ghost predicate HashSound(hasher: PasswordHasher)
  {
    forall password: string, salt: Salt :: hasher.checkpw(password, hasher.hashpw(password, salt))
  }

  /** `hash_password`: the digest under a freshly drawn salt, which the password checks against. */
  function HashPassword(hasher: PasswordHasher, password: string, salt: Salt): (h: string)
    ensures HashSound(hasher) ==> hasher.checkpw(password, h)
  {
    hasher.hashpw(password, salt)
  }

  /** `validate_password`: bcrypt's check, which accepts every digest made from the same password. */
  function ValidatePassword(hasher: PasswordHasher, password: string, hashed: string): (ok: bool)
    ensures HashSound(hasher) && (exists salt: Salt :: hashed == HashPassword(hasher, password, salt)) ==> ok
  {
    hasher.checkpw(password, hashed)
  }

  lemma ValidateHashedPassword(hasher: PasswordHasher, password: string, salt: Salt)
    requires HashSound(hasher)
    ensures ValidatePassword(hasher, password, HashPassword(hasher, password, salt))
  {
    assert hasher.checkpw(password, hasher.hashpw(password, salt));
  }
}
