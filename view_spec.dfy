/**
 * backend/auth/app/api_site_v1/auth/views.py as values: each site endpoint as the state it
 * commits and what it answers, and what those answers mean for the store and for the next call.
 */
module ViewSpec {
  import opened Wrappers
  import opened Base
  import opened Json
  import opened Schemas
  import opened Tables
  import opened Roles
  import opened SessionKeys
  import opened Security
  import opened AuthSpec
  import opened Dependencies
  import AuthProperties
  import Users
  import Profiles

  /** A successful answer: its status code, its JSON body and the `session_id` cookie it sets. */
  datatype Response<T> = Response(status: int, body: T, sessionCookie: Option<string>)

  /** `generate_cookies` followed by `set_cookie(key='session_id', ...)`: the cookie is the body's key. */
  function SessionAnswer(data: CookiesData, message: string, key: string): (r: Response<CookiesResponse>)
    ensures r.status == 200 && r.sessionCookie == Some(key) && r.body.newSessionId == key
    ensures r.body.user == data && r.body.message == message
  {
    Response(200, CookiesResponse(data, message, key), Some(key))
  }

  /** The answer of the token endpoints: the tokens of `generate_tokens`, status 200, no cookie. */
  function TokenAnswer(m: SiteAuthManager, jws: Jws, user: UserRegistered, now: Time): (r: Response<AuthInfo>)
    ensures r.status == 200 && r.sessionCookie.None? && r.body.tokenType == "Bearer"
  {
    Response(200, GenerateTokens(m, jws, user, now), None)
  }

  /**
   * `cookies_session`. Without a `session_id` cookie a session is created and read back; with
   * one, the session it names is read and then refreshed. Failures raise the session errors.
   */
  function CookiesSession(d: Db, uuid: Uuid, cookie: Option<string>, req: Request, now: Time)
    : (s: Step<Outcome<Response<CookiesResponse>>>)
    ensures GetClientInfo(req).None? ==> s == Step(d, Crashed)
  {
    match GetClientInfo(req)
    case None => Step(d, Crashed)
    case Some(info) =>
      if cookie.None? then
        var created := CreateCookieSession(d, uuid, info.ip, info.userAgent, now);
        match created.result
        case None => Step(created.db, Raised(COOKIES_SESSION_CREATION_EXCEPTION))
        case Some(key) =>
          match GetCookieSession(created.db, key)
          case None => Step(created.db, Raised(COOKIES_SESSION_CREATION_EXCEPTION))
          case Some(data) => Step(created.db, Done(SessionAnswer(data, "Session Created", key)))
      else
        match GetCookieSession(d, cookie.value)
        case None => Step(d, Raised(COOKIES_SESSION_EXCEPTION))
        case Some(_) =>
          var updated := UpdateCookieSession(d, cookie.value, info.ip, info.userAgent, now);
          match updated.result
          case None => Step(updated.db, Raised(COOKIES_SESSION_UPDATED_EXCEPTION))
          case Some(u) => Step(updated.db, Done(SessionAnswer(u.session, "Session Updated", u.newSessionId)))
  }

  /**
   * Without a cookie: the answer is a creation error exactly when `create_cookie_session` fails,
   * with nothing written; otherwise the new session's initial data, under the key it was created
   * with, which is also the cookie set. The read-back never fails.
   */
  lemma CookiesSessionCreates(d: Db, uuid: Uuid, req: Request, now: Time)
    requires Valid(d) && GetClientInfo(req).Some?
    ensures var info := GetClientInfo(req).value;
      var created := CreateCookieSession(d, uuid, info.ip, info.userAgent, now);
      var s := CookiesSession(d, uuid, None, req, now);
      (created.result.None? ==> s == Step(d, Raised(COOKIES_SESSION_CREATION_EXCEPTION)))
      && (created.result.Some? ==>
            s == Step(created.db, Done(SessionAnswer(NewSessionData(), "Session Created", GenerateKey32(uuid))))
            && GetCookieSession(s.db, GenerateKey32(uuid)) == Some(NewSessionData()))
  {
    var info := GetClientInfo(req).value;
    AuthProperties.CreateCookieSessionReadBack(d, uuid, info.ip, info.userAgent, now);
  }

  /**
   * With a cookie: an unknown session is rejected as invalid and a failed refresh as an update
   * error, both with nothing written; otherwise the answer carries the refreshed data, the cookie
   * is set to the same key again, and the session reads back as that data.
   */
  lemma CookiesSessionRefreshes(d: Db, uuid: Uuid, key: string, req: Request, now: Time)
    requires Valid(d) && GetClientInfo(req).Some?
    ensures var info := GetClientInfo(req).value;
      var updated := UpdateCookieSession(d, key, info.ip, info.userAgent, now);
      var s := CookiesSession(d, uuid, Some(key), req, now);
      (GetCookieSession(d, key).None? ==> s == Step(d, Raised(COOKIES_SESSION_EXCEPTION)))
      && (GetCookieSession(d, key).Some? && updated.result.None? ==>
            s == Step(d, Raised(COOKIES_SESSION_UPDATED_EXCEPTION)))
      && (s.result.Done? ==>
            var data := RefreshedData(GetCookieSession(d, key).value);
            s == Step(updated.db, Done(SessionAnswer(data, "Session Updated", key)))
            && GetCookieSession(s.db, key) == Some(data))
  {
    var info := GetClientInfo(req).value;
    AuthProperties.UpdateCookieSessionReadBack(d, key, info.ip, info.userAgent, now);
  }

  /** Every committed state of the session endpoint keeps the invariants and the bindings. */
  lemma CookiesSessionKeeps(d: Db, uuid: Uuid, cookie: Option<string>, req: Request, now: Time)
    requires Valid(d)
    ensures AuthProperties.Keeps(d, CookiesSession(d, uuid, cookie, req, now).db)
  {
    var s := CookiesSession(d, uuid, cookie, req, now);
    if GetClientInfo(req).None? || (cookie.Some? && GetCookieSession(d, cookie.value).None?) {
      assert s.db == d;
      AuthProperties.KeepsSame(d);
    } else {
      var info := GetClientInfo(req).value;
      if cookie.None? {
        assert s.db == CreateCookieSession(d, uuid, info.ip, info.userAgent, now).db;
        AuthProperties.CreateCookieSessionKeeps(d, uuid, info.ip, info.userAgent, now);
      } else {
        assert s.db == UpdateCookieSession(d, cookie.value, info.ip, info.userAgent, now).db;
        AuthProperties.UpdateCookieSessionKeeps(d, cookie.value, info.ip, info.userAgent, now);
      }
    }
  }

  /**
   * `authenticate_user` (`/me`): the profile data `get_current_user_data` resolves, or its error.
   * `generate_ping_info` copies every field, so the body is that data.
   */
  function AuthenticateUser(d: Db, jws: Jws, token: Token, req: Request, now: Time)
    : (s: Step<Outcome<Response<PingAuthInfo>>>)
    ensures GetClientInfo(req).None? ==> s == Step(d, Crashed)
  {
    match GetClientInfo(req)
    case None => Step(d, Crashed)
    case Some(info) =>
      var current := GetCurrentUserData(d, jws, token, info.ip, info.userAgent, now);
      match current.result
      case DecodeCrashed => Step(current.db, Crashed)
      case Denied(e) => Step(current.db, Raised(e))
      case Authorized(data) => Step(current.db, Done(Response(200, data, None)))
  }

  /** `/me` answers exactly as `get_current_user_data` resolves, and commits what it commits. */
  lemma AuthenticateUserAnswers(d: Db, jws: Jws, token: Token, req: Request, now: Time)
    requires GetClientInfo(req).Some?
    ensures var info := GetClientInfo(req).value;
      var current := GetCurrentUserData(d, jws, token, info.ip, info.userAgent, now);
      var s := AuthenticateUser(d, jws, token, req, now);
      s.db == current.db
      && (s.result.Done? <==> current.result.Authorized?)
      && (s.result.Done? ==> s.result.value == Response(200, current.result.user, None))
      && (s.result.Raised? <==> current.result.Denied?)
      && (s.result.Raised? ==> s.result.error == current.result.error)
  {
  }

  /**
   * `registration`: the password is hashed, the session key is the `Cookie-Session` header, and
   * any failure of `user_registration` is answered as an email conflict.
   */
  function Registration(d: Db, m: SiteAuthManager, jws: Jws, hasher: PasswordHasher, email: string,
                        password: string, salt: Salt, uuid: Uuid, req: Request, now: Time)
    : (s: Step<Outcome<Response<AuthInfo>>>)
    ensures GetClientInfo(req).None? ==> s == Step(d, Crashed)
  {
    match GetClientInfo(req)
    case None => Step(d, Crashed)
    case Some(info) =>
      var registered := UserRegistration(d, email, HashPassword(hasher, password, salt),
                                         Header(req, "Cookie-Session"), uuid, info.ip, info.userAgent, now);
      match registered.result
      case None => Step(registered.db, Raised(EMAIL_CONFLICT_EXCEPTION))
      case Some(user) => Step(registered.db, Done(TokenAnswer(m, jws, user, now)))
  }

  /**
   * A registration is a 409 with nothing written exactly when `user_registration` fails, which a
   * stored email or a missing `user` role always causes; otherwise it answers 200 (not the
   * declared 201) with the tokens of the new email and the `user` role id.
   */
  lemma RegistrationAnswers(d: Db, m: SiteAuthManager, jws: Jws, hasher: PasswordHasher, email: string,
                            password: string, salt: Salt, uuid: Uuid, req: Request, now: Time)
    requires GetClientInfo(req).Some?
    ensures var info := GetClientInfo(req).value;
      var registered := UserRegistration(d, email, HashPassword(hasher, password, salt),
                                         Header(req, "Cookie-Session"), uuid, info.ip, info.userAgent, now);
      var s := Registration(d, m, jws, hasher, email, password, salt, uuid, req, now);
      (s.result.Raised? <==> registered.result.None?)
      && (s.result.Raised? ==> s == Step(d, Raised(EMAIL_CONFLICT_EXCEPTION)))
      && (UserWithEmail(d, email).Some? || RoleWithName(d, User).None? ==> s == Step(d, Raised(EMAIL_CONFLICT_EXCEPTION)))
      && (s.result.Done? ==>
            s.db == registered.db
            && s.result.value == TokenAnswer(m, jws, UserRegistered(email, RoleWithName(d, User).value), now))
  {
  }

  /**
   * `login`: the user is looked up first; only an existing user whose digest accepts the password
   * is logged in (with the `Cookie-Session` header as session key), and the tokens are built from
   * the lookup, whatever `user_login` answers.
   */
  function Login(d: Db, m: SiteAuthManager, jws: Jws, hasher: PasswordHasher, email: string,
                 password: string, req: Request, now: Time)
    : (s: Step<Outcome<Response<AuthInfo>>>)
    ensures GetClientInfo(req).None? ==> s == Step(d, Crashed)
  {
    match GetClientInfo(req)
    case None => Step(d, Crashed)
    case Some(info) =>
      match GetUser(d, email)
      case LookupRaised => Step(d, Crashed)
      case NoUser => Step(d, Raised(EMAIL_OR_PASSWORD_EXCEPTION))
      case Found(user) =>
        if !ValidatePassword(hasher, password, user.password) then Step(d, Raised(EMAIL_OR_PASSWORD_EXCEPTION))
        else
          var login := UserLogin(d, email, info.ip, info.userAgent, Header(req, "Cookie-Session"), now);
          Step(login.db, Done(TokenAnswer(m, jws, user.AsRegistered(), now)))
  }

  /**
   * A login is rejected with 401 and nothing written exactly when there is no such user or the
   * password does not check against the stored digest. Otherwise it commits `user_login` and
   * answers the tokens of the email and the role the lookup found.
   */
  lemma LoginAnswers(d: Db, m: SiteAuthManager, jws: Jws, hasher: PasswordHasher, email: string,
                     password: string, req: Request, now: Time)
    requires UsersBound(d) && GetClientInfo(req).Some?
    ensures var info := GetClientInfo(req).value;
      var s := Login(d, m, jws, hasher, email, password, req, now);
      var found := GetUser(d, email);
      !s.result.Crashed?
      && (s.result.Raised? <==> found.NoUser? || !ValidatePassword(hasher, password, found.user.password))
      && (s.result.Raised? ==> s == Step(d, Raised(EMAIL_OR_PASSWORD_EXCEPTION)))
      && (s.result.Done? ==>
            s.db == UserLogin(d, email, info.ip, info.userAgent, Header(req, "Cookie-Session"), now).db
            && s.result.value == TokenAnswer(m, jws, UserRegistered(email, found.user.roleId), now))
  {
    AuthProperties.GetUserNeverRaises(d, email);
  }

  /**
   * Registering and then logging in with the same password and a sound hasher is accepted, and
   * the login answers the same tokens as the registration did at that instant.
   */
  lemma RegistrationThenLogin(d: Db, m: SiteAuthManager, jws: Jws, hasher: PasswordHasher, email: string,
                              password: string, salt: Salt, uuid: Uuid, req: Request, req2: Request,
                              now: Time)
    requires Valid(d) && HashSound(hasher) && GetClientInfo(req).Some? && GetClientInfo(req2).Some?
    ensures var s := Registration(d, m, jws, hasher, email, password, salt, uuid, req, now);
      s.result.Done? ==>
        Login(s.db, m, jws, hasher, email, password, req2, now).result == s.result
  {
    var s := Registration(d, m, jws, hasher, email, password, salt, uuid, req, now);
    if s.result.Done? {
      var info := GetClientInfo(req).value;
      var digest := HashPassword(hasher, password, salt);
      var registered := UserRegistration(d, email, digest, Header(req, "Cookie-Session"), uuid, info.ip, info.userAgent, now);
      assert s.db == registered.db;
      assert s.result == Done(TokenAnswer(m, jws, UserRegistered(email, RoleWithName(d, User).value), now));
      AuthProperties.UserRegistrationThenGetUser(d, email, digest, Header(req, "Cookie-Session"),
                                                 uuid, info.ip, info.userAgent, now);
      ValidateHashedPassword(hasher, password, salt);
      FoundThenLogin(registered.db, m, jws, hasher, UserLoginRegistered(email, RoleWithName(d, User).value, digest),
                     password, req2, now);
    }
  }

  /** A login whose lookup finds a user with a digest the password checks answers that user's tokens. */
  lemma FoundThenLogin(e: Db, m: SiteAuthManager, jws: Jws, hasher: PasswordHasher, user: UserLoginRegistered,
                       password: string, req: Request, now: Time)
    requires GetClientInfo(req).Some? && GetUser(e, user.email) == Found(user)
    requires ValidatePassword(hasher, password, user.password)
    ensures Login(e, m, jws, hasher, user.email, password, req, now).result == Done(TokenAnswer(m, jws, user.AsRegistered(), now))
  {
  }

  /** `refresh`: new tokens for whichever user `get_current_user` accepts, or its error. */
  function Refresh(d: Db, m: SiteAuthManager, jws: Jws, token: Token, req: Request, now: Time)
    : (s: Step<Outcome<Response<AuthInfo>>>)
    ensures GetClientInfo(req).None? ==> s == Step(d, Crashed)
  {
    match GetClientInfo(req)
    case None => Step(d, Crashed)
    case Some(info) =>
      var current := GetCurrentUser(d, jws, token, info.ip, info.userAgent, now);
      match current.result
      case DecodeCrashed => Step(current.db, Crashed)
      case Denied(e) => Step(current.db, Raised(e))
      case Authorized(user) => Step(current.db, Done(TokenAnswer(m, jws, user.AsRegistered(), now)))
  }

  /**
   * A refresh succeeds exactly when `get_current_user` accepts the token, and then answers the
   * tokens of the accepted user's email and role; an error is that of `get_current_user`, with
   * nothing written.
   */
  lemma RefreshAnswers(d: Db, m: SiteAuthManager, jws: Jws, token: Token, req: Request, now: Time)
    requires GetClientInfo(req).Some?
    ensures var info := GetClientInfo(req).value;
      var current := GetCurrentUser(d, jws, token, info.ip, info.userAgent, now);
      var s := Refresh(d, m, jws, token, req, now);
      (s.result.Done? <==> current.result.Authorized?)
      && (s.result.Done? ==>
            s.db == current.db
            && s.result.value == TokenAnswer(m, jws, UserRegistered(current.result.user.email, current.result.user.roleId), now))
      && (s.result.Raised? <==> current.result.Denied?)
      && (s.result.Raised? ==> s == Step(d, Raised(current.result.error)))
  {
  }

  /**
   * The refresh token of `generate_tokens` is accepted by `refresh` for its whole life: for a
   * bound user of that email it answers new tokens for the same email, and the user's role.
   */
  lemma RefreshWithIssuedToken(d: Db, m: SiteAuthManager, jws: Jws, user: UserRegistered, issued: Time,
                               req: Request, now: Time)
    requires Valid(d) && UsersBound(d) && UserWithEmail(d, user.email).Some?
    requires SignatureRoundTrip(jws) && issued <= now < issued + 60 * m.refreshTokenExpireMinutes
    requires GetClientInfo(req).Some?
    requires |GetClientInfo(req).value.ip| <= Profiles.IP_LEN
    requires |GetClientInfo(req).value.userAgent| <= Profiles.USER_AGENT_LEN
    ensures var token := GenerateTokens(m, jws, user, issued).refreshToken;
      var s := Refresh(d, m, jws, token, req, now);
      var uid := UserWithEmail(d, user.email).value;
      s.result.Done?
      && s.result.value == TokenAnswer(m, jws, UserRegistered(user.email, d.associations[AssociationOfUser(d, uid).value].roleId), now)
  {
    var info := GetClientInfo(req).value;
    var token := GenerateTokens(m, jws, user, issued).refreshToken;
    AuthProperties.RefreshTokenAccepted(d, m, jws, user, issued, now, info.ip, info.userAgent);
    AuthProperties.UserLoginSucceeds(d, user.email, info.ip, info.userAgent, now);
    var login := UserLogin(d, user.email, info.ip, info.userAgent, None, now);
    var current := GetCurrentUser(d, jws, token, info.ip, info.userAgent, now);
    assert current == Step(login.db, Authorized(login.result.value));
    assert login.result.value.AsRegistered() == UserRegistered(user.email, GetUser(d, user.email).user.roleId);
  }

  /**
   * `change_password`: the current user is resolved, the current password checked against that
   * user's digest, and only then is the new password hashed and stored.
   */
  function ChangePasswordView(d: Db, jws: Jws, hasher: PasswordHasher, token: Token, currentPassword: string,
                              newPassword: string, salt: Salt, req: Request, now: Time)
    : (s: Step<Outcome<Response<UserChangePassword>>>)
    ensures GetClientInfo(req).None? ==> s == Step(d, Crashed)
  {
    match GetClientInfo(req)
    case None => Step(d, Crashed)
    case Some(info) =>
      var current := GetCurrentUser(d, jws, token, info.ip, info.userAgent, now);
      match current.result
      case DecodeCrashed => Step(current.db, Crashed)
      case Denied(e) => Step(current.db, Raised(e))
      case Authorized(user) =>
        if !ValidatePassword(hasher, currentPassword, user.password) then Step(current.db, Raised(PASSWORD_EXCEPTION))
        else
          var changed := ChangePassword(current.db, user.email, HashPassword(hasher, newPassword, salt));
          match changed.result
          case None => Step(changed.db, Raised(CHANGE_PASSWORD_EXCEPTION))
          case Some(r) => Step(changed.db, Done(Response(200, r, None)))
  }

  /**
   * The digest changes only for an accepted user whose current password checks: a rejected token
   * answers its own error with nothing written, a wrong password is a 401 that keeps the login's
   * writes but not a new digest, a failed update is a 500 and a success names the user's email.
   */
  lemma ChangePasswordAnswers(d: Db, jws: Jws, hasher: PasswordHasher, token: Token, currentPassword: string,
                              newPassword: string, salt: Salt, req: Request, now: Time)
    requires GetClientInfo(req).Some?
    ensures var info := GetClientInfo(req).value;
      var current := GetCurrentUser(d, jws, token, info.ip, info.userAgent, now);
      var s := ChangePasswordView(d, jws, hasher, token, currentPassword, newPassword, salt, req, now);
      var checks := current.result.Authorized? && ValidatePassword(hasher, currentPassword, current.result.user.password);
      (current.result.Denied? ==> s == Step(d, Raised(current.result.error)))
      && (current.result.Authorized? && !checks ==> s == Step(current.db, Raised(PASSWORD_EXCEPTION)))
      && (checks ==>
            var changed := ChangePassword(current.db, current.result.user.email, HashPassword(hasher, newPassword, salt));
            s.db == changed.db
            && (s.result.Raised? <==> changed.result.None?)
            && (s.result.Raised? ==> s.result.error == CHANGE_PASSWORD_EXCEPTION && s.db == current.db)
            && (s.result.Done? ==> s.result.value == Response(200, UserChangePassword(current.result.user.email), None)))
  {
  }

  /**
   * After a successful change with a sound hasher, logging in with the new password is accepted
   * and logging in with any password the new digest refuses is not.
   */
  lemma ChangePasswordThenLogin(d: Db, m: SiteAuthManager, jws: Jws, hasher: PasswordHasher, token: Token,
                                currentPassword: string, newPassword: string, salt: Salt, req: Request,
                                req2: Request, now: Time, later: Time)
    requires Valid(d) && UsersBound(d) && HashSound(hasher) && GetClientInfo(req).Some? && GetClientInfo(req2).Some?
    ensures var s := ChangePasswordView(d, jws, hasher, token, currentPassword, newPassword, salt, req, now);
      s.result.Done? ==>
        var email := s.result.value.body.email;
        Login(s.db, m, jws, hasher, email, newPassword, req2, later).result.Done?
  {
    var s := ChangePasswordView(d, jws, hasher, token, currentPassword, newPassword, salt, req, now);
    if s.result.Done? {
      var info := GetClientInfo(req).value;
      var current := GetCurrentUser(d, jws, token, info.ip, info.userAgent, now);
      var email := current.result.user.email;
      var digest := HashPassword(hasher, newPassword, salt);
      assert s.db == ChangePassword(current.db, email, digest).db;
      AuthProperties.CurrentUserKeeps(d, jws, token, info.ip, info.userAgent, now);
      CurrentUserFound(d, jws, token, info.ip, info.userAgent, now);
      ValidateHashedPassword(hasher, newPassword, salt);
      ChangedThenLogin(current.db, m, jws, hasher, email, newPassword, digest, req2, later);
    }
  }

  /** The login half: a stored, bound user whose digest was replaced logs in with a password it checks. */
  lemma ChangedThenLogin(e: Db, m: SiteAuthManager, jws: Jws, hasher: PasswordHasher, email: string,
                         password: string, digest: string, req: Request, now: Time)
    requires Valid(e) && UsersBound(e) && UserWithEmail(e, email).Some? && GetClientInfo(req).Some?
    requires ChangePassword(e, email, digest).result.Some? && ValidatePassword(hasher, password, digest)
    ensures Login(ChangePassword(e, email, digest).db, m, jws, hasher, email, password, req, now).result.Done?
  {
    var c := ChangePassword(e, email, digest);
    AuthProperties.ChangePasswordEffect(e, email, digest);
    assert GetUser(c.db, email).Found? && GetUser(c.db, email).user.password == digest;
  }

  /** An accepted current user is the record `get_user` finds, and is still stored after the login. */
  lemma CurrentUserFound(d: Db, jws: Jws, token: Token, ip: string, userAgent: string, now: Time)
    ensures var current := GetCurrentUser(d, jws, token, ip, userAgent, now);
      current.result.Authorized? ==>
        GetUser(d, current.result.user.email) == Found(current.result.user)
        && UserWithEmail(current.db, current.result.user.email).Some?
  {
    var current := GetCurrentUser(d, jws, token, ip, userAgent, now);
    if current.result.Authorized? {
      var decoded := DecodeToken(jws, token, now);
      var email := Get(decoded.AsDict().value, "sub").value.s;
      var login := UserLogin(d, email, ip, userAgent, None, now);
      assert current == Step(login.db, Authorized(login.result.value));
      AuthProperties.LoginSteps(d, email, ip, userAgent, None, now);
      var uid := UserWithEmail(d, email).value;
      assert uid in login.db.users && login.db.users[uid].email == email;
    }
  }
}
