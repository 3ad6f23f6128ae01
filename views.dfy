/**
 * backend/auth/app/api_site_v1/auth/views.py on the session's store: each endpoint calls the
 * service methods in the order the source does and answers as `ViewSpec` describes.
 */
module Views {
  import opened Wrappers
  import opened Base
  import opened Schemas
  import opened Tables
  import opened SessionKeys
  import opened Security
  import opened Session
  import opened Dependencies
  import AuthSpec
  import AuthService
  import ViewSpec

  method CookiesSession(st: Store, uuid: Uuid, cookie: Option<string>, req: Request, now: Time)
    returns (r: Outcome<ViewSpec.Response<CookiesResponse>>)
    requires st.Valid()
    modifies st
    ensures var s := ViewSpec.CookiesSession(old(st.State()), uuid, cookie, req, now);
      st.State() == s.db && r == s.result
    ensures st.Valid()
  {
    var info := GetClientInfo(req);
    if info.None? {
      return Crashed;
    }
    var ip, userAgent := info.value.ip, info.value.userAgent;
    if cookie.None? {
      var key := AuthService.CreateCookieSession(st, uuid, ip, userAgent, now);
      if key.None? {
        return Raised(AuthSpec.COOKIES_SESSION_CREATION_EXCEPTION);
      }
      var data := AuthSpec.GetCookieSession(st.State(), key.value);
      if data.None? {
        return Raised(AuthSpec.COOKIES_SESSION_CREATION_EXCEPTION);
      }
      return Done(ViewSpec.SessionAnswer(data.value, "Session Created", key.value));
    }
    var existing := AuthSpec.GetCookieSession(st.State(), cookie.value);
    if existing.None? {
      return Raised(AuthSpec.COOKIES_SESSION_EXCEPTION);
    }
    var updated := AuthService.UpdateCookieSession(st, cookie.value, ip, userAgent, now);
    if updated.None? {
      return Raised(AuthSpec.COOKIES_SESSION_UPDATED_EXCEPTION);
    }
    return Done(ViewSpec.SessionAnswer(updated.value.session, "Session Updated", updated.value.newSessionId));
  }

  method AuthenticateUser(st: Store, jws: Jws, token: Token, req: Request, now: Time)
    returns (r: Outcome<ViewSpec.Response<PingAuthInfo>>)
    requires st.Valid()
    modifies st
    ensures var s := ViewSpec.AuthenticateUser(old(st.State()), jws, token, req, now);
      st.State() == s.db && r == s.result
    ensures st.Valid()
  {
    var info := GetClientInfo(req);
    if info.None? {
      return Crashed;
    }
    var user := AuthService.GetCurrentUserData(st, jws, token, info.value.ip, info.value.userAgent, now);
    match user {
      case DecodeCrashed => return Crashed;
      case Denied(e) => return Raised(e);
      case Authorized(data) => return Done(ViewSpec.Response(200, data, None));
    }
  }

  method Registration(st: Store, m: SiteAuthManager, jws: Jws, hasher: PasswordHasher, email: string,
                      password: string, salt: Salt, uuid: Uuid, req: Request, now: Time)
    returns (r: Outcome<ViewSpec.Response<AuthInfo>>)
    requires st.Valid()
    modifies st
    ensures var s := ViewSpec.Registration(old(st.State()), m, jws, hasher, email, password, salt, uuid, req, now);
      st.State() == s.db && r == s.result
    ensures st.Valid()
  {
    var info := GetClientInfo(req);
    if info.None? {
      return Crashed;
    }
    var cookie := Header(req, "Cookie-Session");
    var user := AuthService.UserRegistration(st, hasher, email, password, salt, cookie, uuid,
                                             info.value.ip, info.value.userAgent, now);
    if user.None? {
      return Raised(AuthSpec.EMAIL_CONFLICT_EXCEPTION);
    }
    return Done(ViewSpec.TokenAnswer(m, jws, user.value, now));
  }

  method Login(st: Store, m: SiteAuthManager, jws: Jws, hasher: PasswordHasher, email: string,
               password: string, req: Request, now: Time)
    returns (r: Outcome<ViewSpec.Response<AuthInfo>>)
    requires st.Valid()
    modifies st
    ensures var s := ViewSpec.Login(old(st.State()), m, jws, hasher, email, password, req, now);
      st.State() == s.db && r == s.result
    ensures st.Valid()
  {
    var info := GetClientInfo(req);
    if info.None? {
      return Crashed;
    }
    var cookie := Header(req, "Cookie-Session");
    var user := AuthSpec.GetUser(st.State(), email);
    if user.LookupRaised? {
      return Crashed;
    }
    if user.NoUser? || !ValidatePassword(hasher, password, user.user.password) {
      return Raised(AuthSpec.EMAIL_OR_PASSWORD_EXCEPTION);
    }
    var _ := AuthService.UserLogin(st, email, info.value.ip, info.value.userAgent, cookie, now);
    return Done(ViewSpec.TokenAnswer(m, jws, user.user.AsRegistered(), now));
  }

  method Refresh(st: Store, m: SiteAuthManager, jws: Jws, token: Token, req: Request, now: Time)
    returns (r: Outcome<ViewSpec.Response<AuthInfo>>)
    requires st.Valid()
    modifies st
    ensures var s := ViewSpec.Refresh(old(st.State()), m, jws, token, req, now);
      st.State() == s.db && r == s.result
    ensures st.Valid()
  {
    var info := GetClientInfo(req);
    if info.None? {
      return Crashed;
    }
    var user := AuthService.GetCurrentUser(st, jws, token, info.value.ip, info.value.userAgent, now);
    match user {
      case DecodeCrashed => return Crashed;
      case Denied(e) => return Raised(e);
      case Authorized(u) => return Done(ViewSpec.TokenAnswer(m, jws, u.AsRegistered(), now));
    }
  }

  method ChangePassword(st: Store, jws: Jws, hasher: PasswordHasher, token: Token, currentPassword: string,
                        newPassword: string, salt: Salt, req: Request, now: Time)
    returns (r: Outcome<ViewSpec.Response<UserChangePassword>>)
    requires st.Valid()
    modifies st
    ensures var s := ViewSpec.ChangePasswordView(old(st.State()), jws, hasher, token, currentPassword,
                                                newPassword, salt, req, now);
      st.State() == s.db && r == s.result
    ensures st.Valid()
  {
    var info := GetClientInfo(req);
    if info.None? {
      return Crashed;
    }
    var user := AuthService.GetCurrentUser(st, jws, token, info.value.ip, info.value.userAgent, now);
    match user {
      case DecodeCrashed => return Crashed;
      case Denied(e) => return Raised(e);
      case Authorized(u) =>
        if !ValidatePassword(hasher, currentPassword, u.password) {
          return Raised(AuthSpec.PASSWORD_EXCEPTION);
        }
        var changed := AuthService.UserChangePassword(st, hasher, u.email, newPassword, salt);
        if changed.None? {
          return Raised(AuthSpec.CHANGE_PASSWORD_EXCEPTION);
        }
        return Done(ViewSpec.Response(200, changed.value, None));
    }
  }
}
