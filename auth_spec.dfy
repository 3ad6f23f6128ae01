/**
 * backend/auth/app/api_site_v1/depends.py, `AuthService`, as functions from a database state to
 * the committed state and the returned value. Every operation runs in a nested transaction whose
 * errors are caught and rolled back, so a failing operation returns its failure value with the
 * state unchanged.
 */
module AuthSpec {
  import opened Wrappers
  import opened Base
  import opened Json
  import opened Schemas
  import opened Tables
  import opened Associations
  import opened Roles
  import opened SessionKeys
  import opened Security
  import Users
  import Profiles

  /** The `HTTPException`s the service and its endpoints raise. */
  datatype HttpError = HttpError(status: int, detail: string)

  const CRED_EXCEPTION := HttpError(403, "Credentials are not valid")
  const ROLE_EXCEPTION := HttpError(403, "This feature is only available to admins")
  const EXPIRED_EXCEPTION := HttpError(403, "Signature has expired")
  const DATA_EXCEPTION := HttpError(404, "User not found")
  const ACCESS_TOKEN_EXCEPTION := HttpError(401, "Incorrect access token")
  const REFRESH_TOKEN_EXCEPTION := HttpError(401, "Incorrect refresh token")
  const COOKIES_SESSION_EXCEPTION := HttpError(401, "Invalid session")
  const PASSWORD_EXCEPTION := HttpError(401, "Incorrect password")
  const EMAIL_OR_PASSWORD_EXCEPTION := HttpError(401, "Incorrect email or password")
  const EMAIL_CONFLICT_EXCEPTION := HttpError(409, "The email is already stored")
  const COOKIES_SESSION_CREATION_EXCEPTION := HttpError(500, "Session creation error")
  const COOKIES_SESSION_UPDATED_EXCEPTION := HttpError(500, "Session updated error")
  const CHANGE_PASSWORD_EXCEPTION := HttpError(500, "An unexpected error occurred")

  /** `AuthService.JWTKeys`: the `iss` header of each kind of token. */
  const ACCESS_ISSUER := "accessToken"
  const REFRESH_ISSUER := "refreshToken"

  /** Python truthiness of an optional id: `None` and `0` are false. */
  predicate Falsy(id: Option<nat>)
  {
    id.None? || id.value == 0
  }

  /** Python truthiness of an optional string: `None` and `''` are false. */
  predicate Truthy(s: Option<string>)
  {
    s.Some? && s.value != ""
  }

  // ---------------------------------------------------------------------------------------------
  // Profile writes

  /** `_update_profile`: ip, user agent and visit date; the cookie data only when a truthy list is given. */
  function UpdatedProfile(p: Profiles.ProfileRow, ip: string, userAgent: string, now: Time,
                          cookieData: Option<seq<CookiesData>>): (r: Profiles.ProfileRow)
    ensures r.ip == ip && r.userAgent == userAgent && r.visitDate == now
    ensures r.cookieData == if cookieData.Some? && |cookieData.value| > 0 then cookieData.value else p.cookieData
    ensures r.(ip := p.ip, userAgent := p.userAgent, visitDate := p.visitDate, cookieData := p.cookieData) == p
  {
    var q := p.(ip := ip, userAgent := userAgent, visitDate := now);
    if cookieData.Some? && |cookieData.value| > 0 then q.(cookieData := cookieData.value) else q
  }

  /** A profile after `_update_profile` and the flush, whose `before_update` hook records the visit. */
  function Touched(p: Profiles.ProfileRow, ip: string, userAgent: string, now: Time): (r: Profiles.ProfileRow)
    ensures r.ip == ip && r.userAgent == userAgent && r.visitDate == now && r.history.Some?
    ensures Profiles.HistoryEntry(ip, userAgent, now) in r.history.value
    ensures r.key == p.key && r.cookieData == p.cookieData && r.avatar == p.avatar
  {
    Profiles.AfterUpdateHook(UpdatedProfile(p, ip, userAgent, now, None), now)
  }

  /** Writing a touched profile back; the flush fails for a missing row or a column that does not fit. */
  function TouchProfile(d: Db, pid: nat, ip: string, userAgent: string, now: Time): (r: Option<Db>)
    ensures r.Some? <==> pid in d.profiles && Profiles.ColumnsFit(Touched(d.profiles[pid], ip, userAgent, now))
    ensures r.Some? ==> r.value == d.(profiles := d.profiles[pid := Touched(d.profiles[pid], ip, userAgent, now)])
  {
    if pid in d.profiles && Profiles.ColumnsFit(Touched(d.profiles[pid], ip, userAgent, now))
    then Some(d.(profiles := d.profiles[pid := Touched(d.profiles[pid], ip, userAgent, now)]))
    else None
  }

  /** `UPDATE website_users ... WHERE id = uid`, rejected when the new row does not fit. */
  function SetUser(d: Db, uid: nat, u: Users.WebSiteUser): (r: Option<Db>)
    requires uid in d.users
    ensures r.Some? <==> Users.ColumnsFit(u)
    ensures r.Some? ==> r.value == d.(users := d.users[uid := u])
  {
    if Users.ColumnsFit(u) then Some(d.(users := d.users[uid := u])) else None
  }

  // ---------------------------------------------------------------------------------------------
  // Guest sessions

  /** The first element of every new session's `cookie_data`. */
  function NewSessionData(): (c: CookiesData)
    ensures c.userId.None? && c.name == "Иван" && c.customData == "new"
  {
    CookiesData(None, "Иван", "new")
  }

  function SessionRow(key: string, ip: string, userAgent: string, now: Time): (p: Profiles.ProfileRow)
    ensures p.key == key && p.cookieData == [NewSessionData()] && p.history == Some([])
  {
    Profiles.NewProfileRow(key, [NewSessionData()], ip, userAgent, now)
  }

  /**
   * `create_cookie_session`: a profile with a fresh key and the initial session data, bound to
   * the guest role by a new association without user references. The profile is flushed first;
   * binding it to the association fills its back-populated `user_association`, so the flush at
   * the end of the savepoint runs the `before_update` hook on it and the committed row records
   * this visit.
   */
  function CreateCookieSession(d: Db, uuid: Uuid, ip: string, userAgent: string, now: Time)
    : (s: Step<Option<string>>)
    ensures s.result.None? <==>
              RoleWithName(d, Guest).None? || !CanInsertProfile(d, SessionRow(GenerateKey32(uuid), ip, userAgent, now))
    ensures s.result.None? ==> s.db == d
    ensures s.result.Some? ==> s.result.value == GenerateKey32(uuid) && s.db.users == d.users
  {
    match RoleWithName(d, Guest)
    case None => Step(d, None)
    case Some(rid) =>
      var key := GenerateKey32(uuid);
      var p := SessionRow(key, ip, userAgent, now);
      if !CanInsertProfile(d, p) then Step(d, None)
      else Step(InsertAssociation(InsertProfile(d, Profiles.AfterUpdateHook(p, now)),
                                  Association(rid, d.nextProfile, None, None)), Some(key))
  }

  /** `get_cookie_session`: the first `cookie_data` element of the profile with this key. */
  function GetCookieSession(d: Db, key: string): (r: Option<CookiesData>)
    ensures r.Some? <==> ProfileWithKey(d, key).Some? && |d.profiles[ProfileWithKey(d, key).value].cookieData| > 0
    ensures r.Some? ==> r.value == d.profiles[ProfileWithKey(d, key).value].cookieData[0]
  {
    match ProfileWithKey(d, key)
    case None => None
    case Some(pid) => if |d.profiles[pid].cookieData| > 0 then Some(d.profiles[pid].cookieData[0]) else None
  }

  /** The refreshed first session element: custom data `updated`, `_new` appended to the name. */
  function RefreshedData(c: CookiesData): (r: CookiesData)
    ensures r.userId == c.userId && r.name == c.name + "_new" && r.customData == "updated"
  {
    c.(customData := "updated", name := c.name + "_new")
  }

  /** `update_cookie_session`: refreshes the first session element and touches the profile. */
  function UpdateCookieSession(d: Db, key: string, ip: string, userAgent: string, now: Time)
    : (s: Step<Option<CookiesUpdate>>)
    ensures GetCookieSession(d, key).None? ==> s == Step(d, None)
    ensures s.result.None? ==> s.db == d
    ensures s.result.Some? ==> s.result.value.newSessionId == key
                               && s.result.value.session == RefreshedData(GetCookieSession(d, key).value)
    ensures s.db.users == d.users && s.db.associations == d.associations
  {
    match ProfileWithKey(d, key)
    case None => Step(d, None)
    case Some(pid) =>
      var p := d.profiles[pid];
      if |p.cookieData| == 0 then Step(d, None)
      else
        var c := RefreshedData(p.cookieData[0]);
        var q := Touched(p.(cookieData := p.cookieData[0 := c]), ip, userAgent, now);
        if !Profiles.ColumnsFit(q) then Step(d, None)
        else Step(d.(profiles := d.profiles[pid := q]), Some(CookiesUpdate(key, c)))
  }

  // ---------------------------------------------------------------------------------------------
  // Identity

  /** The profile a website user's association points at. */
  function BoundProfile(d: Db, uid: nat): (r: Option<nat>)
    ensures r.Some? <==> AssociationOfUser(d, uid).Some?
    ensures r.Some? ==> r.value == d.associations[AssociationOfUser(d, uid).value].profileId
  {
    match AssociationOfUser(d, uid)
    case None => None
    case Some(aid) => Some(d.associations[aid].profileId)
  }

  /** The user with this email whose bound profile has this key, as `confirm_email_by_key` selects it. */
  function UserWithEmailAndKey(d: Db, email: string, key: string): (r: Option<nat>)
    ensures r.Some? ==> r.value in d.users && d.users[r.value].email == email
    ensures r.Some? ==> BoundProfile(d, r.value).Some? && BoundProfile(d, r.value).value in d.profiles
                        && d.profiles[BoundProfile(d, r.value).value].key == key
  {
    match UserWithEmail(d, email)
    case None => None
    case Some(uid) =>
      match BoundProfile(d, uid)
      case None => None
      case Some(pid) => if pid in d.profiles && d.profiles[pid].key == key then Some(uid) else None
  }

  /**
   * `confirm_email_by_key`: `None` when no user matches; `False` for a confirmed user or a failed
   * write; `True` after setting `email_confirm` and touching user and profile.
   */
  function ConfirmEmailByKey(d: Db, key: string, email: string, ip: string, userAgent: string, now: Time)
    : (s: Step<Option<bool>>)
    ensures s.result.None? <==> UserWithEmailAndKey(d, email, key).None?
    ensures s.result != Some(true) ==> s.db == d
    ensures s.result == Some(true) ==>
              var uid := UserWithEmailAndKey(d, email, key).value;
              !d.users[uid].emailConfirm && s.db.users == d.users[uid := d.users[uid].(activityDate := now, emailConfirm := true)]
              && s.db.associations == d.associations
  {
    match UserWithEmailAndKey(d, email, key)
    case None => Step(d, None)
    case Some(uid) =>
      if d.users[uid].emailConfirm then Step(d, Some(false))
      else
        match SetUser(d, uid, d.users[uid].(activityDate := now, emailConfirm := true))
        case None => Step(d, Some(false))
        case Some(d1) =>
          match TouchProfile(d1, BoundProfile(d, uid).value, ip, userAgent, now)
          case None => Step(d, Some(false))
          case Some(d2) => Step(d2, Some(true))
  }

  /** The profile of a live guest session named by the `Cookie-Session` value, if any. */
  function LiveSession(d: Db, cookie: Option<string>): (r: Option<nat>)
    ensures r.Some? ==> Truthy(cookie) && r == ProfileWithKey(d, cookie.value) && GetCookieSession(d, cookie.value).Some?
    ensures r.None? ==> !Truthy(cookie) || GetCookieSession(d, cookie.value).None?
  {
    if Truthy(cookie) && GetCookieSession(d, cookie.value).Some? then ProfileWithKey(d, cookie.value) else None
  }

  /** Registration through a live session: a new user, and the session's association rebound to it. */
  function RegisterAdopting(d: Db, rid: nat, pid: nat, email: string, digest: string, now: Time)
    : (s: Step<Option<UserRegistered>>)
    ensures s.result.None? ==> s.db == d
    ensures s.result.Some? ==> s.result.value == UserRegistered(email, rid)
  {
    var u := Users.NewWebSiteUser(email, digest, now);
    if !CanInsertUser(d, u) then Step(d, None)
    else
      var d1 := InsertUser(d, u);
      match AssociationOfProfile(d1, pid)
      case None => Step(d, None)
      case Some(aid) =>
        var a := d1.associations[aid].(roleId := rid, userWebsiteId := Some(d.nextUser));
        Step(d1.(associations := d1.associations[aid := a]), Some(UserRegistered(email, rid)))
  }

  /**
   * Registration without a session: a new user, a new profile without session data, and their
   * association. As for a new guest session, the profile is dirtied by the association that
   * references it, so it commits as the `before_update` hook leaves it.
   */
  function RegisterFresh(d: Db, rid: nat, email: string, digest: string, uuid: Uuid,
                         ip: string, userAgent: string, now: Time): (s: Step<Option<UserRegistered>>)
    ensures s.result.None? ==> s.db == d
    ensures s.result.Some? ==> s.result.value == UserRegistered(email, rid)
  {
    var u := Users.NewWebSiteUser(email, digest, now);
    if !CanInsertUser(d, u) then Step(d, None)
    else
      var d1 := InsertUser(d, u);
      var p := Profiles.NewProfileRow(GenerateKey32(uuid), [], ip, userAgent, now);
      if !CanInsertProfile(d1, p) then Step(d, None)
      else
        var d2 := InsertProfile(d1, Profiles.AfterUpdateHook(p, now));
        Step(InsertAssociation(d2, Association(rid, d1.nextProfile, Some(d.nextUser), None)),
             Some(UserRegistered(email, rid)))
  }

  /** `user_registration` as written: any live session is adopted, even one bound to another user. */
  function UserRegistrationAsWritten(d: Db, email: string, digest: string, cookie: Option<string>,
                                     uuid: Uuid, ip: string, userAgent: string, now: Time)
    : (s: Step<Option<UserRegistered>>)
    ensures RoleWithName(d, User).None? || UserWithEmail(d, email).Some? ==> s == Step(d, None)
  {
    match RoleWithName(d, User)
    case None => Step(d, None)
    case Some(rid) =>
      match LiveSession(d, cookie)
      case Some(pid) => RegisterAdopting(d, rid, pid, email, digest, now)
      case None => RegisterFresh(d, rid, email, digest, uuid, ip, userAgent, now)
  }

  /** A session is free to adopt when its association has no website user. */
  predicate Unclaimed(d: Db, pid: nat)
  {
    match AssociationOfProfile(d, pid)
    case None => true
    case Some(aid) => Falsy(d.associations[aid].userWebsiteId)
  }

  /**
   * `user_registration` with the adoption restricted to unclaimed sessions: a session already
   * bound to a website user is left to its owner, and registration takes the fresh path.
   */
  function UserRegistration(d: Db, email: string, digest: string, cookie: Option<string>,
                            uuid: Uuid, ip: string, userAgent: string, now: Time)
    : (s: Step<Option<UserRegistered>>)
    ensures RoleWithName(d, User).None? || UserWithEmail(d, email).Some? ==> s == Step(d, None)
    ensures s.result.None? ==> s.db == d
    ensures s.result.Some? ==> s.result.value == UserRegistered(email, RoleWithName(d, User).value)
  {
    match RoleWithName(d, User)
    case None => Step(d, None)
    case Some(rid) =>
      match LiveSession(d, cookie)
      case Some(pid) =>
        if Unclaimed(d, pid) then RegisterAdopting(d, rid, pid, email, digest, now)
        else RegisterFresh(d, rid, email, digest, uuid, ip, userAgent, now)
      case None => RegisterFresh(d, rid, email, digest, uuid, ip, userAgent, now)
  }

  /**
   * `user_change_password`: the digest replaces the password of the user with this email; no
   * such user is still a success.
   */
  function ChangePassword(d: Db, email: string, digest: string): (s: Step<Option<UserChangePassword>>)
    ensures UserWithEmail(d, email).None? ==> s == Step(d, Some(UserChangePassword(email)))
    ensures s.result.None? ==> s.db == d && UserWithEmail(d, email).Some?
    ensures s.result.Some? ==> s.result.value == UserChangePassword(email)
    ensures s.db.profiles == d.profiles && s.db.associations == d.associations
  {
    match UserWithEmail(d, email)
    case None => Step(d, Some(UserChangePassword(email)))
    case Some(uid) =>
      match SetUser(d, uid, d.users[uid].(password := digest))
      case None => Step(d, None)
      case Some(d1) => Step(d1, Some(UserChangePassword(email)))
  }

  /** What `get_user` gives: no user, the user, or the `AttributeError` of a user without association. */
  datatype UserLookup = NoUser | Found(user: UserLoginRegistered) | LookupRaised

  /** `get_user`: read-only; the role comes from the user's association. */
  function GetUser(d: Db, email: string): (r: UserLookup)
    ensures r.NoUser? <==> UserWithEmail(d, email).None?
    ensures r.Found? ==> var uid := UserWithEmail(d, email).value;
              AssociationOfUser(d, uid).Some?
              && r.user == UserLoginRegistered(email, d.associations[AssociationOfUser(d, uid).value].roleId,
                                               d.users[uid].password)
  {
    match UserWithEmail(d, email)
    case None => NoUser
    case Some(uid) =>
      match AssociationOfUser(d, uid)
      case None => LookupRaised
      case Some(aid) => Found(UserLoginRegistered(email, d.associations[aid].roleId, d.users[uid].password))
  }

  /**
   * The merge `user_login` performs for a live session that is not the user's own: the session's
   * profile is deleted when its association has no website user, and kept otherwise. `None`
   * stands for the `AttributeError` of a session profile without association.
   */
  function MergeSession(d: Db, ownPid: nat, cookie: Option<string>): (r: Option<Db>)
    ensures r.Some? ==> r.value == d || (LiveSession(d, cookie).Some? && r.value == DeleteProfile(d, LiveSession(d, cookie).value))
  {
    match LiveSession(d, cookie)
    case None => Some(d)
    case Some(tpid) =>
      if ownPid !in d.profiles then None
      else if d.profiles[ownPid].key == cookie.value then Some(d)
      else
        match AssociationOfProfile(d, tpid)
        case None => None
        case Some(taid) =>
          if Falsy(d.associations[taid].userWebsiteId) then Some(DeleteProfile(d, tpid)) else Some(d)
  }

  /**
   * `user_login`: merges a stray session, then touches the user's activity date and bound profile.
   * An unknown email or any failure returns `None` with no writes.
   */
  function UserLogin(d: Db, email: string, ip: string, userAgent: string, cookie: Option<string>, now: Time)
    : (s: Step<Option<UserLoginRegistered>>)
    ensures UserWithEmail(d, email).None? ==> s == Step(d, None)
    ensures s.result.None? ==> s.db == d
    ensures s.result.Some? ==> GetUser(d, email) == Found(s.result.value)
  {
    match UserWithEmail(d, email)
    case None => Step(d, None)
    case Some(uid) =>
      match AssociationOfUser(d, uid)
      case None => Step(d, None)
      case Some(aid) =>
        var a := d.associations[aid];
        match MergeSession(d, a.profileId, cookie)
        case None => Step(d, None)
        case Some(d1) =>
          match SetUser(d1, uid, d1.users[uid].(activityDate := now))
          case None => Step(d, None)
          case Some(d2) =>
            match TouchProfile(d2, a.profileId, ip, userAgent, now)
            case None => Step(d, None)
            case Some(d3) => Step(d3, Some(UserLoginRegistered(email, a.roleId, d.users[uid].password)))
  }

  /**
   * `user_get_data`: touches the user and the bound profile, commits, and then reads role and
   * group; a role without a group (or a dangling reference) returns `None` after the commit.
   */
  function UserGetData(d: Db, email: string, ip: string, userAgent: string, now: Time)
    : (s: Step<Option<PingAuthInfo>>)
    ensures UserWithEmail(d, email).None? ==> s == Step(d, None)
    ensures s.result.Some? ==> var uid := UserWithEmail(d, email).value;
              s.result.value.email == email && s.result.value.activityDate == now
              && s.result.value.emailConfirm == d.users[uid].emailConfirm
              && BoundProfile(d, uid) == Some(s.result.value.id)
    ensures s.db.associations == d.associations
  {
    match UserWithEmail(d, email)
    case None => Step(d, None)
    case Some(uid) =>
      match AssociationOfUser(d, uid)
      case None => Step(d, None)
      case Some(aid) =>
        var a := d.associations[aid];
        match SetUser(d, uid, d.users[uid].(activityDate := now))
        case None => Step(d, None)
        case Some(d1) =>
          match TouchProfile(d1, a.profileId, ip, userAgent, now)
          case None => Step(d, None)
          case Some(d2) =>
            if a.roleId !in d.roles then Step(d2, None)
            else
              var role := d.roles[a.roleId];
              if role.group.None? || role.group.value !in d.groups then Step(d2, None)
              else
                Step(d2, Some(PingAuthInfo(a.profileId, email, d.users[uid].emailConfirm, role.name.Value(),
                                           d.groups[role.group.value].name.Value(),
                                           d.profiles[a.profileId].avatar, now)))
  }

  // ---------------------------------------------------------------------------------------------
  // Tokens and the current user

  /** The payload of both tokens: `{rol: role_id, sub: email}`. */
  function TokenPayload(user: UserRegistered): (o: Object)
    ensures o.Keys == {"rol", "sub"} && o["rol"] == Int(user.roleId) && o["sub"] == Str(user.email)
  {
    map["rol" := Int(user.roleId), "sub" := Str(user.email)]
  }

  function IssuerHeader(issuer: string): (h: Object)
    ensures h.Keys == {"iss"} && h["iss"] == Str(issuer)
    ensures KeepsAlgorithm(h)
  {
    map["iss" := Str(issuer)]
  }

  /** `generate_tokens`: an access and a refresh token over the same payload, and `Bearer`. */
  function GenerateTokens(m: SiteAuthManager, jws: Jws, user: UserRegistered, now: Time): (r: AuthInfo)
    ensures r.tokenType == "Bearer"
    ensures r.accessToken == CreateAccessToken(m, jws, IssuerHeader(ACCESS_ISSUER), TokenPayload(user), None, now)
    ensures r.refreshToken == CreateRefreshToken(m, jws, IssuerHeader(REFRESH_ISSUER), TokenPayload(user), None, now)
  {
    AuthInfo(CreateAccessToken(m, jws, IssuerHeader(ACCESS_ISSUER), TokenPayload(user), None, now),
             CreateRefreshToken(m, jws, IssuerHeader(REFRESH_ISSUER), TokenPayload(user), None, now),
             "Bearer")
  }

  /** The result of resolving the current user: the user, an `HTTPException`, or an uncaught decode error. */
  datatype Current<T> = Authorized(user: T) | Denied(error: HttpError) | DecodeCrashed

  type CurrentUser = Current<UserLoginRegistered>

  /**
   * The login of the `sub` claim: a non-string `sub` makes the query fail inside `user_login`,
   * which returns `None` like an unknown email.
   */
  function LoginAs(d: Db, sub: Value, ip: string, userAgent: string, now: Time): (s: Step<CurrentUser>)
    ensures s.result.Authorized? <==> sub.Str? && UserLogin(d, sub.s, ip, userAgent, None, now).result.Some?
    ensures !s.result.Authorized? ==> s == Step(d, Denied(DATA_EXCEPTION))
    ensures s.result.Authorized? ==> s.db == UserLogin(d, sub.s, ip, userAgent, None, now).db
  {
    if !sub.Str? then Step(d, Denied(DATA_EXCEPTION))
    else
      var s := UserLogin(d, sub.s, ip, userAgent, None, now);
      match s.result
      case None => Step(d, Denied(DATA_EXCEPTION))
      case Some(u) => Step(s.db, Authorized(u))
  }

  /**
   * `get_current_user`: no dictionary is a credentials error, one without `sub` (such as the header
   * of an expired token) an expiry error; otherwise the `sub` user is logged in without a session.
   */
  function GetCurrentUser(d: Db, jws: Jws, token: Token, ip: string, userAgent: string, now: Time)
    : (s: Step<CurrentUser>)
    ensures !s.result.Authorized? ==> s.db == d
    ensures DecodeToken(jws, token, now).NoPayload? ==> s.result == Denied(CRED_EXCEPTION)
    ensures DecodeToken(jws, token, now).Raises? <==> s.result.DecodeCrashed?
  {
    var decoded := DecodeToken(jws, token, now);
    if decoded.Raises? then Step(d, DecodeCrashed)
    else
      match decoded.AsDict()
      case None => Step(d, Denied(CRED_EXCEPTION))
      case Some(payload) =>
        var sub := Get(payload, "sub");
        if IsNone(sub) then Step(d, Denied(EXPIRED_EXCEPTION))
        else LoginAs(d, sub.value, ip, userAgent, now)
  }

  /** The profile data of the `sub` claim; as in `LoginAs`, a non-string `sub` finds no user. */
  function FetchDataAs(d: Db, sub: Value, ip: string, userAgent: string, now: Time): (s: Step<Current<PingAuthInfo>>)
    ensures s.result.Authorized? <==> sub.Str? && UserGetData(d, sub.s, ip, userAgent, now).result.Some?
    ensures !sub.Str? ==> s == Step(d, Denied(DATA_EXCEPTION))
    ensures s.result.Authorized? ==> s.result.user.email == sub.s
    ensures !s.result.Authorized? ==> s.result == Denied(DATA_EXCEPTION)
  {
    if !sub.Str? then Step(d, Denied(DATA_EXCEPTION))
    else
      var s := UserGetData(d, sub.s, ip, userAgent, now);
      match s.result
      case None => Step(s.db, Denied(DATA_EXCEPTION))
      case Some(info) => Step(s.db, Authorized(info))
  }

  /** `get_current_user_data`: the checks of `get_current_user`, then `user_get_data` for `sub`. */
  function GetCurrentUserData(d: Db, jws: Jws, token: Token, ip: string, userAgent: string, now: Time)
    : (s: Step<Current<PingAuthInfo>>)
    ensures DecodeToken(jws, token, now).NoPayload? ==> s == Step(d, Denied(CRED_EXCEPTION))
    ensures DecodeToken(jws, token, now).Raises? <==> s.result.DecodeCrashed?
    ensures s.result.Authorized? ==> var payload := DecodeToken(jws, token, now).AsDict();
              payload.Some? && Get(payload.value, "sub") == Some(Str(s.result.user.email))
  {
    var decoded := DecodeToken(jws, token, now);
    if decoded.Raises? then Step(d, DecodeCrashed)
    else
      match decoded.AsDict()
      case None => Step(d, Denied(CRED_EXCEPTION))
      case Some(payload) =>
        var sub := Get(payload, "sub");
        if IsNone(sub) then Step(d, Denied(EXPIRED_EXCEPTION))
        else FetchDataAs(d, sub.value, ip, userAgent, now)
  }

  /** `get_current_admin`: as `get_current_user`, but the token's `rol` claim must equal 1. */
  function GetCurrentAdmin(d: Db, jws: Jws, token: Token, ip: string, userAgent: string, now: Time)
    : (s: Step<CurrentUser>)
    ensures !s.result.Authorized? ==> s.db == d
    ensures s.result.Authorized? ==> var payload := DecodeToken(jws, token, now).AsDict();
              payload.Some? && !DiffersFromOne(Get(payload.value, "rol"))
  {
    var decoded := DecodeToken(jws, token, now);
    if decoded.Raises? then Step(d, DecodeCrashed)
    else
      match decoded.AsDict()
      case None => Step(d, Denied(CRED_EXCEPTION))
      case Some(payload) =>
        var sub := Get(payload, "sub");
        if IsNone(sub) then Step(d, Denied(EXPIRED_EXCEPTION))
        else if DiffersFromOne(Get(payload, "rol")) then Step(d, Denied(ROLE_EXCEPTION))
        else LoginAs(d, sub.value, ip, userAgent, now)
  }
}
