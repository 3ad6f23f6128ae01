/**
 * backend/auth/app/api_site_v1/depends.py, `AuthService`, as the code runs it: every operation reads
 * and writes through the database session step by step, loads `Profile` objects and flushes them,
 * and rolls back to its savepoint on failure. Each method commits exactly the state its function in
 * `AuthSpec` describes and returns the same value.
 */
module AuthService {
  import opened Wrappers
  import opened Base
  import opened Json
  import opened Schemas
  import opened Tables
  import opened Associations
  import opened Roles
  import opened SessionKeys
  import opened Security
  import opened Session
  import Users
  import Profiles
  import AuthSpec
  import AuthProperties

  /** `_update_profile` on a loaded profile object. */
  method UpdateProfile(p: Profiles.Profile, ip: string, userAgent: string, now: Time,
                       cookieData: Option<seq<CookiesData>>)
    modifies p
    ensures p.Row() == AuthSpec.UpdatedProfile(old(p.Row()), ip, userAgent, now, cookieData)
  {
    p.ip := ip;
    p.userAgent := userAgent;
    p.visitDate := now;
    if cookieData.Some? && |cookieData.value| > 0 {
      p.cookieData := cookieData.value;
    }
  }

  /** `session.get(Profile, pid)`, `_update_profile` and the flush that runs the history hook. */
  method TouchProfile(st: Store, pid: nat, ip: string, userAgent: string, now: Time) returns (ok: bool)
    modifies st
    ensures var r := AuthSpec.TouchProfile(old(st.State()), pid, ip, userAgent, now);
      ok == r.Some? && st.State() == if ok then r.value else old(st.State())
  {
    if pid !in st.profiles {
      return false;
    }
    var p := new Profiles.Profile.Load(st.profiles[pid]);
    UpdateProfile(p, ip, userAgent, now, None);
    ok := st.FlushProfile(pid, p, now);
  }

  /**
   * The flush at the end of a savepoint for a profile that was inserted and then bound to a new
   * association: the object is dirty, so the `before_update` hook runs on it; the hook widens no
   * column, so the write succeeds.
   */
  method FlushBound(st: Store, pid: nat, now: Time) returns (ok: bool)
    requires pid in st.profiles && Profiles.ColumnsFit(st.profiles[pid])
    modifies st
    ensures ok
    ensures st.State() == old(st.State()).(profiles := old(st.profiles)[pid := Profiles.AfterUpdateHook(old(st.profiles)[pid], now)])
  {
    var p := new Profiles.Profile.Load(st.profiles[pid]);
    Profiles.HookKeepsColumns(st.profiles[pid], now);
    ok := st.FlushProfile(pid, p, now);
  }

  /**
   * The writes that end the nested transactions of `create_cookie_session` and of fresh
   * registration: the profile is added, then the association built with `profile=profile`, whose
   * back-reference dirties the profile so the flush runs its update hook.
   */
  method AddBoundProfile(st: Store, row: Profiles.ProfileRow, rid: nat, user: Option<nat>, now: Time)
    returns (ok: bool)
    modifies st
    ensures ok == CanInsertProfile(old(st.State()), row)
    ensures st.State() == if ok then InsertAssociation(InsertProfile(old(st.State()), Profiles.AfterUpdateHook(row, now)),
      Association(rid, old(st.State()).nextProfile, user, None)) else old(st.State())
  {
    ghost var d := st.State();
    var pid;
    ok, pid := st.InsertProfile(row);
    if !ok {
      return;
    }
    var a := Association(rid, pid, user, None);
    var aid := st.InsertAssociation(a);
    var flushed := FlushBound(st, pid, now);
    assert st.profiles == d.profiles[pid := Profiles.AfterUpdateHook(row, now)];
  }

  method CreateCookieSession(st: Store, uuid: Uuid, ip: string, userAgent: string, now: Time)
    returns (key: Option<string>)
    requires st.Valid()
    modifies st
    ensures var s := AuthSpec.CreateCookieSession(old(st.State()), uuid, ip, userAgent, now);
      st.State() == s.db && key == s.result
    ensures st.Valid()
  {
    AuthProperties.CreateCookieSessionKeeps(st.State(), uuid, ip, userAgent, now);
    var rid := RoleWithName(st.State(), Guest);
    if rid.None? {
      return None;
    }
    var k := GenerateKey32(uuid);
    var ok := AddBoundProfile(st, AuthSpec.SessionRow(k, ip, userAgent, now), rid.value, None, now);
    if !ok {
      return None;
    }
    return Some(k);
  }

  method UpdateCookieSession(st: Store, key: string, ip: string, userAgent: string, now: Time)
    returns (r: Option<CookiesUpdate>)
    requires st.Valid()
    modifies st
    ensures var s := AuthSpec.UpdateCookieSession(old(st.State()), key, ip, userAgent, now);
      st.State() == s.db && r == s.result
    ensures st.Valid()
  {
    AuthProperties.UpdateCookieSessionKeeps(st.State(), key, ip, userAgent, now);
    var pid := ProfileWithKey(st.State(), key);
    if pid.None? {
      return None;
    }
    var p := new Profiles.Profile.Load(st.profiles[pid.value]);
    if |p.cookieData| == 0 {
      return None;
    }
    var data := AuthSpec.RefreshedData(p.cookieData[0]);
    p.cookieData := p.cookieData[0 := data];
    UpdateProfile(p, ip, userAgent, now, None);
    var ok := st.FlushProfile(pid.value, p, now);
    if !ok {
      return None;
    }
    return Some(CookiesUpdate(key, data));
  }

  /**
   * The writes that end the nested transactions of `confirm_email_by_key`, `user_login` and
   * `user_get_data`: the
   * `UPDATE` of the user row, then the touch of the bound profile; when either is rejected the
   * state they started from is restored.
   */
  method UpdateUserAndProfile(st: Store, uid: nat, u: Users.WebSiteUser, pid: nat, ip: string, userAgent: string,
                              now: Time) returns (ok: bool)
    requires uid in st.users
    modifies st
    ensures var d1 := AuthSpec.SetUser(old(st.State()), uid, u);
      ok == (d1.Some? && AuthSpec.TouchProfile(d1.value, pid, ip, userAgent, now).Some?)
      && st.State() == if ok then AuthSpec.TouchProfile(d1.value, pid, ip, userAgent, now).value else old(st.State())
  {
    var savepoint := st.State();
    ok := st.UpdateUser(uid, u);
    if !ok {
      return;
    }
    ok := TouchProfile(st, pid, ip, userAgent, now);
    if !ok {
      st.Rollback(savepoint);
    }
  }

  method ConfirmEmailByKey(st: Store, key: string, email: string, ip: string, userAgent: string, now: Time)
    returns (r: Option<bool>)
    requires st.Valid()
    modifies st
    ensures var s := AuthSpec.ConfirmEmailByKey(old(st.State()), key, email, ip, userAgent, now);
      st.State() == s.db && r == s.result
    ensures st.Valid()
  {
    var savepoint := st.State();
    var uid := AuthSpec.UserWithEmailAndKey(savepoint, email, key);
    if uid.None? {
      r := None;
    } else if st.users[uid.value].emailConfirm {
      r := Some(false);
    } else {
      var ok := UpdateUserAndProfile(st, uid.value, st.users[uid.value].(activityDate := now, emailConfirm := true),
                                     AuthSpec.BoundProfile(savepoint, uid.value).value, ip, userAgent, now);
      r := Some(ok);
    }
    AuthProperties.ConfirmEmailByKeyKeeps(savepoint, key, email, ip, userAgent, now);
  }

  /** The guest path of `user_registration`: a new user takes over the session's association. */
  method RegisterAdopting(st: Store, rid: nat, pid: nat, email: string, digest: string, now: Time)
    returns (r: Option<UserRegistered>)
    modifies st
    ensures var s := AuthSpec.RegisterAdopting(old(st.State()), rid, pid, email, digest, now);
      st.State() == s.db && r == s.result
  {
    var savepoint := st.State();
    var ok, uid := st.InsertUser(Users.NewWebSiteUser(email, digest, now));
    if !ok {
      return None;
    }
    var aid := AssociationOfProfile(st.State(), pid);
    if aid.None? {
      st.Rollback(savepoint);
      return None;
    }
    st.UpdateAssociation(aid.value, st.associations[aid.value].(roleId := rid, userWebsiteId := Some(uid)));
    return Some(UserRegistered(email, rid));
  }

  /** The fresh path of `user_registration`: a new user, a new profile and their association. */
  method RegisterFresh(st: Store, rid: nat, email: string, digest: string, uuid: Uuid,
                       ip: string, userAgent: string, now: Time) returns (r: Option<UserRegistered>)
    modifies st
    ensures var s := AuthSpec.RegisterFresh(old(st.State()), rid, email, digest, uuid, ip, userAgent, now);
      st.State() == s.db && r == s.result
  {
    var savepoint := st.State();
    var key := GenerateKey32(uuid);
    var ok, uid := st.InsertUser(Users.NewWebSiteUser(email, digest, now));
    if !ok {
      return None;
    }
    ok := AddBoundProfile(st, Profiles.NewProfileRow(key, [], ip, userAgent, now), rid, Some(uid), now);
    if !ok {
      st.Rollback(savepoint);
      return None;
    }
    return Some(UserRegistered(email, rid));
  }

  /**
   * `user_registration`; the password is hashed with `salt` and the guest path is taken only for
   * a session no website user owns.
   */
  method UserRegistration(st: Store, hasher: PasswordHasher, email: string, password: string, salt: Salt,
                          cookie: Option<string>, uuid: Uuid, ip: string, userAgent: string, now: Time)
    returns (r: Option<UserRegistered>)
    requires st.Valid()
    modifies st
    ensures var s := AuthSpec.UserRegistration(old(st.State()), email, HashPassword(hasher, password, salt),
                                               cookie, uuid, ip, userAgent, now);
      st.State() == s.db && r == s.result
    ensures st.Valid()
  {
    AuthProperties.UserRegistrationKeeps(st.State(), email, HashPassword(hasher, password, salt), cookie, uuid, ip, userAgent, now);
    var d := st.State();
    var digest := HashPassword(hasher, password, salt);
    var rid := RoleWithName(d, User);
    if rid.None? {
      return None;
    }
    var live := AuthSpec.LiveSession(d, cookie);
    if live.Some? && AuthSpec.Unclaimed(d, live.value) {
      r := RegisterAdopting(st, rid.value, live.value, email, digest, now);
    } else {
      r := RegisterFresh(st, rid.value, email, digest, uuid, ip, userAgent, now);
    }
  }

  method UserChangePassword(st: Store, hasher: PasswordHasher, email: string, newPassword: string, salt: Salt)
    returns (r: Option<Schemas.UserChangePassword>)
    requires st.Valid()
    modifies st
    ensures var s := AuthSpec.ChangePassword(old(st.State()), email, HashPassword(hasher, newPassword, salt));
      st.State() == s.db && r == s.result
    ensures st.Valid()
  {
    AuthProperties.ChangePasswordKeeps(st.State(), email, HashPassword(hasher, newPassword, salt));
    var uid := UserWithEmail(st.State(), email);
    if uid.None? {
      return Some(Schemas.UserChangePassword(email));
    }
    var ok := st.UpdateUser(uid.value, st.users[uid.value].(password := HashPassword(hasher, newPassword, salt)));
    if !ok {
      return None;
    }
    return Some(Schemas.UserChangePassword(email));
  }

  /** The session merge of `user_login`; `ok` is false where the code meets a missing relationship. */
  method MergeSession(st: Store, ownPid: nat, cookie: Option<string>) returns (ok: bool)
    modifies st
    ensures var r := AuthSpec.MergeSession(old(st.State()), ownPid, cookie);
      ok == r.Some? && st.State() == if ok then r.value else old(st.State())
  {
    var d := st.State();
    var live := AuthSpec.LiveSession(d, cookie);
    if live.None? {
      return true;
    }
    if ownPid !in st.profiles {
      return false;
    }
    if st.profiles[ownPid].key == cookie.value {
      return true;
    }
    var taid := AssociationOfProfile(d, live.value);
    if taid.None? {
      return false;
    }
    if AuthSpec.Falsy(st.associations[taid.value].userWebsiteId) {
      st.DeleteProfile(live.value);
    }
    return true;
  }

  /**
   * The nested transaction of `user_login`: the user and their association are looked up, a stray
   * session is merged, then the user and the bound profile are touched; a failure after the merge
   * rolls back to the savepoint taken before it.
   */
  method LoginTransaction(st: Store, email: string, ip: string, userAgent: string, cookie: Option<string>, now: Time)
    returns (r: Option<UserLoginRegistered>)
    modifies st
    ensures var s := AuthSpec.UserLogin(old(st.State()), email, ip, userAgent, cookie, now);
      st.State() == s.db && r == s.result
  {
    var savepoint := st.State();
    var uid := UserWithEmail(savepoint, email);
    if uid.None? {
      return None;
    }
    var aid := AssociationOfUser(savepoint, uid.value);
    if aid.None? {
      return None;
    }
    var a := savepoint.associations[aid.value];
    var ok := MergeSession(st, a.profileId, cookie);
    if !ok {
      return None;
    }
    ok := UpdateUserAndProfile(st, uid.value, st.users[uid.value].(activityDate := now), a.profileId, ip, userAgent, now);
    if !ok {
      st.Rollback(savepoint);
      return None;
    }
    return Some(UserLoginRegistered(email, a.roleId, savepoint.users[uid.value].password));
  }

  /** `user_login`: the nested transaction, committed when it succeeds. */
  method UserLogin(st: Store, email: string, ip: string, userAgent: string, cookie: Option<string>, now: Time)
    returns (r: Option<UserLoginRegistered>)
    requires st.Valid()
    modifies st
    ensures var s := AuthSpec.UserLogin(old(st.State()), email, ip, userAgent, cookie, now);
      st.State() == s.db && r == s.result
    ensures st.Valid()
  {
    AuthProperties.UserLoginKeeps(st.State(), email, ip, userAgent, cookie, now);
    r := LoginTransaction(st, email, ip, userAgent, cookie, now);
  }

  method UserGetData(st: Store, email: string, ip: string, userAgent: string, now: Time)
    returns (r: Option<PingAuthInfo>)
    requires st.Valid()
    modifies st
    ensures var s := AuthSpec.UserGetData(old(st.State()), email, ip, userAgent, now);
      st.State() == s.db && r == s.result
    ensures st.Valid()
  {
    AuthProperties.UserGetDataKeeps(st.State(), email, ip, userAgent, now);
    var savepoint := st.State();
    var uid := UserWithEmail(savepoint, email);
    if uid.None? {
      return None;
    }
    var aid := AssociationOfUser(savepoint, uid.value);
    if aid.None? {
      return None;
    }
    var a := savepoint.associations[aid.value];
    var ok := UpdateUserAndProfile(st, uid.value, st.users[uid.value].(activityDate := now), a.profileId, ip, userAgent, now);
    if !ok {
      return None;
    }
    // committed; the role and its group are read from the objects loaded before the commit
    if a.roleId !in savepoint.roles {
      return None;
    }
    var role := savepoint.roles[a.roleId];
    if role.group.None? || role.group.value !in savepoint.groups {
      return None;
    }
    return Some(PingAuthInfo(a.profileId, email, savepoint.users[uid.value].emailConfirm, role.name.Value(),
                             savepoint.groups[role.group.value].name.Value(),
                             savepoint.profiles[a.profileId].avatar, now));
  }

  /**
   * `get_current_user`. Where the JWT library lets a `sub` that is not a string through, the email
   * query inside `user_login` fails, which that method reports as no user.
   */
  method GetCurrentUser(st: Store, jws: Jws, token: Token, ip: string, userAgent: string, now: Time)
    returns (r: AuthSpec.CurrentUser)
    requires st.Valid()
    modifies st
    ensures var s := AuthSpec.GetCurrentUser(old(st.State()), jws, token, ip, userAgent, now);
      st.State() == s.db && r == s.result
    ensures st.Valid()
  {
    var decoded := DecodeToken(jws, token, now);
    if decoded.Raises? {
      return AuthSpec.DecodeCrashed;
    }
    var payload := decoded.AsDict();
    if payload.None? {
      return AuthSpec.Denied(AuthSpec.CRED_EXCEPTION);
    }
    var sub := Get(payload.value, "sub");
    if IsNone(sub) {
      return AuthSpec.Denied(AuthSpec.EXPIRED_EXCEPTION);
    }
    if !sub.value.Str? {
      return AuthSpec.Denied(AuthSpec.DATA_EXCEPTION);
    }
    var user := UserLogin(st, sub.value.s, ip, userAgent, None, now);
    if user.None? {
      return AuthSpec.Denied(AuthSpec.DATA_EXCEPTION);
    }
    return AuthSpec.Authorized(user.value);
  }

  /** `get_current_user_data`: the checks of `get_current_user`, then `user_get_data`. */
  method GetCurrentUserData(st: Store, jws: Jws, token: Token, ip: string, userAgent: string, now: Time)
    returns (r: AuthSpec.Current<PingAuthInfo>)
    requires st.Valid()
    modifies st
    ensures var s := AuthSpec.GetCurrentUserData(old(st.State()), jws, token, ip, userAgent, now);
      st.State() == s.db && r == s.result
    ensures st.Valid()
  {
    var decoded := DecodeToken(jws, token, now);
    if decoded.Raises? {
      return AuthSpec.DecodeCrashed;
    }
    var payload := decoded.AsDict();
    if payload.None? {
      return AuthSpec.Denied(AuthSpec.CRED_EXCEPTION);
    }
    var sub := Get(payload.value, "sub");
    if IsNone(sub) {
      return AuthSpec.Denied(AuthSpec.EXPIRED_EXCEPTION);
    }
    if !sub.value.Str? {
      return AuthSpec.Denied(AuthSpec.DATA_EXCEPTION);
    }
    var info := UserGetData(st, sub.value.s, ip, userAgent, now);
    if info.None? {
      return AuthSpec.Denied(AuthSpec.DATA_EXCEPTION);
    }
    return AuthSpec.Authorized(info.value);
  }

  /** `get_current_admin`: `get_current_user` with the `rol` check after the `sub` check. */
  method GetCurrentAdmin(st: Store, jws: Jws, token: Token, ip: string, userAgent: string, now: Time)
    returns (r: AuthSpec.CurrentUser)
    requires st.Valid()
    modifies st
    ensures var s := AuthSpec.GetCurrentAdmin(old(st.State()), jws, token, ip, userAgent, now);
      st.State() == s.db && r == s.result
    ensures st.Valid()
  {
    var decoded := DecodeToken(jws, token, now);
    if decoded.Raises? {
      return AuthSpec.DecodeCrashed;
    }
    var payload := decoded.AsDict();
    if payload.None? {
      return AuthSpec.Denied(AuthSpec.CRED_EXCEPTION);
    }
    var sub := Get(payload.value, "sub");
    if IsNone(sub) {
      return AuthSpec.Denied(AuthSpec.EXPIRED_EXCEPTION);
    }
    if DiffersFromOne(Get(payload.value, "rol")) {
      return AuthSpec.Denied(AuthSpec.ROLE_EXCEPTION);
    }
    if !sub.value.Str? {
      return AuthSpec.Denied(AuthSpec.DATA_EXCEPTION);
    }
    var user := UserLogin(st, sub.value.s, ip, userAgent, None, now);
    if user.None? {
      return AuthSpec.Denied(AuthSpec.DATA_EXCEPTION);
    }
    return AuthSpec.Authorized(user.value);
  }
}
