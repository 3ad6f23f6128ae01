/**
 * What the operations of `AuthService` keep and achieve: each committed state satisfies the
 * database invariants and keeps every user and profile bound to an association, what one
 * operation writes the next one reads back, and the tokens the service issues are the ones its
 * dependencies accept.
 */
module AuthProperties {
  import opened Wrappers
  import opened Base
  import opened Json
  import opened Schemas
  import opened Tables
  import opened Associations
  import opened Roles
  import opened SessionKeys
  import opened Security
  import opened AuthSpec
  import Users
  import Profiles

  /** Both bindings carry over from one state to the next. */
  ghost predicate BindingsKept(d: Db, e: Db)
  {
    (UsersBound(d) ==> UsersBound(e)) && (ProfilesBound(d) ==> ProfilesBound(e))
  }

  /** The invariants and both bindings, from one committed state to the next. */
  ghost predicate Keeps(d: Db, e: Db)
  {
    Valid(e) && BindingsKept(d, e)
  }

  lemma KeepsSame(d: Db)
    requires Valid(d)
    ensures Keeps(d, d)
  {
  }

  /** Keeping the invariants and bindings is transitive. */
  lemma KeepsChain(d: Db, e: Db, f: Db)
    requires Keeps(d, e) && Keeps(e, f)
    ensures Keeps(d, f)
  {
  }

  // ---------------------------------------------------------------------------------------------
  // Row updates

  /** Writing a touched profile back keeps the invariants and the bindings. */
  lemma TouchProfileKeeps(d: Db, pid: nat, ip: string, userAgent: string, now: Time)
    requires Valid(d)
    ensures var r := TouchProfile(d, pid, ip, userAgent, now); r.Some? ==> Keeps(d, r.value)
  {
    var r := TouchProfile(d, pid, ip, userAgent, now);
    if r.Some? {
      SetProfileValid(d, pid, Touched(d.profiles[pid], ip, userAgent, now));
      AssociationLookupsFrame(d, r.value);
    }
  }

  /** A user update that keeps the email keeps the invariants and the bindings. */
  lemma SetUserKeeps(d: Db, uid: nat, u: Users.WebSiteUser)
    requires Valid(d) && uid in d.users && u.email == d.users[uid].email
    ensures var r := SetUser(d, uid, u); r.Some? ==> Keeps(d, r.value)
  {
    var r := SetUser(d, uid, u);
    if r.Some? {
      SetUserValid(d, uid, u);
      AssociationLookupsFrame(d, r.value);
    }
  }

  /** A stored profile that fits, touched with fitting client data, still fits. */
  lemma TouchFits(d: Db, pid: nat, ip: string, userAgent: string, now: Time)
    requires pid in d.profiles && Profiles.ColumnsFit(d.profiles[pid])
    requires |ip| <= Profiles.IP_LEN && |userAgent| <= Profiles.USER_AGENT_LEN
    ensures TouchProfile(d, pid, ip, userAgent, now).Some?
  {
  }

  // ---------------------------------------------------------------------------------------------
  // Guest sessions

  /** A new session's row has an id no association mentions yet. */
  lemma FreshProfileUnbound(d: Db)
    requires Valid(d)
    ensures AssociationOfProfile(d, d.nextProfile).None?
  {
    forall k | k in d.associations ensures d.associations[k].profileId != d.nextProfile {
      assert RefsExist(d, d.associations[k]);
    }
  }

  /** A new user's id is mentioned by no association yet. */
  lemma FreshUserUnbound(d: Db)
    requires Valid(d)
    ensures AssociationOfUser(d, d.nextUser).None?
  {
    forall k | k in d.associations ensures d.associations[k].userWebsiteId != Some(d.nextUser) {
      assert RefsExist(d, d.associations[k]);
    }
  }

  /** Adding an association binds its profile and user while every earlier binding stays. */
  lemma InsertAssociationBinds(d: Db, a: Association)
    requires Valid(d)
    ensures var e := InsertAssociation(d, a);
      AssociationOfProfile(e, a.profileId).Some?
      && (a.userWebsiteId.Some? ==> AssociationOfUser(e, a.userWebsiteId.value).Some?)
      && (forall p: nat :: AssociationOfProfile(d, p).Some? ==> AssociationOfProfile(e, p).Some?)
      && (forall u: nat :: AssociationOfUser(d, u).Some? ==> AssociationOfUser(e, u).Some?)
  {
    var e := InsertAssociation(d, a);
    assert e.associations[d.nextAssociation] == a;
    forall p: nat | AssociationOfProfile(d, p).Some? ensures AssociationOfProfile(e, p).Some? {
      var k := AssociationOfProfile(d, p).value;
      assert e.associations[k] == d.associations[k];
    }
    forall u: nat | AssociationOfUser(d, u).Some? ensures AssociationOfUser(e, u).Some? {
      var k := AssociationOfUser(d, u).value;
      assert e.associations[k] == d.associations[k];
    }
  }

  lemma CreateCookieSessionKeeps(d: Db, uuid: Uuid, ip: string, userAgent: string, now: Time)
    requires Valid(d)
    ensures Keeps(d, CreateCookieSession(d, uuid, ip, userAgent, now).db)
  {
    var s := CreateCookieSession(d, uuid, ip, userAgent, now);
    if s.result.Some? {
      var rid := RoleWithName(d, Guest).value;
      var p := Profiles.AfterUpdateHook(SessionRow(GenerateKey32(uuid), ip, userAgent, now), now);
      Profiles.HookKeepsColumns(SessionRow(GenerateKey32(uuid), ip, userAgent, now), now);
      var d1 := InsertProfile(d, p);
      InsertProfileValid(d, p);
      FreshProfileUnbound(d);
      AssociationLookupsFrame(d, d1);
      var a := Association(rid, d.nextProfile, None, None);
      InsertAssociationValid(d1, a);
      InsertAssociationBinds(d1, a);
      assert ProfilesBound(d) ==> ProfilesBound(s.db) by {
        if ProfilesBound(d) {
          forall q | q in s.db.profiles ensures AssociationOfProfile(s.db, q).Some? {
            if q != d.nextProfile {
              assert AssociationOfProfile(d1, q).Some?;
            }
          }
        }
      }
    }
  }

  /**
   * A created session reads back at once: its key finds the new profile, whose first session
   * element is the initial one and whose history holds this visit alone, and exactly one
   * profile and one guest association were added.
   */
  lemma CreateCookieSessionReadBack(d: Db, uuid: Uuid, ip: string, userAgent: string, now: Time)
    requires Valid(d)
    ensures var s := CreateCookieSession(d, uuid, ip, userAgent, now);
      s.result.Some? ==>
        var key := s.result.value;
        ProfileWithKey(s.db, key) == Some(d.nextProfile)
        && GetCookieSession(s.db, key) == Some(NewSessionData())
        && s.db.profiles == d.profiles[d.nextProfile := SessionRow(key, ip, userAgent, now).(
             history := Some([Profiles.HistoryEntry(ip, userAgent, now)]))]
        && s.db.associations
           == d.associations[d.nextAssociation := Association(RoleWithName(d, Guest).value, d.nextProfile, None, None)]
        && |s.db.profiles| == |d.profiles| + 1 && |s.db.associations| == |d.associations| + 1
  {
    var s := CreateCookieSession(d, uuid, ip, userAgent, now);
    if s.result.Some? {
      CreateCookieSessionKeeps(d, uuid, ip, userAgent, now);
      Profiles.HookOnNewRow(s.result.value, [NewSessionData()], ip, userAgent, now);
      ProfileWithKeyExact(s.db, s.result.value, d.nextProfile);
      assert d.nextProfile !in d.profiles && d.nextAssociation !in d.associations;
    }
  }

  lemma UpdateCookieSessionKeeps(d: Db, key: string, ip: string, userAgent: string, now: Time)
    requires Valid(d)
    ensures Keeps(d, UpdateCookieSession(d, key, ip, userAgent, now).db)
  {
    var s := UpdateCookieSession(d, key, ip, userAgent, now);
    if s.result.Some? {
      var pid := ProfileWithKey(d, key).value;
      var p := d.profiles[pid];
      var q := Touched(p.(cookieData := p.cookieData[0 := RefreshedData(p.cookieData[0])]), ip, userAgent, now);
      SetProfileValid(d, pid, q);
      AssociationLookupsFrame(d, s.db);
    }
  }

  /**
   * An updated session reads back as the data the update returned, and the profile records the
   * visit; the rest of the session list is untouched.
   */
  lemma UpdateCookieSessionReadBack(d: Db, key: string, ip: string, userAgent: string, now: Time)
    requires Valid(d)
    ensures var s := UpdateCookieSession(d, key, ip, userAgent, now);
      s.result.Some? ==>
        var pid := ProfileWithKey(d, key).value;
        GetCookieSession(s.db, key) == Some(s.result.value.session)
        && s.db.profiles[pid].cookieData == d.profiles[pid].cookieData[0 := s.result.value.session]
        && s.db.profiles[pid].visitDate == now
        && Profiles.HistoryEntry(ip, userAgent, now) in s.db.profiles[pid].history.value
  {
    var s := UpdateCookieSession(d, key, ip, userAgent, now);
    if s.result.Some? {
      UpdateCookieSessionKeeps(d, key, ip, userAgent, now);
      var pid := ProfileWithKey(d, key).value;
      ProfileWithKeyExact(s.db, key, pid);
    }
  }

  // ---------------------------------------------------------------------------------------------
  // Email confirmation

  lemma ConfirmEmailByKeyKeeps(d: Db, key: string, email: string, ip: string, userAgent: string, now: Time)
    requires Valid(d)
    ensures Keeps(d, ConfirmEmailByKey(d, key, email, ip, userAgent, now).db)
  {
    var s := ConfirmEmailByKey(d, key, email, ip, userAgent, now);
    if s.result == Some(true) {
      var uid := UserWithEmailAndKey(d, email, key).value;
      var u := d.users[uid].(activityDate := now, emailConfirm := true);
      var d1 := SetUser(d, uid, u).value;
      SetUserKeeps(d, uid, u);
      TouchProfileKeeps(d1, BoundProfile(d, uid).value, ip, userAgent, now);
      KeepsChain(d, d1, s.db);
    } else {
      KeepsSame(d);
    }
  }

  /** Confirming twice: the second call finds the user confirmed and answers `False` without writing. */
  lemma ConfirmEmailByKeyOnce(d: Db, key: string, email: string, ip: string, userAgent: string,
                              now: Time, later: Time)
    requires Valid(d)
    ensures var s := ConfirmEmailByKey(d, key, email, ip, userAgent, now);
      s.result == Some(true) ==>
        s.db.users[UserWithEmailAndKey(d, email, key).value].emailConfirm
        && ConfirmEmailByKey(s.db, key, email, ip, userAgent, later) == Step(s.db, Some(false))
  {
    var s := ConfirmEmailByKey(d, key, email, ip, userAgent, now);
    if s.result == Some(true) {
      var uid := UserWithEmailAndKey(d, email, key).value;
      ConfirmedFound(d, key, email, ip, userAgent, now);
      ConfirmedAnswersFalse(s.db, key, email, ip, userAgent, later, uid);
    }
  }

  /** After a confirmation the same email and key still find the user, now confirmed. */
  lemma ConfirmedFound(d: Db, key: string, email: string, ip: string, userAgent: string, now: Time)
    requires Valid(d) && ConfirmEmailByKey(d, key, email, ip, userAgent, now).result == Some(true)
    ensures var s := ConfirmEmailByKey(d, key, email, ip, userAgent, now);
      var uid := UserWithEmailAndKey(d, email, key).value;
      UserWithEmailAndKey(s.db, email, key) == Some(uid) && s.db.users[uid].emailConfirm
  {
    var s := ConfirmEmailByKey(d, key, email, ip, userAgent, now);
    var uid := UserWithEmailAndKey(d, email, key).value;
    var pid := BoundProfile(d, uid).value;
    ConfirmKeepsKey(d, key, email, ip, userAgent, now);
    ConfirmEmailByKeyKeeps(d, key, email, ip, userAgent, now);
    AssociationLookupsFrame(d, s.db);
    assert BoundProfile(s.db, uid) == Some(pid);
    FoundByEmailAndKey(s.db, email, key, uid, pid);
  }

  /** A confirmation leaves the bound profile, and its key, in place. */
  lemma ConfirmKeepsKey(d: Db, key: string, email: string, ip: string, userAgent: string, now: Time)
    requires ConfirmEmailByKey(d, key, email, ip, userAgent, now).result == Some(true)
    ensures var s := ConfirmEmailByKey(d, key, email, ip, userAgent, now);
      var pid := BoundProfile(d, UserWithEmailAndKey(d, email, key).value).value;
      pid in s.db.profiles && s.db.profiles[pid].key == key
  {
    var s := ConfirmEmailByKey(d, key, email, ip, userAgent, now);
    var uid := UserWithEmailAndKey(d, email, key).value;
    var pid := BoundProfile(d, uid).value;
    var d1 := SetUser(d, uid, d.users[uid].(activityDate := now, emailConfirm := true)).value;
  }

  /** Under the invariants the user with that email, bound to the profile with that key, is found. */
  lemma FoundByEmailAndKey(e: Db, email: string, key: string, uid: nat, pid: nat)
    requires Valid(e) && uid in e.users && e.users[uid].email == email
    requires BoundProfile(e, uid) == Some(pid) && pid in e.profiles && e.profiles[pid].key == key
    ensures UserWithEmailAndKey(e, email, key) == Some(uid)
  {
    UserWithEmailExact(e, email, uid);
  }

  /** A confirmed user found by email and key is answered `False`, with no writes. */
  lemma ConfirmedAnswersFalse(d: Db, key: string, email: string, ip: string, userAgent: string, now: Time, uid: nat)
    requires UserWithEmailAndKey(d, email, key) == Some(uid) && d.users[uid].emailConfirm
    ensures ConfirmEmailByKey(d, key, email, ip, userAgent, now) == Step(d, Some(false))
  {
  }

  // ---------------------------------------------------------------------------------------------
  // Registration

  /** Registration without a session keeps the invariants and binds the new user and profile. */
  lemma RegisterFreshKeeps(d: Db, rid: nat, email: string, digest: string, uuid: Uuid,
                           ip: string, userAgent: string, now: Time)
    requires Valid(d) && rid in d.roles
    ensures Keeps(d, RegisterFresh(d, rid, email, digest, uuid, ip, userAgent, now).db)
  {
    var s := RegisterFresh(d, rid, email, digest, uuid, ip, userAgent, now);
    if s.result.Some? {
      var u := Users.NewWebSiteUser(email, digest, now);
      var d1 := InsertUser(d, u);
      InsertUserValid(d, u);
      FreshUserUnbound(d);
      AssociationLookupsFrame(d, d1);
      var p := Profiles.AfterUpdateHook(Profiles.NewProfileRow(GenerateKey32(uuid), [], ip, userAgent, now), now);
      Profiles.HookKeepsColumns(Profiles.NewProfileRow(GenerateKey32(uuid), [], ip, userAgent, now), now);
      var d2 := InsertProfile(d1, p);
      InsertProfileValid(d1, p);
      FreshProfileUnbound(d1);
      AssociationLookupsFrame(d1, d2);
      var a := Association(rid, d1.nextProfile, Some(d.nextUser), None);
      InsertAssociationValid(d2, a);
      InsertAssociationBinds(d2, a);
      assert UsersBound(d) ==> UsersBound(s.db) by {
        if UsersBound(d) {
          forall v | v in s.db.users ensures AssociationOfUser(s.db, v).Some? {
            if v != d.nextUser {
              assert AssociationOfUser(d2, v).Some?;
            }
          }
        }
      }
      assert ProfilesBound(d) ==> ProfilesBound(s.db) by {
        if ProfilesBound(d) {
          forall q | q in s.db.profiles ensures AssociationOfProfile(s.db, q).Some? {
            if q != d1.nextProfile {
              assert AssociationOfProfile(d2, q).Some?;
            }
          }
        }
      }
    }
  }

  /** After a successful adoption the session's association carries the new user and the role. */
  lemma RegisterAdoptingRebinds(d: Db, rid: nat, pid: nat, email: string, digest: string, now: Time)
    requires Valid(d)
    ensures var s := RegisterAdopting(d, rid, pid, email, digest, now);
      s.result.Some? ==>
        var aid := AssociationOfProfile(d, pid).value;
        AssociationOfProfile(d, pid).Some?
        && s.db.users == d.users[d.nextUser := Users.NewWebSiteUser(email, digest, now)]
        && s.db.profiles == d.profiles
        && s.db.associations == d.associations[aid := d.associations[aid].(roleId := rid, userWebsiteId := Some(d.nextUser))]
  {
    var s := RegisterAdopting(d, rid, pid, email, digest, now);
    if s.result.Some? {
      AssociationLookupsFrame(d, InsertUser(d, Users.NewWebSiteUser(email, digest, now)));
    }
  }

  /** Giving an association without a website user one: every earlier binding stays, and the user gains it. */
  lemma RebindKeepsBindings(d: Db, aid: nat, a: Association, uid: nat)
    requires aid in d.associations && a.profileId == d.associations[aid].profileId
    requires d.associations[aid].userWebsiteId.None? && a.userWebsiteId == Some(uid)
    ensures var e := d.(associations := d.associations[aid := a]);
      AssociationOfUser(e, uid).Some?
      && (forall v: nat :: AssociationOfUser(d, v).Some? ==> AssociationOfUser(e, v).Some?)
      && (forall q: nat :: AssociationOfProfile(d, q).Some? ==> AssociationOfProfile(e, q).Some?)
  {
    var e := d.(associations := d.associations[aid := a]);
    assert e.associations[aid].userWebsiteId == Some(uid);
    forall v: nat | AssociationOfUser(d, v).Some? ensures AssociationOfUser(e, v).Some? {
      var k := AssociationOfUser(d, v).value;
      assert k != aid;
      assert e.associations[k] == d.associations[k];
    }
    forall q: nat | AssociationOfProfile(d, q).Some? ensures AssociationOfProfile(e, q).Some? {
      var k := AssociationOfProfile(d, q).value;
      assert e.associations[k].profileId == q;
    }
  }

  /**
   * Adopting an unclaimed session keeps the invariants and the bindings: the association had no
   * user, so nobody loses one, and the new user gains it.
   */
  lemma RegisterAdoptingKeeps(d: Db, rid: nat, pid: nat, email: string, digest: string, now: Time)
    requires Valid(d) && rid in d.roles && Unclaimed(d, pid)
    ensures Keeps(d, RegisterAdopting(d, rid, pid, email, digest, now).db)
  {
    var s := RegisterAdopting(d, rid, pid, email, digest, now);
    if s.result.Some? {
      RegisterAdoptingRebinds(d, rid, pid, email, digest, now);
      var u := Users.NewWebSiteUser(email, digest, now);
      var d1 := InsertUser(d, u);
      InsertUserValid(d, u);
      FreshUserUnbound(d);
      AssociationLookupsFrame(d, d1);
      var aid := AssociationOfProfile(d, pid).value;
      var prior := d.associations[aid];
      assert RefsExist(d, prior);
      assert prior.userWebsiteId.None?;
      var a := prior.(roleId := rid, userWebsiteId := Some(d.nextUser));
      assert RefsExist(d1, a);
      SetAssociationValid(d1, aid, a);
      RebindKeepsBindings(d1, aid, a, d.nextUser);
      var e := d1.(associations := d1.associations[aid := a]);
      assert UsersBound(d) ==> UsersBound(e) by {
        if UsersBound(d) {
          forall v | v in e.users ensures AssociationOfUser(e, v).Some? {
            if v != d.nextUser {
              assert AssociationOfUser(d1, v).Some?;
            }
          }
        }
      }
    }
  }

  /** `user_registration`, with adoption limited to unclaimed sessions, keeps the invariants and the bindings. */
  lemma UserRegistrationKeeps(d: Db, email: string, digest: string, cookie: Option<string>,
                              uuid: Uuid, ip: string, userAgent: string, now: Time)
    requires Valid(d)
    ensures Keeps(d, UserRegistration(d, email, digest, cookie, uuid, ip, userAgent, now).db)
  {
    match RoleWithName(d, User)
    case None =>
    case Some(rid) =>
      match LiveSession(d, cookie)
      case Some(pid) =>
        if Unclaimed(d, pid) {
          RegisterAdoptingKeeps(d, rid, pid, email, digest, now);
        } else {
          RegisterFreshKeeps(d, rid, email, digest, uuid, ip, userAgent, now);
        }
      case None =>
        RegisterFreshKeeps(d, rid, email, digest, uuid, ip, userAgent, now);
  }

  /** The user a registration inserts is found by its email and bound to the association `aid`. */
  lemma RegisteredUserFound(e: Db, email: string, uid: nat, aid: nat, digest: string, rid: nat)
    requires Valid(e) && uid in e.users && e.users[uid].email == email && e.users[uid].password == digest
    requires aid in e.associations && e.associations[aid].userWebsiteId == Some(uid) && e.associations[aid].roleId == rid
    ensures UserWithEmail(e, email) == Some(uid)
    ensures GetUser(e, email) == Found(UserLoginRegistered(email, rid, digest))
  {
    UserWithEmailExact(e, email, uid);
    assert AssociationOfUser(e, uid) == Some(aid);
  }

  /**
   * A registered user can log in at once: the email finds the new row, and `get_user` reports the
   * user role and the stored digest.
   */
  lemma UserRegistrationThenGetUser(d: Db, email: string, digest: string, cookie: Option<string>,
                                    uuid: Uuid, ip: string, userAgent: string, now: Time)
    requires Valid(d)
    ensures var s := UserRegistration(d, email, digest, cookie, uuid, ip, userAgent, now);
      s.result.Some? ==>
        s.db.users == d.users[d.nextUser := Users.NewWebSiteUser(email, digest, now)]
        && GetUser(s.db, email) == Found(UserLoginRegistered(email, RoleWithName(d, User).value, digest))
  {
    var s := UserRegistration(d, email, digest, cookie, uuid, ip, userAgent, now);
    if s.result.Some? {
      var rid := RoleWithName(d, User).value;
      var pid := LiveSession(d, cookie);
      if pid.Some? && Unclaimed(d, pid.value) {
        assert s == RegisterAdopting(d, rid, pid.value, email, digest, now);
        AdoptingThenGetUser(d, rid, pid.value, email, digest, now);
      } else {
        assert s == RegisterFresh(d, rid, email, digest, uuid, ip, userAgent, now);
        FreshThenGetUser(d, rid, email, digest, uuid, ip, userAgent, now);
      }
    }
  }

  /** Registration through an unclaimed session: the new user is found with role `rid`. */
  lemma AdoptingThenGetUser(d: Db, rid: nat, pid: nat, email: string, digest: string, now: Time)
    requires Valid(d) && rid in d.roles && Unclaimed(d, pid)
    ensures var s := RegisterAdopting(d, rid, pid, email, digest, now);
      s.result.Some? ==>
        s.db.users == d.users[d.nextUser := Users.NewWebSiteUser(email, digest, now)]
        && GetUser(s.db, email) == Found(UserLoginRegistered(email, rid, digest))
  {
    var s := RegisterAdopting(d, rid, pid, email, digest, now);
    if s.result.Some? {
      RegisterAdoptingKeeps(d, rid, pid, email, digest, now);
      RegisterAdoptingRebinds(d, rid, pid, email, digest, now);
      RegisteredUserFound(s.db, email, d.nextUser, AssociationOfProfile(d, pid).value, digest, rid);
    }
  }

  /** Registration with a new session: the new user is found with role `rid`. */
  lemma FreshThenGetUser(d: Db, rid: nat, email: string, digest: string, uuid: Uuid,
                         ip: string, userAgent: string, now: Time)
    requires Valid(d) && rid in d.roles
    ensures var s := RegisterFresh(d, rid, email, digest, uuid, ip, userAgent, now);
      s.result.Some? ==>
        s.db.users == d.users[d.nextUser := Users.NewWebSiteUser(email, digest, now)]
        && GetUser(s.db, email) == Found(UserLoginRegistered(email, rid, digest))
  {
    var s := RegisterFresh(d, rid, email, digest, uuid, ip, userAgent, now);
    if s.result.Some? {
      RegisterFreshKeeps(d, rid, email, digest, uuid, ip, userAgent, now);
      var d1 := InsertUser(d, Users.NewWebSiteUser(email, digest, now));
      RegisteredUserFound(s.db, email, d.nextUser, d1.nextAssociation, digest, rid);
    }
  }

  /**
   * Registration as written adopts a live session even when another user owns it: that owner's
   * association is rebound to the new user, so the owner is left without one.
   */
  lemma UserRegistrationAsWrittenUnbindsOwner(d: Db, email: string, digest: string, cookie: Option<string>,
                                              uuid: Uuid, ip: string, userAgent: string, now: Time, owner: nat)
    requires Valid(d)
    requires LiveSession(d, cookie).Some?
    requires AssociationOfUser(d, owner).Some?
    requires d.associations[AssociationOfUser(d, owner).value].profileId == LiveSession(d, cookie).value
    ensures var s := UserRegistrationAsWritten(d, email, digest, cookie, uuid, ip, userAgent, now);
      s.result.Some? ==> owner in s.db.users && AssociationOfUser(s.db, owner).None? && !UsersBound(s.db)
  {
    var s := UserRegistrationAsWritten(d, email, digest, cookie, uuid, ip, userAgent, now);
    if s.result.Some? {
      var rid := RoleWithName(d, User).value;
      var pid := LiveSession(d, cookie).value;
      AdoptingUnbindsOwner(d, rid, pid, email, digest, now, owner);
    }
  }

  /** Adopting a session whose association belongs to `owner` leaves `owner` without one. */
  lemma AdoptingUnbindsOwner(d: Db, rid: nat, pid: nat, email: string, digest: string, now: Time, owner: nat)
    requires Valid(d) && AssociationOfUser(d, owner).Some?
    requires d.associations[AssociationOfUser(d, owner).value].profileId == pid
    ensures var s := RegisterAdopting(d, rid, pid, email, digest, now);
      s.result.Some? ==> owner in s.db.users && AssociationOfUser(s.db, owner).None? && !UsersBound(s.db)
  {
    var s := RegisterAdopting(d, rid, pid, email, digest, now);
    if s.result.Some? {
      var own := AssociationOfUser(d, owner).value;
      assert RefsExist(d, d.associations[own]);
      RegisterAdoptingRebinds(d, rid, pid, email, digest, now);
      OwnerAssociationOnly(d, owner, pid);
    }
  }

  /** The association bound to `owner`, holding `pid`, is the one of `pid` and the only one of `owner`. */
  lemma OwnerAssociationOnly(d: Db, owner: nat, pid: nat)
    requires Valid(d) && AssociationOfUser(d, owner).Some?
    requires d.associations[AssociationOfUser(d, owner).value].profileId == pid
    ensures AssociationOfProfile(d, pid) == AssociationOfUser(d, owner)
    ensures forall k :: k in d.associations && k != AssociationOfUser(d, owner).value ==>
              d.associations[k].userWebsiteId != Some(owner)
  {
  }

  // ---------------------------------------------------------------------------------------------
  // Passwords and lookups

  lemma ChangePasswordKeeps(d: Db, email: string, digest: string)
    requires Valid(d)
    ensures Keeps(d, ChangePassword(d, email, digest).db)
  {
    match UserWithEmail(d, email)
    case None =>
    case Some(uid) => SetUserKeeps(d, uid, d.users[uid].(password := digest));
  }

  /**
   * Changing a password fails only for a digest wider than its column; otherwise the user's row
   * holds the new digest, nothing else changes, and `get_user` reports it.
   */
  lemma ChangePasswordEffect(d: Db, email: string, digest: string)
    requires Valid(d)
    ensures var s := ChangePassword(d, email, digest);
      (s.result.None? <==> UserWithEmail(d, email).Some? && |digest| > Users.PASSWORD_LEN)
      && (s.result.Some? && UserWithEmail(d, email).Some? ==>
            var uid := UserWithEmail(d, email).value;
            s.db.users == d.users[uid := d.users[uid].(password := digest)]
            && (GetUser(d, email).Found? ==>
                  GetUser(s.db, email) == Found(GetUser(d, email).user.(password := digest))))
  {
    var s := ChangePassword(d, email, digest);
    if UserWithEmail(d, email).Some? {
      var uid := UserWithEmail(d, email).value;
      assert Users.ColumnsFit(d.users[uid]);
      if s.result.Some? {
        ChangePasswordKeeps(d, email, digest);
        UserWithEmailExact(s.db, email, uid);
        AssociationLookupsFrame(d, s.db);
      }
    }
  }

  /** With every user bound, `get_user` never meets a user without association. */
  lemma GetUserNeverRaises(d: Db, email: string)
    requires UsersBound(d)
    ensures !GetUser(d, email).LookupRaised?
  {
  }

  // ---------------------------------------------------------------------------------------------
  // Login

  /**
   * The session merge keeps the invariants and the bindings: the profile it deletes has an
   * association without a website user, and that association is its only one.
   */
  lemma MergeSessionKeeps(d: Db, ownPid: nat, cookie: Option<string>)
    requires Valid(d)
    ensures var r := MergeSession(d, ownPid, cookie); r.Some? ==> Keeps(d, r.value)
  {
    var r := MergeSession(d, ownPid, cookie);
    if r.Some? && r.value != d {
      var tpid := LiveSession(d, cookie).value;
      var taid := AssociationOfProfile(d, tpid).value;
      assert Falsy(d.associations[taid].userWebsiteId);
      assert RefsExist(d, d.associations[taid]);
      assert d.associations[taid].userWebsiteId.None?;
      var e := DeleteProfile(d, tpid);
      assert r.value == e;
      DeleteProfileValid(d, tpid);
      assert UsersBound(d) ==> UsersBound(e) by {
        if UsersBound(d) {
          forall v | v in e.users ensures AssociationOfUser(e, v).Some? {
            var k := AssociationOfUser(d, v).value;
            assert k != taid;
            assert d.associations[k].profileId != tpid;
            assert k in e.associations;
          }
        }
      }
      assert ProfilesBound(d) ==> ProfilesBound(e) by {
        if ProfilesBound(d) {
          forall q | q in e.profiles ensures AssociationOfProfile(e, q).Some? {
            var k := AssociationOfProfile(d, q).value;
            assert k in e.associations;
          }
        }
      }
    }
  }

  lemma UserLoginKeeps(d: Db, email: string, ip: string, userAgent: string, cookie: Option<string>, now: Time)
    requires Valid(d)
    ensures Keeps(d, UserLogin(d, email, ip, userAgent, cookie, now).db)
  {
    var s := UserLogin(d, email, ip, userAgent, cookie, now);
    if s.result.Some? {
      LoginSteps(d, email, ip, userAgent, cookie, now);
      var uid := UserWithEmail(d, email).value;
      var pid := d.associations[AssociationOfUser(d, uid).value].profileId;
      var d1 := MergeSession(d, pid, cookie).value;
      var u := d1.users[uid].(activityDate := now);
      var d2 := SetUser(d1, uid, u).value;
      MergeSessionKeeps(d, pid, cookie);
      SetUserKeeps(d1, uid, u);
      TouchProfileKeeps(d2, pid, ip, userAgent, now);
      KeepsChain(d, d1, d2);
      KeepsChain(d, d2, s.db);
    } else {
      KeepsSame(d);
    }
  }

  /** The writes of a login without a session, when the rows it touches fit. */
  lemma LoginWithoutSession(d: Db, email: string, uid: nat, aid: nat, ip: string, userAgent: string, now: Time)
    requires UserWithEmail(d, email) == Some(uid) && AssociationOfUser(d, uid) == Some(aid)
    requires Users.ColumnsFit(d.users[uid])
    requires d.associations[aid].profileId in d.profiles
    requires Profiles.ColumnsFit(d.profiles[d.associations[aid].profileId])
    requires |ip| <= Profiles.IP_LEN && |userAgent| <= Profiles.USER_AGENT_LEN
    ensures var pid := d.associations[aid].profileId;
      UserLogin(d, email, ip, userAgent, None, now)
      == Step(d.(users := d.users[uid := d.users[uid].(activityDate := now)],
                 profiles := d.profiles[pid := Touched(d.profiles[pid], ip, userAgent, now)]),
              Some(UserLoginRegistered(email, d.associations[aid].roleId, d.users[uid].password)))
  {
    var pid := d.associations[aid].profileId;
    var d2 := d.(users := d.users[uid := d.users[uid].(activityDate := now)]);
    TouchFits(d2, pid, ip, userAgent, now);
  }

  /**
   * A bound user with fitting client data can always log in without a session: the activity date
   * and the bound profile are touched and nothing else changes.
   */
  lemma UserLoginSucceeds(d: Db, email: string, ip: string, userAgent: string, now: Time)
    requires Valid(d) && UsersBound(d) && UserWithEmail(d, email).Some?
    requires |ip| <= Profiles.IP_LEN && |userAgent| <= Profiles.USER_AGENT_LEN
    ensures var s := UserLogin(d, email, ip, userAgent, None, now);
      var uid := UserWithEmail(d, email).value;
      var pid := BoundProfile(d, uid).value;
      s.result.Some?
      && s.db.users == d.users[uid := d.users[uid].(activityDate := now)]
      && s.db.profiles == d.profiles[pid := Touched(d.profiles[pid], ip, userAgent, now)]
      && s.db.associations == d.associations
  {
    var uid := UserWithEmail(d, email).value;
    var aid := AssociationOfUser(d, uid).value;
    assert RefsExist(d, d.associations[aid]);
    assert Users.ColumnsFit(d.users[uid]);
    assert Profiles.ColumnsFit(d.profiles[d.associations[aid].profileId]);
    LoginWithoutSession(d, email, uid, aid, ip, userAgent, now);
  }

  /**
   * Logging in from another live session merges it: its profile, with its association, is deleted
   * exactly when that association has no website user, and survives when someone owns it.
   */
  lemma UserLoginMergesStraySession(d: Db, email: string, ip: string, userAgent: string,
                                    cookie: Option<string>, now: Time)
    requires Valid(d) && UserWithEmail(d, email).Some?
    requires BoundProfile(d, UserWithEmail(d, email).value).Some?
    requires LiveSession(d, cookie).Some?
    ensures var s := UserLogin(d, email, ip, userAgent, cookie, now);
      var tpid := LiveSession(d, cookie).value;
      var pid := BoundProfile(d, UserWithEmail(d, email).value).value;
      s.result.Some? && pid != tpid ==>
        AssociationOfProfile(d, tpid).Some?
        && (tpid !in s.db.profiles <==> d.associations[AssociationOfProfile(d, tpid).value].userWebsiteId.None?)
        && (tpid !in s.db.profiles ==> AssociationOfProfile(s.db, tpid).None?)
  {
    var s := UserLogin(d, email, ip, userAgent, cookie, now);
    var tpid := LiveSession(d, cookie).value;
    var uid := UserWithEmail(d, email).value;
    var pid := BoundProfile(d, uid).value;
    if s.result.Some? && pid != tpid {
      LoginMergeFrame(d, email, ip, userAgent, cookie, now);
      StrayAfterMerge(d, pid, cookie, s.db);
    }
  }

  /** After the merge, a login only rewrites a user row and an existing profile row. */
  lemma LoginMergeFrame(d: Db, email: string, ip: string, userAgent: string, cookie: Option<string>, now: Time)
    requires UserLogin(d, email, ip, userAgent, cookie, now).result.Some?
    ensures var s := UserLogin(d, email, ip, userAgent, cookie, now);
      var pid := BoundProfile(d, UserWithEmail(d, email).value).value;
      pid in d.profiles && MergeSession(d, pid, cookie).Some?
      && s.db.profiles.Keys == MergeSession(d, pid, cookie).value.profiles.Keys
      && s.db.associations == MergeSession(d, pid, cookie).value.associations
  {
    LoginSteps(d, email, ip, userAgent, cookie, now);
    var uid := UserWithEmail(d, email).value;
    var pid := BoundProfile(d, uid).value;
    var d1 := MergeSession(d, pid, cookie).value;
    var d2 := SetUser(d1, uid, d1.users[uid].(activityDate := now)).value;
  }

  /** What `MergeStray` says of the merged state holds of any later state with its profiles and associations. */
  lemma StrayAfterMerge(d: Db, pid: nat, cookie: Option<string>, e: Db)
    requires Valid(d) && pid in d.profiles
    requires LiveSession(d, cookie).Some? && pid != LiveSession(d, cookie).value
    requires MergeSession(d, pid, cookie).Some?
    requires e.profiles.Keys == MergeSession(d, pid, cookie).value.profiles.Keys
    requires e.associations == MergeSession(d, pid, cookie).value.associations
    ensures var tpid := LiveSession(d, cookie).value;
      AssociationOfProfile(d, tpid).Some?
      && (tpid !in e.profiles <==> d.associations[AssociationOfProfile(d, tpid).value].userWebsiteId.None?)
      && (tpid !in e.profiles ==> AssociationOfProfile(e, tpid).None?)
  {
    AssociationLookupsFrame(MergeSession(d, pid, cookie).value, e);
    MergeStray(d, pid, cookie);
  }

  /** A successful login: the merge, then the user row, then the profile row. */
  lemma LoginSteps(d: Db, email: string, ip: string, userAgent: string, cookie: Option<string>, now: Time)
    requires UserLogin(d, email, ip, userAgent, cookie, now).result.Some?
    ensures var s := UserLogin(d, email, ip, userAgent, cookie, now);
      var uid := UserWithEmail(d, email).value;
      AssociationOfUser(d, uid).Some?
      && var pid := d.associations[AssociationOfUser(d, uid).value].profileId;
      MergeSession(d, pid, cookie).Some?
      && var d1 := MergeSession(d, pid, cookie).value;
      d1.users == d.users
      && SetUser(d1, uid, d1.users[uid].(activityDate := now)).Some?
      && s.db == TouchProfile(SetUser(d1, uid, d1.users[uid].(activityDate := now)).value, pid, ip, userAgent, now).value
  {
  }

  /** Merging another live session deletes its profile exactly when its association has no owner. */
  lemma MergeStray(d: Db, pid: nat, cookie: Option<string>)
    requires Valid(d) && pid in d.profiles
    requires LiveSession(d, cookie).Some? && pid != LiveSession(d, cookie).value
    requires MergeSession(d, pid, cookie).Some?
    ensures var tpid := LiveSession(d, cookie).value; var d1 := MergeSession(d, pid, cookie).value;
      AssociationOfProfile(d, tpid).Some?
      && (tpid !in d1.profiles <==> d.associations[AssociationOfProfile(d, tpid).value].userWebsiteId.None?)
      && (tpid !in d1.profiles ==> AssociationOfProfile(d1, tpid).None?)
  {
    var tpid := LiveSession(d, cookie).value;
    ProfileWithKeyExact(d, cookie.value, pid);
    ProfileWithKeyExact(d, cookie.value, tpid);
    assert d.profiles[pid].key != cookie.value;
    var taid := AssociationOfProfile(d, tpid).value;
    assert RefsExist(d, d.associations[taid]);
  }

  lemma UserGetDataKeeps(d: Db, email: string, ip: string, userAgent: string, now: Time)
    requires Valid(d)
    ensures Keeps(d, UserGetData(d, email, ip, userAgent, now).db)
  {
    var s := UserGetData(d, email, ip, userAgent, now);
    if s.db == d {
      KeepsSame(d);
    } else {
      var uid := UserWithEmail(d, email).value;
      var a := d.associations[AssociationOfUser(d, uid).value];
      var u := d.users[uid].(activityDate := now);
      var d1 := SetUser(d, uid, u).value;
      assert s.db == TouchProfile(d1, a.profileId, ip, userAgent, now).value;
      SetUserKeeps(d, uid, u);
      TouchProfileKeeps(d1, a.profileId, ip, userAgent, now);
      KeepsChain(d, d1, s.db);
    }
  }

  // ---------------------------------------------------------------------------------------------
  // Tokens and the current user

  /** The claims an issued token carries: its payload, with expiry and issue time. */
  lemma IssuedClaims(user: UserRegistered, exp: Time, issued: Time)
    ensures var c := Claims(TokenPayload(user), exp, issued);
      Get(c, "sub") == Some(Str(user.email)) && Get(c, "rol") == Some(Int(user.roleId))
  {
    var c := Claims(TokenPayload(user), exp, issued);
    assert "sub" in TokenPayload(user) && "rol" in TokenPayload(user);
  }

  /**
   * While an access token issued by `generate_tokens` lives, the current user is the login of its
   * `sub`, and the current user data that of its `sub` too.
   */
  lemma AccessTokenAccepted(d: Db, m: SiteAuthManager, jws: Jws, user: UserRegistered, issued: Time,
                            now: Time, ip: string, userAgent: string)
    requires SignatureRoundTrip(jws)
    requires issued <= now < issued + 60 * m.accessTokenExpireMinutes
    ensures var token := GenerateTokens(m, jws, user, issued).accessToken;
      GetCurrentUser(d, jws, token, ip, userAgent, now) == LoginAs(d, Str(user.email), ip, userAgent, now)
      && GetCurrentUserData(d, jws, token, ip, userAgent, now) == FetchDataAs(d, Str(user.email), ip, userAgent, now)
  {
    DecodeBeforeExpiry(jws, IssuerHeader(ACCESS_ISSUER), TokenPayload(user), m.accessTokenExpireMinutes, None, issued, now);
    IssuedClaims(user, issued + 60 * m.accessTokenExpireMinutes, issued);
  }

  /**
   * The refresh token is accepted wherever the access token is, for its whole longer life: the
   * dependencies look at the claims only, and both tokens carry the same ones.
   */
  lemma RefreshTokenAccepted(d: Db, m: SiteAuthManager, jws: Jws, user: UserRegistered, issued: Time,
                             now: Time, ip: string, userAgent: string)
    requires SignatureRoundTrip(jws)
    requires issued <= now < issued + 60 * m.refreshTokenExpireMinutes
    ensures GetCurrentUser(d, jws, GenerateTokens(m, jws, user, issued).refreshToken, ip, userAgent, now)
            == LoginAs(d, Str(user.email), ip, userAgent, now)
  {
    DecodeBeforeExpiry(jws, IssuerHeader(REFRESH_ISSUER), TokenPayload(user), m.refreshTokenExpireMinutes, None, issued, now);
    IssuedClaims(user, issued + 60 * m.refreshTokenExpireMinutes, issued);
  }

  /** From its expiry on, an issued access token is reported as expired, with no writes. */
  lemma ExpiredAccessTokenRejected(d: Db, m: SiteAuthManager, jws: Jws, user: UserRegistered, issued: Time,
                                   now: Time, ip: string, userAgent: string)
    requires SignatureRoundTrip(jws)
    requires issued <= now && issued + 60 * m.accessTokenExpireMinutes <= now
    ensures var token := GenerateTokens(m, jws, user, issued).accessToken;
      GetCurrentUser(d, jws, token, ip, userAgent, now) == Step(d, Denied(EXPIRED_EXCEPTION))
      && GetCurrentAdmin(d, jws, token, ip, userAgent, now) == Step(d, Denied(EXPIRED_EXCEPTION))
      && GetCurrentUserData(d, jws, token, ip, userAgent, now) == Step(d, Denied(EXPIRED_EXCEPTION))
  {
    DecodeAfterExpiry(jws, IssuerHeader(ACCESS_ISSUER), TokenPayload(user), m.accessTokenExpireMinutes, None, issued, now);
  }

  /**
   * A token whose header names another algorithm than the configured one (`HS256`, `none`) or none
   * at all is refused before its signature is looked at, and the error escapes `decode_token`:
   * all three dependencies end the request in a server error, with no writes.
   */
  lemma RefusedAlgorithmCrashes(d: Db, jws: Jws, token: Token, ip: string, userAgent: string, now: Time)
    requires jws.open(token).AlgorithmRefused?
    ensures GetCurrentUser(d, jws, token, ip, userAgent, now) == Step(d, DecodeCrashed)
      && GetCurrentAdmin(d, jws, token, ip, userAgent, now) == Step(d, DecodeCrashed)
      && GetCurrentUserData(d, jws, token, ip, userAgent, now) == Step(d, DecodeCrashed)
  {
  }

  /** A live access token passes the admin dependency exactly when its role id is 1. */
  lemma AdminTokenAccepted(d: Db, m: SiteAuthManager, jws: Jws, user: UserRegistered, issued: Time,
                           now: Time, ip: string, userAgent: string)
    requires SignatureRoundTrip(jws)
    requires issued <= now < issued + 60 * m.accessTokenExpireMinutes
    ensures var r := GetCurrentAdmin(d, jws, GenerateTokens(m, jws, user, issued).accessToken, ip, userAgent, now);
      (user.roleId == 1 ==> r == LoginAs(d, Str(user.email), ip, userAgent, now))
      && (user.roleId != 1 ==> r == Step(d, Denied(ROLE_EXCEPTION)))
  {
    DecodeBeforeExpiry(jws, IssuerHeader(ACCESS_ISSUER), TokenPayload(user), m.accessTokenExpireMinutes, None, issued, now);
    IssuedClaims(user, issued + 60 * m.accessTokenExpireMinutes, issued);
  }

  // ---------------------------------------------------------------------------------------------
  // The request dependencies

  /** A state `get_current_user` commits keeps the invariants and the bindings. */
  lemma CurrentUserKeeps(d: Db, jws: Jws, token: Token, ip: string, userAgent: string, now: Time)
    requires Valid(d)
    ensures Keeps(d, GetCurrentUser(d, jws, token, ip, userAgent, now).db)
  {
    var current := GetCurrentUser(d, jws, token, ip, userAgent, now);
    if current.result.Authorized? {
      var decoded := DecodeToken(jws, token, now);
      var sub := Get(decoded.AsDict().value, "sub").value;
      UserLoginKeeps(d, sub.s, ip, userAgent, None, now);
    } else {
      KeepsSame(d);
    }
  }

  lemma CurrentUserDataKeeps(d: Db, jws: Jws, token: Token, ip: string, userAgent: string, now: Time)
    requires Valid(d)
    ensures Keeps(d, GetCurrentUserData(d, jws, token, ip, userAgent, now).db)
  {
    var decoded := DecodeToken(jws, token, now);
    var payload := decoded.AsDict();
    if !decoded.Raises? && payload.Some? && !IsNone(Get(payload.value, "sub")) && Get(payload.value, "sub").value.Str? {
      UserGetDataKeeps(d, Get(payload.value, "sub").value.s, ip, userAgent, now);
    } else {
      KeepsSame(d);
    }
  }

  lemma CurrentAdminKeeps(d: Db, jws: Jws, token: Token, ip: string, userAgent: string, now: Time)
    requires Valid(d)
    ensures Keeps(d, GetCurrentAdmin(d, jws, token, ip, userAgent, now).db)
  {
    var current := GetCurrentAdmin(d, jws, token, ip, userAgent, now);
    if current.result.Authorized? {
      var sub := Get(DecodeToken(jws, token, now).AsDict().value, "sub").value;
      UserLoginKeeps(d, sub.s, ip, userAgent, None, now);
    } else {
      KeepsSame(d);
    }
  }
}
