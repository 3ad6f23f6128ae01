/**
 * The relational store the service works on: the tables of profiles, website users, web-app
 * users, associations, roles and role groups, as maps from serial ids to rows, with the
 * constraints the database enforces and the invariants the service keeps.
 */
module Tables {
  import opened Wrappers
  import Users
  import Profiles
  import opened Associations
  import opened Roles

  /** The whole database; each `next*` counter is the id its table's serial column hands out next. */
  datatype Db = Db(
    users: map<nat, Users.WebSiteUser>,
    webappUsers: set<nat>,
    profiles: map<nat, Profiles.ProfileRow>,
    associations: map<nat, Association>,
    roles: map<nat, Role>,
    groups: map<nat, RoleGroup>,
    nextUser: nat, nextProfile: nat, nextAssociation: nat, nextRole: nat, nextGroup: nat)

  /** The state an operation commits and what it returns. */
  datatype Step<R> = Step(db: Db, result: R)

  /** A database with no rows; serial columns start at 1. */
  function EmptyDb(): (d: Db)
    ensures d.users == map[] && d.profiles == map[] && d.associations == map[]
    ensures d.roles == map[] && d.groups == map[] && d.webappUsers == {}
  {
    Db(map[], {}, map[], map[], map[], map[], 1, 1, 1, 1, 1)
  }

  // ---------------------------------------------------------------------------------------------
  // Constraints and invariants

  /** Every id was handed out by its serial column, which starts at 1. */
  ghost predicate IdsInRange(d: Db)
  {
    1 <= d.nextUser && 1 <= d.nextProfile && 1 <= d.nextAssociation && 1 <= d.nextRole && 1 <= d.nextGroup
    && (forall k :: k in d.users ==> 1 <= k < d.nextUser)
    && (forall k :: k in d.webappUsers ==> 1 <= k)
    && (forall k :: k in d.profiles ==> 1 <= k < d.nextProfile)
    && (forall k :: k in d.associations ==> 1 <= k < d.nextAssociation)
    && (forall k :: k in d.roles ==> 1 <= k < d.nextRole)
    && (forall k :: k in d.groups ==> 1 <= k < d.nextGroup)
  }

  /** An association's foreign keys point at existing rows: role and profile always, users when set. */
  predicate RefsExist(d: Db, a: Association)
  {
    a.roleId in d.roles && a.profileId in d.profiles
    && (a.userWebsiteId.Some? ==> a.userWebsiteId.value in d.users)
    && (a.userWebappId.Some? ==> a.userWebappId.value in d.webappUsers)
  }

  ghost predicate ForeignKeys(d: Db)
  {
    (forall a :: a in d.associations ==> RefsExist(d, d.associations[a]))
    && (forall r :: r in d.roles && d.roles[r].group.Some? ==> d.roles[r].group.value in d.groups)
  }

  /** The `unique=True` columns: user email, profile key, role name, group name. */
  ghost predicate UniqueColumns(d: Db)
  {
    (forall u, v :: u in d.users && v in d.users && d.users[u].email == d.users[v].email ==> u == v)
    && (forall p, q :: p in d.profiles && q in d.profiles && d.profiles[p].key == d.profiles[q].key ==> p == q)
    && (forall r, s :: r in d.roles && s in d.roles && d.roles[r].name == d.roles[s].name ==> r == s)
    && (forall g, h :: g in d.groups && h in d.groups && d.groups[g].name == d.groups[h].name ==> g == h)
  }

  /** Every stored row satisfies its column widths. */
  ghost predicate RowsFit(d: Db)
  {
    (forall u :: u in d.users ==> Users.ColumnsFit(d.users[u]))
    && (forall p :: p in d.profiles ==> Profiles.ColumnsFit(d.profiles[p]))
    && (forall r :: r in d.roles ==> RoleFits(d.roles[r]))
    && (forall g :: g in d.groups ==> GroupFits(d.groups[g]))
  }

  /** The scalar relationships: one association per profile and per website user. */
  ghost predicate ScalarAssociations(d: Db)
  {
    OneAssociationPerProfile(d.associations) && OneAssociationPerUser(d.associations)
  }

  /** What the database and the service together keep true of every committed state. */
  ghost predicate Valid(d: Db)
  {
    IdsInRange(d) && ForeignKeys(d) && UniqueColumns(d) && RowsFit(d) && ScalarAssociations(d)
  }

  lemma EmptyDbValid()
    ensures Valid(EmptyDb())
  {
  }

  /** Under the invariants every partial unique index holds in its intended form. */
  lemma ValidGivesUniqueIndexes(d: Db, ix: PartialIndex)
    requires Valid(d)
    ensures UniqueIndex(d.associations, ix) && SqlUniqueIndex(d.associations, ix)
  {
    OneAssociationPerProfileGivesUniqueIndexes(d.associations);
    UniqueIndexRefinesSql(d.associations, ix);
  }

  // ---------------------------------------------------------------------------------------------
  // Lookups (`WHERE column == value`, giving the least id; under Valid the match is unique)

  function Least(s: set<nat>): (m: nat)
    requires s != {}
    ensures m in s && forall k :: k in s ==> m <= k
  {
    LeastExists(s);
    var m :| m in s && forall k :: k in s ==> m <= k; m
  }

  lemma LeastExists(s: set<nat>)
    requires s != {}
    ensures exists m :: m in s && forall k :: k in s ==> m <= k
  {
    var x :| x in s;
    LeastFrom(s, x);
  }

  /** Descending from any member reaches a least one. */
  lemma {:induction false} LeastFrom(s: set<nat>, x: nat)
    requires x in s
    ensures exists m :: m in s && forall k :: k in s ==> m <= k
    decreases x
  {
    if !forall k :: k in s ==> x <= k {
      var y :| y in s && y < x;
      LeastFrom(s, y);
    }
  }

  function UserWithEmail(d: Db, email: string): (r: Option<nat>)
    ensures r.Some? ==> r.value in d.users && d.users[r.value].email == email
    ensures r.None? <==> forall u :: u in d.users ==> d.users[u].email != email
  {
    var ids := set u | u in d.users && d.users[u].email == email;
    assert forall u :: u in d.users && d.users[u].email == email ==> u in ids;
    if ids == {} then None else Some(Least(ids))
  }

  function ProfileWithKey(d: Db, key: string): (r: Option<nat>)
    ensures r.Some? ==> r.value in d.profiles && d.profiles[r.value].key == key
    ensures r.None? <==> forall p :: p in d.profiles ==> d.profiles[p].key != key
  {
    var ids := set p | p in d.profiles && d.profiles[p].key == key;
    assert forall p :: p in d.profiles && d.profiles[p].key == key ==> p in ids;
    if ids == {} then None else Some(Least(ids))
  }

  function AssociationOfProfile(d: Db, pid: nat): (r: Option<nat>)
    ensures r.Some? ==> r.value in d.associations && d.associations[r.value].profileId == pid
    ensures r.None? <==> forall a :: a in d.associations ==> d.associations[a].profileId != pid
  {
    var ids := set a | a in d.associations && d.associations[a].profileId == pid;
    assert forall a :: a in d.associations && d.associations[a].profileId == pid ==> a in ids;
    if ids == {} then None else Some(Least(ids))
  }

  function AssociationOfUser(d: Db, uid: nat): (r: Option<nat>)
    ensures r.Some? ==> r.value in d.associations && d.associations[r.value].userWebsiteId == Some(uid)
    ensures r.None? <==> forall a :: a in d.associations ==> d.associations[a].userWebsiteId != Some(uid)
  {
    var ids := set a | a in d.associations && d.associations[a].userWebsiteId == Some(uid);
    assert forall a :: a in d.associations && d.associations[a].userWebsiteId == Some(uid) ==> a in ids;
    if ids == {} then None else Some(Least(ids))
  }

  function RoleWithName(d: Db, name: RoleName): (r: Option<nat>)
    ensures r.Some? ==> r.value in d.roles && d.roles[r.value].name == name
    ensures r.None? <==> forall k :: k in d.roles ==> d.roles[k].name != name
  {
    var ids := set k | k in d.roles && d.roles[k].name == name;
    assert forall k :: k in d.roles && d.roles[k].name == name ==> k in ids;
    if ids == {} then None else Some(Least(ids))
  }

  function GroupWithName(d: Db, name: RoleGroupName): (r: Option<nat>)
    ensures r.Some? ==> r.value in d.groups && d.groups[r.value].name == name
    ensures r.None? <==> forall k :: k in d.groups ==> d.groups[k].name != name
  {
    var ids := set k | k in d.groups && d.groups[k].name == name;
    assert forall k :: k in d.groups && d.groups[k].name == name ==> k in ids;
    if ids == {} then None else Some(Least(ids))
  }

  /** Under the unique email column, the lookup finds exactly the user holding that email. */
  lemma UserWithEmailExact(d: Db, email: string, uid: nat)
    requires Valid(d)
    ensures UserWithEmail(d, email) == Some(uid) <==> uid in d.users && d.users[uid].email == email
  {
  }

  /** Under the unique key column, the lookup finds exactly the profile holding that key. */
  lemma ProfileWithKeyExact(d: Db, key: string, pid: nat)
    requires Valid(d)
    ensures ProfileWithKey(d, key) == Some(pid) <==> pid in d.profiles && d.profiles[pid].key == key
  {
  }

  /** The association lookups read the association table and nothing else. */
  lemma AssociationLookupsFrame(d: Db, e: Db)
    requires d.associations == e.associations
    ensures forall p: nat :: AssociationOfProfile(d, p) == AssociationOfProfile(e, p)
    ensures forall u: nat :: AssociationOfUser(d, u) == AssociationOfUser(e, u)
  {
    forall p: nat ensures AssociationOfProfile(d, p) == AssociationOfProfile(e, p) {
      assert (set a | a in d.associations && d.associations[a].profileId == p)
          == (set a | a in e.associations && e.associations[a].profileId == p);
    }
    forall u: nat ensures AssociationOfUser(d, u) == AssociationOfUser(e, u) {
      assert (set a | a in d.associations && d.associations[a].userWebsiteId == Some(u))
          == (set a | a in e.associations && e.associations[a].userWebsiteId == Some(u));
    }
  }

  // ---------------------------------------------------------------------------------------------
  // Writes. Inserts take the next serial id; the `Can*` predicates are the checks the database
  // makes before it accepts a row.

  /** `website_users.email` is unique and both columns fit. */
  predicate CanInsertUser(d: Db, u: Users.WebSiteUser)
  {
    UserWithEmail(d, u.email).None? && Users.ColumnsFit(u)
  }

  function InsertUser(d: Db, u: Users.WebSiteUser): (r: Db)
    ensures r.users == d.users[d.nextUser := u] && r.nextUser == d.nextUser + 1
    ensures r == d.(users := r.users, nextUser := r.nextUser)
  {
    d.(users := d.users[d.nextUser := u], nextUser := d.nextUser + 1)
  }

  /** `profiles.key` is unique and the row's columns fit. */
  predicate CanInsertProfile(d: Db, p: Profiles.ProfileRow)
  {
    ProfileWithKey(d, p.key).None? && Profiles.ColumnsFit(p)
  }

  function InsertProfile(d: Db, p: Profiles.ProfileRow): (r: Db)
    ensures r.profiles == d.profiles[d.nextProfile := p] && r.nextProfile == d.nextProfile + 1
    ensures r == d.(profiles := r.profiles, nextProfile := r.nextProfile)
  {
    d.(profiles := d.profiles[d.nextProfile := p], nextProfile := d.nextProfile + 1)
  }

  function InsertAssociation(d: Db, a: Association): (r: Db)
    ensures r.associations == d.associations[d.nextAssociation := a]
    ensures r.nextAssociation == d.nextAssociation + 1
    ensures r == d.(associations := r.associations, nextAssociation := r.nextAssociation)
  {
    d.(associations := d.associations[d.nextAssociation := a], nextAssociation := d.nextAssociation + 1)
  }

  function InsertRole(d: Db, role: Role): (r: Db)
    ensures r.roles == d.roles[d.nextRole := role] && r.nextRole == d.nextRole + 1
    ensures r == d.(roles := r.roles, nextRole := r.nextRole)
  {
    d.(roles := d.roles[d.nextRole := role], nextRole := d.nextRole + 1)
  }

  function InsertGroup(d: Db, g: RoleGroup): (r: Db)
    ensures r.groups == d.groups[d.nextGroup := g] && r.nextGroup == d.nextGroup + 1
    ensures r == d.(groups := r.groups, nextGroup := r.nextGroup)
  {
    d.(groups := d.groups[d.nextGroup := g], nextGroup := d.nextGroup + 1)
  }

  /** Deleting a profile deletes, by `ON DELETE CASCADE`, every association that references it. */
  function DeleteProfile(d: Db, pid: nat): (r: Db)
    ensures r.profiles == d.profiles - {pid}
    ensures forall a :: a in r.associations <==> a in d.associations && d.associations[a].profileId != pid
    ensures forall a :: a in r.associations ==> r.associations[a] == d.associations[a]
    ensures r == d.(profiles := r.profiles, associations := r.associations)
  {
    d.(profiles := d.profiles - {pid},
       associations := map a | a in d.associations && d.associations[a].profileId != pid :: d.associations[a])
  }

  /** Deleting a website user deletes the associations that reference it. */
  function DeleteWebSiteUser(d: Db, uid: nat): (r: Db)
    ensures r.users == d.users - {uid}
    ensures forall a :: a in r.associations <==> a in d.associations && d.associations[a].userWebsiteId != Some(uid)
    ensures forall a :: a in r.associations ==> r.associations[a] == d.associations[a]
    ensures r == d.(users := r.users, associations := r.associations)
  {
    d.(users := d.users - {uid},
       associations := map a | a in d.associations && d.associations[a].userWebsiteId != Some(uid) :: d.associations[a])
  }

  /** Deleting a web-app user deletes the associations that reference it. */
  function DeleteWebAppUser(d: Db, uid: nat): (r: Db)
    ensures r.webappUsers == d.webappUsers - {uid}
    ensures forall a :: a in r.associations <==> a in d.associations && d.associations[a].userWebappId != Some(uid)
    ensures forall a :: a in r.associations ==> r.associations[a] == d.associations[a]
    ensures r == d.(webappUsers := r.webappUsers, associations := r.associations)
  {
    d.(webappUsers := d.webappUsers - {uid},
       associations := map a | a in d.associations && d.associations[a].userWebappId != Some(uid) :: d.associations[a])
  }

  /** Deleting a role deletes the associations that reference it (and its group link, held in the row). */
  function DeleteRole(d: Db, rid: nat): (r: Db)
    ensures r.roles == d.roles - {rid}
    ensures forall a :: a in r.associations <==> a in d.associations && d.associations[a].roleId != rid
    ensures forall a :: a in r.associations ==> r.associations[a] == d.associations[a]
    ensures r == d.(roles := r.roles, associations := r.associations)
  {
    d.(roles := d.roles - {rid},
       associations := map a | a in d.associations && d.associations[a].roleId != rid :: d.associations[a])
  }

  // ---------------------------------------------------------------------------------------------
  // The invariants each write keeps

  lemma InsertUserValid(d: Db, u: Users.WebSiteUser)
    requires Valid(d) && CanInsertUser(d, u)
    ensures Valid(InsertUser(d, u))
  {
    InsertUserIds(d, u);
    InsertUserKeys(d, u);
    InsertUserUnique(d, u);
    InsertUserFits(d, u);
  }

  lemma InsertUserIds(d: Db, u: Users.WebSiteUser)
    requires IdsInRange(d)
    ensures IdsInRange(InsertUser(d, u))
  {
  }

  lemma InsertUserFits(d: Db, u: Users.WebSiteUser)
    requires RowsFit(d) && Users.ColumnsFit(u)
    ensures RowsFit(InsertUser(d, u))
  {
  }

  lemma InsertUserKeys(d: Db, u: Users.WebSiteUser)
    requires ForeignKeys(d)
    ensures ForeignKeys(InsertUser(d, u))
  {
    var r := InsertUser(d, u);
    forall a | a in r.associations ensures RefsExist(r, r.associations[a]) {
      assert RefsExist(d, d.associations[a]);
    }
  }

  lemma InsertUserUnique(d: Db, u: Users.WebSiteUser)
    requires UniqueColumns(d) && IdsInRange(d) && UserWithEmail(d, u.email).None?
    ensures UniqueColumns(InsertUser(d, u))
  {
    var r := InsertUser(d, u);
    assert d.nextUser !in d.users;
    forall x, y | x in r.users && y in r.users && r.users[x].email == r.users[y].email
      ensures x == y
    {
      if x != d.nextUser && y != d.nextUser {
        assert d.users[x].email == d.users[y].email;
      }
    }
  }

  lemma InsertProfileValid(d: Db, p: Profiles.ProfileRow)
    requires Valid(d) && CanInsertProfile(d, p)
    ensures Valid(InsertProfile(d, p))
  {
    InsertProfileIds(d, p);
    InsertProfileKeys(d, p);
    InsertProfileUnique(d, p);
    InsertProfileFits(d, p);
  }

  lemma InsertProfileIds(d: Db, p: Profiles.ProfileRow)
    requires IdsInRange(d)
    ensures IdsInRange(InsertProfile(d, p))
  {
  }

  lemma InsertProfileFits(d: Db, p: Profiles.ProfileRow)
    requires RowsFit(d) && Profiles.ColumnsFit(p)
    ensures RowsFit(InsertProfile(d, p))
  {
  }

  lemma InsertProfileKeys(d: Db, p: Profiles.ProfileRow)
    requires ForeignKeys(d)
    ensures ForeignKeys(InsertProfile(d, p))
  {
    var r := InsertProfile(d, p);
    forall a | a in r.associations ensures RefsExist(r, r.associations[a]) {
      assert RefsExist(d, d.associations[a]);
    }
  }

  lemma InsertProfileUnique(d: Db, p: Profiles.ProfileRow)
    requires UniqueColumns(d) && IdsInRange(d) && ProfileWithKey(d, p.key).None?
    ensures UniqueColumns(InsertProfile(d, p))
  {
    var r := InsertProfile(d, p);
    assert d.nextProfile !in d.profiles;
    forall x, y | x in r.profiles && y in r.profiles && r.profiles[x].key == r.profiles[y].key
      ensures x == y
    {
      if x != d.nextProfile && y != d.nextProfile {
        assert d.profiles[x].key == d.profiles[y].key;
      }
    }
  }

  /** The invariants that do not mention associations survive a change to associations alone. */
  lemma AssociationsFrame(d: Db, r: Db)
    requires Valid(d)
    requires r == d.(associations := r.associations, nextAssociation := r.nextAssociation)
    requires 1 <= r.nextAssociation
    requires forall k :: k in r.associations ==> 1 <= k < r.nextAssociation
    requires forall a :: a in r.associations ==> RefsExist(d, r.associations[a])
    requires ScalarAssociations(r)
    ensures Valid(r)
  {
    AssociationsFrameIds(d, r);
    AssociationsFrameUnique(d, r);
    AssociationsFrameFits(d, r);
    AssociationsFrameKeys(d, r);
  }

  lemma AssociationsFrameIds(d: Db, r: Db)
    requires IdsInRange(d)
    requires r == d.(associations := r.associations, nextAssociation := r.nextAssociation)
    requires 1 <= r.nextAssociation
    requires forall k :: k in r.associations ==> 1 <= k < r.nextAssociation
    ensures IdsInRange(r)
  {
  }

  lemma AssociationsFrameUnique(d: Db, r: Db)
    requires UniqueColumns(d)
    requires r == d.(associations := r.associations, nextAssociation := r.nextAssociation)
    ensures UniqueColumns(r)
  {
  }

  lemma AssociationsFrameFits(d: Db, r: Db)
    requires RowsFit(d)
    requires r == d.(associations := r.associations, nextAssociation := r.nextAssociation)
    ensures RowsFit(r)
  {
  }

  lemma AssociationsFrameKeys(d: Db, r: Db)
    requires ForeignKeys(d)
    requires r == d.(associations := r.associations, nextAssociation := r.nextAssociation)
    requires forall a :: a in r.associations ==> RefsExist(d, r.associations[a])
    ensures ForeignKeys(r)
  {
    forall a | a in r.associations
      ensures RefsExist(r, r.associations[a])
    {
      assert RefsExist(d, r.associations[a]);
    }
  }

  /**
   * A new association keeps the invariants when its references exist, its profile has no
   * association yet and its website user, if any, has none either.
   */
  lemma InsertAssociationValid(d: Db, a: Association)
    requires Valid(d) && RefsExist(d, a)
    requires AssociationOfProfile(d, a.profileId).None?
    requires a.userWebsiteId.Some? ==> AssociationOfUser(d, a.userWebsiteId.value).None?
    ensures Valid(InsertAssociation(d, a))
  {
    var r := InsertAssociation(d, a);
    var n := d.nextAssociation;
    AddKeepsScalar(d.associations, n, a);
    forall k | k in r.associations
      ensures RefsExist(d, r.associations[k])
    {
      if k != n {
        assert r.associations[k] == d.associations[k];
      }
    }
    AssociationsFrame(d, r);
  }

  /** Overwriting a profile row with one of the same key that fits keeps the invariants. */
  lemma SetProfileValid(d: Db, pid: nat, p: Profiles.ProfileRow)
    requires Valid(d) && pid in d.profiles && p.key == d.profiles[pid].key && Profiles.ColumnsFit(p)
    ensures Valid(d.(profiles := d.profiles[pid := p]))
  {
    var r := d.(profiles := d.profiles[pid := p]);
    assert IdsInRange(r);
    assert ForeignKeys(r);
    assert UniqueColumns(r) by {
      forall x, y | x in r.profiles && y in r.profiles && r.profiles[x].key == r.profiles[y].key
        ensures x == y
      {
        assert d.profiles[x].key == r.profiles[x].key && d.profiles[y].key == r.profiles[y].key;
      }
    }
    assert RowsFit(r);
  }

  /** Overwriting a user row with one of the same email that fits keeps the invariants. */
  lemma SetUserValid(d: Db, uid: nat, u: Users.WebSiteUser)
    requires Valid(d) && uid in d.users && u.email == d.users[uid].email && Users.ColumnsFit(u)
    ensures Valid(d.(users := d.users[uid := u]))
  {
    var r := d.(users := d.users[uid := u]);
    assert IdsInRange(r);
    assert ForeignKeys(r);
    assert UniqueColumns(r) by {
      forall x, y | x in r.users && y in r.users && r.users[x].email == r.users[y].email
        ensures x == y
      {
        assert d.users[x].email == r.users[x].email && d.users[y].email == r.users[y].email;
      }
    }
    assert RowsFit(r);
  }

  /**
   * Rewriting an association keeps the invariants when its profile stays, its references exist
   * and a website user it gains has no other association.
   */
  lemma SetAssociationValid(d: Db, aid: nat, a: Association)
    requires Valid(d) && aid in d.associations && a.profileId == d.associations[aid].profileId
    requires RefsExist(d, a)
    requires a.userWebsiteId.Some? && a.userWebsiteId != d.associations[aid].userWebsiteId ==>
               AssociationOfUser(d, a.userWebsiteId.value).None?
    ensures Valid(d.(associations := d.associations[aid := a]))
  {
    var r := d.(associations := d.associations[aid := a]);
    SetAssociationScalar(d, aid, a);
    SetAssociationRefs(d, aid, a);
    assert r.associations.Keys == d.associations.Keys;
    AssociationsFrame(d, r);
  }

  lemma SetAssociationScalar(d: Db, aid: nat, a: Association)
    requires ScalarAssociations(d) && aid in d.associations && a.profileId == d.associations[aid].profileId
    requires a.userWebsiteId.Some? && a.userWebsiteId != d.associations[aid].userWebsiteId ==>
               AssociationOfUser(d, a.userWebsiteId.value).None?
    ensures ScalarAssociations(d.(associations := d.associations[aid := a]))
  {
    if a.userWebsiteId.Some? && a.userWebsiteId != d.associations[aid].userWebsiteId {
      var uid := a.userWebsiteId.value;
      assert AssociationOfUser(d, uid).None?;
      assert forall k :: k in d.associations ==> d.associations[k].userWebsiteId != a.userWebsiteId;
    }
    RewriteKeepsScalar(d.associations, aid, a);
  }

  lemma SetAssociationRefs(d: Db, aid: nat, a: Association)
    requires ForeignKeys(d) && RefsExist(d, a)
    ensures var m := d.associations[aid := a]; forall k :: k in m ==> RefsExist(d, m[k])
  {
    var m := d.associations[aid := a];
    forall k | k in m
      ensures RefsExist(d, m[k])
    {
      if k != aid {
        assert m[k] == d.associations[k];
      }
    }
  }

  /** `r` keeps only rows of `d`, unchanged, under the same serials. */
  ghost predicate Shrinks(d: Db, r: Db)
  {
    r.nextUser == d.nextUser && r.nextProfile == d.nextProfile && r.nextAssociation == d.nextAssociation
    && r.nextRole == d.nextRole && r.nextGroup == d.nextGroup
    && r.webappUsers <= d.webappUsers
    && (forall k :: k in r.users ==> k in d.users && r.users[k] == d.users[k])
    && (forall k :: k in r.profiles ==> k in d.profiles && r.profiles[k] == d.profiles[k])
    && (forall k :: k in r.associations ==> k in d.associations && r.associations[k] == d.associations[k])
    && (forall k :: k in r.roles ==> k in d.roles && r.roles[k] == d.roles[k])
    && r.groups == d.groups
  }

  /** Dropping rows keeps the invariants when the remaining associations still reference rows. */
  lemma ShrinkValid(d: Db, r: Db)
    requires Valid(d) && Shrinks(d, r)
    requires forall a :: a in r.associations ==> RefsExist(r, r.associations[a])
    ensures Valid(r)
  {
    ShrinkIds(d, r);
    ShrinkGroups(d, r);
    ShrinkUnique(d, r);
    ShrinkFits(d, r);
    ShrinkScalar(d, r);
  }

  lemma ShrinkIds(d: Db, r: Db)
    requires IdsInRange(d) && Shrinks(d, r)
    ensures IdsInRange(r)
  {
  }

  lemma ShrinkGroups(d: Db, r: Db)
    requires ForeignKeys(d) && Shrinks(d, r)
    ensures forall k :: k in r.roles && r.roles[k].group.Some? ==> r.roles[k].group.value in r.groups
  {
  }

  lemma ShrinkUnique(d: Db, r: Db)
    requires UniqueColumns(d) && Shrinks(d, r)
    ensures UniqueColumns(r)
  {
  }

  lemma ShrinkFits(d: Db, r: Db)
    requires RowsFit(d) && Shrinks(d, r)
    ensures RowsFit(r)
  {
  }

  lemma ShrinkScalar(d: Db, r: Db)
    requires ScalarAssociations(d) && Shrinks(d, r)
    ensures ScalarAssociations(r)
  {
  }

  /** Deleting a profile, with its association, keeps the invariants. */
  lemma DeleteProfileValid(d: Db, pid: nat)
    requires Valid(d)
    ensures Valid(DeleteProfile(d, pid))
  {
    var r := DeleteProfile(d, pid);
    assert Shrinks(d, r);
    forall a | a in r.associations
      ensures RefsExist(r, r.associations[a])
    {
      assert RefsExist(d, d.associations[a]);
    }
    ShrinkValid(d, r);
  }

  /** Deleting a website user, with its associations, keeps the invariants. */
  lemma DeleteWebSiteUserValid(d: Db, uid: nat)
    requires Valid(d)
    ensures Valid(DeleteWebSiteUser(d, uid))
  {
    var r := DeleteWebSiteUser(d, uid);
    assert Shrinks(d, r);
    forall a | a in r.associations
      ensures RefsExist(r, r.associations[a])
    {
      assert RefsExist(d, d.associations[a]);
    }
    ShrinkValid(d, r);
  }

  /** Deleting a web-app user, with its associations, keeps the invariants. */
  lemma DeleteWebAppUserValid(d: Db, uid: nat)
    requires Valid(d)
    ensures Valid(DeleteWebAppUser(d, uid))
  {
    var r := DeleteWebAppUser(d, uid);
    assert Shrinks(d, r);
    forall a | a in r.associations
      ensures RefsExist(r, r.associations[a])
    {
      assert RefsExist(d, d.associations[a]);
    }
    ShrinkValid(d, r);
  }

  /** Deleting a role, with its associations, keeps the invariants. */
  lemma DeleteRoleValid(d: Db, rid: nat)
    requires Valid(d)
    ensures Valid(DeleteRole(d, rid))
  {
    var r := DeleteRole(d, rid);
    assert Shrinks(d, r);
    forall a | a in r.associations
      ensures RefsExist(r, r.associations[a])
    {
      assert RefsExist(d, d.associations[a]);
    }
    ShrinkValid(d, r);
  }

  // ---------------------------------------------------------------------------------------------
  // Bindings the service maintains beside Valid

  /** Every website user is bound to an association (registration always creates or rebinds one). */
  ghost predicate UsersBound(d: Db)
  {
    forall u :: u in d.users ==> AssociationOfUser(d, u).Some?
  }

  /** Every profile has an association (every profile is created together with one). */
  ghost predicate ProfilesBound(d: Db)
  {
    forall p :: p in d.profiles ==> AssociationOfProfile(d, p).Some?
  }
}
