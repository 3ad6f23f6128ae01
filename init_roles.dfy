/**
 * backend/auth/scripts/init_roles.py: seeding the role groups and roles. Each creation looks the
 * name up first and returns an existing row untouched; otherwise it inserts one row and commits,
 * and a commit error is rolled back and raised, which ends the seeding.
 */
module InitRoles {
  import opened Wrappers
  import opened Tables
  import opened Roles
  import opened Session

  // ---------------------------------------------------------------------------------------------
  // The seeds

  /** The four texts of a seeded row: Russian title and description, then English ones. */
  datatype SeedTexts = SeedTexts(titleRu: string, descriptionRu: string, titleEn: string, descriptionEn: string)

  const ADMINISTRATORS_TEXTS := SeedTexts("Администраторы", "Группа администраторов платформы.",
                                          "Administrators", "Group of platform administrators.")
  const USERS_TEXTS := SeedTexts("Пользователи", "Группа зарегистрированных пользователей",
                                 "Users", "Group of registered users")
  const GUESTS_TEXTS := SeedTexts("Гости", "Группа незарегистрированных пользователей",
                                  "Guests", "Group of unregistered users")
  const CHATS_TEXTS := SeedTexts("Чаты", "Группа ролей для чатов в Телеграм",
                                 "Chats", "Group of Telegram chat roles")

  /** The texts `init_roles` gives each group. */
  function GroupTexts(name: RoleGroupName): SeedTexts
  {
    match name
    case Administrators => ADMINISTRATORS_TEXTS
    case Users => USERS_TEXTS
    case Guests => GUESTS_TEXTS
    case Chats => CHATS_TEXTS
  }

  /** The four groups `init_roles` creates, with their texts. */
  function SeedGroup(name: RoleGroupName): (g: RoleGroup)
    ensures g.name == name
  {
    var t := GroupTexts(name);
    RoleGroup(name, t.titleRu, t.descriptionRu, t.titleEn, t.descriptionEn)
  }

  /** Every seeded group's texts fit their columns. */
  lemma SeedGroupFits(name: RoleGroupName)
    ensures GroupFits(SeedGroup(name))
  {
  }

  /** The group each seeded role is created in. */
  function GroupOf(name: RoleName): RoleGroupName
  {
    match name
    case GlobalAdmin => Administrators
    case ContentAdmin => Administrators
    case Owner => Users
    case User => Users
    case Guest => Guests
    case Chat => Chats
  }

  const GLOBAL_ADMIN_TEXTS := SeedTexts("Глобальный администратор", "Глобальный администратор с полными правами",
                                        "Global Administrator", "Global administrator with full rights")
  const CONTENT_ADMIN_TEXTS := SeedTexts("Контент администратор", "Администратор контента",
                                         "Content Administrator", "Content administrator")
  const OWNER_TEXTS := SeedTexts("Владелец компании", "Владелец компании с расширенными правами",
                                 "Company Owner", "Company owner with extended rights")
  const USER_TEXTS := SeedTexts("Пользователь", "Обычный пользователь с базовыми правами",
                                "User", "Regular user with basic rights")
  const GUEST_TEXTS := SeedTexts("Гость", "Незарегистрированный пользователь", "Guest", "Unregistered user")
  const CHAT_TEXTS := SeedTexts("Чат", "Чат в Telegram", "Chat", "Telegram chat")

  /** The texts `init_roles` gives each role. */
  function RoleTexts(name: RoleName): SeedTexts
  {
    match name
    case GlobalAdmin => GLOBAL_ADMIN_TEXTS
    case ContentAdmin => CONTENT_ADMIN_TEXTS
    case Owner => OWNER_TEXTS
    case User => USER_TEXTS
    case Guest => GUEST_TEXTS
    case Chat => CHAT_TEXTS
  }

  /** The six roles `init_roles` creates, with their texts, in the group with id `group`. */
  function SeedRole(name: RoleName, group: nat): (r: Role)
    ensures r.name == name && r.group == Some(group)
  {
    var t := RoleTexts(name);
    Role(name, t.titleRu, t.descriptionRu, t.titleEn, t.descriptionEn, Some(group))
  }

  /** Every seeded role's texts fit their columns. */
  lemma SeedRoleFits(name: RoleName, group: nat)
    ensures RoleFits(SeedRole(name, group))
  {
  }

  // ---------------------------------------------------------------------------------------------
  // The operations as functions of the committed state

  /** `create_role_group`: the id of the group with this name, existing or new; `None` when the commit fails. */
  function GroupCreation(d: Db, g: RoleGroup): (s: Step<Option<nat>>)
    ensures s.result.Some? ==> s.result.value in s.db.groups && s.db.groups[s.result.value].name == g.name
    ensures s.result.None? ==> s.db == d && !GroupFits(g)
    ensures s.db == d.(groups := s.db.groups, nextGroup := s.db.nextGroup)
  {
    match GroupWithName(d, g.name)
    case Some(id) => Step(d, Some(id))
    case None =>
      if CanInsertGroup(d, g) then Step(InsertGroup(d, g), Some(d.nextGroup)) else Step(d, None)
  }

  /**
   * `create_role`: the id of the role with this name, existing or new; a new role goes in `r.group`,
   * an existing one keeps its own group. `None` when the commit fails.
   */
  function RoleCreation(d: Db, r: Role): (s: Step<Option<nat>>)
    ensures s.result.Some? ==> s.result.value in s.db.roles && s.db.roles[s.result.value].name == r.name
    ensures s.result.None? ==> s.db == d
    ensures s.db == d.(roles := s.db.roles, nextRole := s.db.nextRole)
  {
    match RoleWithName(d, r.name)
    case Some(id) => Step(d, Some(id))
    case None =>
      if CanInsertRole(d, r) then Step(InsertRole(d, r), Some(d.nextRole)) else Step(d, None)
  }

  /** The ids of the four seeded groups. */
  datatype GroupIds = GroupIds(admins: nat, users: nat, guests: nat, chats: nat)

  /** The first part of `init_roles`: the four groups, stopping at the first error. */
  function SeedGroups(d: Db): (s: Step<Option<GroupIds>>)
    ensures s.db == d.(groups := s.db.groups, nextGroup := s.db.nextGroup)
  {
    var admins := GroupCreation(d, SeedGroup(Administrators));
    if admins.result.None? then Step(admins.db, None) else
    var users := GroupCreation(admins.db, SeedGroup(Users));
    if users.result.None? then Step(users.db, None) else
    var guests := GroupCreation(users.db, SeedGroup(Guests));
    if guests.result.None? then Step(guests.db, None) else
    var chats := GroupCreation(guests.db, SeedGroup(Chats));
    if chats.result.None? then Step(chats.db, None) else
    Step(chats.db, Some(GroupIds(admins.result.value, users.result.value, guests.result.value, chats.result.value)))
  }

  /** The order in which `init_roles` creates the six roles. */
  const ROLE_ORDER: seq<RoleName> := [GlobalAdmin, ContentAdmin, Owner, User, Guest, Chat]

  /** The id of a seeded group among the four. */
  function GroupId(ids: GroupIds, g: RoleGroupName): (id: nat)
    ensures g == Administrators ==> id == ids.admins
    ensures g == Users ==> id == ids.users
    ensures g == Guests ==> id == ids.guests
    ensures g == Chats ==> id == ids.chats
  {
    match g
    case Administrators => ids.admins
    case Users => ids.users
    case Guests => ids.guests
    case Chats => ids.chats
  }

  /** The seeded role `name`, in the group `init_roles` gives it. */
  function SeedRoleIn(ids: GroupIds, name: RoleName): (r: Role)
    ensures r.name == name && r.group == Some(GroupId(ids, GroupOf(name)))
  {
    SeedRole(name, GroupId(ids, GroupOf(name)))
  }

  /** The six seeded roles in `ROLE_ORDER`, each in its group. */
  function RoleSeeds(ids: GroupIds): (rs: seq<Role>)
    ensures |rs| == |ROLE_ORDER| && forall i :: 0 <= i < |rs| ==> rs[i] == SeedRoleIn(ids, ROLE_ORDER[i])
  {
    [SeedRoleIn(ids, GlobalAdmin), SeedRoleIn(ids, ContentAdmin), SeedRoleIn(ids, Owner),
     SeedRoleIn(ids, User), SeedRoleIn(ids, Guest), SeedRoleIn(ids, Chat)]
  }

  /** The roles `rs` created one after the other, stopping at the first error (`false`). */
  function CreateRoles(d: Db, rs: seq<Role>): (s: Step<bool>)
    ensures s.db == d.(roles := s.db.roles, nextRole := s.db.nextRole)
    decreases |rs|
  {
    if rs == [] then Step(d, true) else
    var first := RoleCreation(d, rs[0]);
    if first.result.None? then Step(first.db, false) else CreateRoles(first.db, rs[1..])
  }

  /** The second part of `init_roles`: the six roles in their groups, stopping at the first error. */
  function SeedRoles(d: Db, ids: GroupIds): (s: Step<bool>)
    ensures s.db == d.(roles := s.db.roles, nextRole := s.db.nextRole)
  {
    CreateRoles(d, RoleSeeds(ids))
  }

  /** The rows `rs`, under consecutive ids from `next`. */
  function RoleRows(next: nat, rs: seq<Role>): (m: map<nat, Role>)
    ensures forall k :: k in m <==> next <= k < next + |rs|
    ensures forall k :: k in m ==> m[k] == rs[k - next]
    decreases |rs|
  {
    if rs == [] then map[] else
    var rest := RoleRows(next + 1, rs[1..]);
    assert forall k :: k in rest ==> rs[1..][k - (next + 1)] == rs[k - next];
    rest[next := rs[0]]
  }

  /** `init_roles`: the four groups, then the six roles, stopping at the first error (`false`). */
  function Initialization(d: Db): (s: Step<bool>)
    ensures s.db == d.(groups := s.db.groups, nextGroup := s.db.nextGroup, roles := s.db.roles, nextRole := s.db.nextRole)
  {
    var groups := SeedGroups(d);
    match groups.result
    case None => Step(groups.db, false)
    case Some(ids) => SeedRoles(groups.db, ids)
  }

  // ---------------------------------------------------------------------------------------------
  // What seeding achieves

  /** A group name nobody holds, with fitting texts, is inserted under the next id. */
  lemma FreshGroup(d: Db, g: RoleGroup)
    requires forall k :: k in d.groups ==> d.groups[k].name != g.name
    requires GroupFits(g)
    ensures GroupCreation(d, g) == Step(InsertGroup(d, g), Some(d.nextGroup))
  {
  }

  /** A role name nobody holds, with fitting texts and an existing group, is inserted under the next id. */
  lemma FreshRole(d: Db, r: Role)
    requires forall k :: k in d.roles ==> d.roles[k].name != r.name
    requires RoleFits(r) && r.group.Some? && r.group.value in d.groups
    ensures RoleCreation(d, r) == Step(InsertRole(d, r), Some(d.nextRole))
  {
  }

  /**
   * Seeding an empty database succeeds with exactly four groups and six roles, each role in its
   * group; `global_admin` gets id 1, the id the admin dependency checks for.
   */
  lemma InitializationFromEmpty(d0: Db)
    requires d0 == EmptyDb()
    ensures var s := Initialization(d0);
      s.result
      && s.db.groups == map[1 := SeedGroup(Administrators), 2 := SeedGroup(Users),
                            3 := SeedGroup(Guests), 4 := SeedGroup(Chats)]
      && (forall k :: k in s.db.roles <==> 1 <= k <= 6)
      && (forall i :: 0 <= i < |ROLE_ORDER| ==> s.db.roles[i + 1] == SeedRoleIn(GroupIds(1, 2, 3, 4), ROLE_ORDER[i]))
      && s.db.roles[1].name == GlobalAdmin && s.db.roles[1].group == Some(1)
      && s.db.users == map[] && s.db.profiles == map[] && s.db.associations == map[]
  {
    var d := InitializationOfEmpty(d0);
    SeedRows(1, GroupIds(1, 2, 3, 4));
  }

  /** The rows of the seeded roles from `next`: one per role of `ROLE_ORDER`, in order. */
  lemma SeedRows(next: nat, ids: GroupIds)
    ensures var rows := RoleRows(next, RoleSeeds(ids));
      (forall k :: k in rows <==> next <= k < next + |ROLE_ORDER|)
      && (forall i :: 0 <= i < |ROLE_ORDER| ==> rows[i + next] == SeedRoleIn(ids, ROLE_ORDER[i]))
  {
  }

  /** Seeding an empty database: the groups from `GroupsFromEmpty`, then the six role rows. */
  lemma InitializationOfEmpty(d0: Db) returns (d: Db)
    requires d0 == EmptyDb()
    ensures Initialization(d0) == Step(d, true)
    ensures d == d0.(groups := map[1 := SeedGroup(Administrators), 2 := SeedGroup(Users),
                                   3 := SeedGroup(Guests), 4 := SeedGroup(Chats)], nextGroup := 5,
                     roles := RoleRows(1, RoleSeeds(GroupIds(1, 2, 3, 4))), nextRole := 7)
  {
    var d4 := GroupsFromEmpty(d0);
    var ids := GroupIds(1, 2, 3, 4);
    SeedRolesOnEmptyTable(d4, ids);
    d := d4.(roles := RoleRows(1, RoleSeeds(ids)), nextRole := 7);
  }

  /** The four groups on an empty database take ids 1 to 4. */
  lemma GroupsFromEmpty(d0: Db) returns (d4: Db)
    requires d0 == EmptyDb()
    ensures d4 == d0.(groups := map[1 := SeedGroup(Administrators), 2 := SeedGroup(Users),
                                    3 := SeedGroup(Guests), 4 := SeedGroup(Chats)], nextGroup := 5)
    ensures SeedGroups(d0) == Step(d4, Some(GroupIds(1, 2, 3, 4)))
  {
    SeedGroupFits(Administrators);
    FreshGroup(d0, SeedGroup(Administrators));
    var d1 := InsertGroup(d0, SeedGroup(Administrators));
    SeedGroupFits(Users);
    FreshGroup(d1, SeedGroup(Users));
    var d2 := InsertGroup(d1, SeedGroup(Users));
    SeedGroupFits(Guests);
    FreshGroup(d2, SeedGroup(Guests));
    var d3 := InsertGroup(d2, SeedGroup(Guests));
    SeedGroupFits(Chats);
    FreshGroup(d3, SeedGroup(Chats));
    d4 := InsertGroup(d3, SeedGroup(Chats));
  }

  /** The conditions under which every role of `rs` is inserted: see `FreshRole`. */
  ghost predicate AllFresh(d: Db, rs: seq<Role>)
  {
    (forall k :: k in d.roles ==> k < d.nextRole)
    && (forall i :: 0 <= i < |rs| ==> RoleFits(rs[i]) && rs[i].group.Some? && rs[i].group.value in d.groups)
    && (forall i, j :: 0 <= i < j < |rs| ==> rs[i].name != rs[j].name)
    && (forall i, k :: 0 <= i < |rs| && k in d.roles ==> d.roles[k].name != rs[i].name)
  }

  /** The roles `rs` are all created, under the next ids and in order. */
  ghost predicate CreatesRows(d: Db, rs: seq<Role>)
  {
    var s := CreateRoles(d, rs);
    s.result && s.db.roles == d.roles + RoleRows(d.nextRole, rs) && s.db.nextRole == d.nextRole + |rs|
  }

  /**
   * Roles with distinct names, none held yet, fitting and in existing groups, are created under
   * the next ids, in order.
   */
  lemma {:induction false} FreshRoles(d: Db, rs: seq<Role>)
    requires AllFresh(d, rs)
    ensures CreatesRows(d, rs)
    decreases |rs|
  {
    if rs == [] {
      EmptyRows(d);
    } else {
      FreshAfterInsert(d, rs);
      FreshRoles(InsertRole(d, rs[0]), rs[1..]);
      FreshRolesStep(d, rs);
    }
  }

  lemma EmptyRows(d: Db)
    ensures CreatesRows(d, [])
  {
  }

  /** The step of `FreshRoles`: the first role is inserted, then the rest after it. */
  lemma FreshRolesStep(d: Db, rs: seq<Role>)
    requires rs != [] && AllFresh(d, rs)
    requires CreatesRows(InsertRole(d, rs[0]), rs[1..])
    ensures CreatesRows(d, rs)
  {
    FreshFirst(d, rs);
    RowsHead(d.nextRole, rs);
    RowsAfterInsert(d.roles, d.nextRole, rs[0], RoleRows(d.nextRole + 1, rs[1..]));
  }

  /** The rows from `next` are the first row at `next` over the rest from `next + 1`. */
  lemma RowsHead(next: nat, rs: seq<Role>)
    requires rs != []
    ensures RoleRows(next, rs) == RoleRows(next + 1, rs[1..])[next := rs[0]]
  {
  }

  /** The first of such roles is inserted under the next id. */
  lemma FreshFirst(d: Db, rs: seq<Role>)
    requires rs != [] && AllFresh(d, rs)
    ensures CreateRoles(d, rs) == CreateRoles(InsertRole(d, rs[0]), rs[1..])
  {
    var r := rs[0];
    assert RoleFits(r) && r.group.Some? && r.group.value in d.groups;
    assert forall k :: k in d.roles ==> d.roles[k].name != r.name;
    FreshRole(d, r);
  }

  /** After inserting the first of such roles, the rest meet the conditions. */
  lemma FreshAfterInsert(d: Db, rs: seq<Role>)
    requires rs != [] && AllFresh(d, rs)
    ensures AllFresh(InsertRole(d, rs[0]), rs[1..])
  {
    var tail := rs[1..];
    assert forall i :: 0 <= i < |tail| ==> tail[i] == rs[i + 1];
  }

  /** A seeded role's group is one of the four seeded groups. */
  lemma SeedRoleInGroup(d: Db, ids: GroupIds, name: RoleName)
    requires ids.admins in d.groups && ids.users in d.groups && ids.guests in d.groups && ids.chats in d.groups
    ensures SeedRoleIn(ids, name).group.value in d.groups
  {
    match GroupOf(name)
    case Administrators =>
    case Users =>
    case Guests =>
    case Chats =>
  }

  /** Inserting `r` at `n` and then the later rows is the same as adding all rows at once. */
  lemma RowsAfterInsert(m: map<nat, Role>, n: nat, r: Role, later: map<nat, Role>)
    requires n !in later
    ensures m[n := r] + later == m + later[n := r]
  {
  }

  /** The seeded roles can all be inserted into a database without roles that holds their groups. */
  lemma RoleSeedsFresh(d: Db, ids: GroupIds)
    requires d.roles == map[]
    requires ids.admins in d.groups && ids.users in d.groups && ids.guests in d.groups && ids.chats in d.groups
    ensures AllFresh(d, RoleSeeds(ids))
  {
    var rs := RoleSeeds(ids);
    forall i | 0 <= i < |rs|
      ensures RoleFits(rs[i]) && rs[i].group.Some? && rs[i].group.value in d.groups
    {
      SeedRoleFits(ROLE_ORDER[i], GroupId(ids, GroupOf(ROLE_ORDER[i])));
      SeedRoleInGroup(d, ids, ROLE_ORDER[i]);
    }
    assert forall i, j :: 0 <= i < j < |ROLE_ORDER| ==> ROLE_ORDER[i] != ROLE_ORDER[j];
  }

  /**
   * On a database without roles whose seeded groups exist, role seeding succeeds and the six roles
   * take the next six ids, in `ROLE_ORDER`.
   */
  lemma SeedRolesOnEmptyTable(d: Db, ids: GroupIds)
    requires d.roles == map[]
    requires ids.admins in d.groups && ids.users in d.groups && ids.guests in d.groups && ids.chats in d.groups
    ensures SeedRoles(d, ids)
      == Step(d.(roles := RoleRows(d.nextRole, RoleSeeds(ids)), nextRole := d.nextRole + |ROLE_ORDER|), true)
  {
    var rs := RoleSeeds(ids);
    RoleSeedsFresh(d, ids);
    FreshRoles(d, rs);
    EmptyTablePlusRows(d.roles, RoleRows(d.nextRole, rs));
  }

  lemma EmptyTablePlusRows(m: map<nat, Role>, rows: map<nat, Role>)
    requires m == map[]
    ensures m + rows == rows
  {
  }

  /** Ids held in the group and role tables are below the next serial values. */
  ghost predicate SerialsAhead(d: Db)
  {
    (forall k :: k in d.groups ==> k < d.nextGroup) && (forall k :: k in d.roles ==> k < d.nextRole)
  }

  /** Every seeded group and role name is present. */
  predicate SeedsPresent(d: Db)
  {
    GroupWithName(d, Administrators).Some? && GroupWithName(d, Users).Some?
    && GroupWithName(d, Guests).Some? && GroupWithName(d, Chats).Some?
    && RoleWithName(d, GlobalAdmin).Some? && RoleWithName(d, ContentAdmin).Some?
    && RoleWithName(d, Owner).Some? && RoleWithName(d, User).Some?
    && RoleWithName(d, Guest).Some? && RoleWithName(d, Chat).Some?
  }

  /** With every seed present, seeding writes nothing and succeeds. */
  lemma SeededInitializationIsNoop(d: Db)
    requires SeedsPresent(d)
    ensures Initialization(d) == Step(d, true)
  {
    var ids := SeedGroupsNoop(d);
    var rs := RoleSeeds(ids);
    assert rs[0].name == GlobalAdmin && rs[1].name == ContentAdmin && rs[2].name == Owner;
    assert rs[3].name == User && rs[4].name == Guest && rs[5].name == Chat;
    PresentRolesNoop(d, rs);
  }

  /** With the four group names held, group seeding writes nothing and returns their ids. */
  lemma SeedGroupsNoop(d: Db) returns (ids: GroupIds)
    requires GroupWithName(d, Administrators).Some? && GroupWithName(d, Users).Some?
    requires GroupWithName(d, Guests).Some? && GroupWithName(d, Chats).Some?
    ensures SeedGroups(d) == Step(d, Some(ids))
  {
    SeedGroupNoop(d, Administrators);
    SeedGroupNoop(d, Users);
    SeedGroupNoop(d, Guests);
    SeedGroupNoop(d, Chats);
    ids := GroupIds(GroupWithName(d, Administrators).value, GroupWithName(d, Users).value,
                    GroupWithName(d, Guests).value, GroupWithName(d, Chats).value);
  }

  lemma SeedGroupNoop(d: Db, name: RoleGroupName)
    requires GroupWithName(d, name).Some?
    ensures GroupCreation(d, SeedGroup(name)) == Step(d, GroupWithName(d, name))
  {
  }

  /** Creating roles whose names are all held already writes nothing and succeeds. */
  lemma {:induction false} PresentRolesNoop(d: Db, rs: seq<Role>)
    requires forall i :: 0 <= i < |rs| ==> RoleWithName(d, rs[i].name).Some?
    ensures CreateRoles(d, rs) == Step(d, true)
    decreases |rs|
  {
    if rs != [] {
      var tail := rs[1..];
      assert forall i :: 0 <= i < |tail| ==> tail[i] == rs[i + 1];
      PresentRolesNoop(d, tail);
    }
  }

  /** A group creation keeps earlier groups (and all roles), and the serials ahead. */
  lemma GroupCreationFrame(d: Db, g: RoleGroup)
    requires SerialsAhead(d)
    ensures var s := GroupCreation(d, g);
      SerialsAhead(s.db) && s.db.roles == d.roles
      && forall k :: k in d.groups ==> k in s.db.groups && s.db.groups[k] == d.groups[k]
  {
  }

  /** A role creation keeps all groups and earlier roles, and the serials ahead. */
  lemma RoleCreationFrame(d: Db, r: Role)
    requires SerialsAhead(d)
    ensures var s := RoleCreation(d, r);
      SerialsAhead(s.db) && s.db.groups == d.groups
      && forall k :: k in d.roles ==> k in s.db.roles && s.db.roles[k] == d.roles[k]
  {
  }

  /** A name found once stays found while the rows holding it stay. */
  lemma GroupFoundLater(d: Db, e: Db, n: RoleGroupName)
    requires GroupWithName(d, n).Some?
    requires forall k :: k in d.groups ==> k in e.groups && e.groups[k] == d.groups[k]
    ensures GroupWithName(e, n).Some?
  {
    var k := GroupWithName(d, n).value;
    assert k in e.groups && e.groups[k].name == n;
  }

  lemma RoleFoundLater(d: Db, e: Db, n: RoleName)
    requires RoleWithName(d, n).Some?
    requires forall k :: k in d.roles ==> k in e.roles && e.roles[k] == d.roles[k]
    ensures RoleWithName(e, n).Some?
  {
    var k := RoleWithName(d, n).value;
    assert k in e.roles && e.roles[k].name == n;
  }

  /** Successful group seeding leaves the four group names present, and earlier rows in place. */
  lemma SeedGroupsPresent(d: Db)
    requires SerialsAhead(d)
    ensures var s := SeedGroups(d);
      SerialsAhead(s.db) && (forall k :: k in d.roles ==> k in s.db.roles && s.db.roles[k] == d.roles[k])
      && (s.result.Some? ==>
            GroupWithName(s.db, Administrators).Some? && GroupWithName(s.db, Users).Some?
            && GroupWithName(s.db, Guests).Some? && GroupWithName(s.db, Chats).Some?)
  {
    var a := GroupCreation(d, SeedGroup(Administrators));
    GroupCreationFrame(d, SeedGroup(Administrators));
    if a.result.Some? {
      var u := GroupCreation(a.db, SeedGroup(Users));
      GroupCreationFrame(a.db, SeedGroup(Users));
      if u.result.Some? {
        var g := GroupCreation(u.db, SeedGroup(Guests));
        GroupCreationFrame(u.db, SeedGroup(Guests));
        if g.result.Some? {
          var c := GroupCreation(g.db, SeedGroup(Chats));
          GroupCreationFrame(g.db, SeedGroup(Chats));
          if c.result.Some? {
            GroupFoundLater(a.db, c.db, Administrators);
            GroupFoundLater(u.db, c.db, Users);
            GroupFoundLater(g.db, c.db, Guests);
          }
        }
      }
    }
  }

  /** Successful role creation leaves every created name present, with every group in place. */
  lemma {:induction false} CreateRolesPresent(d: Db, rs: seq<Role>)
    requires SerialsAhead(d)
    ensures var s := CreateRoles(d, rs);
      SerialsAhead(s.db) && s.db.groups == d.groups
      && (forall k :: k in d.roles ==> k in s.db.roles && s.db.roles[k] == d.roles[k])
      && (s.result ==> forall i :: 0 <= i < |rs| ==> RoleWithName(s.db, rs[i].name).Some?)
    decreases |rs|
  {
    if rs != [] {
      var first := RoleCreation(d, rs[0]);
      RoleCreationFrame(d, rs[0]);
      if first.result.Some? {
        var tail := rs[1..];
        CreateRolesPresent(first.db, tail);
        var s := CreateRoles(first.db, tail);
        RoleFoundLater(first.db, s.db, rs[0].name);
        assert forall i :: 1 <= i < |rs| ==> rs[i] == tail[i - 1];
      }
    }
  }

  /** Successful role seeding leaves the six role names present, with every group in place. */
  lemma SeedRolesPresent(d: Db, ids: GroupIds)
    requires SerialsAhead(d)
    ensures var s := SeedRoles(d, ids);
      s.db.groups == d.groups
      && (s.result ==>
            RoleWithName(s.db, GlobalAdmin).Some? && RoleWithName(s.db, ContentAdmin).Some?
            && RoleWithName(s.db, Owner).Some? && RoleWithName(s.db, User).Some?
            && RoleWithName(s.db, Guest).Some? && RoleWithName(s.db, Chat).Some?)
  {
    var rs := RoleSeeds(ids);
    CreateRolesPresent(d, rs);
    var s := CreateRoles(d, rs);
    if s.result {
      AllRoleNamesPresent(s.db, ids, rs);
    }
  }

  lemma AllRoleNamesPresent(db: Db, ids: GroupIds, rs: seq<Role>)
    requires rs == RoleSeeds(ids)
    requires forall i :: 0 <= i < |rs| ==> RoleWithName(db, rs[i].name).Some?
    ensures RoleWithName(db, GlobalAdmin).Some? && RoleWithName(db, ContentAdmin).Some?
            && RoleWithName(db, Owner).Some? && RoleWithName(db, User).Some?
            && RoleWithName(db, Guest).Some? && RoleWithName(db, Chat).Some?
  {
    assert rs[0].name == GlobalAdmin && rs[1].name == ContentAdmin && rs[2].name == Owner;
    assert rs[3].name == User && rs[4].name == Guest && rs[5].name == Chat;
  }

  /** A successful seeding leaves every seeded name present. */
  lemma InitializationSeeds(d: Db)
    requires SerialsAhead(d)
    ensures var s := Initialization(d); s.result ==> SeedsPresent(s.db)
  {
    var g := SeedGroups(d);
    SeedGroupsPresent(d);
    if g.result.Some? {
      SeedRolesPresent(g.db, g.result.value);
      var s := SeedRoles(g.db, g.result.value);
      if s.result {
        GroupFoundLater(g.db, s.db, Administrators);
      }
    }
  }

  /** Seeding twice: the second run finds every name and leaves groups and roles as they are. */
  lemma InitializationIdempotent(d: Db)
    requires SerialsAhead(d)
    ensures var s := Initialization(d); s.result ==> Initialization(s.db) == Step(s.db, true)
  {
    InitializationSeeds(d);
    var s := Initialization(d);
    if s.result {
      SeededInitializationIsNoop(s.db);
    }
  }

  // ---------------------------------------------------------------------------------------------
  // The invariants seeding keeps

  /** Creating a group keeps every table invariant: a new name is free and its texts fit. */
  lemma GroupCreationKeepsValid(d: Db, g: RoleGroup)
    requires Valid(d)
    ensures Valid(GroupCreation(d, g).db)
  {
    if GroupWithName(d, g.name).None? && CanInsertGroup(d, g) {
      InsertGroupValid(d, g);
    }
  }

  lemma InsertGroupValid(d: Db, g: RoleGroup)
    requires Valid(d) && CanInsertGroup(d, g)
    ensures Valid(InsertGroup(d, g))
  {
    InsertGroupIds(d, g);
    InsertGroupKeys(d, g);
    InsertGroupUnique(d, g);
    InsertGroupFits(d, g);
  }

  lemma InsertGroupIds(d: Db, g: RoleGroup)
    requires IdsInRange(d)
    ensures IdsInRange(InsertGroup(d, g))
  {
  }

  lemma InsertGroupFits(d: Db, g: RoleGroup)
    requires RowsFit(d) && GroupFits(g)
    ensures RowsFit(InsertGroup(d, g))
  {
  }

  lemma InsertGroupKeys(d: Db, g: RoleGroup)
    requires ForeignKeys(d)
    ensures ForeignKeys(InsertGroup(d, g))
  {
    var r := InsertGroup(d, g);
    forall a | a in r.associations ensures RefsExist(r, r.associations[a]) {
      assert RefsExist(d, d.associations[a]);
    }
  }

  lemma InsertGroupUnique(d: Db, g: RoleGroup)
    requires UniqueColumns(d) && IdsInRange(d) && GroupWithName(d, g.name).None?
    ensures UniqueColumns(InsertGroup(d, g))
  {
    var r := InsertGroup(d, g);
    assert d.nextGroup !in d.groups;
    forall x, y | x in r.groups && y in r.groups && r.groups[x].name == r.groups[y].name
      ensures x == y
    {
      if x != d.nextGroup && y != d.nextGroup {
        assert d.groups[x].name == d.groups[y].name;
      }
    }
  }

  /** Creating a role keeps every table invariant: a new name is free and its group exists. */
  lemma RoleCreationKeepsValid(d: Db, r: Role)
    requires Valid(d)
    ensures Valid(RoleCreation(d, r).db)
  {
    if RoleWithName(d, r.name).None? && CanInsertRole(d, r) {
      InsertRoleValid(d, r);
    }
  }

  lemma InsertRoleValid(d: Db, r: Role)
    requires Valid(d) && CanInsertRole(d, r)
    ensures Valid(InsertRole(d, r))
  {
    InsertRoleIds(d, r);
    InsertRoleKeys(d, r);
    InsertRoleUnique(d, r);
    InsertRoleFits(d, r);
  }

  lemma InsertRoleIds(d: Db, r: Role)
    requires IdsInRange(d)
    ensures IdsInRange(InsertRole(d, r))
  {
  }

  lemma InsertRoleFits(d: Db, r: Role)
    requires RowsFit(d) && RoleFits(r)
    ensures RowsFit(InsertRole(d, r))
  {
  }

  lemma InsertRoleKeys(d: Db, r: Role)
    requires ForeignKeys(d) && (r.group.Some? ==> r.group.value in d.groups)
    ensures ForeignKeys(InsertRole(d, r))
  {
    var e := InsertRole(d, r);
    forall a | a in e.associations ensures RefsExist(e, e.associations[a]) {
      assert RefsExist(d, d.associations[a]);
    }
  }

  lemma InsertRoleUnique(d: Db, r: Role)
    requires UniqueColumns(d) && IdsInRange(d) && RoleWithName(d, r.name).None?
    ensures UniqueColumns(InsertRole(d, r))
  {
    var e := InsertRole(d, r);
    assert d.nextRole !in d.roles;
    forall x, y | x in e.roles && y in e.roles && e.roles[x].name == e.roles[y].name
      ensures x == y
    {
      if x != d.nextRole && y != d.nextRole {
        assert d.roles[x].name == d.roles[y].name;
      }
    }
  }

  lemma SeedGroupsKeepsValid(d: Db)
    requires Valid(d)
    ensures Valid(SeedGroups(d).db)
  {
    var admins := GroupCreation(d, SeedGroup(Administrators));
    GroupCreationKeepsValid(d, SeedGroup(Administrators));
    var users := GroupCreation(admins.db, SeedGroup(Users));
    GroupCreationKeepsValid(admins.db, SeedGroup(Users));
    var guests := GroupCreation(users.db, SeedGroup(Guests));
    GroupCreationKeepsValid(users.db, SeedGroup(Guests));
    GroupCreationKeepsValid(guests.db, SeedGroup(Chats));
  }

  lemma {:induction false} CreateRolesKeepsValid(d: Db, rs: seq<Role>)
    requires Valid(d)
    ensures Valid(CreateRoles(d, rs).db)
    decreases |rs|
  {
    if rs != [] {
      RoleCreationKeepsValid(d, rs[0]);
      var first := RoleCreation(d, rs[0]);
      if first.result.Some? {
        CreateRolesKeepsValid(first.db, rs[1..]);
      }
    }
  }

  /** `init_roles` keeps every table invariant, whether it completes or stops at an error. */
  lemma InitializationKeepsValid(d: Db)
    requires Valid(d)
    ensures Valid(Initialization(d).db)
  {
    SeedGroupsKeepsValid(d);
    var groups := SeedGroups(d);
    if groups.result.Some? {
      CreateRolesKeepsValid(groups.db, RoleSeeds(groups.result.value));
    }
  }

  // ---------------------------------------------------------------------------------------------
  // The service

  /** `UserManagementService`: role and group creation over one database session. */
  class UserManagementService {
    const dbSession: Store

    constructor (dbSession: Store)
      ensures this.dbSession == dbSession
    {
      this.dbSession := dbSession;
    }

    method CreateRoleGroup(g: RoleGroup) returns (r: Option<nat>)
      requires dbSession.Valid()
      modifies dbSession
      ensures var s := GroupCreation(old(dbSession.State()), g); dbSession.State() == s.db && r == s.result
      ensures dbSession.Valid()
    {
      GroupCreationKeepsValid(dbSession.State(), g);
      var existing := GroupWithName(dbSession.State(), g.name);
      if existing.Some? {
        return existing;
      }
      var savepoint := dbSession.State();
      var ok, id := dbSession.InsertGroup(g);
      if !ok {
        dbSession.Rollback(savepoint);
        return None;
      }
      return Some(id);
    }

    method CreateRole(role: Role) returns (r: Option<nat>)
      requires dbSession.Valid()
      modifies dbSession
      ensures var s := RoleCreation(old(dbSession.State()), role); dbSession.State() == s.db && r == s.result
      ensures dbSession.Valid()
    {
      RoleCreationKeepsValid(dbSession.State(), role);
      var existing := RoleWithName(dbSession.State(), role.name);
      if existing.Some? {
        return existing;
      }
      var savepoint := dbSession.State();
      var ok, id := dbSession.InsertRole(role);
      if !ok {
        dbSession.Rollback(savepoint);
        return None;
      }
      return Some(id);
    }
  }

  /** The first part of `init_roles`: the four groups through the service. */
  method CreateSeedGroups(service: UserManagementService) returns (ids: Option<GroupIds>)
    requires service.dbSession.Valid()
    modifies service.dbSession
    ensures var s := SeedGroups(old(service.dbSession.State())); service.dbSession.State() == s.db && ids == s.result
    ensures service.dbSession.Valid()
  {
    var admins := service.CreateRoleGroup(SeedGroup(Administrators));
    if admins.None? { return None; }
    var users := service.CreateRoleGroup(SeedGroup(Users));
    if users.None? { return None; }
    var guests := service.CreateRoleGroup(SeedGroup(Guests));
    if guests.None? { return None; }
    var chats := service.CreateRoleGroup(SeedGroup(Chats));
    if chats.None? { return None; }
    return Some(GroupIds(admins.value, users.value, guests.value, chats.value));
  }

  /** Creating a list of roles is creating its first `k`, then, if they all succeed, the rest. */
  lemma {:induction false} CreateRolesSplit(d: Db, rs: seq<Role>, k: nat)
    requires k <= |rs|
    ensures CreateRoles(d, rs)
      == var s := CreateRoles(d, rs[..k]); if s.result then CreateRoles(s.db, rs[k..]) else s
    decreases k
  {
    if k == 0 {
      assert rs[0..] == rs;
    } else {
      var first := RoleCreation(d, rs[0]);
      assert rs[..k][0] == rs[0] && rs[..k][1..] == rs[1..][..k - 1];
      if first.result.Some? {
        CreateRolesSplit(first.db, rs[1..], k - 1);
        assert rs[1..][k - 1..] == rs[k..];
      }
    }
  }

  /**
   * One more role after a prefix that succeeded: the prefix grows by that one creation, and a
   * failure there ends the whole run.
   */
  lemma CreateRolesStep(d: Db, rs: seq<Role>, i: nat, e: Db)
    requires i < |rs| && CreateRoles(d, rs[..i]) == Step(e, true)
    ensures var f := RoleCreation(e, rs[i]);
      CreateRoles(d, rs[..i + 1]) == Step(f.db, f.result.Some?)
      && (f.result.None? ==> CreateRoles(d, rs) == Step(f.db, false))
  {
    CreateRolesSplit(d, rs[..i + 1], i);
    assert rs[..i + 1][..i] == rs[..i] && rs[..i + 1][i..] == [rs[i]];
    assert [rs[i]][1..] == [];
    CreateRolesSplit(d, rs, i + 1);
  }

  /** One `create_role` call: the `i`-th role of `rs`, after the first `i` succeeded. */
  method CreateSeedRole(service: UserManagementService, ghost d0: Db, rs: seq<Role>, i: nat)
    returns (created: bool)
    requires i < |rs| && CreateRoles(d0, rs[..i]) == Step(service.dbSession.State(), true)
    requires service.dbSession.Valid()
    modifies service.dbSession
    ensures CreateRoles(d0, rs[..i + 1]) == Step(service.dbSession.State(), created)
    ensures !created ==> CreateRoles(d0, rs) == Step(service.dbSession.State(), false)
    ensures service.dbSession.Valid()
  {
    CreateRolesStep(d0, rs, i, service.dbSession.State());
    var id := service.CreateRole(rs[i]);
    created := id.Some?;
  }

  /** `create_role` for each of `rs` in turn, stopping at the first error. */
  method CreateRoleList(service: UserManagementService, rs: seq<Role>) returns (ok: bool)
    requires service.dbSession.Valid()
    modifies service.dbSession
    ensures var s := CreateRoles(old(service.dbSession.State()), rs); service.dbSession.State() == s.db && ok == s.result
    ensures service.dbSession.Valid()
  {
    ghost var d0 := service.dbSession.State();
    assert rs[..0] == [];
    var i := 0;
    while i < |rs|
      invariant i <= |rs|
      invariant CreateRoles(d0, rs[..i]) == Step(service.dbSession.State(), true)
      invariant service.dbSession.Valid()
    {
      ok := CreateSeedRole(service, d0, rs, i);
      if !ok {
        return;
      }
      i := i + 1;
    }
    assert rs[..i] == rs;
    ok := true;
  }

  /**
   * The second part of `init_roles`: one `create_role` call per seeded role, in the script's order
   * (`ROLE_ORDER`), each in its group.
   */
  method CreateSeedRoles(service: UserManagementService, ids: GroupIds) returns (ok: bool)
    requires service.dbSession.Valid()
    modifies service.dbSession
    ensures var s := SeedRoles(old(service.dbSession.State()), ids); service.dbSession.State() == s.db && ok == s.result
    ensures service.dbSession.Valid()
  {
    ok := CreateRoleList(service, RoleSeeds(ids));
  }

  /** `init_roles`, on an open session; `ok` is false where the script re-raises. */
  method InitRoles(st: Store) returns (ok: bool)
    requires st.Valid()
    modifies st
    ensures var s := Initialization(old(st.State())); st.State() == s.db && ok == s.result
    ensures st.Valid()
  {
    var service := new UserManagementService(st);
    var ids := CreateSeedGroups(service);
    if ids.None? { return false; }
    ok := CreateSeedRoles(service, ids.value);
  }
}
