/**
 * The database session the service writes through: one field per table, primitive writes that
 * the database either accepts or rejects, and savepoint/rollback as restoration of a whole state.
 */
module Session {
  import opened Wrappers
  import opened Base
  import opened Tables
  import Users
  import Profiles
  import Associations
  import Roles

  /** A new role is accepted when its name is free, its texts fit and its group, if any, exists. */
  predicate CanInsertRole(d: Db, r: Roles.Role)
  {
    RoleWithName(d, r.name).None? && Roles.RoleFits(r) && (r.group.Some? ==> r.group.value in d.groups)
  }

  /** A new role group is accepted when its name is free and its texts fit. */
  predicate CanInsertGroup(d: Db, g: Roles.RoleGroup)
  {
    GroupWithName(d, g.name).None? && Roles.GroupFits(g)
  }

  class Store {
    var users: map<nat, Users.WebSiteUser>
    var webappUsers: set<nat>
    var profiles: map<nat, Profiles.ProfileRow>
    var associations: map<nat, Associations.Association>
    var roles: map<nat, Roles.Role>
    var groups: map<nat, Roles.RoleGroup>
    var nextUser: nat
    var nextProfile: nat
    var nextAssociation: nat
    var nextRole: nat
    var nextGroup: nat

    /** The committed contents of the database. */
    function State(): Db
      reads this
    {
      Db(users, webappUsers, profiles, associations, roles, groups,
         nextUser, nextProfile, nextAssociation, nextRole, nextGroup)
    }

    ghost predicate Valid()
      reads this
    {
      Tables.Valid(State())
    }

    /** A freshly migrated database with no rows. */
    constructor ()
      ensures State() == EmptyDb() && Valid()
    {
      users, webappUsers, profiles, associations, roles, groups := map[], {}, map[], map[], map[], map[];
      nextUser, nextProfile, nextAssociation, nextRole, nextGroup := 1, 1, 1, 1, 1;
    }

    /** `rollback` to a savepoint taken as `State()`: every table returns to that state. */
    method Rollback(savepoint: Db)
      modifies this
      ensures State() == savepoint
    {
      users, webappUsers, profiles, associations := savepoint.users, savepoint.webappUsers, savepoint.profiles, savepoint.associations;
      roles, groups := savepoint.roles, savepoint.groups;
      nextUser, nextProfile, nextAssociation := savepoint.nextUser, savepoint.nextProfile, savepoint.nextAssociation;
      nextRole, nextGroup := savepoint.nextRole, savepoint.nextGroup;
    }

    method InsertUser(u: Users.WebSiteUser) returns (ok: bool, id: nat)
      modifies this
      ensures id == old(State()).nextUser && ok == CanInsertUser(old(State()), u)
      ensures State() == if ok then Tables.InsertUser(old(State()), u) else old(State())
    {
      id := nextUser;
      ok := CanInsertUser(State(), u);
      if ok {
        users := users[nextUser := u];
        nextUser := nextUser + 1;
      }
    }

    method InsertProfile(p: Profiles.ProfileRow) returns (ok: bool, id: nat)
      modifies this
      ensures id == old(State()).nextProfile && ok == CanInsertProfile(old(State()), p)
      ensures State() == if ok then Tables.InsertProfile(old(State()), p) else old(State())
    {
      id := nextProfile;
      ok := CanInsertProfile(State(), p);
      if ok {
        profiles := profiles[nextProfile := p];
        nextProfile := nextProfile + 1;
      }
    }

    /** The service only inserts associations whose references it has just read or written. */
    method InsertAssociation(a: Associations.Association) returns (id: nat)
      modifies this
      ensures id == old(State()).nextAssociation
      ensures State() == Tables.InsertAssociation(old(State()), a)
    {
      id := nextAssociation;
      associations := associations[nextAssociation := a];
      nextAssociation := nextAssociation + 1;
    }

    method InsertRole(r: Roles.Role) returns (ok: bool, id: nat)
      modifies this
      ensures id == old(State()).nextRole && ok == CanInsertRole(old(State()), r)
      ensures State() == if ok then Tables.InsertRole(old(State()), r) else old(State())
    {
      id := nextRole;
      ok := CanInsertRole(State(), r);
      if ok {
        roles := roles[nextRole := r];
        nextRole := nextRole + 1;
      }
    }

    method InsertGroup(g: Roles.RoleGroup) returns (ok: bool, id: nat)
      modifies this
      ensures id == old(State()).nextGroup && ok == CanInsertGroup(old(State()), g)
      ensures State() == if ok then Tables.InsertGroup(old(State()), g) else old(State())
    {
      id := nextGroup;
      ok := CanInsertGroup(State(), g);
      if ok {
        groups := groups[nextGroup := g];
        nextGroup := nextGroup + 1;
      }
    }

    /** `UPDATE website_users ... WHERE id = uid`: accepted when the new row fits its columns. */
    method UpdateUser(uid: nat, u: Users.WebSiteUser) returns (ok: bool)
      requires uid in users
      modifies this
      ensures ok == Users.ColumnsFit(u)
      ensures State() == if ok then old(State()).(users := old(users)[uid := u]) else old(State())
    {
      ok := Users.ColumnsFit(u);
      if ok {
        users := users[uid := u];
      }
    }

    /** `UPDATE users_associations ... WHERE id = aid`. */
    method UpdateAssociation(aid: nat, a: Associations.Association)
      requires aid in associations
      modifies this
      ensures State() == old(State()).(associations := old(associations)[aid := a])
    {
      associations := associations[aid := a];
    }

    /** `session.delete(profile)`: the profile goes, and its associations with it. */
    method DeleteProfile(pid: nat)
      modifies this
      ensures State() == Tables.DeleteProfile(old(State()), pid)
    {
      profiles := profiles - {pid};
      associations := map a | a in associations && associations[a].profileId != pid :: associations[a];
    }

    /**
     * Flushing a modified `Profile` object: the `before_update` hook runs on it, then the row is
     * written; the write fails when the row no longer exists or a column does not fit.
     */
    method FlushProfile(pid: nat, p: Profiles.Profile, now: Time) returns (ok: bool)
      modifies this, p
      ensures p.Row() == Profiles.AfterUpdateHook(old(p.Row()), now)
      ensures ok == (pid in old(profiles) && Profiles.ColumnsFit(p.Row()))
      ensures State() == if ok then old(State()).(profiles := old(profiles)[pid := p.Row()]) else old(State())
    {
      Profiles.BeforeUpdateListener(p, now);
      var row := p.Row();
      ok := pid in profiles && Profiles.ColumnsFit(row);
      if ok {
        profiles := profiles[pid := row];
      }
    }
  }
}
