/**
 * backend/auth/core/models/user/user_association.py: the row binding a profile and a role to at
 * most one website identity and one web-app identity, and its three partial unique indexes.
 */
module Associations {
  import opened Wrappers

  /** `role_id` and `profile_id` are non-null foreign keys; the two identity references are optional. */
  datatype Association = Association(
    roleId: nat, profileId: nat, userWebsiteId: Option<nat>, userWebappId: Option<nat>)

  /** The three partial indexes, by the rows their `postgresql_where` selects. */
  datatype PartialIndex =
    | BothUsers     // idx_unique_user_associations: both identity references present
    | WebsiteUsers  // idx_website_unique_user_associations: no web-app reference
    | BotUsers      // idx_bot_unique_user_associations: no website reference

  predicate Covers(ix: PartialIndex, a: Association)
  {
    match ix
    case BothUsers => a.userWebsiteId.Some? && a.userWebappId.Some?
    case WebsiteUsers => a.userWebappId.None?
    case BotUsers => a.userWebsiteId.None?
  }

  /**
   * The intended uniqueness of an index: no two covered rows carry the same
   * (role, profile, website user, web-app user) tuple, an absent reference matching an absent one.
   */
  ghost predicate UniqueIndex(m: map<nat, Association>, ix: PartialIndex)
  {
    forall a, b :: a in m && b in m && a != b && Covers(ix, m[a]) && Covers(ix, m[b]) ==> m[a] != m[b]
  }

  /**
   * Two tuples collide in a PostgreSQL unique index only when every column is non-null and equal:
   * by default NULLs are distinct from each other.
   */
  predicate SqlCollide(x: Association, y: Association)
  {
    x.roleId == y.roleId && x.profileId == y.profileId
    && x.userWebsiteId.Some? && x.userWebsiteId == y.userWebsiteId
    && x.userWebappId.Some? && x.userWebappId == y.userWebappId
  }

  /** The uniqueness PostgreSQL enforces for an index as declared. */
  ghost predicate SqlUniqueIndex(m: map<nat, Association>, ix: PartialIndex)
  {
    forall a, b :: a in m && b in m && a != b && Covers(ix, m[a]) && Covers(ix, m[b]) ==> !SqlCollide(m[a], m[b])
  }

  /** A profile has at most one association (`uselist=False`; not a database constraint). */
  ghost predicate OneAssociationPerProfile(m: map<nat, Association>)
  {
    forall a, b :: a in m && b in m && m[a].profileId == m[b].profileId ==> a == b
  }

  /** A website identity has at most one association (`website_user_association` is scalar). */
  ghost predicate OneAssociationPerUser(m: map<nat, Association>)
  {
    forall a, b :: a in m && b in m && m[a].userWebsiteId.Some? && m[a].userWebsiteId == m[b].userWebsiteId ==> a == b
  }

  /**
   * Adding a row keeps the scalar bindings when no row has its profile and none has its website
   * user.
   */
  lemma {:induction false} AddKeepsScalar(m: map<nat, Association>, id: nat, x: Association)
    requires OneAssociationPerProfile(m) && OneAssociationPerUser(m) && id !in m
    requires forall k :: k in m ==> m[k].profileId != x.profileId
    requires x.userWebsiteId.Some? ==> forall k :: k in m ==> m[k].userWebsiteId != x.userWebsiteId
    ensures OneAssociationPerProfile(m[id := x]) && OneAssociationPerUser(m[id := x])
  {
    var r := m[id := x];
    forall a, b | a in r && b in r && r[a].profileId == r[b].profileId
      ensures a == b
    {
      if a != id && b != id {
        assert m[a].profileId == m[b].profileId;
      }
    }
    forall a, b | a in r && b in r && r[a].userWebsiteId.Some? && r[a].userWebsiteId == r[b].userWebsiteId
      ensures a == b
    {
      if a != id && b != id {
        assert m[a].userWebsiteId == m[b].userWebsiteId;
      }
    }
  }

  /**
   * Rewriting a row in place keeps the scalar bindings when it keeps its profile and any website
   * user it gains is bound nowhere else.
   */
  lemma {:induction false} RewriteKeepsScalar(m: map<nat, Association>, id: nat, x: Association)
    requires OneAssociationPerProfile(m) && OneAssociationPerUser(m) && id in m
    requires x.profileId == m[id].profileId
    requires x.userWebsiteId.Some? && x.userWebsiteId != m[id].userWebsiteId ==>
               forall k :: k in m ==> m[k].userWebsiteId != x.userWebsiteId
    ensures OneAssociationPerProfile(m[id := x]) && OneAssociationPerUser(m[id := x])
  {
    var r := m[id := x];
    forall a, b | a in r && b in r && r[a].profileId == r[b].profileId
      ensures a == b
    {
      assert m[a].profileId == m[b].profileId;
    }
    forall a, b | a in r && b in r && r[a].userWebsiteId.Some? && r[a].userWebsiteId == r[b].userWebsiteId
      ensures a == b
    {
      if a != id && b != id {
        assert m[a].userWebsiteId == m[b].userWebsiteId;
      }
    }
  }

  /** The one-to-one profile binding makes all three intended indexes hold. */
  lemma OneAssociationPerProfileGivesUniqueIndexes(m: map<nat, Association>)
    requires OneAssociationPerProfile(m)
    ensures UniqueIndex(m, BothUsers) && UniqueIndex(m, WebsiteUsers) && UniqueIndex(m, BotUsers)
  {
  }

  /** The intended uniqueness is at least as strict as the declared one; on BothUsers they agree. */
  lemma UniqueIndexRefinesSql(m: map<nat, Association>, ix: PartialIndex)
    ensures UniqueIndex(m, ix) ==> SqlUniqueIndex(m, ix)
    ensures UniqueIndex(m, BothUsers) <==> SqlUniqueIndex(m, BothUsers)
  {
    if SqlUniqueIndex(m, BothUsers) {
      forall a, b | a in m && b in m && a != b && Covers(BothUsers, m[a]) && Covers(BothUsers, m[b])
        ensures m[a] != m[b]
      {
        assert !SqlCollide(m[a], m[b]);
      }
    }
  }

  /**
   * As declared, the WebsiteUsers and BotUsers indexes hold of every table: each row they cover has
   * a NULL column, and NULLs never collide.
   */
  lemma SqlPartialIndexesNeverReject(m: map<nat, Association>)
    ensures SqlUniqueIndex(m, WebsiteUsers) && SqlUniqueIndex(m, BotUsers)
  {
  }

  /** Two identical guest rows for one profile: the declared indexes accept them, the intended ones do not. */
  lemma DuplicateGuestRowsPassSqlIndexes()
    ensures var m := map[1 := Association(5, 7, None, None), 2 := Association(5, 7, None, None)];
      SqlUniqueIndex(m, WebsiteUsers) && SqlUniqueIndex(m, BotUsers)
      && !UniqueIndex(m, WebsiteUsers) && !UniqueIndex(m, BotUsers) && !OneAssociationPerProfile(m)
  {
    var m := map[1 := Association(5, 7, None, None), 2 := Association(5, 7, None, None)];
    assert Covers(WebsiteUsers, m[1]) && Covers(WebsiteUsers, m[2]) && m[1] == m[2];
    SqlPartialIndexesNeverReject(m);
  }
}
