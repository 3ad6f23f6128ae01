/**
 * backend/auth/core/models/role/role.py and role_group.py: the closed role and role-group
 * enumerations and their rows.
 */
module Roles {
  import opened Wrappers

  datatype RoleName = Chat | Guest | Owner | User | GlobalAdmin | ContentAdmin
  {
    /** The enum's stored value (`RoleEnum.X.value`). */
    function Value(): string
    {
      match this
      case Chat => "chat"
      case Guest => "guest"
      case Owner => "owner"
      case User => "user"
      case GlobalAdmin => "global_admin"
      case ContentAdmin => "content_admin"
    }
  }

  datatype RoleGroupName = Chats | Guests | Users | Administrators
  {
    function Value(): string
    {
      match this
      case Chats => "chats"
      case Guests => "guests"
      case Users => "users"
      case Administrators => "administrators"
    }
  }

  /** `title_*` columns are String(32), `description_*` columns String(255). */
  const TITLE_LEN := 32
  const DESCRIPTION_LEN := 255

  datatype RoleGroup = RoleGroup(
    name: RoleGroupName, titleRu: string, descriptionRu: string, titleEn: string, descriptionEn: string)

  /** A role row; `group` is the id its `roles_groups_associations` row points to, if any. */
  datatype Role = Role(
    name: RoleName, titleRu: string, descriptionRu: string, titleEn: string, descriptionEn: string,
    group: Option<nat>)

  predicate TextsFit(titleRu: string, descriptionRu: string, titleEn: string, descriptionEn: string)
  {
    |titleRu| <= TITLE_LEN && |titleEn| <= TITLE_LEN
    && |descriptionRu| <= DESCRIPTION_LEN && |descriptionEn| <= DESCRIPTION_LEN
  }

  predicate GroupFits(g: RoleGroup)
  {
    TextsFit(g.titleRu, g.descriptionRu, g.titleEn, g.descriptionEn)
  }

  predicate RoleFits(r: Role)
  {
    TextsFit(r.titleRu, r.descriptionRu, r.titleEn, r.descriptionEn)
  }
}
