/** backend/auth/app/api_site_v1/schemas.py: the records the service hands back, as plain values. */
module Schemas {
  import opened Wrappers
  import opened Base

  /** One element of a profile's `cookie_data` list: `{user_id, name, custom_data}`. */
  datatype CookiesData = CookiesData(userId: Option<int>, name: string, customData: string)

  /** The answer of a session refresh: `{'new_session_id': ..., 'session': ...}`. */
  datatype CookiesUpdate = CookiesUpdate(newSessionId: string, session: CookiesData)

  /** The body of the session endpoint. */
  datatype CookiesResponse = CookiesResponse(user: CookiesData, message: string, newSessionId: string)

  datatype UserRegistered = UserRegistered(email: string, roleId: int)

  /** `UserLoginRegistered` extends `UserRegistered` with the stored password digest. */
  datatype UserLoginRegistered = UserLoginRegistered(email: string, roleId: int, password: string)
  {
    function AsRegistered(): UserRegistered
    {
      UserRegistered(email, roleId)
    }
  }

  datatype UserChangePassword = UserChangePassword(email: string)

  datatype AuthInfo = AuthInfo(accessToken: string, refreshToken: string, tokenType: string)

  datatype PingAuthInfo = PingAuthInfo(
    id: nat, email: string, emailConfirm: bool, role: string, gRoles: string,
    avatar: Option<string>, activityDate: Time)
}
