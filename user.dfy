/** backend/auth/core/models/user/user.py: the website identity row. */
module Users {
  import opened Base

  /** `email` and `password` are String(150); `email` is unique. */
  const EMAIL_LEN := 150
  const PASSWORD_LEN := 150

  /** A row of `website_users`; `password` holds the digest, never the secret. */
  datatype WebSiteUser = WebSiteUser(
    email: string, password: string, registerDate: Time, activityDate: Time, emailConfirm: bool)

  predicate ColumnsFit(u: WebSiteUser)
  {
    |u.email| <= EMAIL_LEN && |u.password| <= PASSWORD_LEN
  }

  /** A user as registration inserts it: `email_confirm` takes its default `False`. */
  function NewWebSiteUser(email: string, digest: string, now: Time): (u: WebSiteUser)
    ensures u.email == email && u.password == digest && !u.emailConfirm
    ensures u.registerDate == now && u.activityDate == now
  {
    WebSiteUser(email, digest, now, now, false)
  }
}
