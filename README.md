# Site authentication backend of ingibcontrol, modelled in Dafny

The site authentication service of ingibcontrol keeps four kinds of rows:
- **Website users:** an email, a bcrypt password digest, activity dates and an email-confirmed flag.
- **Profiles:** a 32-character session key, a cookie-data list, the last ip and user agent, and a visit history.
- **Roles and role groups.**
- **User associations:** each ties one profile to a role and, optionally, to a website user or a bot user.

An anonymous visitor first receives a *guest session*: a profile with a fresh key, bound to the `guest` role. Registering with that session's key adopts the guest profile; registering without one creates a new profile. Logging in touches the user's profile and merges a stray guest session into it. Access and refresh tokens are signed claims `{sub: email, rol: role id}` with an expiry. The endpoint dependencies use them to resolve the current user, their data, or an administrator (role id 1). A maintenance script seeds the four role groups and the six roles, and is idempotent.

The model works in three layers.
- **State.** The committed state is a pure value `Tables.Db`: one map per table, plus an id counter per table. `Tables.Valid` is the database's own invariant:
  - ids in range;
  - foreign keys exist;
  - unique emails, keys and names;
  - column lengths;
  - at most one association per profile and per website user.
- **Operations.** Every service operation is first a pure function from a state to a `Step(db, result)`: the state that gets committed and the value returned (`AuthSpec`, `InitRoles`, `ViewSpec`).
- **Mutable store.** The SQLAlchemy session is the class `Session.Store`, with one field per table and savepoint rollback. The service methods (`AuthService`), the endpoints (`Views`, `Dependencies.ConfirmEmailBySlug`) and the seeding script (`InitRoles`) are methods on a store. Each is proved to leave exactly the state its pure function describes, and to return its value. Each also requires `Store.Valid()` (the store's state satisfies `Tables.Valid`) and keeps it.

The properties are lemmas over the pure functions (`AuthProperties`, `ViewSpec`, `InitRoles`):
- every operation, seeding included, keeps `Valid`;
- every user stays bound to an association and every profile keeps its association (`Keeps`);
- what one operation writes, the next one reads back;
- registration and password change are followed by a successful login;
- a token issued for a user is accepted until it expires and refused afterwards;
- role seeding is idempotent.

The ORM object `Profile` is a class whose `AddHistory` loop updates its history in place. It is proved against `Profiles.RecordVisit`. The `before_update` hook also runs on a profile created in the same transaction: the association built with `profile=profile` after the flush dirties it through the back-reference, so a new guest or registration profile is committed with one history entry, its own visit.

Where the code and its declarations disagree, the model follows the code:
- `/register` is declared with status 201, but it returns a `JSONResponse`, whose status is 200. The model answers 200.

One exception: `user_registration` as written can rebind a session that another user owns (the first row of "## Findings"). `AuthSpec.UserRegistrationAsWritten` models that code. The store method `AuthService.UserRegistration` and the `/register` endpoint (`ViewSpec.Registration`, `Views.Registration`) run the corrected `AuthSpec.UserRegistration`, which adopts only an unclaimed session.

## Model

| member | source | states |
|---|---|---|
| Tables.EmptyDb | backend/auth/core/models/user/user_association.py:12-19 | the empty database has no rows in any table |
| Tables.EmptyDbValid | backend/auth/core/models/user/user_association.py:12-56 | the empty database satisfies every table constraint |
| Tables.ValidGivesUniqueIndexes | backend/auth/core/models/user/user_association.py:26-56 | a valid database satisfies the three unique indexes, both as intended and under SQL NULL semantics |
| Tables.UserWithEmail | backend/auth/core/models/user/user.py:15 | the lookup finds a user with exactly that email, and finds none only when no user has it |
| Tables.ProfileWithKey | backend/auth/core/models/user/profile.py:28 | the lookup finds a profile with exactly that key, and finds none only when no profile has it |
| Tables.AssociationOfProfile | backend/auth/core/models/user/user_association.py:17 | a found association points at that profile; none is found only when no association does |
| Tables.AssociationOfUser | backend/auth/core/models/user/user_association.py:18 | a found association points at that website user; none is found only when no association does |
| Tables.RoleWithName | backend/auth/core/models/role/role.py:28 | a found role has that name; none is found only when no role has it |
| Tables.GroupWithName | backend/auth/core/models/role/role_group.py:22 | a found group has that name; none is found only when no group has it |
| Tables.UserWithEmailExact | backend/auth/core/models/user/user.py:15 | in a valid database, the lookup returns a given id exactly when that user has the email (the email is unique) |
| Tables.ProfileWithKeyExact | backend/auth/core/models/user/profile.py:28 | in a valid database, the lookup returns a given id exactly when that profile has the key (the key is unique) |
| Tables.InsertUser | backend/auth/core/models/user/user.py:14 | a website user is inserted under the next serial id and nothing else changes |
| Tables.InsertProfile | backend/auth/core/models/user/profile.py:24 | a profile is inserted under the next serial id and nothing else changes |
| Tables.InsertAssociation | backend/auth/core/models/user/user_association.py:15 | an association is inserted under the next serial id and nothing else changes |
| Tables.InsertRole | backend/auth/core/models/role/role.py:27 | a role is inserted under the next serial id and nothing else changes |
| Tables.InsertGroup | backend/auth/core/models/role/role_group.py:21 | a group is inserted under the next serial id and nothing else changes |
| Tables.DeleteProfile | backend/auth/core/models/user/user_association.py:17 | deleting a profile removes it and, by `ON DELETE CASCADE`, exactly the associations pointing at it |
| Tables.DeleteWebSiteUser | backend/auth/core/models/user/user_association.py:18 | deleting a website user removes it and exactly the associations pointing at it |
| Tables.DeleteWebAppUser | backend/auth/core/models/user/user_association.py:19 | deleting a bot user removes it and exactly the associations pointing at it |
| Tables.DeleteRole | backend/auth/core/models/user/user_association.py:16 | deleting a role removes it and exactly the associations pointing at it |
| Tables.InsertUserValid | backend/auth/core/models/user/user.py:14-19 | inserting a user whose email is free and whose columns fit keeps the database valid |
| Tables.InsertProfileValid | backend/auth/core/models/user/profile.py:24-37 | inserting a profile whose key is free and whose columns fit keeps the database valid |
| Tables.InsertAssociationValid | backend/auth/core/models/user/user_association.py:15-19 | inserting an association whose references exist, for an unbound profile and user, keeps the database valid |
| Tables.SetProfileValid | backend/auth/core/models/user/profile.py:24-37 | rewriting a profile's row with the same key and fitting columns keeps the database valid |
| Tables.SetUserValid | backend/auth/core/models/user/user.py:14-19 | rewriting a user's row with the same email and fitting columns keeps the database valid |
| Tables.SetAssociationValid | backend/auth/core/models/user/user_association.py:15-19 | rewriting an association for the same profile, with existing references and an unbound new user, keeps the database valid |
| Tables.DeleteProfileValid | backend/auth/core/models/user/user_association.py:17 | the cascading profile delete keeps the database valid |
| Tables.DeleteWebSiteUserValid | backend/auth/core/models/user/user_association.py:18 | the cascading website-user delete keeps the database valid |
| Tables.DeleteWebAppUserValid | backend/auth/core/models/user/user_association.py:19 | the cascading bot-user delete keeps the database valid |
| Tables.DeleteRoleValid | backend/auth/core/models/user/user_association.py:16 | the cascading role delete keeps the database valid |
| Associations.AddKeepsScalar | backend/auth/core/models/user/user_association.py:22-23 | adding an association for an unbound profile and unbound user keeps one association per profile and per user |
| Associations.RewriteKeepsScalar | backend/auth/core/models/user/user_association.py:22-23 | rewriting an association in place, for the same profile and an unbound new user, keeps one association per profile and per user |
| Associations.OneAssociationPerProfileGivesUniqueIndexes | backend/auth/core/models/user/user_association.py:26-56 | one association per profile implies all three unique indexes as intended |
| Associations.UniqueIndexRefinesSql | backend/auth/core/models/user/user_association.py:26-38 | the intended index implies its SQL form; for the first index, whose predicate excludes NULLs, the two coincide |
| Associations.SqlPartialIndexesNeverReject | backend/auth/core/models/user/user_association.py:39-56 | under SQL NULL semantics the website and bot indexes accept every table |
| Associations.DuplicateGuestRowsPassSqlIndexes | backend/auth/core/models/user/user_association.py:39-56 | two identical guest rows pass both SQL partial indexes although the intended indexes reject them |
| Users.NewWebSiteUser | backend/auth/core/models/user/user.py:11-19 | a new user has the given email and digest, both dates equal to now, and an unconfirmed email |
| Profiles.NewProfileRow | backend/auth/core/models/user/profile.py:24-37 | a new profile has the given key, cookie data, ip and agent, both dates now, no avatar, and empty locations and history |
| Profiles.FirstMatch | backend/auth/core/models/user/profile.py:61-69 | the loop stops at the first history entry with the same ip and agent, and finds none exactly when no entry matches |
| Profiles.RecordVisit | backend/auth/core/models/user/profile.py:56-73 | after the visit the history holds an entry for this ip, agent and time |
| Profiles.RecordVisitLength | backend/auth/core/models/user/profile.py:60-73 | the history grows by one exactly when no entry matched, and keeps its length exactly when one did |
| Profiles.RecordVisitFrame | backend/auth/core/models/user/profile.py:61-73 | a matching entry gets the new visit date and every other entry is untouched; otherwise the old history is kept and the new entry is appended |
| Profiles.RecordVisitKeepsOriginsUnique | backend/auth/core/models/user/profile.py:61-73 | a history with at most one entry per (ip, agent) keeps that property |
| Profiles.AfterUpdateHook | backend/auth/core/models/user/profile.py:46-76 | the hook sets the visit date, records the profile's own ip and agent in the history, and changes nothing else |
| Profiles.Profile.Load | backend/auth/core/models/user/profile.py:21-37 | a loaded ORM object holds exactly the stored row |
| Profiles.Profile.AddHistory | backend/auth/core/models/user/profile.py:46-76 | the in-place loop leaves the object's row equal to the hook's result on the old row |
| Profiles.BeforeUpdateListener | backend/auth/core/models/user/profile.py:79-85 | the listener applies `add_history` to the profile being flushed |
| Json.Get | backend/auth/app/api_site_v1/depends.py:555 | `dict.get` gives the value stored under a present key, and `None` exactly for an absent one |
| SessionKeys.HexDigits | backend/auth/app/api_site_v1/depends.py:88-90 | a rendering has the asked width and uses only lower-case hex digits |
| SessionKeys.GenerateKey32 | backend/auth/app/api_site_v1/depends.py:88-90 | a session key is 32 lower-case hex digits |
| SessionKeys.GenerateKey32RoundTrip | backend/auth/app/api_site_v1/depends.py:88-90 | the key reads back as the uuid it was rendered from, so distinct uuids give distinct keys |
| Security.FromSettings | backend/auth/core/config.py:53-54 | access tokens live 15 minutes and refresh tokens 10080 minutes |
| Security.Expiry | backend/auth/core/security.py:30-34 | a non-zero explicit lifetime wins; otherwise the expiry is now plus the configured minutes |
| Security.Claims | backend/auth/core/security.py:29-35 | the claims are the payload's keys plus `exp` and `iat`, with the other payload values copied |
| Security.DecodeToken | backend/auth/core/security.py:61-76 | an unreadable or badly signed token gives `None`; a token whose `alg` is missing or not RS256 raises through `decode_token`; a payload or header returned is the one the token carries |
| Security.EncodeToken | backend/auth/core/security.py:22-42 | a token signed under a header that keeps the configured algorithm opens to that header and the claims with `exp` and `iat` set; `DecodeBeforeExpiry` and `DecodeAfterExpiry` state what decoding it gives |
| Security.CreateAccessToken | backend/auth/core/security.py:44-51 | the token opens to the claims with the access lifetime; `TokenLifetimes` states the 900 s |
| Security.CreateRefreshToken | backend/auth/core/security.py:53-59 | the token opens to the claims with the refresh lifetime; `TokenLifetimes` states the 604800 s |
| Security.HashPassword | backend/auth/core/security.py:78-83 | the password checks against its digest; `ValidateHashedPassword` states the round trip |
| Security.ValidatePassword | backend/auth/core/security.py:85-89 | a digest made from the same password under any salt is accepted |
| Security.DecodeBeforeExpiry | backend/auth/core/security.py:22-42 | a token read before its expiry decodes to the issued claims |
| Security.DecodeAfterExpiry | backend/auth/core/security.py:71-73 | a token read at or after its expiry decodes only to its unverified header |
| Security.DecodeIgnoresHeader | backend/auth/core/security.py:61-76 | the decoded payload does not depend on the token's header |
| Security.TokenLifetimes | backend/auth/core/security.py:44-59 | with the configured settings an access token expires 900 s and a refresh token 604800 s after issue |
| Security.ValidateHashedPassword | backend/auth/core/security.py:78-89 | a password validates against its own digest for every salt |
| Session.Store.constructor | backend/auth/core/models/user/user_association.py:12-19 | a new session store starts empty and valid |
| Session.Store.Rollback | backend/auth/app/api_site_v1/depends.py:129-136 | rolling back restores exactly the savepoint |
| Session.Store.InsertUser | backend/auth/app/api_site_v1/depends.py:289-296 | the insert succeeds exactly when the email is free and the columns fit, and then writes the row under the next id; otherwise nothing changes |
| Session.Store.InsertProfile | backend/auth/app/api_site_v1/depends.py:111-119 | the insert succeeds exactly when the key is free and the columns fit; otherwise nothing changes |
| Session.Store.InsertAssociation | backend/auth/app/api_site_v1/depends.py:121-125 | the association is written under the next id |
| Session.Store.InsertRole | backend/auth/scripts/init_roles.py:76-95 | the insert succeeds exactly when the name is free and the row fits |
| Session.Store.InsertGroup | backend/auth/scripts/init_roles.py:43-57 | the insert succeeds exactly when the name is free and the row fits |
| Session.Store.UpdateUser | backend/auth/app/api_site_v1/depends.py:347-352 | the user row is replaced exactly when the new columns fit |
| Session.Store.UpdateAssociation | backend/auth/app/api_site_v1/depends.py:297-301 | the association row is replaced in place |
| Session.Store.DeleteProfile | backend/auth/app/api_site_v1/depends.py:409-423 | the profile and its associations are deleted, as the cascade does |
| Session.Store.FlushProfile | backend/auth/core/models/user/profile.py:79-85 | flushing a dirty profile runs the update hook on it and stores the result when its columns fit |
| AuthSpec.UpdatedProfile | backend/auth/app/api_site_v1/depends.py:190-206 | `_update_profile` sets ip, agent and visit date, replaces the cookie data only with a non-empty list, and keeps every other column |
| AuthService.UpdateProfile | backend/auth/app/api_site_v1/depends.py:190-206 | the ORM profile is updated in place as `UpdatedProfile` describes |
| AuthSpec.Touched | backend/auth/app/api_site_v1/depends.py:424-428 | a touched profile has the new ip, agent and visit date, a history entry for them, and the same key, cookie data and avatar |
| AuthSpec.TouchProfile | backend/auth/app/api_site_v1/depends.py:424-428 | the touch is committed exactly when the profile exists and the touched columns fit, and changes that profile only |
| AuthService.TouchProfile | backend/auth/app/api_site_v1/depends.py:424-428 | the store ends in the touched state on success and is unchanged on failure |
| AuthSpec.SetUser | backend/auth/app/api_site_v1/depends.py:424-428 | a user row update is committed exactly when its columns fit and changes that row only |
| AuthSpec.NewSessionData | backend/auth/app/api_site_v1/depends.py:99-103 | the first record of every new session has no user id, the name `Иван` and the custom data `new`; `CreateCookieSessionReadBack` states that it reads back |
| AuthSpec.SessionRow | backend/auth/app/api_site_v1/depends.py:99-119 | a guest profile as constructed carries its key, the one new cookie record, and an empty history, before the update hook runs |
| AuthSpec.CreateCookieSession | backend/auth/app/api_site_v1/depends.py:92-136 | creation fails, writing nothing, exactly when there is no guest role or the profile cannot be inserted; otherwise it answers the key of the uuid, adds no user, and commits the constructed profile after the update hook its association's back-reference triggers |
| AuthService.CreateCookieSession | backend/auth/app/api_site_v1/depends.py:92-136 | the store, flushing the profile its association dirties, ends as `AuthSpec.CreateCookieSession` says and the key returned is its result |
| AuthService.AddBoundProfile | backend/auth/app/api_site_v1/depends.py:111-125 | the profile insert succeeds exactly when the key is free and the row fits; then the new association is added and the profile is committed after the update hook, and otherwise nothing changes |
| AuthService.FlushBound | backend/auth/app/api_site_v1/depends.py:119-125 | flushing a profile dirtied by a new association runs the update hook on it, always succeeds, and changes nothing else |
| Profiles.HookKeepsColumns | backend/auth/core/models/user/profile.py:46-76 | the hook keeps the key, and the columns fit after it exactly when they fit before |
| Profiles.HookOnNewRow | backend/auth/core/models/user/profile.py:46-85 | a row created and then dirtied in the same transaction commits with its own visit as the one history entry |
| AuthProperties.CreateCookieSessionKeeps | backend/auth/app/api_site_v1/depends.py:92-136 | creating a guest session keeps the invariants and every user and profile binding |
| AuthProperties.CreateCookieSessionReadBack | backend/auth/app/api_site_v1/depends.py:92-146 | a created session is found by its key, reads back the new cookie data, and adds exactly one profile, whose history holds only this visit, and one guest association |
| AuthSpec.GetCookieSession | backend/auth/app/api_site_v1/depends.py:138-146 | the session data exist exactly when some profile has the key and non-empty cookie data, and are its first cookie record |
| AuthSpec.RefreshedData | backend/auth/app/api_site_v1/depends.py:162-168 | a refreshed record keeps the user id, suffixes the name with `_new` and sets the custom data to `updated` |
| AuthSpec.UpdateCookieSession | backend/auth/app/api_site_v1/depends.py:148-179 | an unknown session gives `None` and writes nothing; an update keeps the key and answers the refreshed first record; users and associations never change |
| AuthService.UpdateCookieSession | backend/auth/app/api_site_v1/depends.py:148-179 | the store ends as `AuthSpec.UpdateCookieSession` says and its answer is returned |
| AuthProperties.UpdateCookieSessionKeeps | backend/auth/app/api_site_v1/depends.py:148-179 | refreshing a session keeps the invariants and bindings |
| AuthProperties.UpdateCookieSessionReadBack | backend/auth/app/api_site_v1/depends.py:148-179 | after an update the session reads back the refreshed data, the profile's visit date is now, and its history records this ip and agent |
| AuthSpec.BoundProfile | backend/auth/app/api_site_v1/depends.py:217-231 | a user's profile is the one their association points at, and exists exactly when they have an association |
| AuthSpec.UserWithEmailAndKey | backend/auth/app/api_site_v1/depends.py:217-231 | a match is a user with that email whose bound profile has that key |
| AuthSpec.ConfirmEmailByKey | backend/auth/app/api_site_v1/depends.py:208-255 | no matching user gives `None`; a confirmed user gives `False` and writes nothing; `True` confirms a previously unconfirmed user, sets their activity date, and leaves associations alone |
| AuthService.UpdateUserAndProfile | backend/auth/app/api_site_v1/depends.py:236-242 | the user row update and then the profile touch succeed exactly when the user row fits and the profile exists and fits after the touch; a failure of either restores the state |
| AuthService.ConfirmEmailByKey | backend/auth/app/api_site_v1/depends.py:208-255 | the store ends as `AuthSpec.ConfirmEmailByKey` says and its answer is returned |
| AuthProperties.ConfirmEmailByKeyKeeps | backend/auth/app/api_site_v1/depends.py:208-255 | confirming an email keeps the invariants and bindings |
| AuthProperties.ConfirmEmailByKeyOnce | backend/auth/app/api_site_v1/depends.py:232-254 | after a `True` the user is confirmed, and confirming again answers `False` and writes nothing |
| AuthProperties.ConfirmKeepsKey | backend/auth/app/api_site_v1/depends.py:232-244 | a confirmation leaves the user's profile key in place |
| AuthProperties.ConfirmedAnswersFalse | backend/auth/app/api_site_v1/depends.py:245-254 | an already confirmed user gets `False` and the state is unchanged |
| AuthSpec.LiveSession | backend/auth/app/api_site_v1/depends.py:277 | a session is live exactly when the cookie is truthy and its session data exist, and is then the profile with that key |
| AuthSpec.RegisterAdopting | backend/auth/app/api_site_v1/depends.py:278-301 | adopting registration either fails and writes nothing, or answers the email with the user role |
| AuthService.RegisterAdopting | backend/auth/app/api_site_v1/depends.py:278-301 | the store ends as `AuthSpec.RegisterAdopting` says |
| AuthProperties.RegisterAdoptingRebinds | backend/auth/app/api_site_v1/depends.py:278-301 | on success exactly one user is added, profiles are unchanged, and the session's association is rebound to the new user with the user role |
| AuthProperties.RegisterAdoptingKeeps | backend/auth/app/api_site_v1/depends.py:278-301 | adopting an unclaimed session keeps the invariants and bindings |
| AuthProperties.AdoptingThenGetUser | backend/auth/app/api_site_v1/depends.py:278-301 | after adopting, `get_user` finds the new user with their digest and the user role |
| AuthSpec.RegisterFresh | backend/auth/app/api_site_v1/depends.py:302-326 | fresh registration either fails and writes nothing, or answers the email with the user role and commits the new profile after the update hook |
| AuthService.RegisterFresh | backend/auth/app/api_site_v1/depends.py:302-326 | the store, flushing the profile its association dirties, ends as `AuthSpec.RegisterFresh` says |
| AuthProperties.RegisterFreshKeeps | backend/auth/app/api_site_v1/depends.py:302-326 | fresh registration keeps the invariants and bindings |
| AuthProperties.FreshThenGetUser | backend/auth/app/api_site_v1/depends.py:302-326 | after registering fresh, exactly one user is added and `get_user` finds them with their digest and role |
| AuthSpec.UserRegistrationAsWritten | backend/auth/app/api_site_v1/depends.py:257-336 | the code as written: without the user role, or with the email taken, nothing is written; any live session is adopted |
| AuthProperties.UserRegistrationAsWrittenUnbindsOwner | backend/auth/app/api_site_v1/depends.py:277-301 | registering with another user's live session leaves that user with no association, breaking the binding invariant |
| AuthProperties.AdoptingUnbindsOwner | backend/auth/app/api_site_v1/depends.py:297-301 | rebinding a claimed association unbinds its previous owner |
| AuthSpec.UserRegistration | backend/auth/app/api_site_v1/depends.py:257-336 | without the user role, or with the email taken, registration writes nothing and fails; a success answers the email with the user role's id |
| AuthService.UserRegistration | backend/auth/app/api_site_v1/depends.py:257-336 | the password is hashed and the store ends as the corrected `AuthSpec.UserRegistration` says, so a session claimed by another user is not adopted |
| AuthProperties.UserRegistrationKeeps | backend/auth/app/api_site_v1/depends.py:257-336 | registration keeps the invariants and every binding |
| AuthProperties.RegisteredUserFound | backend/auth/app/api_site_v1/depends.py:362-382 | a user with an association is found by `get_user` with their role and digest |
| AuthProperties.UserRegistrationThenGetUser | backend/auth/app/api_site_v1/depends.py:257-382 | after registering, exactly one user is added and `get_user` finds them with the user role and the digest |
| AuthSpec.ChangePassword | backend/auth/app/api_site_v1/depends.py:338-360 | an unknown email is still a success that writes nothing; a failure writes nothing; profiles and associations never change |
| AuthService.UserChangePassword | backend/auth/app/api_site_v1/depends.py:338-360 | the new password is hashed and the store ends as `AuthSpec.ChangePassword` says |
| AuthProperties.ChangePasswordKeeps | backend/auth/app/api_site_v1/depends.py:338-360 | a password change keeps the invariants and bindings |
| AuthProperties.ChangePasswordEffect | backend/auth/app/api_site_v1/depends.py:347-352 | the change fails exactly when the user exists and the digest is too long; otherwise only that user's password changes, and `get_user` sees the new digest |
| AuthSpec.GetUser | backend/auth/app/api_site_v1/depends.py:362-382 | no user is found exactly when the email is unknown; a found user carries their association's role and their digest |
| AuthProperties.GetUserNeverRaises | backend/auth/app/api_site_v1/depends.py:362-382 | while every user has an association, the lookup never raises |
| AuthSpec.MergeSession | backend/auth/app/api_site_v1/depends.py:409-423 | the merge either leaves the state alone or deletes the live stray session's profile |
| AuthService.MergeSession | backend/auth/app/api_site_v1/depends.py:409-423 | the store ends merged on success and unchanged on failure |
| AuthProperties.MergeSessionKeeps | backend/auth/app/api_site_v1/depends.py:409-423 | the merge keeps the invariants and bindings |
| AuthSpec.UserLogin | backend/auth/app/api_site_v1/depends.py:384-441 | an unknown email fails and writes nothing; any failure writes nothing; a success answers what `get_user` finds |
| AuthService.LoginTransaction | backend/auth/app/api_site_v1/depends.py:398-428 | the nested transaction on the store ends as `AuthSpec.UserLogin` says, rolling back to the savepoint when a write after the merge fails |
| AuthService.UserLogin | backend/auth/app/api_site_v1/depends.py:384-441 | the store ends as `AuthSpec.UserLogin` says and its answer is returned |
| AuthProperties.UserLoginKeeps | backend/auth/app/api_site_v1/depends.py:384-441 | login keeps the invariants and bindings |
| AuthProperties.LoginWithoutSession | backend/auth/app/api_site_v1/depends.py:384-433 | without a session cookie, login updates the user's activity date and touches their own profile, and nothing else |
| AuthProperties.UserLoginSucceeds | backend/auth/app/api_site_v1/depends.py:384-433 | a known, bound user with fitting ip and agent always logs in, and only their user row and profile change |
| AuthProperties.UserLoginMergesStraySession | backend/auth/app/api_site_v1/depends.py:409-423 | a different live session is deleted exactly when it belongs to no website user, and then loses its association too |
| AuthSpec.UserGetData | backend/auth/app/api_site_v1/depends.py:443-494 | an unknown email fails and writes nothing; the data give the email, activity date now, the confirmation flag and the bound profile's id; associations never change |
| AuthService.UserGetData | backend/auth/app/api_site_v1/depends.py:443-494 | the store ends as `AuthSpec.UserGetData` says and its answer is returned |
| AuthProperties.UserGetDataKeeps | backend/auth/app/api_site_v1/depends.py:443-494 | reading the user's data keeps the invariants and bindings |
| AuthSpec.IssuerHeader | backend/auth/app/api_site_v1/depends.py:496-512 | the token header holds only `iss`, so it keeps the configured algorithm; `AccessTokenAccepted` relies on this |
| AuthSpec.TokenPayload | backend/auth/app/api_site_v1/depends.py:496-512 | the payload has exactly the keys `rol` and `sub`, holding the role id and the email |
| AuthSpec.GenerateTokens | backend/auth/app/api_site_v1/depends.py:496-521 | the answer is a Bearer pair: an access token and a refresh token, over that payload and the issuer headers |
| AuthProperties.IssuedClaims | backend/auth/app/api_site_v1/depends.py:496-512 | an issued token's claims give back the email as `sub` and the role id as `rol` |
| AuthSpec.LoginAs | backend/auth/app/api_site_v1/depends.py:558-568 | a string subject is authorized exactly when its login succeeds, and commits that login; anything else is a `DATA_EXCEPTION` that writes nothing |
| AuthSpec.GetCurrentUser | backend/auth/app/api_site_v1/depends.py:539-568 | an unreadable token raises `CRED_EXCEPTION`; a decoder error propagates; no failure writes |
| AuthService.GetCurrentUser | backend/auth/app/api_site_v1/depends.py:539-568 | the store ends as `AuthSpec.GetCurrentUser` says and its answer is returned |
| AuthSpec.FetchDataAs | backend/auth/app/api_site_v1/depends.py:589-599 | a string subject is authorized exactly when its data are found, and the data are that user's; otherwise `DATA_EXCEPTION` |
| AuthSpec.GetCurrentUserData | backend/auth/app/api_site_v1/depends.py:570-599 | an unreadable token raises `CRED_EXCEPTION` without writing; an authorized answer belongs to the token's `sub` |
| AuthService.GetCurrentUserData | backend/auth/app/api_site_v1/depends.py:570-599 | the store ends as `AuthSpec.GetCurrentUserData` says |
| AuthSpec.GetCurrentAdmin | backend/auth/app/api_site_v1/depends.py:601-632 | failures write nothing; an authorized answer comes from a token whose `rol` is 1 |
| AuthService.GetCurrentAdmin | backend/auth/app/api_site_v1/depends.py:601-632 | the store ends as `AuthSpec.GetCurrentAdmin` says |
| AuthProperties.AccessTokenAccepted | backend/auth/app/api_site_v1/depends.py:496-599 | an access token issued for a user resolves, until it expires, to that email's login and data |
| AuthProperties.RefreshTokenAccepted | backend/auth/app/api_site_v1/depends.py:496-568 | a refresh token resolves to that email's login throughout its lifetime |
| AuthProperties.RefusedAlgorithmCrashes | backend/auth/app/api_site_v1/depends.py:539-632 | a token whose `alg` the library refuses ends all three dependencies in the uncaught decode error, with nothing written |
| AuthProperties.ExpiredAccessTokenRejected | backend/auth/app/api_site_v1/depends.py:552-617 | an expired access token is refused with `EXPIRED_EXCEPTION` by all three dependencies, and nothing is written |
| AuthProperties.AdminTokenAccepted | backend/auth/app/api_site_v1/depends.py:601-632 | a live access token passes the admin check exactly when the role id is 1, and is otherwise refused with `ROLE_EXCEPTION` |
| AuthProperties.TouchProfileKeeps | backend/auth/app/api_site_v1/depends.py:424-428 | touching a profile keeps the invariants and bindings |
| AuthProperties.SetUserKeeps | backend/auth/app/api_site_v1/depends.py:424-428 | updating a user row with the same email keeps the invariants and bindings |
| AuthProperties.TouchFits | backend/auth/core/models/user/profile.py:35-36 | a profile, ip and agent within the column lengths can always be touched |
| AuthProperties.FreshProfileUnbound | backend/auth/core/models/user/user_association.py:17 | the next profile id has no association yet |
| AuthProperties.FreshUserUnbound | backend/auth/core/models/user/user_association.py:18 | the next user id has no association yet |
| AuthProperties.InsertAssociationBinds | backend/auth/app/api_site_v1/depends.py:121-125 | a new association binds its profile and its user, and every earlier binding stays |
| Dependencies.Header | backend/auth/app/api_site_v1/auth/dependencies.py:14-15 | a header is present exactly when it was sent, with the value sent |
| Dependencies.OrStop | backend/auth/app/api_site_v1/auth/dependencies.py:14 | an `or` chain stops at its first truthy operand, or at its last one |
| Dependencies.GetClientInfo | backend/auth/app/api_site_v1/auth/dependencies.py:10-16 | the client info is missing (an `AttributeError`) exactly when there is no truthy `X-Client-IP` and no client |
| Dependencies.ClientIpIsOrChain | backend/auth/app/api_site_v1/auth/dependencies.py:14 | the address is the value of `header or host or 'localhost'`, and is never empty |
| Dependencies.ClientAgent | backend/auth/app/api_site_v1/auth/dependencies.py:15 | the agent is the `User-Agent` header, or `''` without it |
| Dependencies.ConfirmBySlug | backend/auth/app/api_site_v1/auth/dependencies.py:18-41 | the dependency; a request without client info crashes with no write, and its answers are stated by `ConfirmBySlugNeedsUser` and `ConfirmBySlugAnswers` |
| Dependencies.ConfirmBySlugNeedsUser | backend/auth/app/api_site_v1/auth/dependencies.py:18-28 | without a resolved user nothing is written, and a refusal comes back unchanged |
| Dependencies.ConfirmBySlugAnswers | backend/auth/app/api_site_v1/auth/dependencies.py:18-41 | for a resolved user, the answer is a 404 writing nothing exactly when no user has that email and key; `True` means the user went from unconfirmed to confirmed |
| Dependencies.ConfirmEmailBySlug | backend/auth/app/api_site_v1/auth/dependencies.py:18-41 | on the store, `confirm_email_by_slug` ends as its pure form says; the `confirm_email` view at backend/auth/app/api_site_v1/auth/views.py:171-175 returns its value |
| ViewSpec.SessionAnswer | backend/auth/app/api_site_v1/depends.py:181-188 | a session answer is a 200 that sets the `session_id` cookie to the key, with the data, the message and the key in its body |
| ViewSpec.TokenAnswer | backend/auth/app/api_site_v1/auth/views.py:108-110 | a token answer is a 200 with a Bearer pair and no cookie |
| ViewSpec.CookiesSession | backend/auth/app/api_site_v1/auth/views.py:40-76 | the endpoint; a request without client info crashes with no write, and its answers are stated by `CookiesSessionCreates`, `CookiesSessionRefreshes` and `CookiesSessionKeeps` |
| ViewSpec.CookiesSessionCreates | backend/auth/app/api_site_v1/auth/views.py:49-61 | without a cookie, a failed creation raises the creation error and writes nothing; otherwise the answer is "Session Created" with the new key and data, which read back |
| ViewSpec.CookiesSessionRefreshes | backend/auth/app/api_site_v1/auth/views.py:63-76 | with a cookie, an unknown session and a failed update raise their errors without writing; success answers "Session Updated" with the refreshed data, which read back |
| ViewSpec.CookiesSessionKeeps | backend/auth/app/api_site_v1/auth/views.py:40-76 | the endpoint keeps the invariants and bindings |
| Views.CookiesSession | backend/auth/app/api_site_v1/auth/views.py:40-76 | the endpoint on the store ends as `ViewSpec.CookiesSession` says |
| ViewSpec.AuthenticateUser | backend/auth/app/api_site_v1/auth/views.py:79-92 | the endpoint; a request without client info crashes with no write, and its answers are stated by `AuthenticateUserAnswers` |
| ViewSpec.AuthenticateUserAnswers | backend/auth/app/api_site_v1/auth/views.py:79-92 | `/me` answers 200 with the user's data exactly when the token resolves, and otherwise with the dependency's error |
| Views.AuthenticateUser | backend/auth/app/api_site_v1/auth/views.py:79-92 | the endpoint on the store ends as `ViewSpec.AuthenticateUser` says |
| ViewSpec.Registration | backend/auth/app/api_site_v1/auth/views.py:95-111 | the endpoint; a request without client info crashes with no write, and its answers are stated by `RegistrationAnswers`, over the corrected registration service |
| ViewSpec.RegistrationAnswers | backend/auth/app/api_site_v1/auth/views.py:95-111 | over the corrected registration service, registration raises a 409 writing nothing exactly when the service fails, in particular for a taken email; success answers tokens for the email with the user role |
| Views.Registration | backend/auth/app/api_site_v1/auth/views.py:95-111 | the endpoint on the store ends as `ViewSpec.Registration` says, over the corrected registration service |
| ViewSpec.Login | backend/auth/app/api_site_v1/auth/views.py:114-131 | the endpoint; a request without client info crashes with no write, and its answers are stated by `LoginAnswers` and `FoundThenLogin` |
| ViewSpec.LoginAnswers | backend/auth/app/api_site_v1/auth/views.py:114-131 | while users are bound, login never crashes; it refuses without writing exactly for an unknown email or a wrong password, and otherwise commits the login and answers tokens for the user's role |
| Views.Login | backend/auth/app/api_site_v1/auth/views.py:114-131 | the endpoint on the store ends as `ViewSpec.Login` says |
| ViewSpec.RegistrationThenLogin | backend/auth/app/api_site_v1/auth/views.py:95-131 | after a registration, logging in with the same email and password gives the same tokens |
| ViewSpec.FoundThenLogin | backend/auth/app/api_site_v1/auth/views.py:121-130 | a found user whose password validates is answered with their tokens |
| ViewSpec.Refresh | backend/auth/app/api_site_v1/auth/views.py:134-147 | the endpoint; a request without client info crashes with no write, and its answers are stated by `RefreshAnswers` and `RefreshWithIssuedToken` |
| ViewSpec.RefreshAnswers | backend/auth/app/api_site_v1/auth/views.py:134-147 | refresh answers fresh tokens for the resolved user exactly when the token resolves, and otherwise the dependency's error with nothing written |
| ViewSpec.RefreshWithIssuedToken | backend/auth/app/api_site_v1/auth/views.py:134-147 | a refresh token issued for a known, bound user is honoured until it expires, with tokens for the user's current role |
| Views.Refresh | backend/auth/app/api_site_v1/auth/views.py:134-147 | the endpoint on the store ends as `ViewSpec.Refresh` says |
| ViewSpec.ChangePasswordView | backend/auth/app/api_site_v1/auth/views.py:150-168 | the endpoint; a request without client info crashes with no write, and its answers are stated by `ChangePasswordAnswers` and `ChangePasswordThenLogin` |
| ViewSpec.ChangePasswordAnswers | backend/auth/app/api_site_v1/auth/views.py:150-168 | a refused token raises its own error; a wrong current password raises `PASSWORD_EXCEPTION`; otherwise the change is committed and answered, or a failure raises `CHANGE_PASSWORD_EXCEPTION` without writing |
| ViewSpec.ChangePasswordThenLogin | backend/auth/app/api_site_v1/auth/views.py:114-168 | after a successful change, logging in with the new password succeeds |
| ViewSpec.ChangedThenLogin | backend/auth/app/api_site_v1/depends.py:338-441 | after a password change, a password matching the new digest logs in |
| AuthProperties.CurrentUserKeeps | backend/auth/app/api_site_v1/depends.py:539-568 | resolving the current user keeps the invariants and bindings |
| AuthProperties.CurrentUserDataKeeps | backend/auth/app/api_site_v1/depends.py:570-599 | resolving the current user's data keeps the invariants and bindings |
| AuthProperties.CurrentAdminKeeps | backend/auth/app/api_site_v1/depends.py:601-632 | resolving the current administrator keeps the invariants and bindings |
| ViewSpec.CurrentUserFound | backend/auth/app/api_site_v1/depends.py:539-568 | a resolved user is the one `get_user` finds for their email, and still exists afterwards |
| Views.ChangePassword | backend/auth/app/api_site_v1/auth/views.py:150-168 | the endpoint on the store ends as `ViewSpec.ChangePasswordView` says |
| InitRoles.SeedGroup | backend/auth/scripts/init_roles.py:114-144 | a seeded group carries its name |
| InitRoles.SeedGroupFits | backend/auth/scripts/init_roles.py:114-144 | the seeded group texts fit their columns |
| InitRoles.SeedRole | backend/auth/scripts/init_roles.py:150-205 | a seeded role carries its name and group |
| InitRoles.SeedRoleFits | backend/auth/scripts/init_roles.py:150-205 | the seeded role texts fit their columns |
| InitRoles.GroupCreation | backend/auth/scripts/init_roles.py:28-59 | the answer is a group with that name, existing or new; a failure writes nothing; only the groups change |
| InitRoles.RoleCreation | backend/auth/scripts/init_roles.py:61-97 | the answer is a role with that name, existing or new; a failure writes nothing; only the roles change |
| InitRoles.FreshGroup | backend/auth/scripts/init_roles.py:43-53 | a name no group holds, with fitting texts, is inserted under the next id |
| InitRoles.FreshRole | backend/auth/scripts/init_roles.py:76-91 | a name no role holds, with fitting texts and an existing group, is inserted under the next id |
| InitRoles.SeedGroupNoop | backend/auth/scripts/init_roles.py:38-41 | an existing group is returned and nothing is written |
| InitRoles.GroupCreationFrame | backend/auth/scripts/init_roles.py:28-59 | creating a group leaves the roles and every existing group untouched |
| InitRoles.RoleCreationFrame | backend/auth/scripts/init_roles.py:61-97 | creating a role leaves the groups and every existing role untouched |
| InitRoles.UserManagementService.constructor | backend/auth/scripts/init_roles.py:25-26 | the service keeps the session it is given |
| InitRoles.UserManagementService.CreateRoleGroup | backend/auth/scripts/init_roles.py:28-59 | on the store, the method ends as `GroupCreation` says and returns its id |
| InitRoles.UserManagementService.CreateRole | backend/auth/scripts/init_roles.py:61-97 | on the store, the method ends as `RoleCreation` says and returns its id |
| InitRoles.SeedGroups | backend/auth/scripts/init_roles.py:114-144 | the four group creations change only the groups |
| InitRoles.GroupCreationKeepsValid | backend/auth/scripts/init_roles.py:28-59 | creating a group keeps the invariants |
| InitRoles.RoleCreationKeepsValid | backend/auth/scripts/init_roles.py:61-97 | creating a role keeps the invariants |
| InitRoles.SeedGroupsKeepsValid | backend/auth/scripts/init_roles.py:114-144 | seeding the groups keeps the invariants |
| InitRoles.CreateRolesKeepsValid | backend/auth/scripts/init_roles.py:150-205 | creating roles one after the other keeps the invariants |
| InitRoles.InitializationKeepsValid | backend/auth/scripts/init_roles.py:99-218 | the script keeps the invariants |
| InitRoles.GroupId | backend/auth/scripts/init_roles.py:156-204 | each role gets the id of the group the script names for it |
| InitRoles.SeedRoleIn | backend/auth/scripts/init_roles.py:150-205 | each seeded role carries its name and its group's id |
| InitRoles.RoleSeeds | backend/auth/scripts/init_roles.py:150-205 | the six seeded roles, in the script's order |
| InitRoles.CreateRoles | backend/auth/scripts/init_roles.py:150-205 | creating roles one after the other changes only the roles |
| InitRoles.SeedRoles | backend/auth/scripts/init_roles.py:150-205 | seeding the roles changes only the roles |
| InitRoles.RoleRows | backend/auth/scripts/init_roles.py:150-205 | the rows from a given id hold the roles in order under consecutive ids |
| InitRoles.Initialization | backend/auth/scripts/init_roles.py:99-218 | the script changes only the groups and the roles |
| InitRoles.GroupsFromEmpty | backend/auth/scripts/init_roles.py:114-144 | on an empty database the four groups get ids 1 to 4 |
| InitRoles.FreshRoles | backend/auth/scripts/init_roles.py:150-205 | roles with fresh names and existing groups are all inserted, in order, under consecutive ids |
| InitRoles.SeedRolesOnEmptyTable | backend/auth/scripts/init_roles.py:150-205 | on an empty role table the six seeded roles are inserted under consecutive ids |
| InitRoles.InitializationOfEmpty | backend/auth/scripts/init_roles.py:99-218 | on an empty database the script succeeds with exactly four groups and six roles |
| InitRoles.InitializationFromEmpty | backend/auth/scripts/init_roles.py:99-218 | seeding an empty database gives groups 1-4, roles 1-6 in the script's order (`global_admin` in group 1 first) and no user data |
| InitRoles.SeededInitializationIsNoop | backend/auth/scripts/init_roles.py:38-41 | on a seeded database the script changes nothing |
| InitRoles.SeedGroupsNoop | backend/auth/scripts/init_roles.py:38-41 | present groups are all skipped |
| InitRoles.PresentRolesNoop | backend/auth/scripts/init_roles.py:72-75 | present roles are all skipped |
| InitRoles.CreateRolesSplit | backend/auth/scripts/init_roles.py:150-205 | creating roles in two runs is creating them in one |
| InitRoles.SeedGroupsPresent | backend/auth/scripts/init_roles.py:114-144 | after seeding, the four groups are present and no existing role has changed |
| InitRoles.CreateRolesPresent | backend/auth/scripts/init_roles.py:150-205 | after creating roles, each is present and no earlier row has changed |
| InitRoles.SeedRolesPresent | backend/auth/scripts/init_roles.py:150-205 | after seeding, all six role names are present |
| InitRoles.InitializationSeeds | backend/auth/scripts/init_roles.py:99-205 | a successful initialization leaves every seeded group and role present |
| InitRoles.InitializationIdempotent | backend/auth/scripts/init_roles.py:99-218 | running the script a second time after a success changes nothing |
| InitRoles.CreateSeedGroups | backend/auth/scripts/init_roles.py:114-144 | on the store, the group creations end as `SeedGroups` says |
| InitRoles.CreateRolesStep | backend/auth/scripts/init_roles.py:150-205 | one more successful `create_role` extends the run, and a failing one ends the whole run |
| InitRoles.CreateSeedRole | backend/auth/scripts/init_roles.py:150-205 | on the store, one `create_role` call after successful ones ends as `CreateRoles` says for one more role |
| InitRoles.CreateRoleList | backend/auth/scripts/init_roles.py:150-205 | on the store, `create_role` for each role in turn ends as `CreateRoles` says |
| InitRoles.CreateSeedRoles | backend/auth/scripts/init_roles.py:150-205 | on the store, the six role creations in the script's order end as `SeedRoles` says |
| InitRoles.InitRoles | backend/auth/scripts/init_roles.py:99-218 | on the store, the script ends as `Initialization` says |

## Left out

- I/O, `async`, logging and `print` are not modelled. The clock, the uuid and the bcrypt salt are parameters, and one request reads one instant `now`.
- bcrypt and the JWT library are abstract values. Password checks rely on the stated soundness of the hasher (`HashSound`). The signer opens a token to its verified header and claims, to a refused algorithm, or to nothing readable. Token checks rely on its stated round trip for headers that keep the configured algorithm (`SignatureRoundTrip`). Their internals are foreign code.
- Postgres sequences are not rolled back on failure, but the model's id counters are. Ids after a failed insert therefore differ from the database's.
- Concurrent requests are not modelled: each operation runs alone on the committed state.
- HTTP header names are compared as given. Starlette compares them case-insensitively.
- FastAPI and pydantic form validation (`MaxLen`, `EmailStr`, answered with 422) runs before the endpoints. It is left out; over-long values reach the database's column-length failures instead.
- `generate_cookies` and `generate_ping_info` serialise records. The model keeps the records and leaves out JSON encoding.
- Cookie data is a record, so the model has no empty cookie dictionary.
- Branches that cannot be reached are not modelled:
  - the falsy-user branches of `/me`, `/refresh` and `confirm_email_by_slug`, which end in `ACCESS_TOKEN_EXCEPTION`, `REFRESH_TOKEN_EXCEPTION` and a 401, because the dependencies raise before those branches;
  - the `if not profile` check after `profile.key` in `user_registration`.
- The role and group enums are datatypes. The association table of roles and groups is a role's `group` field. The role and group titles are kept only as their lengths.
- The frontend, `main.py`, the logger, the test suite and `config.py` are not part of this model. The exception is the two token lifetimes in `config.py`.
- The endpoints' HTTP responses keep only the status, the body and the `session_id` cookie.
- AuthSpec.GetCurrentUser, AuthSpec.GetCurrentAdmin: the contracts do not list every refusal. The `EXPIRED_EXCEPTION` and `ROLE_EXCEPTION` cases are stated by `AuthProperties.ExpiredAccessTokenRejected` and `AuthProperties.AdminTokenAccepted` for issued tokens.
- AuthService.UserRegistration, ViewSpec.Registration, ViewSpec.RegistrationAnswers, Views.Registration: these run the corrected registration, which does not adopt a live session another user owns. The code as written, which does, is `AuthSpec.UserRegistrationAsWritten` (first row of "## Findings").
- Security.DecodeToken: of the claims PyJWT checks, `nbf` (a future one raises the uncaught `ImmatureSignatureError`) and `aud` (a non-empty one raises the uncaught `InvalidAudienceError`) are not modelled; the tokens this service signs carry neither. The claim checks assume the integer `iat` and `exp` and the string `sub` this service signs. PyJWT's `int()` coercion of `iat` and `exp` (numeric strings accepted), the uncaught `TypeError` of a null `exp`, and the rejection of a non-string `sub` by PyJWT from 2.10 on are not modelled. The library's version is not pinned.
- Views.CookiesSession, Views.AuthenticateUser, Views.Registration, Views.Login, Views.Refresh, Views.ChangePassword: a request without a client info raises in `get_client_info`. The model answers `Crashed` and writes nothing.

## Findings

| source | as written | input that shows it | evidently intended | confidence | as-written member | corrected member |
|---|---|---|---|---|---|---|
| backend/auth/app/api_site_v1/depends.py:277-301 | registration adopts any live session key and rebinds its association to the new user, even when that association already belongs to another website user | a user A logged in on profile P; registering a new email with `Cookie-Session` set to P's key | only an unclaimed guest session is adopted; a claimed one is left to its owner, and registration takes the fresh path | not executed | AuthSpec.UserRegistrationAsWritten, AuthProperties.UserRegistrationAsWrittenUnbindsOwner | AuthSpec.UserRegistration, AuthProperties.UserRegistrationKeeps, AuthProperties.UserRegistrationThenGetUser |
| backend/auth/core/models/user/user_association.py:39-56 | the website and bot partial unique indexes include a column that is NULL on every row they cover, and Postgres treats NULLs as distinct, so the indexes never reject | two rows (role 5, profile 7, no website user, no bot user) | at most one association per profile with these columns | not executed | Associations.SqlUniqueIndex, Associations.SqlPartialIndexesNeverReject, Associations.DuplicateGuestRowsPassSqlIndexes | Associations.UniqueIndex, Associations.OneAssociationPerProfileGivesUniqueIndexes, Tables.ValidGivesUniqueIndexes |
