/**
 * The request dependencies of the site auth endpoints: the client's address and agent, and the
 * email confirmation by referral slug.
 */
module Dependencies {
  import opened Wrappers
  import opened Base
  import opened Tables
  import opened Security
  import opened Session
  import AuthSpec
  import AuthService

  /** The parts of a request the endpoints read: its headers and the connecting client's host. */
  datatype Request = Request(headers: map<string, string>, client: Option<string>)

  /** What an endpoint or dependency ends with: a value, a raised `HTTPException`, or an uncaught error. */
  datatype Outcome<T> = Done(value: T) | Raised(error: AuthSpec.HttpError) | Crashed

  datatype ClientInfo = ClientInfo(ip: string, userAgent: string)

  /** `request.headers.get(name)`. */
  function Header(r: Request, name: string): (h: Option<string>)
    ensures h.Some? <==> name in r.headers
    ensures h.Some? ==> h.value == r.headers[name]
  {
    if name in r.headers then Some(r.headers[name]) else None
  }

  /** Where Python's `a or b or ...` stops: at the first truthy operand, else at the last one. */
  function OrStop(xs: seq<Option<string>>): (i: nat)
    requires xs != []
    ensures i < |xs| && (AuthSpec.Truthy(xs[i]) || i == |xs| - 1)
    ensures forall j :: 0 <= j < i ==> !AuthSpec.Truthy(xs[j])
    decreases |xs|
  {
    if |xs| == 1 || AuthSpec.Truthy(xs[0]) then 0
    else
      var i := OrStop(xs[1..]);
      assert forall j :: 1 <= j <= i + 1 ==> xs[j] == xs[1..][j - 1];
      i + 1
  }

  /** The value of `a or b or ...`. */
  function Or(xs: seq<Option<string>>): Option<string>
    requires xs != []
  {
    xs[OrStop(xs)]
  }

  /**
   * `get_client_info`: the `X-Client-IP` header when truthy, else the client's host when truthy,
   * else `'localhost'`; the `User-Agent` header, `''` when absent. A request without a client that
   * reaches the host fallback raises `AttributeError` (`None` here).
   */
  function GetClientInfo(r: Request): (c: Option<ClientInfo>)
    ensures c.None? <==> !AuthSpec.Truthy(Header(r, "X-Client-IP")) && r.client.None?
  {
    var ua := Header(r, "User-Agent").GetOr("");
    var forwarded := Header(r, "X-Client-IP");
    if AuthSpec.Truthy(forwarded) then Some(ClientInfo(forwarded.value, ua))
    else if r.client.None? then None
    else if r.client.value != "" then Some(ClientInfo(r.client.value, ua))
    else Some(ClientInfo("localhost", ua))
  }

  /** The address is the `or`-chain of header, host and `'localhost'`, so it is never empty. */
  lemma ClientIpIsOrChain(r: Request)
    requires GetClientInfo(r).Some?
    ensures var chain := [Header(r, "X-Client-IP"), r.client, Some("localhost")];
      Some(GetClientInfo(r).value.ip) == Or(chain)
    ensures GetClientInfo(r).value.ip != ""
  {
    var chain := [Header(r, "X-Client-IP"), r.client, Some("localhost")];
    var rest := [r.client, Some("localhost")];
    assert chain[1..] == rest;
    assert rest[1..] == [Some("localhost")];
    assert OrStop([Some("localhost")]) == 0;
    if AuthSpec.Truthy(chain[0]) {
      assert OrStop(chain) == 0;
    } else if AuthSpec.Truthy(r.client) {
      assert OrStop(rest) == 0;
      assert OrStop(chain) == 1;
    } else {
      assert OrStop(rest) == 1;
      assert OrStop(chain) == 2;
    }
  }

  /** The agent is the `User-Agent` header as sent, and `''` without one. */
  lemma ClientAgent(r: Request)
    requires GetClientInfo(r).Some?
    ensures GetClientInfo(r).value.userAgent == if "User-Agent" in r.headers then r.headers["User-Agent"] else ""
  {
  }

  /**
   * `confirm_email_by_slug`: the current user is resolved first; then the slug is tried as the
   * profile key of that user's own email. No such pair is a 404; the answer is returned otherwise.
   */
  function ConfirmBySlug(d: Db, jws: Jws, token: Token, slug: string, req: Request, now: Time)
    : (s: Step<Outcome<bool>>)
    ensures GetClientInfo(req).None? ==> s == Step(d, Crashed)
  {
    match GetClientInfo(req)
    case None => Step(d, Crashed)
    case Some(info) =>
      var current := AuthSpec.GetCurrentUser(d, jws, token, info.ip, info.userAgent, now);
      match current.result
      case DecodeCrashed => Step(current.db, Crashed)
      case Denied(e) => Step(current.db, Raised(e))
      case Authorized(user) =>
        var answer := AuthSpec.ConfirmEmailByKey(current.db, slug, user.email, info.ip, info.userAgent, now);
        match answer.result
        case None => Step(answer.db, Raised(AuthSpec.HttpError(404, "Referral " + slug + " not found!")))
        case Some(b) => Step(answer.db, Done(b))
  }

  /** A failed current-user resolution answers with its error and writes nothing. */
  lemma ConfirmBySlugNeedsUser(d: Db, jws: Jws, token: Token, slug: string, req: Request, now: Time)
    requires GetClientInfo(req).Some?
    ensures var info := GetClientInfo(req).value;
      var current := AuthSpec.GetCurrentUser(d, jws, token, info.ip, info.userAgent, now);
      !current.result.Authorized? ==>
        ConfirmBySlug(d, jws, token, slug, req, now).db == d
        && (current.result.Denied? ==> ConfirmBySlug(d, jws, token, slug, req, now).result == Raised(current.result.error))
  {
  }

  /**
   * For a resolved user, the answer is a 404 exactly when no user has that user's email with the
   * slug as the key of their bound profile, and `True` means that user is now confirmed.
   */
  lemma ConfirmBySlugAnswers(d: Db, jws: Jws, token: Token, slug: string, req: Request, now: Time)
    requires GetClientInfo(req).Some?
    ensures var info := GetClientInfo(req).value;
      var current := AuthSpec.GetCurrentUser(d, jws, token, info.ip, info.userAgent, now);
      var s := ConfirmBySlug(d, jws, token, slug, req, now);
      current.result.Authorized? ==>
        var email := current.result.user.email;
        (s.result.Raised? <==> AuthSpec.UserWithEmailAndKey(current.db, email, slug).None?)
        && (s.result.Raised? ==> s.result.error.status == 404 && s.db == current.db)
        && (s.result == Done(true) ==>
              var uid := AuthSpec.UserWithEmailAndKey(current.db, email, slug).value;
              uid in s.db.users && s.db.users[uid].emailConfirm && !current.db.users[uid].emailConfirm)
  {
  }

  /** `confirm_email_by_slug` on the session's store. */
  method ConfirmEmailBySlug(st: Store, jws: Jws, token: Token, slug: string, req: Request, now: Time)
    returns (r: Outcome<bool>)
    requires st.Valid()
    modifies st
    ensures var s := ConfirmBySlug(old(st.State()), jws, token, slug, req, now); st.State() == s.db && r == s.result
    ensures st.Valid()
  {
    var info := GetClientInfo(req);
    if info.None? {
      return Crashed;
    }
    var user := AuthService.GetCurrentUser(st, jws, token, info.value.ip, info.value.userAgent, now);
    match user {
      case DecodeCrashed => return Crashed;
      case Denied(e) => return Raised(e);
      case Authorized(u) =>
        var answer := AuthService.ConfirmEmailByKey(st, slug, u.email, info.value.ip, info.value.userAgent, now);
        if answer.Some? {
          return Done(answer.value);
        }
        return Raised(AuthSpec.HttpError(404, "Referral " + slug + " not found!"));
    }
  }
}
