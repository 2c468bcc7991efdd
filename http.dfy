/** Shared vocabulary of the handlers: optional values, the HTTP results the
    handlers return, the authenticated caller, and the role gate that the
    `[Authorize(Roles = ...)]` attribute puts in front of a handler. */
module Http {

  datatype Option<+T> = None | Some(value: T)

  /** The result kinds the handlers produce (`Results.Ok`, `Results.Created`, ...).
      `ValidationProblem` is what the validation filter answers before the
      handler runs when a `[Validate]` body fails its validator.
      `InternalServerError` is the host's answer when a handler throws. */
  datatype Status =
    | Ok
    | Created
    | NoContent
    | NotFound
    | Forbid
    | Unauthorized
    | UnprocessableEntity
    | ValidationProblem
    | InternalServerError

  /** A handler's answer: a success status with a body, or an error status
      with the optional message the handler passed to `Results.X(message)`. */
  datatype Response<+T> =
    | Success(status: Status, body: T)
    | Failure(status: Status, message: Option<string>)

  /** Role names of `ForumRoles`; only their distinctness matters here. */
  const Admin: string := "Admin"
  const ForumUser: string := "ForumUser"

  /** The principal of a request: no valid access token at all, or the claims
      of one (`sub` may be absent from a token). */
  datatype Caller =
    | Anonymous
    | Authenticated(sub: Option<string>, roles: set<string>)

  predicate IsInRole(caller: Caller, role: string) {
    caller.Authenticated? && role in caller.roles
  }

  /** `FindFirstValue(JwtRegisteredClaimNames.Sub)`: null for an anonymous caller. */
  function SubOf(caller: Caller): Option<string> {
    if caller.Authenticated? then caller.sub else None
  }

  /** The `[Authorize(Roles = role)]` gate: an anonymous caller is challenged
      (401), an authenticated caller without the role is forbidden (403), and
      `None` lets the request through to the handler. */
  function RoleGate(caller: Caller, role: string): (r: Option<Status>)
    ensures r.None? <==> IsInRole(caller, role)
    ensures r == Some(Unauthorized) <==> caller.Anonymous?
    ensures r.Some? ==> r.value in {Unauthorized, Forbid}
  {
    match caller
    case Anonymous => Some(Unauthorized)
    case Authenticated(_, roles) => if role in roles then None else Some(Forbid)
  }

  /** What a write request meets before its handler runs: the role gate,
      then the validation filter, which refuses a body that fails its
      validator. `None` lets the handler run. */
  function Admit(caller: Caller, role: string, valid: bool): (r: Option<Status>)
    ensures r.None? <==> IsInRole(caller, role) && valid
    ensures !IsInRole(caller, role) ==> r == RoleGate(caller, role)
    ensures IsInRole(caller, role) && !valid ==> r == Some(ValidationProblem)
  {
    match RoleGate(caller, role)
    case Some(status) => Some(status)
    case None => if valid then None else Some(ValidationProblem)
  }
}
