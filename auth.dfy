/**
 * The authorization gate of the server: `protect` reads the bearer token of
 * the Authorization header and records the caller on the request, and
 * `requireRole(roles)` admits a caller whose stored role is among the
 * required ones. Token verification and the user lookup are oracles; the
 * MOCK environment switch is a parameter.
 */
module Auth {
  import opened Wrappers
  import opened Text

  // ------------------------------------------------------------ tokens

  /**
   * `h && h.startsWith("Bearer") ? h.split(" ")[1] : null`, read as the
   * handlers read it: `None` when that value is falsy (no header, no second
   * field, or an empty one).
   */
  function BearerToken(authorization: Option<string>): (t: Option<string>)
    ensures t.Some? ==> t.value != "" && ' ' !in t.value
    ensures t.Some? ==> authorization.Some? && StartsWith(authorization.value, "Bearer")
  {
    if authorization.None? || !StartsWith(authorization.value, "Bearer") then None
    else
      var fields := Split(authorization.value, ' ');
      if |fields| >= 2 && fields[1] != "" then Some(fields[1]) else None
  }

  /**
   * The token is the text between the first and the second space of a header
   * whose first field starts with "Bearer" (so "BearerX tok" carries "tok"
   * as well).
   */
  lemma BearerTokenOf(scheme: string, token: string, rest: string)
    requires StartsWith(scheme, "Bearer") && ' ' !in scheme
    requires token != "" && ' ' !in token
    requires rest == "" || rest[0] == ' '
    ensures BearerToken(Some(scheme + " " + token + rest)) == Some(token)
  {
    var h := scheme + " " + token + rest;
    assert h == scheme + (" " + token + rest);
    StartsWithExtended(scheme, " " + token + rest, "Bearer");
    assert h[..|scheme|] == scheme;
    SplitAt(h, ' ', |scheme|);
    var tail := token + rest;
    assert h[|scheme| + 1..] == tail;
    if rest == "" {
      SplitNone(token, ' ');
    } else {
      assert tail[..|token|] == token;
      SplitAt(tail, ' ', |token|);
    }
    assert Split(tail, ' ')[0] == token;
  }

  /** No header, a header of another scheme, or "Bearer" alone carries no token. */
  lemma NoBearerToken(h: string)
    ensures BearerToken(None) == None
    ensures !StartsWith(h, "Bearer") ==> BearerToken(Some(h)) == None
    ensures BearerToken(Some("Bearer")) == None
  {
    assert ' ' !in "Bearer";
  }

  // ------------------------------------------------------------ decisions

  /** The caller recorded on the request: its id and, in mock mode, its role. */
  datatype Caller = Caller(id: string, role: Option<string>)

  datatype Outcome = Next | Deny(status: nat, error: string)

  /** A gate's decision together with the caller it leaves on the request. */
  datatype Gate = Gate(outcome: Outcome, user: Option<Caller>)

  /** `a || b` on optional strings (an empty string is falsy). */
  function Or(a: Option<string>, b: string): string {
    if a.Some? && a.value != "" then a.value else b
  }

  /**
   * `protect`. `verify` is token verification: the id it decodes, or `None`
   * when it throws.
   */
  function ProtectGate(mock: bool, authorization: Option<string>, mockRole: Option<string>,
                       user: Option<Caller>, verify: string -> Option<string>): Gate
  {
    if mock then Gate(Next, Some(Caller("mock-user-id", Some(Or(mockRole, "user")))))
    else match BearerToken(authorization)
      case None => Gate(Deny(401, "No token, authorization denied"), user)
      case Some(token) =>
        match verify(token)
        case None => Gate(Deny(401, "Token is not valid"), user)
        case Some(id) => Gate(Next, Some(Caller(id, None)))
  }

  /** Mock mode always lets the caller through, with the role from the x-mock-role header or 'user'. */
  lemma ProtectMock(authorization: Option<string>, mockRole: Option<string>,
                    user: Option<Caller>, verify: string -> Option<string>)
    ensures var g := ProtectGate(true, authorization, mockRole, user, verify);
      && g.outcome == Next
      && g.user == Some(Caller("mock-user-id", Some(if mockRole.Some? && mockRole.value != "" then mockRole.value else "user")))
  {
  }

  /**
   * Outside mock mode `protect` passes exactly when there is a token that
   * verifies, and then records the decoded id; every refusal is a 401 that
   * leaves the request's caller as it was.
   */
  lemma ProtectDecision(authorization: Option<string>, mockRole: Option<string>,
                        user: Option<Caller>, verify: string -> Option<string>)
    ensures var g := ProtectGate(false, authorization, mockRole, user, verify);
      && (g.outcome == Next <==> BearerToken(authorization).Some? && verify(BearerToken(authorization).value).Some?)
      && (g.outcome == Next ==> g.user == Some(Caller(verify(BearerToken(authorization).value).value, None)))
      && (g.outcome.Deny? ==> g.outcome.status == 401 && g.user == user)
  {
  }

  /** The `roles` argument of `requireRole`: omitted, an array, or a single role. */
  datatype RolesArg = Omitted | Many(roles: seq<string>) | One(role: string)

  /** `Array.isArray(roles) ? roles : [roles]`, with `[]` as the default. */
  function RequiredRoles(arg: RolesArg): (r: seq<string>)
    ensures arg.One? ==> r == [arg.role]
    ensures arg.Omitted? ==> r == []
  {
    match arg
    case Omitted => []
    case Many(roles) => roles
    case One(role) => [role]
  }

  /** `requiredRoles.length && !requiredRoles.includes(role)`. */
  predicate Refused(required: seq<string>, role: Option<string>) {
    |required| > 0 && !(role.Some? && role.value in required)
  }

  /** The stored user the lookup finds, none, or an exception. */
  datatype Lookup = Found(role: Option<string>) | NotFound | LookupFailed

  /**
   * The handler `requireRole(roles)` returns. `verify` is token verification
   * as for `protect`; `lookup` finds the stored user of an id. Every
   * exception on the way ends in 401 "Unauthorized".
   */
  function RequireRoleGate(arg: RolesArg, mock: bool, authorization: Option<string>, mockRole: Option<string>,
                           user: Option<Caller>, verify: string -> Option<string>, lookup: string -> Lookup): Gate
  {
    var required := RequiredRoles(arg);
    if mock then
      var role := Or(if user.Some? then user.value.role else None, Or(mockRole, "user"));
      if Refused(required, Some(role)) then Gate(Deny(403, "Forbidden"), user) else Gate(Next, user)
    else if user.Some? && user.value.id != "" then
      RoleCheck(required, user.value, lookup)
    else match BearerToken(authorization)
      case None => Gate(Deny(401, "No token"), user)
      case Some(token) =>
        match verify(token)
        case None => Gate(Deny(401, "Unauthorized"), user)
        case Some(id) => RoleCheck(required, Caller(id, None), lookup)
  }

  /** The lookup of the caller's stored role and the membership test. */
  function RoleCheck(required: seq<string>, caller: Caller, lookup: string -> Lookup): Gate {
    match lookup(caller.id)
    case LookupFailed => Gate(Deny(401, "Unauthorized"), Some(caller))
    case NotFound => Gate(Deny(401, "Unauthorized"), Some(caller))
    case Found(role) =>
      if Refused(required, role) then Gate(Deny(403, "Forbidden"), Some(caller)) else Gate(Next, Some(caller))
  }

  /** The caller `requireRole` checks outside mock mode: the recorded one, else the one a verified token names. */
  function ResolvedCaller(authorization: Option<string>, user: Option<Caller>, verify: string -> Option<string>): Option<Caller> {
    if user.Some? && user.value.id != "" then user
    else match BearerToken(authorization)
      case None => None
      case Some(token) =>
        match verify(token)
        case None => None
        case Some(id) => Some(Caller(id, None))
  }

  /**
   * Outside mock mode: 403 exactly when a caller is resolved, found, and its
   * stored role is outside a non-empty required list; success exactly when it
   * is found and not refused; everything else (no token, a failed
   * verification, an unknown user, a failing lookup) is 401.
   */
  lemma RequireRoleDecision(arg: RolesArg, authorization: Option<string>, mockRole: Option<string>,
                            user: Option<Caller>, verify: string -> Option<string>, lookup: string -> Lookup)
    ensures var g := RequireRoleGate(arg, false, authorization, mockRole, user, verify, lookup);
      var c := ResolvedCaller(authorization, user, verify);
      && (g.outcome == Deny(403, "Forbidden") <==>
            c.Some? && lookup(c.value.id).Found? && Refused(RequiredRoles(arg), lookup(c.value.id).role))
      && (g.outcome == Next <==>
            c.Some? && lookup(c.value.id).Found? && !Refused(RequiredRoles(arg), lookup(c.value.id).role))
      && (g.outcome.Deny? && g.outcome.status != 403 ==> g.outcome.status == 401)
  {
  }

  /** An empty required list admits every caller the lookup finds, whatever its role; it never answers 403. */
  lemma EmptyRolesAdmitAnyUser(authorization: Option<string>, mock: bool, mockRole: Option<string>,
                               user: Option<Caller>, verify: string -> Option<string>, lookup: string -> Lookup)
    ensures var g := RequireRoleGate(Many([]), mock, authorization, mockRole, user, verify, lookup);
      var c := ResolvedCaller(authorization, user, verify);
      && g.outcome != Deny(403, "Forbidden")
      && (mock ==> g.outcome == Next)
      && (!mock && c.Some? && lookup(c.value.id).Found? ==> g.outcome == Next)
  {
  }

  /**
   * Once a caller is resolved (recorded by `protect` or named by a verified
   * token), a lookup that throws, or finds no user, is 401 "Unauthorized",
   * never 403, and the resolved caller stays on the request.
   */
  lemma LookupFailureIsUnauthorized(arg: RolesArg, authorization: Option<string>, mockRole: Option<string>,
                                    user: Option<Caller>, verify: string -> Option<string>, lookup: string -> Lookup)
    requires ResolvedCaller(authorization, user, verify).Some?
    requires !lookup(ResolvedCaller(authorization, user, verify).value.id).Found?
    ensures var g := RequireRoleGate(arg, false, authorization, mockRole, user, verify, lookup);
      g.outcome == Deny(401, "Unauthorized") && g.user == ResolvedCaller(authorization, user, verify)
  {
  }

  /**
   * Without a recorded caller, a bearer token whose verification throws is
   * 401 "Unauthorized" and the lookup is never consulted.
   */
  lemma FailedVerificationIsUnauthorized(arg: RolesArg, authorization: Option<string>, mockRole: Option<string>,
                                         user: Option<Caller>, verify: string -> Option<string>, lookup: string -> Lookup)
    requires !(user.Some? && user.value.id != "")
    requires BearerToken(authorization).Some? && verify(BearerToken(authorization).value).None?
    ensures var g := RequireRoleGate(arg, false, authorization, mockRole, user, verify, lookup);
      g.outcome == Deny(401, "Unauthorized") && g.user == user
  {
  }

  /** In mock mode the role is the recorded caller's, else the x-mock-role header's, else 'user'. */
  lemma RequireRoleMock(arg: RolesArg, authorization: Option<string>, mockRole: Option<string>,
                        user: Option<Caller>, verify: string -> Option<string>, lookup: string -> Lookup)
    ensures var g := RequireRoleGate(arg, true, authorization, mockRole, user, verify, lookup);
      var role := if user.Some? && user.value.role.Some? && user.value.role.value != "" then user.value.role.value
                  else if mockRole.Some? && mockRole.value != "" then mockRole.value else "user";
      && g.user == user
      && (g.outcome == Next <==> |RequiredRoles(arg)| == 0 || role in RequiredRoles(arg))
      && (g.outcome != Next ==> g.outcome == Deny(403, "Forbidden"))
  {
  }

  // ------------------------------------------------------------ request

  /** The parts of an incoming request the gate reads and writes. */
  class Request {
    var authorization: Option<string>
    var mockRole: Option<string>
    var user: Option<Caller>

    constructor (authorization: Option<string>, mockRole: Option<string>)
      ensures this.authorization == authorization && this.mockRole == mockRole && user == None
    {
      this.authorization := authorization;
      this.mockRole := mockRole;
      user := None;
    }

    /** `protect`: records the caller on success and answers with a status on refusal. */
    method Protect(mock: bool, verify: string -> Option<string>) returns (outcome: Outcome)
      modifies this
      ensures Gate(outcome, user) == ProtectGate(mock, authorization, mockRole, old(user), verify)
      ensures authorization == old(authorization) && mockRole == old(mockRole)
    {
      if mock {
        var role := if mockRole.Some? && mockRole.value != "" then mockRole.value else "user";
        user := Some(Caller("mock-user-id", Some(role)));
        return Next;
      }
      var token := BearerToken(authorization);
      if token.None? {
        return Deny(401, "No token, authorization denied");
      }
      var decoded := verify(token.value);
      if decoded.None? {
        return Deny(401, "Token is not valid");
      }
      user := Some(Caller(decoded.value, None));
      outcome := Next;
    }

    /** `requireRole(roles)` applied to this request. */
    method RequireRole(arg: RolesArg, mock: bool, verify: string -> Option<string>, lookup: string -> Lookup)
      returns (outcome: Outcome)
      modifies this
      ensures Gate(outcome, user) == RequireRoleGate(arg, mock, authorization, mockRole, old(user), verify, lookup)
      ensures authorization == old(authorization) && mockRole == old(mockRole)
    {
      var required := RequiredRoles(arg);
      if mock {
        var role := Or(if user.Some? then user.value.role else None, Or(mockRole, "user"));
        if Refused(required, Some(role)) {
          return Deny(403, "Forbidden");
        }
        return Next;
      }
      if !(user.Some? && user.value.id != "") {
        var token := BearerToken(authorization);
        if token.None? {
          return Deny(401, "No token");
        }
        var decoded := verify(token.value);
        if decoded.None? {
          return Deny(401, "Unauthorized");
        }
        user := Some(Caller(decoded.value, None));
      }
      var found := lookup(user.value.id);
      if !found.Found? {
        return Deny(401, "Unauthorized");
      }
      if Refused(required, found.role) {
        return Deny(403, "Forbidden");
      }
      outcome := Next;
    }
  }
}
