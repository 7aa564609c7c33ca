/**
 * `MyInterceptor`, the role gate Spring runs before every controller method.
 * `Decide` is the allow/deny rule as a function of the handler and the
 * request parameters; `PreHandle` is the interceptor itself, building the
 * role set with a loop and writing the denial through `HandleResponseRes`,
 * and is proved to follow `Decide`.
 */
module Interceptor {
  import opened Wrappers
  import opened Permission
  import opened IntParse
  import opened Servlet

  /** What Spring passes as `handler`: a controller method, whose
      `MyPermission` annotation is looked up by reflection, or anything else
      (a static resource handler, for one). */
  datatype Handler = NotHandlerMethod | HandlerMethod(permission: Option<MyPermission>)

  /** Why `preHandle` throws instead of returning: the `role` parameter is
      absent (a null receiver for `toInt`) or is not a 32-bit decimal
      integer (NumberFormatException). */
  datatype Failure = MissingRole | MalformedRole

  /** How one call of `preHandle` ends. `Deny(true)` is a `false` return after
      the denial body was written, `Deny(false)` one with the response left
      alone. */
  datatype Outcome = Allow | Deny(respondsWithBody: bool) | Raised(failure: Failure)

  const RoleParameter: string := "role"
  const JsonContentType: string := "application/json; charset=utf-8"
  /** The trimmed JSON literal: code 0 and the message "no permission". */
  const DenyBody: string := "{\n\"code\": 0,\n\"msg\": \"\U{65E0}\U{6743}\U{9650}\"\n}"

  /** The handler carries a non-empty role list, the only case in which the
      request's `role` parameter is looked at. */
  predicate ConsultsRole(handler: Handler) {
    handler.HandlerMethod? && handler.permission.Some? && |handler.permission.value.roles| > 0
  }

  /** The gate's rule. `params` maps each request parameter to its first
      value, which is what `getParameter` returns. */
  function Decide(handler: Handler, params: map<string, string>): (o: Outcome)
    ensures o.Raised? ==> ConsultsRole(handler)
    ensures o == Deny(true) ==> handler.HandlerMethod? && handler.permission.Some?
    ensures o == Allow && handler.HandlerMethod? && handler.permission.Some? ==>
      RoleParameter in params && ParseInt(params[RoleParameter]).Some? &&
      ParseInt(params[RoleParameter]).value in handler.permission.value.roles
  {
    match handler
    case NotHandlerMethod => Deny(false)
    case HandlerMethod(None) => Allow
    case HandlerMethod(Some(permission)) =>
      if |permission.roles| == 0 then Deny(true)
      else if RoleParameter !in params then Raised(MissingRole)
      else
        match ParseInt(params[RoleParameter])
        case None => Raised(MalformedRole)
        case Some(role) => if role in permission.roles then Allow else Deny(true)
  }

  /** Copies the annotation's roles into a set, one element at a time. */
  method BuildRoleSet(roles: seq<int>) returns (roleSet: set<int>)
    ensures forall r :: r in roleSet <==> r in roles
  {
    roleSet := {};
    for i := 0 to |roles|
      invariant forall r :: r in roleSet <==> r in roles[..i]
    {
      assert roles[..i + 1] == roles[..i] + [roles[i]];
      roleSet := roleSet + {roles[i]};
    }
    assert roles[..|roles|] == roles;
  }

  /** Writes the denial: JSON content type, the fixed body, then flush and
      close, so nothing written afterwards reaches the client. */
  method HandleResponseRes(response: Response)
    modifies response
    ensures response.contentType == Some(JsonContentType)
    ensures response.body == old(response.body) + (if old(response.writerOpen) then DenyBody else [])
    ensures response.committed == (old(response.committed) || old(response.writerOpen))
    ensures !response.writerOpen
  {
    response.SetContentType(JsonContentType);
    response.Write(DenyBody);
    response.Flush();
    response.Close();
  }

  /** `preHandle`: decides as `Decide` does, touches the response only on
      the paths that deny with a body, and leaves it exactly as it was on
      every other path, including the two that throw. */
  method PreHandle(handler: Handler, params: map<string, string>, response: Response)
    returns (outcome: Outcome)
    modifies response
    ensures outcome == Decide(handler, params)
    ensures outcome == Deny(true) ==>
      && response.contentType == Some(JsonContentType)
      && response.body == old(response.body) + (if old(response.writerOpen) then DenyBody else [])
      && response.committed == (old(response.committed) || old(response.writerOpen))
      && !response.writerOpen
    ensures outcome != Deny(true) ==> unchanged(response)
  {
    if !handler.HandlerMethod? {
      return Deny(false);
    }
    if handler.permission.None? {
      return Allow;
    }
    var permission := handler.permission.value;
    if |permission.roles| > 0 {
      var roleSet := BuildRoleSet(permission.roles);
      if RoleParameter !in params {
        return Raised(MissingRole);
      }
      var parsed := ParseInt(params[RoleParameter]);
      if parsed.None? {
        return Raised(MalformedRole);
      }
      if parsed.value in roleSet {
        return Allow;
      } else {
        HandleResponseRes(response);
        return Deny(true);
      }
    } else {
      HandleResponseRes(response);
      return Deny(true);
    }
  }

  /** One request as the container runs it: a fresh response, then the gate.
      Returns what the client sees. An allowed request has had nothing
      written, and a body is written exactly when a controller method is
      denied. */
  method Intercept(handler: Handler, params: map<string, string>)
    returns (outcome: Outcome, contentType: Option<string>, body: string, writerOpen: bool)
    ensures outcome == Decide(handler, params)
    ensures outcome.Allow? ==> contentType == None && body == [] && writerOpen
    ensures body == (if outcome == Deny(true) then DenyBody else [])
    ensures contentType == (if outcome == Deny(true) then Some(JsonContentType) else None)
    ensures writerOpen <==> outcome != Deny(true)
  {
    var response := new Response();
    outcome := PreHandle(handler, params, response);
    contentType, body, writerOpen := response.contentType, response.body, response.writerOpen;
  }

  /** Anything that is not a controller method is refused without a body. */
  lemma NotHandlerMethodDeniedSilently(params: map<string, string>)
    ensures Decide(NotHandlerMethod, params) == Deny(false)
  {
  }

  /** A controller method without the annotation is let through whatever
      the parameters, so a missing `role` cannot make it fail. */
  lemma UnannotatedAllowed(params: map<string, string>)
    ensures Decide(HandlerMethod(None), params) == Allow
  {
  }

  /** An empty role list refuses every request, with the body, even one
      that carries a well-formed `role`. */
  lemma EmptyRolesDenied(permission: MyPermission, params: map<string, string>)
    requires permission.roles == []
    ensures Decide(HandlerMethod(Some(permission)), params) == Deny(true)
  {
  }

  /** With a non-empty role list, a request is allowed exactly when its
      `role` parameter parses to a listed role; it is denied with the body
      when it parses to an unlisted one, and it throws otherwise. */
  lemma AllowedIffListed(permission: MyPermission, params: map<string, string>)
    requires |permission.roles| > 0
    ensures Decide(HandlerMethod(Some(permission)), params) == Allow <==>
      RoleParameter in params && ParseInt(params[RoleParameter]).Some? &&
      ParseInt(params[RoleParameter]).value in permission.roles
    ensures Decide(HandlerMethod(Some(permission)), params) == Deny(true) <==>
      RoleParameter in params && ParseInt(params[RoleParameter]).Some? &&
      ParseInt(params[RoleParameter]).value !in permission.roles
    ensures Decide(HandlerMethod(Some(permission)), params).Raised? <==>
      RoleParameter !in params || ParseInt(params[RoleParameter]).None?
  {
  }

  /** A missing or non-numeric `role` is an exception, not a denial. */
  lemma BadRoleRaises(permission: MyPermission, params: map<string, string>)
    requires |permission.roles| > 0
    ensures RoleParameter !in params ==>
      Decide(HandlerMethod(Some(permission)), params) == Raised(MissingRole)
    ensures RoleParameter in params && ParseInt(params[RoleParameter]) == None ==>
      Decide(HandlerMethod(Some(permission)), params) == Raised(MalformedRole)
  {
  }

  /** A client sending its role as Kotlin prints it gets in exactly when the
      role is listed, and gets the denial body otherwise. */
  lemma ListedRoleAdmitted(permission: MyPermission, role: int)
    requires |permission.roles| > 0
    requires IntMin <= role <= IntMax
    ensures Decide(HandlerMethod(Some(permission)), map[RoleParameter := Show(role)]) ==
      if role in permission.roles then Allow else Deny(true)
  {
    ParseShow(role);
  }

  /** Only the set of roles matters: their order, their repetitions and the
      `value` attribute do not change any decision. */
  lemma OnlyRoleSetMatters(p: MyPermission, q: MyPermission, params: map<string, string>)
    requires forall r :: r in p.roles <==> r in q.roles
    ensures Decide(HandlerMethod(Some(p)), params) == Decide(HandlerMethod(Some(q)), params)
  {
    if |p.roles| > 0 {
      var first := p.roles[0];
      assert first in p.roles;
      assert first in q.roles;
    }
    if |q.roles| > 0 {
      var first := q.roles[0];
      assert first in q.roles;
      assert first in p.roles;
    }
    if |p.roles| > 0 && RoleParameter in params && ParseInt(params[RoleParameter]).Some? {
      var role := ParseInt(params[RoleParameter]).value;
      assert role in p.roles <==> role in q.roles;
    }
  }

  /** The parameters can change the decision exactly when the handler
      carries a non-empty role list: on every other path `role` is never
      read. */
  lemma ParamsMatterIffRolesConsulted(handler: Handler)
    ensures (forall p1, p2 :: Decide(handler, p1) == Decide(handler, p2)) <==> !ConsultsRole(handler)
  {
    if ConsultsRole(handler) {
      var missing: map<string, string> := map[];
      var malformed := map[RoleParameter := ""];
      assert Decide(handler, missing) == Raised(MissingRole);
      assert Decide(handler, malformed) == Raised(MalformedRole);
    }
  }
}
