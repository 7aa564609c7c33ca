/**
 * The two routes of `CustomerController`, seen through the gate: `GET
 * /customers` is annotated with roles 2, 3 and 4, `GET
 * /customers/{lastName}` carries no annotation.
 */
module CustomerScenarios {
  import opened Wrappers
  import opened Permission
  import opened IntParse
  import opened Interceptor

  function FindAll(): Handler {
    HandlerMethod(Some(WithRoles([2, 3, 4])))
  }

  function FindByLastName(): Handler {
    HandlerMethod(None)
  }

  /** `/customers` with roles 3, 7, none and a word. */
  lemma FindAllExamples()
    ensures Decide(FindAll(), map[RoleParameter := "3"]) == Allow
    ensures Decide(FindAll(), map[RoleParameter := "7"]) == Deny(true)
    ensures Decide(FindAll(), map[]) == Raised(MissingRole)
    ensures Decide(FindAll(), map[RoleParameter := "admin"]) == Raised(MalformedRole)
  {
  }

  /** Of all 32-bit roles, `/customers` admits exactly 2, 3 and 4, and
      answers every other one with the denial body. */
  lemma FindAllAdmitsExactly(role: int)
    requires IntMin <= role <= IntMax
    ensures Decide(FindAll(), map[RoleParameter := Show(role)]) ==
      if 2 <= role <= 4 then Allow else Deny(true)
  {
    ListedRoleAdmitted(WithRoles([2, 3, 4]), role);
  }

  /** `/customers/{lastName}` lets every request through, including one
      with no `role` at all. */
  lemma FindByLastNameAlwaysAdmits(params: map<string, string>)
    ensures Decide(FindByLastName(), params) == Allow
  {
    UnannotatedAllowed(params);
  }

  /** A bare `@MyPermission` shuts its route even to a listed-looking role. */
  lemma BareAnnotationShuts()
    ensures Decide(HandlerMethod(Some(Default())), map[RoleParameter := "2"]) == Deny(true)
  {
    EmptyRolesDenied(Default(), map[RoleParameter := "2"]);
  }

  /** What a client of `/customers` with role 7 receives. */
  method DeniedCustomerRequest() returns (contentType: Option<string>, body: string)
    ensures contentType == Some(JsonContentType) && body == DenyBody
  {
    var outcome, writerOpen;
    outcome, contentType, body, writerOpen := Intercept(FindAll(), map[RoleParameter := "7"]);
    FindAllExamples();
  }
}
