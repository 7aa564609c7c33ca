# Role gate of the Spring Boot customer demo, in Dafny

This project models `MyInterceptor`, the only decision logic in the
customer demo service. Spring runs its `preHandle` before every
controller method. The handler may carry a `@MyPermission(roles = [...])`
annotation. `preHandle` compares the request's `role` parameter with that
annotation and returns whether the request may reach the controller. When it
denies a controller method, `handleResponseRes` writes a fixed JSON body
(code 0, message "no permission") and closes the writer.

Modules:

- `Wrappers` (wrappers.dfy): `Option`, standing in for nullable values.
- `Permission` (my_permission.dfy): the annotation as a datatype. Both
  `value` and `roles` default to empty.
- `IntParse` (int_parse.dfy): Kotlin's `String.toInt()` as a function that
  can fail. It accepts an optional sign, then ASCII digits, with a 32-bit
  range. The module also holds a printer, used to state the round trip.
- `Servlet` (servlet_response.dfy): a `Response` class whose fields the
  interceptor changes: content type, written body, writer open and committed.
- `Interceptor` (my_interceptor.dfy): the rule `Decide` as a function.
  `BuildRoleSet` is the set-building loop. `HandleResponseRes` and
  `PreHandle` are methods over a `Response`, and `PreHandle` is proved to
  follow `Decide`. The lemmas state each path.
- `CustomerScenarios` (customer_controller.dfy): the two routes of
  `CustomerController`.

An outcome is `Allow`, `Deny(respondsWithBody)` or `Raised(failure)`.
`Allow` is a `true` return. `Deny` is a `false` return, and its flag
says whether the denial body was written. `Raised` means `preHandle` threw:
the `role` parameter was missing or was not an integer. Turning
a bad `role` into a denial would be the safer rule. The code does not do
that, and the model follows the code: the exception stays a distinct outcome
and is never folded into `Deny`.

`Decide` takes nothing but its inputs, so two calls with the same handler
and parameters give the same outcome. `PreHandle`'s outcome does not depend
on the response it is given.

## Model

| member | source | states |
|---|---|---|
| IntParse.ParseInt | springboot-kotlin-demo/src/main/kotlin/com/example/demo/interceptor/MyInterceptor.kt:30 | a parsed role is always a 32-bit value, and it begins with a digit or a sign |
| IntParse.ParseShow | springboot-kotlin-demo/src/main/kotlin/com/example/demo/interceptor/MyInterceptor.kt:30 | every 32-bit integer printed in decimal parses back to itself |
| IntParse.ParseRejectsOverflow | springboot-kotlin-demo/src/main/kotlin/com/example/demo/interceptor/MyInterceptor.kt:30 | a decimal number outside the 32-bit range fails to parse; it does not wrap around |
| IntParse.ParseRejectsNonDigit | springboot-kotlin-demo/src/main/kotlin/com/example/demo/interceptor/MyInterceptor.kt:30 | a character that is neither a digit nor a leading sign makes parsing fail |
| IntParse.ParseRejectsNoDigits | springboot-kotlin-demo/src/main/kotlin/com/example/demo/interceptor/MyInterceptor.kt:30 | the empty string and a lone sign fail to parse |
| Interceptor.Decide | springboot-kotlin-demo/src/main/kotlin/com/example/demo/interceptor/MyInterceptor.kt:15-44 | the allow / deny / raise rule as a function of the handler and the parameters: only a handler with a non-empty roles array can raise; a body is written only for an annotated controller method; an annotated one is allowed only for a listed role; the lemmas below state its cases |
| Interceptor.BuildRoleSet | springboot-kotlin-demo/src/main/kotlin/com/example/demo/interceptor/MyInterceptor.kt:24-28 | the set built by the loop holds exactly the elements of the roles array |
| Interceptor.HandleResponseRes | springboot-kotlin-demo/src/main/kotlin/com/example/demo/interceptor/MyInterceptor.kt:47-58 | the content type becomes the JSON/UTF-8 type; the fixed body is appended when the writer was open; the response is committed and the writer is closed |
| Interceptor.PreHandle | springboot-kotlin-demo/src/main/kotlin/com/example/demo/interceptor/MyInterceptor.kt:13-45 | the outcome equals Decide; the response changes exactly as HandleResponseRes changes it when the outcome is a denial with body; on every other outcome, including the two exceptions, the response is left unchanged |
| Interceptor.Intercept | springboot-kotlin-demo/src/main/kotlin/com/example/demo/interceptor/MyInterceptor.kt:13-58 | on a fresh response: an allowed request has no content type and no body, and its writer is still open; a body and content type appear exactly on a denial with body |
| Interceptor.NotHandlerMethodDeniedSilently | springboot-kotlin-demo/src/main/kotlin/com/example/demo/interceptor/MyInterceptor.kt:43-44 | a handler that is not a controller method is denied without a body |
| Interceptor.UnannotatedAllowed | springboot-kotlin-demo/src/main/kotlin/com/example/demo/interceptor/MyInterceptor.kt:16-20 | a controller method without the annotation is allowed for all parameters, including no role at all |
| Interceptor.EmptyRolesDenied | springboot-kotlin-demo/src/main/kotlin/com/example/demo/interceptor/MyInterceptor.kt:37-40 | an empty roles array denies every request with the body |
| Interceptor.AllowedIffListed | springboot-kotlin-demo/src/main/kotlin/com/example/demo/interceptor/MyInterceptor.kt:23-36 | with non-empty roles, three exact conditions: allowed iff role parses to a listed value; denied with body iff it parses to an unlisted one; raised iff it is missing or does not parse |
| Interceptor.BadRoleRaises | springboot-kotlin-demo/src/main/kotlin/com/example/demo/interceptor/MyInterceptor.kt:30 | with non-empty roles, a missing role raises MissingRole and a non-numeric one raises MalformedRole; neither is a denial |
| Interceptor.ListedRoleAdmitted | springboot-kotlin-demo/src/main/kotlin/com/example/demo/interceptor/MyInterceptor.kt:30-35 | with non-empty roles, a 32-bit role sent in decimal is allowed iff listed and is otherwise denied with the body |
| Interceptor.OnlyRoleSetMatters | springboot-kotlin-demo/src/main/kotlin/com/example/demo/interceptor/MyInterceptor.kt:24-31 | two annotations whose roles have the same elements decide every request alike, whatever their order, duplicates or value attribute |
| Interceptor.ParamsMatterIffRolesConsulted | springboot-kotlin-demo/src/main/kotlin/com/example/demo/interceptor/MyInterceptor.kt:15-44 | the request parameters can change the decision iff the handler is a controller method with a non-empty roles array |
| Servlet.Response.SetContentType | springboot-kotlin-demo/src/main/kotlin/com/example/demo/interceptor/MyInterceptor.kt:48 | sets the content type and changes nothing else |
| Servlet.Response.Write | springboot-kotlin-demo/src/main/kotlin/com/example/demo/interceptor/MyInterceptor.kt:49-56 | appends to the body only while the writer is open |
| Servlet.Response.Flush | springboot-kotlin-demo/src/main/kotlin/com/example/demo/interceptor/MyInterceptor.kt:57 | commits the response if the writer is open |
| Servlet.Response.Close | springboot-kotlin-demo/src/main/kotlin/com/example/demo/interceptor/MyInterceptor.kt:58 | closes the writer and changes nothing else; it is only used after a Flush, so the commit that closing itself performs is not represented |
| CustomerScenarios.FindAllExamples | springboot-kotlin-demo/src/main/kotlin/com/example/demo/CustomerController.kt:12-14 | on /customers: role 3 is allowed, role 7 is denied with body, no role raises MissingRole, "admin" raises MalformedRole |
| CustomerScenarios.FindAllAdmitsExactly | springboot-kotlin-demo/src/main/kotlin/com/example/demo/CustomerController.kt:13 | of all 32-bit roles, /customers allows exactly 2, 3 and 4, and denies every other one with the body |
| CustomerScenarios.FindByLastNameAlwaysAdmits | springboot-kotlin-demo/src/main/kotlin/com/example/demo/CustomerController.kt:16-17 | the unannotated route allows every request |
| CustomerScenarios.BareAnnotationShuts | springboot-kotlin-demo/src/main/kotlin/com/example/demo/annocation/MyPermission.kt:8-11 | an annotation with the default, empty roles denies even role 2 |
| CustomerScenarios.DeniedCustomerRequest | springboot-kotlin-demo/src/main/kotlin/com/example/demo/CustomerController.kt:13 | a client of /customers with role 7 receives the JSON content type and the fixed body |

## Left out

- Spring wiring is not modelled. This covers registering the interceptor for every path (`MyPermitInterceptorConfig.kt`), routing, and application startup. The model takes the handler the router chose as its input.
- Reflection is not modelled. The lookup of `@MyPermission` on the controller method becomes the `Option<MyPermission>` inside `HandlerMethod`.
- `request.getParameter` is modelled as a map from each parameter name to its first value. Multi-valued parameters are not modelled.
- The `println` trace at the start of `preHandle` is console output only, and is left out.
- IntParse.ParseInt: it accepts only ASCII digits. `Integer.parseInt` also accepts other Unicode decimal digits.
- Interceptor.Failure: a missing `role` and a non-numeric one are two distinct failures. The exception classes the JVM throws for them are not modelled.
- Servlet.Response.Close: it does not commit the response, although `PrintWriter.close()` flushes first and so commits. The interceptor always flushes before closing, so no outcome of the model depends on this.
- Servlet.Response: it leaves out the servlet rules that ignore a content type set after the response is committed. It also leaves out the rule that a writer and an output stream cannot both be used, and the HTTP status code (the interceptor never sets one).
- Concurrency is left out. The interceptor keeps no state between requests, so each request is modelled on its own.
- The `Customer` entity, repositories, `IndexController.kt`, the seed-data runners and the HTTP round-trip test are not part of this model. They hold no gating logic.
