/**
 * The `MyPermission` annotation that a controller method may carry.
 * Both attributes default to the empty array; `value` is declared but no
 * decision reads it, `roles` is the list of role numbers allowed to call
 * the annotated method.
 */
module Permission {

  datatype MyPermission = MyPermission(value: seq<string>, roles: seq<int>)

  /** The annotation written with no arguments, `@MyPermission`. */
  function Default(): MyPermission
  {
    MyPermission([], [])
  }

  /** The annotation written as `@MyPermission(roles = [...])`. */
  function WithRoles(roles: seq<int>): MyPermission
  {
    MyPermission([], roles)
  }
}
