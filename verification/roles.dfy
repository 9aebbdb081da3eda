/** The six interception roles (`InterceptionType`) and their partition into
    lifecycle callbacks, which never carry a method, and around roles, which
    always do. */
module Roles {

  datatype Role =
    | AroundInvoke
    | AroundTimeout
    | PostConstruct
    | PreDestroy
    | PrePassivate
    | PostActivate

  predicate IsLifecycle(r: Role)
  {
    !(r.AroundInvoke? || r.AroundTimeout?)
  }

  /** `InterceptionType.values()`, in declaration order. */
  const AllRoles: seq<Role> :=
    [AroundInvoke, AroundTimeout, PostConstruct, PreDestroy, PrePassivate, PostActivate]

  lemma AllRolesComplete(r: Role)
    ensures r in AllRoles
  {
  }
}
