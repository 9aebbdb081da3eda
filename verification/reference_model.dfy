/** The model-package `InterceptionModelImpl`: the older registry, keyed by
    `MethodReference` (declaring class included), with a toggle for the
    global opt-out and duplicate bindings raising `InterceptorException`. */
module ReferenceModel {
  import opened Results
  import opened Roles
  import opened Signatures
  import MethodReferences
  import Registry

  type Model<I(==,!new)> = Registry.Registry<MethodReferences.MethodReference, I>

  function New<I(==,!new)>(): Model<I>
  {
    Registry.Empty()
  }

  /** `methodHolder(method)`: the key of a method. */
  function KeyOf(m: JavaMethod): MethodReferences.MethodReference
  {
    MethodReferences.Of(m)
  }

  function KeyOfOptional(m: Option<JavaMethod>): Option<MethodReferences.MethodReference>
  {
    match m
    case None => None
    case Some(jm) => Some(KeyOf(jm))
  }

  /** `getInterceptors(type, method)`; `None` stands for a null method. */
  function GetInterceptors<I(==,!new)>(m: Model<I>, role: Role, jm: Option<JavaMethod>): Result<seq<I>>
  {
    Registry.Query(m, role, KeyOfOptional(jm))
  }

  /** `appendInterceptors(type, method, interceptors...)`. */
  function AppendInterceptors<I(==,!new)>(m: Model<I>, role: Role, jm: Option<JavaMethod>, ids: seq<I>)
    : Result<Model<I>>
  {
    Registry.Append(m, role, KeyOfOptional(jm), ids, InterceptorFault)
  }

  /** `setExcludeGlobalInterceptors(method, exclude)`. */
  function SetExcludeGlobalInterceptors<I(==,!new)>(m: Model<I>, jm: JavaMethod, exclude: bool): Model<I>
  {
    if exclude then Registry.ExcludeGlobals(m, KeyOf(jm)) else Registry.IncludeGlobals(m, KeyOf(jm))
  }

  /** `getAllInterceptors()`. */
  function GetAllInterceptors<I(==,!new)>(m: Model<I>): seq<I>
  {
    m.all
  }

  // ---------------------------------------------------------------------
  // Properties

  /** Lifecycle-with-method and around-without-method queries raise
      `IllegalArgumentException`; an around query yields the global list,
      unless the method skips it, then the method's own list; a lifecycle
      query yields the global list or the empty list. */
  lemma QueryShape<I(!new)>(m: Model<I>, role: Role, jm: Option<JavaMethod>)
    ensures IsLifecycle(role) && jm.Some? ==> GetInterceptors(m, role, jm) == Err(IllegalArgument(LifecycleWithMethod))
    ensures !IsLifecycle(role) && jm.None? ==> GetInterceptors(m, role, jm) == Err(IllegalArgument(AroundWithoutMethod))
    ensures IsLifecycle(role) && jm.None? ==> GetInterceptors(m, role, jm) == Ok(Registry.Global(m, role))
    ensures !IsLifecycle(role) && jm.Some? ==>
      GetInterceptors(m, role, jm) ==
        Ok((if KeyOf(jm.value) in m.ignoringGlobals then [] else Registry.Global(m, role))
           + Registry.Bound(m, role, KeyOf(jm.value)))
  {
  }

  /** Excluding and then re-including the global interceptors for a method
      restores the global-then-bound order of its around queries. */
  lemma ToggleRestoresGlobals<I(!new)>(m: Model<I>, jm: JavaMethod, role: Role)
    requires !IsLifecycle(role)
    ensures var m' := SetExcludeGlobalInterceptors(SetExcludeGlobalInterceptors(m, jm, true), jm, false);
      GetInterceptors(m', role, Some(jm)) == Ok(Registry.Global(m, role) + Registry.Bound(m, role, KeyOf(jm)))
  {
    Registry.ExcludeThenInclude(m, KeyOf(jm), role);
  }

  /** A duplicate append raises `InterceptorException` and leaves the model
      as it was; a method-bound append is checked against the role's
      global list as well as the method's own list. */
  lemma AppendRejectsDuplicates<I(!new)>(m: Model<I>, role: Role, jm: Option<JavaMethod>, ids: seq<I>)
    ensures var r := AppendInterceptors(m, role, jm, ids);
      && (r.Err? ==> r.fault == InterceptorFault)
      && (jm.None? ==> (r.Err? <==> (exists i :: 0 <= i < |ids| && ids[i] in Registry.Global(m, role))))
      && (jm.Some? ==> (r.Err? <==> (exists i :: 0 <= i < |ids| && (ids[i] in Registry.Global(m, role) || ids[i] in Registry.Bound(m, role, KeyOf(jm.value))))))
  {
  }

  /** Keys include the declaring class: binding a method of one class does
      not bind the same signature on a differently named class. */
  lemma KeysIncludeDeclaringClass<I(!new)>(m: Model<I>, role: Role, jm: JavaMethod, other: JavaClass, ids: seq<I>)
    requires !IsLifecycle(role)
    requires other.name != jm.declaringClass.name
    requires AppendInterceptors(m, role, Some(jm), ids).Ok?
    ensures var m' := AppendInterceptors(m, role, Some(jm), ids).value;
      GetInterceptors(m', role, Some(jm.(declaringClass := other))) == GetInterceptors(m, role, Some(jm.(declaringClass := other)))
  {
    MethodReferences.DeclaringClassDistinguishes(jm, other);
    MethodReferences.EqualsIsFieldEquality(KeyOf(jm), KeyOf(jm.(declaringClass := other)));
    Registry.QueryAfterMethodAppend(m, role, KeyOf(jm), ids, InterceptorFault, role, Some(KeyOf(jm.(declaringClass := other))));
  }

  /** Every successful append adds its interceptors to the insertion-ordered
      all-interceptors set. */
  lemma AppendRecordsInterceptors<I(!new)>(m: Model<I>, role: Role, jm: Option<JavaMethod>, ids: seq<I>)
    requires Registry.Valid(m)
    requires AppendInterceptors(m, role, jm, ids).Ok?
    ensures var m' := AppendInterceptors(m, role, jm, ids).value;
      && GetAllInterceptors(m) <= GetAllInterceptors(m')
      && (forall x :: x in GetAllInterceptors(m') <==> x in GetAllInterceptors(m) || x in ids)
      && Registry.Valid(m')
  {
    Registry.AppendPreservesValid(m, role, KeyOfOptional(jm), ids, InterceptorFault);
  }
}
