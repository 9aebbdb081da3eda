/** The builder-package `InterceptionModelImpl`: the registry keyed by
    `MethodSignature`, with duplicate bindings raising
    `IllegalArgumentException`, plus the "default interceptors" flags. */
module SignatureModel {
  import opened Results
  import opened Roles
  import opened Signatures
  import Registry

  /** `methodsIgnoringDefaults` is part of the state, but no operation of
      this revision ever writes it. */
  datatype Model<I(==,!new)> = Model(
    core: Registry.Registry<MethodSignature, I>,
    ignoringDefaults: set<MethodSignature>,
    excludeDefaultsGlobally: bool)

  function New<I(==,!new)>(): Model<I>
  {
    Model(Registry.Empty(), {}, false)
  }

  const DuplicateFault := IllegalArgument(DuplicateBinding)

  /** `getInterceptors(type, methodSignature)`; `None` stands for null. */
  function GetInterceptors<I(==,!new)>(m: Model<I>, role: Role, key: Option<MethodSignature>): Result<seq<I>>
  {
    Registry.Query(m.core, role, key)
  }

  /** `getInterceptors(type, Method)`: keyed by `MethodSignature.of`. */
  function GetInterceptorsForMethod<I(==,!new)>(m: Model<I>, role: Role, jm: JavaMethod): Result<seq<I>>
  {
    GetInterceptors(m, role, Some(Signatures.Of(jm)))
  }

  /** `appendInterceptors(type, method, interceptors...)`. */
  function AppendInterceptors<I(==,!new)>(m: Model<I>, role: Role, key: Option<MethodSignature>, ids: seq<I>)
    : Result<Model<I>>
  {
    match Registry.Append(m.core, role, key, ids, DuplicateFault)
    case Err(f) => Err(f)
    case Ok(core) => Ok(m.(core := core))
  }

  /** `getAllInterceptors()`. */
  function GetAllInterceptors<I(==,!new)>(m: Model<I>): seq<I>
  {
    m.core.all
  }

  /** `excludeGlobalInterceptors(method)`. */
  function ExcludeGlobalInterceptors<I(==,!new)>(m: Model<I>, key: MethodSignature): Model<I>
  {
    m.(core := Registry.ExcludeGlobals(m.core, key))
  }

  /** `excludeDefaultInterceptors(method)`: as written, this adds to the
      set of methods ignoring the GLOBAL interceptors. */
  function ExcludeDefaultInterceptors<I(==,!new)>(m: Model<I>, key: MethodSignature): Model<I>
  {
    m.(core := Registry.ExcludeGlobals(m.core, key))
  }

  /** `excludeDefaultInterceptorsGlobally()`. */
  function ExcludeDefaultInterceptorsGlobally<I(==,!new)>(m: Model<I>): Model<I>
  {
    m.(excludeDefaultsGlobally := true)
  }

  predicate IsExcludingGlobalInterceptors<I(==,!new)>(m: Model<I>, key: MethodSignature)
  {
    key in m.core.ignoringGlobals
  }

  predicate IsExcludingDefaultInterceptors<I(==,!new)>(m: Model<I>, key: MethodSignature)
  {
    key in m.ignoringDefaults
  }

  predicate IsExcludingDefaultInterceptorsGlobally<I(==,!new)>(m: Model<I>)
  {
    m.excludeDefaultsGlobally
  }

  /** The mutating operations of this revision, for reasoning about every
      model a client can build. */
  datatype Op<I> =
    | AppendOp(role: Role, binding: Option<MethodSignature>, ids: seq<I>)
    | ExcludeGlobalOp(key: MethodSignature)
    | ExcludeDefaultOp(key: MethodSignature)
    | ExcludeDefaultsGloballyOp

  function Step<I(==,!new)>(m: Model<I>, op: Op<I>): Result<Model<I>>
  {
    match op
    case AppendOp(role, key, ids) => AppendInterceptors(m, role, key, ids)
    case ExcludeGlobalOp(key) => Ok(ExcludeGlobalInterceptors(m, key))
    case ExcludeDefaultOp(key) => Ok(ExcludeDefaultInterceptors(m, key))
    case ExcludeDefaultsGloballyOp => Ok(ExcludeDefaultInterceptorsGlobally(m))
  }

  /** Runs the operations in order, stopping at the first exception. */
  function Apply<I(==,!new)>(m: Model<I>, ops: seq<Op<I>>): Result<Model<I>>
    decreases |ops|
  {
    if ops == [] then Ok(m)
    else match Step(m, ops[0])
      case Err(f) => Err(f)
      case Ok(m') => Apply(m', ops[1..])
  }

  // ---------------------------------------------------------------------
  // Properties

  /** Querying a lifecycle role with a method key, or an around role
      without one, raises `IllegalArgumentException`. */
  lemma MalformedQueriesRejected<I(!new)>(m: Model<I>, role: Role, key: Option<MethodSignature>)
    ensures GetInterceptors(m, role, key).Err? <==> IsLifecycle(role) == key.Some?
    ensures GetInterceptors(m, role, key).Err? ==> GetInterceptors(m, role, key).fault.IllegalArgument?
  {
  }

  /** A duplicate append raises `IllegalArgumentException` exactly when one
      of the interceptors is already in the target list, or, for a
      method-bound append, in the role's global list; repeats within one
      call are accepted. */
  lemma AppendRejectsDuplicates<I(!new)>(m: Model<I>, role: Role, key: Option<MethodSignature>, ids: seq<I>)
    ensures var r := AppendInterceptors(m, role, key, ids);
      && (r.Err? ==> r.fault == IllegalArgument(DuplicateBinding))
      && (r.Err? <==> (exists i :: 0 <= i < |ids| &&
                        (ids[i] in Registry.Global(m.core, role) ||
                         (key.Some? && ids[i] in Registry.Bound(m.core, role, key.value)))))
  {
  }

  /** A successful append records its interceptors in `getAllInterceptors`
      after the ones already there, once each. */
  lemma AppendRecordsInterceptors<I(!new)>(m: Model<I>, role: Role, key: Option<MethodSignature>, ids: seq<I>)
    requires Distinct(GetAllInterceptors(m))
    requires AppendInterceptors(m, role, key, ids).Ok?
    ensures var all' := GetAllInterceptors(AppendInterceptors(m, role, key, ids).value);
      && GetAllInterceptors(m) <= all'
      && (forall x :: x in all' <==> x in GetAllInterceptors(m) || x in ids)
      && Distinct(all')
  {
  }

  /** `excludeDefaultInterceptors(m)` makes `isExcludingGlobalInterceptors(m)`
      hold and leaves `isExcludingDefaultInterceptors` as it was. */
  lemma ExcludeDefaultWritesGlobalSet<I(!new)>(m: Model<I>, key: MethodSignature, key2: MethodSignature)
    ensures IsExcludingGlobalInterceptors(ExcludeDefaultInterceptors(m, key), key)
    ensures IsExcludingDefaultInterceptors(ExcludeDefaultInterceptors(m, key), key2)
        == IsExcludingDefaultInterceptors(m, key2)
    ensures ExcludeDefaultInterceptors(m, key) == ExcludeGlobalInterceptors(m, key)
  {
  }

  /** One operation keeps `methodsIgnoringDefaults` as it was and the
      registry invariant. */
  lemma StepPreserves<I(!new)>(m: Model<I>, op: Op<I>)
    requires Registry.Valid(m.core)
    requires Step(m, op).Ok?
    ensures Step(m, op).value.ignoringDefaults == m.ignoringDefaults
    ensures Registry.Valid(Step(m, op).value.core)
  {
    match op
    case AppendOp(role, key, ids) =>
      Registry.AppendPreservesValid(m.core, role, key, ids, DuplicateFault);
    case ExcludeGlobalOp(key) =>
      Registry.ExcludePreservesValid(m.core, key, true);
    case ExcludeDefaultOp(key) =>
      Registry.ExcludePreservesValid(m.core, key, true);
    case ExcludeDefaultsGloballyOp =>
  }

  /** In every model built from a fresh one, `isExcludingDefaultInterceptors`
      is false for every method, `getAllInterceptors` has no repeats and
      every bound interceptor is among them. */
  lemma {:induction false} ReachableModels<I(!new)>(m: Model<I>, ops: seq<Op<I>>)
    requires m.ignoringDefaults == {} && Registry.Valid(m.core)
    requires Apply(m, ops).Ok?
    ensures forall key :: !IsExcludingDefaultInterceptors(Apply(m, ops).value, key)
    ensures Registry.Valid(Apply(m, ops).value.core)
    decreases |ops|
  {
    if ops != [] {
      StepPreserves(m, ops[0]);
      ReachableModels(Step(m, ops[0]).value, ops[1..]);
    }
  }
}
