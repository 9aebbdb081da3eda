/** Failure-carrying values shared by every module of the interception model.

    Java's `null` is modelled by `Option.None` wherever the source tests for it,
    and every exception the core throws becomes an `Err` carrying a `Fault`. */
module Results {

  datatype Option<+T> = None | Some(value: T)

  /** Why an `IllegalArgumentException` or `IllegalStateException` was raised. */
  datatype Detail =
    | LifecycleWithMethod        // a lifecycle role was queried with a method key
    | AroundWithoutMethod        // an around role was queried without a method key
    | DuplicateBinding           // an interceptor is already bound for the role and key
    | NullModel                  // a null interception model was supplied
    | NullInstantiator           // a null interceptor instantiator was supplied
    | ArityMismatch(expected: nat, actual: nat)
    | NullOnPrimitive(position: nat)
    | IncompatibleAt(position: nat)
    | LifecycleInvocation        // parameters accessed during a lifecycle callback

  /** The exception kinds the core raises. */
  datatype Fault =
    | IllegalArgument(detail: Detail)
    | IllegalState(detail: Detail)
    | InterceptorFault           // org.jboss.interceptor InterceptorException
    | MethodSignatureFault       // InterceptorMethodSignatureException
    | MetadataFault              // InterceptorMetadataException

  datatype Result<+T> = Ok(value: T) | Err(fault: Fault) {
    predicate IsFailure() { Err? }

    function PropagateFailure<U>(): Result<U>
      requires Err?
    {
      Err(fault)
    }

    function Extract(): T
      requires Ok?
    {
      value
    }
  }

  /** Entry of a map that defaults to the empty list, as the source's
      `containsKey`/`get` pairs do. */
  function Lookup<K, V>(m: map<K, seq<V>>, k: K): seq<V>
  {
    if k in m then m[k] else []
  }

  /** Sequence without repeated elements. */
  ghost predicate Distinct<T>(s: seq<T>)
  {
    forall i, j :: 0 <= i < j < |s| ==> s[i] != s[j]
  }
}
