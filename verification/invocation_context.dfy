/** `InterceptorInvocationContext`: the `InvocationContext` handed to each
    interceptor. Modelled here are the parameter accessors, whose setter
    checks a replacement argument array against the intercepted method's
    declared parameter types, and the exception translation of `proceed`.

    Argument values are abstracted to their runtime class (`getClass()`),
    and `isAssignableFrom` between reference classes is a parameter. */
module InvocationContext {
  import opened Results
  import opened ParameterTypes

  /** An argument: `null`, or an object of the given runtime class. */
  datatype Value = Null | Object(runtimeClass: JType)

  /** `assignable(target, source)` is `target.isAssignableFrom(source)`. */
  type Assignability = (JType, JType) -> bool

  /** The state the accessors touch: the intercepted method's parameter
      types (`None` during a lifecycle callback, which has no method) and
      the current argument array (`None` for a null array). */
  datatype Context = Context(parameterTypes: Option<seq<JType>>, parameters: Option<seq<Value>>)

  /** `getParameters()`. */
  function GetParameters(c: Context): (r: Result<Option<seq<Value>>>)
    ensures r.Err? <==> c.parameterTypes.None?
    ensures r.Err? ==> r.fault == IllegalState(LifecycleInvocation)
    ensures r.Ok? ==> r.value == c.parameters
  {
    if c.parameterTypes.Some? then Ok(c.parameters) else Err(IllegalState(LifecycleInvocation))
  }

  /** The argument's class is exactly the declared class: the check stops
      looking at this position (the `break` of the source, see below). */
  predicate Exact(declared: JType, arg: Value)
  {
    arg.Object? && arg.runtimeClass == declared
  }

  /** The checks the loop body makes at one position when the classes
      differ, branch by branch: null only for a reference parameter; a
      primitive argument widens or boxes to the parameter; a reference
      argument unboxes to the parameter's primitive or one that widens to
      it, or is assignable to the reference parameter. */
  predicate Fits(declared: JType, arg: Value, assignable: Assignability)
  {
    match arg
    case Null => !IsPrimitive(declared)
    case Object(cls) =>
      if IsPrimitive(cls) then
        if IsPrimitive(declared) then IsWideningPrimitive(cls, declared)
        else assignable(declared, WrapperClass(cls))
      else
        if IsPrimitive(declared) then
          var unboxed := PrimitiveClass(cls);
          unboxed == declared || IsWideningPrimitive(unboxed, declared)
        else assignable(declared, cls)
  }

  /** The conversions section 5.3 of the Java Language Specification
      allows in a method invocation context, each listed on its own:
      `null` to any reference type; identity (5.1.1); widening primitive
      (5.1.2); widening reference (5.1.5); boxing then widening reference
      (5.1.7); unboxing, optionally followed by widening primitive (5.1.8). */
  predicate Accepts(declared: JType, arg: Value, assignable: Assignability)
  {
    match arg
    case Null => !declared.Prim?
    case Object(from) =>
      || from == declared
      || IsWideningPrimitive(from, declared)
      || (!from.Prim? && !declared.Prim? && assignable(declared, from))
      || (from.Prim? && !declared.Prim? && assignable(declared, Wrapper(from.p)))
      || (from.Wrapper? && declared.Prim?
          && (declared.p == from.w || IsWideningPrimitive(Prim(from.w), declared)))
  }

  /** The per-position check is exactly the conversion rule: an exact
      class is accepted, and otherwise the branches of the loop body
      accept what section 5.3 accepts. */
  lemma FitsIsConversion(declared: JType, arg: Value, assignable: Assignability)
    ensures Exact(declared, arg) ==> Accepts(declared, arg, assignable)
    ensures !Exact(declared, arg) ==> (Fits(declared, arg, assignable) <==> Accepts(declared, arg, assignable))
  {
  }

  /** Every position of the array is acceptable for its parameter. */
  predicate AllAccepted(types: seq<JType>, args: seq<Value>, assignable: Assignability)
    requires |types| == |args|
  {
    forall i :: 0 <= i < |args| ==> Accepts(types[i], args[i], assignable)
  }

  /** The exception for a rejected position. */
  function Rejection(args: seq<Value>, i: nat): Fault
    requires i < |args|
  {
    IllegalArgument(if args[i].Null? then NullOnPrimitive(i) else IncompatibleAt(i))
  }

  /** The first position from `from` on that is not acceptable, checking
      every position: the loop as evidently intended, where an exact class
      match lets the loop go on to the next position. */
  function FirstRejected(types: seq<JType>, args: seq<Value>, from: nat, assignable: Assignability): (r: Option<nat>)
    requires |types| == |args| && from <= |args|
    ensures r.None? <==> forall i :: from <= i < |args| ==> Accepts(types[i], args[i], assignable)
    ensures r.Some? ==> from <= r.value < |args| && !Accepts(types[r.value], args[r.value], assignable)
    ensures r.Some? ==> forall i :: from <= i < r.value ==> Accepts(types[i], args[i], assignable)
    decreases |args| - from
  {
    if from == |args| then None
    else
      FitsIsConversion(types[from], args[from], assignable);
      if Exact(types[from], args[from]) then FirstRejected(types, args, from + 1, assignable)
      else if !Fits(types[from], args[from], assignable) then Some(from)
      else FirstRejected(types, args, from + 1, assignable)
  }

  /** The first position from `from` on whose argument has exactly the
      declared class, or the length of the array when there is none. */
  function FirstExact(types: seq<JType>, args: seq<Value>, from: nat): (n: nat)
    requires |types| == |args| && from <= |args|
    ensures from <= n <= |args|
    ensures forall i :: from <= i < n ==> !Exact(types[i], args[i])
    ensures n < |args| ==> Exact(types[n], args[n])
    decreases |args| - from
  {
    if from == |args| || Exact(types[from], args[from]) then from
    else FirstExact(types, args, from + 1)
  }

  /** The loop as written: an exact class match `break`s out of the loop,
      so no later position is looked at. */
  function FirstRejectedAsWritten(types: seq<JType>, args: seq<Value>, from: nat, assignable: Assignability)
    : (r: Option<nat>)
    requires |types| == |args| && from <= |args|
    ensures r.None? <==> forall i :: from <= i < FirstExact(types, args, from) ==> Accepts(types[i], args[i], assignable)
    ensures r.Some? ==> from <= r.value < FirstExact(types, args, from)
    ensures r.Some? ==> !Accepts(types[r.value], args[r.value], assignable)
    ensures r.Some? ==> forall i :: from <= i < r.value ==> Accepts(types[i], args[i], assignable)
    decreases |args| - from
  {
    if from == |args| then None
    else
      FitsIsConversion(types[from], args[from], assignable);
      if Exact(types[from], args[from]) then None
      else if !Fits(types[from], args[from], assignable) then Some(from)
      else FirstRejectedAsWritten(types, args, from + 1, assignable)
  }

  /** The context after a call, and the exception it threw if any. */
  datatype After = After(context: Context, thrown: Option<Fault>)

  /** The length `setParameters` checks: a null array counts as empty. */
  function Count(params: Option<seq<Value>>): nat
  {
    if params.None? then 0 else |params.value|
  }

  /** `setParameters(params)`, with `asWritten` choosing the loop with or
      without the `break`: no method means a lifecycle call; a wrong length is rejected; a null
      array of the right (zero) length changes nothing; otherwise the
      first rejected position raises, and a clean array is stored. */
  function SetWith(c: Context, params: Option<seq<Value>>, assignable: Assignability, asWritten: bool): After
  {
    if c.parameterTypes.None? then After(c, Some(IllegalState(LifecycleInvocation)))
    else if |c.parameterTypes.value| != Count(params) then
      After(c, Some(IllegalArgument(ArityMismatch(|c.parameterTypes.value|, Count(params)))))
    else if params.None? then After(c, None)
    else
      var types := c.parameterTypes.value;
      var args := params.value;
      var rejected := if asWritten then FirstRejectedAsWritten(types, args, 0, assignable)
                      else FirstRejected(types, args, 0, assignable);
      if rejected.Some? then After(c, Some(Rejection(args, rejected.value)))
      else After(c.(parameters := params), None)
  }

  /** `setParameters` with every position checked, the behaviour the
      method's comments and tests describe. */
  function SetParameters(c: Context, params: Option<seq<Value>>, assignable: Assignability): (r: After)
    ensures c.parameterTypes.None? ==> r == After(c, Some(IllegalState(LifecycleInvocation)))
    ensures c.parameterTypes.Some? && |c.parameterTypes.value| != Count(params) ==>
      r == After(c, Some(IllegalArgument(ArityMismatch(|c.parameterTypes.value|, Count(params)))))
    ensures r.thrown.None? <==>
      c.parameterTypes.Some? && |c.parameterTypes.value| == Count(params)
      && (params.Some? ==> AllAccepted(c.parameterTypes.value, params.value, assignable))
    ensures r.thrown.Some? ==> r.context == c
    ensures r.thrown.None? && params.None? ==> r.context == c
    ensures r.thrown.None? && params.Some? ==> r.context == c.(parameters := params)
    ensures r.thrown.Some? && c.parameterTypes.Some? && |c.parameterTypes.value| == Count(params) ==>
      exists i :: 0 <= i < Count(params) && r.thrown == Some(Rejection(params.value, i))
        && !Accepts(c.parameterTypes.value[i], params.value[i], assignable)
        && forall j :: 0 <= j < i ==> Accepts(c.parameterTypes.value[j], params.value[j], assignable)
  {
    SetWith(c, params, assignable, false)
  }

  /** `setParameters` as written, with the `break`. */
  function SetParametersAsWritten(c: Context, params: Option<seq<Value>>, assignable: Assignability): (r: After)
    ensures c.parameterTypes.None? ==> r == After(c, Some(IllegalState(LifecycleInvocation)))
    ensures c.parameterTypes.Some? && |c.parameterTypes.value| != Count(params) ==>
      r == After(c, Some(IllegalArgument(ArityMismatch(|c.parameterTypes.value|, Count(params)))))
    ensures r.thrown.None? <==>
      c.parameterTypes.Some? && |c.parameterTypes.value| == Count(params)
      && (params.Some? ==> forall i :: 0 <= i < FirstExact(c.parameterTypes.value, params.value, 0) ==>
                             Accepts(c.parameterTypes.value[i], params.value[i], assignable))
    ensures r.thrown.Some? ==> r.context == c
    ensures r.thrown.None? ==> r.context == c.(parameters := if params.Some? then params else c.parameters)
    ensures r.thrown.Some? && c.parameterTypes.Some? && |c.parameterTypes.value| == Count(params) ==>
      params.Some? &&
      exists i :: 0 <= i < FirstExact(c.parameterTypes.value, params.value, 0)
        && r.thrown == Some(Rejection(params.value, i))
        && !Accepts(c.parameterTypes.value[i], params.value[i], assignable)
        && forall j :: 0 <= j < i ==> Accepts(c.parameterTypes.value[j], params.value[j], assignable)
  {
    SetWith(c, params, assignable, true)
  }

  /** What the corrected setter accepts, the setter as written accepts
      too; the two differ only in what follows an exact match. */
  lemma AsWrittenAcceptsMore(c: Context, params: Option<seq<Value>>, assignable: Assignability)
    ensures SetParameters(c, params, assignable).thrown.None? ==> SetParametersAsWritten(c, params, assignable).thrown.None?
    ensures SetParameters(c, params, assignable).thrown.None? ==>
      SetParametersAsWritten(c, params, assignable) == SetParameters(c, params, assignable)
  {
  }

  /** When no argument has exactly its parameter's class, the `break`
      never fires and the two setters agree. */
  lemma AgreeWithoutExactMatch(c: Context, params: Option<seq<Value>>, assignable: Assignability)
    requires c.parameterTypes.Some? && params.Some? && |c.parameterTypes.value| == |params.value|
    requires forall i :: 0 <= i < |params.value| ==> !Exact(c.parameterTypes.value[i], params.value[i])
    ensures SetParametersAsWritten(c, params, assignable) == SetParameters(c, params, assignable)
  {
    assert FirstExact(c.parameterTypes.value, params.value, 0) == |params.value|;
    var r1 := FirstRejected(c.parameterTypes.value, params.value, 0, assignable);
    var r2 := FirstRejectedAsWritten(c.parameterTypes.value, params.value, 0, assignable);
    assert r1 == r2 by {
      if r1.Some? && r2.Some? {
        if r1.value < r2.value {
          assert false;
        } else if r2.value < r1.value {
          assert false;
        }
      }
    }
  }

  /** A successful set is what a later get returns; a null array leaves
      the earlier parameters in place. */
  lemma SetThenGet(c: Context, params: Option<seq<Value>>, assignable: Assignability)
    requires SetParameters(c, params, assignable).thrown.None?
    ensures GetParameters(SetParameters(c, params, assignable).context)
      == Ok(if params.Some? then params else c.parameters)
  {
  }

  const StringClass := Reference("java.lang.String")

  /** An invocation of a method `(String, int)` with a `String` and an
      `Integer`: the counterexample of the `break` finding below. */
  const StringIntMethod := Context(Some([StringClass, Prim(Int)]), Some([Object(StringClass), Object(Wrapper(Int))]))

  /** As written, `("x", null)` on `(String, int)` is stored: the exact
      match at position 0 ends the loop before the null at the primitive
      position 1 is seen. */
  lemma BreakSkipsNullOnPrimitive(assignable: Assignability)
    ensures SetParametersAsWritten(StringIntMethod, Some([Object(StringClass), Null]), assignable)
      == After(StringIntMethod.(parameters := Some([Object(StringClass), Null])), None)
  {
    assert Exact(StringClass, Object(StringClass));
    assert FirstExact([StringClass, Prim(Int)], [Object(StringClass), Null], 0) == 0;
  }

  /** Checking every position, the same call raises for position 1 and
      keeps the old arguments. */
  lemma CorrectedRejectsNullOnPrimitive(assignable: Assignability)
    ensures SetParameters(StringIntMethod, Some([Object(StringClass), Null]), assignable)
      == After(StringIntMethod, Some(IllegalArgument(NullOnPrimitive(1))))
  {
    var types, args := [StringClass, Prim(Int)], [Object(StringClass), Null];
    assert !Accepts(types[1], args[1], assignable);
    assert Accepts(types[0], args[0], assignable);
    assert FirstRejected(types, args, 0, assignable) == Some(1);
  }

  /** A one-parameter method of the given type, called with one argument. */
  function OneParameter(declared: JType): Context
  {
    Context(Some([declared]), Some([Null]))
  }

  /** The widening cases `InterceptionTestCase` exercises: an `Integer` or a
      `Character` replaces a `long` argument, a `Long` does not replace an
      `int`, and null never replaces a primitive. */
  lemma PrimitiveParameterScenarios(assignable: Assignability)
    ensures SetParameters(OneParameter(Prim(Long)), Some([Object(Wrapper(Int))]), assignable).thrown.None?
    ensures SetParameters(OneParameter(Prim(Long)), Some([Object(Wrapper(Char))]), assignable).thrown.None?
    ensures SetParameters(OneParameter(Prim(Int)), Some([Object(Wrapper(Long))]), assignable).thrown
      == Some(IllegalArgument(IncompatibleAt(0)))
    ensures SetParameters(OneParameter(Prim(Int)), Some([Null]), assignable).thrown
      == Some(IllegalArgument(NullOnPrimitive(0)))
  {
    assert FirstRejected([Prim(Int)], [Object(Wrapper(Long))], 0, assignable) == Some(0);
    assert FirstRejected([Prim(Int)], [Null], 0, assignable) == Some(0);
  }

  /** The reference cases of the tests, given the class hierarchy's
      answers: a `Long[]` replaces an `Object[]` argument but not a
      `String[]` one, and an `Integer` does not replace a `Long`. */
  lemma ReferenceParameterScenarios(assignable: Assignability)
    requires assignable(Reference("[Ljava.lang.Object;"), Reference("[Ljava.lang.Long;"))
    requires !assignable(Reference("[Ljava.lang.String;"), Reference("[Ljava.lang.Long;"))
    requires !assignable(Wrapper(Long), Wrapper(Int))
    ensures SetParameters(OneParameter(Reference("[Ljava.lang.Object;")),
                          Some([Object(Reference("[Ljava.lang.Long;"))]), assignable).thrown.None?
    ensures SetParameters(OneParameter(Reference("[Ljava.lang.String;")),
                          Some([Object(Reference("[Ljava.lang.Long;"))]), assignable).thrown
      == Some(IllegalArgument(IncompatibleAt(0)))
    ensures SetParameters(OneParameter(Wrapper(Long)), Some([Object(Wrapper(Int))]), assignable).thrown
      == Some(IllegalArgument(IncompatibleAt(0)))
  {
    assert FirstRejected([Reference("[Ljava.lang.String;")], [Object(Reference("[Ljava.lang.Long;"))], 0, assignable) == Some(0);
    assert FirstRejected([Wrapper(Long)], [Object(Wrapper(Int))], 0, assignable) == Some(0);
  }

  /** What `proceed` can end with: a value, or a throwable. An
      `InterceptorException` is itself an `Exception`. */
  datatype Throwable =
    | AnException(id: nat)
    | AnError(id: nat)
    | InterceptorException(cause: Throwable)

  predicate IsException(t: Throwable)
  {
    t.AnException? || t.InterceptorException?
  }

  datatype Outcome<V> = Returned(value: V) | Threw(thrown: Throwable)

  /** `proceed()`: the rest of the chain's outcome, with an `Exception`
      rethrown as it is and any other throwable wrapped. */
  function Proceed<V>(rest: Outcome<V>): (r: Outcome<V>)
    ensures rest.Returned? ==> r == rest
    ensures rest.Threw? ==> r.Threw? && IsException(r.thrown)
    ensures rest.Threw? && IsException(rest.thrown) ==> r == rest
    ensures rest.Threw? && !IsException(rest.thrown) ==> r == Threw(InterceptorException(rest.thrown))
  {
    match rest
    case Returned(_) => rest
    case Threw(t) => if IsException(t) then rest else Threw(InterceptorException(t))
  }

  /** Nested `proceed` calls wrap at most once: a throwable that has
      passed through one `proceed` passes through the next unchanged. */
  lemma ProceedWrapsOnce<V>(rest: Outcome<V>)
    ensures Proceed(Proceed(rest)) == Proceed(rest)
  {
  }
}
