/** `InterceptorInvocation`: one interceptor instance together with its
    metadata and the role being intercepted. Unfolding it yields one method
    invocation per interceptor method the metadata lists for that role, in
    the metadata's order, every one bound to the same instance. */
module Invocations {
  import opened Results
  import opened Roles
  import opened Signatures
  import opened ClassModel
  import MethodReferences

  /** An interceptor (or the target object) scheduled for one role. The
      instance is `None` when the handler had no instance for the
      metadata, which is what `Map.get` hands back for a missing key. */
  datatype InterceptorInvocation<T> = InterceptorInvocation(
    instance: Option<T>,
    metadata: InterceptorMetadata,
    role: Role)

  /** `InterceptorMethodInvocation`: call the referenced method on `instance`. */
  datatype MethodInvocation<T> = MethodInvocation(
    instance: Option<T>,
    target: MethodReferences.MethodReference)

  /** The key built for a declared interceptor method: its declaring class
      name with a signature from its name and parameter type names. */
  function ReferenceOf(m: MethodInfo): (r: MethodReferences.MethodReference)
    ensures r.declaringClassName == Some(m.javaMethod.declaringClass.name)
    ensures r.methodSignature.Some? && Signatures.Equals(r.methodSignature.value, Signatures.Of(m.javaMethod))
  {
    var names := ToNames(m.javaMethod.parameterTypes);
    OfAgreesWithNameConstructor(m.javaMethod, names);
    MethodReferences.MethodReference(
      Some(m.javaMethod.declaringClass.name),
      Some(FromNames(Some(m.javaMethod.name), Some(names))))
  }

  /** The interceptor methods the invocation consults: those of its own role. */
  function MethodsOf<T>(inv: InterceptorInvocation<T>): seq<MethodInfo>
  {
    Lookup(inv.metadata.methods, inv.role)
  }

  /** `getInterceptorMethodInvocations()`: the loop over the role's
      interceptor methods, appending one invocation for each. */
  method GetInterceptorMethodInvocations<T>(inv: InterceptorInvocation<T>) returns (r: seq<MethodInvocation<T>>)
    ensures |r| == |MethodsOf(inv)|
    ensures forall k :: 0 <= k < |r| ==> r[k].instance == inv.instance
    ensures forall k :: 0 <= k < |r| ==> r[k].target == ReferenceOf(MethodsOf(inv)[k])
    ensures r == Unfold(inv.instance, MethodsOf(inv))
  {
    var methods := MethodsOf(inv);
    r := [];
    var n := 0;
    while n < |methods|
      invariant 0 <= n <= |methods|
      invariant |r| == n
      invariant forall k :: 0 <= k < n ==> r[k] == MethodInvocation(inv.instance, ReferenceOf(methods[k]))
    {
      r := r + [MethodInvocation(inv.instance, ReferenceOf(methods[n]))];
      n := n + 1;
    }
  }

  /** The same unfolding as a recursive definition over the method list;
      the loop above computes exactly this. */
  function Unfold<T>(instance: Option<T>, methods: seq<MethodInfo>): (r: seq<MethodInvocation<T>>)
    ensures |r| == |methods|
    ensures forall k :: 0 <= k < |r| ==> r[k] == MethodInvocation(instance, ReferenceOf(methods[k]))
  {
    if methods == [] then []
    else [MethodInvocation(instance, ReferenceOf(methods[0]))] + Unfold(instance, methods[1..])
  }

  /** Unfolding follows list concatenation, so a method list that grows
      at the front (as the hierarchy scan builds it) grows its
      invocations at the front too. */
  lemma {:induction false} UnfoldAppend<T>(instance: Option<T>, a: seq<MethodInfo>, b: seq<MethodInfo>)
    ensures Unfold(instance, a + b) == Unfold(instance, a) + Unfold(instance, b)
  {
    if a == [] {
      assert a + b == b;
    } else {
      assert (a + b)[1..] == a[1..] + b;
      UnfoldAppend(instance, a[1..], b);
    }
  }

  /** Only the role fixed at construction is consulted: two metadata that
      agree on that role's list unfold alike, whatever their other roles. */
  lemma OnlyOwnRoleConsulted<T>(inv: InterceptorInvocation<T>, other: InterceptorMetadata)
    requires Lookup(other.methods, inv.role) == Lookup(inv.metadata.methods, inv.role)
    ensures Unfold(inv.instance, MethodsOf(inv.(metadata := other))) == Unfold(inv.instance, MethodsOf(inv))
  {
  }

  /** A role with no interceptor methods unfolds to nothing. */
  lemma NoMethodsNoInvocations<T>(inv: InterceptorInvocation<T>)
    requires inv.role !in inv.metadata.methods
    ensures Unfold(inv.instance, MethodsOf(inv)) == []
  {
  }
}
