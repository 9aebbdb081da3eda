/** `InterceptorMethodHandler`: the object a proxy forwards every call to.
    At construction it makes one interceptor instance per interceptor the
    model knows and reads the target class's own interceptor methods; on
    each call it picks the role, asks the model for the interceptors bound
    to that role and method, and lines them up with the target class's own
    callbacks innermost. The chain is returned rather than run: running it
    is the business of `ChainExecution`. */
module MethodHandler {
  import opened Results
  import opened Roles
  import opened Signatures
  import opened ClassModel
  import opened Invocations
  import SignatureModel
  import Registry
  import MetadataScan

  /** The handler state. `targetInstance` is `Some` when the handler wraps
      an existing object (a proxy), `None` when it serves a subclass whose
      `self` is the target. Interceptors are identified by their metadata. */
  datatype Handler<T> = Handler(
    targetInstance: Option<T>,
    model: SignatureModel.Model<InterceptorMetadata>,
    instances: map<InterceptorMetadata, T>,
    targetMetadata: InterceptorMetadata)

  /** The instance table built by the constructor loop: one entry per
      interceptor of the model, made by the instantiator from the
      interceptor's class reference. */
  function InstanceTable<T>(all: seq<InterceptorMetadata>, createFor: string -> T): (r: map<InterceptorMetadata, T>)
    ensures r.Keys == set k | 0 <= k < |all| :: all[k]
    ensures forall md :: md in r ==> r[md] == createFor(md.reference)
    decreases |all|
  {
    if all == [] then map[]
    else
      var rest := InstanceTable(all[1..], createFor);
      assert forall k :: 1 <= k < |all| ==> all[k] == all[1..][k - 1];
      rest[all[0] := createFor(all[0].reference)]
  }

  /** The constructor: a missing model or instantiator is rejected; then
      every interceptor gets an instance and the target class hierarchy
      `targetClass` (most-derived first) is scanned for its own callbacks. */
  function NewHandler<T>(targetInstance: Option<T>,
                         targetClass: seq<ClassInfo>,
                         supported: seq<Role>,
                         model: Option<SignatureModel.Model<InterceptorMetadata>>,
                         instantiator: Option<string -> T>): (r: Result<Handler<T>>)
    requires Distinct(supported) && |targetClass| > 0
    ensures model.None? ==> r == Err(IllegalArgument(NullModel))
    ensures model.Some? && instantiator.None? ==> r == Err(IllegalArgument(NullInstantiator))
    ensures model.Some? && instantiator.Some? ==>
      (r.Ok? <==> MetadataScan.ErrorFree(targetClass, supported, true))
    ensures r.Ok? ==> model == Some(r.value.model) && r.value.targetInstance == targetInstance
    ensures r.Ok? ==> forall md :: md in r.value.instances <==> md in SignatureModel.GetAllInterceptors(r.value.model)
    ensures r.Ok? ==> forall md :: md in r.value.instances ==> r.value.instances[md] == instantiator.value(md.reference)
    ensures r.Ok? ==> r.value.targetMetadata.isTargetClass && r.value.targetMetadata.reference == targetClass[0].name
    ensures r.Ok? ==> forall role :: Lookup(r.value.targetMetadata.methods, role) == MetadataScan.Expected(targetClass, supported, role)
  {
    if model.None? then Err(IllegalArgument(NullModel))
    else if instantiator.None? then Err(IllegalArgument(NullInstantiator))
    else
      var all := SignatureModel.GetAllInterceptors(model.value);
      var instances := InstanceTable(all, instantiator.value);
      assert forall md :: md in instances <==> md in all by {
        forall md ensures md in instances <==> md in all {
          if md in all {
            var k :| 0 <= k < |all| && all[k] == md;
          }
        }
      }
      var targetMetadata :- MetadataScan.ReadMetadataForTargetClass(targetClass, supported);
      Ok(Handler(targetInstance, model.value, instances, targetMetadata))
  }

  /** Whether the handler wraps an existing target (`isProxy`). */
  predicate IsProxy<T>(h: Handler<T>)
  {
    h.targetInstance.Some?
  }

  /** The object the chain's innermost unit and the target call run on. */
  function Receiver<T>(h: Handler<T>, self: T): T
  {
    if IsProxy(h) then h.targetInstance.value else self
  }

  /** The instance registered for an interceptor, `None` for one the
      constructor never saw. */
  function InstanceOf<T>(h: Handler<T>, md: InterceptorMetadata): Option<T>
  {
    if md in h.instances then Some(h.instances[md]) else None
  }

  /** The key of the model query: no method for the lifecycle entry points,
      the method's signature otherwise. */
  function QueryKey(thisMethod: Option<JavaMethod>): Option<MethodSignature>
  {
    if thisMethod.None? then None else Some(Signatures.Of(thisMethod.value))
  }

  /** The units before the target's own: one per interceptor, in order. */
  function InterceptorUnits<T>(h: Handler<T>, list: seq<InterceptorMetadata>, role: Role)
    : (r: seq<InterceptorInvocation<T>>)
    ensures |r| == |list|
    ensures forall k :: 0 <= k < |r| ==> r[k] == InterceptorInvocation(InstanceOf(h, list[k]), list[k], role)
  {
    seq(|list|, k requires 0 <= k < |list| => InterceptorInvocation(InstanceOf(h, list[k]), list[k], role))
  }

  /** Whether the target class has callbacks of its own for the role. */
  predicate TargetIntercepts<T>(h: Handler<T>, role: Role)
  {
    Lookup(h.targetMetadata.methods, role) != []
  }

  /** `executeInterception` up to the start of the chain: the units of the
      chain for `role` and `thisMethod`, or the model's query error. */
  function ExecuteInterception<T>(h: Handler<T>, self: T, thisMethod: Option<JavaMethod>, role: Role)
    : (r: Result<seq<InterceptorInvocation<T>>>)
    ensures r.Err? <==> SignatureModel.GetInterceptors(h.model, role, QueryKey(thisMethod)).Err?
    ensures r.Ok? ==>
      var list := SignatureModel.GetInterceptors(h.model, role, QueryKey(thisMethod)).value;
      && |r.value| == |list| + (if TargetIntercepts(h, role) then 1 else 0)
      && (forall k :: 0 <= k < |list| ==> r.value[k].metadata == list[k] && r.value[k].instance == InstanceOf(h, list[k]))
      && (forall k :: 0 <= k < |r.value| ==> r.value[k].role == role)
      && (TargetIntercepts(h, role) ==>
            r.value[|list|] == InterceptorInvocation(Some(Receiver(h, self)), h.targetMetadata, role))
  {
    var list :- SignatureModel.GetInterceptors(h.model, role, QueryKey(thisMethod));
    var units := InterceptorUnits(h, list, role);
    if TargetIntercepts(h, role) then
      Ok(units + [InterceptorInvocation(Some(Receiver(h, self)), h.targetMetadata, role)])
    else Ok(units)
  }

  /** What `invoke` learns about the called method from reflection and from
      helpers outside the model: the names of the generated lifecycle
      entry points, whether the method is an interception candidate, and
      whether the around-timeout role is supported and marked on it. */
  datatype CallSite = CallSite(
    postConstructName: string,
    preDestroyName: string,
    isCandidate: bool,
    timeoutSupported: bool,
    timeoutMarked: bool)

  /** The outcome of `invoke`: nothing to do (`null`), a direct call on the
      receiver, or a chain to run for a role, ending in a call of `proceed`
      (absent for lifecycle callbacks) on `receiver`. */
  datatype Dispatch<T> =
    | NoInterception
    | DirectCall(receiver: T, callee: JavaMethod)
    | Chain(role: Role, units: seq<InterceptorInvocation<T>>, receiver: T, proceed: Option<JavaMethod>)

  /** The role `invoke` intercepts a candidate method with. */
  function AroundRole(site: CallSite): (role: Role)
    ensures role == AroundTimeout <==> site.timeoutSupported && site.timeoutMarked
    ensures role == AroundInvoke <==> !(site.timeoutSupported && site.timeoutMarked)
  {
    if site.timeoutSupported && site.timeoutMarked then AroundTimeout else AroundInvoke
  }

  /** `invoke(self, thisMethod, proceed, args)`. A call without a proceed
      method is a lifecycle entry point and is intercepted with no method;
      a call with one bypasses the chain unless the method is a candidate.
      Every query `invoke` makes is well formed, so it never fails. */
  function Invoke<T>(h: Handler<T>, self: T, thisMethod: JavaMethod, proceed: Option<JavaMethod>, site: CallSite)
    : (r: Result<Dispatch<T>>)
    ensures proceed.None? && thisMethod.name != site.postConstructName && thisMethod.name != site.preDestroyName
      ==> r == Ok(NoInterception)
    ensures proceed.Some? && !site.isCandidate ==>
      r == Ok(DirectCall(Receiver(h, self), if IsProxy(h) then thisMethod else proceed.value))
    ensures r.Ok? && r.value.Chain? ==>
      && (r.value.role == PostConstruct <==> proceed.None? && thisMethod.name == site.postConstructName)
      && (r.value.role == PreDestroy <==> proceed.None? && thisMethod.name != site.postConstructName
                                           && thisMethod.name == site.preDestroyName)
      && (IsLifecycle(r.value.role) <==> r.value.proceed.None?)
      && (r.value.proceed.Some? ==> r.value.proceed == Some(thisMethod) && r.value.role == AroundRole(site))
      && r.value.receiver == Receiver(h, self)
      && Ok(r.value.units) == ExecuteInterception(h, self, r.value.proceed, r.value.role)
    ensures r.Ok?
  {
    if proceed.None? then
      if thisMethod.name == site.postConstructName then
        var units := ExecuteInterception(h, self, None, PostConstruct).value;
        Ok(Chain(PostConstruct, units, Receiver(h, self), None))
      else if thisMethod.name == site.preDestroyName then
        var units := ExecuteInterception(h, self, None, PreDestroy).value;
        Ok(Chain(PreDestroy, units, Receiver(h, self), None))
      else Ok(NoInterception)
    else if !site.isCandidate then
      Ok(DirectCall(Receiver(h, self), if IsProxy(h) then thisMethod else proceed.value))
    else
      var role := AroundRole(site);
      var units := ExecuteInterception(h, self, Some(thisMethod), role).value;
      Ok(Chain(role, units, Receiver(h, self), Some(thisMethod)))
  }

  /** The units a handler over a well-formed model builds never lack an
      instance: every interceptor the model returns was given one by the
      constructor, made from its own class reference. */
  lemma UnitsHaveInstances<T>(h: Handler<T>, self: T, thisMethod: Option<JavaMethod>, role: Role,
                              createFor: string -> T)
    requires Registry.Valid(h.model.core)
    requires forall md :: md in h.instances <==> md in SignatureModel.GetAllInterceptors(h.model)
    requires forall md :: md in h.instances ==> h.instances[md] == createFor(md.reference)
    requires ExecuteInterception(h, self, thisMethod, role).Ok?
    ensures forall u :: u in ExecuteInterception(h, self, thisMethod, role).value ==>
      u.instance.Some? && (u.metadata != h.targetMetadata ==> u.instance.value == createFor(u.metadata.reference))
  {
    var list := SignatureModel.GetInterceptors(h.model, role, QueryKey(thisMethod)).value;
    Registry.QueryResultsRegistered(h.model.core, role, QueryKey(thisMethod));
    var r := ExecuteInterception(h, self, thisMethod, role).value;
    forall u | u in r
      ensures u.instance.Some? && (u.metadata != h.targetMetadata ==> u.instance.value == createFor(u.metadata.reference))
    {
      var k :| 0 <= k < |r| && r[k] == u;
      if k < |list| {
        assert list[k] in list;
      }
    }
  }

  /** Lifecycle callbacks are looked up without a method: the chain built
      for a lifecycle entry point is the model's global list for the role,
      then the target's own callbacks. */
  lemma LifecycleChainIsGlobalList<T>(h: Handler<T>, self: T, role: Role)
    requires IsLifecycle(role)
    ensures ExecuteInterception(h, self, None, role).Ok?
    ensures var units := ExecuteInterception(h, self, None, role).value;
      var globals := Registry.Global(h.model.core, role);
      && |units| == |globals| + (if TargetIntercepts(h, role) then 1 else 0)
      && (forall k :: 0 <= k < |globals| ==> units[k].metadata == globals[k])
  {
    Registry.LifecycleQueryIsGlobalList(h.model.core, role);
  }

  /** The target's own unit is the innermost one: it is the last unit, and
      it is there exactly when the target has callbacks for the role. */
  lemma TargetUnitInnermost<T>(h: Handler<T>, self: T, thisMethod: Option<JavaMethod>, role: Role)
    requires ExecuteInterception(h, self, thisMethod, role).Ok?
    ensures var units := ExecuteInterception(h, self, thisMethod, role).value;
      var list := SignatureModel.GetInterceptors(h.model, role, QueryKey(thisMethod)).value;
      && (TargetIntercepts(h, role) <==> |units| == |list| + 1)
      && (TargetIntercepts(h, role) ==> units[|units| - 1].metadata == h.targetMetadata
                                        && units[|units| - 1].instance == Some(Receiver(h, self)))
      && units[..|list|] == InterceptorUnits(h, list, role)
  {
    var units := ExecuteInterception(h, self, thisMethod, role).value;
    var list := SignatureModel.GetInterceptors(h.model, role, QueryKey(thisMethod)).value;
    assert units[..|list|] == InterceptorUnits(h, list, role);
  }
}
