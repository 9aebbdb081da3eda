# jboss-interceptors core, modelled in Dafny

This project models the core of the JBoss interceptors library, which
applies EJB-style interceptors to a target object. The core consists of:

- **Method keys.** `MethodSignature` holds a method name and its parameter
  type names. The two `MethodReference` classes add the declaring class.
- **Interception model.** This is the registry of interceptors per
  interception type (around-invoke, around-timeout and the four lifecycle
  callbacks). Interceptors are bound either globally or to one method, and
  a method may opt out of the global interceptors. Both revisions of
  `InterceptionModelImpl` are modelled: the `builder` package keys methods
  by `MethodSignature`, the `model` package by `MethodReference`.
  `InterceptionModelBuilder` is the fluent front end over the second.
- **Metadata scan.** `InterceptorMetadataUtils` walks a class and its
  superclasses and collects the interceptor methods of every type. It
  rejects malformed methods and rejects a class that declares two methods
  for one type. An overridden method is not collected from a superclass.
- **Invocations and the chain.** `InterceptorInvocation` pairs an
  interceptor instance with its metadata. `InterceptorMethodHandler`
  decides what an intercepted call does and builds the chain of
  interceptor method invocations, with the target class's own callbacks
  innermost. The chain runs by `proceed()`, which re-runs the rest of the
  chain when an interceptor calls it again, as a retrying interceptor does.
- **Invocation context.** `InterceptorInvocationContext` provides the
  parameter accessors. `setParameters` checks replacement arguments
  against the declared parameter types. The widening table is that of
  section 5.1.2 of the Java Language Specification, and boxing and
  unboxing follow sections 5.1.7 and 5.1.8. `proceed` rethrows
  exceptions and wraps any other throwable in an `InterceptorException`.

Java `null` is modelled with `Option` wherever the code tests for it.
Exceptions are modelled as `Result` values carrying a `Fault` that names
the Java exception class. Each file is one module:

| file | module | models |
|---|---|---|
| results.dfy | Results | `Option`, `Result`, faults |
| roles.dfy | Roles | `InterceptionType` |
| signatures.dfy | Signatures | `MethodSignature` |
| class_model.dfy | ClassModel | the reflective view of classes and interceptor metadata |
| method_references.dfy | MethodReferences | both `MethodReference` classes |
| registry.dfy | Registry | the state and logic shared by both `InterceptionModelImpl` revisions |
| signature_model.dfy | SignatureModel | `builder/InterceptionModelImpl` |
| reference_model.dfy | ReferenceModel | `model/InterceptionModelImpl` |
| model_builder.dfy | ModelBuilder | `InterceptionModelBuilder` |
| metadata_scan.dfy | MetadataScan, MetadataScanProperties | `InterceptorMetadataUtils` |
| invocations.dfy | Invocations | `InterceptorInvocation` |
| chain_execution.dfy | ChainExecution | the interception chain and `proceed()` |
| method_handler.dfy | MethodHandler | `InterceptorMethodHandler` |
| parameter_types.dfy | ParameterTypes | primitive and wrapper class tables |
| invocation_context.dfy | InvocationContext | `InterceptorInvocationContext` |

## Model

| member | source | states |
|---|---|---|
| Signatures.NameOnly | src/main/java/org/jboss/interceptor/metadata/MethodSignature.java:38-41 | the name-only constructor keeps the name and gives an empty, non-null argument list |
| Signatures.ToNames | src/main/java/org/jboss/interceptor/metadata/MethodSignature.java:63-71 | one name per parameter class, in order, each the class's name |
| Signatures.ElementsEqualFrom | src/main/java/org/jboss/interceptor/metadata/MethodSignature.java:97 | the element-wise array comparison holds exactly when the two name arrays agree from the given index on |
| Signatures.EqualsIsFieldEquality | src/main/java/org/jboss/interceptor/metadata/MethodSignature.java:83-107 | `equals` holds exactly when the names are equal and the argument arrays are equal, where null equals only null; this is structural equality of keys |
| Signatures.EqualSignaturesHashAlike | src/main/java/org/jboss/interceptor/metadata/MethodSignature.java:109-115 | equal signatures have equal hash codes, for any string hash function |
| Signatures.NameOnlyMatchesNullaryMethod | src/main/java/org/jboss/interceptor/metadata/MethodSignature.java:38-41 | a name-only signature equals the key of any method of that name with no parameters |
| Signatures.OfAgreesWithNameConstructor | src/main/java/org/jboss/interceptor/metadata/MethodSignature.java:43-61 | `of(method)`, the class-array constructor and the string-array constructor with the parameter type names build equal keys |
| Signatures.DeclaringClassIgnored | src/main/java/org/jboss/interceptor/metadata/MethodSignature.java:55-61 | a signature does not depend on the declaring class: the same method in another class has an equal key |
| MethodReferences.EqualsIsFieldEquality | src/main/java/org/jboss/interceptor/metadata/MethodReference.java:60-84 | `equals` holds exactly when both the class name and the signature are equal (null only to null); this is structural equality |
| MethodReferences.NullFieldEqualsOnlyNull | src/main/java/org/jboss/interceptor/builder/MethodReference.java:74-98 | a reference with a null field never equals one whose field is set, in either direction |
| MethodReferences.EqualReferencesHashAlike | src/main/java/org/jboss/interceptor/metadata/MethodReference.java:86-92 | equal references have equal hash codes |
| MethodReferences.DeclaringClassDistinguishes | src/main/java/org/jboss/interceptor/metadata/MethodReference.java:39-42 | the same method declared in two classes has equal signatures but unequal references |
| MethodReferences.OfFields | src/main/java/org/jboss/interceptor/metadata/MethodReference.java:39-58 | `of(method)` records the declaring class name and the method's signature, which equals the class-array signature of its name and parameters |
| MethodReferences.GettersReturnConstructorArguments | src/main/java/org/jboss/interceptor/builder/MethodReference.java:41-72 | the getters return what the constructor was given |
| MethodReferences.FactoriesAgree | src/main/java/org/jboss/interceptor/builder/MethodReference.java:53-61 | the factory taking method metadata and the factory taking the Java method build equal references |
| Registry.Query | src/main/java/org/jboss/interceptor/builder/InterceptionModelImpl.java:84-117 | a query fails exactly when it is malformed: an illegal-argument fault for a lifecycle type with a method, and another for an around type without one |
| Registry.FirstDuplicate | src/main/java/org/jboss/interceptor/builder/InterceptionModelImpl.java:184-196 | finds nothing exactly when no new interceptor is already in the list; otherwise it returns the first new interceptor, in order, that is already listed |
| Registry.AddAll | src/main/java/org/jboss/interceptor/builder/InterceptionModelImpl.java:175 | the all-interceptors set keeps its old order and grows by exactly the new interceptors, without repeats |
| Registry.AddAllOne | src/main/java/org/jboss/interceptor/builder/InterceptionModelImpl.java:175 | adding one interceptor to the insertion-ordered set appends it at the end when it is new and changes nothing when it is already there |
| Registry.AddAllConcat | src/main/java/org/jboss/interceptor/builder/InterceptionModelImpl.java:175 | adding a list of interceptors is adding its parts in turn, so with AddAllOne the new interceptors follow in the order given, each at its first occurrence |
| Registry.Append | src/main/java/org/jboss/interceptor/builder/InterceptionModelImpl.java:145-182 | the append fails exactly when a new interceptor is already bound: globally for a global append; globally or to the method for a method append. Otherwise the target list is extended by the new interceptors, every other list is unchanged, and the all-interceptors set records them |
| Registry.ExcludeGlobals | src/main/java/org/jboss/interceptor/builder/InterceptionModelImpl.java:129-132 | the method is afterwards in the set of methods that ignore global interceptors |
| Registry.IncludeGlobals | src/main/java/org/jboss/interceptor/model/InterceptionModelImpl.java:102-112 | clearing the flag removes the method from the set of methods that ignore globals |
| Registry.EmptyIsValid | src/main/java/org/jboss/interceptor/builder/InterceptionModelImpl.java:44-54 | a new model meets the invariant: every listed interceptor is recorded in the all-interceptors set, and that set has no repeats |
| Registry.AppendPreservesValid | src/main/java/org/jboss/interceptor/builder/InterceptionModelImpl.java:145-176 | a successful append keeps that invariant |
| Registry.ExcludePreservesValid | src/main/java/org/jboss/interceptor/builder/InterceptionModelImpl.java:129-137 | setting or clearing a method's opt-out keeps that invariant |
| Registry.QueryResultsRegistered | src/main/java/org/jboss/interceptor/builder/InterceptionModelImpl.java:84-122 | every interceptor a query returns is among `getAllInterceptors()` |
| Registry.LifecycleQueryIsGlobalList | src/main/java/org/jboss/interceptor/builder/InterceptionModelImpl.java:96-102 | a lifecycle query returns the type's global list, or nothing when none is bound |
| Registry.AroundQueryOrder | src/main/java/org/jboss/interceptor/builder/InterceptionModelImpl.java:103-115 | an around query returns the global interceptors before the method's own, or only the method's own when the method ignores globals. It is empty exactly when both parts that apply are empty |
| Registry.QueryAfterGlobalAppend | src/main/java/org/jboss/interceptor/builder/InterceptionModelImpl.java:147-156 | after a global append, the type's lifecycle query is the old global list followed by the new interceptors, and the around query of a method that does not opt out sees them right after the old global ones and before its own; every other query is unchanged |
| Registry.QueryAfterMethodAppend | src/main/java/org/jboss/interceptor/builder/InterceptionModelImpl.java:157-174 | after a method append, that method's query of that type gains the new interceptors at its end, and every other query is unchanged |
| Registry.QueryWithBoundExtended | src/main/java/org/jboss/interceptor/builder/InterceptionModelImpl.java:103-115 | an around query grows by exactly what is appended to the method's own list |
| Registry.QueryAfterExclude | src/main/java/org/jboss/interceptor/builder/InterceptionModelImpl.java:103-115 | after an opt-out, that method's around queries drop the global interceptors and keep its own; lifecycle queries and other methods are unchanged |
| Registry.ExcludeThenInclude | src/main/java/org/jboss/interceptor/model/InterceptionModelImpl.java:102-112 | opting out and then back in restores the method's around queries |
| SignatureModel.MalformedQueriesRejected | src/main/java/org/jboss/interceptor/builder/InterceptionModelImpl.java:84-94 | `getInterceptors` fails exactly when the type is lifecycle and a method is given, or around and none is given; the failure is an illegal argument |
| SignatureModel.AppendRejectsDuplicates | src/main/java/org/jboss/interceptor/builder/InterceptionModelImpl.java:145-196 | an append fails, with an illegal-argument fault, exactly when an interceptor is already bound where the duplicate check looks |
| SignatureModel.AppendRecordsInterceptors | src/main/java/org/jboss/interceptor/builder/InterceptionModelImpl.java:145-176 | after a successful append, `getAllInterceptors()` contains the old interceptors and the new ones, and nothing else, without repeats |
| SignatureModel.ExcludeDefaultWritesGlobalSet | src/main/java/org/jboss/interceptor/builder/InterceptionModelImpl.java:134-137 | `excludeDefaultInterceptors(m)` marks `m` as ignoring global interceptors, acts exactly like `excludeGlobalInterceptors(m)`, and never makes any method report that it ignores default interceptors |
| SignatureModel.StepPreserves | src/main/java/org/jboss/interceptor/builder/InterceptionModelImpl.java:129-176 | every mutator keeps the registry invariant and leaves the default-exclusion set untouched |
| SignatureModel.ReachableModels | src/main/java/org/jboss/interceptor/builder/InterceptionModelImpl.java:198-211 | along any sequence of mutations from a new model, no method is ever reported as excluding default interceptors, and the invariant holds |
| ReferenceModel.QueryShape | src/main/java/org/jboss/interceptor/model/InterceptionModelImpl.java:57-90 | the reference-keyed revision answers malformed queries with the same illegal-argument faults, lifecycle queries with the global list, and around queries with the globals (unless the method opts out) followed by the method's own interceptors |
| ReferenceModel.ToggleRestoresGlobals | src/main/java/org/jboss/interceptor/model/InterceptionModelImpl.java:102-112 | turning the opt-out on and then off restores the method's around queries |
| ReferenceModel.AppendRejectsDuplicates | src/main/java/org/jboss/interceptor/model/InterceptionModelImpl.java:114-165 | an append fails, with an interceptor fault, exactly when an interceptor is already bound where the validation looks |
| ReferenceModel.KeysIncludeDeclaringClass | src/main/java/org/jboss/interceptor/model/InterceptionModelImpl.java:167-170 | interceptors bound to a method are not seen by a method with the same signature in another class |
| ReferenceModel.AppendRecordsInterceptors | src/main/java/org/jboss/interceptor/model/InterceptionModelImpl.java:114-145 | a successful append records exactly the new interceptors in the all-interceptors set and keeps the invariant |
| ModelBuilder.NewBuilderFor | src/main/java/org/jboss/interceptor/model/InterceptionModelBuilder.java:34-38 | a new builder wraps an empty, valid model that binds nothing and ignores nothing |
| ModelBuilder.ChangeBuilderFor | src/main/java/org/jboss/interceptor/model/InterceptionModelBuilder.java:40-48 | a null model is an illegal argument; otherwise the builder wraps the given model |
| ModelBuilder.Build | src/main/java/org/jboss/interceptor/model/InterceptionModelBuilder.java:70-73 | building and then wrapping the result again gives back the same builder |
| ModelBuilder.InterceptAll | src/main/java/org/jboss/interceptor/model/InterceptionModelBuilder.java:75-78 | the descriptor has no method and lists every interception type exactly once |
| ModelBuilder.InterceptAroundInvoke | src/main/java/org/jboss/interceptor/model/InterceptionModelBuilder.java:80-83 | the descriptor is the given method with the around-invoke type alone |
| ModelBuilder.InterceptAroundTimeout | src/main/java/org/jboss/interceptor/model/InterceptionModelBuilder.java:85-88 | the descriptor is the given method with the around-timeout type alone |
| ModelBuilder.InterceptLifecycle | src/main/java/org/jboss/interceptor/model/InterceptionModelBuilder.java:90-108 | the descriptor for a lifecycle type has no method and that type alone |
| ModelBuilder.IgnoreGlobalInterceptors | src/main/java/org/jboss/interceptor/model/InterceptionModelBuilder.java:110-113 | the opt-out set gains exactly the method's key, so afterwards the method ignores global interceptors and every other method's opt-out is kept; the global lists, the method-bound lists and the set of all interceptors are unchanged |
| ModelBuilder.AppendEach | src/main/java/org/jboss/interceptor/model/InterceptionModelBuilder.java:127-133 | the loop of `with` fails only with an interceptor fault. It never changes the opt-out set and adds only the given interceptors to the all-interceptors set. On success it has recorded all of them, and a global descriptor leaves every method-bound list alone |
| ModelBuilder.AppendEachSucceedsIff | src/main/java/org/jboss/interceptor/model/InterceptionModelBuilder.java:127-133 | a global descriptor with distinct types succeeds exactly when no given interceptor is already global for any of its types |
| ModelBuilder.AppendEachGlobals | src/main/java/org/jboss/interceptor/model/InterceptionModelBuilder.java:127-133 | under a global descriptor, unlisted types keep their lists and every global list is unchanged or extended by the interceptors; on success every listed type is extended |
| ModelBuilder.With | src/main/java/org/jboss/interceptor/model/InterceptionModelBuilder.java:127-133 | `with` fails only with an interceptor fault. For a global descriptor it succeeds exactly when nothing is already bound globally, and on success each listed type's global list is extended by the interceptors while the others are unchanged |
| ModelBuilder.AppendEachPreservesValid | src/main/java/org/jboss/interceptor/model/InterceptionModelBuilder.java:127-133 | every partial run of `with`, including one an exception cut short, keeps the registry invariant |
| ModelBuilder.AroundInvokeIsOneAppend | src/main/java/org/jboss/interceptor/model/InterceptionModelBuilder.java:80-83 | `interceptAroundInvoke(m).with(x)` is exactly one append to `m`'s around-invoke list, with the same fault if it fails |
| ModelBuilder.InterceptAllOnFreshBuilder | src/main/java/org/jboss/interceptor/model/InterceptionModelBuilder.java:75-78 | `interceptAll().with(x)` on a new builder binds exactly `x` globally to every type and nothing to any method |
| ModelBuilder.SharedSetUpSteps | src/test/java/org/jboss/interceptor/proxy/SubclassingInterceptionTestCase.java:150-152 | the set-up of the subclassing tests succeeds, with `First` global everywhere, `Second` also on pre-destroy, and `Second` bound to `getName` |
| ModelBuilder.MixedScenario | src/test/java/org/jboss/interceptor/proxy/SubclassingInterceptionTestCase.java:143-152 | in that set-up, `getName` is intercepted by `First` and then `Second` |
| ModelBuilder.GlobalsIgnoredScenario | src/test/java/org/jboss/interceptor/proxy/SubclassingInterceptionTestCase.java:160-170 | after `ignoreGlobalInterceptors(getName)`, `getName` sees only `Second`, post-construct sees `First`, and the model's pre-destroy query gives `[First, Second]` |
| MetadataScan.ValidateInterceptorMethod | src/main/java/org/jboss/interceptor/reader/InterceptorMetadataUtils.java:63-118 | a method not annotated for the type is not an interceptor method for it. An annotated method is accepted exactly when its shape fits: return type and parameter list, which differ for target-class and interceptor-class lifecycle callbacks. Otherwise it is a method-signature fault |
| MetadataScan.ScanRoles | src/main/java/org/jboss/interceptor/reader/InterceptorMetadataUtils.java:183-211 | checking one method against every supported type succeeds exactly when each of its types is valid and not already found in the class; on success the method is put at the front of the list of each of its types, every other list is unchanged, and its types are added to the found set. When it fails and every type the method carries is well-shaped, the fault is a metadata fault (the type repeats); when none of its types was already found, it is a method-signature fault |
| MetadataScan.ScanMethods | src/main/java/org/jboss/interceptor/reader/InterceptorMetadataUtils.java:176-215 | the loop over one class's methods fails only with a method-signature or metadata fault |
| MetadataScan.ScanClasses | src/main/java/org/jboss/interceptor/reader/InterceptorMetadataUtils.java:170-218 | the loop over the class hierarchy fails only with a method-signature or metadata fault |
| MetadataScan.BuildInterceptorMethodMap | src/main/java/org/jboss/interceptor/reader/InterceptorMetadataUtils.java:167-220 | the scan succeeds exactly when the hierarchy is free of malformed methods and duplicate types per class. Its map then lists, for each type, exactly the reference list: the annotated methods not overridden lower down, superclass methods first, at most one per class. A type with none gets no entry. A failure in a hierarchy without malformed methods is a metadata fault, and one in a hierarchy without repeated types is a method-signature fault |
| MetadataScan.ReadMetadataForInterceptorClass | src/main/java/org/jboss/interceptor/reader/InterceptorMetadataUtils.java:53-56 | interceptor-class metadata carries the reference and the scan's lists, and is not marked as the target class |
| MetadataScan.ReadMetadataForTargetClass | src/main/java/org/jboss/interceptor/reader/InterceptorMetadataUtils.java:58-61 | target-class metadata is scanned under the target-class rules, carries the class's name and is marked as the target class |
| MetadataScan.ScanMethodsClean | src/main/java/org/jboss/interceptor/reader/InterceptorMetadataUtils.java:176-215 | one class's method loop succeeds exactly when no remaining method is malformed or repeats a type already found in the class |
| MetadataScan.ScanMethodsSeen | src/main/java/org/jboss/interceptor/reader/InterceptorMetadataUtils.java:178-213 | after a class's method loop, the found-signature set holds exactly the signatures of that class and the classes below it |
| MetadataScan.ScanMethodsLists | src/main/java/org/jboss/interceptor/reader/InterceptorMetadataUtils.java:199-209 | after a class's method loop, the lists are the reference lists of the classes scanned so far |
| MetadataScan.ScanClassesClean | src/main/java/org/jboss/interceptor/reader/InterceptorMetadataUtils.java:170-218 | the class loop succeeds exactly when the classes it has yet to visit are free of errors |
| MetadataScan.ScanClassesLists | src/main/java/org/jboss/interceptor/reader/InterceptorMetadataUtils.java:170-218 | when the class loop succeeds, its lists are the reference lists of the whole hierarchy |
| MetadataScan.ScanMethodsFault | src/main/java/org/jboss/interceptor/reader/InterceptorMetadataUtils.java:183-198 | one class's method loop fails with a metadata fault when no method in the hierarchy is malformed, and with a method-signature fault when no class repeats a type |
| MetadataScan.ScanClassesFault | src/main/java/org/jboss/interceptor/reader/InterceptorMetadataUtils.java:172-218 | the class loop fails with the same kind of fault as the method loops it runs |
| MetadataScanProperties.RepeatedRoleRaisesMetadataFault | src/main/java/org/jboss/interceptor/reader/InterceptorMetadataUtils.java:189-193 | two looked-at methods of one class carrying the same type make the scan fail with a metadata fault, when no method of the hierarchy is malformed |
| MetadataScanProperties.TwoPostConstructCallbacksRejected | src/main/java/org/jboss/interceptor/reader/InterceptorMetadataUtils.java:189-193 | a target class with two well-formed post-construct callbacks is rejected with a metadata fault, not a method-signature fault |
| MetadataScanProperties.SuperclassComesFirst | src/main/java/org/jboss/interceptor/reader/InterceptorMetadataUtils.java:203-209 | adding a superclass puts its interceptor methods in front of the subclass's |
| MetadataScanProperties.OverriddenMethodIgnored | src/main/java/org/jboss/interceptor/reader/InterceptorMetadataUtils.java:179-183 | a non-private superclass method whose signature a subclass already declared is skipped for every type |
| MetadataScanProperties.PrivateMethodConsidered | src/main/java/org/jboss/interceptor/reader/InterceptorMetadataUtils.java:181 | a private method is always examined, so it is marked for exactly the supported types it is annotated with, whatever the subclasses declare |
| MetadataScanProperties.FootballTeamScan | src/test/java/org/jboss/interceptor/proxy/FootballTeam.java:110-122 | scanning the test's `FootballTeam` below `Team` and `Object` yields the `Team` then `FootballTeam` post-construct callbacks and `FootballTeam`'s around-invoke method |
| Invocations.ReferenceOf | src/main/java/org/jboss/interceptor/invocation/InterceptorInvocation.java:55-59 | an invocation's method reference names the declaring class and a signature equal to the method's key |
| Invocations.GetInterceptorMethodInvocations | src/main/java/org/jboss/interceptor/invocation/InterceptorInvocation.java:52-61 | one invocation per interceptor method of the invocation's type, in order, each on the invocation's instance; the loop computes exactly the recursive definition `Unfold` |
| Invocations.Unfold | src/main/java/org/jboss/interceptor/invocation/InterceptorInvocation.java:52-61 | the reference definition: one invocation per method, positionally |
| Invocations.UnfoldAppend | src/main/java/org/jboss/interceptor/invocation/InterceptorInvocation.java:55-60 | unfolding distributes over concatenation of method lists |
| Invocations.OnlyOwnRoleConsulted | src/main/java/org/jboss/interceptor/invocation/InterceptorInvocation.java:44-50 | only the type fixed at construction is consulted; metadata that agree on it unfold alike |
| ChainExecution.FlattenAppend | src/main/java/org/jboss/interceptor/proxy/InterceptorMethodHandler.java:121-131 | the chain of a list of units is the concatenation of their chains |
| ChainExecution.TargetMethodsInnermost | src/main/java/org/jboss/interceptor/proxy/InterceptorMethodHandler.java:127-131 | appending the target unit puts exactly its own methods at the end of the chain |
| ChainExecution.NestedOrder | src/test/java/org/jboss/interceptor/proxy/InterceptionTestCase.java:57-69 | when every unit proceeds, the units are entered in chain order, the target runs once, they are left in reverse order, and the outcome is the target's |
| ChainExecution.EmptyChainRunsTarget | src/main/java/org/jboss/interceptor/invocation/InterceptorInvocationContext.java:137-151 | proceeding past the last unit runs the target method exactly once |
| ChainExecution.ShortCircuitStops | src/main/java/org/jboss/interceptor/invocation/InterceptorInvocationContext.java:137-151 | a unit that does not proceed hides the rest of the chain: nothing after it runs, the target included |
| ChainExecution.RetryReRunsRest | src/test/java/org/jboss/interceptor/reentrant/RetryTestCase.java:65-82 | a retrying unit re-runs the whole rest of the chain once per retry. The target runs once more than the retries made, and the call succeeds exactly when the retries outlast the target's failures |
| ChainExecution.RetryLog | src/test/java/org/jboss/interceptor/reentrant/RetryTestCase.java:65-82 | the retry loop's log is one full nested pass over the rest of the chain per attempt |
| ChainExecution.RetryScenario | src/test/java/org/jboss/interceptor/reentrant/RetryTestCase.java:65-82 | with two retries around an inner interceptor and a target that fails twice, the call succeeds, the target runs three times and the inner interceptor is entered three times |
| ChainExecution.AroundInvokeOrderScenario | src/test/java/org/jboss/interceptor/proxy/InterceptionTestCase.java:57-69 | two interceptors and the target's own around method nest around one run of the business method, as the expected log shows |
| MethodHandler.InstanceTable | src/main/java/org/jboss/interceptor/proxy/InterceptorMethodHandler.java:66-69 | exactly the model's interceptors get an instance, each created from its own class reference |
| MethodHandler.NewHandler | src/main/java/org/jboss/interceptor/proxy/InterceptorMethodHandler.java:49-71 | a null model and a null instantiator are illegal arguments, checked in that order, and with both given, construction succeeds exactly when the target class scans without error. Then the handler has one instance per interceptor of the model, and the target metadata marks the target class and lists its scanned callbacks |
| MethodHandler.InterceptorUnits | src/main/java/org/jboss/interceptor/proxy/InterceptorMethodHandler.java:121-126 | one unit per listed interceptor, in order, with its instance and the requested type |
| MethodHandler.ExecuteInterception | src/main/java/org/jboss/interceptor/proxy/InterceptorMethodHandler.java:118-133 | interception fails exactly when the model's query fails. Otherwise the units are the model's interceptors in order, followed by the target object's unit when the target class has callbacks for the type |
| MethodHandler.AroundRole | src/main/java/org/jboss/interceptor/proxy/InterceptorMethodHandler.java:105-112 | a call is around-timeout exactly when timeouts are supported and the method is marked as a timeout; otherwise it is around-invoke |
| MethodHandler.Invoke | src/main/java/org/jboss/interceptor/proxy/InterceptorMethodHandler.java:78-116 | a lifecycle entry point runs that callback's chain with no method; a call that is not an interception candidate goes straight to the proxied method; any other call runs the around chain with the method. Every query it makes is well formed, so it never fails |
| MethodHandler.UnitsHaveInstances | src/main/java/org/jboss/interceptor/proxy/InterceptorMethodHandler.java:121-130 | on a handler built as the constructor builds it, every unit has an instance, and each interceptor's instance is the one created for its class |
| MethodHandler.LifecycleChainIsGlobalList | src/main/java/org/jboss/interceptor/proxy/InterceptorMethodHandler.java:81-91 | a lifecycle callback's units are the type's global interceptors, then the target when it has callbacks for the type |
| MethodHandler.TargetUnitInnermost | src/main/java/org/jboss/interceptor/proxy/InterceptorMethodHandler.java:127-130 | when the target class has callbacks for the type, its unit is the last one and it runs on the target object |
| ParameterTypes.WrapperClass | src/main/java/org/jboss/interceptor/invocation/InterceptorInvocationContext.java:165-175 | a primitive class maps to its wrapper, any other class to itself |
| ParameterTypes.PrimitiveClass | src/main/java/org/jboss/interceptor/invocation/InterceptorInvocationContext.java:177-187 | a wrapper class maps to its primitive, any other class to itself |
| ParameterTypes.WideningTableIsSection512 | src/main/java/org/jboss/interceptor/invocation/InterceptorInvocationContext.java:77-83 | the widening table is exactly the widening primitive conversion of section 5.1.2 of the Java Language Specification, described independently by rank |
| ParameterTypes.WideningIsStrictOrder | src/main/java/org/jboss/interceptor/invocation/InterceptorInvocationContext.java:77-83 | widening is irreflexive and transitive, never involves `boolean`, and never reaches `char` |
| ParameterTypes.WideningNeedsPrimitives | src/main/java/org/jboss/interceptor/invocation/InterceptorInvocationContext.java:160-163 | only two primitive classes can be in the widening relation |
| ParameterTypes.WrapperTablesInverse | src/main/java/org/jboss/interceptor/invocation/InterceptorInvocationContext.java:57-75 | the boxing and unboxing tables are mutually inverse on primitives and wrappers and leave other classes alone |
| InvocationContext.GetParameters | src/main/java/org/jboss/interceptor/invocation/InterceptorInvocationContext.java:120-130 | the arguments are readable exactly when there is an intercepted method; a lifecycle callback gets an illegal-state fault |
| InvocationContext.FitsIsConversion | src/main/java/org/jboss/interceptor/invocation/InterceptorInvocationContext.java:212-262 | the per-position check accepts exactly the conversions of section 5.3 of the Java Language Specification, listed independently: identity, widening, boxing, unboxing with widening, reference assignment, and null to a reference type |
| InvocationContext.FirstRejected | src/main/java/org/jboss/interceptor/invocation/InterceptorInvocationContext.java:199-264 | finds nothing exactly when every position is accepted; otherwise it finds the first position that is not |
| InvocationContext.FirstExact | src/main/java/org/jboss/interceptor/invocation/InterceptorInvocationContext.java:206-211 | the first position whose argument class is exactly the declared class, or the end when there is none |
| InvocationContext.FirstRejectedAsWritten | src/main/java/org/jboss/interceptor/invocation/InterceptorInvocationContext.java:199-264 | the loop as written checks only positions before the first exact match: it reports the first rejected position there, and nothing when all of them are accepted |
| InvocationContext.SetParameters | src/main/java/org/jboss/interceptor/invocation/InterceptorInvocationContext.java:189-272 | corrected `setParameters`. It is illegal state for a lifecycle callback and an illegal argument on an arity mismatch. It succeeds exactly when every argument converts to its parameter, and then stores the new arguments (a null array leaves them as they were). On failure nothing changes |
| InvocationContext.SetParametersAsWritten | src/main/java/org/jboss/interceptor/invocation/InterceptorInvocationContext.java:189-272 | `setParameters` as written: the same faults, but it succeeds when every argument before the first exact class match converts. A rejection names the first argument that does not convert, which lies before the first exact match, with a null-on-primitive or incompatible-argument fault |
| InvocationContext.AsWrittenAcceptsMore | src/main/java/org/jboss/interceptor/invocation/InterceptorInvocationContext.java:206-211 | whatever the corrected setter accepts, the code as written accepts too, with the same result |
| InvocationContext.AgreeWithoutExactMatch | src/main/java/org/jboss/interceptor/invocation/InterceptorInvocationContext.java:206-211 | when no argument's class is exactly its parameter's, the two setters behave identically |
| InvocationContext.SetThenGet | src/main/java/org/jboss/interceptor/invocation/InterceptorInvocationContext.java:120-130 | after a successful set of a non-null array, `getParameters` returns that array |
| InvocationContext.BreakSkipsNullOnPrimitive | src/main/java/org/jboss/interceptor/invocation/InterceptorInvocationContext.java:206-211 | the code as written accepts `("x", null)` for a `(String, int)` method |
| InvocationContext.CorrectedRejectsNullOnPrimitive | src/main/java/org/jboss/interceptor/invocation/InterceptorInvocationContext.java:256-262 | the corrected setter rejects that input with an illegal argument |
| InvocationContext.PrimitiveParameterScenarios | src/test/java/org/jboss/interceptor/proxy/InterceptionTestCase.java:341-377 | an `Integer` or a `Character` is accepted for a `long` parameter; a `Long` for an `int` parameter, and a null for a primitive parameter, are illegal arguments |
| InvocationContext.ReferenceParameterScenarios | src/test/java/org/jboss/interceptor/proxy/InterceptionTestCase.java:379-415 | a `Long[]` is accepted for an `Object[]` parameter and rejected for a `String[]`; an `Integer` is rejected for a `Long` parameter |
| InvocationContext.Proceed | src/main/java/org/jboss/interceptor/invocation/InterceptorInvocationContext.java:137-151 | `proceed` passes a result and any `Exception` through unchanged, and wraps any other throwable in an `InterceptorException`, so it only ever throws exceptions |
| InvocationContext.ProceedWrapsOnce | src/main/java/org/jboss/interceptor/invocation/InterceptorInvocationContext.java:137-151 | translating an outcome twice is the same as translating it once |

## Left out

- Class metadata reflection: `ReflectiveClassMetadata`, `MethodMetadata` and the metadata caching reader are not part of this model. A class hierarchy is given as data: classes from most derived to `Object`, each with its declared methods, their annotations, shapes and privacy.
- The branch of the metadata checks that defers to reflection for methods without a Java `Method` is not modelled; every method in the model is reflective.
- The type registry (`InterceptionTypeRegistry`) is not part of this model. The supported types are a parameter of the scan.
- The order of the interception types in `AllRoles` assumes the declaration order of `InterceptionType`, whose source is not part of this model.
- Before the duplicate check, both `InterceptionModelImpl` revisions may create an empty list for a method. The model does not create it. No query can tell an empty list from a missing one.
- `hashCode` arithmetic: Java's 32-bit wrap-around is not modelled. The string hash is a parameter, and hash codes are unbounded integers. Only "equal keys hash alike" is claimed.
- Serialization: `writeObject`/`readObject`, the serialization-related calls and the pre-passivate/post-activate entry points of the handler are left out.
- Proxy generation (javassist proxies, `InterceptorProxyCreatorImpl`), the logger and `ensureAccessible` are left out.
- The method reference resolver is treated as the identity.
- The interception chain (`SimpleInterceptionChain`) is not part of this model. `ChainExecution` describes it abstractly: each interceptor's behaviour is an `Advice` (proceed, retry on failure, or return without proceeding), and the target method fails on its first given number of runs.
- The handler's constants (the post-construct and pre-destroy method names, timeout support and the timeout marker) and the interception-candidate test come from `InterceptionUtils`, which is not part of this model. They are fields of a `CallSite` parameter.
- MethodHandler.QueryKey: the handler is modelled over the `builder` revision, with a missing method meaning "no key". There, `getInterceptors(type, Method)` computes `MethodSignature.of(method)` even for a null method. The lifecycle path calls it with a null method, so as written that path depends on the model interface in use, which is not part of this model. The model follows the behaviour the tests expect: a lifecycle query with no method.
- `model/InterceptionModelImpl` keys methods with a two-argument `MethodReference.of(method, true)` that is not in the modelled `MethodReference`. The model uses the one-argument `of`, so keys are the declaring class plus the signature.
- Argument values are abstracted to their runtime class. `isAssignableFrom` between reference classes is a parameter, and `Class.isInstance` is not modelled separately.
- The `FootballTeam` fixture is reduced to `getName` and its post-construct and around-invoke callbacks. Its echo methods and passivation callbacks are left out.
- ModelBuilder.Build: returns a snapshot of the model's value. Java's `build()` returns the live model (src/main/java/org/jboss/interceptor/model/InterceptionModelBuilder.java:70-73), so builder calls made after `build()` show through the returned model; the model does not show that aliasing.
- The interception type is never null in the model, so the `if (interceptionType != null)` guard of the duplicate check is always taken. Java accepts a duplicate interceptor when the type is null (src/main/java/org/jboss/interceptor/builder/InterceptionModelImpl.java:190, src/main/java/org/jboss/interceptor/model/InterceptionModelImpl.java:159); the model has no such case.
- MethodHandler.NewHandler: the interceptor instantiator is a total function from reference to instance. Java's `DirectClassInterceptorInstantiator.createFor` can throw `InterceptorException` (src/main/java/org/jboss/interceptor/instantiation/DirectClassInterceptorInstantiator.java:42-49), and the handler's constructor loop passes it on (src/main/java/org/jboss/interceptor/proxy/InterceptorMethodHandler.java:66-69); that failure is not modelled.
- MetadataScan.ScanMethods: its own contract states only the possible faults. What it computes is stated by ScanMethodsClean, ScanMethodsSeen and ScanMethodsLists.
- MetadataScan.ScanClasses: its own contract states only the possible faults. What it computes is stated by ScanClassesClean and ScanClassesLists.
- The code, not its description, is followed in two places:
  - the superclass scan visits every class up to and including `Object`;
  - `excludeDefaultInterceptors` writes the set of methods that ignore global interceptors, so default interceptors are never reported as excluded.

## Findings

| source | as written | input that shows it | evidently intended | confidence | as-written member | corrected member |
|---|---|---|---|---|---|---|
| src/main/java/org/jboss/interceptor/invocation/InterceptorInvocationContext.java:206-211 | when an argument's class equals its declared parameter class, the loop `break`s, so no later argument is checked | method `(String, int)` with arguments `("x", null)`: position 0 matches exactly and the loop stops, so the `null` for `int` is accepted | `continue`: check every position, rejecting the `null` for a primitive parameter with an `IllegalArgumentException` | high; not executed | InvocationContext.SetParametersAsWritten (counterexample: InvocationContext.BreakSkipsNullOnPrimitive) | InvocationContext.SetParameters (property: InvocationContext.CorrectedRejectsNullOnPrimitive, InvocationContext.FitsIsConversion) |
