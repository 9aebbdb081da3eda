/** `InterceptionModelBuilder`: a fluent front end over the model-package
    registry. A descriptor names a method (or none) and the roles it binds;
    `With` appends the same interceptors once per role, in order. */
module ModelBuilder {
  import opened Results
  import opened Roles
  import opened Signatures
  import Registry
  import ReferenceModel

  datatype Builder<I(==,!new)> = Builder(model: ReferenceModel.Model<I>)

  /** `MethodInterceptorDescriptor`: the method (`None` for a null method)
      and the roles, in the order `with` walks them. */
  datatype Descriptor = Descriptor(target: Option<JavaMethod>, roles: seq<Role>)

  /** The outcome of `with`: the builder's state afterwards and the
      exception that stopped it, if any. */
  datatype Applied<I(==,!new)> = Applied(builder: Builder<I>, fault: Option<Fault>)

  /** `newBuilderFor(entity)`: a builder over a new, empty model. */
  function NewBuilderFor<I(==,!new)>(): (r: Builder<I>)
    ensures Registry.Valid(r.model)
    ensures forall role :: Registry.Global(r.model, role) == []
    ensures r.model.all == [] && r.model.ignoringGlobals == {}
  {
    Builder(ReferenceModel.New())
  }

  /** `changeBuilderFor(model)`: a null model is an illegal argument. */
  function ChangeBuilderFor<I(==,!new)>(m: Option<ReferenceModel.Model<I>>): (r: Result<Builder<I>>)
    ensures m.None? <==> r == Err(IllegalArgument(NullModel))
    ensures m.Some? ==> r == Ok(Builder(m.value))
  {
    match m
    case None => Err(IllegalArgument(NullModel))
    case Some(model) => Ok(Builder(model))
  }

  /** `build()`: the model the builder has been filling in. */
  function Build<I(==,!new)>(b: Builder<I>): (r: ReferenceModel.Model<I>)
    ensures ChangeBuilderFor(Some(r)) == Ok(b)
  {
    b.model
  }

  /** `interceptAll()`: no method, every role in declaration order. */
  function InterceptAll(): (d: Descriptor)
    ensures d.target.None?
    ensures forall role :: role in d.roles
    ensures Distinct(d.roles)
  {
    assert forall role :: role in AllRoles by {
      forall role ensures role in AllRoles { AllRolesComplete(role); }
    }
    Descriptor(None, AllRoles)
  }

  /** `interceptAroundInvoke(m)`. */
  function InterceptAroundInvoke(m: JavaMethod): (d: Descriptor)
    ensures d.target == Some(m) && d.roles == [AroundInvoke]
  {
    Descriptor(Some(m), [AroundInvoke])
  }

  /** `interceptAroundTimeout(m)`. */
  function InterceptAroundTimeout(m: JavaMethod): (d: Descriptor)
    ensures d.target == Some(m) && d.roles == [AroundTimeout]
  {
    Descriptor(Some(m), [AroundTimeout])
  }

  /** `interceptPostConstruct()`, `interceptPreDestroy()`,
      `interceptPrePassivate()`, `interceptPostActivate()`: a lifecycle role
      with no method. */
  function InterceptLifecycle(role: Role): (d: Descriptor)
    requires IsLifecycle(role)
    ensures d.target.None? && d.roles == [role]
  {
    Descriptor(None, [role])
  }

  /** `ignoreGlobalInterceptors(m)`. */
  function IgnoreGlobalInterceptors<I(==,!new)>(b: Builder<I>, m: JavaMethod): (r: Builder<I>)
    ensures ReferenceModel.KeyOf(m) in r.model.ignoringGlobals
    ensures r.model.ignoringGlobals == b.model.ignoringGlobals + {ReferenceModel.KeyOf(m)}
    ensures forall role :: Registry.Global(r.model, role) == Registry.Global(b.model, role)
    ensures forall role, k :: Registry.Bound(r.model, role, k) == Registry.Bound(b.model, role, k)
    ensures r.model.all == b.model.all
  {
    Builder(ReferenceModel.SetExcludeGlobalInterceptors(b.model, m, true))
  }

  /** The loop of `with`: append to each role in turn; the first exception
      ends the loop, and the appends made before it stay in the model. */
  function AppendEach<I(==,!new)>(m: ReferenceModel.Model<I>, target: Option<JavaMethod>, roles: seq<Role>, ids: seq<I>)
    : (r: (ReferenceModel.Model<I>, Option<Fault>))
    ensures r.1.Some? ==> r.1.value == InterceptorFault
    ensures r.0.ignoringGlobals == m.ignoringGlobals
    ensures m.all <= r.0.all && forall x :: x in r.0.all ==> x in m.all || x in ids
    ensures r.1.None? && roles != [] ==> forall x :: x in ids ==> x in r.0.all
    ensures target.None? ==> forall role, k :: Registry.Bound(r.0, role, k) == Registry.Bound(m, role, k)
    decreases |roles|
  {
    if roles == [] then (m, None)
    else
      match ReferenceModel.AppendInterceptors(m, roles[0], target, ids)
      case Err(f) => (m, Some(f))
      case Ok(m1) => AppendEach(m1, target, roles[1..], ids)
  }

  /** Whether none of `ids` is already in the global list of any of `roles`. */
  ghost predicate NoneGlobalIn<I(!new)>(m: ReferenceModel.Model<I>, roles: seq<Role>, ids: seq<I>)
  {
    forall j, i :: 0 <= j < |roles| && 0 <= i < |ids| ==> ids[i] !in Registry.Global(m, roles[j])
  }

  lemma NoneGlobalInCons<I(!new)>(m: ReferenceModel.Model<I>, roles: seq<Role>, ids: seq<I>)
    requires roles != []
    ensures NoneGlobalIn(m, roles, ids) <==>
      (forall i :: 0 <= i < |ids| ==> ids[i] !in Registry.Global(m, roles[0])) && NoneGlobalIn(m, roles[1..], ids)
  {
    if (forall i :: 0 <= i < |ids| ==> ids[i] !in Registry.Global(m, roles[0])) && NoneGlobalIn(m, roles[1..], ids) {
      forall j, i | 0 <= j < |roles| && 0 <= i < |ids|
        ensures ids[i] !in Registry.Global(m, roles[j])
      {
        if j > 0 {
          assert roles[j] == roles[1..][j - 1];
        }
      }
    }
  }

  lemma NoneGlobalInSameGlobals<I(!new)>(m: ReferenceModel.Model<I>, m': ReferenceModel.Model<I>, roles: seq<Role>, ids: seq<I>)
    requires forall role :: role in roles ==> Registry.Global(m, role) == Registry.Global(m', role)
    ensures NoneGlobalIn(m, roles, ids) <==> NoneGlobalIn(m', roles, ids)
  {
    assert forall j :: 0 <= j < |roles| ==> Registry.Global(m, roles[j]) == Registry.Global(m', roles[j]);
  }

  /** For a global descriptor over distinct roles, the loop succeeds exactly
      when none of the interceptors is already in any of those roles'
      global lists. */
  lemma {:induction false} AppendEachSucceedsIff<I(!new)>(m: ReferenceModel.Model<I>, target: Option<JavaMethod>, roles: seq<Role>, ids: seq<I>)
    ensures target.None? && Distinct(roles) ==>
      (AppendEach(m, target, roles, ids).1.None? <==> NoneGlobalIn(m, roles, ids))
    decreases |roles|
  {
    if roles != [] && target.None? && Distinct(roles) {
      NoneGlobalInCons(m, roles, ids);
      var a := ReferenceModel.AppendInterceptors(m, roles[0], target, ids);
      if a.Ok? {
        var rest := roles[1..];
        assert Distinct(rest) && roles[0] !in rest;
        AppendEachSucceedsIff(a.value, target, rest, ids);
        NoneGlobalInSameGlobals(m, a.value, rest, ids);
      }
    }
  }

  /** For a global descriptor over distinct roles, every global list
      afterwards is either untouched or extended by the interceptors, the
      unlisted roles are untouched, and on success exactly the listed roles
      are extended. */
  lemma {:induction false} AppendEachGlobals<I(!new)>(m: ReferenceModel.Model<I>, target: Option<JavaMethod>, roles: seq<Role>, ids: seq<I>)
    ensures target.None? && Distinct(roles) ==> var r := AppendEach(m, target, roles, ids);
      forall role :: role !in roles ==> Registry.Global(r.0, role) == Registry.Global(m, role)
    ensures target.None? && Distinct(roles) ==> var r := AppendEach(m, target, roles, ids);
      forall role :: Registry.Global(r.0, role) == Registry.Global(m, role) ||
                     Registry.Global(r.0, role) == Registry.Global(m, role) + ids
    ensures target.None? && Distinct(roles) ==> var r := AppendEach(m, target, roles, ids);
      r.1.None? ==> forall role :: role in roles ==> Registry.Global(r.0, role) == Registry.Global(m, role) + ids
    decreases |roles|
  {
    if roles != [] && target.None? && Distinct(roles) {
      var a := ReferenceModel.AppendInterceptors(m, roles[0], target, ids);
      if a.Ok? {
        AppendEachGlobals(a.value, target, roles[1..], ids);
        assert Distinct(roles[1..]) && roles[0] !in roles[1..];
        assert forall role :: role in roles <==> role == roles[0] || role in roles[1..];
      }
    }
  }

  /** `descriptor.with(interceptors...)`. */
  function With<I(==,!new)>(b: Builder<I>, d: Descriptor, ids: seq<I>): (r: Applied<I>)
    ensures r.fault.Some? ==> r.fault.value == InterceptorFault
    ensures d.target.None? && Distinct(d.roles) ==>
      (r.fault.None? <==> NoneGlobalIn(b.model, d.roles, ids))
    ensures d.target.None? && Distinct(d.roles) && r.fault.None? ==>
      forall role :: Registry.Global(r.builder.model, role) ==
                     if role in d.roles then Registry.Global(b.model, role) + ids else Registry.Global(b.model, role)
  {
    AppendEachSucceedsIff(b.model, d.target, d.roles, ids);
    AppendEachGlobals(b.model, d.target, d.roles, ids);
    var (m, f) := AppendEach(b.model, d.target, d.roles, ids);
    Applied(Builder(m), f)
  }

  // ---------------------------------------------------------------------
  // Properties

  /** Every step of `with` keeps the registry invariant, whether or not an
      exception cut it short. */
  lemma {:induction false} AppendEachPreservesValid<I(!new)>(m: ReferenceModel.Model<I>, target: Option<JavaMethod>, roles: seq<Role>, ids: seq<I>)
    requires Registry.Valid(m)
    ensures Registry.Valid(AppendEach(m, target, roles, ids).0)
    decreases |roles|
  {
    if roles != [] {
      var a := ReferenceModel.AppendInterceptors(m, roles[0], target, ids);
      if a.Ok? {
        ReferenceModel.AppendRecordsInterceptors(m, roles[0], target, ids);
        AppendEachPreservesValid(a.value, target, roles[1..], ids);
      }
    }
  }

  /** A single-method descriptor is exactly one append. */
  lemma AroundInvokeIsOneAppend<I(!new)>(b: Builder<I>, m: JavaMethod, ids: seq<I>)
    ensures var r := With(b, InterceptAroundInvoke(m), ids);
      var a := ReferenceModel.AppendInterceptors(b.model, AroundInvoke, Some(m), ids);
      && (a.Ok? ==> r == Applied(Builder(a.value), None))
      && (a.Err? ==> r == Applied(b, Some(a.fault)))
  {
  }

  /** `interceptAll().with(x)` on a new builder binds `x` globally to
      every role. */
  lemma InterceptAllOnFreshBuilder<I(!new)>(ids: seq<I>)
    ensures var r := With(NewBuilderFor<I>(), InterceptAll(), ids);
      && r.fault.None?
      && (forall role :: Registry.Global(r.builder.model, role) == ids)
      && (forall role, k :: Registry.Bound(r.builder.model, role, k) == [])
      && r.builder.model.ignoringGlobals == {}
      && (forall x :: x in r.builder.model.all <==> x in ids)
  {
    var d := InterceptAll();
    assert d.roles != [];
  }

  /** The model after `interceptAll().with(First)`. */
  ghost predicate AfterFirst<I(!new)>(b: Builder<I>, first: I)
  {
    && (forall role :: Registry.Global(b.model, role) == [first])
    && (forall role, k :: Registry.Bound(b.model, role, k) == [])
    && b.model.ignoringGlobals == {}
    && (forall x :: x in b.model.all <==> x == first)
  }

  /** The model after `interceptPreDestroy().with(Second)` as well. */
  ghost predicate AfterSecond<I(!new)>(b: Builder<I>, first: I, second: I)
  {
    && Registry.Global(b.model, PreDestroy) == [first, second]
    && (forall role :: role != PreDestroy ==> Registry.Global(b.model, role) == [first])
    && (forall role, k :: Registry.Bound(b.model, role, k) == [])
    && b.model.ignoringGlobals == {}
    && (forall x :: x in b.model.all <==> x == first || x == second)
  }

  /** The model after `interceptAroundInvoke(getName).with(Second)` as well. */
  ghost predicate AfterThird<I(!new)>(b: Builder<I>, getName: JavaMethod, first: I, second: I)
  {
    && Registry.Bound(b.model, AroundInvoke, ReferenceModel.KeyOf(getName)) == [second]
    && Registry.Global(b.model, AroundInvoke) == [first]
    && Registry.Global(b.model, PostConstruct) == [first]
    && Registry.Global(b.model, PreDestroy) == [first, second]
    && b.model.ignoringGlobals == {}
    && (forall x :: x in b.model.all <==> x == first || x == second)
  }

  /** First step of the set-ups below: `interceptAll().with(First)`. */
  lemma ScenarioFirstStep<I(!new)>(first: I)
    ensures With(NewBuilderFor<I>(), InterceptAll(), [first]).fault.None?
    ensures AfterFirst(With(NewBuilderFor<I>(), InterceptAll(), [first]).builder, first)
  {
    InterceptAllOnFreshBuilder([first]);
  }

  /** Second step: `interceptPreDestroy().with(Second)`. */
  lemma ScenarioSecondStep<I(!new)>(b0: Builder<I>, first: I, second: I)
    requires first != second
    requires AfterFirst(b0, first)
    ensures With(b0, InterceptLifecycle(PreDestroy), [second]).fault.None?
    ensures AfterSecond(With(b0, InterceptLifecycle(PreDestroy), [second]).builder, first, second)
  {
    var b1 := With(b0, InterceptLifecycle(PreDestroy), [second]);
    assert forall role :: role in [PreDestroy] <==> role == PreDestroy;
  }

  /** Third step: `interceptAroundInvoke(getName).with(Second)`. */
  lemma ScenarioThirdStep<I(!new)>(b1: Builder<I>, getName: JavaMethod, first: I, second: I)
    requires first != second
    requires AfterSecond(b1, first, second)
    ensures With(b1, InterceptAroundInvoke(getName), [second]).fault.None?
    ensures AfterThird(With(b1, InterceptAroundInvoke(getName), [second]).builder, getName, first, second)
  {
    AroundInvokeIsOneAppend(b1, getName, [second]);
    assert Registry.Global(b1.model, AroundInvoke) == [first];
    assert Registry.Bound(b1.model, AroundInvoke, ReferenceModel.KeyOf(getName)) == [];
  }

  /** The queries of the set-ups below, on the model the three steps build. */
  lemma ScenarioQueries<I(!new)>(b2: Builder<I>, getName: JavaMethod, first: I, second: I)
    requires AfterThird(b2, getName, first, second)
    ensures var ignored := Build(IgnoreGlobalInterceptors(b2, getName));
      && ReferenceModel.GetInterceptors(ignored, AroundInvoke, Some(getName)) == Ok([second])
      && ReferenceModel.GetInterceptors(ignored, PostConstruct, None) == Ok([first])
      && ReferenceModel.GetInterceptors(ignored, PreDestroy, None) == Ok([first, second])
      && ReferenceModel.GetInterceptors(Build(b2), AroundInvoke, Some(getName)) == Ok([first, second])
      && ReferenceModel.GetAllInterceptors(ignored) == b2.model.all
  {
    var k := ReferenceModel.KeyOf(getName);
    var ignored := Build(IgnoreGlobalInterceptors(b2, getName));
    ReferenceModel.QueryShape(Build(b2), AroundInvoke, Some(getName));
    ReferenceModel.QueryShape(ignored, AroundInvoke, Some(getName));
    assert Registry.Bound(ignored, AroundInvoke, k) == [second];
    assert [] + [second] == [second];
    assert [first] + [second] == [first, second];
  }

  /** The set-up shared by the subclassing tests, with `first` and
      `second` standing for `FirstInterceptor` and `SecondInterceptor`:
      `first` on every role, then `second` on pre-destroy and on `getName`. */
  function SharedSetUp<I(==,!new)>(getName: JavaMethod, first: I, second: I): (Applied<I>, Applied<I>, Applied<I>)
  {
    var b0 := With(NewBuilderFor<I>(), InterceptAll(), [first]);
    var b1 := With(b0.builder, InterceptLifecycle(PreDestroy), [second]);
    var b2 := With(b1.builder, InterceptAroundInvoke(getName), [second]);
    (b0, b1, b2)
  }

  lemma SharedSetUpSteps<I(!new)>(getName: JavaMethod, first: I, second: I)
    requires first != second
    ensures var (b0, b1, b2) := SharedSetUp(getName, first, second);
      && b0.fault.None? && b1.fault.None? && b2.fault.None?
      && AfterThird(b2.builder, getName, first, second)
  {
    ScenarioFirstStep(first);
    var b0 := With(NewBuilderFor<I>(), InterceptAll(), [first]);
    ScenarioSecondStep(b0.builder, first, second);
    var b1 := With(b0.builder, InterceptLifecycle(PreDestroy), [second]);
    ScenarioThirdStep(b1.builder, getName, first, second);
  }

  /** The "globals ignored" set-up: after the shared set-up `getName`
      ignores the globals, so it sees only `second`; post-construct still
      sees `first`, and pre-destroy sees `first` then `second`. */
  lemma GlobalsIgnoredScenario<I(!new)>(getName: JavaMethod, first: I, second: I)
    requires first != second
    ensures
      var b2 := SharedSetUp(getName, first, second).2;
      var ignored := Build(IgnoreGlobalInterceptors(b2.builder, getName));
      && b2.fault.None?
      && ReferenceModel.GetInterceptors(ignored, AroundInvoke, Some(getName)) == Ok([second])
      && ReferenceModel.GetInterceptors(ignored, PostConstruct, None) == Ok([first])
      && ReferenceModel.GetInterceptors(ignored, PreDestroy, None) == Ok([first, second])
      && (forall x :: x in ReferenceModel.GetAllInterceptors(ignored) <==> x == first || x == second)
  {
    SharedSetUpSteps(getName, first, second);
    ScenarioQueries(SharedSetUp(getName, first, second).2.builder, getName, first, second);
  }

  /** The "mixed" set-up: without the opt-out, `getName` sees the global
      `first` before its own `second`. */
  lemma MixedScenario<I(!new)>(getName: JavaMethod, first: I, second: I)
    requires first != second
    ensures
      var b2 := SharedSetUp(getName, first, second).2;
      && b2.fault.None?
      && ReferenceModel.GetInterceptors(Build(b2.builder), AroundInvoke, Some(getName)) == Ok([first, second])
  {
    SharedSetUpSteps(getName, first, second);
    ScenarioQueries(SharedSetUp(getName, first, second).2.builder, getName, first, second);
  }
}
