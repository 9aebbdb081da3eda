/** The interception chain a handler runs: the interceptor invocations
    flattened into one sequence of method invocations, target-class
    callbacks last, and a cursor that `proceed()` advances. Running a unit
    at position `pos` lets it call `proceed()`, which runs the chain from
    `pos + 1` on, or the target method when no unit is left; the cursor is
    restored afterwards, so an interceptor that calls `proceed()` again
    re-runs the whole rest of the chain.

    What an interceptor does is abstracted to an `Advice`, and the target
    method is abstracted to one that fails on its first `failures` runs. */
module ChainExecution {
  import opened Results
  import opened Invocations

  /** The chain's units: every invocation's interceptor methods, in order. */
  function Flatten<T>(units: seq<InterceptorInvocation<T>>): seq<MethodInvocation<T>>
  {
    if units == [] then []
    else Unfold(units[0].instance, MethodsOf(units[0])) + Flatten(units[1..])
  }

  /** Flattening respects concatenation of unit lists. */
  lemma {:induction false} FlattenAppend<T>(a: seq<InterceptorInvocation<T>>, b: seq<InterceptorInvocation<T>>)
    ensures Flatten(a + b) == Flatten(a) + Flatten(b)
  {
    if a == [] {
      assert a + b == b;
    } else {
      assert (a + b)[0] == a[0];
      assert (a + b)[1..] == a[1..] + b;
      FlattenAppend(a[1..], b);
    }
  }

  /** Flattening the handler's units ends with the target class's own
      methods, so they sit innermost in the chain. */
  lemma TargetMethodsInnermost<T>(units: seq<InterceptorInvocation<T>>, target: InterceptorInvocation<T>)
    ensures Flatten(units + [target]) == Flatten(units) + Unfold(target.instance, MethodsOf(target))
    ensures |Flatten(units + [target])| == |Flatten(units)| + |MethodsOf(target)|
  {
    FlattenAppend(units, [target]);
    assert Flatten([target]) == Unfold(target.instance, MethodsOf(target)) + Flatten([]);
  }

  /** What an interceptor method does with its context: proceed once and
      return; proceed, and proceed again after a failure up to `retries`
      more times; or return without proceeding. */
  datatype Advice = PassThrough | RetryOnFailure(retries: nat) | ShortCircuit

  datatype Outcome = Success | Failure

  /** An observable step: entering or leaving the unit at a position, or
      one run of the target method (numbered from 0). */
  datatype Event = Enter(pos: nat) | Leave(pos: nat) | TargetRun(index: nat)

  /** The outcome of running part of a chain, its events in order, and
      the number of target runs so far. */
  datatype Run = Run(outcome: Outcome, log: seq<Event>, runs: nat)

  /** The target method: run number `runs` fails while fewer than
      `failures` runs have happened. */
  function RunTarget(failures: nat, runs: nat): Run
  {
    Run(if runs < failures then Failure else Success, [TargetRun(runs)], runs + 1)
  }

  /** `invokeNextInterceptor` at position `pos`, after `runs` target runs. */
  function Proceed(chain: seq<Advice>, pos: nat, failures: nat, runs: nat): Run
    decreases |chain| - pos, 1, 0
  {
    if pos >= |chain| then RunTarget(failures, runs)
    else match chain[pos]
      case ShortCircuit => Run(Success, [Enter(pos), Leave(pos)], runs)
      case PassThrough =>
        var inner := Proceed(chain, pos + 1, failures, runs);
        Run(inner.outcome, [Enter(pos)] + inner.log + [Leave(pos)], inner.runs)
      case RetryOnFailure(n) =>
        var tried := Attempt(chain, pos, failures, runs, n);
        Run(tried.outcome, [Enter(pos)] + tried.log + [Leave(pos)], tried.runs)
  }

  /** The retrying interceptor's loop: proceed, and after a failure
      proceed again while retries are left. */
  function Attempt(chain: seq<Advice>, pos: nat, failures: nat, runs: nat, retriesLeft: nat): Run
    requires pos < |chain|
    decreases |chain| - pos, 0, retriesLeft
  {
    var inner := Proceed(chain, pos + 1, failures, runs);
    if inner.outcome == Failure && retriesLeft > 0 then
      var again := Attempt(chain, pos, failures, inner.runs, retriesLeft - 1);
      Run(again.outcome, inner.log + again.log, again.runs)
    else inner
  }

  /** Every unit from `pos` on proceeds exactly once. */
  predicate PassesThroughFrom(chain: seq<Advice>, pos: nat)
  {
    forall k :: pos <= k < |chain| ==> chain[k] == PassThrough
  }

  function Enters(lo: nat, hi: nat): (r: seq<Event>)
    requires lo <= hi
    ensures |r| == hi - lo
    ensures forall k :: 0 <= k < |r| ==> r[k] == Enter(lo + k)
    decreases hi - lo
  {
    if lo == hi then [] else [Enter(lo)] + Enters(lo + 1, hi)
  }

  function Leaves(lo: nat, hi: nat): (r: seq<Event>)
    requires lo <= hi
    ensures |r| == hi - lo
    ensures forall k :: 0 <= k < |r| ==> r[k] == Leave(hi - 1 - k)
    decreases hi - lo
  {
    if lo == hi then [] else Leaves(lo + 1, hi) + [Leave(lo)]
  }

  /** Units that all proceed nest: every unit is entered in chain order,
      the target runs once in the middle, and the units are left in
      reverse order. The outcome is the target's. */
  lemma {:induction false} NestedOrder(chain: seq<Advice>, pos: nat, failures: nat, runs: nat)
    requires pos <= |chain| && PassesThroughFrom(chain, pos)
    ensures Proceed(chain, pos, failures, runs)
      == Run(RunTarget(failures, runs).outcome,
             Enters(pos, |chain|) + [TargetRun(runs)] + Leaves(pos, |chain|),
             runs + 1)
    decreases |chain| - pos
  {
    if pos < |chain| {
      NestedOrder(chain, pos + 1, failures, runs);
      var inner := Proceed(chain, pos + 1, failures, runs);
      assert Proceed(chain, pos, failures, runs)
        == Run(inner.outcome, [Enter(pos)] + inner.log + [Leave(pos)], inner.runs);
      assert [Enter(pos)] + (Enters(pos + 1, |chain|) + [TargetRun(runs)] + Leaves(pos + 1, |chain|)) + [Leave(pos)]
        == Enters(pos, |chain|) + [TargetRun(runs)] + Leaves(pos, |chain|);
    }
  }

  /** With no interceptor left the target method runs, exactly once. */
  lemma EmptyChainRunsTarget(chain: seq<Advice>, failures: nat, runs: nat)
    ensures Proceed(chain, |chain|, failures, runs).log == [TargetRun(runs)]
    ensures Proceed(chain, |chain|, failures, runs).runs == runs + 1
  {
  }

  /** An interceptor that returns without proceeding hides the rest of
      the chain: nothing after it is entered and the target does not run. */
  lemma ShortCircuitStops(chain: seq<Advice>, pos: nat, failures: nat, runs: nat)
    requires pos < |chain| && chain[pos] == ShortCircuit
    ensures Proceed(chain, pos, failures, runs) == Run(Success, [Enter(pos), Leave(pos)], runs)
  {
  }

  /** How many retries the loop actually makes: one per failed run while
      retries are left. */
  function RetriesUsed(failures: nat, runs: nat, retries: nat): nat
  {
    if runs >= failures then 0
    else if failures - runs <= retries then failures - runs
    else retries
  }

  /** A retrying interceptor over a chain that otherwise proceeds re-runs
      the whole rest of the chain once per retry: the target runs one more
      time than the retries made, and the call succeeds exactly when the
      retries outlast the target's failures. */
  lemma {:induction false} RetryReRunsRest(chain: seq<Advice>, pos: nat, failures: nat, runs: nat, retries: nat)
    requires pos < |chain| && PassesThroughFrom(chain, pos + 1)
    ensures Attempt(chain, pos, failures, runs, retries).runs == runs + RetriesUsed(failures, runs, retries) + 1
    ensures Attempt(chain, pos, failures, runs, retries).outcome == Success
      <==> failures <= runs + retries
    decreases retries
  {
    NestedOrder(chain, pos + 1, failures, runs);
    var inner := Proceed(chain, pos + 1, failures, runs);
    assert inner.runs == runs + 1;
    assert inner.outcome == Failure <==> runs < failures;
    if inner.outcome == Failure && retries > 0 {
      RetryReRunsRest(chain, pos, failures, runs + 1, retries - 1);
    }
  }

  /** The log of one retry loop is one nested pass over the rest of the
      chain per attempt. */
  function Passes(chain: seq<Advice>, pos: nat, first: nat, count: nat): seq<Event>
    requires pos <= |chain|
    decreases count
  {
    if count == 0 then []
    else Enters(pos, |chain|) + [TargetRun(first)] + Leaves(pos, |chain|) + Passes(chain, pos, first + 1, count - 1)
  }

  lemma {:induction false} RetryLog(chain: seq<Advice>, pos: nat, failures: nat, runs: nat, retries: nat)
    requires pos < |chain| && PassesThroughFrom(chain, pos + 1)
    ensures Attempt(chain, pos, failures, runs, retries).log
      == Passes(chain, pos + 1, runs, RetriesUsed(failures, runs, retries) + 1)
    decreases retries
  {
    NestedOrder(chain, pos + 1, failures, runs);
    var inner := Proceed(chain, pos + 1, failures, runs);
    var pass := Enters(pos + 1, |chain|) + [TargetRun(runs)] + Leaves(pos + 1, |chain|);
    if inner.outcome == Failure && retries > 0 {
      RetryLog(chain, pos, failures, runs + 1, retries - 1);
      assert Passes(chain, pos + 1, runs, RetriesUsed(failures, runs, retries) + 1)
        == pass + Passes(chain, pos + 1, runs + 1, RetriesUsed(failures, runs + 1, retries - 1) + 1);
    } else {
      assert RetriesUsed(failures, runs, retries) == 0;
      assert Passes(chain, pos + 1, runs, 1) == pass + [];
    }
  }

  /** The retry scenario of `RetryTestCase`: a retrying interceptor
      (two retries) around an interceptor that proceeds, over a target
      that fails twice. The call succeeds, the target runs three times
      and the inner interceptor is entered three times. */
  lemma RetryScenario()
    ensures Proceed([RetryOnFailure(2), PassThrough], 0, 2, 0).outcome == Success
    ensures Proceed([RetryOnFailure(2), PassThrough], 0, 2, 0).runs == 3
    ensures Proceed([RetryOnFailure(2), PassThrough], 0, 2, 0).log
      == [Enter(0),
          Enter(1), TargetRun(0), Leave(1),
          Enter(1), TargetRun(1), Leave(1),
          Enter(1), TargetRun(2), Leave(1),
          Leave(0)]
  {
    var chain := [RetryOnFailure(2), PassThrough];
    RetryReRunsRest(chain, 0, 2, 0, 2);
    RetryLog(chain, 0, 2, 0, 2);
    assert Enters(1, 2) == [Enter(1)];
    assert Leaves(1, 2) == [Leave(1)];
  }

  /** The around-invoke order of `InterceptionTestCase`: two interceptors and
      the target class's own around method all proceed, so the three are
      entered in chain order, the business method runs, and they are left
      in reverse. */
  lemma AroundInvokeOrderScenario()
    ensures Proceed([PassThrough, PassThrough, PassThrough], 0, 0, 0)
      == Run(Success, [Enter(0), Enter(1), Enter(2), TargetRun(0), Leave(2), Leave(1), Leave(0)], 1)
  {
    NestedOrder([PassThrough, PassThrough, PassThrough], 0, 0, 0);
    assert Enters(0, 3) == [Enter(0), Enter(1), Enter(2)];
    assert Leaves(0, 3) == [Leave(2), Leave(1), Leave(0)];
  }
}
