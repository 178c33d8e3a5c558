/**
  The contract checker that icontract substitutes for an endpoint, and the
  protocol it runs on every request: pre-conditions, then snapshot capture,
  then the endpoint, then post-conditions, reporting the first failure.
  The checker's code is not part of this model; its chains are modelled as
  lists in the order the checker evaluates them and its run as pure
  functions over them.
 */
module Checkers {
  import opened Wrappers
  import opened Callables

  /** `icontract._types.Contract`: a condition, its description and the error to raise on violation. */
  datatype RuntimeContract = RuntimeContract(condition: Condition, description: Option<string>, error: HttpError)

  /** `icontract._types.Snapshot`: a capture function and the name it is stored under in OLD. */
  datatype RuntimeSnapshot = RuntimeSnapshot(capture: Capture, name: string)

  /** A composed checker: the endpoint it wraps and its three chains. */
  datatype CheckerState = CheckerState(
    wrapped: Handler,
    preconditions: seq<RuntimeContract>,
    snapshots: seq<RuntimeSnapshot>,
    postconditions: seq<RuntimeContract>)

  /** The checker with no contract yet, as `decorate_with_checker` creates it. */
  function EmptyChecker(wrapped: Handler): CheckerState {
    CheckerState(wrapped, [], [], [])
  }

  /** How a request ends: the endpoint's result, a contract violation, or a propagated exception. */
  datatype Response = Ok(result: Value) | Violation(error: HttpError) | Fault

  /** The verdict of one chain of conditions. */
  datatype Verdict = Passed | Violated(error: HttpError) | Faulted

  /** Evaluate the chain left to right, stopping at the first condition that fails or raises. */
  function Check(chain: seq<RuntimeContract>, env: Env): (v: Verdict)
    ensures v.Violated? ==> exists k :: 0 <= k < |chain| && chain[k].condition.call(env) == Returned(false) && chain[k].error == v.error
    ensures v.Faulted? ==> exists k :: 0 <= k < |chain| && chain[k].condition.call(env) == Raised
  {
    if |chain| == 0 then Passed
    else
      match chain[0].condition.call(env)
      case Raised => Faulted
      case Returned(ok) =>
        if !ok then Violated(chain[0].error)
        else
          Check(chain[1..], env)
  }

  /** Every condition of the chain returns true. */
  ghost predicate AllHold(chain: seq<RuntimeContract>, env: Env) {
    forall k :: 0 <= k < |chain| ==> chain[k].condition.call(env) == Returned(true)
  }

  /** Condition k is the first one of the chain that does not return true. */
  ghost predicate FirstFailure(chain: seq<RuntimeContract>, env: Env, k: int) {
    && 0 <= k < |chain|
    && (forall j :: 0 <= j < k ==> chain[j].condition.call(env) == Returned(true))
    && chain[k].condition.call(env) != Returned(true)
  }

  /** A chain passes exactly when each of its conditions holds. */
  lemma {:induction false} CheckPassed(chain: seq<RuntimeContract>, env: Env)
    ensures Check(chain, env) == Passed <==> AllHold(chain, env)
  {
    if |chain| > 0 {
      CheckPassed(chain[1..], env);
      if chain[0].condition.call(env) == Returned(true) {
        assert AllHold(chain[1..], env) <==> AllHold(chain, env) by {
          if AllHold(chain[1..], env) {
            forall k | 0 <= k < |chain| ensures chain[k].condition.call(env) == Returned(true) {
              if k > 0 { assert chain[k] == chain[1..][k - 1]; }
            }
          }
        }
      }
    }
  }

  /**
    A chain that does not pass reports its first failing condition: its error
    when it returned false, a fault when it raised.
   */
  lemma {:induction false} CheckFirstFailure(chain: seq<RuntimeContract>, env: Env, k: int)
    requires FirstFailure(chain, env, k)
    ensures chain[k].condition.call(env) == Returned(false) ==> Check(chain, env) == Violated(chain[k].error)
    ensures chain[k].condition.call(env) == Raised ==> Check(chain, env) == Faulted
  {
    if k > 0 {
      assert chain[0].condition.call(env) == Returned(true);
      assert FirstFailure(chain[1..], env, k - 1) by {
        forall j | 0 <= j < k - 1 ensures chain[1..][j].condition.call(env) == Returned(true) {
          assert chain[1..][j] == chain[j + 1];
        }
      }
      CheckFirstFailure(chain[1..], env, k - 1);
    }
  }

  /**
    Short circuit: a chain extended behind a prefix that does not pass gives
    the prefix's verdict, so nothing after the first failure is evaluated.
   */
  lemma {:induction false} CheckAppend(xs: seq<RuntimeContract>, ys: seq<RuntimeContract>, env: Env)
    ensures Check(xs + ys, env) == if Check(xs, env) == Passed then Check(ys, env) else Check(xs, env)
  {
    if |xs| > 0 {
      assert (xs + ys)[0] == xs[0];
      assert (xs + ys)[1..] == xs[1..] + ys;
      CheckAppend(xs[1..], ys, env);
    } else {
      assert xs + ys == ys;
    }
  }

  /** Build the OLD bag: run every capture, in registration order, on the incoming arguments. */
  function CaptureOld(snapshots: seq<RuntimeSnapshot>, args: Args): Outcome<map<string, Value>> {
    if |snapshots| == 0 then Returned(map[])
    else
      match CaptureOld(snapshots[..|snapshots| - 1], args)
      case Raised => Raised
      case Returned(bag) =>
        var s := snapshots[|snapshots| - 1];
        match s.capture.call(args)
        case Raised => Raised
        case Returned(v) => Returned(bag[s.name := v])
  }

  /** The names of the snapshots are pairwise distinct. */
  ghost predicate DistinctNames(snapshots: seq<RuntimeSnapshot>) {
    forall i, j :: 0 <= i < j < |snapshots| ==> snapshots[i].name != snapshots[j].name
  }

  /**
    The bag is built when no capture raises; it then holds exactly the
    snapshot names, each bound to what its capture returned on the arguments.
   */
  lemma CaptureOldContents(snapshots: seq<RuntimeSnapshot>, args: Args)
    requires DistinctNames(snapshots)
    ensures CaptureOld(snapshots, args).Returned? <==>
      forall k :: 0 <= k < |snapshots| ==> snapshots[k].capture.call(args).Returned?
    ensures CaptureOld(snapshots, args).Returned? ==>
      var bag := CaptureOld(snapshots, args).value;
      && bag.Keys == (set k | 0 <= k < |snapshots| :: snapshots[k].name)
      && forall k :: 0 <= k < |snapshots| ==> Returned(bag[snapshots[k].name]) == snapshots[k].capture.call(args)
  {
    CaptureOldDefined(snapshots, args);
    if CaptureOld(snapshots, args).Returned? {
      CaptureOldBag(snapshots, args);
    }
  }

  /** The bag is built exactly when no capture raises. */
  lemma {:induction false} CaptureOldDefined(snapshots: seq<RuntimeSnapshot>, args: Args)
    ensures CaptureOld(snapshots, args).Returned? <==>
      forall k :: 0 <= k < |snapshots| ==> snapshots[k].capture.call(args).Returned?
  {
    if |snapshots| > 0 {
      var n := |snapshots| - 1;
      var init := snapshots[..n];
      CaptureOldDefined(init, args);
      assert forall k :: 0 <= k < n ==> init[k] == snapshots[k];
    }
  }

  /** A built bag binds every snapshot name, and nothing else, to its captured value. */
  lemma CaptureOldBag(snapshots: seq<RuntimeSnapshot>, args: Args)
    requires DistinctNames(snapshots) && CaptureOld(snapshots, args).Returned?
    ensures var bag := CaptureOld(snapshots, args).value;
      && bag.Keys == (set k | 0 <= k < |snapshots| :: snapshots[k].name)
      && forall k :: 0 <= k < |snapshots| ==> Returned(bag[snapshots[k].name]) == snapshots[k].capture.call(args)
  {
    CaptureOldKeys(snapshots, args);
    CaptureOldValues(snapshots, args);
  }

  lemma {:induction false} CaptureOldKeys(snapshots: seq<RuntimeSnapshot>, args: Args)
    requires CaptureOld(snapshots, args).Returned?
    ensures CaptureOld(snapshots, args).value.Keys == (set k | 0 <= k < |snapshots| :: snapshots[k].name)
  {
    if |snapshots| > 0 {
      var n := |snapshots| - 1;
      var init, last := snapshots[..n], snapshots[n];
      CaptureOldSnoc(snapshots, args);
      CaptureOldKeys(init, args);
      assert forall k :: 0 <= k < n ==> init[k] == snapshots[k];
      assert (set k | 0 <= k < |snapshots| :: snapshots[k].name)
          == (set k | 0 <= k < |init| :: init[k].name) + {last.name};
    }
  }

  lemma {:induction false} CaptureOldValues(snapshots: seq<RuntimeSnapshot>, args: Args)
    requires DistinctNames(snapshots) && CaptureOld(snapshots, args).Returned?
    ensures var bag := CaptureOld(snapshots, args).value;
      forall k :: 0 <= k < |snapshots| ==> snapshots[k].name in bag && Returned(bag[snapshots[k].name]) == snapshots[k].capture.call(args)
  {
    if |snapshots| > 0 {
      var n := |snapshots| - 1;
      var init, last := snapshots[..n], snapshots[n];
      assert DistinctNames(init) by {
        forall i, j | 0 <= i < j < |init| ensures init[i].name != init[j].name {
          assert init[i] == snapshots[i] && init[j] == snapshots[j];
        }
      }
      CaptureOldSnoc(snapshots, args);
      CaptureOldValues(init, args);
      var bag := CaptureOld(init, args).value;
      var full := CaptureOld(snapshots, args).value;
      forall k | 0 <= k < |snapshots| ensures snapshots[k].name in full && Returned(full[snapshots[k].name]) == snapshots[k].capture.call(args) {
        if k < n {
          assert init[k] == snapshots[k];
          assert snapshots[k].name != last.name;
        }
      }
    }
  }

  /** The last capture extends the bag of the others. */
  lemma CaptureOldSnoc(snapshots: seq<RuntimeSnapshot>, args: Args)
    requires |snapshots| > 0 && CaptureOld(snapshots, args).Returned?
    ensures var init, last := snapshots[..|snapshots| - 1], snapshots[|snapshots| - 1];
      && CaptureOld(init, args).Returned? && last.capture.call(args).Returned?
      && CaptureOld(snapshots, args).value == CaptureOld(init, args).value[last.name := last.capture.call(args).value]
  {
  }

  /** The environment of the pre-conditions: the arguments only. */
  function PreEnv(args: Args): Env {
    Env(args, NoneValue, map[])
  }

  /**
    The OLD bag a request builds: the snapshots are captured only when the
    checker has post-conditions to read them; otherwise the bag stays empty
    and no capture runs.
   */
  function OldBag(c: CheckerState, args: Args): Outcome<map<string, Value>> {
    if |c.postconditions| > 0 then CaptureOld(c.snapshots, args) else Returned(map[])
  }

  /**
    One request through the checker. Post-conditions see the arguments as the
    endpoint left them, its result, and the OLD bag captured before the call.
   */
  function Invoke(c: CheckerState, body: Body, args: Args): (r: Response)
    ensures r.Ok? ==> body(args).Returned? && r.result == body(args).value.1
    ensures r.Violation? ==>
      || (exists k :: 0 <= k < |c.preconditions| && c.preconditions[k].error == r.error)
      || (exists k :: 0 <= k < |c.postconditions| && c.postconditions[k].error == r.error)
  {
    match Check(c.preconditions, PreEnv(args))
    case Faulted => Fault
    case Violated(e) => Violation(e)
    case Passed =>
      match OldBag(c, args)
      case Raised => Fault
      case Returned(bag) =>
        match body(args)
        case Raised => Fault
        case Returned(call) =>
          match Check(c.postconditions, Env(call.0, call.1, bag))
          case Faulted => Fault
          case Violated(e) => Violation(e)
          case Passed => Ok(call.1)
  }

  /**
    Without post-conditions a request is the pre-condition check followed by
    the endpoint itself: no capture runs, so a capture that would raise
    changes nothing.
   */
  lemma InvokeWithoutPostconditions(c: CheckerState, body: Body, args: Args)
    requires |c.postconditions| == 0
    ensures Invoke(c, body, args) == match Check(c.preconditions, PreEnv(args))
      case Faulted => Fault
      case Violated(e) => Violation(e)
      case Passed => Direct(body, args)
  {
  }

  /**
    A request succeeds exactly when every pre-condition holds on the
    arguments, every capture (when there are post-conditions) runs on the
    arguments before the call, the endpoint returns, and every post-condition holds on what it left, its
    result and the bag; the result is then the endpoint's own.
   */
  lemma InvokeOk(c: CheckerState, body: Body, args: Args)
    ensures Invoke(c, body, args).Ok? <==>
      && AllHold(c.preconditions, PreEnv(args))
      && OldBag(c, args).Returned?
      && body(args).Returned?
      && AllHold(c.postconditions, Env(body(args).value.0, body(args).value.1, OldBag(c, args).value))
    ensures Invoke(c, body, args).Ok? ==> Invoke(c, body, args).result == body(args).value.1
  {
    CheckPassed(c.preconditions, PreEnv(args));
    if OldBag(c, args).Returned? && body(args).Returned? {
      CheckPassed(c.postconditions, Env(body(args).value.0, body(args).value.1, OldBag(c, args).value));
    }
  }

  /**
    A pre-condition that returns false behind pre-conditions that hold ends the
    request with its error, whatever the snapshots and the endpoint would do.
   */
  lemma InvokePreconditionViolated(c: CheckerState, body: Body, args: Args, k: int)
    requires FirstFailure(c.preconditions, PreEnv(args), k)
    requires c.preconditions[k].condition.call(PreEnv(args)) == Returned(false)
    ensures Invoke(c, body, args) == Violation(c.preconditions[k].error)
  {
    CheckFirstFailure(c.preconditions, PreEnv(args), k);
  }

  /**
    A post-condition that returns false behind post-conditions that hold, after
    a successful call, ends the request with its error.
   */
  lemma InvokePostconditionViolated(c: CheckerState, body: Body, args: Args, k: int)
    requires Check(c.preconditions, PreEnv(args)) == Passed
    requires CaptureOld(c.snapshots, args).Returned? && body(args).Returned?
    requires var env := Env(body(args).value.0, body(args).value.1, CaptureOld(c.snapshots, args).value);
      FirstFailure(c.postconditions, env, k) && c.postconditions[k].condition.call(env) == Returned(false)
    ensures Invoke(c, body, args) == Violation(c.postconditions[k].error)
  {
    var env := Env(body(args).value.0, body(args).value.1, CaptureOld(c.snapshots, args).value);
    CheckFirstFailure(c.postconditions, env, k);
  }

  /** A request to an endpoint without a checker: its own result, or its exception. */
  function Direct(body: Body, args: Args): (r: Response)
    ensures r.Ok? <==> body(args).Returned?
    ensures r.Ok? ==> r.result == body(args).value.1
    ensures !r.Violation?
  {
    match body(args)
    case Raised => Fault
    case Returned(call) => Ok(call.1)
  }
}
