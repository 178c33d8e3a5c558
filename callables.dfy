/**
  The Python objects the contract decorators work on: endpoint functions,
  condition and capture functions, the values they exchange, and the
  HTTP exception a violated contract raises.
 */
module Callables {
  import opened Wrappers

  /** The values that flow through a request: arguments, results and captured snapshots. */
  datatype Value = NoneValue | IntValue(n: int) | ListValue(items: seq<int>)

  /** The keyword arguments of an endpoint call, by parameter name. */
  type Args = map<string, Value>

  /** What calling a Python function yields: a value, or an exception that propagates. */
  datatype Outcome<+T> = Returned(value: T) | Raised

  /**
    The names a condition may ask for: the arguments of the call and, for a
    post-condition, the result and the OLD bag of captured snapshots.
   */
  datatype Env = Env(args: Args, result: Value, OLD: map<string, Value>)

  /**
    A Python callable: its `__name__`, the source text of its body (what the
    lambda inspection would extract; only consulted for lambdas) and what
    calling it does.
   */
  datatype Func<T> = Func(name: string, source: string, call: T)

  /** A pre- or post-condition; it may raise instead of returning a truth value. */
  type Condition = Func<Env -> Outcome<bool>>

  /** A snapshot's capture function over the incoming arguments. */
  type Capture = Func<Args -> Outcome<Value>>

  /** An endpoint's code: it may change its (mutable) arguments in place and returns a result. */
  type Body = Args -> Outcome<(Args, Value)>

  /**
    The identity of a function object: an endpoint written by the user, or the
    contract checker with the given index that wraps one.
   */
  datatype Handler = Endpoint(id: nat) | Checker(index: nat)

  /** `fastapi.HTTPException`: a status code and an optional detail. */
  datatype HttpError = HttpError(statusCode: int, detail: Option<string>)

  /** The `__name__` Python gives every lambda. */
  const LambdaName := "<lambda>"

  /** `icontract._represent.is_lambda`: a function is a lambda when its name says so. */
  predicate IsLambda<T>(f: Func<T>) {
    f.name == LambdaName
  }

  /** Python truthiness of an `Optional[str]`: neither None nor the empty string. */
  predicate Truthy(s: Option<string>) {
    s.Some? && s.value != ""
  }
}
