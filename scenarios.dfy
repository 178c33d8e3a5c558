/**
  The endpoints of the repository's test tables for pre-conditions,
  post-conditions and snapshots, decorated on a fresh application, and what
  one request to each answers; plus a stack of two failing pre-conditions
  that shows which one answers.
 */
module Scenarios {
  import opened Wrappers
  import opened Callables
  import opened Checkers
  import opened Openapi
  import opened Decorators

  const Always := Func(LambdaName, "True", (env: Env) => Returned(true))
  const Never := Func(LambdaName, "False", (env: Env) => Returned(false))
  /** A condition that calls a function which raises. */
  const Raising := Func(LambdaName, "this_func_will_raise()", (env: Env) => Raised)

  /** An endpoint without arguments that returns None. */
  function ReturnNone(): Body {
    (args: Args) => Returned((args, NoneValue))
  }

  function Endpoints(body: Body): nat -> Body {
    (id: nat) => body
  }

  /** One request to a fresh endpoint carrying the stack `ds`. */
  function Request(ds: seq<Decorator>, body: Body, args: Args): Response
    requires AllWellFormed(ds) && SnapshotsFollowChecker(ds)
  {
    var t := EmptyTables();
    DecorateStackShape(t, ds, Endpoint(0));
    var r := DecorateStack(t, ds, Endpoint(0)).value;
    Serve(r.0, r.1, Endpoints(body), args)
  }

  /** One enforced contract on a fresh endpoint: the request runs its checker. */
  lemma OneContract(d: Decorator, body: Body, args: Args)
    requires IsContract(d) && WellFormed(d) && d.enforced
    ensures AllWellFormed([d]) && SnapshotsFollowChecker([d])
    ensures Request([d], body, args) == Invoke(Extended(EmptyChecker(Endpoint(0)), d), body, args)
  {
    var ds := [d];
    assert HasEnforcedContract(ds) by { assert IsContract(ds[0]) && ds[0].enforced; }
    StackFiltersStep([], d);
    assert [] + [d] == ds;
    DecoratedEndpointServes(EmptyTables(), ds, Endpoint(0), Endpoints(body), args);
  }

  lemma PassingPrecondition()
    ensures Request([NewRequire(Always)], ReturnNone(), map[]) == Ok(NoneValue)
  {
    var d := NewRequire(Always);
    OneContract(d, ReturnNone(), map[]);
    CheckPassed(Extended(EmptyChecker(Endpoint(0)), d).preconditions, PreEnv(map[]));
  }

  lemma PassingPreconditionWithStatusCode()
    ensures Request([NewRequire(Always, 404)], ReturnNone(), map[]) == Ok(NoneValue)
  {
    var d := NewRequire(Always, 404);
    OneContract(d, ReturnNone(), map[]);
    CheckPassed(Extended(EmptyChecker(Endpoint(0)), d).preconditions, PreEnv(map[]));
  }

  lemma PassingPreconditionWithDescription()
    ensures Request([NewRequire(Always, 404, Some("Something."))], ReturnNone(), map[]) == Ok(NoneValue)
  {
    var d := NewRequire(Always, 404, Some("Something."));
    OneContract(d, ReturnNone(), map[]);
    CheckPassed(Extended(EmptyChecker(Endpoint(0)), d).preconditions, PreEnv(map[]));
  }

  lemma FailingPreconditionDefaults()
    ensures Request([NewRequire(Never)], ReturnNone(), map[]) == Violation(HttpError(422, None))
  {
    OneContract(NewRequire(Never), ReturnNone(), map[]);
  }

  lemma FailingPreconditionWithStatusCode()
    ensures Request([NewRequire(Never, 404)], ReturnNone(), map[]) == Violation(HttpError(404, None))
  {
    OneContract(NewRequire(Never, 404), ReturnNone(), map[]);
  }

  lemma FailingPreconditionWithDescription()
    ensures Request([NewRequire(Never, 404, Some("Something."))], ReturnNone(), map[])
         == Violation(HttpError(404, Some("Pre-condition violated: Something.")))
  {
    OneContract(NewRequire(Never, 404, Some("Something.")), ReturnNone(), map[]);
    assert PreconditionPrefix + "Something." == "Pre-condition violated: Something.";
  }

  lemma PassingPostconditionDefaults()
    ensures Request([NewEnsure(Always)], ReturnNone(), map[]) == Ok(NoneValue)
  {
    var d := NewEnsure(Always);
    OneContract(d, ReturnNone(), map[]);
    CheckPassed(Extended(EmptyChecker(Endpoint(0)), d).postconditions, Env(map[], NoneValue, map[]));
  }

  lemma PassingPostconditionWithStatusCode()
    ensures Request([NewEnsure(Always, 503)], ReturnNone(), map[]) == Ok(NoneValue)
  {
    var d := NewEnsure(Always, 503);
    OneContract(d, ReturnNone(), map[]);
    CheckPassed(Extended(EmptyChecker(Endpoint(0)), d).postconditions, Env(map[], NoneValue, map[]));
  }

  lemma PassingPostconditionWithDescription()
    ensures Request([NewEnsure(Always, 503, Some("Something."))], ReturnNone(), map[]) == Ok(NoneValue)
  {
    var d := NewEnsure(Always, 503, Some("Something."));
    OneContract(d, ReturnNone(), map[]);
    CheckPassed(Extended(EmptyChecker(Endpoint(0)), d).postconditions, Env(map[], NoneValue, map[]));
  }

  lemma FailingPostconditionDefaults()
    ensures Request([NewEnsure(Never)], ReturnNone(), map[]) == Violation(HttpError(500, None))
  {
    OneContract(NewEnsure(Never), ReturnNone(), map[]);
  }

  lemma FailingPostconditionWithStatusCode()
    ensures Request([NewEnsure(Never, 503)], ReturnNone(), map[]) == Violation(HttpError(503, None))
  {
    OneContract(NewEnsure(Never, 503), ReturnNone(), map[]);
  }

  lemma FailingPostconditionWithDescription()
    ensures Request([NewEnsure(Never, 503, Some("Something."))], ReturnNone(), map[])
         == Violation(HttpError(503, Some("Post-condition violated: Something.")))
  {
    OneContract(NewEnsure(Never, 503, Some("Something.")), ReturnNone(), map[]);
    assert PostconditionPrefix + "Something." == "Post-condition violated: Something.";
  }

  /**
    Two failing pre-conditions: 404 written nearest the function, 403 above
    it. The outer one is evaluated first and answers, while the record lists
    them in the order they were applied, the inner one first.
   */
  function TwoPreconditions(): seq<Decorator> {
    [NewRequire(Never, 404), NewRequire(Never, 403)]
  }

  lemma TwoPreconditionsChain()
    ensures AllWellFormed(TwoPreconditions()) && SnapshotsFollowChecker(TwoPreconditions()) && HasEnforcedContract(TwoPreconditions())
    ensures PreChain(TwoPreconditions()) == [RuntimeContract(Never, None, HttpError(403, None)), RuntimeContract(Never, None, HttpError(404, None))]
    ensures SnapChain(TwoPreconditions()) == [] && PostChain(TwoPreconditions()) == []
    ensures DocsOf(TwoPreconditions()).preconditions == [ContractDoc(true, "False", 404, None), ContractDoc(true, "False", 403, None)]
  {
    var ds := TwoPreconditions();
    assert IsContract(ds[0]) && ds[0].enforced;
    StackFiltersStep([], ds[0]);
    StackFiltersStep([ds[0]], ds[1]);
    assert [] + [ds[0]] == [ds[0]];
    assert [ds[0]] + [ds[1]] == ds;
  }

  lemma OutermostPreconditionAnswers()
    ensures AllWellFormed(TwoPreconditions()) && SnapshotsFollowChecker(TwoPreconditions())
    ensures Request(TwoPreconditions(), ReturnNone(), map[]) == Violation(HttpError(403, None))
  {
    TwoPreconditionsChain();
    DecoratedEndpointServes(EmptyTables(), TwoPreconditions(), Endpoint(0), Endpoints(ReturnNone()), map[]);
  }

  /** The unenforced post-condition would raise, but it is never evaluated. */
  lemma UnenforcedPostcondition()
    ensures Request([NewEnsure(Raising, enforced := false)], ReturnNone(), map[]) == Ok(NoneValue)
  {
    var off := [NewEnsure(Raising, enforced := false)];
    assert !HasEnforcedContract(off);
    DecoratedEndpointServes(EmptyTables(), off, Endpoint(0), Endpoints(ReturnNone()), map[]);
  }

  // The snapshot tests post [1, 2, 3] as `lst`.

  const Lst := map["lst" := ListValue([1, 2, 3])]

  const LenLst := Func(LambdaName, "len(lst)",
    (args: Args) => if "lst" in args && args["lst"].ListValue? then Returned(IntValue(|args["lst"].items|)) else Raised)

  const OldLenIsResult := Func(LambdaName, "OLD.len_lst == result",
    (env: Env) => if "len_lst" in env.OLD then Returned(env.OLD["len_lst"] == env.result) else Raised)

  /** The endpoint returns the length of `lst`, plus `extra`. */
  function Length(extra: int): Body {
    (args: Args) => if "lst" in args && args["lst"].ListValue?
      then Returned((args, IntValue(|args["lst"].items| + extra))) else Raised
  }

  /** The snapshot is written above the post-condition, so it is applied second. */
  function SnapshotStack(): seq<Decorator> {
    [NewEnsure(OldLenIsResult), NewSnapshot(LenLst, "len_lst")]
  }

  /** The stack is accepted, and the endpoint runs behind one checker with both. */
  lemma SnapshotStackAccepted()
    ensures AllWellFormed(SnapshotStack()) && SnapshotsFollowChecker(SnapshotStack()) && HasEnforcedContract(SnapshotStack())
  {
    var ds := SnapshotStack();
    assert HasEnforcedContract(ds[..1]) by { assert IsContract(ds[..1][0]) && ds[..1][0].enforced; }
    assert SnapshotsFollowChecker(ds) by {
      forall k | 0 <= k < |ds| && ds[k].Snapshot? && ds[k].enabled ensures HasEnforcedContract(ds[..k]) {
        assert k == 1;
      }
    }
    assert IsContract(ds[0]) && ds[0].enforced;
  }

  lemma SnapshotStackChains()
    ensures PreChain(SnapshotStack()) == []
    ensures SnapChain(SnapshotStack()) == [RuntimeSnapshot(LenLst, "len_lst")]
    ensures PostChain(SnapshotStack()) == [RuntimeContract(OldLenIsResult, None, HttpError(500, None))]
  {
    var ds := SnapshotStack();
    StackFiltersStep([], ds[0]);
    StackFiltersStep([ds[0]], ds[1]);
    assert [] + [ds[0]] == [ds[0]];
    assert [ds[0]] + [ds[1]] == ds;
  }

  /** The stack is accepted, and the endpoint runs behind one checker with both. */
  lemma SnapshotStackChecker(body: Body, args: Args)
    ensures AllWellFormed(SnapshotStack()) && SnapshotsFollowChecker(SnapshotStack())
    ensures Request(SnapshotStack(), body, args)
         == Invoke(CheckerState(Endpoint(0), [], [RuntimeSnapshot(LenLst, "len_lst")],
                                [RuntimeContract(OldLenIsResult, None, HttpError(500, None))]), body, args)
  {
    SnapshotStackAccepted();
    SnapshotStackChains();
    DecoratedEndpointServes(EmptyTables(), SnapshotStack(), Endpoint(0), Endpoints(body), args);
  }

  /** The endpoint that returns the length passes its post-condition. */
  lemma SnapshotPasses()
    ensures AllWellFormed(SnapshotStack()) && SnapshotsFollowChecker(SnapshotStack())
    ensures Request(SnapshotStack(), Length(0), Lst) == Ok(IntValue(3))
  {
    SnapshotStackChecker(Length(0), Lst);
    var bag := map["len_lst" := IntValue(3)];
    assert CaptureOld([RuntimeSnapshot(LenLst, "len_lst")], Lst) == Returned(bag);
    CheckPassed([RuntimeContract(OldLenIsResult, None, HttpError(500, None))], Env(Lst, IntValue(3), bag));
  }

  /** The endpoint that returns one too many violates it, with the default 500. */
  lemma SnapshotFails()
    ensures AllWellFormed(SnapshotStack()) && SnapshotsFollowChecker(SnapshotStack())
    ensures Request(SnapshotStack(), Length(1), Lst) == Violation(HttpError(500, None))
  {
    SnapshotStackChecker(Length(1), Lst);
    assert CaptureOld([RuntimeSnapshot(LenLst, "len_lst")], Lst) == Returned(map["len_lst" := IntValue(3)]);
  }

  /** The capture `lambda lst: lst[:]`: a copy of the list, which is the list itself as a value. */
  const CopyLst := Func(LambdaName, "lst[:]",
    (args: Args) => if "lst" in args && args["lst"].ListValue? then Returned(args["lst"]) else Raised)

  const LenOldIsResult := Func(LambdaName, "len(OLD.lst) == result",
    (env: Env) => if "lst" in env.OLD && env.OLD["lst"].ListValue?
      then Returned(IntValue(|env.OLD["lst"].items|) == env.result) else Raised)

  /** The snapshot named "lst" on the copied list, above the post-condition on its length. */
  function CopyStack(): seq<Decorator> {
    [NewEnsure(LenOldIsResult), NewSnapshot(CopyLst, "lst")]
  }

  lemma CopyStackAccepted()
    ensures AllWellFormed(CopyStack()) && SnapshotsFollowChecker(CopyStack()) && HasEnforcedContract(CopyStack())
  {
    var ds := CopyStack();
    assert HasEnforcedContract(ds[..1]) by { assert IsContract(ds[..1][0]) && ds[..1][0].enforced; }
    assert SnapshotsFollowChecker(ds) by {
      forall k | 0 <= k < |ds| && ds[k].Snapshot? && ds[k].enabled ensures HasEnforcedContract(ds[..k]) {
        assert k == 1;
      }
    }
    assert IsContract(ds[0]) && ds[0].enforced;
  }

  lemma CopyStackChains()
    ensures PreChain(CopyStack()) == []
    ensures SnapChain(CopyStack()) == [RuntimeSnapshot(CopyLst, "lst")]
    ensures PostChain(CopyStack()) == [RuntimeContract(LenOldIsResult, None, HttpError(500, None))]
  {
    var ds := CopyStack();
    StackFiltersStep([], ds[0]);
    StackFiltersStep([ds[0]], ds[1]);
    assert [] + [ds[0]] == [ds[0]];
    assert [ds[0]] + [ds[1]] == ds;
  }

  /** The copy stack is accepted, and the endpoint runs behind one checker with both. */
  lemma CopyStackChecker(body: Body, args: Args)
    ensures AllWellFormed(CopyStack()) && SnapshotsFollowChecker(CopyStack())
    ensures Request(CopyStack(), body, args)
         == Invoke(CheckerState(Endpoint(0), [], [RuntimeSnapshot(CopyLst, "lst")],
                                [RuntimeContract(LenOldIsResult, None, HttpError(500, None))]), body, args)
  {
    CopyStackAccepted();
    CopyStackChains();
    DecoratedEndpointServes(EmptyTables(), CopyStack(), Endpoint(0), Endpoints(body), args);
  }

  /** The endpoint that returns the length passes `len(OLD.lst) == result`. */
  lemma CopySnapshotPasses()
    ensures AllWellFormed(CopyStack()) && SnapshotsFollowChecker(CopyStack())
    ensures Request(CopyStack(), Length(0), Lst) == Ok(IntValue(3))
  {
    CopyStackChecker(Length(0), Lst);
    var bag := map["lst" := ListValue([1, 2, 3])];
    assert CaptureOld([RuntimeSnapshot(CopyLst, "lst")], Lst) == Returned(bag);
    CheckPassed([RuntimeContract(LenOldIsResult, None, HttpError(500, None))], Env(Lst, IntValue(3), bag));
  }

  /** The endpoint that returns one too many violates it, with the default 500. */
  lemma CopySnapshotFails()
    ensures AllWellFormed(CopyStack()) && SnapshotsFollowChecker(CopyStack())
    ensures Request(CopyStack(), Length(1), Lst) == Violation(HttpError(500, None))
  {
    CopyStackChecker(Length(1), Lst);
    assert CaptureOld([RuntimeSnapshot(CopyLst, "lst")], Lst) == Returned(map["lst" := ListValue([1, 2, 3])]);
  }

  /** A stack that starts with an enabled snapshot is refused. */
  lemma SnapshotWithoutCheckerScenario()
    ensures DecorateStack(EmptyTables(), [NewSnapshot(LenLst, "len_lst")], Endpoint(0))
         == Failure(SnapshotWithoutPostcondition)
  {
  }

  /** The record the snapshot test's endpoint documents, and its JSON form. */
  lemma SnapshotDocumentation()
    ensures AllWellFormed(SnapshotStack())
    ensures DocsOf(SnapshotStack()) == Contracts(
      [],
      [SnapshotDoc("len_lst", true, "len(lst)")],
      [ContractDoc(true, "OLD.len_lst == result", 500, None)])
  {
    var ds := SnapshotStack();
    assert ds == [ds[0]] + [ds[1]];
    StackFiltersStep([], ds[0]);
    StackFiltersStep([ds[0]], ds[1]);
  }

  /** A capture that calls a function which raises. */
  const RaisingCapture := Func(LambdaName, "this_func_will_raise()", (args: Args) => Raised)

  /**
    A disabled snapshot above an unenforced post-condition is accepted, though
    no checker exists, and neither raising function is ever called.
   */
  lemma SnapshotNotEnforced()
    ensures var ds := [NewEnsure(Raising, enforced := false), NewSnapshot(RaisingCapture, "not_raising", enabled := false)];
      && AllWellFormed(ds) && SnapshotsFollowChecker(ds)
      && Request(ds, ReturnNone(), Lst) == Ok(NoneValue)
  {
    var ds := [NewEnsure(Raising, enforced := false), NewSnapshot(RaisingCapture, "not_raising", enabled := false)];
    assert !HasEnforcedContract(ds);
    DecoratedEndpointServes(EmptyTables(), ds, Endpoint(0), Endpoints(ReturnNone()), Lst);
  }
}
