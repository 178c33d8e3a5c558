/**
  The decorators `require`, `snapshot` and `ensure`: what their constructors
  build, and what applying one to an endpoint does to the two per-function
  stores, the contract checker's chains and the documentation record.
  The stores are the value `Tables`; module Registry changes them in place.
 */
module Decorators {
  import opened Wrappers
  import opened Callables
  import opened Checkers
  import opened Openapi

  // ---------------------------------------------------------------------------
  // Violation errors

  const PreconditionPrefix := "Pre-condition violated: "
  const PostconditionPrefix := "Post-condition violated: "

  /**
    The HTTP exception a violated contract raises: the configured status code,
    and a detail naming the kind of contract and its description when the
    description is non-empty.
   */
  function ViolationError(prefix: string, statusCode: int, description: Option<string>): (e: HttpError)
    ensures e.statusCode == statusCode
    ensures e.detail.Some? <==> Truthy(description)
    ensures e.detail.Some? ==> e.detail.value == prefix + description.value
  {
    HttpError(statusCode, if Truthy(description) then Some(prefix + description.value) else None)
  }

  /** Read the description back out of a detail. */
  function DescriptionOf(prefix: string, detail: Option<string>): Option<string> {
    if detail.Some? && prefix <= detail.value && |detail.value| > |prefix| then Some(detail.value[|prefix|..]) else None
  }

  /** The detail gives back the description exactly when the description is non-empty. */
  lemma ViolationDetailRoundTrip(prefix: string, statusCode: int, description: Option<string>)
    ensures DescriptionOf(prefix, ViolationError(prefix, statusCode, description).detail)
         == if Truthy(description) then description else None
  {
    if Truthy(description) {
      var detail := prefix + description.value;
      assert detail[|prefix|..] == description.value;
    }
  }

  /**
    `_func_body_as_text`: the text a condition or capture is documented with;
    the name of a named function, the extracted source of a lambda.
   */
  function FuncBodyAsText<T>(f: Func<T>): (text: string)
    ensures !IsLambda(f) ==> text == f.name
    ensures IsLambda(f) ==> text == f.source
  {
    if !IsLambda(f) then f.name else f.source
  }

  // ---------------------------------------------------------------------------
  // Decorator objects

  /**
    A decorator object as its constructor leaves it; none of its fields
    changes afterwards. The runtime contract or snapshot is built only when
    the decorator is enforced (enabled).
   */
  datatype Decorator =
    | Require(condition: Condition, statusCode: int, description: Option<string>, enforced: bool, undocument: bool, contract: Option<RuntimeContract>)
    | Snapshot(capture: Capture, name: string, enabled: bool, undocument: bool, snapshot: Option<RuntimeSnapshot>)
    | Ensure(condition: Condition, statusCode: int, description: Option<string>, enforced: bool, undocument: bool, contract: Option<RuntimeContract>)

  predicate IsContract(d: Decorator) {
    d.Require? || d.Ensure?
  }

  /** The decorator puts something into the runtime chain. */
  predicate Enforces(d: Decorator) {
    if d.Snapshot? then d.enabled else d.enforced
  }

  /** What the constructors guarantee about a decorator's fields. */
  ghost predicate WellFormed(d: Decorator) {
    match d
    case Require(c, s, desc, enforced, _, k) =>
      k == if enforced then Some(RuntimeContract(c, desc, ViolationError(PreconditionPrefix, s, desc))) else None
    case Ensure(c, s, desc, enforced, _, k) =>
      k == if enforced then Some(RuntimeContract(c, desc, ViolationError(PostconditionPrefix, s, desc))) else None
    case Snapshot(capture, name, enabled, _, k) =>
      k == if enabled then Some(RuntimeSnapshot(capture, name)) else None
  }

  /** `require.__init__`. */
  function NewRequire(condition: Condition, statusCode: int := 422, description: Option<string> := None,
                      enforced: bool := true, undocument: bool := false): (d: Decorator)
    ensures d.Require? && WellFormed(d)
    ensures d.condition == condition && d.statusCode == statusCode && d.description == description
    ensures d.enforced == enforced && d.undocument == undocument
  {
    Require(condition, statusCode, description, enforced, undocument,
      if enforced then Some(RuntimeContract(condition, description, ViolationError(PreconditionPrefix, statusCode, description))) else None)
  }

  /** `snapshot.__init__`. */
  function NewSnapshot(capture: Capture, name: string, enabled: bool := true, undocument: bool := false): (d: Decorator)
    ensures d.Snapshot? && WellFormed(d)
    ensures d.capture == capture && d.name == name && d.enabled == enabled && d.undocument == undocument
  {
    Snapshot(capture, name, enabled, undocument, if enabled then Some(RuntimeSnapshot(capture, name)) else None)
  }

  /** `ensure.__init__`. */
  function NewEnsure(condition: Condition, statusCode: int := 500, description: Option<string> := None,
                     enforced: bool := true, undocument: bool := false): (d: Decorator)
    ensures d.Ensure? && WellFormed(d)
    ensures d.condition == condition && d.statusCode == statusCode && d.description == description
    ensures d.enforced == enforced && d.undocument == undocument
  {
    Ensure(condition, statusCode, description, enforced, undocument,
      if enforced then Some(RuntimeContract(condition, description, ViolationError(PostconditionPrefix, statusCode, description))) else None)
  }

  /** Without a status code a violated pre-condition answers 422; without a description it has no detail. */
  lemma DefaultPreconditionError(condition: Condition)
    ensures NewRequire(condition).contract == Some(RuntimeContract(condition, None, HttpError(422, None)))
  {
  }

  /** Without a status code a violated post-condition answers 500; without a description it has no detail. */
  lemma DefaultPostconditionError(condition: Condition)
    ensures NewEnsure(condition).contract == Some(RuntimeContract(condition, None, HttpError(500, None)))
  {
  }

  // ---------------------------------------------------------------------------
  // The two stores

  /**
    The checkers (the checker handler `Checker(i)` is `checkers[i]`) and the
    documentation records attached to function objects.
   */
  datatype Tables = Tables(checkers: seq<CheckerState>, docs: Attachments)

  predicate IsChecker(t: Tables, h: Handler) {
    h.Checker? && h.index < |t.checkers|
  }

  /** The function object exists: an endpoint, or a checker that was created. */
  predicate Known(t: Tables, h: Handler) {
    h.Endpoint? || IsChecker(t, h)
  }

  /**
    Checkers wrap endpoints, never other checkers, so an endpoint carries at
    most one layer of checking; records are attached only to existing functions.
   */
  ghost predicate Valid(t: Tables) {
    && ValidAttachments(t.docs)
    && (forall i :: 0 <= i < |t.checkers| ==> t.checkers[i].wrapped.Endpoint?)
    && (forall h :: h in t.docs.recordOf ==> Known(t, h))
  }

  /** No checker and no record yet. */
  function EmptyTables(): (t: Tables)
    ensures Valid(t)
  {
    Tables([], Attachments(map[], []))
  }

  /** `find_checker`: a function is its own checker when it is one; an endpoint has none. */
  function FindChecker(t: Tables, func: Handler): (r: Option<nat>)
    ensures r.Some? <==> IsChecker(t, func)
    ensures r.Some? ==> func == Checker(r.value)
  {
    if IsChecker(t, func) then Some(func.index) else None
  }

  /**
    `decorate_with_checker`: a new checker with empty chains around `func`.
    The checker copies the attributes of `func`, so it shares its record.
   */
  function WithChecker(t: Tables, func: Handler): (r: (Tables, nat))
    requires Valid(t) && func.Endpoint?
    ensures Valid(r.0) && r.1 == |t.checkers| && r.0.checkers == t.checkers + [EmptyChecker(func)]
    ensures r.0.docs.records == t.docs.records
    ensures forall h :: h in t.docs.recordOf ==> h in r.0.docs.recordOf && r.0.docs.recordOf[h] == t.docs.recordOf[h]
    ensures forall h :: h in r.0.docs.recordOf && h != Checker(r.1) ==> h in t.docs.recordOf
    ensures Checker(r.1) in r.0.docs.recordOf <==> func in t.docs.recordOf
    ensures func in t.docs.recordOf ==> r.0.docs.recordOf[Checker(r.1)] == t.docs.recordOf[func]
  {
    var index := |t.checkers|;
    var docs := if func in t.docs.recordOf then t.docs.(recordOf := t.docs.recordOf[Checker(index) := t.docs.recordOf[func]]) else t.docs;
    (Tables(t.checkers + [EmptyChecker(func)], docs), index)
  }

  /**
    `add_precondition_to_checker`: icontract inserts the pre-condition at the
    front of the checker's pre-conditions, so the one applied last (written
    outermost) is evaluated first. Only checker `index` changes.
   */
  function AddPrecondition(t: Tables, index: nat, contract: RuntimeContract): (r: Tables)
    requires index < |t.checkers|
    ensures r.docs == t.docs && |r.checkers| == |t.checkers|
    ensures forall i :: 0 <= i < |t.checkers| && i != index ==> r.checkers[i] == t.checkers[i]
    ensures var c := t.checkers[index];
      r.checkers[index] == CheckerState(c.wrapped, [contract] + c.preconditions, c.snapshots, c.postconditions)
  {
    var c := t.checkers[index];
    t.(checkers := t.checkers[index := c.(preconditions := [contract] + c.preconditions)])
  }

  /** `add_snapshot_to_checker`: the snapshot goes to the end of checker `index`'s snapshots. */
  function AddSnapshot(t: Tables, index: nat, snapshot: RuntimeSnapshot): (r: Tables)
    requires index < |t.checkers|
    ensures r.docs == t.docs && |r.checkers| == |t.checkers|
    ensures forall i :: 0 <= i < |t.checkers| && i != index ==> r.checkers[i] == t.checkers[i]
    ensures var c := t.checkers[index];
      r.checkers[index] == CheckerState(c.wrapped, c.preconditions, c.snapshots + [snapshot], c.postconditions)
  {
    var c := t.checkers[index];
    t.(checkers := t.checkers[index := c.(snapshots := c.snapshots + [snapshot])])
  }

  /** `add_postcondition_to_checker`: the post-condition goes to the end of checker `index`'s post-conditions. */
  function AddPostcondition(t: Tables, index: nat, contract: RuntimeContract): (r: Tables)
    requires index < |t.checkers|
    ensures r.docs == t.docs && |r.checkers| == |t.checkers|
    ensures forall i :: 0 <= i < |t.checkers| && i != index ==> r.checkers[i] == t.checkers[i]
    ensures var c := t.checkers[index];
      r.checkers[index] == CheckerState(c.wrapped, c.preconditions, c.snapshots, c.postconditions + [contract])
  {
    var c := t.checkers[index];
    t.(checkers := t.checkers[index := c.(postconditions := c.postconditions + [contract])])
  }

  /**
    The checker with the decorator's contract or snapshot added to the matching
    chain: a pre-condition at the front, a snapshot or post-condition at the end.
   */
  function Extended(c: CheckerState, d: Decorator): CheckerState
    requires WellFormed(d) && Enforces(d)
  {
    match d
    case Require(_, _, _, _, _, k) => c.(preconditions := [k.value] + c.preconditions)
    case Snapshot(_, _, _, _, s) => c.(snapshots := c.snapshots + [s.value])
    case Ensure(_, _, _, _, _, k) => c.(postconditions := c.postconditions + [k.value])
  }

  /** The descriptor a documented decorator appends, at the end of the matching list. */
  function AppendEntry(cs: Contracts, d: Decorator): (r: Contracts)
    ensures d.Require? ==> r == Contracts(cs.preconditions + [ContractDoc(d.enforced, FuncBodyAsText(d.condition), d.statusCode, d.description)], cs.snapshots, cs.postconditions)
    ensures d.Snapshot? ==> r == Contracts(cs.preconditions, cs.snapshots + [SnapshotDoc(d.name, d.enabled, FuncBodyAsText(d.capture))], cs.postconditions)
    ensures d.Ensure? ==> r == Contracts(cs.preconditions, cs.snapshots, cs.postconditions + [ContractDoc(d.enforced, FuncBodyAsText(d.condition), d.statusCode, d.description)])
  {
    match d
    case Require(condition, statusCode, description, enforced, _, _) =>
      AppendPrecondition(cs, ContractDoc(enforced, FuncBodyAsText(condition), statusCode, description))
    case Snapshot(capture, name, enabled, _, _) =>
      AppendSnapshot(cs, SnapshotDoc(name, enabled, FuncBodyAsText(capture)))
    case Ensure(condition, statusCode, description, enforced, _, _) =>
      AppendPostcondition(cs, ContractDoc(enforced, FuncBodyAsText(condition), statusCode, description))
  }

  /**
    Get or attach the record of `h` and append the decorator's descriptor to
    it; the checkers and every other attachment stay as they were.
   */
  function Document(t: Tables, h: Handler, d: Decorator): (r: Tables)
    requires Valid(t) && Known(t, h)
    ensures Valid(r) && r.checkers == t.checkers
    ensures DocumentedOnce(t.docs, r.docs, h, h, d)
    ensures forall g :: g in t.docs.recordOf ==> g in r.docs.recordOf && r.docs.recordOf[g] == t.docs.recordOf[g]
    ensures forall g :: g in r.docs.recordOf ==> g in t.docs.recordOf || g == h
  {
    var (docs, rid) := GetOrAttach(t.docs, h);
    t.(docs := docs.(records := docs.records[rid := AppendEntry(docs.records[rid], d)]))
  }

  /**
    After documenting the decorator on `result` (which took over the record of
    `func`, if it had one): exactly one descriptor was appended to that record,
    a fresh record was attached if there was none, and no other record changed.
   */
  ghost predicate DocumentedOnce(before: Attachments, after: Attachments, func: Handler, result: Handler, d: Decorator)
    requires ValidAttachments(before)
  {
    && ValidAttachments(after)
    && result in after.recordOf
    && var rid := after.recordOf[result];
    && (if func in before.recordOf
        then rid == before.recordOf[func] && |after.records| == |before.records|
             && after.records[rid] == AppendEntry(before.records[rid], d)
        else rid == |before.records| && |after.records| == rid + 1
             && after.records[rid] == AppendEntry(NewContracts(), d))
    && forall j :: 0 <= j < |before.records| && j != rid ==> after.records[j] == before.records[j]
  }

  datatype ConfigError = ValueError(message: string)

  const SnapshotWithoutPostcondition := ValueError(
    "You are decorating a function with a snapshot, but no postcondition was defined on the function before.")

  // ---------------------------------------------------------------------------
  // Applying a decorator

  /**
    `require.__call__` and `ensure.__call__`. When enforced, the endpoint's
    checker is reused if it has one and created otherwise, the contract goes
    to the front of the pre-chain (the end of the post-chain) and the checker
    is returned; when not, the endpoint is returned and no checker changes.
    When documented, exactly one descriptor with the decorator's flag goes to
    the end of the returned function's record; when not, no record is created
    or changed. No other function object's record binding changes.
   */
  function CallContract(t: Tables, d: Decorator, func: Handler): (r: (Tables, Handler))
    requires IsContract(d) && WellFormed(d) && Valid(t) && Known(t, func)
    ensures Valid(r.0) && Known(r.0, r.1)
    ensures !d.enforced ==> r.1 == func && r.0.checkers == t.checkers
    ensures d.enforced && IsChecker(t, func) ==>
      r.1 == func && r.0.checkers == t.checkers[func.index := Extended(t.checkers[func.index], d)]
    ensures d.enforced && !IsChecker(t, func) ==>
      r.1 == Checker(|t.checkers|) && r.0.checkers == t.checkers + [Extended(EmptyChecker(func), d)]
    ensures d.undocument ==> r.0.docs.records == t.docs.records && (r.1 in r.0.docs.recordOf <==> func in t.docs.recordOf)
    ensures !d.undocument ==> DocumentedOnce(t.docs, r.0.docs, func, r.1, d)
    ensures func in t.docs.recordOf ==> r.0.docs.recordOf[r.1] == t.docs.recordOf[func]
    ensures forall g :: g in t.docs.recordOf ==> g in r.0.docs.recordOf && r.0.docs.recordOf[g] == t.docs.recordOf[g]
    ensures forall g :: g in r.0.docs.recordOf ==> g in t.docs.recordOf || g == r.1
  {
    var (t1, result) := Enforce(t, d, func);
    if d.undocument then (t1, result)
    else
      var t2 := Document(t1, result, d);
      assert DocumentedOnce(t.docs, t2.docs, func, result, d) by {
        assert t1.docs.records == t.docs.records;
        assert result in t1.docs.recordOf <==> func in t.docs.recordOf;
      }
      (t2, result)
  }

  /** The checker part of `CallContract`: the contract on the found or new checker. */
  function Enforce(t: Tables, d: Decorator, func: Handler): (r: (Tables, Handler))
    requires IsContract(d) && WellFormed(d) && Valid(t) && Known(t, func)
    ensures Valid(r.0) && Known(r.0, r.1) && r.0.docs.records == t.docs.records
    ensures !d.enforced ==> r == (t, func)
    ensures d.enforced && IsChecker(t, func) ==>
      r.1 == func && r.0.checkers == t.checkers[func.index := Extended(t.checkers[func.index], d)]
    ensures d.enforced && !IsChecker(t, func) ==>
      r.1 == Checker(|t.checkers|) && r.0.checkers == t.checkers + [Extended(EmptyChecker(func), d)]
    ensures r.1 in r.0.docs.recordOf <==> func in t.docs.recordOf
    ensures func in t.docs.recordOf ==> r.0.docs.recordOf[r.1] == t.docs.recordOf[func]
    ensures forall g :: g in t.docs.recordOf ==> g in r.0.docs.recordOf && r.0.docs.recordOf[g] == t.docs.recordOf[g]
    ensures forall g :: g in r.0.docs.recordOf ==> g in t.docs.recordOf || g == r.1
  {
    if !d.enforced then (t, func)
    else
      var (t0, index) := match FindChecker(t, func)
        case Some(i) => (t, i)
        case None => WithChecker(t, func);
      (if d.Require? then AddPrecondition(t0, index, d.contract.value) else AddPostcondition(t0, index, d.contract.value),
       Checker(index))
  }

  /**
    `snapshot.__call__`. An enabled snapshot on a function without a checker
    is refused with ValueError; otherwise it goes to the end of the checker's
    snapshot chain. A disabled one touches no checker. The function is
    returned either way, and the record is treated as by `CallContract`.
   */
  function CallSnapshot(t: Tables, d: Decorator, func: Handler): (r: Result<(Tables, Handler), ConfigError>)
    requires d.Snapshot? && WellFormed(d) && Valid(t) && Known(t, func)
    ensures r.Failure? <==> d.enabled && !IsChecker(t, func)
    ensures r.Failure? ==> r.error == SnapshotWithoutPostcondition
    ensures r.Success? ==> r.value.1 == func && Valid(r.value.0)
    ensures r.Success? && d.enabled ==> r.value.0.checkers == t.checkers[func.index := Extended(t.checkers[func.index], d)]
    ensures r.Success? && !d.enabled ==> r.value.0.checkers == t.checkers
    ensures r.Success? && d.undocument ==> r.value.0.docs == t.docs
    ensures r.Success? && !d.undocument ==> DocumentedOnce(t.docs, r.value.0.docs, func, func, d)
    ensures r.Success? ==> forall g :: g in t.docs.recordOf ==> g in r.value.0.docs.recordOf && r.value.0.docs.recordOf[g] == t.docs.recordOf[g]
    ensures r.Success? ==> forall g :: g in r.value.0.docs.recordOf ==> g in t.docs.recordOf || g == func
  {
    var found := FindChecker(t, func);
    if d.enabled && found.None? then Failure(SnapshotWithoutPostcondition)
    else
      var t1 := if d.enabled then AddSnapshot(t, found.value, d.snapshot.value) else t;
      Success(if d.undocument then (t1, func) else (Document(t1, func, d), func))
  }

  /** Apply any decorator. */
  function Apply(t: Tables, d: Decorator, func: Handler): (r: Result<(Tables, Handler), ConfigError>)
    requires WellFormed(d) && Valid(t) && Known(t, func)
    ensures r.Success? ==> Valid(r.value.0) && Known(r.value.0, r.value.1)
  {
    if d.Snapshot? then CallSnapshot(t, d, func) else Success(CallContract(t, d, func))
  }

  ghost predicate AllWellFormed(ds: seq<Decorator>) {
    forall k :: 0 <= k < |ds| ==> WellFormed(ds[k])
  }

  lemma AllWellFormedPrefix(ds: seq<Decorator>)
    requires AllWellFormed(ds) && |ds| > 0
    ensures AllWellFormed(ds[..|ds| - 1])
  {
    var init := ds[..|ds| - 1];
    forall k | 0 <= k < |init| ensures WellFormed(init[k]) { assert init[k] == ds[k]; }
  }

  /**
    A stack of decorators; `ds[0]` is the one written nearest the function,
    so Python applies it first.
   */
  function DecorateStack(t: Tables, ds: seq<Decorator>, func: Handler): (r: Result<(Tables, Handler), ConfigError>)
    requires AllWellFormed(ds) && Valid(t) && Known(t, func)
    ensures r.Success? ==> Valid(r.value.0) && Known(r.value.0, r.value.1)
  {
    if |ds| == 0 then Success((t, func))
    else
      AllWellFormedPrefix(ds);
      match DecorateStack(t, ds[..|ds| - 1], func)
      case Failure(e) => Failure(e)
      case Success(applied) => Apply(applied.0, ds[|ds| - 1], applied.1)
  }

  // ---------------------------------------------------------------------------
  // Serving a request

  /** A request to function `h`; `code` gives each endpoint's code. */
  function Serve(t: Tables, h: Handler, code: nat -> Body, args: Args): Response
    requires Valid(t) && Known(t, h)
  {
    match FindChecker(t, h)
    case Some(i) => Invoke(t.checkers[i], code(t.checkers[i].wrapped.id), args)
    case None => Direct(code(h.id), args)
  }

  // ---------------------------------------------------------------------------
  // A whole stack on a fresh endpoint

  /**
    The enforced pre-conditions of the stack in the order the checker
    evaluates them: the reverse of the order they were applied (and are
    documented), so the one written outermost comes first.
   */
  function PreChain(ds: seq<Decorator>): seq<RuntimeContract> {
    if |ds| == 0 then []
    else
      var d := ds[|ds| - 1];
      (if d.Require? && d.contract.Some? then [d.contract.value] else []) + PreChain(ds[..|ds| - 1])
  }

  /** The enabled snapshots of the stack, in the order they were applied. */
  function SnapChain(ds: seq<Decorator>): seq<RuntimeSnapshot> {
    if |ds| == 0 then []
    else
      var d := ds[|ds| - 1];
      SnapChain(ds[..|ds| - 1]) + if d.Snapshot? && d.snapshot.Some? then [d.snapshot.value] else []
  }

  /** The enforced post-conditions of the stack, in the order they were applied. */
  function PostChain(ds: seq<Decorator>): seq<RuntimeContract> {
    if |ds| == 0 then []
    else
      var d := ds[|ds| - 1];
      PostChain(ds[..|ds| - 1]) + if d.Ensure? && d.contract.Some? then [d.contract.value] else []
  }

  /** The record the documented decorators of the stack build, in the order they were applied. */
  function DocsOf(ds: seq<Decorator>): Contracts {
    if |ds| == 0 then NewContracts()
    else
      var d := ds[|ds| - 1];
      if d.undocument then DocsOf(ds[..|ds| - 1]) else AppendEntry(DocsOf(ds[..|ds| - 1]), d)
  }

  /** Some contract of the stack is enforced, so the endpoint gets a checker. */
  ghost predicate HasEnforcedContract(ds: seq<Decorator>) {
    exists k :: 0 <= k < |ds| && IsContract(ds[k]) && ds[k].enforced
  }

  /** Some decorator of the stack is documented, so the endpoint gets a record. */
  ghost predicate HasDocumented(ds: seq<Decorator>) {
    exists k :: 0 <= k < |ds| && !ds[k].undocument
  }

  /** Every enabled snapshot is applied after some enforced contract. */
  ghost predicate SnapshotsFollowChecker(ds: seq<Decorator>) {
    forall k :: 0 <= k < |ds| && ds[k].Snapshot? && ds[k].enabled ==> HasEnforcedContract(ds[..k])
  }

  /** The three stack predicates, one decorator at a time. */
  lemma StackPredicatesStep(ds: seq<Decorator>)
    requires |ds| > 0
    ensures var init, d := ds[..|ds| - 1], ds[|ds| - 1];
      && (HasEnforcedContract(ds) <==> HasEnforcedContract(init) || (IsContract(d) && d.enforced))
      && (HasDocumented(ds) <==> HasDocumented(init) || !d.undocument)
      && (SnapshotsFollowChecker(ds) <==> SnapshotsFollowChecker(init) && (d.Snapshot? && d.enabled ==> HasEnforcedContract(init)))
  {
    var n := |ds| - 1;
    var init := ds[..n];
    assert forall k :: 0 <= k < n ==> init[k] == ds[k];
    assert forall k :: 0 <= k <= n ==> init[..k] == ds[..k];
    assert ds[..n] == init;
  }

  /**
    What a stack that applies without error leaves, starting from an endpoint
    `e` with neither checker nor record: no existing checker or record changed;
    `e` is replaced by one new checker exactly when some contract is enforced,
    and its chains are the enabled snapshots and enforced post-conditions in
    the order they were applied and the enforced pre-conditions in the reverse
    order; the result carries one new record exactly when some decorator is
    documented, and it lists the documented ones in the order they were
    applied; no function other than `e` and the result gains a record, and no
    existing binding changes.
   */
  ghost predicate StackShape(t: Tables, ds: seq<Decorator>, e: Handler, r: (Tables, Handler)) {
    CheckerShape(t, ds, e, r) && RecordShape(t, ds, e, r)
  }

  /** The checker part of `StackShape`. */
  ghost predicate CheckerShape(t: Tables, ds: seq<Decorator>, e: Handler, r: (Tables, Handler)) {
    && |t.checkers| <= |r.0.checkers|
    && (forall i :: 0 <= i < |t.checkers| ==> r.0.checkers[i] == t.checkers[i])
    && (HasEnforcedContract(ds) ==>
          && r.1 == Checker(|t.checkers|) && |r.0.checkers| == |t.checkers| + 1
          && r.0.checkers[|t.checkers|] == CheckerState(e, PreChain(ds), SnapChain(ds), PostChain(ds)))
    && (!HasEnforcedContract(ds) ==> r.1 == e && |r.0.checkers| == |t.checkers|)
  }

  /** The record part of `StackShape`. */
  ghost predicate RecordShape(t: Tables, ds: seq<Decorator>, e: Handler, r: (Tables, Handler)) {
    && (forall g :: g in t.docs.recordOf ==> g in r.0.docs.recordOf && r.0.docs.recordOf[g] == t.docs.recordOf[g])
    && (forall g :: g in r.0.docs.recordOf ==> g in t.docs.recordOf || g == e || g == r.1)
    && |t.docs.records| <= |r.0.docs.records|
    && (forall j :: 0 <= j < |t.docs.records| ==> r.0.docs.records[j] == t.docs.records[j])
    && (r.1 in r.0.docs.recordOf <==> HasDocumented(ds))
    && (HasDocumented(ds) ==>
          && r.0.docs.recordOf[r.1] == |t.docs.records| && |r.0.docs.records| == |t.docs.records| + 1
          && r.0.docs.records[|t.docs.records|] == DocsOf(ds))
    && (!HasDocumented(ds) ==> |r.0.docs.records| == |t.docs.records|)
  }

  /**
    A stack of decorators on a fresh endpoint applies without error exactly
    when every enabled snapshot comes after an enforced contract; the error is
    then the snapshot's ValueError, and on success the stores are as
    `StackShape` says.
   */
  lemma {:induction false} DecorateStackShape(t: Tables, ds: seq<Decorator>, e: Handler)
    requires AllWellFormed(ds) && Valid(t) && e.Endpoint? && e !in t.docs.recordOf
    ensures DecorateStack(t, ds, e).Success? <==> SnapshotsFollowChecker(ds)
    ensures DecorateStack(t, ds, e).Failure? ==> DecorateStack(t, ds, e).error == SnapshotWithoutPostcondition
    ensures DecorateStack(t, ds, e).Success? ==> StackShape(t, ds, e, DecorateStack(t, ds, e).value)
  {
    if |ds| > 0 {
      var init, d := ds[..|ds| - 1], ds[|ds| - 1];
      assert ds == init + [d];
      AllWellFormedPrefix(ds);
      StackPredicatesStep(ds);
      DecorateStackShape(t, init, e);
      if DecorateStack(t, init, e).Success? {
        var applied := DecorateStack(t, init, e).value;
        assert DecorateStack(t, ds, e) == Apply(applied.0, d, applied.1);
        assert IsChecker(applied.0, applied.1) <==> HasEnforcedContract(init);
        if d.Snapshot? {
          if CallSnapshot(applied.0, d, applied.1).Success? {
            ApplySnapshotShape(t, init, d, e, applied);
          }
        } else {
          ApplyContractShape(t, init, d, e, applied);
        }
      }
    }
  }

  /** The chains and the record of a stack, one decorator at a time. */
  lemma StackFiltersStep(init: seq<Decorator>, d: Decorator)
    ensures PreChain(init + [d]) == (if d.Require? && d.contract.Some? then [d.contract.value] else []) + PreChain(init)
    ensures SnapChain(init + [d]) == SnapChain(init) + if d.Snapshot? && d.snapshot.Some? then [d.snapshot.value] else []
    ensures PostChain(init + [d]) == PostChain(init) + if d.Ensure? && d.contract.Some? then [d.contract.value] else []
    ensures DocsOf(init + [d]) == if d.undocument then DocsOf(init) else AppendEntry(DocsOf(init), d)
  {
    var ds := init + [d];
    assert ds[..|ds| - 1] == init;
  }

  /** The step of `DecorateStackShape` for a contract. */
  lemma ApplyContractShape(t: Tables, init: seq<Decorator>, d: Decorator, e: Handler, applied: (Tables, Handler))
    requires IsContract(d) && WellFormed(d) && Valid(t) && e.Endpoint? && e !in t.docs.recordOf
    requires AllWellFormed(init) && SnapshotsFollowChecker(init)
    requires Valid(applied.0) && Known(applied.0, applied.1) && StackShape(t, init, e, applied)
    ensures StackShape(t, init + [d], e, CallContract(applied.0, d, applied.1))
  {
    var ds := init + [d];
    assert ds[..|ds| - 1] == init;
    StackPredicatesStep(ds);
    StackFiltersStep(init, d);
    ApplyContractChecker(t, init, d, e, applied);
    ApplyContractRecord(t, init, d, e, applied);
  }

  lemma ApplyContractChecker(t: Tables, init: seq<Decorator>, d: Decorator, e: Handler, applied: (Tables, Handler))
    requires IsContract(d) && WellFormed(d) && Valid(t) && e.Endpoint?
    requires AllWellFormed(init) && SnapshotsFollowChecker(init)
    requires Valid(applied.0) && Known(applied.0, applied.1) && CheckerShape(t, init, e, applied)
    requires HasEnforcedContract(init + [d]) <==> HasEnforcedContract(init) || (IsContract(d) && d.enforced)
    requires PreChain(init + [d]) == (if d.Require? && d.contract.Some? then [d.contract.value] else []) + PreChain(init)
    requires SnapChain(init + [d]) == SnapChain(init)
    requires PostChain(init + [d]) == PostChain(init) + if d.Ensure? && d.contract.Some? then [d.contract.value] else []
    ensures CheckerShape(t, init + [d], e, CallContract(applied.0, d, applied.1))
  {
    var r := CallContract(applied.0, d, applied.1);
    var n := |t.checkers|;
    if d.enforced {
      if HasEnforcedContract(init) {
        assert r.0.checkers[n] == Extended(applied.0.checkers[n], d);
      } else {
        assert r.0.checkers[n] == Extended(EmptyChecker(e), d);
        NoEnforcedNoChains(init);
      }
    }
  }

  lemma ApplyContractRecord(t: Tables, init: seq<Decorator>, d: Decorator, e: Handler, applied: (Tables, Handler))
    requires IsContract(d) && WellFormed(d) && Valid(t)
    requires Valid(applied.0) && Known(applied.0, applied.1) && RecordShape(t, init, e, applied)
    requires HasDocumented(init + [d]) <==> HasDocumented(init) || !d.undocument
    requires DocsOf(init + [d]) == if d.undocument then DocsOf(init) else AppendEntry(DocsOf(init), d)
    requires applied.1 == e || applied.1.Checker?
    ensures RecordShape(t, init + [d], e, CallContract(applied.0, d, applied.1))
  {
    var r := CallContract(applied.0, d, applied.1);
    if !d.undocument {
      assert DocumentedOnce(applied.0.docs, r.0.docs, applied.1, r.1, d);
      if !HasDocumented(init) {
        NoDocumentedEmptyRecord(init);
      }
    }
  }

  /** The step of `DecorateStackShape` for a snapshot that is accepted. */
  lemma ApplySnapshotShape(t: Tables, init: seq<Decorator>, d: Decorator, e: Handler, applied: (Tables, Handler))
    requires d.Snapshot? && WellFormed(d) && Valid(t) && e.Endpoint? && e !in t.docs.recordOf
    requires Valid(applied.0) && Known(applied.0, applied.1) && StackShape(t, init, e, applied)
    requires CallSnapshot(applied.0, d, applied.1).Success?
    ensures StackShape(t, init + [d], e, CallSnapshot(applied.0, d, applied.1).value)
  {
    var ds := init + [d];
    assert ds[..|ds| - 1] == init;
    StackPredicatesStep(ds);
    StackFiltersStep(init, d);
    var r := CallSnapshot(applied.0, d, applied.1).value;
    if !d.undocument {
      assert DocumentedOnce(applied.0.docs, r.0.docs, applied.1, r.1, d);
      if !HasDocumented(init) {
        NoDocumentedEmptyRecord(init);
      }
    }
  }

  /** Without an enforced contract the stack of well-formed decorators contributes no contract. */
  lemma {:induction false} NoEnforcedNoChains(ds: seq<Decorator>)
    requires AllWellFormed(ds) && !HasEnforcedContract(ds)
    ensures PreChain(ds) == [] && PostChain(ds) == []
    ensures SnapshotsFollowChecker(ds) ==> SnapChain(ds) == []
  {
    if |ds| > 0 {
      AllWellFormedPrefix(ds);
      StackPredicatesStep(ds);
      NoEnforcedNoChains(ds[..|ds| - 1]);
    }
  }

  /** Without a documented decorator the record of a stack is empty. */
  lemma {:induction false} NoDocumentedEmptyRecord(ds: seq<Decorator>)
    requires !HasDocumented(ds)
    ensures DocsOf(ds) == NewContracts()
  {
    if |ds| > 0 {
      StackPredicatesStep(ds);
      NoDocumentedEmptyRecord(ds[..|ds| - 1]);
    }
  }

  // ---------------------------------------------------------------------------
  // Behaviour

  /**
    A contract or snapshot that is switched off changes nothing a request can
    observe: the function serves every request as before, even when its
    condition would raise, since the condition is never evaluated.
   */
  lemma DisabledKeepsBehaviour(t: Tables, d: Decorator, func: Handler, code: nat -> Body, args: Args)
    requires WellFormed(d) && Valid(t) && Known(t, func) && !Enforces(d)
    ensures Apply(t, d, func).Success?
    ensures Serve(Apply(t, d, func).value.0, Apply(t, d, func).value.1, code, args) == Serve(t, func, code, args)
  {
  }

  /**
    A request to an endpoint decorated with a stack: it runs through one
    checker whose chains are the stack's enforced contracts and enabled
    snapshots (pre-conditions outermost first, the rest in the order they were
    applied), or, when no contract is enforced, straight to the endpoint.
   */
  lemma DecoratedEndpointServes(t: Tables, ds: seq<Decorator>, e: Handler, code: nat -> Body, args: Args)
    requires AllWellFormed(ds) && Valid(t) && e.Endpoint? && e !in t.docs.recordOf
    requires SnapshotsFollowChecker(ds)
    ensures DecorateStack(t, ds, e).Success?
    ensures var r := DecorateStack(t, ds, e).value;
      Serve(r.0, r.1, code, args)
        == if HasEnforcedContract(ds)
           then Invoke(CheckerState(e, PreChain(ds), SnapChain(ds), PostChain(ds)), code(e.id), args)
           else Direct(code(e.id), args)
  {
    DecorateStackShape(t, ds, e);
  }
}
