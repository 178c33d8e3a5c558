/**
  The per-function state the decorators change in place: icontract's checker
  objects with their chains, and the `__fastapi_icontract_openapi__` record
  attached to a function object. Each method follows one step of a decorator's `__call__`
  and is specified by the step function of module Decorators over `Model()`.
 */
module Registry {
  import opened Wrappers
  import opened Callables
  import opened Checkers
  import Openapi
  import opened Decorators

  class Store {
    /** The checker handler `Checker(i)` is `checkers[i]`. */
    var checkers: seq<CheckerState>
    /** The record each function object carries, by record identity. */
    var recordOf: map<Handler, nat>
    var records: seq<Openapi.Contracts>

    function Model(): Tables
      reads this
    {
      Tables(checkers, Openapi.Attachments(recordOf, records))
    }

    ghost predicate Valid()
      reads this
    {
      Decorators.Valid(Model())
    }

    /** No checker and no record yet. */
    constructor()
      ensures Valid() && Model() == EmptyTables()
    {
      checkers := [];
      recordOf := map[];
      records := [];
    }

    /** `decorate_with_checker`: a new empty checker around `func`, sharing its record. */
    method DecorateWithChecker(func: Handler) returns (index: nat)
      requires Valid() && func.Endpoint?
      modifies this
      ensures Valid() && (Model(), index) == WithChecker(old(Model()), func)
    {
      index := |checkers|;
      checkers := checkers + [EmptyChecker(func)];
      if func in recordOf {
        recordOf := recordOf[Checker(index) := recordOf[func]];
      }
    }

    /** `add_precondition_to_checker`: the new pre-condition goes to the front. */
    method AddPreconditionToChecker(index: nat, contract: RuntimeContract)
      requires index < |checkers|
      modifies this
      ensures Model() == AddPrecondition(old(Model()), index, contract)
    {
      var c := checkers[index];
      checkers := checkers[index := c.(preconditions := [contract] + c.preconditions)];
    }

    /** `add_snapshot_to_checker`. */
    method AddSnapshotToChecker(index: nat, snapshot: RuntimeSnapshot)
      requires index < |checkers|
      modifies this
      ensures Model() == AddSnapshot(old(Model()), index, snapshot)
    {
      var c := checkers[index];
      checkers := checkers[index := c.(snapshots := c.snapshots + [snapshot])];
    }

    /** `add_postcondition_to_checker`. */
    method AddPostconditionToChecker(index: nat, contract: RuntimeContract)
      requires index < |checkers|
      modifies this
      ensures Model() == AddPostcondition(old(Model()), index, contract)
    {
      var c := checkers[index];
      checkers := checkers[index := c.(postconditions := c.postconditions + [contract])];
    }

    /** `get_or_attach`: the record of `h`, attaching an empty one first when it has none. */
    method GetOrAttach(h: Handler) returns (rid: nat)
      requires Valid() && Known(Model(), h)
      modifies this
      ensures checkers == old(checkers)
      ensures (Model().docs, rid) == Openapi.GetOrAttach(old(Model().docs), h)
      ensures Valid() && rid < |records|
    {
      if h in recordOf {
        rid := recordOf[h];
      } else {
        rid := |records|;
        records := records + [Openapi.NewContracts()];
        recordOf := recordOf[h := rid];
      }
    }

    /** Get or attach the record of `h` and append the decorator's descriptor to it. */
    method DocumentOn(h: Handler, d: Decorator)
      requires Valid() && Known(Model(), h)
      modifies this
      ensures Valid() && Model() == Document(old(Model()), h, d)
    {
      var rid := GetOrAttach(h);
      records := records[rid := AppendEntry(records[rid], d)];
    }

    /** The checker of `func` when it is one; a new checker around it otherwise. */
    method FindOrDecorate(func: Handler) returns (index: nat)
      requires Valid() && Known(Model(), func)
      modifies this
      ensures Valid() && index < |checkers|
      ensures (Model(), index) == match FindChecker(old(Model()), func)
        case Some(i) => (old(Model()), i)
        case None => WithChecker(old(Model()), func)
    {
      var found := FindChecker(Model(), func);
      if found.Some? {
        index := found.value;
      } else {
        index := DecorateWithChecker(func);
      }
    }

    /** `require.__call__`. */
    method CallRequire(d: Decorator, func: Handler) returns (result: Handler)
      requires d.Require? && WellFormed(d) && Valid() && Known(Model(), func)
      modifies this
      ensures Valid() && (Model(), result) == CallContract(old(Model()), d, func)
    {
      if !d.enforced {
        result := func;
      } else {
        var index := FindOrDecorate(func);
        result := Checker(index);
        AddPreconditionToChecker(index, d.contract.value);
      }
      if !d.undocument {
        DocumentOn(result, d);
      }
    }

    /** `snapshot.__call__`: refused, with nothing changed, on a function without a checker. */
    method CallSnapshot(d: Decorator, func: Handler) returns (r: Result<Handler, ConfigError>)
      requires d.Snapshot? && WellFormed(d) && Valid() && Known(Model(), func)
      modifies this
      ensures Valid()
      ensures var expected := Decorators.CallSnapshot(old(Model()), d, func);
        && (r.Success? <==> expected.Success?)
        && (r.Success? ==> (Model(), r.value) == expected.value)
        && (r.Failure? ==> r.error == expected.error && Model() == old(Model()))
    {
      var result := func;
      if d.enabled {
        var found := FindChecker(Model(), func);
        if found.None? {
          return Failure(SnapshotWithoutPostcondition);
        }
        AddSnapshotToChecker(found.value, d.snapshot.value);
      }
      if !d.undocument {
        DocumentOn(result, d);
      }
      r := Success(result);
    }

    /** `ensure.__call__`. */
    method CallEnsure(d: Decorator, func: Handler) returns (result: Handler)
      requires d.Ensure? && WellFormed(d) && Valid() && Known(Model(), func)
      modifies this
      ensures Valid() && (Model(), result) == CallContract(old(Model()), d, func)
    {
      if !d.enforced {
        result := func;
      } else {
        var index := FindOrDecorate(func);
        result := Checker(index);
        AddPostconditionToChecker(index, d.contract.value);
      }
      if !d.undocument {
        DocumentOn(result, d);
      }
    }
  }
}
