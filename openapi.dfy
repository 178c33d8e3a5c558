/**
  The documentation side of the contracts: the records attached to endpoint
  functions, their JSON form, and the merge of those records into the
  OpenAPI schema under the `x-contracts` key of each operation.
 */
module Openapi {
  import opened Wrappers
  import opened Callables

  // ---------------------------------------------------------------------------
  // Records

  /** Describes a pre- or post-condition of an operation. */
  datatype ContractDoc = ContractDoc(enforced: bool, text: string, statusCode: int, description: Option<string>)

  /** Describes a snapshot involved in an operation. */
  datatype SnapshotDoc = SnapshotDoc(name: string, enabled: bool, text: string)

  /** Describes all the contracts of an operation, in decoration order. */
  datatype Contracts = Contracts(preconditions: seq<ContractDoc>, snapshots: seq<SnapshotDoc>, postconditions: seq<ContractDoc>)

  /** A fresh record. */
  function NewContracts(): (cs: Contracts)
    ensures |cs.preconditions| == 0 && |cs.snapshots| == 0 && |cs.postconditions| == 0
  {
    Contracts([], [], [])
  }

  // ---------------------------------------------------------------------------
  // The attribute `__fastapi_icontract_openapi__`, as an identity-keyed side table

  /**
    Which record each function object carries. Records have an identity (their
    index), so two function objects may share one record.
   */
  datatype Attachments = Attachments(recordOf: map<Handler, nat>, records: seq<Contracts>)

  ghost predicate ValidAttachments(a: Attachments) {
    forall h :: h in a.recordOf ==> a.recordOf[h] < |a.records|
  }

  /** `getattr(func, "__fastapi_icontract_openapi__", None)`. */
  function Attached(a: Attachments, h: Handler): (r: Option<Contracts>)
    requires ValidAttachments(a)
    ensures r.Some? <==> h in a.recordOf
    ensures r.Some? ==> r.value in a.records && r.value == a.records[a.recordOf[h]]
  {
    if h in a.recordOf then Some(a.records[a.recordOf[h]]) else None
  }

  /**
    Get the record of `h`, attaching a fresh one first when it has none.
    No other function object's record changes, and no existing record does.
   */
  function GetOrAttach(a: Attachments, h: Handler): (r: (Attachments, nat))
    requires ValidAttachments(a)
    ensures ValidAttachments(r.0)
    ensures h in r.0.recordOf && r.0.recordOf[h] == r.1
    ensures forall g :: g in a.recordOf ==> g in r.0.recordOf && r.0.recordOf[g] == a.recordOf[g]
    ensures forall g :: g in r.0.recordOf && g != h ==> g in a.recordOf
    ensures |a.records| <= |r.0.records| && r.0.records[..|a.records|] == a.records
    ensures h in a.recordOf <==> r.0 == a
    ensures h !in a.recordOf ==> r.1 == |a.records| && r.0.records == a.records + [NewContracts()]
  {
    if h !in a.recordOf then
      var rid := |a.records|;
      (Attachments(a.recordOf[h := rid], a.records + [NewContracts()]), rid)
    else
      (a, a.recordOf[h])
  }

  /** A second call on the same function returns the same record and changes nothing. */
  lemma GetOrAttachIdempotent(a: Attachments, h: Handler)
    requires ValidAttachments(a)
    ensures var (a1, rid1) := GetOrAttach(a, h);
      GetOrAttach(a1, h) == (a1, rid1)
  {
  }

  /** The three `append` calls on a record's lists. */
  function AppendPrecondition(cs: Contracts, c: ContractDoc): Contracts {
    cs.(preconditions := cs.preconditions + [c])
  }

  function AppendSnapshot(cs: Contracts, s: SnapshotDoc): Contracts {
    cs.(snapshots := cs.snapshots + [s])
  }

  function AppendPostcondition(cs: Contracts, c: ContractDoc): Contracts {
    cs.(postconditions := cs.postconditions + [c])
  }

  // ---------------------------------------------------------------------------
  // JSON

  datatype Json = JNull | JBool(b: bool) | JInt(i: int) | JString(s: string) | JArray(items: seq<Json>) | JObject(fields: map<string, Json>)

  /** The language every condition text is written in. */
  const Language := "python3"

  /** The keys every serialised pre- or post-condition carries. */
  const ContractKeys: set<string> := {"enforced", "text", "language", "statusCode"}

  /** The keys of a serialised snapshot. */
  const SnapshotKeys: set<string> := {"name", "enabled", "text", "language"}

  /** The keys of a serialised record. */
  const ContractsKeys: set<string> := {"preconditions", "snapshots", "postconditions"}

  /** `_contract_to_jsonable`. */
  function ContractToJson(c: ContractDoc): (j: Json)
    ensures j.JObject?
    ensures j.fields.Keys == if Truthy(c.description) then ContractKeys + {"description"} else ContractKeys
    ensures j.fields["language"] == JString(Language)
  {
    var jsonable := map[
      "enforced" := JBool(c.enforced),
      "text" := JString(c.text),
      "language" := JString(Language),
      "statusCode" := JInt(c.statusCode)];
    JObject(if Truthy(c.description) then jsonable["description" := JString(c.description.value)] else jsonable)
  }

  /** `_snapshot_to_jsonable`. */
  function SnapshotToJson(s: SnapshotDoc): (j: Json)
    ensures j.JObject? && j.fields.Keys == SnapshotKeys
    ensures j.fields["language"] == JString(Language)
  {
    JObject(map[
      "name" := JString(s.name),
      "enabled" := JBool(s.enabled),
      "text" := JString(s.text),
      "language" := JString(Language)])
  }

  /** `contracts_to_jsonable`: each list serialised element by element, in order. */
  function ContractsToJson(cs: Contracts): (j: Json)
    ensures j.JObject? && j.fields.Keys == ContractsKeys
    ensures j.fields["preconditions"].JArray? && |j.fields["preconditions"].items| == |cs.preconditions|
    ensures j.fields["snapshots"].JArray? && |j.fields["snapshots"].items| == |cs.snapshots|
    ensures j.fields["postconditions"].JArray? && |j.fields["postconditions"].items| == |cs.postconditions|
  {
    JObject(map[
      "preconditions" := JArray(ContractsArray(cs.preconditions)),
      "snapshots" := JArray(SnapshotsArray(cs.snapshots)),
      "postconditions" := JArray(ContractsArray(cs.postconditions))])
  }

  /** The list comprehensions of `contracts_to_jsonable`. */
  function ContractsArray(cs: seq<ContractDoc>): (items: seq<Json>)
    ensures |items| == |cs| && forall i :: 0 <= i < |cs| ==> items[i] == ContractToJson(cs[i])
  {
    seq(|cs|, i requires 0 <= i < |cs| => ContractToJson(cs[i]))
  }

  function SnapshotsArray(ss: seq<SnapshotDoc>): (items: seq<Json>)
    ensures |items| == |ss| && forall i :: 0 <= i < |ss| ==> items[i] == SnapshotToJson(ss[i])
  {
    seq(|ss|, i requires 0 <= i < |ss| => SnapshotToJson(ss[i]))
  }

  // Readers of the serialised form: the inverse of the serialisers, used to
  // state what the JSON carries.

  function ContractFromJson(j: Json): Option<ContractDoc> {
    if && j.JObject?
       && ContractKeys <= j.fields.Keys <= ContractKeys + {"description"}
       && j.fields["enforced"].JBool? && j.fields["text"].JString?
       && j.fields["language"] == JString(Language) && j.fields["statusCode"].JInt?
       && ("description" in j.fields ==> j.fields["description"].JString? && j.fields["description"].s != "")
    then
      Some(ContractDoc(
        j.fields["enforced"].b, j.fields["text"].s, j.fields["statusCode"].i,
        if "description" in j.fields then Some(j.fields["description"].s) else None))
    else None
  }

  function SnapshotFromJson(j: Json): Option<SnapshotDoc> {
    if && j.JObject? && j.fields.Keys == SnapshotKeys
       && j.fields["name"].JString? && j.fields["enabled"].JBool? && j.fields["text"].JString?
       && j.fields["language"] == JString(Language)
    then Some(SnapshotDoc(j.fields["name"].s, j.fields["enabled"].b, j.fields["text"].s))
    else None
  }

  function ContractsFromArray(items: seq<Json>): Option<seq<ContractDoc>> {
    if |items| == 0 then Some([])
    else
      match (ContractFromJson(items[0]), ContractsFromArray(items[1..]))
      case (Some(c), Some(cs)) => Some([c] + cs)
      case _ => None
  }

  function SnapshotsFromArray(items: seq<Json>): Option<seq<SnapshotDoc>> {
    if |items| == 0 then Some([])
    else
      match (SnapshotFromJson(items[0]), SnapshotsFromArray(items[1..]))
      case (Some(s), Some(ss)) => Some([s] + ss)
      case _ => None
  }

  function ContractsFromJson(j: Json): Option<Contracts> {
    if j.JObject? && j.fields.Keys == ContractsKeys
       && j.fields["preconditions"].JArray? && j.fields["snapshots"].JArray? && j.fields["postconditions"].JArray?
    then
      match (ContractsFromArray(j.fields["preconditions"].items),
             SnapshotsFromArray(j.fields["snapshots"].items),
             ContractsFromArray(j.fields["postconditions"].items))
      case (Some(pre), Some(snap), Some(post)) => Some(Contracts(pre, snap, post))
      case _ => None
    else None
  }

  /** What survives serialisation: an empty description is dropped like a missing one. */
  function Normalized(c: ContractDoc): ContractDoc {
    c.(description := if Truthy(c.description) then c.description else None)
  }

  function NormalizedList(cs: seq<ContractDoc>): seq<ContractDoc> {
    seq(|cs|, i requires 0 <= i < |cs| => Normalized(cs[i]))
  }

  function NormalizedContracts(cs: Contracts): Contracts {
    cs.(preconditions := NormalizedList(cs.preconditions), postconditions := NormalizedList(cs.postconditions))
  }

  /**
    A serialised condition carries the flag, the text, the status code and the
    description when it is non-empty, and nothing else but the language.
   */
  lemma ContractRoundTrip(c: ContractDoc)
    ensures ContractFromJson(ContractToJson(c)) == Some(Normalized(c))
  {
  }

  lemma SnapshotRoundTrip(s: SnapshotDoc)
    ensures SnapshotFromJson(SnapshotToJson(s)) == Some(s)
  {
  }

  lemma {:induction false} ContractsArrayRoundTrip(cs: seq<ContractDoc>)
    ensures ContractsFromArray(ContractsArray(cs)) == Some(NormalizedList(cs))
  {
    if |cs| > 0 {
      var items := ContractsArray(cs);
      ContractRoundTrip(cs[0]);
      ContractsArrayRoundTrip(cs[1..]);
      ArraysCons(cs);
      assert ContractFromJson(items[0]) == Some(Normalized(cs[0]));
      assert ContractsFromArray(items[1..]) == Some(NormalizedList(cs[1..]));
    } else {
      assert NormalizedList(cs) == [];
    }
  }

  /** The serialised and the normalised list, split after their first element. */
  lemma ArraysCons(cs: seq<ContractDoc>)
    requires |cs| > 0
    ensures ContractsArray(cs)[0] == ContractToJson(cs[0])
    ensures ContractsArray(cs)[1..] == ContractsArray(cs[1..])
    ensures NormalizedList(cs) == [Normalized(cs[0])] + NormalizedList(cs[1..])
  {
  }

  lemma {:induction false} SnapshotsArrayRoundTrip(ss: seq<SnapshotDoc>)
    ensures SnapshotsFromArray(SnapshotsArray(ss)) == Some(ss)
  {
    if |ss| > 0 {
      SnapshotRoundTrip(ss[0]);
      SnapshotsArrayRoundTrip(ss[1..]);
      assert SnapshotsArray(ss)[1..] == SnapshotsArray(ss[1..]);
      assert ss == [ss[0]] + ss[1..];
    }
  }

  /**
    The serialised record gives back every list with its length and order:
    the snapshots exactly, the conditions up to dropping empty descriptions.
   */
  lemma ContractsRoundTrip(cs: Contracts)
    ensures ContractsFromJson(ContractsToJson(cs)) == Some(NormalizedContracts(cs))
  {
    ContractsArrayRoundTrip(cs.preconditions);
    SnapshotsArrayRoundTrip(cs.snapshots);
    ContractsArrayRoundTrip(cs.postconditions);
  }

  // ---------------------------------------------------------------------------
  // Merging the records into the schema

  /**
    A route of the application: whether it is an API route, whether it is
    included in the schema, its endpoint, and the operation ID FastAPI
    generates for each of its HTTP methods.
   */
  datatype Route = Route(isApiRoute: bool, includeInSchema: bool, endpoint: Handler, operationIds: seq<string>)

  /** An operation object of the schema. */
  type Operation = map<string, Json>

  /** An OpenAPI schema: the operations by path and method, and everything else. */
  datatype Schema = Schema(paths: map<string, map<string, Operation>>, other: map<string, Json>)

  datatype SchemaError = DuplicateOperationId(operationId: string)

  /** What one route contributes: each of its operation IDs paired with its endpoint's record. */
  function RoutePairs(route: Route, a: Attachments): (ps: seq<(string, Contracts)>)
    requires ValidAttachments(a)
    ensures |ps| > 0 ==> route.isApiRoute && route.includeInSchema && route.endpoint in a.recordOf
    ensures route.isApiRoute && route.includeInSchema && route.endpoint in a.recordOf ==>
      && |ps| == |route.operationIds|
      && forall i :: 0 <= i < |ps| ==> ps[i] == (route.operationIds[i], a.records[a.recordOf[route.endpoint]])
  {
    if !route.isApiRoute || !route.includeInSchema then []
    else
      match Attached(a, route.endpoint)
      case None => []
      case Some(cs) => Pairs(route.operationIds, cs)
  }

  /** Each operation ID paired with the same record. */
  function Pairs(operationIds: seq<string>, cs: Contracts): (ps: seq<(string, Contracts)>)
    ensures |ps| == |operationIds| && forall i :: 0 <= i < |ps| ==> ps[i] == (operationIds[i], cs)
  {
    seq(|operationIds|, i requires 0 <= i < |operationIds| => (operationIds[i], cs))
  }

  /** The pairs of all routes, in route order. */
  function Contributions(routes: seq<Route>, a: Attachments): (ps: seq<(string, Contracts)>)
    requires ValidAttachments(a)
    ensures forall k :: 0 <= k < |ps| ==> exists i :: 0 <= i < |routes| && Attached(a, routes[i].endpoint) == Some(ps[k].1)
  {
    if |routes| == 0 then []
    else Contributions(routes[..|routes| - 1], a) + RoutePairs(routes[|routes| - 1], a)
  }

  ghost predicate DistinctIds(ps: seq<(string, Contracts)>) {
    forall i, j :: 0 <= i < j < |ps| ==> ps[i].0 != ps[j].0
  }

  /** `id` is the first operation ID that repeats an earlier one. */
  ghost predicate FirstDuplicate(ps: seq<(string, Contracts)>, id: string) {
    exists j :: 0 <= j < |ps| && ps[j].0 == id && DistinctBefore(ps, j) && exists i :: 0 <= i < j && ps[i].0 == id
  }

  /** The operation IDs of the first j pairs are pairwise distinct. */
  ghost predicate DistinctBefore(ps: seq<(string, Contracts)>, j: int) {
    forall a, b :: 0 <= a < b < j && b < |ps| ==> ps[a].0 != ps[b].0
  }

  /** The map from operation ID to record that distinct pairs define. */
  ghost function OperationMap(ps: seq<(string, Contracts)>): (m: map<string, Contracts>)
    requires DistinctIds(ps)
  {
    map i | 0 <= i < |ps| :: ps[i].0 := ps[i].1
  }

  /** The map holds exactly the operation IDs of the pairs, each with its own record. */
  lemma OperationMapLookup(ps: seq<(string, Contracts)>)
    requires DistinctIds(ps)
    ensures forall id :: id in OperationMap(ps) <==> exists i :: 0 <= i < |ps| && ps[i].0 == id
    ensures forall i :: 0 <= i < |ps| ==> OperationMap(ps)[ps[i].0] == ps[i].1
  {
  }

  lemma {:induction false} ContributionsPrefix(routes: seq<Route>, k: nat, a: Attachments)
    requires ValidAttachments(a) && k <= |routes|
    ensures Contributions(routes[..k], a) <= Contributions(routes, a)
    decreases |routes| - k
  {
    if k < |routes| {
      ContributionsPrefix(routes, k + 1, a);
      assert routes[..k + 1][..k] == routes[..k];
    } else {
      assert routes[..k] == routes;
    }
  }

  /** Adding a pair with a new operation ID keeps the IDs distinct and extends the map by it. */
  lemma OperationMapSnoc(ps: seq<(string, Contracts)>, p: (string, Contracts))
    requires DistinctIds(ps) && p.0 !in OperationMap(ps)
    ensures DistinctIds(ps + [p]) && OperationMap(ps + [p]) == OperationMap(ps)[p.0 := p.1]
  {
    DistinctSnoc(ps, p);
    var qs := ps + [p];
    var m1, m2 := OperationMap(qs), OperationMap(ps)[p.0 := p.1];
    OperationMapSnocKeys(ps, p);
    forall id | id in m1 ensures m1[id] == m2[id] {
      var i :| 0 <= i < |qs| && qs[i].0 == id;
      if i < |ps| { assert qs[i] == ps[i]; }
    }
  }

  lemma DistinctSnoc(ps: seq<(string, Contracts)>, p: (string, Contracts))
    requires DistinctIds(ps) && p.0 !in OperationMap(ps)
    ensures DistinctIds(ps + [p])
  {
    var qs := ps + [p];
    forall i, j | 0 <= i < j < |qs| ensures qs[i].0 != qs[j].0 {
      assert qs[i] == ps[i];
      if j < |ps| { assert qs[j] == ps[j]; }
      else { assert ps[i].0 in OperationMap(ps); }
    }
  }

  lemma OperationMapSnocKeys(ps: seq<(string, Contracts)>, p: (string, Contracts))
    requires DistinctIds(ps) && DistinctIds(ps + [p])
    ensures OperationMap(ps + [p]).Keys == OperationMap(ps).Keys + {p.0}
  {
    var qs := ps + [p];
    OperationMapLookup(ps);
    OperationMapLookup(qs);
    forall id | id in OperationMap(ps) ensures id in OperationMap(qs) {
      var i :| 0 <= i < |ps| && ps[i].0 == id;
      assert qs[i] == ps[i];
    }
    assert qs[|ps|] == p;
    forall id | id in OperationMap(qs) && id != p.0 ensures id in OperationMap(ps) {
      var i :| 0 <= i < |qs| && qs[i].0 == id;
      assert i < |ps| && qs[i] == ps[i];
    }
  }

  /** An operation ID met again behind distinct pairs is the first duplicate of any continuation. */
  lemma DuplicateFound(ps: seq<(string, Contracts)>, seen: seq<(string, Contracts)>, p: (string, Contracts))
    requires seen + [p] <= ps && DistinctIds(seen) && p.0 in OperationMap(seen)
    ensures FirstDuplicate(ps, p.0) && !DistinctIds(ps)
  {
    var i :| 0 <= i < |seen| && seen[i].0 == p.0;
    assert ps[..|seen|] == seen;
    assert ps[i] == seen[i] && ps[|seen|] == p;
  }

  /** The pairs of the first i + 1 routes extend those of the first i by route i's. */
  lemma ContributionsStep(routes: seq<Route>, i: nat, a: Attachments)
    requires ValidAttachments(a) && i < |routes|
    ensures Contributions(routes[..i + 1], a) == Contributions(routes[..i], a) + RoutePairs(routes[i], a)
    ensures RoutePairs(routes[i], a) == [] ==> Contributions(routes[..i + 1], a) == Contributions(routes[..i], a)
  {
    assert routes[..i + 1][..i] == routes[..i];
  }

  /** Meeting a mapped operation ID inside route i means the pairs of all routes repeat it first there. */
  lemma DuplicateInRoute(routes: seq<Route>, i: nat, a: Attachments, j: nat)
    requires ValidAttachments(a) && i < |routes| && j < |RoutePairs(routes[i], a)|
    requires var seen := Contributions(routes[..i], a) + RoutePairs(routes[i], a)[..j];
      DistinctIds(seen) && RoutePairs(routes[i], a)[j].0 in OperationMap(seen)
    ensures FirstDuplicate(Contributions(routes, a), RoutePairs(routes[i], a)[j].0)
    ensures !DistinctIds(Contributions(routes, a))
  {
    var pairs := RoutePairs(routes[i], a);
    var prev := Contributions(routes[..i], a);
    var seen := prev + pairs[..j];
    ContributionsStep(routes, i, a);
    ContributionsPrefix(routes, i + 1, a);
    PrefixOfPart(prev, pairs, j);
    DuplicateFound(Contributions(routes, a), seen, pairs[j]);
  }

  /** Part of the pairs of the next route, behind those of the earlier routes, is a prefix of all of them. */
  lemma PrefixOfPart(prev: seq<(string, Contracts)>, pairs: seq<(string, Contracts)>, j: nat)
    requires j < |pairs|
    ensures prev + pairs[..j] + [pairs[j]] <= prev + pairs
  {
    var xs, ys := prev + pairs[..j] + [pairs[j]], prev + pairs;
    assert |xs| <= |ys|;
    forall k | 0 <= k < |xs| ensures xs[k] == ys[k] {
      if k < |prev| { assert xs[k] == prev[k] == ys[k]; }
      else if k < |prev| + j { assert xs[k] == pairs[k - |prev|] == ys[k]; }
    }
    assert xs == ys[..|xs|];
  }

  /**
    The first loop of the schema wrapper: map every operation ID of every
    documented API route in the schema to its endpoint's record, failing on
    the first operation ID that is already mapped.
   */
  method CollectOperationContracts(routes: seq<Route>, a: Attachments) returns (r: Result<map<string, Contracts>, SchemaError>)
    requires ValidAttachments(a)
    ensures var ps := Contributions(routes, a);
      && (r.Success? <==> DistinctIds(ps))
      && (r.Success? ==> r.value == OperationMap(ps))
      && (r.Failure? ==> FirstDuplicate(ps, r.error.operationId))
  {
    var operationContracts: map<string, Contracts> := map[];
    var i := 0;
    while i < |routes|
      invariant 0 <= i <= |routes|
      invariant DistinctIds(Contributions(routes[..i], a))
      invariant operationContracts == OperationMap(Contributions(routes[..i], a))
    {
      var route := routes[i];
      ContributionsStep(routes, i, a);
      if route.isApiRoute && route.includeInSchema {
        var contracts := Attached(a, route.endpoint);
        if contracts.Some? {
          var added;
          ghost var j;
          added, j := AddOperations(operationContracts, Contributions(routes[..i], a), route.operationIds, contracts.value);
          if added.Failure? {
            DuplicateInRoute(routes, i, a, j);
            return added;
          }
          operationContracts := added.value;
        }
      }
      i := i + 1;
    }
    assert routes[..i] == routes;
    return Success(operationContracts);
  }

  /**
    The inner loop over one route's methods: add each operation ID with the
    route's record, failing on the first one already mapped.
   */
  method AddOperations(operationContracts: map<string, Contracts>, ghost seen: seq<(string, Contracts)>, operationIds: seq<string>, contracts: Contracts)
    returns (r: Result<map<string, Contracts>, SchemaError>, ghost j: nat)
    requires DistinctIds(seen) && operationContracts == OperationMap(seen)
    ensures var pairs := Pairs(operationIds, contracts);
      && (r.Success? <==> DistinctIds(seen + pairs))
      && (r.Success? ==> r.value == OperationMap(seen + pairs))
      && (r.Failure? ==>
            && j < |pairs| && r.error.operationId == operationIds[j]
            && DistinctIds(seen + pairs[..j]) && operationIds[j] in OperationMap(seen + pairs[..j]))
  {
    ghost var pairs := Pairs(operationIds, contracts);
    var m := operationContracts;
    ghost var done := seen;
    var k := 0;
    assert pairs[..0] == [];
    while k < |operationIds|
      invariant 0 <= k <= |operationIds|
      invariant done == seen + pairs[..k]
      invariant DistinctIds(done) && m == OperationMap(done)
    {
      var operationId := operationIds[k];
      if operationId in m {
        j := k;
        PrefixOfPart(seen, pairs, j);
        DuplicateFound(seen + pairs, done, pairs[j]);
        return Failure(DuplicateOperationId(operationId)), j;
      }
      OperationMapSnoc(done, pairs[k]);
      assert pairs[..k + 1] == pairs[..k] + [pairs[k]];
      done := done + [pairs[k]];
      m := m[operationId := contracts];
      k := k + 1;
    }
    assert pairs[..k] == pairs;
    j := k;
    return Success(m), j;
  }

  /** The operation ID of an operation, when it has one. */
  function OperationIdOf(op: Operation): (id: Option<string>)
    ensures id.Some? ==> "operationId" in op && op["operationId"] == JString(id.value)
    ensures id.None? ==> "operationId" !in op || !op["operationId"].JString?
  {
    if "operationId" in op && op["operationId"].JString? then Some(op["operationId"].s) else None
  }

  /**
    One step of the second loop: an operation whose ID is mapped gains
    `x-contracts`, the serialised record; every other key, and every other
    operation, stays as it was.
   */
  function AnnotateOperation(op: Operation, operationContracts: map<string, Contracts>): (r: Operation)
    ensures var id := OperationIdOf(op);
      if id.Some? && id.value in operationContracts then
        && r.Keys == op.Keys + {"x-contracts"}
        && r["x-contracts"] == ContractsToJson(operationContracts[id.value])
        && forall k :: k in op && k != "x-contracts" ==> r[k] == op[k]
      else r == op
  {
    var id := OperationIdOf(op);
    if id.Some? && id.value in operationContracts then op["x-contracts" := ContractsToJson(operationContracts[id.value])]
    else op
  }

  /** `after` is `before` with every operation annotated and nothing else changed. */
  ghost predicate Annotated(before: Schema, after: Schema, operationContracts: map<string, Contracts>) {
    && after.other == before.other
    && after.paths.Keys == before.paths.Keys
    && forall p :: p in before.paths ==>
         && after.paths[p].Keys == before.paths[p].Keys
         && forall m :: m in before.paths[p] ==> after.paths[p][m] == AnnotateOperation(before.paths[p][m], operationContracts)
  }

  /** The second loop of the schema wrapper: annotate every operation of every path. */
  method AnnotateSchema(schema: Schema, operationContracts: map<string, Contracts>) returns (s: Schema)
    ensures Annotated(schema, s, operationContracts)
  {
    var paths := schema.paths;
    var pending := schema.paths.Keys;
    while pending != {}
      invariant pending <= schema.paths.Keys && paths.Keys == schema.paths.Keys
      invariant forall p :: p in pending ==> paths[p] == schema.paths[p]
      invariant forall p :: p in schema.paths && p !in pending ==>
        && paths[p].Keys == schema.paths[p].Keys
        && forall m :: m in schema.paths[p] ==> paths[p][m] == AnnotateOperation(schema.paths[p][m], operationContracts)
      decreases pending
    {
      var p :| p in pending;
      var path := paths[p];
      var methods := path.Keys;
      while methods != {}
        invariant methods <= schema.paths[p].Keys && path.Keys == schema.paths[p].Keys
        invariant forall m :: m in methods ==> path[m] == schema.paths[p][m]
        invariant forall m :: m in schema.paths[p] && m !in methods ==> path[m] == AnnotateOperation(schema.paths[p][m], operationContracts)
        decreases methods
      {
        var m :| m in methods;
        path := path[m := AnnotateOperation(path[m], operationContracts)];
        methods := methods - {m};
      }
      paths := paths[p := path];
      pending := pending - {p};
    }
    s := schema.(paths := paths);
  }

  /**
    The application as far as its schema is concerned: its routes, the schema
    FastAPI's own `openapi` builds for it, and the cached `openapi_schema`.
   */
  class App {
    const routes: seq<Route>
    const generated: Schema
    var openapiSchema: Option<Schema>

    constructor (routes: seq<Route>, generated: Schema)
      ensures this.routes == routes && this.generated == generated && openapiSchema == None
    {
      this.routes := routes;
      this.generated := generated;
      openapiSchema := None;
    }

    /** `wrap_openapi_with_contracts`: drop the cached schema so the wrapper builds it afresh. */
    method WrapOpenapiWithContracts()
      modifies this
      ensures openapiSchema == None
    {
      openapiSchema := None;
    }

    /**
      The wrapped `openapi`, as written: the cached schema when there is one.
      Otherwise FastAPI's own `openapi` builds the schema and caches it before
      the records are merged in; a repeated operation ID then fails and leaves
      that un-annotated schema cached; without one the annotated schema is
      cached and returned.
     */
    method Openapi(a: Attachments) returns (r: Result<Schema, SchemaError>)
      requires ValidAttachments(a)
      modifies this
      ensures old(openapiSchema).Some? ==> r == Success(old(openapiSchema).value) && openapiSchema == old(openapiSchema)
      ensures old(openapiSchema).None? ==>
        var ps := Contributions(routes, a);
        && (r.Success? <==> DistinctIds(ps))
        && (r.Success? ==> Annotated(generated, r.value, OperationMap(ps)) && openapiSchema == Some(r.value))
        && (r.Failure? ==> FirstDuplicate(ps, r.error.operationId) && openapiSchema == Some(generated))
    {
      if openapiSchema.Some? {
        return Success(openapiSchema.value);
      }
      var schema := generated;
      openapiSchema := Some(schema);
      var operationContracts := CollectOperationContracts(routes, a);
      if operationContracts.Failure? {
        return Failure(operationContracts.error);
      }
      schema := AnnotateSchema(schema, operationContracts.value);
      openapiSchema := Some(schema);
      return Success(schema);
    }

    /**
      The wrapped `openapi` as evidently intended: like `Openapi`, but a
      repeated operation ID leaves nothing cached, so every later call
      reports it again.
     */
    method OpenapiIntended(a: Attachments) returns (r: Result<Schema, SchemaError>)
      requires ValidAttachments(a)
      modifies this
      ensures old(openapiSchema).Some? ==> r == Success(old(openapiSchema).value) && openapiSchema == old(openapiSchema)
      ensures old(openapiSchema).None? ==>
        var ps := Contributions(routes, a);
        && (r.Success? <==> DistinctIds(ps))
        && (r.Success? ==> Annotated(generated, r.value, OperationMap(ps)) && openapiSchema == Some(r.value))
        && (r.Failure? ==> FirstDuplicate(ps, r.error.operationId) && openapiSchema == None)
    {
      if openapiSchema.Some? {
        return Success(openapiSchema.value);
      }
      var schema := generated;
      openapiSchema := Some(schema);
      var operationContracts := CollectOperationContracts(routes, a);
      if operationContracts.Failure? {
        openapiSchema := None;
        return Failure(operationContracts.error);
      }
      schema := AnnotateSchema(schema, operationContracts.value);
      openapiSchema := Some(schema);
      return Success(schema);
    }
  }

  /**
    Two calls of the wrapped `openapi` as written: after a success the second
    call serves the same schema from the cache, but after a repeated operation
    ID the second call answers with the un-annotated generated schema.
   */
  method OpenapiTwice(app: App, a: Attachments) returns (first: Result<Schema, SchemaError>, second: Result<Schema, SchemaError>)
    requires ValidAttachments(a)
    modifies app
    ensures first.Success? ==> second == first
    ensures first.Failure? ==> old(app.openapiSchema).None? && second == Success(app.generated)
  {
    first := app.Openapi(a);
    second := app.Openapi(a);
  }

  /** Two calls of the intended wrapper give the same answer, a failure included. */
  method OpenapiIntendedTwice(app: App, a: Attachments) returns (first: Result<Schema, SchemaError>, second: Result<Schema, SchemaError>)
    requires ValidAttachments(a)
    modifies app
    ensures first == second
  {
    ghost var ps := Contributions(app.routes, a);
    ghost var cached := old(app.openapiSchema);
    first := app.OpenapiIntended(a);
    second := app.OpenapiIntended(a);
    if cached.None? {
      if first.Success? {
        assert second == first;
      } else {
        assert first.Failure? && second.Failure?;
        FirstDuplicateUnique(ps, first.error.operationId, second.error.operationId);
      }
    }
  }

  /** A schema with one operation whose ID is "read". */
  function ReadSchema(): Schema {
    Schema(map["/items" := map["get" := map["operationId" := JString("read")]]], map[])
  }

  /**
    Two documented endpoints whose routes both get the operation ID "read": the
    first call reports the duplicate, the second returns the generated schema,
    whose "read" operation carries no `x-contracts`.
   */
  method DuplicateReportedOnce() returns (first: Result<Schema, SchemaError>, second: Result<Schema, SchemaError>)
    ensures first == Failure(DuplicateOperationId("read"))
    ensures second == Success(ReadSchema())
    ensures "/items" in second.value.paths && "get" in second.value.paths["/items"]
    ensures OperationIdOf(second.value.paths["/items"]["get"]) == Some("read")
    ensures "x-contracts" !in second.value.paths["/items"]["get"]
  {
    var a := Attachments(map[Endpoint(0) := 0, Endpoint(1) := 0], [NewContracts()]);
    var routes := [Route(true, true, Endpoint(0), ["read"]), Route(true, true, Endpoint(1), ["read"])];
    var app := new App(routes, ReadSchema());
    ghost var ps := Contributions(routes, a);
    assert ps == [("read", NewContracts()), ("read", NewContracts())] by {
      var one := RoutePairs(routes[0], a);
      assert one == [("read", NewContracts())];
      assert RoutePairs(routes[1], a) == one;
      assert routes[..1] == [routes[0]] && routes[..1][..0] == [];
      assert Contributions(routes[..1], a) == one;
      assert ps == Contributions(routes[..1], a) + RoutePairs(routes[1], a);
    }
    first := app.Openapi(a);
    assert !DistinctIds(ps) by { assert ps[0].0 == ps[1].0; }
    assert first.error.operationId == "read" by {
      var j :| 0 <= j < |ps| && ps[j].0 == first.error.operationId && DistinctBefore(ps, j) && exists i :: 0 <= i < j && ps[i].0 == first.error.operationId;
    }
    second := app.Openapi(a);
  }

  /** There is at most one first repeated operation ID. */
  lemma FirstDuplicateUnique(ps: seq<(string, Contracts)>, id1: string, id2: string)
    requires FirstDuplicate(ps, id1) && FirstDuplicate(ps, id2)
    ensures id1 == id2
  {
    var j1 :| 0 <= j1 < |ps| && ps[j1].0 == id1 && DistinctBefore(ps, j1) && exists i :: 0 <= i < j1 && ps[i].0 == id1;
    var j2 :| 0 <= j2 < |ps| && ps[j2].0 == id2 && DistinctBefore(ps, j2) && exists i :: 0 <= i < j2 && ps[i].0 == id2;
    var i1 :| 0 <= i1 < j1 && ps[i1].0 == id1;
    var i2 :| 0 <= i2 < j2 && ps[i2].0 == id2;
    var first1, repeat1, first2, repeat2 := ps[i1].0, ps[j1].0, ps[i2].0, ps[j2].0;
    assert j1 < j2 ==> first1 != repeat1;
    assert j2 < j1 ==> first2 != repeat2;
    assert j1 == j2;
  }
}
