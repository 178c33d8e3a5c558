# fastapi-icontract in Dafny

fastapi-icontract puts design-by-contract on FastAPI endpoints.
It has three decorators:

- `require` adds a pre-condition.
- `ensure` adds a post-condition.
- `snapshot` captures a value of the arguments before the call, for post-conditions to read as `OLD`.

A violated condition raises an HTTP exception. By default it has status code 422 for a pre-condition and 500 for a post-condition. Its detail is "Pre-condition violated: " or "Post-condition violated: " followed by the description, when there is one.

Each decorator also documents itself. It appends a descriptor to a record attached to the endpoint function. `wrap_openapi_with_contracts` merges those records into the OpenAPI schema under `x-contracts`, one per operation, and caches the result.

This model is split into these modules:

- `Callables` (callables.dfy) holds the values, arguments and callables.
  - A Python callable is a `Func`: its `__name__`, its source text, and its behaviour as a Dafny function.
  - The behaviour returns an `Outcome`, which can also be an exception.
  - A function object is a `Handler`: either an endpoint, or the i-th checker icontract created.
- `Checkers` (checkers.dfy) models the icontract checker that wraps an endpoint.
  - Snapshots and post-conditions are kept in the order they were applied. icontract inserts each new pre-condition at the front, so the pre-condition written outermost is evaluated first. That is the reverse of the order in which the record documents them.
  - One request runs as follows: the pre-conditions on the arguments; then, when the checker has post-conditions, the captures on the same arguments that build the `OLD` bag; then the endpoint; then the post-conditions on what the endpoint left, its result and the bag. The first failure is reported.
- `Openapi` (openapi.dfy) holds:
  - the records `Contract`, `Snapshot` and `Contracts` (named `ContractDoc`, `SnapshotDoc` and `Contracts`);
  - the attribute that holds a record, as an identity-keyed side table: `Attachments`. Two function objects can share one record;
  - the JSON serialisers, and readers that invert them;
  - the schema wrapper, as class `App` with the cached `openapiSchema`.
- `Decorators` (decorators.dfy) holds the decorator objects, which are never mutated after construction, so they are datatype values.
  - Each decorator's `__call__` is a step function on `Tables`, the checkers plus the attachments.
  - It also has lemmas about a whole stack of decorators on one endpoint, and about what a request to it answers.
- `Registry` (registry.dfy) is the same state as a class whose methods update it in place, step by step as each `__call__` does. Each method is specified by the step function of `Decorators`.
- `Scenarios` (scenarios.dfy) holds the endpoints of the repository's test tables for pre-conditions, post-conditions and snapshots, and the answer the model gives for each. It adds one stack that no test has: two failing pre-conditions on one endpoint, to show which one answers.

Details the model takes from the code:

- A description counts only when it is truthy. An empty string gives no detail, and no `description` key in the JSON.
- `snapshot` raises `ValueError` only when it is enabled. A disabled snapshot is accepted on a function without a checker.
- `functools.update_wrapper` copies the endpoint's attributes onto a new checker. So a record attached before the checker existed is shared by the checker (`WithChecker`).
- FastAPI's own `openapi()` caches the schema it builds in `openapi_schema` before the wrapper merges the records. So a repeated operation ID leaves the un-annotated schema cached (see "## Findings").

## Model

| member | source | states |
|---|---|---|
| `Openapi.NewContracts` | fastapi_icontract/openapi.py:37-41 | a fresh record has three empty lists |
| `Openapi.GetOrAttach` | fastapi_icontract/openapi.py:44-53 | the function carries a record afterwards; it is its old record when it had one, and then nothing changes; otherwise a fresh empty record is attached; no other attachment or record changes |
| `Openapi.GetOrAttachIdempotent` | fastapi_icontract/openapi.py:44-53 | a second call returns the same record and changes nothing |
| `Openapi.ContractToJson` | fastapi_icontract/openapi.py:56-67 | keys are enforced, text, language, statusCode, plus description exactly when the description is truthy; language is "python3" |
| `Openapi.ContractRoundTrip` | fastapi_icontract/openapi.py:56-67 | reading the JSON back gives the flag, text, status code and the description when truthy |
| `Openapi.SnapshotToJson` | fastapi_icontract/openapi.py:70-79 | keys are name, enabled, text, language; language is "python3" |
| `Openapi.SnapshotRoundTrip` | fastapi_icontract/openapi.py:70-79 | reading the JSON back gives the snapshot descriptor exactly |
| `Openapi.ContractsToJson` | fastapi_icontract/openapi.py:82-94 | keys are preconditions, snapshots, postconditions; each is an array as long as its list |
| `Openapi.ContractsArray` | fastapi_icontract/openapi.py:85-87 | the i-th element is the i-th condition serialised |
| `Openapi.SnapshotsArray` | fastapi_icontract/openapi.py:88-90 | the i-th element is the i-th snapshot serialised |
| `Openapi.ContractsArrayRoundTrip` | fastapi_icontract/openapi.py:85-87 | the array reads back as the list, in order, with empty descriptions dropped |
| `Openapi.SnapshotsArrayRoundTrip` | fastapi_icontract/openapi.py:88-90 | the array reads back as the list, in order |
| `Openapi.ContractsRoundTrip` | fastapi_icontract/openapi.py:82-94 | the record reads back with every list's length and order |
| `Openapi.Pairs` | fastapi_icontract/openapi.py:127-139 | each operation ID of a route is paired with the route endpoint's record, in order |
| `Openapi.OperationMapLookup` | fastapi_icontract/openapi.py:139 | with distinct IDs, the map holds exactly the IDs, each with its own record |
| `Openapi.OperationMapSnoc` | fastapi_icontract/openapi.py:136-139 | adding an unmapped ID keeps the IDs distinct and extends the map by that one entry |
| `Openapi.DistinctSnoc` | fastapi_icontract/openapi.py:136-139 | an unmapped ID keeps the IDs distinct |
| `Openapi.OperationMapSnocKeys` | fastapi_icontract/openapi.py:139 | the map gains exactly the new ID |
| `Openapi.ContributionsPrefix` | fastapi_icontract/openapi.py:113-139 | the pairs of the first k routes are a prefix of the pairs of all routes |
| `Openapi.ContributionsStep` | fastapi_icontract/openapi.py:113-123 | route i adds its pairs after those of the earlier routes; a skipped route adds none |
| `Openapi.PrefixOfPart` | fastapi_icontract/openapi.py:127-139 | the pairs seen up to one inside route i are a prefix of those up to route i's end |
| `Openapi.DuplicateFound` | fastapi_icontract/openapi.py:136-138 | an ID met again behind distinct pairs is the first repeat, and the IDs are not distinct |
| `Openapi.DuplicateInRoute` | fastapi_icontract/openapi.py:127-139 | an already-mapped ID inside route i is the first repeat of all routes' pairs |
| `Openapi.FirstDuplicateUnique` | fastapi_icontract/openapi.py:136-138 | there is one first repeated ID at most |
| `Openapi.CollectOperationContracts` | fastapi_icontract/openapi.py:111-139 | succeeds iff the operation IDs of documented API routes in the schema are distinct; then maps each to its endpoint's record; otherwise names the first repeated ID |
| `Openapi.AddOperations` | fastapi_icontract/openapi.py:127-139 | succeeds iff the route's IDs keep all IDs distinct, and then maps them too; otherwise stops at the first ID already mapped |
| `Openapi.AnnotateOperation` | fastapi_icontract/openapi.py:144-147 | an operation whose ID is mapped gains `x-contracts`, the JSON of its record, and keeps every other key; any other operation is unchanged |
| `Openapi.AnnotateSchema` | fastapi_icontract/openapi.py:141-147 | every operation of every path is annotated and nothing else in the schema changes |
| `Openapi.App.constructor` | fastapi_icontract/openapi.py:97-99 | the application starts with no cached schema |
| `Openapi.App.WrapOpenapiWithContracts` | fastapi_icontract/openapi.py:101-102 | the cached schema is dropped |
| `Openapi.App.Openapi` | fastapi_icontract/openapi.py:104-152 | as written: a cached schema is returned unchanged; otherwise the generated schema is cached first, then annotated and cached again, or a repeated ID fails and leaves the un-annotated schema cached |
| `Openapi.OpenapiTwice` | fastapi_icontract/openapi.py:104-152 | as written: after a success the second call gives the same schema; after a repeated ID the second call succeeds with the un-annotated generated schema |
| `Openapi.DuplicateReportedOnce` | fastapi_icontract/openapi.py:104-138 | two documented routes with the operation ID "read", and a schema with one operation "read": the first call fails naming "read", the second returns the generated schema, whose "read" operation has no `x-contracts` |
| `Openapi.App.OpenapiIntended` | fastapi_icontract/openapi.py:104-152 | as intended: like `Openapi`, but a repeated ID leaves nothing cached |
| `Openapi.OpenapiIntendedTwice` | fastapi_icontract/openapi.py:104-152 | with the intended wrapper, two calls give the same answer, a failure included |
| `Openapi.Attached` | fastapi_icontract/openapi.py:120 | a function has a record iff it carries the attribute; the record is the attached one |
| `Openapi.RoutePairs` | fastapi_icontract/openapi.py:113-139 | a route contributes only when it is an API route in the schema with a record; it then pairs each of its operation IDs, in order, with that record |
| `Openapi.Contributions` | fastapi_icontract/openapi.py:113-139 | every record merged into the map is one attached to some function |
| `Openapi.OperationIdOf` | fastapi_icontract/openapi.py:144 | an operation has an ID exactly when its `operationId` is a string, and the ID is that string |
| `Checkers.Check` | fastapi_icontract/_decorators.py:136-138 | a violated chain reports the error of one of its conditions that returned false; a faulted chain has a condition that raised |
| `Checkers.CaptureOld` | fastapi_icontract/_decorators.py:160-167 | the OLD bag, built by running each capture on the incoming arguments, in order (its contents are stated by `CaptureOldContents`) |
| `Checkers.Invoke` | fastapi_icontract/_decorators.py:125-138 | a request through the checker returns only the endpoint's own result; a violation carries the error of one of its pre- or post-conditions |
| `Checkers.InvokeWithoutPostconditions` | fastapi_icontract/_decorators.py:232-248 | on a checker without post-conditions no capture runs: the request is the pre-condition check followed by the endpoint |
| `Checkers.Direct` | fastapi_icontract/_decorators.py:125-126 | an endpoint without a checker answers with its own result, or its exception, and never with a violation |
| `Checkers.CheckPassed` | tests/test_precondition.py:13-29 | a chain passes iff each of its conditions returns true |
| `Checkers.CheckFirstFailure` | tests/test_precondition.py:42-58 | a failing chain reports the error of its first condition that returns false, or a fault if that condition raises |
| `Checkers.CheckAppend` | fastapi_icontract/_decorators.py:136-138 | a condition added behind a chain that fails is never evaluated |
| `Checkers.CaptureOldContents` | fastapi_icontract/_decorators.py:160-167 | the OLD bag is built iff no capture raises; it then binds exactly the snapshot names, each to its capture's value on the arguments |
| `Checkers.CaptureOldDefined` | fastapi_icontract/_decorators.py:160-167 | the bag is built iff no capture raises |
| `Checkers.CaptureOldBag` | fastapi_icontract/_decorators.py:160-167 | a built bag binds exactly the names, each to its captured value |
| `Checkers.CaptureOldKeys` | fastapi_icontract/_decorators.py:188 | the bag's keys are the snapshot names |
| `Checkers.CaptureOldValues` | fastapi_icontract/_decorators.py:180-188 | each name is bound to its capture's value, given distinct names |
| `Checkers.CaptureOldSnoc` | fastapi_icontract/_decorators.py:180-188 | the last capture extends the bag of the others |
| `Checkers.InvokeOk` | tests/test_snapshot.py:12-23 | a request succeeds iff the pre-conditions hold, the captures (when there are post-conditions) run on the pre-call arguments, the endpoint returns and the post-conditions hold on its state, result and bag; the result is then the endpoint's |
| `Checkers.InvokePreconditionViolated` | tests/test_precondition.py:54-72 | the first pre-condition that returns false ends the request with its error |
| `Checkers.InvokePostconditionViolated` | tests/test_postcondition.py:53-72 | after a successful call, the first post-condition that returns false ends the request with its error |
| `Decorators.ViolationError` | fastapi_icontract/_decorators.py:107-114 | the error has the status code, and a detail iff the description is truthy, namely prefix plus description |
| `Decorators.ViolationDetailRoundTrip` | fastapi_icontract/_decorators.py:109-113 | the description can be read back from the detail exactly when it is truthy |
| `Callables.IsLambda` | fastapi_icontract/_decorators.py:19 | a function is a lambda exactly when its `__name__` is `<lambda>` |
| `Decorators.FuncBodyAsText` | fastapi_icontract/_decorators.py:17-37 | a named function is documented by its name, a lambda by the text of its body |
| `Decorators.NewRequire` | fastapi_icontract/_decorators.py:44-116 | keeps the arguments; a runtime contract exists iff enforced, with the pre-condition error |
| `Decorators.NewSnapshot` | fastapi_icontract/_decorators.py:170-216 | keeps the arguments; a runtime snapshot exists iff enabled |
| `Decorators.NewEnsure` | fastapi_icontract/_decorators.py:267-339 | keeps the arguments; a runtime contract exists iff enforced, with the post-condition error |
| `Decorators.DefaultPreconditionError` | fastapi_icontract/_decorators.py:44-51 | by default the constructor builds the exception HttpError(422, None) for a violated pre-condition |
| `Decorators.DefaultPostconditionError` | fastapi_icontract/_decorators.py:267-274 | by default the constructor builds the exception HttpError(500, None) for a violated post-condition |
| `Decorators.FindChecker` | fastapi_icontract/_decorators.py:130 | a function is found as a checker iff it is one |
| `Decorators.WithChecker` | fastapi_icontract/_decorators.py:131-132 | exactly one empty checker is added around the endpoint; it shares the endpoint's record if there is one; nothing else changes |
| `Decorators.AddPrecondition` | fastapi_icontract/_decorators.py:136-138 | the contract goes to the front of that checker's pre-conditions; no other chain, checker or record changes |
| `Decorators.AddSnapshot` | fastapi_icontract/_decorators.py:246-248 | the snapshot goes to the end of that checker's snapshots; nothing else changes |
| `Decorators.AddPostcondition` | fastapi_icontract/_decorators.py:362-364 | the contract goes to the end of that checker's post-conditions; nothing else changes |
| `Decorators.AppendEntry` | fastapi_icontract/_decorators.py:144-151 | a descriptor with the decorator's flag, body text, status code and description (name, flag and text for a snapshot) goes to the end of the matching list; the other lists stay |
| `Decorators.Serve` | fastapi_icontract/_decorators.py:153 | the function FastAPI is given answers through its checker when it is one, and as the bare endpoint otherwise |
| `Decorators.Document` | fastapi_icontract/_decorators.py:140-151 | exactly one descriptor is appended to the function's record, attached fresh if needed; no other record changes; checkers unchanged |
| `Decorators.Enforce` | fastapi_icontract/_decorators.py:125-138 | unenforced: nothing changes; enforced: the function's checker is reused, or one is created, and the contract goes to the front of its pre-chain or the end of its post-chain; no existing record binding changes and only the returned function can gain one |
| `Decorators.CallContract` | fastapi_icontract/_decorators.py:118-153 | disabled changes no checker; a checker is reused or created; exactly one contract is added, a pre-condition at the front and a post-condition at the end; documented appends exactly one descriptor with the flag, status code and description to the returned function's record; undocumented changes no record; a returned new checker carries the endpoint's record, if it had one; no other function's record binding changes |
| `Decorators.CallSnapshot` | fastapi_icontract/_decorators.py:218-260 | fails with the ValueError iff enabled on a function without a checker; returns the function; enabled appends to its snapshot chain, disabled changes no checker; documented as above, undocumented changes nothing; no other function's record binding changes |
| `Decorators.Apply` | fastapi_icontract/_decorators.py:118-379 | applying any decorator keeps the state valid |
| `Decorators.AllWellFormedPrefix` | fastapi_icontract/_decorators.py:44-116 | a prefix of a stack of constructed decorators is constructed too |
| `Decorators.DecorateStack` | fastapi_icontract/_decorators.py:118-379 | applying a stack keeps the state valid |
| `Decorators.StackPredicatesStep` | fastapi_icontract/_decorators.py:118-379 | enforcement, documentation and snapshot placement, one decorator at a time |
| `Decorators.DecorateStackShape` | fastapi_icontract/_decorators.py:118-379 | a stack on a fresh endpoint is accepted iff every enabled snapshot comes after an enforced contract; it then yields one checker iff a contract is enforced, holding the enabled snapshots and enforced post-conditions in decoration order and the enforced pre-conditions in reverse (outermost first); and one record listing the documented decorators in decoration order iff one is documented; only the endpoint and the result gain a record binding |
| `Decorators.StackFiltersStep` | fastapi_icontract/_decorators.py:136-151 | each decorator puts a pre-condition in front of the pre-chain, a snapshot or post-condition at the end of its chain, and a descriptor at the end of the record |
| `Decorators.ApplyContractShape` | fastapi_icontract/_decorators.py:118-153 | a contract extends the shape of the stack |
| `Decorators.ApplyContractChecker` | fastapi_icontract/_decorators.py:125-138 | the checker part of that step |
| `Decorators.ApplyContractRecord` | fastapi_icontract/_decorators.py:140-151 | the record part of that step |
| `Decorators.ApplySnapshotShape` | fastapi_icontract/_decorators.py:218-260 | an accepted snapshot extends the shape of the stack |
| `Decorators.NoEnforcedNoChains` | fastapi_icontract/_decorators.py:125-126 | without an enforced contract, no checker chain gets anything |
| `Decorators.NoDocumentedEmptyRecord` | fastapi_icontract/_decorators.py:140 | without a documented decorator, the record is empty |
| `Decorators.DisabledKeepsBehaviour` | tests/test_precondition.py:32-39 | a contract or snapshot that is switched off changes no request's answer, even if it would raise |
| `Decorators.DecoratedEndpointServes` | fastapi_icontract/_decorators.py:118-379 | a request to a decorated endpoint runs through one checker with the stack's chains, or straight to the endpoint when nothing is enforced |
| `Registry.Store.DecorateWithChecker` | fastapi_icontract/_decorators.py:131-132 | adds the new checker in place, as `WithChecker` says |
| `Registry.Store.AddPreconditionToChecker` | fastapi_icontract/_decorators.py:136-138 | inserts at the front of the pre-condition chain in place, as `AddPrecondition` says |
| `Registry.Store.AddSnapshotToChecker` | fastapi_icontract/_decorators.py:246-248 | appends to the snapshot chain in place |
| `Registry.Store.AddPostconditionToChecker` | fastapi_icontract/_decorators.py:362-364 | appends to the post-condition chain in place |
| `Registry.Store.GetOrAttach` | fastapi_icontract/openapi.py:44-53 | updates the attachments in place, as `Openapi.GetOrAttach` says |
| `Registry.Store.DocumentOn` | fastapi_icontract/_decorators.py:140-151 | appends the descriptor in place, as `Document` says |
| `Registry.Store.FindOrDecorate` | fastapi_icontract/_decorators.py:130-132 | the found checker, or a new one |
| `Registry.Store.CallRequire` | fastapi_icontract/_decorators.py:118-153 | `require.__call__` in place, with the new state and result as `CallContract` says |
| `Registry.Store.CallSnapshot` | fastapi_icontract/_decorators.py:218-260 | `snapshot.__call__` in place, as `CallSnapshot` says; the ValueError leaves the state unchanged |
| `Registry.Store.CallEnsure` | fastapi_icontract/_decorators.py:341-379 | `ensure.__call__` in place, as `CallContract` says |
| `Scenarios.OneContract` | fastapi_icontract/_decorators.py:118-138 | one enforced contract on a fresh endpoint puts the endpoint behind a checker holding just that contract |
| `Scenarios.PassingPrecondition` | tests/test_precondition.py:13-16 | a pre-condition that holds lets the endpoint answer |
| `Scenarios.PassingPreconditionWithStatusCode` | tests/test_precondition.py:19-22 | a pre-condition that holds, with status code 404, lets the endpoint answer |
| `Scenarios.PassingPreconditionWithDescription` | tests/test_precondition.py:25-29 | a pre-condition that holds, with 404 and a description, lets the endpoint answer |
| `Scenarios.FailingPreconditionDefaults` | tests/test_precondition.py:42-45 | a failing pre-condition with no arguments raises HttpError(422, None), the exception the constructor builds |
| `Scenarios.FailingPreconditionWithStatusCode` | tests/test_precondition.py:48-51 | a failing pre-condition with status code 404 raises HttpError(404, None), the exception the constructor builds |
| `Scenarios.FailingPreconditionWithDescription` | tests/test_precondition.py:54-58 | 404 with the detail "Pre-condition violated: Something." |
| `Scenarios.PassingPostconditionDefaults` | tests/test_postcondition.py:12-15 | a post-condition that holds lets the endpoint's result through |
| `Scenarios.PassingPostconditionWithStatusCode` | tests/test_postcondition.py:18-21 | a post-condition that holds, with status code 503, lets the result through |
| `Scenarios.PassingPostconditionWithDescription` | tests/test_postcondition.py:24-28 | a post-condition that holds, with 503 and a description, lets the result through |
| `Scenarios.FailingPostconditionDefaults` | tests/test_postcondition.py:41-44 | a failing post-condition raises HttpError(500, None), the exception the constructor builds |
| `Scenarios.FailingPostconditionWithStatusCode` | tests/test_postcondition.py:47-50 | a failing post-condition with status code 503 raises HttpError(503, None), the exception the constructor builds |
| `Scenarios.FailingPostconditionWithDescription` | tests/test_postcondition.py:53-57 | 503 with the detail "Post-condition violated: Something." |
| `Scenarios.UnenforcedPostcondition` | tests/test_postcondition.py:35-38 | an unenforced post-condition that would raise is never evaluated |
| `Scenarios.SnapshotStackAccepted` | tests/test_snapshot.py:19-21 | the snapshot written above the post-condition is accepted |
| `Scenarios.SnapshotStackChains` | tests/test_snapshot.py:19-21 | the checker holds the capture and the post-condition |
| `Scenarios.SnapshotStackChecker` | tests/test_snapshot.py:19-23 | the endpoint runs behind that one checker |
| `Scenarios.SnapshotPasses` | tests/test_snapshot.py:19-23 | returning the length of [1, 2, 3] passes, with result 3 |
| `Scenarios.SnapshotFails` | tests/test_snapshot.py:33-37 | returning one too many violates the post-condition, 500 |
| `Scenarios.CopyStackAccepted` | tests/test_snapshot.py:12-14 | the snapshot named "lst" on the copied list, above the post-condition on its length, is accepted |
| `Scenarios.CopyStackChains` | tests/test_snapshot.py:12-14 | the checker holds the copying capture and the post-condition |
| `Scenarios.CopyStackChecker` | tests/test_snapshot.py:12-16 | the endpoint runs behind that one checker |
| `Scenarios.CopySnapshotPasses` | tests/test_snapshot.py:12-16 | returning the length of [1, 2, 3] passes `len(OLD.lst) == result`, with result 3 |
| `Scenarios.CopySnapshotFails` | tests/test_snapshot.py:26-30 | returning one too many violates it, 500 |
| `Scenarios.SnapshotWithoutCheckerScenario` | fastapi_icontract/_decorators.py:232-238 | a snapshot on an endpoint without a checker is refused with the ValueError |
| `Scenarios.SnapshotDocumentation` | tests/test_snapshot.py:19-21 | the endpoint documents one snapshot and one post-condition with the texts of their lambda bodies and status 500 |
| `Scenarios.TwoPreconditionsChain` | fastapi_icontract/_decorators.py:136-151 | two pre-conditions, 404 inside and 403 outside: the checker evaluates 403 first, the record lists 404 first |
| `Scenarios.OutermostPreconditionAnswers` | fastapi_icontract/_decorators.py:136-138 | when both fail, the request answers with the outer pre-condition's 403 |
| `Scenarios.SnapshotNotEnforced` | tests/test_snapshot.py:44-49 | a disabled snapshot above an unenforced post-condition is accepted and neither raising function runs |

## Left out

- Lambda source extraction: `_func_body_as_text` finds a lambda's text with `inspect` and icontract's decorator inspection. The model takes that text as the `source` field of a `Func`, and a lambda is recognised by the name `<lambda>`.
- The `location` string built from the traceback in the constructors is not modelled. It only affects icontract's error messages.
- Coroutines: an async condition or capture is awaited before its value is used. The model treats every callable as synchronous.
- icontract's own checker code is not part of this model. Assumptions made about it:
  - a new pre-condition goes to the front of the chain, snapshots and post-conditions to the end; icontract's groups of pre-conditions (disjunctive normal form, used with inheritance) are not modelled, a decorated endpoint has one group;
  - captures run only when the checker has post-conditions;
  - its check for duplicate snapshot names is not modelled;
  - `find_checker` is modelled for the function objects that occur here: an endpoint, or a checker.
- Python `assert` statements are treated as always enabled. A repeated operation ID is the `SchemaError` result, not an `AssertionError`. The asserts that a contract or snapshot exists when enforced hold by construction (`WellFormed`).
- `generate_operation_id` is FastAPI's. Each route carries the IDs it yields for its methods, as a sequence. In FastAPI `route.methods` is a set, so the real order is the set's iteration order; it also decides which repeated ID is reported first. The model fixes one order per route. The check that an ID is not None is left out, since a string is never None.
- FastAPI's own `openapi()` is a given schema (`App.generated`). Its caching is modelled: the schema is stored in `openapiSchema` before the wrapper goes on.
- An operation whose `operationId` is not a string is treated as having no ID.
- Dictionary key order in the schema and in the JSON is not modelled. Maps are unordered.
- The schema is updated on values: `AnnotateSchema` returns the new schema, while Python assigns `x-contracts` inside the cached dictionary.
- Values are immutable. A capture that returns a mutable argument itself, rather than a copy, would see the endpoint's in-place changes in Python. In the model `OLD` always holds the value from before the call.
- `Decorators.DefaultPreconditionError`: a `None` detail stays `None` in the model. Starlette's `HTTPException` replaces it with the status code's standard phrase ("Unprocessable Entity", "Not Found", "Internal Server Error"), which is what the tests expect. The same substitution makes the constructor of an enforced `require` or `ensure` raise `ValueError` for a status code with no standard phrase (such as 299) and no description, while `NewRequire` and `NewEnsure` always succeed. Starlette is not part of this model.
- `Decorators.DefaultPostconditionError`: the detail stays `None` as well, for the reason given under `Decorators.DefaultPreconditionError`.
- `Scenarios.FailingPreconditionDefaults`: the detail stays `None` as well, for the reason given under `Decorators.DefaultPreconditionError`.
- `Scenarios.FailingPreconditionWithStatusCode`: the detail stays `None` as well, for the reason given under `Decorators.DefaultPreconditionError`.
- `Scenarios.FailingPostconditionDefaults`: the detail stays `None` as well, for the reason given under `Decorators.DefaultPreconditionError`.
- `Scenarios.FailingPostconditionWithStatusCode`: the detail stays `None` as well, for the reason given under `Decorators.DefaultPreconditionError`.
- swagger_ui.py, `_globals.py` and the package `__init__.py` are not part of this model.

## Findings

| source | as written | input that shows it | evidently intended | confidence | as-written member | corrected member |
|---|---|---|---|---|---|---|
| fastapi_icontract/openapi.py:109-138 | FastAPI's `openapi()` caches the generated schema before the assert on repeated operation IDs runs, so after the `AssertionError` the next call returns that cached schema without any `x-contracts` | two documented routes whose operation ID is "read": the first call fails, the second succeeds without contracts | a failed merge caches nothing, so every call reports the repeated ID | medium, not executed | `Openapi.DuplicateReportedOnce` | `Openapi.App.OpenapiIntended` |
