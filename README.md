# Persisted sequential request queue

This is a model of the client-side queue for API write requests. Every write is
pushed onto a persisted list of waiting requests, which is sent strictly head first.
At most one request is in flight at a time. Before a request is stored, its optional
conflict resolver (`checkAndFixConflictingRequest`) looks at the waiting requests and
answers with one of three actions:

- `push`: append the new request;
- `replace(index)`: overwrite the waiting request at `index`;
- `noAction`: drop the new request.

The request in flight sits in a separate slot. Resolvers never see it, so a new
request can never replace it.

The behaviour is stated through the queue's unit test (`tests/unit/SequentialQueueTest.ts`).
Its implementation modules (`PersistedRequests`, `Network/SequentialQueue`,
`types/onyx/Request`) are not part of this model. The model is built from what the test defines and
asserts. The test asserts only lengths; the ensures about stored contents and the
lemmas over all inputs generalise those length assertions.

Files:

- `request.dfy` (module `OnyxRequest`): the `Request` record, `ConflictAction` and
  `ConflictActionData`, and the resolvers a request can carry.
- `conflict_resolution.dfy` (module `ConflictResolution`): these are pure functions.
  `FindIndex` is JavaScript's `findIndex`. The file also holds the ReconnectApp
  resolver, resolver dispatch and the effect of each action on the waiting list,
  plus lemmas about sequences of pushes.
- `sequential_queue.dfy` (module `Network`): class `SequentialQueue`. Its fields are
  the waiting list (`persistedRequests`) and the in-flight slot (`ongoingRequest`).
  `Push` and `StartProcessing` update them, and `GetLength` reads them.
- `sequential_queue_test.dfy` (module `SequentialQueueScenarios`): one method per
  test case. Each method runs the test's pushes on a fresh queue and states the
  resulting length and contents.

A resolver is a callback over the list of waiting requests. A callback over
`Request`s cannot be a field of `Request` in Dafny. So each resolver the test writes
is a variant of `ConflictResolver`, and `ConflictResolution.Resolve` gives its
meaning. The rest of the queue (`ApplyAction`, `Push`) works for any action.

`GetLength` counts the waiting requests plus the one in flight. The test requires
this: it expects 2 at lines 109 and 146, where one request is in flight. Counting only the waiting list
would give 1 there, not 2.

## Model

| member | source | states |
|---|---|---|
| ConflictResolution.FindIndex | tests/unit/SequentialQueueTest.ts:121 | The result is -1 exactly when no element matches. Otherwise it is an in-range index whose element matches and before which no element matches. |
| ConflictResolution.ReconnectAppResolver | tests/unit/SequentialQueueTest.ts:119-129 | It answers only push or replace. It answers push exactly when no waiting request is a ReconnectApp. Otherwise it answers replace at the first waiting ReconnectApp, which is always in range. |
| ConflictResolution.Resolve | tests/unit/SequentialQueueTest.ts:64-79 | Every modelled resolver answers with an index that names a waiting request. The ReconnectApp resolver gives its own answer, the always-push resolver answers push and the noAction resolver answers noAction. |
| ConflictResolution.ApplyAction | tests/unit/SequentialQueueTest.ts:38-83 | Push grows the list by one, with the new request at the tail. Replace and noAction keep the length, and replace puts the new request at its index. Every other waiting request keeps its position. |
| ConflictResolution.PushEachAppends | tests/unit/SequentialQueueTest.ts:27-36 | Pushes without a resolver, or with one that always pushes, keep every request in push order, so n pushes add exactly n. |
| ConflictResolution.ReconnectAppCollapses | tests/unit/SequentialQueueTest.ts:43-53 | A push with the ReconnectApp resolver adds a ReconnectApp only when none is waiting. Otherwise the ReconnectApp count is unchanged, so at most one stays waiting. |
| ConflictResolution.ReconnectAppStaysSingle | tests/unit/SequentialQueueTest.ts:112-147 | Start from at most one waiting ReconnectApp. After any non-empty run of ReconnectApp pushes with that resolver, exactly one is waiting. |
| Network.SequentialQueue.AllRequests | tests/unit/SequentialQueueTest.ts:85-110 | Lists the unfinished requests in sending order: the in-flight request first, then the waiting ones. |
| Network.SequentialQueue.constructor | tests/unit/SequentialQueueTest.ts:22-25 | After storage is cleared, the queue is empty, with length 0. |
| Network.SequentialQueue.Push | tests/unit/SequentialQueueTest.ts:38-57 | The waiting list becomes the resolver's decision, made on the waiting list alone and then applied. The in-flight slot is untouched. The length grows by one exactly when the decision is push. |
| Network.SequentialQueue.StartProcessing | tests/unit/SequentialQueueTest.ts:86-90 | If nothing is in flight, the head of the waiting list moves into the in-flight slot. Otherwise nothing changes. Sending order and length are kept. |
| Network.SequentialQueue.GetLength | tests/unit/SequentialQueueTest.ts:109 | The length is the number of unfinished requests: the waiting ones plus the one in flight. |
| SequentialQueueScenarios.PushOneRequestPersistsOne | tests/unit/SequentialQueueTest.ts:27-30 | One push persists one request. |
| SequentialQueueScenarios.PushTwoRequestsPersistsTwo | tests/unit/SequentialQueueTest.ts:32-36 | Two pushes without a resolver persist both requests. |
| SequentialQueueScenarios.PushWithConflictResolutionReplaces | tests/unit/SequentialQueueTest.ts:38-57 | The second ReconnectApp replaces the first. The length is 1 and the stored request carries the new data. |
| SequentialQueueScenarios.PushWithConflictResolutionPushes | tests/unit/SequentialQueueTest.ts:59-70 | A resolver that always pushes appends, even beside a same-command request: length 2. |
| SequentialQueueScenarios.PushWithConflictResolutionNoAction | tests/unit/SequentialQueueTest.ts:72-83 | A resolver that answers noAction leaves the first request alone in the list: length 1. |
| SequentialQueueScenarios.AddNewRequestWhileSimilarOngoing | tests/unit/SequentialQueueTest.ts:85-110 | The first ReconnectApp is in flight, so the resolver finds no match and appends. The in-flight request is untouched and the length is 2. |
| SequentialQueueScenarios.ReplaceRequestWhileSimilarOngoing | tests/unit/SequentialQueueTest.ts:112-147 | One ReconnectApp is in flight. The first resolver push is appended and the second replaces it. One request waits, one is in flight, and the length is 2. |

## Left out

- Network transport, the mocked `fetch`, and Onyx initialisation, clearing and storage writes. The model has no persistence layer: the in-memory list stands for the persisted one.
- Asynchrony. The microtask tick that starts processing is the explicit `StartProcessing` step.
- Completing a request. Removing the in-flight request after success or terminal failure, and applying `successData`/`failureData`, are not asserted by any test case here. The model keeps those updates as opaque values.
- Retry and backoff, failure classification, pause and resume: the test does not exercise them, and their implementation is not part of this model.
- Resolvers other than the three the test writes. Callbacks are modelled as the `ConflictResolver` variants, not as arbitrary functions.
- ConflictResolution.ApplyAction: a replace index outside the waiting list is a precondition, not an error path. What the implementation module does there is not part of this model, and every modelled resolver meets the precondition.
- `getAll`, `remove` and `save` of the persisted-request store: the test does not call them.
