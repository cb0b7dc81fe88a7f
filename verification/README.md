# Order fulfilment coordinator — a Dafny model of the checkpoint relay

This project models the order fulfilment coordinator of a food-ordering
service: the serverless handlers that start a fulfilment workflow for an
order, record the task token when the workflow suspends at a human step,
resume the workflow when staff complete that step, and apply status
transitions with an append-only history and a published event.

It is one sequential state machine over an abstract orders table.

- The table is a `map<string, Order>` (`Orders.Store`). Every attribute
  except `order_id` is an `Option`. `history` is a set of `HistoryEntry`.
- Each handler is a pure function. It takes the store, its already-parsed
  input, and injected values for "now" and for the workflow engine's reply.
  It returns an `Effects.Outcome`: the new store, an effect log and a reply.
- The effect log records, in order, every engine start, every task-success
  send, every published event and every store write (`StoreWrite(key, update)`).
  So "the engine call comes before the write" and "the event comes after the
  write" can be stated directly. Every handler proves that its new store is
  exactly the replay of the writes it logged (`Effects.Replay`).
- The two HTTP resolvers (assign cook, mark delivered) are one generic
  `Resolver.Resolve`, parameterised by a `CheckpointKind`. The kind holds
  the expected step, the answer texts, and whether the success body echoes
  the order id. `AssignCook` and `MarkDelivered` are its two instances.
- `Protocol` states the cross-handler properties. Recording and then
  resolving the same step sends exactly the recorded token and clears it. A
  second resolve is refused with 409. A resolve that fails at the engine
  can be retried. Status updates in between do not disturb a checkpoint.
  Any sequence of handler calls keeps the store consistent: items sit under
  their own key, and the three `pending_*` attributes are present together
  or not at all.

Facts about the code that the model keeps as written:

- Status values are the Spanish strings of the action table: `PENDIENTE`,
  `COCINANDO`, `EMPACANDO`, `EN_REPARTO` and `ENTREGADO`.
- `history` is a string set. Applying an action twice with the same
  timestamp adds the same string twice, and the set keeps one entry.
  `StatusUpdater.ApplyTwice` states both the equal and the distinct case.
- An action outside the table raises Python's `KeyError`, the same exception
  as a missing key. The model calls it `UnknownAction` only so that contracts
  can tell the two apart.
- A missing `order_id` raises `KeyError`, modelled as `MissingKey("order_id")`.
- No handler checks which status may follow which, so the model has no such check.

## Model

| member | source | states |
|---|---|---|
| `StatusUpdater.ActionTableDomain` | UpdateOrderStatusStep.py:14-20 | the action table is defined on exactly INIT, COOKING, PACKING, ON_DELIVERY and DELIVERED |
| `StatusUpdater.ActionTableInjective` | UpdateOrderStatusStep.py:14-20 | no two actions share a status or an event type |
| `StatusUpdater.ApplyTransition` | UpdateOrderStatusStep.py:36-92 | it fails iff `action`, `payload` or `order_id` is missing or the action is not in the table. Each failure raises the key the source reads first, with no write and no publish. On success, status becomes the mapped status and `updated_at` becomes now. History becomes old history ∪ {(action, status, now)}, creating the item if absent. No checkpoint or handle attribute changes, and no other order changes. The log is exactly one write followed by one event from "fulfillment.service" with the mapped type and the written status and timestamp. The result echoes the written values |
| `StatusUpdater.ApplyTwice` | UpdateOrderStatusStep.py:53-68 | applying an action twice leaves the status at its mapped value. History gains both entries, which collapse into one when the timestamps coincide. The same event type is published both times |
| `StatusUpdater.TransitionKeepsCheckpoints` | UpdateOrderStatusStep.py:53-68 | a status update leaves every order's pending checkpoint as it was |
| `Resolver.Resolve` | api/AssignCook.py:14-67 | the guard chain runs in order: 400 for a missing or empty staff field, 404 for an unknown order, 409 for a step mismatch (an absent step included), 409 for a missing or empty token. Each refusal leaves the store unchanged and makes no engine call. An engine call happens iff every guard passes, and it is exactly one task success with the stored token and {order_id, staff_id, staff_name, step, now}. Only if the engine accepts are exactly the three `pending_*` attributes removed and 200 returned. If it rejects, the store is unchanged and the engine error is raised |
| `Resolver.AssignCook` | api/AssignCook.py:14-67 | the cook instance: sends the stored token with step "ASSIGN_COOK", refuses any other pending step with 409, and on 200 echoes the order id and leaves no checkpoint |
| `Resolver.MarkDelivered` | api/MarkDelivered.py:12-53 | the delivery instance: sends the stored token with step "MARK_DELIVERED", refuses any other pending step with 409, and on 200 answers without an order id and leaves no checkpoint |
| `Launcher.StartFulfillment` | StartFulfillmentExecution.py:29-59 | a missing `order_id` raises before any start or write. Otherwise there is exactly one start call, named from the order id and seconds, with input {order_id, tenant_id, customer_id, total} (null when missing). If the engine rejects it, nothing is written. If it accepts, one following write upserts `step_function_arn` to the returned handle and changes nothing else, and the 200 answer carries that same handle |
| `Launcher.ExecutionName` | StartFulfillmentExecution.py:43 | the execution name starts with `order-`, carries the order id right after it, and is longer than the id plus the two fixed parts |
| `Launcher.ExecutionNameInjective` | StartFulfillmentExecution.py:43 | an execution name determines its order id and its second, so launches of one order in distinct seconds get distinct names |
| `Launcher.LaunchKeepsCheckpoints` | StartFulfillmentExecution.py:49-53 | a launch leaves every order's pending checkpoint as it was |
| `Decimal.NatToString` | StartFulfillmentExecution.py:43 | the seconds are written as one or more decimal digits with no leading zero |
| `Decimal.ParseNatToString` | StartFulfillmentExecution.py:43 | parsing the decimal text of a number gives the number back |
| `Recorder.RecordCheckpoint` | StoreTaskToken.py:26-48 | it fails iff `taskToken`, `step`, `order` or `order.order_id` is missing, in that order, with no write. Otherwise the token, step and now are stored as the pending checkpoint, replacing any previous one and creating the item if absent. No other attribute and no other order changes, there is no engine call, and the answer is {"OK", order_id, step} |
| `Recorder.LastRecordWins` | StoreTaskToken.py:33-39 | recording twice for one order leaves the store exactly as recording only the second time would |
| `Orders.Apply` | UpdateOrderStatusStep.py:53-68 | the meaning of each update expression on one item. The status update (also at this line range) SETs status and timestamp, ADDs the entry to history without losing any, and leaves the checkpoint and handle alone. The handle SET (StartFulfillmentExecution.py:49-53) changes only `step_function_arn`. The checkpoint SET (StoreTaskToken.py:33-45) writes all three `pending_*` attributes and nothing else. The REMOVE (api/AssignCook.py:59-62) clears exactly those three. No expression changes the key or the untouched attributes |
| `Orders.UpdateItem` | StoreTaskToken.py:33-45 | an update changes only the item at its key, creating it when absent, and keeps the store consistent |
| `Protocol.RecordThenResolve` | StoreTaskToken.py:33-45 | recording a non-empty token for a step, then resolving that step, sends exactly that token once and then removes the checkpoint. The rest of the order is as before, and an order that had no checkpoint returns to its exact prior state |
| `Protocol.RecordThenAssignCook` | api/AssignCook.py:45-62 | recording token t for "ASSIGN_COOK" and then a valid cook assignment sends exactly t once and leaves no pending checkpoint |
| `Protocol.CookCheckpointRejectsDelivery` | api/MarkDelivered.py:26-27 | a checkpoint recorded as "ASSIGN_COOK" is refused by the delivery resolver with 409, no engine call and the store unchanged |
| `Protocol.SecondResolveRefused` | api/AssignCook.py:29-33 | right after a successful resolve, another resolve for the order makes no engine call, leaves the store alone, and answers 409 when the staff fields are present |
| `Protocol.RetryAfterEngineFailure` | api/AssignCook.py:53-62 | when the engine rejects the send, the checkpoint survives, and a retry succeeds with the same token |
| `Protocol.EmptyTokenRefused` | api/AssignCook.py:35-40 | a checkpoint recorded with an empty token is always refused with the missing-token 409 |
| `Protocol.TransitionBetweenRecordAndResolve` | UpdateOrderStatusStep.py:53-68 | a status update between recording and resolving does not change the token the resolver sends |
| `Protocol.RunKeepsConsistent` | api/AssignCook.py:59-62 | every sequence of handler calls keeps each item under its own key and never leaves a partial checkpoint |
| `Protocol.RunHistoryGrows` | UpdateOrderStatusStep.py:55-58 | over every sequence of handler calls no order disappears and every order's history only gains entries, because history is only ever ADDed to |
| `Protocol.MissingTokenMeansEmptyToken` | api/AssignCook.py:35-40 | in a consistent store the missing-token refusal is reached only for a token stored as the empty string |
| `Protocol.AssignCookMissingTokenMeansEmptyToken` | api/AssignCook.py:35-40 | for the cook resolver, the "No pending task token for this order" refusal in a consistent store means the stored token is the empty string |
| `Protocol.MarkDeliveredMissingTokenMeansEmptyToken` | api/MarkDelivered.py:29-31 | for the delivery resolver, the "No pending task token" refusal in a consistent store means the stored token is the empty string |

## Left out

- AWS clients, environment variables (table name, state machine ARN, event bus name) and the wire calls. The store is a map, the engine's answer is an injected parameter, and calls are entries in the effect log.
- Failure of a store write and of the event publish. The source has no handling for either. The model's writes and publishes always succeed. So the launcher's "running execution with no recorded handle" window is not modelled. Neither is a resolver whose send succeeded but whose REMOVE failed.
- JSON decoding of request bodies and events, and JSON encoding of outputs and history entries (`default=str`, `Decimal`). Inputs arrive parsed. Staff fields and passthrough values are strings. An unparsable body and a non-string JSON value are not modelled.
- A missing `detail` in the launcher event reads as `{}` in the source. The model represents it as a detail with every key absent. A missing `pathParameters.order_id` in the resolvers is not modelled: the HTTP route always supplies it.
- `datetime.now().isoformat()` and the float-to-int timestamp. "now" is an opaque string, and the launch second is a `nat`.
- The store's refusal of an empty-string key is not modelled. Neither are the engine's constraints on execution names (length, characters); those surface only through the injected engine reply.
- Concurrency: racing resolvers, atomicity of the history ADD, and the engine's single use of a token. The model is sequential.
- The HTTP envelope beyond the status code and the key body fields.
