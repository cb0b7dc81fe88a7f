/** The checkpoint relay protocol across handlers: a checkpoint recorded
    by the recorder is consumed exactly once by the resolver for its step,
    survives an engine failure and any number of status updates or
    launches in between, and the store invariant holds over every run. */
module Protocol {
  import opened Wrappers
  import opened Orders
  import opened Effects
  import opened Resolver
  import Recorder
  import StatusUpdater
  import Launcher

  /** The recorder invocation suspending `orderId` at `step` on `token`. */
  function Suspend(orderId: string, step: string, token: string): Recorder.TokenEvent
  {
    Recorder.TokenEvent(Some(token), Some(step), Some(Recorder.OrderRef(Some(orderId))))
  }

  /** Recording a checkpoint and then resolving that same step sends
      exactly the recorded token, once, and clears the checkpoint; an order
      that had no checkpoint before is left exactly as it was. */
  lemma RecordThenResolve(kind: CheckpointKind, store: Store, orderId: string, token: string, now1: string,
                          body: StaffBody, now2: string)
    requires token != "" && Truthy(body.staffId) && Truthy(body.staffName)
    ensures
      var recorded := Recorder.RecordCheckpoint(store, Suspend(orderId, kind.step, token), now1);
      var resolved := Resolve(kind, recorded.store, orderId, body, now2, Acknowledged);
      && resolved.effects == [SendTaskSuccess(token, Completion(kind, orderId, body, now2)),
                              StoreWrite(orderId, RemovePending)]
      && orderId in resolved.store
      && NoCheckpoint(resolved.store[orderId])
      && SameProgress(Current(store, orderId), resolved.store[orderId])
      && SameIdentity(Current(store, orderId), resolved.store[orderId])
      && OthersUnchanged(store, resolved.store, orderId)
      && resolved.reply.Returned? && resolved.reply.value.statusCode == 200
      && (orderId in store && NoCheckpoint(store[orderId]) ==> resolved.store == store)
  {
  }

  /** The concrete cook scenario: the cook resolver sends the token the
      workflow recorded for `ASSIGN_COOK` and leaves no checkpoint. */
  lemma RecordThenAssignCook(store: Store, orderId: string, token: string, now1: string,
                             body: StaffBody, now2: string)
    requires token != "" && Truthy(body.staffId) && Truthy(body.staffName)
    ensures
      var recorded := Recorder.RecordCheckpoint(store, Suspend(orderId, "ASSIGN_COOK", token), now1);
      var resolved := AssignCook(recorded.store, orderId, body, now2, Acknowledged);
      && resolved.effects[0] == SendTaskSuccess(token, TaskOutput(orderId, body.staffId.value,
                                                                  body.staffName.value, "ASSIGN_COOK", now2))
      && EngineCalls(resolved.effects) == 1
      && NoCheckpoint(resolved.store[orderId])
  {
  }

  /** A checkpoint recorded for the cook cannot be resolved as a delivery:
      409, no engine call, store unchanged. */
  lemma CookCheckpointRejectsDelivery(store: Store, orderId: string, token: string, now1: string,
                                      body: StaffBody, now2: string, reply: SendReply)
    requires Truthy(body.staffId) && Truthy(body.staffName)
    ensures
      var recorded := Recorder.RecordCheckpoint(store, Suspend(orderId, "ASSIGN_COOK", token), now1);
      MarkDelivered(recorded.store, orderId, body, now2, reply)
        == Refuse(recorded.store, 409, "Order not waiting for delivered")
  {
  }

  /** Right after a successful resolution, any resolver call for the order
      is refused without an engine call: the step is no longer pending. */
  lemma SecondResolveRefused(kind: CheckpointKind, kind2: CheckpointKind, store: Store, orderId: string,
                             body: StaffBody, now: string, body2: StaffBody, now2: string, reply2: SendReply)
    requires Admissible(kind, store, orderId, body)
    ensures
      var first := Resolve(kind, store, orderId, body, now, Acknowledged);
      var second := Resolve(kind2, first.store, orderId, body2, now2, reply2);
      && second.effects == [] && second.store == first.store
      && (Truthy(body2.staffId) && Truthy(body2.staffName) ==>
            second.reply == Returned(HttpResponse(409, ErrorBody(kind2.notWaitingError))))
  {
  }

  /** An engine failure leaves the checkpoint in place, so retrying the
      same request succeeds and sends the same token. */
  lemma RetryAfterEngineFailure(kind: CheckpointKind, store: Store, orderId: string, body: StaffBody,
                                now1: string, reason: string, now2: string)
    requires Admissible(kind, store, orderId, body)
    ensures
      var failed := Resolve(kind, store, orderId, body, now1, SendRejected(reason));
      var retried := Resolve(kind, failed.store, orderId, body, now2, Acknowledged);
      && failed.reply.Raised?
      && AwaitingAt(failed.store, orderId, kind.step)
      && retried.reply.Returned? && retried.reply.value.statusCode == 200
      && retried.effects[0].token == failed.effects[0].token
  {
  }

  /** A checkpoint recorded with an empty token can never be resolved. */
  lemma EmptyTokenRefused(kind: CheckpointKind, store: Store, orderId: string, now1: string,
                          body: StaffBody, now2: string, reply: SendReply)
    requires Truthy(body.staffId) && Truthy(body.staffName)
    ensures
      var recorded := Recorder.RecordCheckpoint(store, Suspend(orderId, kind.step, ""), now1);
      Resolve(kind, recorded.store, orderId, body, now2, reply) == Refuse(recorded.store, 409, kind.noTokenError)
  {
  }

  /** Status updates in between do not disturb a recorded checkpoint: the
      resolver still sends the recorded token. */
  lemma TransitionBetweenRecordAndResolve(kind: CheckpointKind, store: Store, orderId: string, token: string,
                                          now1: string, ev: StatusUpdater.TransitionEvent, now2: string,
                                          body: StaffBody, now3: string)
    requires token != "" && Truthy(body.staffId) && Truthy(body.staffName)
    ensures
      var recorded := Recorder.RecordCheckpoint(store, Suspend(orderId, kind.step, token), now1);
      var updated := StatusUpdater.ApplyTransition(recorded.store, ev, now2);
      var resolved := Resolve(kind, updated.store, orderId, body, now3, Acknowledged);
      && resolved.effects[0] == SendTaskSuccess(token, Completion(kind, orderId, body, now3))
      && NoCheckpoint(resolved.store[orderId])
  {
  }

  /** One invocation of any handler of the core. */
  datatype Call =
    | Launch(detail: Launcher.LaunchDetail, seconds: nat, started: Launcher.StartReply)
    | Record(event: Recorder.TokenEvent, now: string)
    | Transition(update: StatusUpdater.TransitionEvent, now: string)
    | Complete(kind: CheckpointKind, orderId: string, body: StaffBody, now: string, sent: SendReply)

  /** The store after one call, and the effects it logged. */
  function Step(store: Store, call: Call): (r: (Store, seq<Effect>))
    ensures r.0 == Replay(store, r.1)
  {
    match call
    case Launch(d, s, rep) =>
      var o := Launcher.StartFulfillment(store, d, s, rep); (o.store, o.effects)
    case Record(ev, now) =>
      var o := Recorder.RecordCheckpoint(store, ev, now); (o.store, o.effects)
    case Transition(ev, now) =>
      var o := StatusUpdater.ApplyTransition(store, ev, now); (o.store, o.effects)
    case Complete(k, id, b, now, rep) =>
      var o := Resolve(k, store, id, b, now, rep); (o.store, o.effects)
  }

  /** The store after a sequence of calls, one after the other. */
  function Run(store: Store, calls: seq<Call>): Store
    decreases |calls|
  {
    if calls == [] then store else Run(Step(store, calls[0]).0, calls[1..])
  }

  /** Every sequence of handler calls keeps the store consistent: items
      under their own key, and never a partial checkpoint. */
  lemma {:induction false} RunKeepsConsistent(store: Store, calls: seq<Call>)
    requires Consistent(store)
    ensures Consistent(Run(store, calls))
    decreases |calls|
  {
    if calls != [] {
      var step := Step(store, calls[0]);
      ReplayKeepsConsistent(store, step.1);
      RunKeepsConsistent(step.0, calls[1..]);
    }
  }

  /** Over every sequence of handler calls no order disappears and no
      history entry is lost: history is only ever added to. */
  lemma {:induction false} RunHistoryGrows(store: Store, calls: seq<Call>)
    ensures HistoryGrows(store, Run(store, calls))
    decreases |calls|
  {
    if calls != [] {
      var step := Step(store, calls[0]);
      ReplayGrows(store, step.1);
      RunHistoryGrows(step.0, calls[1..]);
    }
  }

  /** In a consistent store the resolver's missing-token refusal is only
      reached for a token recorded empty: a pending step always comes with
      a token. */
  lemma MissingTokenMeansEmptyToken(kind: CheckpointKind, store: Store, orderId: string, body: StaffBody,
                                    now: string, reply: SendReply)
    requires Consistent(store)
    requires Resolve(kind, store, orderId, body, now, reply) == Refuse(store, 409, kind.noTokenError)
    requires kind.noTokenError != kind.notWaitingError
    ensures store[orderId].pendingTaskToken == Some("")
  {
  }

  /** The missing-token refusal of the cook resolver, in a consistent
      store, means the recorded token is the empty string. */
  lemma AssignCookMissingTokenMeansEmptyToken(store: Store, orderId: string, body: StaffBody,
                                              now: string, reply: SendReply)
    requires Consistent(store)
    requires AssignCook(store, orderId, body, now, reply)
             == Refuse(store, 409, "No pending task token for this order")
    ensures store[orderId].pendingTaskToken == Some("")
  {
    MissingTokenMeansEmptyToken(ASSIGN_COOK_KIND, store, orderId, body, now, reply);
  }

  /** The same for the delivery resolver. */
  lemma MarkDeliveredMissingTokenMeansEmptyToken(store: Store, orderId: string, body: StaffBody,
                                                 now: string, reply: SendReply)
    requires Consistent(store)
    requires MarkDelivered(store, orderId, body, now, reply) == Refuse(store, 409, "No pending task token")
    ensures store[orderId].pendingTaskToken == Some("")
  {
    MissingTokenMeansEmptyToken(MARK_DELIVERED_KIND, store, orderId, body, now, reply);
  }
}
