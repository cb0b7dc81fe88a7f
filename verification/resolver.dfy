/** The checkpoint resolvers: HTTP handlers through which staff complete a
    human step (assigning a cook, confirming delivery). Both run the same
    algorithm, `Resolve`, and differ only in the step they expect and the
    texts they answer with. */
module Resolver {
  import opened Wrappers
  import opened Orders
  import opened Effects

  /** What distinguishes one checkpoint resolver from another. */
  datatype CheckpointKind = CheckpointKind(
    step: string,
    notWaitingError: string,
    noTokenError: string,
    successMessage: string,
    echoesOrderId: bool)

  const ASSIGN_COOK_KIND: CheckpointKind := CheckpointKind(
    "ASSIGN_COOK",
    "Order not waiting for cook assignment",
    "No pending task token for this order",
    "Cook assigned and workflow resumed",
    true)

  const MARK_DELIVERED_KIND: CheckpointKind := CheckpointKind(
    "MARK_DELIVERED",
    "Order not waiting for delivered",
    "No pending task token",
    "Order marked as delivered, workflow resumed",
    false)

  const STAFF_REQUIRED: string := "staff_id y staff_name son requeridos"
  const ORDER_NOT_FOUND: string := "Order not found"

  /** The parsed request body; a missing body reads as `{}`. */
  datatype StaffBody = StaffBody(staffId: Option<string>, staffName: Option<string>)

  /** The engine's answer to `send_task_success`. */
  datatype SendReply = Acknowledged | SendRejected(reason: string)

  /** Python truthiness of an optional string: present and non-empty. */
  predicate Truthy(v: Option<string>)
  {
    v.Some? && v.value != ""
  }

  /** The order exists and is suspended at `step` with a usable token. */
  predicate AwaitingAt(store: Store, orderId: string, step: string)
  {
    && orderId in store
    && store[orderId].pendingStep == Some(step)
    && Truthy(store[orderId].pendingTaskToken)
  }

  /** Every guard in front of the engine call passes. */
  predicate Admissible(kind: CheckpointKind, store: Store, orderId: string, body: StaffBody)
  {
    Truthy(body.staffId) && Truthy(body.staffName) && AwaitingAt(store, orderId, kind.step)
  }

  /** The output the resolver submits with the stored token. */
  function Completion(kind: CheckpointKind, orderId: string, body: StaffBody, now: string): TaskOutput
    requires Truthy(body.staffId) && Truthy(body.staffName)
  {
    TaskOutput(orderId, body.staffId.value, body.staffName.value, kind.step, now)
  }

  /** A response that leaves the store alone and calls nobody. */
  function Refuse(store: Store, code: int, error: string): Outcome<HttpResponse>
  {
    Outcome(store, [], Returned(HttpResponse(code, ErrorBody(error))))
  }

  /** The generic resolver. Guards, in order: both staff fields (400), the
      order (404), the pending step (409), the pending token (409). Only
      then is the task success sent, and only once the engine accepted it
      are the three `pending_*` attributes removed. */
  function Resolve(kind: CheckpointKind, store: Store, orderId: string, body: StaffBody,
                   now: string, reply: SendReply): (r: Outcome<HttpResponse>)
    ensures !Truthy(body.staffId) || !Truthy(body.staffName) ==>
      r == Refuse(store, 400, STAFF_REQUIRED)
    ensures Truthy(body.staffId) && Truthy(body.staffName) && orderId !in store ==>
      r == Refuse(store, 404, ORDER_NOT_FOUND)
    ensures Truthy(body.staffId) && Truthy(body.staffName) && orderId in store
            && store[orderId].pendingStep != Some(kind.step) ==>
      r == Refuse(store, 409, kind.notWaitingError)
    ensures Truthy(body.staffId) && Truthy(body.staffName) && orderId in store
            && store[orderId].pendingStep == Some(kind.step) && !Truthy(store[orderId].pendingTaskToken) ==>
      r == Refuse(store, 409, kind.noTokenError)
    ensures r.effects != [] <==> Admissible(kind, store, orderId, body)
    ensures Admissible(kind, store, orderId, body) ==>
      && r.effects[0] == SendTaskSuccess(store[orderId].pendingTaskToken.value,
                                         Completion(kind, orderId, body, now))
      && EngineCalls(r.effects) == 1
    ensures Admissible(kind, store, orderId, body) && reply.Acknowledged? ==>
      && r.effects == [r.effects[0], StoreWrite(orderId, RemovePending)]
      && r.store.Keys == store.Keys
      && NoCheckpoint(r.store[orderId])
      && SameProgress(store[orderId], r.store[orderId])
      && SameIdentity(store[orderId], r.store[orderId])
      && OthersUnchanged(store, r.store, orderId)
      && r.reply == Returned(HttpResponse(200, MessageBody(kind.successMessage,
                                                           if kind.echoesOrderId then Some(orderId) else None)))
    ensures Admissible(kind, store, orderId, body) && reply.SendRejected? ==>
      && r.store == store
      && |r.effects| == 1
      && r.reply == Raised(EngineError(reply.reason))
    ensures r.reply == Returned(HttpResponse(200, MessageBody(kind.successMessage,
                                                              if kind.echoesOrderId then Some(orderId) else None)))
            <==> Admissible(kind, store, orderId, body) && reply.Acknowledged?
    ensures r.store == Replay(store, r.effects)
    ensures WellKeyed(store) ==> WellKeyed(r.store)
  {
    if !Truthy(body.staffId) || !Truthy(body.staffName) then Refuse(store, 400, STAFF_REQUIRED)
    else if orderId !in store then Refuse(store, 404, ORDER_NOT_FOUND)
    else if store[orderId].pendingStep != Some(kind.step) then Refuse(store, 409, kind.notWaitingError)
    else if !Truthy(store[orderId].pendingTaskToken) then Refuse(store, 409, kind.noTokenError)
    else
      var send := SendTaskSuccess(store[orderId].pendingTaskToken.value, Completion(kind, orderId, body, now));
      match reply
      case SendRejected(reason) =>
        ReplayWithoutWrites(store, [send]);
        Outcome(store, [send], Raised(EngineError(reason)))
      case Acknowledged =>
        ReplaySingleWrite(store, [send], orderId, RemovePending, []);
        assert [send] + [StoreWrite(orderId, RemovePending)] + [] == [send, StoreWrite(orderId, RemovePending)];
        assert [send, StoreWrite(orderId, RemovePending)][1..] == [StoreWrite(orderId, RemovePending)];
        assert EngineCalls([StoreWrite(orderId, RemovePending)]) == 0;
        Outcome(
          UpdateItem(store, orderId, RemovePending),
          [send, StoreWrite(orderId, RemovePending)],
          Returned(HttpResponse(200, MessageBody(kind.successMessage,
                                                 if kind.echoesOrderId then Some(orderId) else None))))
  }

  /** `POST /orders/{order_id}/assign-cook`: the resolver for the cook
      checkpoint. Its success answer echoes the order id. */
  function AssignCook(store: Store, orderId: string, body: StaffBody, now: string, reply: SendReply)
    : (r: Outcome<HttpResponse>)
    ensures r.effects != [] <==> Admissible(ASSIGN_COOK_KIND, store, orderId, body)
    ensures r.effects != [] ==>
      && r.effects[0].SendTaskSuccess?
      && Some(r.effects[0].token) == store[orderId].pendingTaskToken
      && r.effects[0].output.step == "ASSIGN_COOK"
    ensures Truthy(body.staffId) && Truthy(body.staffName) && orderId in store
            && store[orderId].pendingStep != Some("ASSIGN_COOK") ==>
      r.reply == Returned(HttpResponse(409, ErrorBody("Order not waiting for cook assignment")))
      && r.store == store
    ensures r.reply.Returned? && r.reply.value.statusCode == 200 ==>
      r.reply.value.body == MessageBody("Cook assigned and workflow resumed", Some(orderId))
      && orderId in r.store && NoCheckpoint(r.store[orderId])
  {
    Resolve(ASSIGN_COOK_KIND, store, orderId, body, now, reply)
  }

  /** `POST /orders/{order_id}/delivered`: the resolver for the delivery
      checkpoint. Its success answer carries no order id. */
  function MarkDelivered(store: Store, orderId: string, body: StaffBody, now: string, reply: SendReply)
    : (r: Outcome<HttpResponse>)
    ensures r.effects != [] <==> Admissible(MARK_DELIVERED_KIND, store, orderId, body)
    ensures r.effects != [] ==>
      && r.effects[0].SendTaskSuccess?
      && Some(r.effects[0].token) == store[orderId].pendingTaskToken
      && r.effects[0].output.step == "MARK_DELIVERED"
    ensures Truthy(body.staffId) && Truthy(body.staffName) && orderId in store
            && store[orderId].pendingStep != Some("MARK_DELIVERED") ==>
      r.reply == Returned(HttpResponse(409, ErrorBody("Order not waiting for delivered")))
      && r.store == store
    ensures r.reply.Returned? && r.reply.value.statusCode == 200 ==>
      r.reply.value.body == MessageBody("Order marked as delivered, workflow resumed", None)
      && orderId in r.store && NoCheckpoint(r.store[orderId])
  {
    Resolve(MARK_DELIVERED_KIND, store, orderId, body, now, reply)
  }
}
