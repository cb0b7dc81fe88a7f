/** The checkpoint recorder: called by the workflow when it suspends on a
    task token, it stores the token and the step on the order and returns
    at once. */
module Recorder {
  import opened Wrappers
  import opened Orders
  import opened Effects

  /** `order`, of which only `order_id` is read. */
  datatype OrderRef = OrderRef(orderId: Option<string>)

  /** The invocation event `{taskToken, step, order}`; any key may be missing. */
  datatype TokenEvent = TokenEvent(taskToken: Option<string>, step: Option<string>, order: Option<OrderRef>)

  /** The returned `{"status": "OK", order_id, step}`. */
  datatype Ack = Ack(status: string, orderId: string, step: string)

  /** The event carries a token, a step, an order and its `order_id`. */
  predicate WellFormed(ev: TokenEvent)
  {
    ev.taskToken.Some? && ev.step.Some? && ev.order.Some? && ev.order.value.orderId.Some?
  }

  /** The handler. Keys are read in the order `taskToken`, `step`, `order`,
      `order.order_id`; a missing one raises before any write. Otherwise the
      three `pending_*` attributes are overwritten whatever they held, the
      item is created if absent, and nothing else changes. */
  function RecordCheckpoint(store: Store, ev: TokenEvent, now: string): (r: Outcome<Ack>)
    ensures r.reply.Raised? <==> !WellFormed(ev)
    ensures r.reply.Raised? ==> r.store == store && r.effects == []
    ensures ev.taskToken.None? ==> r.reply == Raised(MissingKey("taskToken"))
    ensures ev.taskToken.Some? && ev.step.None? ==> r.reply == Raised(MissingKey("step"))
    ensures ev.taskToken.Some? && ev.step.Some? && ev.order.None? ==> r.reply == Raised(MissingKey("order"))
    ensures ev.taskToken.Some? && ev.step.Some? && ev.order.Some? && ev.order.value.orderId.None? ==>
      r.reply == Raised(MissingKey("order_id"))
    ensures WellFormed(ev) ==>
      var id := ev.order.value.orderId.value;
      && id in r.store
      && r.store[id].pendingTaskToken == ev.taskToken
      && r.store[id].pendingStep == ev.step
      && r.store[id].pendingUpdatedAt == Some(now)
      && SameProgress(Current(store, id), r.store[id])
      && SameIdentity(Current(store, id), r.store[id])
      && OthersUnchanged(store, r.store, id)
      && |r.effects| == 1 && EngineCalls(r.effects) == 0
      && r.reply == Returned(Ack("OK", id, ev.step.value))
    ensures r.store == Replay(store, r.effects)
    ensures WellKeyed(store) ==> WellKeyed(r.store)
  {
    if ev.taskToken.None? then Outcome(store, [], Raised(MissingKey("taskToken")))
    else if ev.step.None? then Outcome(store, [], Raised(MissingKey("step")))
    else if ev.order.None? then Outcome(store, [], Raised(MissingKey("order")))
    else if ev.order.value.orderId.None? then Outcome(store, [], Raised(MissingKey("order_id")))
    else
      var id := ev.order.value.orderId.value;
      var write := SetPending(ev.taskToken.value, ev.step.value, now);
      ReplaySingleWrite(store, [], id, write, []);
      assert [] + [StoreWrite(id, write)] + [] == [StoreWrite(id, write)];
      Outcome(UpdateItem(store, id, write), [StoreWrite(id, write)], Returned(Ack("OK", id, ev.step.value)))
  }

  /** Recording twice for one order keeps only the second checkpoint, and
      the first leaves no trace: the result is as if only the second call
      had been made. */
  lemma LastRecordWins(store: Store, ev1: TokenEvent, now1: string, ev2: TokenEvent, now2: string)
    requires WellFormed(ev1) && WellFormed(ev2)
    requires ev1.order.value.orderId == ev2.order.value.orderId
    ensures RecordCheckpoint(RecordCheckpoint(store, ev1, now1).store, ev2, now2).store
            == RecordCheckpoint(store, ev2, now2).store
  {
  }
}
