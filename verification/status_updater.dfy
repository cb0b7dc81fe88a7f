/** The status updater: invoked by the workflow at each lifecycle point
    with an action and a payload, it sets the order's status and timestamp,
    adds one entry to its history set, and publishes one status event. */
module StatusUpdater {
  import opened Wrappers
  import opened Orders
  import opened Effects

  datatype ActionConfig = ActionConfig(status: string, eventType: string)

  /** The closed action table. */
  const ACTION_CONFIG: map<string, ActionConfig> := map[
    "INIT" := ActionConfig("PENDIENTE", "PedidoInicializado"),
    "COOKING" := ActionConfig("COCINANDO", "CocinaIniciada"),
    "PACKING" := ActionConfig("EMPACANDO", "EmpaqueIniciado"),
    "ON_DELIVERY" := ActionConfig("EN_REPARTO", "RepartoIniciado"),
    "DELIVERED" := ActionConfig("ENTREGADO", "PedidoEntregado")
  ]

  const EVENT_SOURCE: string := "fulfillment.service"

  /** `payload`, of which only `order_id` is read. */
  datatype Payload = Payload(orderId: Option<string>)

  /** The invocation event `{action, payload}`; either key may be missing. */
  datatype TransitionEvent = TransitionEvent(action: Option<string>, payload: Option<Payload>)

  /** The returned `{order_id, status, ts}`. */
  datatype TransitionResult = TransitionResult(orderId: string, status: string, ts: string)

  /** The table is total on exactly the five actions. */
  lemma ActionTableDomain()
    ensures ACTION_CONFIG.Keys == {"INIT", "COOKING", "PACKING", "ON_DELIVERY", "DELIVERED"}
  {
  }

  /** No two actions share a status or an event type. */
  lemma ActionTableInjective()
    ensures forall a, b :: a in ACTION_CONFIG && b in ACTION_CONFIG && a != b ==>
      ACTION_CONFIG[a].status != ACTION_CONFIG[b].status
      && ACTION_CONFIG[a].eventType != ACTION_CONFIG[b].eventType
  {
  }

  /** The invocation carries an action, a payload and an `order_id`. */
  predicate WellFormed(ev: TransitionEvent)
  {
    ev.action.Some? && ev.payload.Some? && ev.payload.value.orderId.Some?
  }

  /** The handler. Keys are read in the order `action`, `payload`,
      `payload.order_id`, then the action is looked up; any failure raises
      before the store is written or an event is published. On success the
      store write comes first, then exactly one event. */
  function ApplyTransition(store: Store, ev: TransitionEvent, now: string): (r: Outcome<TransitionResult>)
    ensures r.reply.Raised? <==> !WellFormed(ev) || ev.action.value !in ACTION_CONFIG
    ensures r.reply.Raised? ==> r.store == store && r.effects == []
    ensures ev.action.None? ==> r.reply == Raised(MissingKey("action"))
    ensures ev.action.Some? && ev.payload.None? ==> r.reply == Raised(MissingKey("payload"))
    ensures ev.action.Some? && ev.payload.Some? && ev.payload.value.orderId.None? ==>
      r.reply == Raised(MissingKey("order_id"))
    ensures WellFormed(ev) && ev.action.value !in ACTION_CONFIG ==>
      r.reply == Raised(UnknownAction(ev.action.value))
    ensures r.reply.Returned? ==>
      var id := ev.payload.value.orderId.value;
      var action := ev.action.value;
      var cfg := ACTION_CONFIG[action];
      var before := Current(store, id);
      && id in r.store
      && r.store[id].status == Some(cfg.status)
      && r.store[id].updatedAt == Some(now)
      && r.store[id].history == before.history + {HistoryEntry(action, cfg.status, now)}
      && SameCheckpoint(before, r.store[id])
      && SameIdentity(before, r.store[id])
      && OthersUnchanged(store, r.store, id)
      && |r.effects| == 2
      && r.effects[0].StoreWrite? && r.effects[0].key == id
      && r.effects[1] == PutEvent(EVENT_SOURCE, cfg.eventType,
                                  EventDetail(id, r.store[id].status.value, r.store[id].updatedAt.value))
      && r.reply.value == TransitionResult(id, r.store[id].status.value, r.store[id].updatedAt.value)
    ensures r.store == Replay(store, r.effects)
    ensures WellKeyed(store) ==> WellKeyed(r.store)
  {
    if ev.action.None? then Outcome(store, [], Raised(MissingKey("action")))
    else if ev.payload.None? then Outcome(store, [], Raised(MissingKey("payload")))
    else if ev.payload.value.orderId.None? then Outcome(store, [], Raised(MissingKey("order_id")))
    else if ev.action.value !in ACTION_CONFIG then Outcome(store, [], Raised(UnknownAction(ev.action.value)))
    else
      var action := ev.action.value;
      var id := ev.payload.value.orderId.value;
      var cfg := ACTION_CONFIG[action];
      var write := SetStatus(cfg.status, now, HistoryEntry(action, cfg.status, now));
      var event := PutEvent(EVENT_SOURCE, cfg.eventType, EventDetail(id, cfg.status, now));
      ReplaySingleWrite(store, [], id, write, [event]);
      assert [] + [StoreWrite(id, write)] + [event] == [StoreWrite(id, write), event];
      Outcome(
        UpdateItem(store, id, write),
        [StoreWrite(id, write), event],
        Returned(TransitionResult(id, cfg.status, now)))
  }

  /** Applying the same action twice leaves the status where one
      application put it; the history then holds both entries, which
      collapse into one when both applications share the same `now`. */
  lemma ApplyTwice(store: Store, ev: TransitionEvent, now1: string, now2: string)
    requires WellFormed(ev) && ev.action.value in ACTION_CONFIG
    ensures
      var id := ev.payload.value.orderId.value;
      var action := ev.action.value;
      var status := ACTION_CONFIG[action].status;
      var once := ApplyTransition(store, ev, now1);
      var twice := ApplyTransition(once.store, ev, now2);
      && twice.reply.Returned?
      && twice.store[id].status == once.store[id].status == Some(status)
      && twice.store[id].history
         == Current(store, id).history + {HistoryEntry(action, status, now1), HistoryEntry(action, status, now2)}
      && (now1 == now2 ==> twice.store[id].history == once.store[id].history)
      && twice.effects[1].detailType == once.effects[1].detailType
  {
  }

  /** The status updater never touches a pending checkpoint of any order. */
  lemma TransitionKeepsCheckpoints(store: Store, ev: TransitionEvent, now: string, key: string)
    requires key in store
    ensures
      var r := ApplyTransition(store, ev, now);
      key in r.store && SameCheckpoint(store[key], r.store[key])
  {
  }
}
