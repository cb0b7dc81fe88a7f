/** The order record and the keyed order store, with the four field-level
    updates the handlers issue against it (DynamoDB `update_item` with
    SET, ADD and REMOVE clauses). An update on a key that is not in the
    store creates the item first, as `update_item` does. */
module Orders {
  import opened Wrappers

  /** One member of an order's `history` string set. The store holds the
      JSON text of `{action, status, timestamp}`; that encoding is
      injective, so the set of texts and the set of entries agree. */
  datatype HistoryEntry = HistoryEntry(action: string, status: string, timestamp: string)

  /** An order item. Every attribute except the key is optional. An empty
      `history` stands for an absent attribute (the store keeps no empty
      sets). `rest` holds the attributes no handler of this core reads or
      writes (tenant, customer, total, ...). */
  datatype Order = Order(
    orderId: string,
    status: Option<string>,
    updatedAt: Option<string>,
    history: set<HistoryEntry>,
    stepFunctionArn: Option<string>,
    pendingTaskToken: Option<string>,
    pendingStep: Option<string>,
    pendingUpdatedAt: Option<string>,
    rest: map<string, string>)

  /** The orders table, keyed by `order_id`. */
  type Store = map<string, Order>

  /** The item an update creates when its key is missing: the key alone. */
  function NewItem(orderId: string): Order
  {
    Order(orderId, None, None, {}, None, None, None, None, map[])
  }

  /** The item at `key`, or the one an update would create there. */
  function Current(store: Store, key: string): Order
  {
    if key in store then store[key] else NewItem(key)
  }

  /** Every item is stored under its own `order_id`. */
  ghost predicate WellKeyed(store: Store)
  {
    forall k :: k in store ==> store[k].orderId == k
  }

  /** The three `pending_*` attributes are present together or not at all. */
  predicate CheckpointWhole(o: Order)
  {
    && (o.pendingTaskToken.Some? <==> o.pendingStep.Some?)
    && (o.pendingStep.Some? <==> o.pendingUpdatedAt.Some?)
  }

  /** The store invariant every handler keeps: items sit under their own
      key, and no item holds a partial checkpoint. */
  ghost predicate Consistent(store: Store)
  {
    WellKeyed(store) && forall k :: k in store ==> CheckpointWhole(store[k])
  }

  /** The three `pending_*` attributes are all absent. */
  predicate NoCheckpoint(o: Order)
  {
    o.pendingTaskToken.None? && o.pendingStep.None? && o.pendingUpdatedAt.None?
  }

  /** The checkpoint attributes of `a` and `b` agree. */
  predicate SameCheckpoint(a: Order, b: Order)
  {
    && a.pendingTaskToken == b.pendingTaskToken
    && a.pendingStep == b.pendingStep
    && a.pendingUpdatedAt == b.pendingUpdatedAt
  }

  /** The status attributes (status, timestamp, history) of `a` and `b` agree. */
  predicate SameProgress(a: Order, b: Order)
  {
    a.status == b.status && a.updatedAt == b.updatedAt && a.history == b.history
  }

  /** Key, execution handle and untouched attributes of `a` and `b` agree. */
  predicate SameIdentity(a: Order, b: Order)
  {
    a.orderId == b.orderId && a.stepFunctionArn == b.stepFunctionArn && a.rest == b.rest
  }

  /** The two stores agree on every key other than `key`. */
  predicate OthersUnchanged(store: Store, store': Store, key: string)
  {
    store - {key} == store' - {key}
  }

  /** Every item of `store` is still in `store'`, and its history only
      gained entries. */
  ghost predicate HistoryGrows(store: Store, store': Store)
  {
    forall k :: k in store ==> k in store' && store[k].history <= store'[k].history
  }

  /** The update expressions the handlers send to the store. */
  datatype Update =
    /** `SET status, updated_at ADD history` */
    | SetStatus(status: string, timestamp: string, entry: HistoryEntry)
    /** `SET step_function_arn` */
    | SetExecutionArn(arn: string)
    /** `SET pending_task_token, pending_step, pending_updated_at` */
    | SetPending(token: string, step: string, timestamp: string)
    /** `REMOVE pending_task_token, pending_step, pending_updated_at` */
    | RemovePending

  /** The effect of one update expression on one item. */
  function Apply(o: Order, u: Update): (o': Order)
    ensures o'.orderId == o.orderId && o'.rest == o.rest
    ensures u.SetStatus? ==>
      && o'.status == Some(u.status) && o'.updatedAt == Some(u.timestamp)
      && o.history <= o'.history && u.entry in o'.history
      && o'.history - {u.entry} <= o.history
      && SameCheckpoint(o, o') && o'.stepFunctionArn == o.stepFunctionArn
    ensures u.SetExecutionArn? ==>
      o'.stepFunctionArn == Some(u.arn) && SameProgress(o, o') && SameCheckpoint(o, o')
    ensures u.SetPending? ==>
      && o'.pendingTaskToken == Some(u.token) && o'.pendingStep == Some(u.step)
      && o'.pendingUpdatedAt == Some(u.timestamp)
      && SameProgress(o, o') && SameIdentity(o, o')
    ensures u.RemovePending? ==>
      NoCheckpoint(o') && SameProgress(o, o') && SameIdentity(o, o')
  {
    match u
    case SetStatus(st, ts, h) =>
      o.(status := Some(st), updatedAt := Some(ts), history := o.history + {h})
    case SetExecutionArn(arn) =>
      o.(stepFunctionArn := Some(arn))
    case SetPending(tok, step, ts) =>
      o.(pendingTaskToken := Some(tok), pendingStep := Some(step), pendingUpdatedAt := Some(ts))
    case RemovePending =>
      o.(pendingTaskToken := None, pendingStep := None, pendingUpdatedAt := None)
  }

  /** `update_item(Key={"order_id": key}, ...)`: applies `u` to the item at
      `key`, creating it if absent, and leaves every other item alone. */
  function UpdateItem(store: Store, key: string, u: Update): (store': Store)
    ensures key in store' && store'[key] == Apply(Current(store, key), u)
    ensures store'.Keys == store.Keys + {key}
    ensures OthersUnchanged(store, store', key)
    ensures WellKeyed(store) ==> WellKeyed(store')
    ensures Consistent(store) ==> Consistent(store')
    ensures HistoryGrows(store, store')
  {
    store[key := Apply(Current(store, key), u)]
  }
}
