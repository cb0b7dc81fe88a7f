/** What a handler does besides computing its reply: the calls it makes on
    the workflow engine, the event bus and the store, in order. A handler
    is modelled as a pure function returning the new store, this log and
    its reply. */
module Effects {
  import opened Wrappers
  import opened Orders

  /** The launch input of a fulfilment execution; `None` is JSON null. */
  datatype LaunchInput = LaunchInput(
    orderId: string, tenantId: Option<string>, customerId: Option<string>, total: Option<string>)

  /** The output submitted with a task success, resuming the workflow. */
  datatype TaskOutput = TaskOutput(
    orderId: string, staffId: string, staffName: string, step: string, timestamp: string)

  /** The `Detail` of a published status event. */
  datatype EventDetail = EventDetail(orderId: string, status: string, timestamp: string)

  datatype Effect =
    /** `table.update_item` on one key */
    | StoreWrite(key: string, update: Update)
    /** `stepfunctions.start_execution` */
    | StartExecution(name: string, input: LaunchInput)
    /** `stepfunctions.send_task_success` */
    | SendTaskSuccess(token: string, output: TaskOutput)
    /** `eventbridge.put_events` with one entry */
    | PutEvent(source: string, detailType: string, detail: EventDetail)

  /** The exceptions a handler raises: a missing key of its event (Python
      `KeyError`), an action outside the status table (also a `KeyError`
      in the source), or a call the workflow engine rejected. */
  datatype Fault = MissingKey(key: string) | UnknownAction(action: string) | EngineError(reason: string)

  /** A handler either returns a value or raises. */
  datatype Reply<+R> = Returned(value: R) | Raised(fault: Fault)

  /** The body of an HTTP response. */
  datatype Body =
    | ErrorBody(error: string)
    | MessageBody(message: string, orderId: Option<string>)
    | LaunchedBody(message: string, executionArn: string)

  datatype HttpResponse = HttpResponse(statusCode: int, body: Body)

  /** The result of one handler invocation. */
  datatype Outcome<+R> = Outcome(store: Store, effects: seq<Effect>, reply: Reply<R>)

  /** Plays the store writes of a log, in order, against a store. */
  function Replay(store: Store, log: seq<Effect>): Store
    decreases |log|
  {
    if log == [] then store
    else
      var store' := if log[0].StoreWrite? then UpdateItem(store, log[0].key, log[0].update) else store;
      Replay(store', log[1..])
  }

  /** The log holds no store write. */
  predicate NoWrites(log: seq<Effect>)
  {
    forall i :: 0 <= i < |log| ==> !log[i].StoreWrite?
  }

  /** A log without store writes leaves the store as it was. */
  lemma {:induction false} ReplayWithoutWrites(store: Store, log: seq<Effect>)
    requires NoWrites(log)
    ensures Replay(store, log) == store
    decreases |log|
  {
    if log != [] {
      assert NoWrites(log[1..]) by {
        forall i | 0 <= i < |log[1..]| ensures !log[1..][i].StoreWrite? {
          assert log[1..][i] == log[i + 1];
        }
      }
      ReplayWithoutWrites(store, log[1..]);
    }
  }

  /** A log whose only store write is `StoreWrite(key, u)` has the effect
      of that one update, wherever it stands in the log. */
  lemma {:induction false} ReplaySingleWrite(store: Store, pre: seq<Effect>, key: string, u: Update, post: seq<Effect>)
    requires NoWrites(pre) && NoWrites(post)
    ensures Replay(store, pre + [StoreWrite(key, u)] + post) == UpdateItem(store, key, u)
    decreases |pre|
  {
    var log := pre + [StoreWrite(key, u)] + post;
    if pre == [] {
      assert log[1..] == post;
      ReplayWithoutWrites(UpdateItem(store, key, u), post);
    } else {
      assert log[1..] == pre[1..] + [StoreWrite(key, u)] + post;
      assert NoWrites(pre[1..]) by {
        forall i | 0 <= i < |pre[1..]| ensures !pre[1..][i].StoreWrite? {
          assert pre[1..][i] == pre[i + 1];
        }
      }
      ReplaySingleWrite(store, pre[1..], key, u, post);
    }
  }

  /** Whatever store writes a log holds, they keep the store consistent. */
  lemma {:induction false} ReplayKeepsConsistent(store: Store, log: seq<Effect>)
    requires Consistent(store)
    ensures Consistent(Replay(store, log))
    decreases |log|
  {
    if log != [] {
      var store' := if log[0].StoreWrite? then UpdateItem(store, log[0].key, log[0].update) else store;
      ReplayKeepsConsistent(store', log[1..]);
    }
  }

  /** No store write removes an item or a history entry. */
  lemma {:induction false} ReplayGrows(store: Store, log: seq<Effect>)
    ensures HistoryGrows(store, Replay(store, log))
    decreases |log|
  {
    if log != [] {
      var store' := if log[0].StoreWrite? then UpdateItem(store, log[0].key, log[0].update) else store;
      ReplayGrows(store', log[1..]);
    }
  }

  /** The number of workflow-engine calls (starts and task successes) in a log. */
  function EngineCalls(log: seq<Effect>): nat
    decreases |log|
  {
    if log == [] then 0
    else (if log[0].StartExecution? || log[0].SendTaskSuccess? then 1 else 0) + EngineCalls(log[1..])
  }
}
