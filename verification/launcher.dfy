/** The execution launcher: on an order-received event it starts one
    fulfilment execution and records the execution handle on the order. */
module Launcher {
  import opened Wrappers
  import opened Orders
  import opened Effects
  import Decimal

  /** The event's `detail`; a missing detail reads as `{}`. `None` is a
      missing key. The passthrough values are opaque JSON texts. */
  datatype LaunchDetail = LaunchDetail(
    orderId: Option<string>, tenantId: Option<string>, customerId: Option<string>, total: Option<string>)

  /** The engine's answer to `start_execution`. */
  datatype StartReply = Started(executionArn: string) | StartRejected(reason: string)

  const LAUNCHED_MESSAGE: string := "Fulfillment iniciado"

  /** `order-<order_id>-<seconds>`, the seconds in decimal. */
  function ExecutionName(orderId: string, seconds: nat): (name: string)
    ensures |name| > |orderId| + 7
    ensures name[..6] == "order-" && name[6..6 + |orderId|] == orderId
  {
    "order-" + orderId + "-" + Decimal.NatToString(seconds)
  }

  /** The index of the last `c` in `s`, or -1 when there is none. */
  function LastIndexOf(s: string, c: char): int
    decreases |s|
  {
    if s == [] then -1
    else if s[|s| - 1] == c then |s| - 1
    else LastIndexOf(s[..|s| - 1], c)
  }

  /** In `a + [c] + d` with no `c` in `d`, the last `c` is the one after `a`. */
  lemma {:induction false} LastIndexAfterPrefix(a: string, c: char, d: string)
    requires c !in d
    ensures LastIndexOf(a + [c] + d, c) == |a|
    decreases |d|
  {
    var s := a + [c] + d;
    if d == [] {
      assert s[|s| - 1] == c;
    } else {
      assert s[|s| - 1] == d[|d| - 1] != c;
      assert s[..|s| - 1] == a + [c] + d[..|d| - 1];
      LastIndexAfterPrefix(a, c, d[..|d| - 1]);
    }
  }

  /** A string split at a dash after which no dash occurs is split at its
      last dash, so the two halves are determined by the whole. */
  lemma SplitAtLastDash(a: string, d: string, b: string, e: string)
    requires '-' !in d && '-' !in e
    requires a + "-" + d == b + "-" + e
    ensures a == b && d == e
  {
    var s := a + "-" + d;
    LastIndexAfterPrefix(a, '-', d);
    LastIndexAfterPrefix(b, '-', e);
    assert |a| == |b|;
    assert a == s[..|a|];
    assert b == s[..|b|];
    assert d == s[|a| + 1..];
    assert e == s[|b| + 1..];
  }

  /** Launches of the same order in different seconds get different names;
      more generally the name determines both the order and the second. */
  lemma ExecutionNameInjective(id1: string, s1: nat, id2: string, s2: nat)
    requires ExecutionName(id1, s1) == ExecutionName(id2, s2)
    ensures id1 == id2 && s1 == s2
  {
    var d1, d2 := Decimal.NatToString(s1), Decimal.NatToString(s2);
    assert forall i :: 0 <= i < |d1| ==> d1[i] != '-';
    assert forall i :: 0 <= i < |d2| ==> d2[i] != '-';
    SplitAtLastDash("order-" + id1, d1, "order-" + id2, d2);
    assert id1 == ("order-" + id1)[6..];
    assert id2 == ("order-" + id2)[6..];
    Decimal.NatToStringInjective(s1, s2);
  }

  /** The workflow input built from the detail. */
  function LaunchInputOf(orderId: string, detail: LaunchDetail): LaunchInput
  {
    LaunchInput(orderId, detail.tenantId, detail.customerId, detail.total)
  }

  /** The handler. Without an `order_id` it raises before anything else.
      Otherwise it makes exactly one start call; if the engine rejects it
      the store is not written, and if it accepts, exactly one write
      upserts `step_function_arn` and the answer carries that same handle. */
  function StartFulfillment(store: Store, detail: LaunchDetail, seconds: nat, reply: StartReply)
    : (r: Outcome<HttpResponse>)
    ensures detail.orderId.None? ==>
      r.reply == Raised(MissingKey("order_id")) && r.store == store && r.effects == []
    ensures detail.orderId.Some? ==>
      var id := detail.orderId.value;
      && |r.effects| >= 1
      && r.effects[0] == StartExecution(ExecutionName(id, seconds),
                                        LaunchInput(id, detail.tenantId, detail.customerId, detail.total))
      && EngineCalls(r.effects) == 1
    ensures detail.orderId.Some? && reply.StartRejected? ==>
      r.reply == Raised(EngineError(reply.reason)) && r.store == store && |r.effects| == 1
    ensures detail.orderId.Some? && reply.Started? ==>
      var id := detail.orderId.value;
      && |r.effects| == 2
      && r.effects[1] == StoreWrite(id, SetExecutionArn(reply.executionArn))
      && id in r.store
      && r.store[id].stepFunctionArn == Some(reply.executionArn)
      && SameProgress(Current(store, id), r.store[id])
      && SameCheckpoint(Current(store, id), r.store[id])
      && r.store[id].orderId == Current(store, id).orderId
      && r.store[id].rest == Current(store, id).rest
      && OthersUnchanged(store, r.store, id)
      && r.reply == Returned(HttpResponse(200, LaunchedBody(LAUNCHED_MESSAGE, r.store[id].stepFunctionArn.value)))
    ensures r.store == Replay(store, r.effects)
    ensures WellKeyed(store) ==> WellKeyed(r.store)
  {
    if detail.orderId.None? then Outcome(store, [], Raised(MissingKey("order_id")))
    else
      var id := detail.orderId.value;
      var start := StartExecution(ExecutionName(id, seconds), LaunchInputOf(id, detail));
      match reply
      case StartRejected(reason) =>
        ReplayWithoutWrites(store, [start]);
        Outcome(store, [start], Raised(EngineError(reason)))
      case Started(arn) =>
        var write := StoreWrite(id, SetExecutionArn(arn));
        ReplaySingleWrite(store, [start], id, SetExecutionArn(arn), []);
        assert [start] + [write] + [] == [start, write];
        assert [start, write][1..] == [write];
        assert EngineCalls([write]) == 0;
        Outcome(UpdateItem(store, id, SetExecutionArn(arn)), [start, write],
                Returned(HttpResponse(200, LaunchedBody(LAUNCHED_MESSAGE, arn))))
  }

  /** Launching never touches a pending checkpoint of any order. */
  lemma LaunchKeepsCheckpoints(store: Store, detail: LaunchDetail, seconds: nat, reply: StartReply, key: string)
    requires key in store
    ensures
      var r := StartFulfillment(store, detail, seconds, reply);
      key in r.store && SameCheckpoint(store[key], r.store[key])
  {
  }
}
