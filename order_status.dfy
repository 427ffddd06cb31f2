/** The order-status endpoint (api/order-status.ts): a GET lookup that
    prefers the key-value store and falls back to an in-memory map, and
    the step update used by the fulfillment system. */
module OrderStatusApi {
  import opened Wrappers
  import opened ServerStore
  import CreateOrderApi

  /** The `id` query parameter: absent, a single value, or repeated. */
  datatype QueryId = Absent | Single(value: string) | Repeated(values: seq<string>)

  datatype StatusResponse =
    | Preflight
    | MethodNotAllowed
    | MissingId
    | NotFound(orderId: string)
    | Found(order: ServerOrder)

  function StatusCode(r: StatusResponse): nat {
    match r
    case Preflight => 200
    case MethodNotAllowed => 405
    case MissingId => 400
    case NotFound(_) => 404
    case Found(_) => 200
  }

  /** `kv.get('order:<id>')`, which yields null when the store is absent,
      the read throws, or the key is missing. */
  function KvGet(kvAvailable: bool, kv: KvData, readThrows: bool, id: string): (r: Option<ServerOrder>)
    ensures r.Some? <==> kvAvailable && !readThrows && OrderKey(id) in kv.entries
  {
    if kvAvailable && !readThrows && OrderKey(id) in kv.entries then Some(kv.entries[OrderKey(id)]) else None
  }

  /** The key-value record when there is one, else the in-memory one. */
  function Lookup(kvAvailable: bool, kv: KvData, readThrows: bool, memory: map<string, ServerOrder>, id: string)
    : (r: Option<ServerOrder>)
    ensures KvGet(kvAvailable, kv, readThrows, id).Some? ==> r == KvGet(kvAvailable, kv, readThrows, id)
    ensures KvGet(kvAvailable, kv, readThrows, id).None? ==>
      r == if id in memory then Some(memory[id]) else None
  {
    var fromKv := KvGet(kvAvailable, kv, readThrows, id);
    if fromKv.Some? then fromKv else if id in memory then Some(memory[id]) else None
  }

  /** The GET handler against the stores `s`. */
  function GetOrderStatus(kvAvailable: bool, s: Stores, httpMethod: string, id: QueryId, readThrows: bool)
    : (r: StatusResponse)
    ensures httpMethod == "OPTIONS" ==> r == Preflight
    ensures httpMethod != "OPTIONS" && httpMethod != "GET" ==> r == MethodNotAllowed
    ensures httpMethod == "GET" && !(id.Single? && id.value != "") ==> r == MissingId
    ensures httpMethod == "GET" && id.Single? && id.value != "" ==>
      match Lookup(kvAvailable, s.kv, readThrows, s.memory, id.value)
      case None => r == NotFound(id.value)
      case Some(o) => r == Found(o)
  {
    if httpMethod == "OPTIONS" then Preflight
    else if httpMethod != "GET" then MethodNotAllowed
    else if !(id.Single? && id.value != "") then MissingId
    else match Lookup(kvAvailable, s.kv, readThrows, s.memory, id.value)
      case None => NotFound(id.value)
      case Some(o) => Found(o)
  }

  /** `order.steps.map(...)`: the step with that id takes the status. */
  function SetServerStep(steps: seq<ServerStep>, stepId: string, status: ServerStepStatus)
    : (r: seq<ServerStep>)
    ensures |r| == |steps|
    ensures forall i :: 0 <= i < |steps| ==>
      r[i] == if steps[i].id == stepId then steps[i].(status := status) else steps[i]
  {
    if steps == [] then []
    else
      var head := if steps[0].id == stepId then steps[0].(status := status) else steps[0];
      [head] + SetServerStep(steps[1..], stepId, status)
  }

  predicate AllCompleted(steps: seq<ServerStep>) {
    forall i :: 0 <= i < |steps| ==> steps[i].status == Completed
  }

  /** The record after a step update: only the matching steps change, and
      the status becomes 'shipped' exactly when every step is completed
      afterwards. */
  function UpdatedOrder(o: ServerOrder, stepId: string, status: ServerStepStatus): (u: ServerOrder)
    ensures u.steps == SetServerStep(o.steps, stepId, status)
    ensures AllCompleted(u.steps) ==> u.status == Shipped
    ensures !AllCompleted(u.steps) ==> u.status == o.status
    ensures u.(steps := o.steps, status := o.status) == o
  {
    var steps := SetServerStep(o.steps, stepId, status);
    if AllCompleted(steps) then o.(steps := steps, status := Shipped) else o.(steps := steps)
  }

  /** Completing the one step still open ships the order; any step left
      open keeps the order's status. */
  lemma CompletingLastStepShips(o: ServerOrder, stepId: string)
    requires exists i :: 0 <= i < |o.steps| && o.steps[i].id == stepId
    requires forall i :: 0 <= i < |o.steps| && o.steps[i].id != stepId ==> o.steps[i].status == Completed
    ensures UpdatedOrder(o, stepId, Completed).status == Shipped
    ensures forall s :: s != Completed ==> UpdatedOrder(o, stepId, s).status == o.status
  {
    var steps := SetServerStep(o.steps, stepId, Completed);
    assert AllCompleted(steps);
    forall s | s != Completed
      ensures UpdatedOrder(o, stepId, s).status == o.status
    {
      var i :| 0 <= i < |o.steps| && o.steps[i].id == stepId;
      assert SetServerStep(o.steps, stepId, s)[i].status == s;
    }
  }

  /** `updateOrderStatus`.  Returns None, writing nothing, when neither
      store has the order; otherwise persists the updated record to the
      key-value store, or to the in-memory map when the store is absent or
      the write throws.  A record taken from the in-memory map is the very
      object the map holds, so updating its steps and status updates the
      map's entry whichever store the record is then written to; a record
      read from the key-value store is a fresh copy. */
  method UpdateOrderStatus(backend: Backend, orderId: string, stepId: string, status: ServerStepStatus,
                           readThrows: bool, writeThrows: bool)
    returns (r: Option<ServerOrder>)
    modifies backend
    ensures var found := Lookup(backend.kvAvailable, old(backend.kv), readThrows, old(backend.memory), orderId);
      var fromKv := KvGet(backend.kvAvailable, old(backend.kv), readThrows, orderId).Some?;
      var kvWritten := backend.kvAvailable && !writeThrows;
      && (found.None? ==> r.None? && backend.State() == old(backend.State()))
      && (found.Some? ==>
            && r == Some(UpdatedOrder(found.value, stepId, status))
            && backend.kv == (if kvWritten
                              then old(backend.kv).(entries := old(backend.kv).entries[OrderKey(orderId) := r.value])
                              else old(backend.kv))
            && backend.memory == (if fromKv && kvWritten then old(backend.memory)
                                  else old(backend.memory)[orderId := r.value]))
  {
    var order := KvGet(backend.kvAvailable, backend.kv, readThrows, orderId);
    var fromMemory := false;
    if order.None? && orderId in backend.memory {
      order := Some(backend.memory[orderId]);
      fromMemory := true;
    }
    if order.None? {
      return None;
    }
    var updated := order.value.(steps := SetServerStep(order.value.steps, stepId, status));
    if AllCompleted(updated.steps) {
      updated := updated.(status := Shipped);
    }
    if fromMemory {
      // the assignments to `order.steps` and `order.status` land in the map
      backend.memory := backend.memory[orderId := updated];
    }
    if backend.kvAvailable && !writeThrows {
      backend.kv := backend.kv.(entries := backend.kv.entries[OrderKey(orderId) := updated]);
    } else {
      backend.memory := backend.memory[orderId := updated];
    }
    r := Some(updated);
  }

  /** A created order whose random id is new to the key-value store can be
      read back from the shared stores, unless it went only to the
      key-value store and the read throws. */
  lemma CreatedOrderIsFound(kvAvailable: bool, s: Stores, b: CreateOrderApi.CreateBody,
                            r: real, now: string, write: CreateOrderApi.KvWrite, readThrows: bool)
    requires 0.0 <= r < 1.0
    requires var (resp, _) := CreateOrderApi.CreateOrder(kvAvailable, s, "POST", b, r, now, write);
      resp.Created? && (kvAvailable ==> OrderKey(resp.orderId) !in s.kv.entries)
    requires !(kvAvailable && write == CreateOrderApi.WriteOk && readThrows)
    ensures var (resp, s') := CreateOrderApi.CreateOrder(kvAvailable, s, "POST", b, r, now, write);
      GetOrderStatus(kvAvailable, s', "GET", Single(resp.orderId), readThrows) == Found(resp.order)
  {
    var (resp, s') := CreateOrderApi.CreateOrder(kvAvailable, s, "POST", b, r, now, write);
    CreateOrderApi.StoreOrderPlacement(kvAvailable, s, resp.order, write);
    assert resp.orderId != "" by {
      assert resp.orderId[0] == 'S';
    }
  }

  /** As written, order-status.ts declares its own empty map instead of
      importing the one create-order.ts exports, so without a key-value
      store an order just created is answered with 404. */
  lemma CreatedOrderLostAsWritten(s: Stores, b: CreateOrderApi.CreateBody, r: real, now: string,
                                  write: CreateOrderApi.KvWrite, readThrows: bool)
    requires 0.0 <= r < 1.0
    requires var (resp, _) := CreateOrderApi.CreateOrder(false, s, "POST", b, r, now, write);
      resp.Created?
    ensures var (resp, s') := CreateOrderApi.CreateOrder(false, s, "POST", b, r, now, write);
      && GetOrderStatus(false, s', "GET", Single(resp.orderId), readThrows) == Found(resp.order)
      && GetOrderStatus(false, s'.(memory := map[]), "GET", Single(resp.orderId), readThrows)
         == NotFound(resp.orderId)
  {
    CreatedOrderIsFound(false, s, b, r, now, write, readThrows);
    var (resp, s') := CreateOrderApi.CreateOrder(false, s, "POST", b, r, now, write);
    assert resp.orderId != "" by {
      assert resp.orderId[0] == 'S';
    }
  }
}
