/** The order-creation endpoint (api/create-order.ts): a chain of request
    guards, then a 'paid' order record written to the key-value store or,
    failing that, to the in-memory map. */
module CreateOrderApi {
  import opened Wrappers
  import opened Text
  import opened ServerStore
  import AppCheckout

  /** The request body; a missing string is "", a missing amount 0. */
  datatype CreateBody = CreateBody(
    txHash: string,
    escrowPda: string,
    buyerPubkey: string,
    product: Option<OrderProduct>,
    totalUsdc: real,
    shippingAddress: Option<ServerAddress>)

  datatype CreateResponse =
    | Preflight
    | MethodNotAllowed
    | MissingFields
    | InvalidAddress
    | Created(orderId: string, order: ServerOrder)

  function CreateStatusCode(r: CreateResponse): nat {
    match r
    case Preflight => 200
    case MethodNotAllowed => 405
    case MissingFields => 400
    case InvalidAddress => 400
    case Created(_, _) => 201
  }

  /** How the key-value writes went: both succeeded, `kv.set` threw, or
      `kv.set` succeeded and `kv.lpush` threw. */
  datatype KvWrite = WriteOk | SetThrows | PushThrows

  predicate HasRequiredFields(b: CreateBody) {
    b.txHash != "" && b.buyerPubkey != "" && b.product.Some? && b.totalUsdc != 0.0
    && b.shippingAddress.Some?
  }

  predicate ValidAddress(a: ServerAddress) {
    a.fullName != "" && a.street != "" && a.city != ""
  }

  /** The record the endpoint creates for a validated body. */
  function NewServerOrder(b: CreateBody, orderId: string, now: string): ServerOrder
    requires HasRequiredFields(b)
  {
    ServerOrder(orderId, [LineItem(b.product.value, 1)], b.totalUsdc, Paid, b.txHash,
                b.escrowPda,
                b.buyerPubkey, b.shippingAddress.value, now, SERVER_INITIAL_STEPS)
  }

  /** Where a new order is stored. */
  function StoreOrder(kvAvailable: bool, s: Stores, o: ServerOrder, write: KvWrite): Stores {
    if !kvAvailable then s.(memory := s.memory[o.id := o])
    else match write
      case WriteOk => s.(kv := KvData(s.kv.entries[OrderKey(o.id) := o], [o.id] + s.kv.list))
      case SetThrows => s.(memory := s.memory[o.id := o])
      case PushThrows => Stores(s.kv.(entries := s.kv.entries[OrderKey(o.id) := o]), s.memory[o.id := o])
  }

  /** The handler, as a function of the stores before the request. `r` is
      the `Math.random()` draw, `now` the ISO timestamp. */
  function CreateOrder(kvAvailable: bool, s: Stores, httpMethod: string, b: CreateBody,
                       r: real, now: string, write: KvWrite): (CreateResponse, Stores)
    requires 0.0 <= r < 1.0
  {
    if httpMethod == "OPTIONS" then (Preflight, s)
    else if httpMethod != "POST" then (MethodNotAllowed, s)
    else if !HasRequiredFields(b) then (MissingFields, s)
    else if !ValidAddress(b.shippingAddress.value) then (InvalidAddress, s)
    else
      var orderId := "ST-" + NatToString(AppCheckout.OrderNumber(r));
      var o := NewServerOrder(b, orderId, now);
      (Created(orderId, o), StoreOrder(kvAvailable, s, o, write))
  }

  /** Every rejected request leaves both stores unchanged, and each guard
      answers with its own status code. */
  lemma CreateOrderGuards(kvAvailable: bool, s: Stores, httpMethod: string, b: CreateBody,
                          r: real, now: string, write: KvWrite)
    requires 0.0 <= r < 1.0
    ensures var (resp, s') := CreateOrder(kvAvailable, s, httpMethod, b, r, now, write);
      && (!resp.Created? ==> s' == s)
      && (httpMethod == "OPTIONS" <==> CreateStatusCode(resp) == 200)
      && (httpMethod != "OPTIONS" && httpMethod != "POST" <==> CreateStatusCode(resp) == 405)
      && (CreateStatusCode(resp) == 400 <==>
            httpMethod == "POST" && !(HasRequiredFields(b) && ValidAddress(b.shippingAddress.value)))
      && (resp.Created? <==> httpMethod == "POST" && HasRequiredFields(b) && ValidAddress(b.shippingAddress.value))
  {
  }

  /** A created order is 'paid', holds the product once, has fresh pending
      steps, an `ST-NNNN` id and the response reports that id. */
  lemma CreatedOrderShape(kvAvailable: bool, s: Stores, httpMethod: string, b: CreateBody,
                          r: real, now: string, write: KvWrite)
    requires 0.0 <= r < 1.0
    ensures var (resp, _) := CreateOrder(kvAvailable, s, httpMethod, b, r, now, write);
      resp.Created? ==>
        && resp.orderId == resp.order.id
        && CreateStatusCode(resp) == 201
        && resp.order.status == Paid
        && resp.order.products == [LineItem(b.product.value, 1)]
        && resp.order.escrowPda == b.escrowPda
        && resp.order.steps == SERVER_INITIAL_STEPS
        && (forall i :: 0 <= i < |resp.order.steps| ==> resp.order.steps[i].status == ServerStepStatus.Pending)
        && exists n :: 1000 <= n <= 9999 && resp.orderId == "ST-" + NatToString(n)
  {
  }

  /** Where the record lands: the key-value store on a clean write (its id
      pushed onto the index), the in-memory map when the store is absent or
      `set` throws, and both when only `lpush` throws. */
  lemma StoreOrderPlacement(kvAvailable: bool, s: Stores, o: ServerOrder, write: KvWrite)
    ensures var s' := StoreOrder(kvAvailable, s, o, write);
      && (kvAvailable && write != SetThrows ==>
            s'.kv.entries == s.kv.entries[OrderKey(o.id) := o])
      && (kvAvailable && write == WriteOk ==> s'.kv.list == [o.id] + s.kv.list && s'.memory == s.memory)
      && (!kvAvailable || write != WriteOk ==>
            s'.memory == s.memory[o.id := o] && s'.kv.list == s.kv.list)
      && (!kvAvailable || write == SetThrows ==> s'.kv == s.kv)
  {
  }

  /** The endpoint's state, and the handler run against it. */
  method HandleCreateOrder(backend: Backend, httpMethod: string, b: CreateBody,
                           r: real, now: string, write: KvWrite)
    returns (resp: CreateResponse)
    requires 0.0 <= r < 1.0
    modifies backend
    ensures (resp, backend.State())
            == CreateOrder(backend.kvAvailable, old(backend.State()), httpMethod, b, r, now, write)
  {
    if httpMethod == "OPTIONS" {
      return Preflight;
    }
    if httpMethod != "POST" {
      return MethodNotAllowed;
    }
    if !HasRequiredFields(b) {
      return MissingFields;
    }
    if !ValidAddress(b.shippingAddress.value) {
      return InvalidAddress;
    }
    var orderId := "ST-" + NatToString(AppCheckout.OrderNumber(r));
    var order := NewServerOrder(b, orderId, now);
    if backend.kvAvailable {
      if write == SetThrows {
        backend.memory := backend.memory[orderId := order];
      } else {
        backend.kv := backend.kv.(entries := backend.kv.entries[OrderKey(orderId) := order]);
        if write == PushThrows {
          backend.memory := backend.memory[orderId := order];
        } else {
          backend.kv := backend.kv.(list := [orderId] + backend.kv.list);
        }
      }
    } else {
      backend.memory := backend.memory[orderId := order];
    }
    resp := Created(orderId, order);
  }
}
