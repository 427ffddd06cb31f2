/** The storefront's checkout and the simulated fulfillment that follows
    it (App.tsx).  Awaited collaborators (balance check, escrow creation,
    the order API) are parameters that say what they returned; their
    effects are recorded, in order, in `effects`. */
module AppCheckout {
  import opened Wrappers
  import opened Text
  import opened Types

  function InitialStep(id: string, title: string, description: string, icon: string): FulfillmentStep {
    FulfillmentStep(id, title, StepStatus.Pending, None, Some(description), Some(icon))
  }

  const INITIAL_STEPS: seq<FulfillmentStep> := [
    InitialStep("1", "Escrow Lock", "Solana USDC transaction confirmation.", "wallet"),
    InitialStep("2", "Fiat Off-Ramp", "Settling USDC to USD via Bridge.xyz.", "bridge"),
    InitialStep("3", "VCC Issuance", "Generating proxy card for checkout.", "card"),
    InitialStep("4", "Proxy Purchase", "Automated TikTok Shop execution.", "cart"),
    InitialStep("5", "Tracking Sync", "Finalizing carrier tracking.", "truck")
  ]

  const STEP_IDS: seq<string> := ["1", "2", "3", "4", "5"]

  // ---------------------------------------------------------------------
  // Pure list updates

  /** `o.steps.map(s => s.id === stepId ? { ...s, status } : s)`. */
  function SetStepStatus(steps: seq<FulfillmentStep>, stepId: string, status: StepStatus)
    : (r: seq<FulfillmentStep>)
    ensures |r| == |steps|
    ensures forall i :: 0 <= i < |steps| ==>
      r[i] == if steps[i].id == stepId then steps[i].(status := status) else steps[i]
  {
    if steps == [] then []
    else
      var head := if steps[0].id == stepId then steps[0].(status := status) else steps[0];
      [head] + SetStepStatus(steps[1..], stepId, status)
  }

  /** `updateStep`: the step with `stepId` of every order with `orderId`
      takes the new status; every other order, step and field stays. */
  function UpdateStep(orders: seq<Order>, orderId: string, stepId: string, status: StepStatus)
    : (r: seq<Order>)
    ensures |r| == |orders|
    ensures forall i :: 0 <= i < |orders| ==>
      r[i] == if orders[i].id == orderId
              then orders[i].(steps := SetStepStatus(orders[i].steps, stepId, status))
              else orders[i]
  {
    if orders == [] then []
    else
      var head := if orders[0].id == orderId
                  then orders[0].(steps := SetStepStatus(orders[0].steps, stepId, status))
                  else orders[0];
      [head] + UpdateStep(orders[1..], orderId, stepId, status)
  }

  /** `handleUpdateOrderStatus`: only the status of the orders with that
      id changes. */
  function UpdateOrderStatus(orders: seq<Order>, orderId: string, status: OrderStatus)
    : (r: seq<Order>)
    ensures |r| == |orders|
    ensures forall i :: 0 <= i < |orders| ==>
      r[i] == if orders[i].id == orderId then orders[i].(status := status) else orders[i]
  {
    if orders == [] then []
    else
      var head := if orders[0].id == orderId then orders[0].(status := status) else orders[0];
      [head] + UpdateOrderStatus(orders[1..], orderId, status)
  }

  // ---------------------------------------------------------------------
  // The fulfillment sequence

  /** The ten updates of `sequence()`: each step in turn becomes active,
      then complete. */
  const SIM_SEQUENCE: seq<(string, StepStatus)> :=
    seq(10, i requires 0 <= i < 10 => (STEP_IDS[i / 2], if i % 2 == 0 then Active else Complete))

  /** The steps after a list of updates, applied in order. */
  function ApplyUpdates(steps: seq<FulfillmentStep>, updates: seq<(string, StepStatus)>)
    : (r: seq<FulfillmentStep>)
    ensures |r| == |steps|
  {
    if updates == [] then steps
    else
      var last := updates[|updates| - 1];
      SetStepStatus(ApplyUpdates(steps, updates[..|updates| - 1]), last.0, last.1)
  }

  /** The status of step `i` after the first `j` updates. */
  function ExpectedStatus(i: nat, j: nat): StepStatus {
    if 2 * i + 2 <= j then Complete else if 2 * i + 1 <= j then Active else StepStatus.Pending
  }

  /** Step k+1 only leaves pending once steps 1..k are complete. */
  ghost predicate InOrder(steps: seq<FulfillmentStep>) {
    forall a, b :: 0 <= a < b < |steps| && steps[b].status != StepStatus.Pending ==>
      steps[a].status == Complete
  }

  /** Setting the status of step `STEP_IDS[m]` touches position m only. */
  lemma SetOneStep(steps: seq<FulfillmentStep>, m: nat, status: StepStatus)
    requires |steps| == 5 && m < 5
    requires forall i :: 0 <= i < 5 ==> steps[i].id == STEP_IDS[i]
    ensures forall i :: 0 <= i < 5 ==>
      SetStepStatus(steps, STEP_IDS[m], status)[i]
        == if i == m then steps[i].(status := status) else steps[i]
  {
  }

  /** The k-th update of the sequence. */
  lemma SimEntry(k: nat)
    requires k < 10
    ensures SIM_SEQUENCE[k] == (STEP_IDS[k / 2], if k % 2 == 0 then Active else Complete)
  {
  }

  /** Update j (counting from one) moves step (j - 1) / 2 on and leaves
      the others where they were. */
  lemma ExpectedStep(i: nat, j: nat)
    requires 0 < j
    ensures ExpectedStatus(i, j) ==
      if i == (j - 1) / 2 then (if (j - 1) % 2 == 0 then Active else Complete) else ExpectedStatus(i, j - 1)
  {
  }

  /** Applying one more update of a list. */
  lemma ApplyOneMore(steps: seq<FulfillmentStep>, updates: seq<(string, StepStatus)>, j: nat)
    requires 0 < j <= |updates|
    ensures ApplyUpdates(steps, updates[..j])
         == SetStepStatus(ApplyUpdates(steps, updates[..j - 1]), updates[j - 1].0, updates[j - 1].1)
  {
    assert updates[..j][..j - 1] == updates[..j - 1];
  }

  /** The sequence's update list: step k / 2 becomes active at even k and
      complete at odd k. */
  predicate IsSimSequence(updates: seq<(string, StepStatus)>) {
    |updates| == 10 &&
    forall k :: 0 <= k < 10 ==> updates[k] == (STEP_IDS[k / 2], if k % 2 == 0 then Active else Complete)
  }

  /** One more update keeps every step at its expected status. */
  lemma SimulationStep(init: seq<FulfillmentStep>, prev: seq<FulfillmentStep>, j: nat)
    requires |init| == 5 && |prev| == 5 && 0 < j <= 10
    requires forall i :: 0 <= i < 5 ==> init[i].id == STEP_IDS[i]
    requires forall i :: 0 <= i < 5 ==> prev[i] == init[i].(status := ExpectedStatus(i, j - 1))
    ensures var next := SetStepStatus(prev, STEP_IDS[(j - 1) / 2], if (j - 1) % 2 == 0 then Active else Complete);
      |next| == 5 && forall i :: 0 <= i < 5 ==> next[i] == init[i].(status := ExpectedStatus(i, j))
  {
    var m := (j - 1) / 2;
    var status := if (j - 1) % 2 == 0 then Active else Complete;
    SetOneStep(prev, m, status);
    forall i | 0 <= i < 5
      ensures ExpectedStatus(i, j) == if i == m then status else ExpectedStatus(i, j - 1)
    {
      ExpectedStep(i, j);
    }
  }

  /** The first j updates of the sequence, from five pending steps with
      the ids 1 to 5. */
  lemma {:induction false} SimulationPrefixFrom(init: seq<FulfillmentStep>, updates: seq<(string, StepStatus)>, j: nat)
    requires |init| == 5 && IsSimSequence(updates) && j <= 10
    requires forall i :: 0 <= i < 5 ==> init[i].id == STEP_IDS[i] && init[i].status == StepStatus.Pending
    ensures var steps := ApplyUpdates(init, updates[..j]);
      |steps| == 5 && forall i :: 0 <= i < 5 ==> steps[i] == init[i].(status := ExpectedStatus(i, j))
  {
    if j == 0 {
      assert updates[..0] == [];
    } else {
      SimulationPrefixFrom(init, updates, j - 1);
      ApplyOneMore(init, updates, j);
      SimulationStep(init, ApplyUpdates(init, updates[..j - 1]), j);
    }
  }

  lemma InitialStepsPending()
    ensures |INITIAL_STEPS| == 5
    ensures forall i :: 0 <= i < 5 ==> INITIAL_STEPS[i].id == STEP_IDS[i] && INITIAL_STEPS[i].status == StepStatus.Pending
  {
  }

  lemma SimulationPrefix(j: nat)
    requires j <= 10
    ensures var steps := ApplyUpdates(INITIAL_STEPS, SIM_SEQUENCE[..j]);
      forall i :: 0 <= i < 5 ==>
        steps[i] == INITIAL_STEPS[i].(status := ExpectedStatus(i, j))
  {
    InitialStepsPending();
    forall k | 0 <= k < 10
      ensures SIM_SEQUENCE[k] == (STEP_IDS[k / 2], if k % 2 == 0 then Active else Complete)
    {
      SimEntry(k);
    }
    SimulationPrefixFrom(INITIAL_STEPS, SIM_SEQUENCE, j);
  }

  /** Starting from the initial steps, every intermediate state of the
      sequence keeps the steps in order, and at the end all five are
      complete. */
  lemma SimulationRunsInOrder(j: nat)
    requires j <= 10
    ensures InOrder(ApplyUpdates(INITIAL_STEPS, SIM_SEQUENCE[..j]))
    ensures j == 10 ==> forall i :: 0 <= i < 5 ==>
      ApplyUpdates(INITIAL_STEPS, SIM_SEQUENCE)[i].status == Complete
  {
    SimulationPrefix(j);
    assert SIM_SEQUENCE[..10] == SIM_SEQUENCE;
  }

  const DIGITS36: string := "0123456789ABCDEFGHIJKLMNOPQRSTUVWXYZ"

  /** `n.toString(36).toUpperCase()`. */
  function Base36Upper(n: nat): (s: string)
    ensures |s| >= 1
  {
    if n < 36 then [DIGITS36[n]] else Base36Upper(n / 36) + [DIGITS36[n % 36]]
  }

  function TrackingNumber(now: nat): string {
    "TK" + Base36Upper(now)
  }

  // ---------------------------------------------------------------------
  // Checkout

  /** `(bridgedProduct?.price || 0) * 1.05`, in exact arithmetic. */
  function TotalAmount(product: Option<TikTokProduct>): (total: real)
    ensures product.None? || product.value.price == 0.0 ==> total == 0.0
    ensures product.Some? ==> total * 100.0 == product.value.price * 105.0
  {
    if product.None? then 0.0 else product.value.price * 105.0 / 100.0
  }

  /** `Math.floor(Math.random() * 9000) + 1000`. */
  function OrderNumber(r: real): (n: nat)
    requires 0.0 <= r < 1.0
    ensures 1000 <= n <= 9999
  {
    var k := (r * 9000.0).Floor;
    assert 0 <= k < 9000;
    k + 1000
  }

  function OrderId(isDemoMode: bool, r: real): (id: string)
    requires 0.0 <= r < 1.0
    ensures id == (if isDemoMode then "DEMO-" else "ST-") + NatToString(OrderNumber(r))
  {
    (if isDemoMode then "DEMO-" else "ST-") + NatToString(OrderNumber(r))
  }

  /** What the escrow step of checkout produced: a transaction hash, or
      the error text it reported (possibly empty). */
  datatype EscrowAttempt = Locked(txHash: Option<string>) | Failed(error: string)

  const ESCROW_FAILED := "Failed to create escrow"

  datatype CheckoutEffect =
    | BalanceChecked(amount: real)
    | EscrowRequested(orderId: string, amount: real)
    | OrderPosted(orderId: string)
    | OrderAdded(orderId: string)
    | ConfirmationEmailed(orderId: string, email: string)
    | FulfillmentStarted(orderId: string)
    | ErrorShown(message: string)

  datatype Checkout = Checkout(
    product: Option<TikTokProduct>,
    address: ShippingAddress,
    isDemoMode: bool,
    connected: bool,
    walletAddress: Option<string>,
    now: string)

  /** The order record checkout creates. */
  function NewOrder(c: Checkout, orderId: string, total: real, txHash: Option<string>): (o: Order)
    ensures o.id == orderId && o.status == Processing && o.steps == INITIAL_STEPS
    ensures o.totalUsdc == total && o.shippingAddress == c.address
    ensures o.isDemo == Some(c.isDemoMode) && o.trackingNumber.None? && o.carrier.None?
  {
    var name := if c.product.None? then "TikTok Product"
                else OrElse(c.product.value.title, OrElse(c.product.value.name.GetOr(""), "TikTok Product"));
    Order(orderId, name,
          if c.product.None? then "" else c.product.value.imageUrl,
          if c.product.None? || c.product.value.price == 0.0 then total else c.product.value.price,
          total, Processing, txHash.GetOr(""), c.address, c.address.email, c.now,
          INITIAL_STEPS, Some(c.isDemoMode), c.walletAddress, None, None)
  }

  /** `if (shippingAddress.email)`. */
  predicate EmailGiven(a: ShippingAddress) {
    a.email.Some? && a.email.value != ""
  }

  /** The effects of a checkout that places its order, in order: balance
      check, escrow, order API (not in demo mode), local save,
      confirmation e-mail (when an address was given), fulfillment. */
  function SuccessTrace(c: Checkout, orderId: string, total: real): (t: seq<CheckoutEffect>)
    ensures |t| >= 4 && t[0] == BalanceChecked(total) && t[1] == EscrowRequested(orderId, total)
    ensures t[|t| - 1] == FulfillmentStarted(orderId)
    ensures OrderPosted(orderId) in t <==> !c.isDemoMode
  {
    [BalanceChecked(total), EscrowRequested(orderId, total)] + PlacementTrace(c, orderId)
  }

  function PlacementTrace(c: Checkout, orderId: string): seq<CheckoutEffect> {
    (if c.isDemoMode then [] else [OrderPosted(orderId)])
    + [OrderAdded(orderId)]
    + (if EmailGiven(c.address) then [ConfirmationEmailed(orderId, c.address.email.value)] else [])
    + [FulfillmentStarted(orderId)]
  }

  /** The shipping details are filled in and, outside demo mode, a
      wallet is connected: the checks made before the balance is read. */
  predicate PassesGuards(c: Checkout) {
    c.address.fullName != "" && c.address.street != ""
    && (c.isDemoMode || (c.connected && c.walletAddress.Some?))
  }

  class App {
    var orders: seq<Order>
    var effects: seq<CheckoutEffect>
    var isProcessingTx: bool

    constructor (orders: seq<Order>)
      ensures this.orders == orders && effects == [] && !isProcessingTx
    {
      this.orders := orders;
      effects := [];
      isProcessingTx := false;
    }

    method HandleUpdateOrderStatus(orderId: string, status: OrderStatus)
      modifies this
      ensures orders == UpdateOrderStatus(old(orders), orderId, status)
      ensures effects == old(effects) && isProcessingTx == old(isProcessingTx)
    {
      orders := UpdateOrderStatus(orders, orderId, status);
    }

    /** `runFulfillmentSim`: the ten step updates in order, then the order
        is marked shipped with a TK tracking number and carrier USPS. */
    method RunFulfillmentSim(orderId: string, now: nat)
      modifies this
      ensures |orders| == |old(orders)|
      ensures forall i :: 0 <= i < |orders| ==>
        orders[i] == if old(orders)[i].id == orderId
                     then old(orders)[i].(steps := ApplyUpdates(old(orders)[i].steps, SIM_SEQUENCE),
                                          status := Shipped,
                                          trackingNumber := Some(TrackingNumber(now)),
                                          carrier := Some("USPS"))
                     else old(orders)[i]
      ensures effects == old(effects) && isProcessingTx == old(isProcessingTx)
    {
      var k := 0;
      while k < 10
        invariant 0 <= k <= 10
        invariant |orders| == |old(orders)|
        invariant effects == old(effects) && isProcessingTx == old(isProcessingTx)
        invariant forall i :: 0 <= i < |orders| ==>
          orders[i] == if old(orders)[i].id == orderId
                       then old(orders)[i].(steps := ApplyUpdates(old(orders)[i].steps, SIM_SEQUENCE[..k]))
                       else old(orders)[i]
      {
        assert SIM_SEQUENCE[..k + 1][..k] == SIM_SEQUENCE[..k];
        orders := UpdateStep(orders, orderId, SIM_SEQUENCE[k].0, SIM_SEQUENCE[k].1);
        k := k + 1;
      }
      assert SIM_SEQUENCE[..10] == SIM_SEQUENCE;
      var tracking := TrackingNumber(now);
      orders := seq(|orders|, i requires 0 <= i < |orders| reads this =>
        if orders[i].id == orderId
        then orders[i].(status := Shipped, trackingNumber := Some(tracking), carrier := Some("USPS"))
        else orders[i]);
    }

    /** The part of checkout after the escrow is locked: the order API
        (skipped in demo mode), the local save at the front of the list,
        the confirmation e-mail and the fulfillment start. */
    method PlaceOrder(c: Checkout, orderId: string, total: real, txHash: Option<string>)
      returns (placed: Option<Order>)
      modifies this
      ensures placed == Some(NewOrder(c, orderId, total, txHash))
      ensures orders == [placed.value] + old(orders)
      ensures effects == old(effects) + PlacementTrace(c, orderId)
      ensures isProcessingTx == old(isProcessingTx)
    {
      var order := NewOrder(c, orderId, total, txHash);
      if !c.isDemoMode {
        // The API's answer is only logged.
        effects := effects + [OrderPosted(orderId)];
      }
      orders := [order] + orders;
      effects := effects + [OrderAdded(orderId)];
      if EmailGiven(c.address) {
        effects := effects + [ConfirmationEmailed(orderId, c.address.email.value)];
      }
      effects := effects + [FulfillmentStarted(orderId)];
      placed := Some(order);
    }

    /** `handleFinalCheckout`.  The shipping and wallet guards stop before
        any balance check; an insufficient balance stops before any escrow
        request; an escrow that fails adds no order.  A successful checkout
        puts a new 'processing' order with the five initial steps at the
        front of the list and starts its fulfillment. */
    method HandleFinalCheckout(c: Checkout, balance: real, sufficient: bool, r: real, escrow: EscrowAttempt)
      returns (placed: Option<Order>)
      requires 0.0 <= r < 1.0
      modifies this
      ensures c.address.fullName == "" || c.address.street == "" ==>
        placed.None? && orders == old(orders) && effects == old(effects)
        && isProcessingTx == old(isProcessingTx)
      ensures c.address.fullName != "" && c.address.street != "" && !c.isDemoMode
              && (!c.connected || c.walletAddress.None?) ==>
        placed.None? && orders == old(orders) && effects == old(effects)
        && isProcessingTx == old(isProcessingTx)
      ensures isProcessingTx != old(isProcessingTx) ==> !isProcessingTx
      ensures |effects| >= |old(effects)| && effects[..|old(effects)|] == old(effects)
      ensures |effects| > |old(effects)| ==> effects[|old(effects)|] == BalanceChecked(TotalAmount(c.product))
      ensures !sufficient ==> placed.None? && orders == old(orders)
      ensures escrow.Failed? ==> placed.None? && orders == old(orders)
      ensures escrow.Failed? && |effects| > |old(effects)| && sufficient ==>
        effects[|effects| - 1] == ErrorShown(OrElse(escrow.error, ESCROW_FAILED)) && !isProcessingTx
      ensures placed.Some? <==> |effects| > |old(effects)| && sufficient && escrow.Locked?
      ensures PassesGuards(c) && !sufficient ==>
        && effects == old(effects) + [BalanceChecked(TotalAmount(c.product))]
        && isProcessingTx == old(isProcessingTx)
      ensures PassesGuards(c) && sufficient && escrow.Failed? ==>
        && effects == old(effects) + [BalanceChecked(TotalAmount(c.product)),
                                      EscrowRequested(OrderId(c.isDemoMode, r), TotalAmount(c.product)),
                                      ErrorShown(OrElse(escrow.error, ESCROW_FAILED))]
        && !isProcessingTx
      ensures placed.Some? ==>
        && placed.value == NewOrder(c, OrderId(c.isDemoMode, r), TotalAmount(c.product), escrow.txHash)
        && orders == [placed.value] + old(orders)
        && effects == old(effects) + SuccessTrace(c, placed.value.id, TotalAmount(c.product))
        && !isProcessingTx
    {
      if c.address.fullName == "" || c.address.street == "" {
        return None;
      }
      if !c.isDemoMode && (!c.connected || c.walletAddress.None?) {
        return None;
      }
      var total := TotalAmount(c.product);
      var start := effects;
      effects := effects + [BalanceChecked(total)];
      if !sufficient {
        return None;
      }
      isProcessingTx := true;
      var orderId := OrderId(c.isDemoMode, r);
      effects := effects + [EscrowRequested(orderId, total)];
      if escrow.Failed? {
        effects := effects + [ErrorShown(OrElse(escrow.error, ESCROW_FAILED))];
        isProcessingTx := false;
        return None;
      }
      var prefix := [BalanceChecked(total), EscrowRequested(orderId, total)];
      assert effects == start + prefix;
      placed := PlaceOrder(c, orderId, total, escrow.txHash);
      assert effects == (start + prefix) + PlacementTrace(c, orderId);
      assert effects == start + (prefix + PlacementTrace(c, orderId));
      isProcessingTx := false;
    }
  }
}
