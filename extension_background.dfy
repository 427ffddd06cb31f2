/** The browser extension's background worker (`extension/src/background.js`):
    a module-level product slot and the extension's local storage, which
    keeps the product the content script sent and a history of saved
    orders, newest first and at most fifty long. Products and orders are
    opaque JSON values here, the type parameters `P` and `O`. Each message
    is handled to completion before the next one; the storage callbacks'
    interleaving is not modelled. */
module ExtensionBackground {
  import opened Wrappers

  const HISTORY_LIMIT: nat := 50
  const PRODUCT_KEY := "currentProduct"
  const ORDERS_KEY := "orders"

  /** What storage holds under a key. */
  datatype Stored<P, O> = ProductValue(product: P) | OrdersValue(orders: seq<O>)

  datatype Message<P, O> =
    | OpenCheckout(product: P)
    | GetProduct
    | ClearProduct
    | SaveOrder(order: O)
    | GetOrders
    | Other(kind: string)

  /** What `sendResponse` is called with, if anything. */
  datatype Reply<P, O> = Success | ProductReply(product: Option<P>) | OrdersReply(orders: seq<O>) | NoReply

  /** `orders.unshift(order)` then, over fifty entries, `orders.pop()`. */
  function PushBounded<O>(history: seq<O>, order: O): (r: seq<O>)
    ensures |r| == if |history| + 1 > HISTORY_LIMIT then |history| else |history| + 1
    ensures r[0] == order
    ensures r[1..] == history[..|r| - 1]
  {
    var pushed := [order] + history;
    if |pushed| > HISTORY_LIMIT then pushed[..|pushed| - 1] else pushed
  }

  /** The history after saving `orders` one after another, starting from
      `history`. */
  function SaveAll<O>(history: seq<O>, orders: seq<O>): seq<O>
    decreases |orders|
  {
    if orders == [] then history
    else SaveAll(PushBounded(history, orders[0]), orders[1..])
  }

  function Reverse<O>(s: seq<O>): (r: seq<O>)
    ensures |r| == |s|
    ensures forall i :: 0 <= i < |s| ==> r[i] == s[|s| - 1 - i]
  {
    if s == [] then [] else Reverse(s[1..]) + [s[0]]
  }

  function Min(a: nat, b: nat): nat {
    if a <= b then a else b
  }

  /** Saving orders one by one into a history of at most fifty keeps the
      fifty newest, newest first. */
  lemma {:induction false} SaveAllKeepsNewest<O>(history: seq<O>, orders: seq<O>)
    requires |history| <= HISTORY_LIMIT
    ensures var all := Reverse(orders) + history;
      SaveAll(history, orders) == all[..Min(|all|, HISTORY_LIMIT)]
    decreases |orders|
  {
    if orders != [] {
      var next := PushBounded(history, orders[0]);
      SaveAllKeepsNewest(next, orders[1..]);
      var all := Reverse(orders) + history;
      var rest := Reverse(orders[1..]) + next;
      var n := Min(|all|, HISTORY_LIMIT);
      assert |rest| == |Reverse(orders[1..])| + |next|;
      assert Min(|rest|, HISTORY_LIMIT) == n;
      forall i | 0 <= i < n
        ensures rest[i] == all[i]
      {
        var k := |orders| - 1;
        if i < k {
          assert rest[i] == Reverse(orders[1..])[i] == orders[1..][k - 1 - i];
          assert all[i] == Reverse(orders)[i] == orders[k - i];
        } else if i == k {
          assert rest[i] == next[0] == orders[0];
          assert all[i] == Reverse(orders)[k] == orders[0];
        } else {
          assert rest[i] == next[i - k] == next[1..][i - k - 1] == history[i - k - 1];
          assert all[i] == history[i - |orders|];
        }
      }
      assert rest[..n] == all[..n];
    }
  }

  class Background<P, O> {
    /** The module-level `currentProduct`. */
    var currentProduct: Option<P>
    /** `chrome.storage.local`. */
    var storage: map<string, Stored<P, O>>

    /** What this worker ever writes: the product under its key and a
        bounded history under the orders key. */
    ghost predicate Valid()
      reads this
    {
      (PRODUCT_KEY in storage ==> storage[PRODUCT_KEY].ProductValue?) &&
      (ORDERS_KEY in storage ==> storage[ORDERS_KEY].OrdersValue? &&
                                 |storage[ORDERS_KEY].orders| <= HISTORY_LIMIT)
    }

    function StoredOrders(): (r: seq<O>)
      reads this
      ensures ORDERS_KEY !in storage ==> r == []
    {
      if ORDERS_KEY in storage && storage[ORDERS_KEY].OrdersValue? then storage[ORDERS_KEY].orders else []
    }

    constructor (storage: map<string, Stored<P, O>>)
      requires PRODUCT_KEY in storage ==> storage[PRODUCT_KEY].ProductValue?
      requires ORDERS_KEY in storage ==> storage[ORDERS_KEY].OrdersValue? &&
                                         |storage[ORDERS_KEY].orders| <= HISTORY_LIMIT
      ensures Valid()
      ensures currentProduct.None? && this.storage == storage
    {
      currentProduct := None;
      this.storage := storage;
    }

    /** The `onMessage` listener. */
    method OnMessage(message: Message<P, O>) returns (reply: Reply<P, O>)
      requires Valid()
      modifies this
      ensures Valid()
      ensures message.OpenCheckout? ==>
        currentProduct == Some(message.product) &&
        storage == old(storage)[PRODUCT_KEY := ProductValue(message.product)] && reply == Success
      ensures message.GetProduct? ==>
        currentProduct == old(currentProduct) && storage == old(storage) &&
        reply == ProductReply(if PRODUCT_KEY in storage then Some(storage[PRODUCT_KEY].product) else None)
      ensures message.ClearProduct? ==>
        currentProduct.None? && storage == old(storage) - {PRODUCT_KEY} && reply == Success
      ensures message.SaveOrder? ==>
        currentProduct == old(currentProduct) &&
        storage == old(storage)[ORDERS_KEY := OrdersValue(PushBounded(old(StoredOrders()), message.order))] &&
        reply == Success
      ensures message.GetOrders? ==>
        currentProduct == old(currentProduct) && storage == old(storage) && reply == OrdersReply(StoredOrders())
      ensures message.Other? ==>
        currentProduct == old(currentProduct) && storage == old(storage) && reply == NoReply
    {
      match message {
        case OpenCheckout(p) =>
          currentProduct := Some(p);
          storage := storage[PRODUCT_KEY := ProductValue(p)];
          reply := Success;
        case GetProduct =>
          reply := ProductReply(if PRODUCT_KEY in storage then Some(storage[PRODUCT_KEY].product) else None);
        case ClearProduct =>
          currentProduct := None;
          storage := storage - {PRODUCT_KEY};
          reply := Success;
        case SaveOrder(o) =>
          var orders := StoredOrders();
          orders := [o] + orders;
          if |orders| > HISTORY_LIMIT {
            orders := orders[..|orders| - 1];
          }
          storage := storage[ORDERS_KEY := OrdersValue(orders)];
          reply := Success;
        case GetOrders =>
          reply := OrdersReply(StoredOrders());
        case Other(_) =>
          reply := NoReply;
      }
    }
  }
}
