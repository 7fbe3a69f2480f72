/**
 * server/src/controllers/orderController.ts: creating an order through the
 * payment gateway, verifying the gateway's payment signature, and listing a
 * user's orders. Prices are whole rupees (`int`); the gateway call, the
 * clock and HMAC-SHA256 (RFC 2104) are parameters.
 */
module OrderController {
  import opened Options
  import opened Schemas

  type OrderId = nat

  /** An `Order` document. */
  datatype Order = Order(
    id: OrderId, user: nat, listing: string, quantity: int, totalAmount: int,
    gatewayOrderId: string, status: OrderStatus, createdAt: nat)

  /** The order the gateway is asked to create. */
  datatype GatewayRequest = GatewayRequest(amount: int, currency: string)

  datatype Body =
    | Message(text: string)
    | Checkout(orderId: string, amount: int, currency: string, dbOrderId: OrderId)
    | Verified(text: string, success: bool)

  datatype Reply = Reply(status: nat, body: Body)

  const Currency: string := "INR"
  /** Paise per rupee. */
  const PaisePerRupee: int := 100

  /** The order total in rupees. */
  function TotalAmount(price: int, quantity: int): (t: int)
    ensures quantity == 1 ==> t == price
    ensures quantity >= 0 && price >= 0 ==> t >= 0
  {
    price * quantity
  }

  /** The gateway amount: the total converted to paise, a whole multiple of 100. */
  function GatewayAmount(totalAmount: int): (a: int)
    ensures a % PaisePerRupee == 0 && a / PaisePerRupee == totalAmount
  {
    totalAmount * PaisePerRupee
  }

  /** The message the gateway signs: the gateway order id, a bar, the payment id. */
  function SignedPayload(gatewayOrderId: string, paymentId: string): (s: string)
    ensures |s| == |gatewayOrderId| + 1 + |paymentId|
    ensures s[|gatewayOrderId|] == '|'
  {
    gatewayOrderId + "|" + paymentId
  }

  /** Splits a payload at its first bar; `None` when there is none. */
  function SplitAtBar(s: string): (r: Option<(string, string)>)
    ensures r.None? <==> '|' !in s
    ensures r.Some? ==> '|' !in r.value.0 && s == r.value.0 + "|" + r.value.1
  {
    if s == [] then None
    else if s[0] == '|' then Some(([], s[1..]))
    else match SplitAtBar(s[1..])
      case None => None
      case Some(p) => Some(([s[0]] + p.0, p.1))
  }

  /**
   * A gateway order id without a bar is recovered, with the payment id, from the
   * signed payload: the payload determines the pair it was built from.
   */
  lemma {:induction false} SplitSignedPayload(gatewayOrderId: string, paymentId: string)
    requires '|' !in gatewayOrderId
    ensures SplitAtBar(SignedPayload(gatewayOrderId, paymentId)) == Some((gatewayOrderId, paymentId))
  {
    var s := SignedPayload(gatewayOrderId, paymentId);
    if gatewayOrderId == [] {
      assert s == ['|'] + paymentId;
    } else {
      SplitSignedPayload(gatewayOrderId[1..], paymentId);
      assert s[1..] == SignedPayload(gatewayOrderId[1..], paymentId);
      assert gatewayOrderId == [gatewayOrderId[0]] + gatewayOrderId[1..];
    }
  }

  /**
   * The signature check: the hex HMAC of the payload under the key secret
   * equals the one sent. For a bar-free order id, the signature is valid
   * exactly when it authenticates a payload that splits into this very pair.
   */
  function SignatureValid(hmac: (string, string) -> string, secret: string,
                          gatewayOrderId: string, paymentId: string, signature: string): (ok: bool)
    ensures '|' !in gatewayOrderId ==>
      (ok <==> exists payload :: SplitAtBar(payload) == Some((gatewayOrderId, paymentId)) && hmac(secret, payload) == signature)
  {
    var payload := SignedPayload(gatewayOrderId, paymentId);
    if '|' in gatewayOrderId then hmac(secret, payload) == signature
    else
      SplitSignedPayload(gatewayOrderId, paymentId);
      assert forall q :: SplitAtBar(q) == Some((gatewayOrderId, paymentId)) ==> q == payload;
      hmac(secret, payload) == signature
  }

  /** The outcome of a verification: `paid` exactly for a valid signature. */
  function VerifiedStatus(valid: bool): (s: OrderStatus)
    ensures s == Paid <==> valid
    ensures s == Failed <==> !valid
  {
    if valid then Paid else Failed
  }

  predicate NewestFirst(r: seq<Order>) {
    forall i, j :: 0 <= i < j < |r| ==> r[i].createdAt >= r[j].createdAt
  }

  predicate DistinctIds(r: seq<Order>) {
    forall i, j :: 0 <= i < j < |r| ==> r[i].id != r[j].id
  }

  /** Places `o` before the first order that is not newer than it. */
  function InsertNewestFirst(r: seq<Order>, o: Order): (res: seq<Order>)
    requires NewestFirst(r)
    requires DistinctIds(r) && forall x :: x in r ==> x.id != o.id
    ensures NewestFirst(res) && DistinctIds(res)
    ensures |res| == |r| + 1
    ensures forall x :: x in res <==> x in r || x == o
  {
    if r == [] || o.createdAt >= r[0].createdAt then [o] + r
    else
      var rest := InsertNewestFirst(r[1..], o);
      assert forall x :: x in r <==> x == r[0] || x in r[1..];
      assert forall k :: 0 <= k < |rest| ==> rest[k] in rest;
      assert forall k :: 0 <= k < |rest| ==> rest[k].createdAt <= r[0].createdAt && rest[k].id != r[0].id;
      [r[0]] + rest
  }

  /** The `Order` and `Listing` collections and the gateway's request log. */
  class OrderStore {
    /** Listing id to price in rupees. */
    var listings: map<string, int>
    var orders: map<OrderId, Order>
    var nextId: OrderId
    var gatewayRequests: seq<GatewayRequest>

    ghost predicate Valid()
      reads this
    {
      forall id :: id in orders ==> id < nextId && orders[id].id == id
    }

    constructor (listings: map<string, int>)
      ensures Valid() && this.listings == listings && orders == map[] && nextId == 0 && gatewayRequests == []
    {
      this.listings := listings;
      orders := map[];
      nextId := 0;
      gatewayRequests := [];
    }

    /**
     * `createOrder`: an unknown listing gives 404 with no gateway call and no
     * order; a rejected gateway call (`gatewayId == None`) gives 500 with no
     * order; otherwise a pending order with the price times quantity is stored
     * and the gateway was asked for that total in paise.
     */
    method CreateOrder(userId: nat, listingId: string, quantity: int, gatewayId: Option<string>, now: nat)
      returns (reply: Reply)
      requires Valid()
      modifies this
      ensures Valid() && listings == old(listings)
      ensures listingId !in listings ==>
        (reply == Reply(404, Message("Listing not found"))
         && orders == old(orders) && gatewayRequests == old(gatewayRequests))
      ensures listingId in listings ==>
        gatewayRequests == old(gatewayRequests)
          + [GatewayRequest(GatewayAmount(TotalAmount(listings[listingId], quantity)), Currency)]
      ensures listingId in listings && gatewayId.None? ==>
        reply == Reply(500, Message("Could not create order")) && orders == old(orders)
      ensures listingId in listings && gatewayId.Some? ==>
        var total := TotalAmount(listings[listingId], quantity);
        var o := Order(old(nextId), userId, listingId, quantity, total, gatewayId.value, DefaultOrderStatus, now);
        (old(nextId) !in old(orders) && orders == old(orders)[old(nextId) := o]
         && reply == Reply(200, Checkout(gatewayId.value, GatewayAmount(total), Currency, old(nextId))))
    {
      if listingId !in listings {
        return Reply(404, Message("Listing not found"));
      }
      var total := TotalAmount(listings[listingId], quantity);
      gatewayRequests := gatewayRequests + [GatewayRequest(GatewayAmount(total), Currency)];
      if gatewayId.None? {
        return Reply(500, Message("Could not create order"));
      }
      var id := nextId;
      orders := orders[id := Order(id, userId, listingId, quantity, total, gatewayId.value, DefaultOrderStatus, now)];
      nextId := nextId + 1;
      reply := Reply(200, Checkout(gatewayId.value, GatewayAmount(total), Currency, id));
    }

    /**
     * `verifyPayment`: the order named by `dbOrderId` (if any) becomes `paid`
     * for a valid signature and `failed` otherwise, whatever its status was;
     * no other order changes.
     */
    method VerifyPayment(gatewayOrderId: string, paymentId: string, signature: string, dbOrderId: OrderId,
                         hmac: (string, string) -> string, secret: string)
      returns (reply: Reply)
      requires Valid()
      modifies this
      ensures Valid() && listings == old(listings) && nextId == old(nextId)
      ensures gatewayRequests == old(gatewayRequests)
      ensures var valid := SignatureValid(hmac, secret, gatewayOrderId, paymentId, signature);
        && (valid ==> reply == Reply(200, Verified("Payment verified successfully", true)))
        && (!valid ==> reply == Reply(400, Message("Payment verification failed")))
        && orders == if dbOrderId in old(orders)
                     then old(orders)[dbOrderId := old(orders)[dbOrderId].(status := VerifiedStatus(valid))]
                     else old(orders)
    {
      var expected := hmac(secret, SignedPayload(gatewayOrderId, paymentId));
      var valid := expected == signature;
      if dbOrderId in orders {
        orders := orders[dbOrderId := orders[dbOrderId].(status := VerifiedStatus(valid))];
      }
      if !valid {
        return Reply(400, Message("Payment verification failed"));
      }
      reply := Reply(200, Verified("Payment verified successfully", true));
    }

    /** `getUserOrders`: exactly the caller's orders, each once, newest first. */
    method GetUserOrders(userId: nat) returns (result: seq<Order>)
      requires Valid()
      ensures NewestFirst(result) && DistinctIds(result)
      ensures forall x :: x in result <==> x.id in orders && orders[x.id] == x && x.user == userId
    {
      result := [];
      var todo := orders.Keys;
      while todo != {}
        invariant todo <= orders.Keys
        invariant NewestFirst(result) && DistinctIds(result)
        invariant forall x :: x in result <==>
          x.id in orders && x.id !in todo && orders[x.id] == x && x.user == userId
        decreases todo
      {
        var id :| id in todo;
        todo := todo - {id};
        if orders[id].user == userId {
          result := InsertNewestFirst(result, orders[id]);
        }
      }
    }
  }

  /**
   * Verification does not look at the current status: a paid order whose
   * verification is replayed with a bad signature ends up failed.
   */
  method ReplayFailsPaidOrder(hmac: (string, string) -> string, secret: string, gatewayOrderId: string,
                              paymentId: string, badSignature: string)
    returns (first: OrderStatus, second: OrderStatus)
    requires badSignature != hmac(secret, SignedPayload(gatewayOrderId, paymentId))
    ensures first == Paid && second == Failed
  {
    var store := new OrderStore(map["L1" := 250]);
    var r := store.CreateOrder(1, "L1", 2, Some(gatewayOrderId), 0);
    var good := hmac(secret, SignedPayload(gatewayOrderId, paymentId));
    r := store.VerifyPayment(gatewayOrderId, paymentId, good, 0, hmac, secret);
    first := store.orders[0].status;
    r := store.VerifyPayment(gatewayOrderId, paymentId, badSignature, 0, hmac, secret);
    second := store.orders[0].status;
  }
}
