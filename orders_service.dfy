/**
 * The browser's client for the orders API (src/services/ordersService.ts):
 * the `cust_…` identity kept in local storage, the payload of `saveOrder`,
 * the name filter of `getUserOrders`, and what each call gives back when the
 * request fails. The HTTP answer of each call is a parameter.
 */
module OrdersService {
  import opened Types
  import opened Text
  import opened Lists
  import Server

  const CustomerIdKey := "customerId"
  const CustomerIdPrefix := "cust_"

  /** `localStorage.getItem('customerId')`, when it passes the `!customerId` test. */
  function StoredCustomerId(items: map<string, string>): (r: Option<string>)
    ensures r.Some? <==> CustomerIdKey in items && items[CustomerIdKey] != ""
    ensures r.Some? ==> r.value == items[CustomerIdKey]
  {
    if CustomerIdKey in items && items[CustomerIdKey] != "" then Some(items[CustomerIdKey]) else None
  }

  /**
   * `cust_${Date.now()}_${random}`: `now` is the clock reading and
   * `randomPart` the base-36 digits taken from `Math.random()`.
   */
  function GeneratedCustomerId(now: nat, randomPart: string): (id: string)
    ensures StartsWith(id, CustomerIdPrefix) && |id| > |CustomerIdPrefix|
  {
    CustomerIdPrefix + NatToString(now) + "_" + randomPart
  }

  /** The id `getCustomerId` returns, with the storage contents it leaves. */
  datatype Identity = Identity(id: string, items: map<string, string>)

  function LookupOrCreate(items: map<string, string>, now: nat, randomPart: string): (r: Identity)
    ensures r.id != ""
    ensures StoredCustomerId(items).Some? ==> r == Identity(items[CustomerIdKey], items)
    ensures StoredCustomerId(items).None? ==>
      && StartsWith(r.id, CustomerIdPrefix)
      && r.items == items[CustomerIdKey := r.id]
  {
    match StoredCustomerId(items)
    case Some(id) => Identity(id, items)
    case None =>
      var id := GeneratedCustomerId(now, randomPart);
      Identity(id, items[CustomerIdKey := id])
  }

  /** A second call finds the id the first one returned, returns it again, and writes nothing. */
  lemma LookupOrCreateIdempotent(items: map<string, string>, now: nat, randomPart: string,
                                 laterNow: nat, laterRandomPart: string)
    ensures var first := LookupOrCreate(items, now, randomPart);
      LookupOrCreate(first.items, laterNow, laterRandomPart) == first
  {
    var first := LookupOrCreate(items, now, randomPart);
    assert first.items[CustomerIdKey] == first.id;
  }

  /** The browser's local storage. */
  class LocalStorage {
    var items: map<string, string>

    constructor (initial: map<string, string>)
      ensures items == initial
    {
      items := initial;
    }

    /** `getCustomerId`: read the stored id, or generate and store one. */
    method GetCustomerId(now: nat, randomPart: string) returns (id: string)
      modifies this
      ensures Identity(id, items) == LookupOrCreate(old(items), now, randomPart)
    {
      var stored := if CustomerIdKey in items then Some(items[CustomerIdKey]) else None;
      if stored.None? || stored.value == "" {
        id := GeneratedCustomerId(now, randomPart);
        items := items[CustomerIdKey := id];
      } else {
        id := stored.value;
      }
    }
  }

  /** `{ ...orderData, customerId: getCustomerId() }`. */
  function SavePayload(draft: OrderDraft, customerId: string): (body: OrderBody)
    ensures body.customerId == customerId
    ensures body.customerName == draft.customerName && body.drinkName == draft.drinkName
    ensures body.seatingLocation == draft.seatingLocation && body.orderStatus == draft.orderStatus
    ensures body.toppings == Some(draft.toppings)
    ensures body.specialInstructions == Some(draft.specialInstructions)
    ensures body.timestamp == Some(draft.timestamp) && body.id.None?
  {
    OrderBody(None, customerId, draft.customerName, draft.drinkName, draft.seatingLocation,
              Some(draft.toppings), Some(draft.specialInstructions), draft.orderStatus, Some(draft.timestamp))
  }

  /** `saveOrder` rethrows a failed request instead of returning. */
  function SaveOrderResult(reply: Reply<Order>): (r: Outcome<Order>)
    ensures r.Threw? <==> reply.Failed?
    ensures reply.Received? ==> r == Returned(reply.data)
    ensures reply.Failed? ==> r == Threw(reply.reason)
  {
    match reply
    case Received(o) => Returned(o)
    case Failed(e) => Threw(e)
  }

  /** `getOrders`: the answer, or `[]` when the request fails. */
  function GetOrdersResult(reply: Reply<seq<Order>>): (r: seq<Order>)
    ensures reply.Failed? ==> r == []
    ensures reply.Received? ==> r == reply.data
  {
    match reply
    case Received(orders) => orders
    case Failed(_) => []
  }

  /** `order.customerName.toLowerCase() === customerName.toLowerCase()`. */
  function OrdersNamed(orders: seq<Order>, customerName: string): (r: seq<Order>)
    ensures forall o :: o in r <==> o in orders && EqualsIgnoringCase(o.customerName, customerName)
    ensures forall o :: multiset(r)[o] ==
                        (if EqualsIgnoringCase(o.customerName, customerName) then multiset(orders)[o] else 0)
  {
    FilterCounts((o: Order) => EqualsIgnoringCase(o.customerName, customerName), orders);
    Filter((o: Order) => EqualsIgnoringCase(o.customerName, customerName), orders)
  }

  /** `getUserOrders`: the answer's orders with the given name, ignoring case, or `[]` on failure. */
  function GetUserOrdersResult(reply: Reply<seq<Order>>, customerName: string): (r: seq<Order>)
    ensures reply.Failed? ==> r == []
    ensures reply.Received? ==> SubsequenceOf(r, reply.data)
    ensures forall o :: o in r <==>
      reply.Received? && o in reply.data && EqualsIgnoringCase(o.customerName, customerName)
    ensures reply.Received? ==>
      forall o :: multiset(r)[o] ==
                  (if EqualsIgnoringCase(o.customerName, customerName) then multiset(reply.data)[o] else 0)
  {
    match reply
    case Received(orders) =>
      FilterIsSubsequence((o: Order) => EqualsIgnoringCase(o.customerName, customerName), orders);
      OrdersNamed(orders, customerName)
    case Failed(_) => []
  }

  /** `updateOrderStatus`: the updated order, or `null` when the request fails. */
  function UpdateOrderStatusResult(reply: Reply<Order>): (r: Option<Order>)
    ensures r.None? <==> reply.Failed?
    ensures reply.Received? ==> r == Some(reply.data)
  {
    match reply
    case Received(o) => Some(o)
    case Failed(_) => None
  }

  /** `getOrderStats`: the answer, or all counters zero when the request fails. */
  function StatsResult(reply: Reply<Stats>): (r: Stats)
    ensures reply.Failed? ==> r == ZeroStats
    ensures reply.Received? ==> r == reply.data
  {
    match reply
    case Received(st) => st
    case Failed(_) => ZeroStats
  }

  /** How the PATCH handler's answer reaches the client: a 404 makes the request fail. */
  function PatchReply(response: Server.UpdateResponse): (r: Reply<Order>)
    ensures response.Updated? ==> r == Received(response.order)
    ensures response.NotFound? ==> r == Failed(response.error)
  {
    match response
    case Updated(o) => Received(o)
    case NotFound(e) => Failed(e)
  }

  /**
   * Asking the server to change the status of an id it does not hold gives
   * `null`; asking for one it holds gives that order with the requested
   * status, whatever its status was.
   */
  lemma UpdateOrderStatusEndToEnd(orders: seq<Order>, orderId: string, s: OrderStatus)
    ensures var i := Server.FindIndex(orders, orderId);
      var result := if i == -1 then UpdateOrderStatusResult(PatchReply(Server.NotFound(Server.OrderNotFound)))
                    else UpdateOrderStatusResult(PatchReply(Server.Updated(Server.Merge(orders[i], StatusPatch(s)))));
      && (i == -1 <==> result.None?)
      && (i != -1 ==> result == Some(orders[i].(orderStatus := s)) && result.value.id == orderId)
  {
    var i := Server.FindIndex(orders, orderId);
    if i != -1 {
      Server.StatusPatchSetsAnyStatus(orders[i], s);
    }
  }

  /** `saveOrder`: post the draft under this browser's id; rethrow a failure. */
  method SaveOrder(storage: LocalStorage, draft: OrderDraft, now: nat, randomPart: string, reply: Reply<Order>)
    returns (payload: OrderBody, outcome: Outcome<Order>)
    modifies storage
    ensures var identity := LookupOrCreate(old(storage.items), now, randomPart);
      && storage.items == identity.items
      && payload == SavePayload(draft, identity.id)
    ensures outcome == SaveOrderResult(reply)
  {
    var customerId := storage.GetCustomerId(now, randomPart);
    payload := SavePayload(draft, customerId);
    outcome := SaveOrderResult(reply);
  }

  /** `getUserOrders`: ask for this browser's orders, then keep those with the name. */
  method GetUserOrders(storage: LocalStorage, customerName: string, now: nat, randomPart: string,
                       reply: Reply<seq<Order>>)
    returns (requestedId: string, mine: seq<Order>)
    modifies storage
    ensures Identity(requestedId, storage.items) == LookupOrCreate(old(storage.items), now, randomPart)
    ensures mine == GetUserOrdersResult(reply, customerName)
  {
    requestedId := storage.GetCustomerId(now, randomPart);
    mine := GetUserOrdersResult(reply, customerName);
  }
}
