/**
 * The orders API of server/index.ts. The JSON file the handlers read and
 * rewrite is the `orders` field of an `OrderStore`; each handler is a method
 * and its HTTP answer is the method's result.
 */
module Server {
  import opened Types
  import opened Lists

  /** `orders.filter(o => o.orderStatus === s)`. */
  function WithStatus(orders: seq<Order>, s: OrderStatus): seq<Order> {
    Filter((o: Order) => o.orderStatus == s, orders)
  }

  function CountStatus(orders: seq<Order>, s: OrderStatus): nat {
    |WithStatus(orders, s)|
  }

  /** `getOrderStats`: `completed` counts the Delivered orders; On Hold has no counter. */
  function OrderStats(orders: seq<Order>): Stats {
    Stats(
      |orders|,
      CountStatus(orders, New),
      CountStatus(orders, Brewing),
      CountStatus(orders, Delivered),
      CountStatus(orders, Cancelled))
  }

  /** The positions of the stored orders whose status is `s`. */
  ghost function PositionsWithStatus(orders: seq<Order>, s: OrderStatus): set<int> {
    set i | 0 <= i < |orders| && orders[i].orderStatus == s
  }

  /** Each status count is the number of stored orders that have that status. */
  lemma {:induction false} CountStatusIsNumberOfPositions(orders: seq<Order>, s: OrderStatus)
    ensures CountStatus(orders, s) == |PositionsWithStatus(orders, s)|
    decreases |orders|
  {
    if orders != [] {
      var n := |orders| - 1;
      var init := orders[..n];
      assert orders == init + [orders[n]];
      CountStatusIsNumberOfPositions(init, s);
      if orders[n].orderStatus == s {
        assert PositionsWithStatus(orders, s) == PositionsWithStatus(init, s) + {n};
      } else {
        assert PositionsWithStatus(orders, s) == PositionsWithStatus(init, s);
      }
    }
  }

  /** Every order is counted under exactly one of the five statuses. */
  lemma {:induction false} StatusCountsPartition(orders: seq<Order>)
    ensures CountStatus(orders, New) + CountStatus(orders, Brewing) + CountStatus(orders, OnHold)
          + CountStatus(orders, Delivered) + CountStatus(orders, Cancelled) == |orders|
    decreases |orders|
  {
    if orders != [] {
      StatusCountsPartition(orders[..|orders| - 1]);
    }
  }

  /** The four counters never exceed the total; what they miss is exactly the On Hold orders. */
  lemma StatsMissOnlyOnHold(orders: seq<Order>)
    ensures var st := OrderStats(orders);
      && st.total == |orders|
      && st.newOrders + st.brewing + st.completed + st.cancelled <= st.total
      && st.total - (st.newOrders + st.brewing + st.completed + st.cancelled) == CountStatus(orders, OnHold)
  {
    StatusCountsPartition(orders);
  }

  /** `orders.filter(order => order.customerId === customerId)`. */
  function OrdersOfCustomer(orders: seq<Order>, customerId: string): (r: seq<Order>)
    ensures forall o :: o in r <==> o in orders && o.customerId == customerId
    ensures forall o :: multiset(r)[o] == if o.customerId == customerId then multiset(orders)[o] else 0
  {
    FilterCounts((o: Order) => o.customerId == customerId, orders);
    Filter((o: Order) => o.customerId == customerId, orders)
  }

  /** `orders.findIndex(o => o.id === id)`: the first position holding `id`, or -1. */
  function FindIndex(orders: seq<Order>, id: string): (i: int)
    ensures -1 <= i < |orders|
    ensures i >= 0 ==> orders[i].id == id
    ensures forall j :: 0 <= j < |orders| && (i == -1 || j < i) ==> orders[j].id != id
    decreases |orders|
  {
    if orders == [] then -1
    else if orders[0].id == id then 0
    else
      var k := FindIndex(orders[1..], id);
      if k == -1 then -1 else k + 1
  }

  /** `{ ...o, ...p }`: every field the patch carries replaces the order's. */
  function Merge(o: Order, p: OrderPatch): Order {
    Order(
      p.id.GetOr(o.id),
      p.customerId.GetOr(o.customerId),
      p.customerName.GetOr(o.customerName),
      p.drinkName.GetOr(o.drinkName),
      p.seatingLocation.GetOr(o.seatingLocation),
      if p.toppings.Some? then p.toppings else o.toppings,
      if p.specialInstructions.Some? then p.specialInstructions else o.specialInstructions,
      p.orderStatus.GetOr(o.orderStatus),
      p.timestamp.GetOr(o.timestamp),
      if p.rating.Some? then p.rating else o.rating,
      if p.feedbackComment.Some? then p.feedbackComment else o.feedbackComment,
      if p.feedbackTimestamp.Some? then p.feedbackTimestamp else o.feedbackTimestamp,
      if p.current.Some? then p.current else o.current)
  }

  const EmptyPatch := OrderPatch(None, None, None, None, None, None, None, None, None, None, None, None, None)

  /** Merging an empty body changes nothing; merging the same body twice is merging it once. */
  lemma MergeLaws(o: Order, p: OrderPatch)
    ensures Merge(o, EmptyPatch) == o
    ensures Merge(Merge(o, p), p) == Merge(o, p)
  {
  }

  /**
   * A status-only PATCH sets the status to the requested one, whatever the
   * order's current status (Delivered and Cancelled included), and touches
   * no other field, the timestamp among them: no transition is checked.
   */
  lemma StatusPatchSetsAnyStatus(o: Order, s: OrderStatus)
    ensures Merge(o, StatusPatch(s)) == o.(orderStatus := s)
  {
  }

  /** `{ ...req.body, id: uuidv4(), timestamp: new Date().toISOString() }`. */
  function NewOrder(body: OrderBody, freshId: string, now: Timestamp): (o: Order)
    ensures o.id == freshId && o.timestamp == now
    ensures o.customerId == body.customerId && o.customerName == body.customerName
    ensures o.drinkName == body.drinkName && o.seatingLocation == body.seatingLocation
    ensures o.toppings == body.toppings && o.specialInstructions == body.specialInstructions
    ensures o.orderStatus == body.orderStatus
    ensures o.rating.None? && o.feedbackComment.None? && o.feedbackTimestamp.None? && o.current.None?
  {
    Order(freshId, body.customerId, body.customerName, body.drinkName, body.seatingLocation,
          body.toppings, body.specialInstructions, body.orderStatus, now, None, None, None, None)
  }

  /** The answer of the PATCH handler. */
  datatype UpdateResponse = Updated(order: Order) | NotFound(error: string)

  const OrderNotFound := "Order not found"

  /** The orders document and its request handlers. */
  class OrderStore {
    var orders: seq<Order>

    constructor (initial: seq<Order>)
      ensures orders == initial
    {
      orders := initial;
    }

    /** GET /api/stats */
    method GetStats() returns (stats: Stats)
      ensures stats == OrderStats(orders)
    {
      stats := OrderStats(orders);
    }

    /** GET /api/orders */
    method GetAll() returns (all: seq<Order>)
      ensures all == orders
    {
      all := orders;
    }

    /** GET /api/orders/:customerId */
    method GetByCustomer(customerId: string) returns (mine: seq<Order>)
      ensures mine == OrdersOfCustomer(orders, customerId)
      ensures SubsequenceOf(mine, orders)
      ensures forall o :: o in mine <==> o in orders && o.customerId == customerId
    {
      mine := OrdersOfCustomer(orders, customerId);
      FilterIsSubsequence((o: Order) => o.customerId == customerId, orders);
    }

    /** POST /api/orders: appends one new order and answers with it. */
    method Create(body: OrderBody, freshId: string, now: Timestamp) returns (created: Order)
      modifies this
      ensures created == NewOrder(body, freshId, now)
      ensures orders == old(orders) + [created]
    {
      created := NewOrder(body, freshId, now);
      orders := orders + [created];
    }

    /** PATCH /api/orders/:orderId: merges the body over the first order with that id, or 404. */
    method Update(orderId: string, body: OrderPatch) returns (response: UpdateResponse)
      modifies this
      ensures var i := FindIndex(old(orders), orderId);
        if i == -1 then
          response == NotFound(OrderNotFound) && orders == old(orders)
        else
          && orders == old(orders)[i := Merge(old(orders)[i], body)]
          && response == Updated(orders[i])
    {
      var i := FindIndex(orders, orderId);
      if i == -1 {
        return NotFound(OrderNotFound);
      }
      orders := orders[i := Merge(orders[i], body)];
      response := Updated(orders[i]);
    }
  }
}
