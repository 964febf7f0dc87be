/**
 * The list update both order screens apply once `updateOrderStatus`
 * answers with an order (src/components/MyOrders.tsx and
 * src/components/BaristaView.tsx):
 * `orders.map(order => order.id === orderId ? updatedOrder : order)`.
 */
module OrderViews {
  import opened Types
  import Server

  function ReplaceById(orders: seq<Order>, id: string, updated: Order): (r: seq<Order>)
    ensures |r| == |orders|
    ensures forall i :: 0 <= i < |orders| && orders[i].id == id ==> r[i] == updated
    ensures forall i :: 0 <= i < |orders| && orders[i].id != id ==> r[i] == orders[i]
  {
    seq(|orders|, i requires 0 <= i < |orders| => if orders[i].id == id then updated else orders[i])
  }

  /** A list holding no order with the id is left as it is. */
  lemma ReplaceMissingIdKeepsList(orders: seq<Order>, id: string, updated: Order)
    requires forall i :: 0 <= i < |orders| ==> orders[i].id != id
    ensures ReplaceById(orders, id, updated) == orders
  {
  }

  /**
   * Applying the same answer a second time changes nothing more, whether or
   * not the answer keeps the id it was asked for.
   */
  lemma ReplaceByIdIdempotent(orders: seq<Order>, id: string, updated: Order)
    ensures ReplaceById(ReplaceById(orders, id, updated), id, updated) == ReplaceById(orders, id, updated)
  {
  }

  predicate UniqueIds(orders: seq<Order>) {
    forall i, j :: 0 <= i < j < |orders| ==> orders[i].id != orders[j].id
  }

  /**
   * A screen whose list equals the stored orders, all ids distinct, stays
   * equal to the store after a status change: the server rewrites the first
   * order with the id and the screen replaces every order with the id, which
   * then is that one order. With duplicate ids the two would differ.
   */
  lemma {:induction false} ScreenFollowsStore(orders: seq<Order>, id: string, s: OrderStatus)
    requires UniqueIds(orders)
    requires Server.FindIndex(orders, id) != -1
    ensures var i := Server.FindIndex(orders, id);
      var updated := Server.Merge(orders[i], StatusPatch(s));
      ReplaceById(orders, id, updated) == orders[i := updated]
  {
    var i := Server.FindIndex(orders, id);
    var updated := Server.Merge(orders[i], StatusPatch(s));
    forall j | 0 <= j < |orders|
      ensures ReplaceById(orders, id, updated)[j] == orders[i := updated][j]
    {
      if j != i {
        if j < i {
          assert orders[j].id != id;
        } else {
          assert orders[i].id != orders[j].id;
        }
      }
    }
  }
}
