/**
 * The staff dashboard (src/components/BaristaView.tsx): orders grouped into
 * status sections, the counters, the order details dialog and its status
 * buttons.
 */
module BaristaView {
  import opened Types
  import opened Lists
  import Server
  import OrdersService
  import OrderViews

  /** `groups` holds, under each status with orders, exactly those orders in list order, and nothing else. */
  ghost predicate GroupsOf(orders: seq<Order>, groups: map<OrderStatus, seq<Order>>) {
    forall s :: (s in groups <==> Server.WithStatus(orders, s) != [])
             && (s in groups ==> groups[s] == Server.WithStatus(orders, s))
  }

  /** The `groupedOrders` reduce: create a status's group on its first order, then push. */
  method GroupByStatus(orders: seq<Order>) returns (groups: map<OrderStatus, seq<Order>>)
    ensures GroupsOf(orders, groups)
  {
    groups := map[];
    for k := 0 to |orders|
      invariant GroupsOf(orders[..k], groups)
    {
      var order := orders[k];
      assert orders[..k + 1] == orders[..k] + [order];
      forall s ensures Server.WithStatus(orders[..k + 1], s)
                       == Server.WithStatus(orders[..k], s) + (if order.orderStatus == s then [order] else [])
      {
        assert orders[..k + 1][..k] == orders[..k];
      }
      var status := order.orderStatus;
      if status !in groups {
        groups := groups[status := []];
      }
      groups := groups[status := groups[status] + [order]];
    }
    assert orders[..|orders|] == orders;
  }

  /** The sections rendered, in this order; there is none for Cancelled. */
  const DisplayedStatuses := [New, Brewing, OnHold, Delivered]

  /** `groupedOrders[status]?.map(...)`: a status without a group shows an empty section. */
  function Section(groups: map<OrderStatus, seq<Order>>, s: OrderStatus): seq<Order> {
    if s in groups then groups[s] else []
  }

  /** The cards of each rendered section. */
  function Board(groups: map<OrderStatus, seq<Order>>): (board: seq<seq<Order>>)
    ensures |board| == |DisplayedStatuses|
    ensures forall k :: 0 <= k < |board| ==> board[k] == Section(groups, DisplayedStatuses[k])
  {
    seq(|DisplayedStatuses|, k requires 0 <= k < |DisplayedStatuses| => Section(groups, DisplayedStatuses[k]))
  }

  /** Each section lists exactly the orders with its status, in list order. */
  lemma SectionIsStatusFilter(orders: seq<Order>, groups: map<OrderStatus, seq<Order>>, s: OrderStatus)
    requires GroupsOf(orders, groups)
    ensures Section(groups, s) == Server.WithStatus(orders, s)
  {
  }

  /**
   * Every order but a Cancelled one is shown, in the section of its own
   * status and in no other; a Cancelled order is shown nowhere.
   */
  lemma BoardShowsAllButCancelled(orders: seq<Order>, groups: map<OrderStatus, seq<Order>>, o: Order, k: nat)
    requires GroupsOf(orders, groups) && o in orders && k < |DisplayedStatuses|
    ensures o in Board(groups)[k] <==> o.orderStatus == DisplayedStatuses[k]
    ensures o.orderStatus == Cancelled ==> o !in Board(groups)[k]
  {
    SectionIsStatusFilter(orders, groups, DisplayedStatuses[k]);
  }

  /** The five groups together hold every order once. */
  lemma GroupSizesSumToOrders(orders: seq<Order>, groups: map<OrderStatus, seq<Order>>)
    requires GroupsOf(orders, groups)
    ensures |Section(groups, New)| + |Section(groups, Brewing)| + |Section(groups, OnHold)|
          + |Section(groups, Delivered)| + |Section(groups, Cancelled)| == |orders|
  {
    Server.StatusCountsPartition(orders);
  }

  /** The status buttons of the details dialog, the same for every order. */
  const StaffStatusButtons := [Brewing, OnHold, Delivered]

  /**
   * Whatever the selected order's status, Delivered and Cancelled included,
   * each button's request gives the order the button's status and changes
   * nothing else; no button asks for New or Cancelled.
   */
  lemma StaffButtonsSetTheirStatus(o: Order, k: nat)
    requires k < |StaffStatusButtons|
    ensures Server.Merge(o, StatusPatch(StaffStatusButtons[k])) == o.(orderStatus := StaffStatusButtons[k])
    ensures New !in StaffStatusButtons && Cancelled !in StaffStatusButtons
  {
    Server.StatusPatchSetsAnyStatus(o, StaffStatusButtons[k]);
  }

  /** The dashboard's state. */
  class Dashboard {
    var orders: seq<Order>
    var selected: Option<Order>
    var stats: Stats
    var loading: bool

    constructor ()
      ensures orders == [] && selected.None? && stats == ZeroStats && loading
    {
      orders := [];
      selected := None;
      stats := ZeroStats;
      loading := true;
    }

    /**
     * `loadData`: both reads fall back instead of failing, so the list and
     * the counters are always replaced, by `[]` and zeros on failure, and
     * `loading` ends false.
     */
    method LoadData(ordersReply: Reply<seq<Order>>, statsReply: Reply<Stats>)
      modifies this
      ensures orders == OrdersService.GetOrdersResult(ordersReply)
      ensures stats == OrdersService.StatsResult(statsReply)
      ensures selected == old(selected) && !loading
    {
      loading := true;
      var fetchedOrders := OrdersService.GetOrdersResult(ordersReply);
      var orderStats := OrdersService.StatsResult(statsReply);
      orders := fetchedOrders;
      stats := orderStats;
      loading := false;
    }

    /** A card click selects its order; a click on the overlay clears the selection. */
    method SelectOrder(order: Option<Order>)
      modifies this
      ensures selected == order
      ensures orders == old(orders) && stats == old(stats) && loading == old(loading)
    {
      selected := order;
    }

    /** What `handleStatusUpdate` does with the answer before it reloads. */
    method ApplyStatusUpdate(orderId: string, updated: Order)
      modifies this
      ensures orders == OrderViews.ReplaceById(old(orders), orderId, updated)
      ensures selected == Some(updated)
      ensures stats == old(stats) && loading == old(loading)
    {
      orders := OrderViews.ReplaceById(orders, orderId, updated);
      selected := Some(updated);
    }

    /**
     * `handleStatusUpdate`: request the status; on an answer show it,
     * select it and reload everything; on a failed request change nothing.
     */
    method HandleStatusUpdate(orderId: string, newStatus: OrderStatus, updateReply: Reply<Order>,
                              ordersReply: Reply<seq<Order>>, statsReply: Reply<Stats>)
      returns (requested: OrderPatch)
      modifies this
      ensures requested == StatusPatch(newStatus)
      ensures match OrdersService.UpdateOrderStatusResult(updateReply)
        case Some(updated) =>
          && selected == Some(updated)
          && orders == OrdersService.GetOrdersResult(ordersReply)
          && stats == OrdersService.StatsResult(statsReply)
          && !loading
        case None =>
          orders == old(orders) && selected == old(selected) && stats == old(stats) && loading == old(loading)
    {
      requested := StatusPatch(newStatus);
      var updatedOrder := OrdersService.UpdateOrderStatusResult(updateReply);
      if updatedOrder.Some? {
        ApplyStatusUpdate(orderId, updatedOrder.value);
        LoadData(ordersReply, statsReply);
      }
    }
  }
}
