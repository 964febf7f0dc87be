/**
 * The customer's order list (src/components/MyOrders.tsx): load this
 * browser's orders under the given name, sort them for display, and cancel
 * one.
 */
module MyOrders {
  import opened Types
  import OrdersService
  import OrderViews

  /** The `statusPriority` table of the sort comparator. */
  function StatusPriority(s: OrderStatus): (p: nat)
    ensures p <= 4
  {
    match s
    case New => 0
    case OnHold => 1
    case Brewing => 2
    case Delivered => 3
    case Cancelled => 4
  }

  /** The priorities rank New, On Hold, Brewing, Delivered, Cancelled, and distinct statuses never tie. */
  lemma StatusPriorityOrder(s: OrderStatus, t: OrderStatus)
    ensures StatusPriority(New) < StatusPriority(OnHold) < StatusPriority(Brewing)
          < StatusPriority(Delivered) < StatusPriority(Cancelled)
    ensures StatusPriority(s) == StatusPriority(t) <==> s == t
  {
  }

  /**
   * The comparator passed to `sort`: the priority difference, or when that
   * is 0 the later timestamp first.
   */
  function Compare(a: Order, b: Order): int {
    var priorityDiff := StatusPriority(a.orderStatus) - StatusPriority(b.orderStatus);
    if priorityDiff != 0 then priorityDiff else b.timestamp - a.timestamp
  }

  /** `a` may stay before `b`: the comparator does not ask to swap them. */
  predicate InOrder(a: Order, b: Order) {
    Compare(a, b) <= 0
  }

  /**
   * The comparator is consistent: swapping its arguments negates it, so any
   * two orders are in order one way round, and it is transitive. `sort`
   * needs this of a comparator to produce a sorted list.
   */
  lemma CompareIsTotalPreorder(a: Order, b: Order, c: Order)
    ensures Compare(a, b) == -Compare(b, a)
    ensures InOrder(a, b) || InOrder(b, a)
    ensures InOrder(a, b) && InOrder(b, c) ==> InOrder(a, c)
  {
  }

  ghost predicate SortedForDisplay(s: seq<Order>) {
    forall i, j :: 0 <= i < j < |s| ==> InOrder(s[i], s[j])
  }

  /**
   * A list sorted with the comparator lists New before On Hold before
   * Brewing before Delivered before Cancelled, and newer before older among
   * orders with the same status.
   */
  lemma SortedMeansStatusThenNewest(s: seq<Order>, i: nat, j: nat)
    requires SortedForDisplay(s) && i < j < |s|
    ensures StatusPriority(s[i].orderStatus) <= StatusPriority(s[j].orderStatus)
    ensures s[i].orderStatus == s[j].orderStatus ==> s[i].timestamp >= s[j].timestamp
  {
    assert InOrder(s[i], s[j]);
  }

  method Swap(a: array<Order>, i: nat, j: nat)
    requires i < a.Length && j < a.Length
    modifies a
    ensures a[..] == old(a[..])[i := old(a[j])][j := old(a[i])]
    ensures multiset(a[..]) == multiset(old(a[..]))
  {
    a[i], a[j] := a[j], a[i];
  }

  /** A fresh array holding the list, for the in-place sort. */
  method ToArray(s: seq<Order>) returns (a: array<Order>)
    ensures fresh(a) && a[..] == s
  {
    a := new Order[|s|](k requires 0 <= k < |s| => s[k]);
  }

  /** `userOrders.sort(comparator)`, in place, as an insertion sort. */
  method SortForDisplay(a: array<Order>)
    modifies a
    ensures SortedForDisplay(a[..])
    ensures multiset(a[..]) == multiset(old(a[..]))
  {
    var i := 0;
    while i < a.Length
      invariant 0 <= i <= a.Length
      invariant forall k, l :: 0 <= k < l < i ==> InOrder(a[k], a[l])
      invariant multiset(a[..]) == multiset(old(a[..]))
    {
      var j := i;
      while j > 0 && Compare(a[j - 1], a[j]) > 0
        invariant 0 <= j <= i
        invariant forall k, l :: 0 <= k < l <= i && k != j && l != j ==> InOrder(a[k], a[l])
        invariant forall l :: j < l <= i ==> InOrder(a[j], a[l])
        invariant multiset(a[..]) == multiset(old(a[..]))
      {
        Swap(a, j - 1, j);
        j := j - 1;
      }
      i := i + 1;
    }
  }

  /** `['Delivered', 'Cancelled'].includes(order.orderStatus)`. */
  predicate CancelDisabled(s: OrderStatus) {
    s in [Delivered, Cancelled]
  }

  /**
   * Cancel is offered for every status but Delivered and Cancelled, On Hold
   * and Brewing included; the screen checks nothing else.
   */
  lemma CancelOfferedUnlessFinished(s: OrderStatus)
    ensures !CancelDisabled(s) <==> s != Delivered && s != Cancelled
  {
  }

  /** The dialog's state. */
  class MyOrdersView {
    var orders: seq<Order>
    var loading: bool

    constructor ()
      ensures orders == [] && loading
    {
      orders := [];
      loading := true;
    }

    /**
     * `loadOrders`: with a name, fetch this browser's orders with that name
     * and show them sorted; without one, do nothing at all.
     */
    method LoadOrders(storage: OrdersService.LocalStorage, customerName: string, now: nat,
                      randomPart: string, reply: Reply<seq<Order>>)
      returns (fetched: bool)
      modifies this, storage
      ensures fetched <==> customerName != ""
      ensures !fetched ==> orders == old(orders) && loading == old(loading) && storage.items == old(storage.items)
      ensures fetched ==>
        && storage.items == OrdersService.LookupOrCreate(old(storage.items), now, randomPart).items
        && SortedForDisplay(orders)
        && multiset(orders) == multiset(OrdersService.GetUserOrdersResult(reply, customerName))
        && !loading
    {
      if customerName == "" {
        return false;
      }
      loading := true;
      var _, userOrders := OrdersService.GetUserOrders(storage, customerName, now, randomPart, reply);
      var a := ToArray(userOrders);
      SortForDisplay(a);
      orders := a[..];
      loading := false;
      fetched := true;
    }

    /**
     * `handleCancel`: ask for status Cancelled; an answer replaces the orders
     * with that id, a failed request leaves the list as it is.
     */
    method HandleCancel(orderId: string, reply: Reply<Order>) returns (requested: OrderPatch)
      modifies this
      ensures requested == StatusPatch(Cancelled)
      ensures loading == old(loading)
      ensures match OrdersService.UpdateOrderStatusResult(reply)
        case Some(updated) => orders == OrderViews.ReplaceById(old(orders), orderId, updated)
        case None => orders == old(orders)
    {
      requested := StatusPatch(Cancelled);
      var updatedOrder := OrdersService.UpdateOrderStatusResult(reply);
      if updatedOrder.Some? {
        orders := OrderViews.ReplaceById(orders, orderId, updatedOrder.value);
      }
    }
  }
}
