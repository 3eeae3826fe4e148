/** The admin page's order list and the statistics cards computed from it. */
module AdminPage {
  import opened Orders
  import OrderLists

  /** The page's `stats` state. Only the three order counts are shown on
      cards; the Customers and Delivery Partners cards read the current
      lists instead, so the two head counts here are never displayed. */
  datatype Stats = Stats(totalOrders: nat, pendingOrders: nat, deliveredOrders: nat,
                         totalCustomers: nat, totalDeliveryPartners: nat)

  /** How many entries have the status. */
  function CountStatus(list: seq<Order>, status: string): (n: nat)
    ensures n <= |list|
    ensures n == 0 <==> forall o :: o in list ==> o.status != status
    ensures n == |list| <==> forall o :: o in list ==> o.status == status
  {
    if list == [] then 0
    else (if list[0].status == status then 1 else 0) + CountStatus(list[1..], status)
  }

  /** Two different statuses never count more entries together than the
      list has. */
  lemma {:induction false} DistinctCountsBounded(list: seq<Order>, a: string, b: string)
    requires a != b
    ensures CountStatus(list, a) + CountStatus(list, b) <= |list|
  {
    if list != [] {
      DistinctCountsBounded(list[1..], a, b);
    }
  }

  /** Counting over a concatenation adds the counts. */
  lemma {:induction false} CountStatusAppend(a: seq<Order>, b: seq<Order>, status: string)
    ensures CountStatus(a + b, status) == CountStatus(a, status) + CountStatus(b, status)
  {
    if a == [] {
      assert a + b == b;
    } else {
      assert (a + b)[0] == a[0] && (a + b)[1..] == a[1..] + b;
      CountStatusAppend(a[1..], b, status);
    }
  }

  /** calculateStats: the number of orders, of pending and of delivered
      orders in the list, and the two head counts it is given. */
  function CalculateStats(list: seq<Order>, customers: nat, partners: nat): (s: Stats)
    ensures s.totalOrders == |list|
    ensures s.pendingOrders == CountStatus(list, PENDING)
    ensures s.deliveredOrders == CountStatus(list, DELIVERED)
    ensures s.pendingOrders + s.deliveredOrders <= s.totalOrders
    ensures s.totalCustomers == customers && s.totalDeliveryPartners == partners
  {
    DistinctCountsBounded(list, PENDING, DELIVERED);
    Stats(|list|, CountStatus(list, PENDING), CountStatus(list, DELIVERED), customers, partners)
  }

  /** A general fact about replacement by id: when it keeps the status of
      every entry it touches, it keeps every count. */
  lemma {:induction false} ReplaceKeepsCount(list: seq<Order>, order: Order, status: string)
    requires forall o :: o in list && o.id == order.id ==> o.status == order.status
    ensures CountStatus(OrderLists.ReplaceById(list, order), status) == CountStatus(list, status)
  {
    if list != [] {
      var r := OrderLists.ReplaceById(list, order);
      assert r[1..] == OrderLists.ReplaceById(list[1..], order);
      assert r[0].status == list[0].status;
      ReplaceKeepsCount(list[1..], order, status);
    }
  }

  /** Replacing by an order of another status never raises that status's
      count. */
  lemma {:induction false} ReplaceNeverRaisesCount(list: seq<Order>, order: Order, status: string)
    requires order.status != status
    ensures CountStatus(OrderLists.ReplaceById(list, order), status) <= CountStatus(list, status)
  {
    if list != [] {
      var r := OrderLists.ReplaceById(list, order);
      assert r[1..] == OrderLists.ReplaceById(list[1..], order);
      ReplaceNeverRaisesCount(list[1..], order, status);
    }
  }

  /** order_accepted replaces a pending entry by its accepted snapshot, so
      the list's pending count drops; the handler does not recompute the
      statistics, so the Pending card keeps the old, now too high, count. */
  lemma {:induction false} AcceptedPendingCountDrops(list: seq<Order>, order: Order, k: nat)
    requires order.status == ACCEPTED
    requires k < |list| && list[k].id == order.id && list[k].status == PENDING
    ensures CountStatus(OrderLists.ReplaceById(list, order), PENDING) < CountStatus(list, PENDING)
  {
    var r := OrderLists.ReplaceById(list, order);
    assert r[1..] == OrderLists.ReplaceById(list[1..], order);
    if k == 0 {
      ReplaceNeverRaisesCount(list[1..], order, PENDING);
    } else {
      AcceptedPendingCountDrops(list[1..], order, k - 1);
    }
  }

  class AdminDashboard {
    var orders: seq<Order>
    var stats: Stats
    /** The order list and head counts as they were when the page mounted.
        The socket handlers and the initial fetch were created then, and
        they compute statistics from these values, not from the current
        state. */
    const mountOrders: seq<Order>
    const mountCustomers: nat
    const mountPartners: nat

    constructor()
      ensures orders == [] && stats == Stats(0, 0, 0, 0, 0)
      ensures mountOrders == [] && mountCustomers == 0 && mountPartners == 0
    {
      orders := [];
      stats := Stats(0, 0, 0, 0, 0);
      mountOrders := [];
      mountCustomers := 0;
      mountPartners := 0;
    }

    /** fetchAllOrders resolving with the server's list. */
    method LoadOrders(list: seq<Order>)
      modifies this
      ensures orders == list
      ensures stats == CalculateStats(list, mountCustomers, mountPartners)
      ensures stats.totalOrders == |orders|
    {
      orders := list;
      stats := CalculateStats(list, mountCustomers, mountPartners);
    }

    /** order_created: the order goes in front of the list; the statistics
        count the order and the mount-time list only. */
    method OnOrderCreated(order: Order)
      modifies this
      ensures orders == [order] + old(orders)
      ensures stats == CalculateStats([order] + mountOrders, mountCustomers, mountPartners)
    {
      orders := [order] + orders;
      stats := CalculateStats([order] + mountOrders, mountCustomers, mountPartners);
    }

    /** order_accepted: the entry with the order's id is replaced; the
        statistics are not recomputed. */
    method OnOrderAccepted(order: Order)
      modifies this
      ensures orders == OrderLists.ReplaceById(old(orders), order)
      ensures |orders| == |old(orders)|
      ensures stats == old(stats)
    {
      orders := OrderLists.ReplaceById(orders, order);
    }

    /** order_status_updated: the entry with the order's id is replaced;
        the statistics are recomputed from the mount-time list with that
        entry replaced. */
    method OnOrderStatusUpdated(order: Order)
      modifies this
      ensures orders == OrderLists.ReplaceById(old(orders), order)
      ensures |orders| == |old(orders)|
      ensures stats == CalculateStats(OrderLists.ReplaceById(mountOrders, order), mountCustomers, mountPartners)
    {
      orders := OrderLists.ReplaceById(orders, order);
      stats := CalculateStats(OrderLists.ReplaceById(mountOrders, order), mountCustomers, mountPartners);
    }
  }

  /** Because the mount-time list is empty, after an order_created event the
      Total Orders card reads one, however long the displayed list is, and
      the Pending card one or zero. */
  lemma CreatedStatsCountOneOrder(order: Order)
    ensures CalculateStats([order] + [], 0, 0).totalOrders == 1
    ensures CalculateStats([order] + [], 0, 0).pendingOrders == (if order.status == PENDING then 1 else 0)
  {
    assert [order] + [] == [order];
    assert [order][1..] == [];
  }

  /** With the empty mount-time list, after an order_status_updated event
      the Total Orders, Pending and Delivered cards read zero, whatever the
      list shows; the undisplayed head counts are zero as well. */
  lemma StatusUpdateZeroesStats(order: Order)
    ensures CalculateStats(OrderLists.ReplaceById([], order), 0, 0) == Stats(0, 0, 0, 0, 0)
  {
  }
}
