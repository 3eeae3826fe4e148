/** The delivery agent's page: the pool of unassigned orders, the agent's
    own deliveries, the selected tab and the loading flag. Server replies
    are parameters: `None` stands for a request that failed. */
module DeliveryPage {
  import opened Orders
  import OrderLists

  class DeliveryDashboard {
    var unassigned: seq<Order>
    var myOrders: seq<Order>
    var activeTab: string
    var loading: bool

    constructor()
      ensures unassigned == [] && myOrders == [] && activeTab == "available" && !loading
    {
      unassigned := [];
      myOrders := [];
      activeTab := "available";
      loading := false;
    }

    /** The two fetches run when the page mounts, fetchUnassignedOrders and
        fetchMyOrders: each list takes its reply, and a fetch that fails
        leaves its list as it was. */
    method LoadLists(unassignedReply: Option<seq<Order>>, mineReply: Option<seq<Order>>)
      modifies this
      ensures unassigned == if unassignedReply.Some? then unassignedReply.value else old(unassigned)
      ensures myOrders == if mineReply.Some? then mineReply.value else old(myOrders)
      ensures activeTab == old(activeTab) && loading == old(loading)
    {
      if unassignedReply.Some? {
        unassigned := unassignedReply.value;
      }
      if mineReply.Some? {
        myOrders := mineReply.value;
      }
    }

    /** new_order: the order goes in front of the pool, with no check for
        an entry with the same id. */
    method OnNewOrder(order: Order)
      modifies this
      ensures unassigned == [order] + old(unassigned)
      ensures |unassigned| == |old(unassigned)| + 1
      ensures myOrders == old(myOrders) && activeTab == old(activeTab) && loading == old(loading)
    {
      unassigned := [order] + unassigned;
    }

    /** order_locked: every entry with the order's id leaves the pool. */
    method OnOrderLocked(order: Order)
      modifies this
      ensures unassigned == OrderLists.RemoveById(old(unassigned), order.id)
      ensures forall o :: o in unassigned ==> o.id != order.id
      ensures myOrders == old(myOrders) && activeTab == old(activeTab) && loading == old(loading)
    {
      unassigned := OrderLists.RemoveById(unassigned, order.id);
    }

    /** order_status_updated: only the agent's own list is touched. */
    method OnOrderStatusUpdated(order: Order)
      modifies this
      ensures myOrders == OrderLists.ReplaceById(old(myOrders), order)
      ensures |myOrders| == |old(myOrders)|
      ensures unassigned == old(unassigned) && activeTab == old(activeTab) && loading == old(loading)
    {
      myOrders := OrderLists.ReplaceById(myOrders, order);
    }

    /** acceptOrder. `posted` is whether the accept request succeeded; the
        two refetches that follow it each keep the old list when they fail.
        The tab switches only on success; loading ends false either way. */
    method AcceptOrder(orderId: OrderId, posted: bool,
                       unassignedReply: Option<seq<Order>>, mineReply: Option<seq<Order>>)
      modifies this
      ensures !loading
      ensures activeTab == if posted then "my-deliveries" else old(activeTab)
      ensures unassigned == if posted && unassignedReply.Some? then unassignedReply.value else old(unassigned)
      ensures myOrders == if posted && mineReply.Some? then mineReply.value else old(myOrders)
    {
      loading := true;
      if posted {
        if unassignedReply.Some? {
          unassigned := unassignedReply.value;
        }
        if mineReply.Some? {
          myOrders := mineReply.value;
        }
        activeTab := "my-deliveries";
      }
      loading := false;
    }

    /** updateOrderStatus: on success the agent's list is refetched; the
        tab stays and loading ends false either way. */
    method UpdateOrderStatus(orderId: OrderId, status: string, patched: bool, mineReply: Option<seq<Order>>)
      modifies this
      ensures !loading
      ensures myOrders == if patched && mineReply.Some? then mineReply.value else old(myOrders)
      ensures unassigned == old(unassigned) && activeTab == old(activeTab)
    {
      loading := true;
      if patched && mineReply.Some? {
        myOrders := mineReply.value;
      }
      loading := false;
    }
  }
}
