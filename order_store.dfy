/** The server's order collection and its socket output, updated in place by
    the three mutating request handlers (createOrder in
    customerController.js; acceptOrder and updateOrderStatus in
    deliveryController.js). Each handler is proved to perform exactly the
    step `Lifecycle` defines; the properties of those steps are proved
    there. Requests are served one at a time. */
module Server {
  import opened Orders
  import Lifecycle
  import Queries

  class OrderStore {
    /** The stored orders by id. */
    var orders: Lifecycle.Store
    /** The collection's natural order: ids in insertion order. */
    var ids: seq<OrderId>
    /** Every event sent to clients so far, oldest first. */
    var events: seq<Event>
    /** Whether the app holds the socket server the handlers look up;
        `Lifecycle.SERVER_REGISTERS_IO` is the value as the server is wired. */
    const ioRegistered: bool

    ghost predicate Valid()
      reads this
    {
      Lifecycle.WellFormed(orders, ids)
    }

    /** What a query scans: the stored orders in natural order; the
        unassigned, my-deliveries and my-orders lists are filters of it. */
    function Documents(): seq<Order>
      reads this
      requires Valid()
    {
      Lifecycle.Documents(orders, ids)
    }

    constructor (ioRegistered: bool)
      ensures Valid()
      ensures orders == map[] && ids == [] && events == []
      ensures this.ioRegistered == ioRegistered
    {
      orders, ids, events := map[], [], [];
      this.ioRegistered := ioRegistered;
    }

    /** createOrder, for a caller with the customer role. `id` and `now` are
        the fresh id and timestamp the database assigns. */
    method CreateOrder(caller: Principal, id: OrderId, items: seq<Item>, total: int, now: int) returns (r: Response)
      requires Valid() && caller.role == CUSTOMER_ROLE && id !in orders
      modifies this
      ensures Valid()
      ensures ids == old(ids) + [id]
      ensures var s := Lifecycle.Create(old(orders), caller.id, id, items, total, now);
        orders == s.orders && events == old(events) + Lifecycle.Broadcast(s.emitted, ioRegistered) && r == s.response
      ensures r.Success? && r.order in Queries.UnassignedOrders(Documents()) && r.order in Queries.MyOrders(Documents(), caller.id)
    {
      var order := Order(id, caller.id, items, total, PENDING, None, now);
      orders := orders[id := order];
      ids := ids + [id];
      if ioRegistered {
        events := events + [Event(OrderCreated, order)];
        events := events + [Event(NewOrder, order)];
      }
      r := Success(201, order);
      Lifecycle.CreateKeepsWellFormed(old(orders), old(ids), caller.id, id, items, total, now);
      ghost var s := Lifecycle.Create(old(orders), caller.id, id, items, total, now);
      assert orders == s.orders && r == s.response;
      assert events == old(events) + Lifecycle.Broadcast(s.emitted, ioRegistered);
      assert Valid() && ids == old(ids) + [id];
      assert r.order in Queries.UnassignedOrders(Documents()) && r.order in Queries.MyOrders(Documents(), caller.id) by {
        Lifecycle.CreatedOrderIsListed(old(orders), old(ids), caller.id, id, items, total, now);
      }
    }

    /** acceptOrder, for a caller with the delivery role: read, check, write
        status and assignee, save, emit. */
    method AcceptOrder(caller: Principal, orderId: OrderId) returns (r: Response)
      requires Valid() && caller.role == DELIVERY_ROLE
      modifies this
      ensures Valid()
      ensures ids == old(ids)
      ensures var s := Lifecycle.Accept(old(orders), orderId, caller.id);
        orders == s.orders && events == old(events) + Lifecycle.Broadcast(s.emitted, ioRegistered) && r == s.response
      ensures r.Success? ==>
        && (forall o :: o in Queries.UnassignedOrders(Documents()) ==> o.id != orderId)
        && r.order in Queries.MyDeliveries(Documents(), caller.id)
    {
      if orderId !in orders {
        return Failure(404, NOT_FOUND);
      }
      var order := orders[orderId];
      if order.status != PENDING || order.assignedTo != None {
        return Failure(400, ALREADY_ASSIGNED);
      }
      order := order.(status := ACCEPTED);
      order := order.(assignedTo := Some(caller.id));
      orders := orders[orderId := order];
      if ioRegistered {
        events := events + [Event(OrderAccepted, order)];
        events := events + [Event(OrderLocked, order)];
      }
      r := Success(200, order);
      ghost var s := Lifecycle.Accept(old(orders), orderId, caller.id);
      assert orders == s.orders && r == s.response;
      assert events == old(events) + Lifecycle.Broadcast(s.emitted, ioRegistered);
      assert Valid() && ids == old(ids);
      assert (forall o :: o in Queries.UnassignedOrders(Documents()) ==> o.id != orderId)
          && r.order in Queries.MyDeliveries(Documents(), caller.id) by {
        Lifecycle.ClaimedOrderLeavesPool(old(orders), ids, orderId, caller.id);
      }
    }

    /** updateOrderStatus, for a caller with the delivery role: read, check
        ownership, write the requested status, save, emit. */
    method UpdateOrderStatus(caller: Principal, orderId: OrderId, status: string) returns (r: Response)
      requires Valid() && caller.role == DELIVERY_ROLE
      modifies this
      ensures Valid()
      ensures ids == old(ids)
      ensures var s := Lifecycle.Update(old(orders), orderId, caller.id, status);
        orders == s.orders && events == old(events) + Lifecycle.Broadcast(s.emitted, ioRegistered) && r == s.response
    {
      if orderId !in orders {
        return Failure(404, NOT_FOUND);
      }
      var order := orders[orderId];
      if order.assignedTo == None {
        // the ownership check dereferences the missing assignee and throws
        return Failure(500, SERVER_ERROR);
      }
      if order.assignedTo.value != caller.id {
        return Failure(403, NOT_AUTHORIZED);
      }
      order := order.(status := status);
      orders := orders[orderId := order];
      if ioRegistered {
        events := events + [Event(OrderStatusUpdated, order)];
      }
      r := Success(200, order);
    }
  }
}
