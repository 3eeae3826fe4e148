/** The server's order transitions as pure functions of the store: each
    request handler becomes a `Step` giving the new store, the events it
    emits (in emission order) and the reply. `OrderStore` in
    order_store.dfy performs the same steps in place.

    The server checks existence, the claim guard and ownership; it does NOT
    check that a requested status is the next one in the lifecycle (the
    forward-only sequence lives only in the client, see order_card.dfy). */
module Lifecycle {
  import opened Orders
  import Queries

  type Store = map<OrderId, Order>

  datatype Step = Step(orders: Store, emitted: seq<Event>, response: Response)

  /** createOrder: a new pending, unassigned order for `caller`, with the
      items and total stored exactly as supplied; replies 201. The id and
      creation time are the database's (fresh id, clock). */
  function Create(orders: Store, caller: UserId, id: OrderId, items: seq<Item>, total: int, now: int): (s: Step)
    requires id !in orders
    ensures s.orders.Keys == orders.Keys + {id}
    ensures forall k :: k in orders ==> s.orders[k] == orders[k]
    ensures s.orders[id].id == id && s.orders[id].customer == caller
    ensures s.orders[id].items == items && s.orders[id].total == total && s.orders[id].createdAt == now
    ensures s.orders[id].status == PENDING && s.orders[id].assignedTo == None
    ensures s.emitted == [Event(OrderCreated, s.orders[id]), Event(NewOrder, s.orders[id])]
    ensures s.response == Success(201, s.orders[id])
  {
    var o := Order(id, caller, items, total, PENDING, None, now);
    Step(orders[id := o], [Event(OrderCreated, o), Event(NewOrder, o)], Success(201, o))
  }

  /** acceptOrder: the guarded claim. */
  function Accept(orders: Store, id: OrderId, agent: UserId): (s: Step)
    ensures s.response.Success? <==> id in orders && Queries.IsUnassigned(orders[id])
    ensures s.response.Failure? ==> s.orders == orders && s.emitted == []
    ensures id !in orders ==> s.response == Failure(404, NOT_FOUND)
    ensures id in orders && !Queries.IsUnassigned(orders[id]) ==> s.response == Failure(400, ALREADY_ASSIGNED)
    ensures s.response.Success? ==>
      && s.orders.Keys == orders.Keys
      && (forall k :: k in orders && k != id ==> s.orders[k] == orders[k])
      && SameRecord(s.orders[id], orders[id])
      && s.orders[id].status == ACCEPTED && s.orders[id].assignedTo == Some(agent)
      && s.emitted == [Event(OrderAccepted, s.orders[id]), Event(OrderLocked, s.orders[id])]
      && s.response == Success(200, s.orders[id])
  {
    if id !in orders then Step(orders, [], Failure(404, NOT_FOUND))
    else if orders[id].status != PENDING || orders[id].assignedTo != None then
      Step(orders, [], Failure(400, ALREADY_ASSIGNED))
    else
      var o := orders[id].(status := ACCEPTED, assignedTo := Some(agent));
      Step(orders[id := o], [Event(OrderAccepted, o), Event(OrderLocked, o)], Success(200, o))
  }

  /** updateOrderStatus: an ownership check, then the requested status is
      written as is. An order without assignee makes the ownership check
      dereference null, which the handler's catch turns into a 500. */
  function Update(orders: Store, id: OrderId, caller: UserId, status: string): (s: Step)
    ensures s.response.Success? <==> id in orders && orders[id].assignedTo == Some(caller)
    ensures s.response.Failure? ==> s.orders == orders && s.emitted == []
    ensures id !in orders ==> s.response == Failure(404, NOT_FOUND)
    ensures id in orders && orders[id].assignedTo == None ==> s.response == Failure(500, SERVER_ERROR)
    ensures id in orders && orders[id].assignedTo.Some? && orders[id].assignedTo.value != caller ==>
      s.response == Failure(403, NOT_AUTHORIZED)
    ensures s.response.Success? ==>
      && s.orders.Keys == orders.Keys
      && (forall k :: k in orders && k != id ==> s.orders[k] == orders[k])
      && SameRecord(s.orders[id], orders[id])
      && s.orders[id].assignedTo == orders[id].assignedTo
      && s.orders[id].status == status
      && s.emitted == [Event(OrderStatusUpdated, s.orders[id])]
      && s.response == Success(200, s.orders[id])
  {
    if id !in orders then Step(orders, [], Failure(404, NOT_FOUND))
    else match orders[id].assignedTo
      case None => Step(orders, [], Failure(500, SERVER_ERROR))
      case Some(owner) =>
        if owner != caller then Step(orders, [], Failure(403, NOT_AUTHORIZED))
        else
          var o := orders[id].(status := status);
          Step(orders[id := o], [Event(OrderStatusUpdated, o)], Success(200, o))
  }

  /** The store together with the collection's natural order: every stored
      order listed once, each filed under its own id. */
  predicate WellFormed(orders: Store, ids: seq<OrderId>)
  {
    && (forall i, j :: 0 <= i < j < |ids| ==> ids[i] != ids[j])
    && (forall k :: k in orders ==> k in ids)
    && (forall k :: k in ids ==> k in orders)
    && (forall k :: k in orders ==> orders[k].id == k)
  }

  /** The documents a query scans, in natural order. */
  function Documents(orders: Store, ids: seq<OrderId>): seq<Order>
    requires forall k :: k in ids ==> k in orders
  {
    seq(|ids|, i requires 0 <= i < |ids| => orders[ids[i]])
  }

  /** A request as the sequential server sees it. */
  datatype Request =
    | PlaceOrder(caller: UserId, id: OrderId, items: seq<Item>, total: int, now: int)
    | Claim(id: OrderId, agent: UserId)
    | SetStatus(id: OrderId, agent: UserId, status: string)

  /** A new order's id is fresh. */
  predicate Admissible(orders: Store, r: Request)
  {
    r.PlaceOrder? ==> r.id !in orders
  }

  function Apply(orders: Store, r: Request): Step
    requires Admissible(orders, r)
  {
    match r
    case PlaceOrder(caller, id, items, total, now) => Create(orders, caller, id, items, total, now)
    case Claim(id, agent) => Accept(orders, id, agent)
    case SetStatus(id, agent, status) => Update(orders, id, agent, status)
  }

  predicate Runnable(orders: Store, reqs: seq<Request>)
    decreases |reqs|
  {
    reqs == [] || (Admissible(orders, reqs[0]) && Runnable(Apply(orders, reqs[0]).orders, reqs[1..]))
  }

  /** The store after serving `reqs` one after the other. */
  function Run(orders: Store, reqs: seq<Request>): Store
    requires Runnable(orders, reqs)
    decreases |reqs|
  {
    if reqs == [] then orders else Run(Apply(orders, reqs[0]).orders, reqs[1..])
  }

  /** Whether the app holds the socket server under the setting the
      handlers read (`req.app.get('io')`). backend/server.js creates the
      socket server and hands it to the socket module only, so as the
      server is wired the setting is empty. */
  const SERVER_REGISTERS_IO: bool := false

  /** The events that reach the clients: each handler emits only when the
      setting holds a socket server (`if (io)`). */
  function Broadcast(emitted: seq<Event>, ioRegistered: bool): seq<Event>
  {
    if ioRegistered then emitted else []
  }

  /** Every event the clients receive while `reqs` are served, in order. */
  function Notifications(orders: Store, reqs: seq<Request>, ioRegistered: bool): seq<Event>
    requires Runnable(orders, reqs)
    decreases |reqs|
  {
    if reqs == [] then []
    else
      var s := Apply(orders, reqs[0]);
      Broadcast(s.emitted, ioRegistered) + Notifications(s.orders, reqs[1..], ioRegistered)
  }

  /** As wired, no request ever reaches a client: whatever is served, no
      socket event is sent, so no dashboard handler ever runs. */
  lemma {:induction false} AsWiredNoClientIsNotified(orders: Store, reqs: seq<Request>)
    requires Runnable(orders, reqs)
    ensures Notifications(orders, reqs, SERVER_REGISTERS_IO) == []
    decreases |reqs|
  {
    if reqs != [] {
      AsWiredNoClientIsNotified(Apply(orders, reqs[0]).orders, reqs[1..]);
    }
  }

  /** The registration alone decides it: for a history whose first request
      succeeds, clients registered with the socket server hear that
      request's events first, while as wired they hear nothing at all. */
  lemma WiringDecidesNotification(orders: Store, reqs: seq<Request>)
    requires Runnable(orders, reqs) && reqs != []
    requires Apply(orders, reqs[0]).response.Success?
    ensures var s := Apply(orders, reqs[0]);
      && s.emitted != []
      && Notifications(orders, reqs, true)[..|s.emitted|] == s.emitted
    ensures Notifications(orders, reqs, SERVER_REGISTERS_IO) == []
  {
    var s := Apply(orders, reqs[0]);
    WiredBroadcastMatchesReply(orders, reqs[0]);
    assert Notifications(orders, reqs, true) == s.emitted + Notifications(s.orders, reqs[1..], true);
    AsWiredNoClientIsNotified(orders, reqs);
  }

  /** With the socket server registered, clients hear of a request exactly
      when it succeeds, and every event carries the order as it is now
      stored under the request's id and as the reply returns it. */
  lemma WiredBroadcastMatchesReply(orders: Store, r: Request)
    requires Admissible(orders, r)
    ensures var s := Apply(orders, r);
      && (Broadcast(s.emitted, true) != [] <==> s.response.Success?)
      && forall e :: e in Broadcast(s.emitted, true) ==>
        && s.response.Success? && e.order == s.response.order
        && r.id in s.orders && s.orders[r.id] == e.order
  {
  }

  /** With the socket server registered, the notifications of a history are
      the concatenation of the events each step emits. */
  lemma {:induction false} WiredNotificationsAppend(orders: Store, reqs: seq<Request>, more: seq<Request>)
    requires Runnable(orders, reqs) && Runnable(Run(orders, reqs), more)
    ensures Runnable(orders, reqs + more)
    ensures Notifications(orders, reqs + more, true)
      == Notifications(orders, reqs, true) + Notifications(Run(orders, reqs), more, true)
    decreases |reqs|
  {
    if reqs == [] {
      assert reqs + more == more;
    } else {
      var s := Apply(orders, reqs[0]);
      assert (reqs + more)[0] == reqs[0] && (reqs + more)[1..] == reqs[1..] + more;
      WiredNotificationsAppend(s.orders, reqs[1..], more);
      ConcatAssociates(s.emitted, Notifications(s.orders, reqs[1..], true), Notifications(Run(orders, reqs), more, true));
    }
  }

  /** One request never removes an order, never changes its customer, items,
      total or creation time, and never clears or changes an assignee. */
  lemma ApplyKeepsRecord(orders: Store, r: Request, id: OrderId)
    requires Admissible(orders, r) && id in orders
    ensures id in Apply(orders, r).orders
    ensures SameRecord(Apply(orders, r).orders[id], orders[id])
    ensures orders[id].assignedTo.Some? ==> Apply(orders, r).orders[id].assignedTo == orders[id].assignedTo
  {
  }

  /** The same along any sequential history. */
  lemma {:induction false} RunKeepsRecord(orders: Store, reqs: seq<Request>, id: OrderId)
    requires Runnable(orders, reqs) && id in orders
    ensures id in Run(orders, reqs)
    ensures SameRecord(Run(orders, reqs)[id], orders[id])
    ensures orders[id].assignedTo.Some? ==> Run(orders, reqs)[id].assignedTo == orders[id].assignedTo
    decreases |reqs|
  {
    if reqs != [] {
      ApplyKeepsRecord(orders, reqs[0], id);
      RunKeepsRecord(Apply(orders, reqs[0]).orders, reqs[1..], id);
    }
  }

  /** First writer wins, for sequential histories: once a claim on `id`
      has succeeded, any later claim on it, by any agent and after any
      requests in between, is refused as already assigned. */
  lemma SingleWinner(orders: Store, id: OrderId, winner: UserId, reqs: seq<Request>, other: UserId)
    requires Accept(orders, id, winner).response.Success?
    requires Runnable(Accept(orders, id, winner).orders, reqs)
    ensures Accept(Run(Accept(orders, id, winner).orders, reqs), id, other).response == Failure(400, ALREADY_ASSIGNED)
  {
    RunKeepsRecord(Accept(orders, id, winner).orders, reqs, id);
  }

  /** Each step keeps the store and its natural order consistent. */
  lemma CreateKeepsWellFormed(orders: Store, ids: seq<OrderId>, caller: UserId, id: OrderId, items: seq<Item>, total: int, now: int)
    requires WellFormed(orders, ids) && id !in orders
    ensures WellFormed(Create(orders, caller, id, items, total, now).orders, ids + [id])
  {
  }

  lemma AcceptKeepsWellFormed(orders: Store, ids: seq<OrderId>, id: OrderId, agent: UserId)
    requires WellFormed(orders, ids)
    ensures WellFormed(Accept(orders, id, agent).orders, ids)
  {
  }

  lemma UpdateKeepsWellFormed(orders: Store, ids: seq<OrderId>, id: OrderId, agent: UserId, status: string)
    requires WellFormed(orders, ids)
    ensures WellFormed(Update(orders, id, agent, status).orders, ids)
  {
  }

  /** A freshly created order is offered to every agent in the unassigned
      list and shows up in its customer's own list. */
  lemma CreatedOrderIsListed(orders: Store, ids: seq<OrderId>, caller: UserId, id: OrderId, items: seq<Item>, total: int, now: int)
    requires WellFormed(orders, ids) && id !in orders
    ensures var s := Create(orders, caller, id, items, total, now);
      && s.response.order in Queries.UnassignedOrders(Documents(s.orders, ids + [id]))
      && s.response.order in Queries.MyOrders(Documents(s.orders, ids + [id]), caller)
  {
    var s := Create(orders, caller, id, items, total, now);
    CreateKeepsWellFormed(orders, ids, caller, id, items, total, now);
    var docs := Documents(s.orders, ids + [id]);
    assert docs[|ids|] == s.response.order;
  }

  /** After a successful claim the order has left the unassigned list and
      is among the claiming agent's deliveries. */
  lemma ClaimedOrderLeavesPool(orders: Store, ids: seq<OrderId>, id: OrderId, agent: UserId)
    requires WellFormed(orders, ids)
    requires Accept(orders, id, agent).response.Success?
    ensures var s := Accept(orders, id, agent);
      && (forall o :: o in Queries.UnassignedOrders(Documents(s.orders, ids)) ==> o.id != id)
      && s.response.order in Queries.MyDeliveries(Documents(s.orders, ids), agent)
  {
    var s := Accept(orders, id, agent);
    AcceptKeepsWellFormed(orders, ids, id, agent);
    var docs := Documents(s.orders, ids);
    forall o | o in Queries.UnassignedOrders(docs) ensures o.id != id {
      var i :| 0 <= i < |docs| && docs[i] == o;
      assert o == s.orders[ids[i]];
    }
    var j :| 0 <= j < |ids| && ids[j] == id;
    assert docs[j] == s.response.order;
  }

  /** An unassigned order is left exactly as it is by any request other than
      a claim on it: a status write on it fails for want of an assignee, and
      a new order has a fresh id. */
  lemma StaysUnassigned(orders: Store, r: Request, id: OrderId)
    requires Admissible(orders, r) && id in orders && Queries.IsUnassigned(orders[id])
    requires !(r.Claim? && r.id == id)
    ensures id in Apply(orders, r).orders
    ensures Apply(orders, r).orders[id] == orders[id]
  {
  }

  /** The same along any sequential history without a claim on the order. */
  lemma {:induction false} StaysUnassignedRun(orders: Store, reqs: seq<Request>, id: OrderId)
    requires Runnable(orders, reqs) && id in orders && Queries.IsUnassigned(orders[id])
    requires forall i :: 0 <= i < |reqs| ==> !(reqs[i].Claim? && reqs[i].id == id)
    ensures id in Run(orders, reqs)
    ensures Run(orders, reqs)[id] == orders[id]
    decreases |reqs|
  {
    if reqs != [] {
      StaysUnassigned(orders, reqs[0], id);
      forall i | 0 <= i < |reqs[1..]| ensures !(reqs[1..][i].Claim? && reqs[1..][i].id == id) {
        assert reqs[1..][i] == reqs[i + 1];
      }
      StaysUnassignedRun(Apply(orders, reqs[0]).orders, reqs[1..], id);
    }
  }

  /** The natural order after serving `reqs`: each new order's id is
      appended. */
  function Grown(ids: seq<OrderId>, reqs: seq<Request>): (r: seq<OrderId>)
    ensures |ids| <= |r| && r[..|ids|] == ids
    decreases |reqs|
  {
    if reqs == [] then ids
    else Grown(ids + (if reqs[0].PlaceOrder? then [reqs[0].id] else []), reqs[1..])
  }

  /** Every history keeps the store consistent with its grown natural order. */
  lemma {:induction false} RunKeepsWellFormed(orders: Store, ids: seq<OrderId>, reqs: seq<Request>)
    requires WellFormed(orders, ids) && Runnable(orders, reqs)
    ensures WellFormed(Run(orders, reqs), Grown(ids, reqs))
    decreases |reqs|
  {
    if reqs != [] {
      var ids' := ids + (if reqs[0].PlaceOrder? then [reqs[0].id] else []);
      match reqs[0] {
        case PlaceOrder(caller, id, items, total, now) =>
          CreateKeepsWellFormed(orders, ids, caller, id, items, total, now);
        case Claim(id, agent) =>
          AcceptKeepsWellFormed(orders, ids, id, agent);
        case SetStatus(id, agent, status) =>
          UpdateKeepsWellFormed(orders, ids, id, agent, status);
      }
      RunKeepsWellFormed(Apply(orders, reqs[0]).orders, ids', reqs[1..]);
    }
  }

  /** An order returned by the unassigned query stays in it, unchanged,
      whatever requests are served, until one of them claims it. */
  lemma ListedUntilClaimed(orders: Store, ids: seq<OrderId>, reqs: seq<Request>, id: OrderId)
    requires WellFormed(orders, ids) && Runnable(orders, reqs)
    requires id in orders && orders[id] in Queries.UnassignedOrders(Documents(orders, ids))
    requires forall i :: 0 <= i < |reqs| ==> !(reqs[i].Claim? && reqs[i].id == id)
    ensures WellFormed(Run(orders, reqs), Grown(ids, reqs))
    ensures orders[id] in Queries.UnassignedOrders(Documents(Run(orders, reqs), Grown(ids, reqs)))
  {
    StaysUnassignedRun(orders, reqs, id);
    RunKeepsWellFormed(orders, ids, reqs);
    var after := Run(orders, reqs);
    var grown := Grown(ids, reqs);
    var j :| 0 <= j < |grown| && grown[j] == id;
    assert Documents(after, grown)[j] == orders[id];
  }

  /** The server lets the owner write any status, even an earlier one: a
      delivered order can be set back to pending, and is then neither
      offered to agents nor claimable, because its assignee stays. */
  lemma OwnerCanRewindStatus(orders: Store, id: OrderId, agent: UserId, other: UserId)
    requires id in orders && orders[id].assignedTo == Some(agent) && orders[id].status == DELIVERED
    ensures var s := Update(orders, id, agent, PENDING);
      && s.response.Success?
      && s.orders[id].status == PENDING
      && !Queries.IsUnassigned(s.orders[id])
      && Accept(s.orders, id, other).response == Failure(400, ALREADY_ASSIGNED)
  {
  }
}
