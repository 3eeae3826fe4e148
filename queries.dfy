/** The three read-only order queries of the server: a filter over the
    collection followed by a sort on creation time, newest first
    (deliveryController.js getUnassignedOrders and getMyDeliveries,
    customerController.js getMyOrders). */
module Queries {
  import opened Orders

  /** Order-preserving filter over the collection in its natural order:
      every document that passes `keep`, as many times as it occurs. */
  function Select(docs: seq<Order>, keep: Order -> bool): (r: seq<Order>)
    ensures |r| <= |docs|
    ensures forall o :: multiset(r)[o] == if keep(o) then multiset(docs)[o] else 0
    ensures forall o :: o in r <==> o in docs && keep(o)
  {
    if docs == [] then []
    else
      assert docs == [docs[0]] + docs[1..];
      if keep(docs[0]) then [docs[0]] + Select(docs[1..], keep)
      else Select(docs[1..], keep)
  }

  /** Newest first: creation times never increase along the list. */
  predicate NewestFirst(s: seq<Order>)
  {
    forall i, j :: 0 <= i < j < |s| ==> s[i].createdAt >= s[j].createdAt
  }

  /** Puts `o` in front of the first entry that is not newer than it. */
  function InsertNewest(o: Order, s: seq<Order>): (r: seq<Order>)
    requires NewestFirst(s)
    ensures NewestFirst(r)
    ensures multiset(r) == multiset(s) + multiset{o}
    ensures forall x :: x in r ==> x == o || x in s
  {
    if s == [] || s[0].createdAt <= o.createdAt then [o] + s
    else
      assert s == [s[0]] + s[1..];
      var rest := InsertNewest(o, s[1..]);
      assert forall x :: x in rest ==> x.createdAt <= s[0].createdAt;
      [s[0]] + rest
  }

  /** A stable insertion sort on creation time, newest first; entries with
      the same creation time keep their collection order. */
  function SortNewestFirst(s: seq<Order>): (r: seq<Order>)
    ensures NewestFirst(r)
    ensures multiset(r) == multiset(s)
  {
    if s == [] then []
    else
      assert s == [s[0]] + s[1..];
      InsertNewest(s[0], SortNewestFirst(s[1..]))
  }

  predicate IsUnassigned(o: Order)
  {
    o.status == PENDING && o.assignedTo == None
  }

  /** getUnassignedOrders: pending orders nobody holds, newest first. */
  function UnassignedOrders(docs: seq<Order>): (r: seq<Order>)
    ensures NewestFirst(r)
    ensures forall o :: multiset(r)[o] == if IsUnassigned(o) then multiset(docs)[o] else 0
    ensures forall o :: o in r <==> o in docs && IsUnassigned(o)
  {
    SortNewestFirst(Select(docs, IsUnassigned))
  }

  /** getMyDeliveries: the orders assigned to `agent`, newest first. */
  function MyDeliveries(docs: seq<Order>, agent: UserId): (r: seq<Order>)
    ensures NewestFirst(r)
    ensures forall o :: multiset(r)[o] == if o.assignedTo == Some(agent) then multiset(docs)[o] else 0
    ensures forall o :: o in r <==> o in docs && o.assignedTo == Some(agent)
  {
    SortNewestFirst(Select(docs, (o: Order) => o.assignedTo == Some(agent)))
  }

  /** getMyOrders: the orders placed by `customer`, newest first. */
  function MyOrders(docs: seq<Order>, customer: UserId): (r: seq<Order>)
    ensures NewestFirst(r)
    ensures forall o :: multiset(r)[o] == if o.customer == customer then multiset(docs)[o] else 0
    ensures forall o :: o in r <==> o in docs && o.customer == customer
  {
    SortNewestFirst(Select(docs, (o: Order) => o.customer == customer))
  }
}
