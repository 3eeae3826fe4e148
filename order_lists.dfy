/** The list updates the dashboards apply when a socket event arrives:
    drop every entry with an id (`filter`) and swap in a new snapshot for
    every entry with its id (`map`). Prepending is plain `[o] + list`. */
module OrderLists {
  import opened Orders

  /** How many entries carry `id`. */
  function CountId(list: seq<Order>, id: OrderId): (n: nat)
    ensures n <= |list|
    ensures n == 0 <==> forall o :: o in list ==> o.id != id
  {
    if list == [] then 0
    else (if list[0].id == id then 1 else 0) + CountId(list[1..], id)
  }

  /** `list.filter(o => o._id !== id)`. */
  function RemoveById(list: seq<Order>, id: OrderId): (r: seq<Order>)
    ensures forall o :: o in r <==> o in list && o.id != id
    ensures |r| == |list| - CountId(list, id)
  {
    if list == [] then []
    else if list[0].id == id then RemoveById(list[1..], id)
    else [list[0]] + RemoveById(list[1..], id)
  }

  /** `list.map(o => o._id === order._id ? order : o)`. */
  function ReplaceById(list: seq<Order>, order: Order): (r: seq<Order>)
    ensures |r| == |list|
    ensures forall i :: 0 <= i < |list| ==> r[i] == if list[i].id == order.id then order else list[i]
  {
    if list == [] then []
    else [if list[0].id == order.id then order else list[0]] + ReplaceById(list[1..], order)
  }

  /** Removal distributes over concatenation: the surviving entries keep
      their relative order. */
  lemma {:induction false} RemoveByIdKeepsOrder(a: seq<Order>, b: seq<Order>, id: OrderId)
    ensures RemoveById(a + b, id) == RemoveById(a, id) + RemoveById(b, id)
  {
    if a == [] {
      assert a + b == b;
    } else {
      var head := if a[0].id == id then [] else [a[0]];
      assert a + b == [a[0]] + (a[1..] + b);
      RemoveByIdCons(a[0], a[1..] + b, id);
      RemoveByIdCons(a[0], a[1..], id);
      assert a == [a[0]] + a[1..];
      RemoveByIdKeepsOrder(a[1..], b, id);
      ConcatAssociates(head, RemoveById(a[1..], id), RemoveById(b, id));
    }
  }

  lemma RemoveByIdCons(x: Order, rest: seq<Order>, id: OrderId)
    ensures RemoveById([x] + rest, id) == (if x.id == id then [] else [x]) + RemoveById(rest, id)
  {
    assert ([x] + rest)[0] == x && ([x] + rest)[1..] == rest;
  }

  /** Removing an id that is not there changes nothing. */
  lemma {:induction false} RemoveAbsentId(list: seq<Order>, id: OrderId)
    requires forall o :: o in list ==> o.id != id
    ensures RemoveById(list, id) == list
  {
    if list != [] {
      RemoveAbsentId(list[1..], id);
    }
  }

  /** Removal is idempotent. */
  lemma RemoveByIdIdempotent(list: seq<Order>, id: OrderId)
    ensures RemoveById(RemoveById(list, id), id) == RemoveById(list, id)
  {
    RemoveAbsentId(RemoveById(list, id), id);
  }

  /** An order pushed in front and then removed by id leaves no entry with
      that id, and the rest of the list as removal alone would. */
  lemma PrependThenRemove(list: seq<Order>, o: Order)
    ensures RemoveById([o] + list, o.id) == RemoveById(list, o.id)
    ensures forall x :: x in RemoveById([o] + list, o.id) ==> x.id != o.id
  {
    assert ([o] + list)[1..] == list;
  }

  /** Replacing by an id that is not there changes nothing. */
  lemma ReplaceAbsentId(list: seq<Order>, order: Order)
    requires forall o :: o in list ==> o.id != order.id
    ensures ReplaceById(list, order) == list
  {
  }

  /** Replacement keeps every entry's id, and applying it twice is the same
      as once. */
  lemma ReplaceByIdKeepsIds(list: seq<Order>, order: Order)
    ensures forall i :: 0 <= i < |list| ==> ReplaceById(list, order)[i].id == list[i].id
    ensures ReplaceById(ReplaceById(list, order), order) == ReplaceById(list, order)
  {
  }
}
