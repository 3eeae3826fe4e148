/** What an order card offers: the short id in its header and the action
    buttons. The buttons are the only place where the forward-only
    delivery sequence accepted, picked_up, on_the_way, delivered exists. */
module OrderCard {
  import opened Orders

  /** `_id.slice(-6)`: the last six characters, or the whole id when it is
      shorter. */
  function ShortId(id: string): (r: string)
    ensures |r| == if |id| < 6 then |id| else 6
    ensures r == id[|id| - |r|..]
  {
    if |id| <= 6 then id else id[|id| - 6..]
  }

  /** A button: accept the order, or ask for a new status. */
  datatype Action = AcceptAction(orderId: OrderId) | AdvanceAction(orderId: OrderId, target: string)

  /** Where a status stands in the lifecycle; 5 for any other string. */
  function Position(status: string): (k: nat)
    ensures k <= 5
    ensures k < 5 ==> LIFECYCLE[k] == status
    ensures k == 5 <==> status !in LIFECYCLE
  {
    if status == PENDING then 0
    else if status == ACCEPTED then 1
    else if status == PICKED_UP then 2
    else if status == ON_THE_WAY then 3
    else if status == DELIVERED then 4
    else 5
  }

  /** The status an advance button requests, by the three status tests of
      the card. */
  function NextStatus(status: string): (r: Option<string>)
    ensures r.Some? <==> 1 <= Position(status) <= 3
    ensures r.Some? ==> r.value == LIFECYCLE[Position(status) + 1]
  {
    if status == ACCEPTED then Some(PICKED_UP)
    else if status == PICKED_UP then Some(ON_THE_WAY)
    else if status == ON_THE_WAY then Some(DELIVERED)
    else None
  }

  /** The buttons a card shows, in display order. `hasOnAccept` and
      `hasOnUpdateStatus` say whether the parent passed those handlers. */
  function Actions(order: Order, hasOnAccept: bool, hasOnUpdateStatus: bool, showActions: bool): (r: seq<Action>)
    ensures |r| <= 1
    ensures !showActions ==> r == []
    ensures forall a :: a in r ==> a.orderId == order.id
    ensures AcceptAction(order.id) in r <==> showActions && hasOnAccept && order.status == PENDING
    ensures forall t :: AdvanceAction(order.id, t) in r <==>
      showActions && hasOnUpdateStatus && NextStatus(order.status) == Some(t)
  {
    if !showActions then []
    else
      (if order.status == PENDING && hasOnAccept then [AcceptAction(order.id)] else [])
      + (if order.status == ACCEPTED && hasOnUpdateStatus then [AdvanceAction(order.id, PICKED_UP)] else [])
      + (if order.status == PICKED_UP && hasOnUpdateStatus then [AdvanceAction(order.id, ON_THE_WAY)] else [])
      + (if order.status == ON_THE_WAY && hasOnUpdateStatus then [AdvanceAction(order.id, DELIVERED)] else [])
  }

  /** A delivered order, or one with an unknown status, offers nothing to
      its agent. */
  lemma NothingAfterDelivered(order: Order, hasOnAccept: bool, hasOnUpdateStatus: bool, showActions: bool)
    requires order.status == DELIVERED || order.status !in LIFECYCLE
    ensures Actions(order, hasOnAccept, hasOnUpdateStatus, showActions) == []
  {
  }

  function Remaining(status: string): nat
  {
    if 1 <= Position(status) <= 3 then 4 - Position(status) else 0
  }

  /** The statuses visited by pressing the offered button again and again. */
  function Trail(status: string): seq<string>
    decreases Remaining(status)
  {
    match NextStatus(status)
    case None => []
    case Some(next) => [next] + Trail(next)
  }

  /** From any status from accepted on, the buttons walk the rest of the
      lifecycle in order and stop at delivered. */
  lemma {:induction false} TrailIsRestOfLifecycle(status: string)
    requires 1 <= Position(status) <= 4
    ensures Trail(status) == LIFECYCLE[Position(status) + 1..]
    decreases Remaining(status)
  {
    match NextStatus(status)
    case None =>
    case Some(next) =>
      TrailIsRestOfLifecycle(next);
  }

  /** Starting from accepted: picked_up, on_the_way, delivered, with no
      status repeated, and nothing is offered after delivered. */
  lemma TrailFromAccepted()
    ensures Trail(ACCEPTED) == [PICKED_UP, ON_THE_WAY, DELIVERED]
    ensures forall i, j :: 0 <= i < j < |Trail(ACCEPTED)| ==> Trail(ACCEPTED)[i] != Trail(ACCEPTED)[j]
    ensures NextStatus(DELIVERED) == None
  {
    TrailIsRestOfLifecycle(ACCEPTED);
  }
}
