/** Shared vocabulary of the delivery app: orders as the server stores them,
    the events the server emits after each write, and HTTP-style replies.
    References to users and products are plain ids (no denormalisation). */
module Orders {

  datatype Option<+T> = None | Some(value: T)

  type OrderId = string
  type UserId = string

  /** One line of an order: a product reference and how many of it. */
  datatype Item = Item(productId: string, quantity: int)

  /** An order record. `total` is in integer cents; `status` is a free string
      because the controller writes whatever status it is sent. */
  datatype Order = Order(
    id: OrderId,
    customer: UserId,
    items: seq<Item>,
    total: int,
    status: string,
    assignedTo: Option<UserId>,
    createdAt: int)

  const PENDING: string := "pending"
  const ACCEPTED: string := "accepted"
  const PICKED_UP: string := "picked_up"
  const ON_THE_WAY: string := "on_the_way"
  const DELIVERED: string := "delivered"

  /** The five statuses in the order the delivery flow visits them. */
  const LIFECYCLE: seq<string> := [PENDING, ACCEPTED, PICKED_UP, ON_THE_WAY, DELIVERED]

  const CUSTOMER_ROLE: string := "customer"
  const DELIVERY_ROLE: string := "delivery"
  const ADMIN_ROLE: string := "admin"

  /** The authenticated caller of a request. */
  datatype Principal = Principal(id: UserId, role: string)

  /** Socket event names emitted by the server. */
  datatype EventKind = OrderCreated | NewOrder | OrderAccepted | OrderLocked | OrderStatusUpdated

  /** One emitted event with the order snapshot it carries. */
  datatype Event = Event(kind: EventKind, order: Order)

  /** What a request handler answers: a status code with the order, or an
      error status code with its message. */
  datatype Response = Success(code: int, order: Order) | Failure(code: int, message: string)

  const NOT_FOUND: string := "Order not found"
  const ALREADY_ASSIGNED: string := "Order already assigned"
  const NOT_AUTHORIZED: string := "Not authorized"
  const SERVER_ERROR: string := "Server error"

  /** The fields an order keeps for its whole life: everything but status
      and assignee. */
  predicate SameRecord(a: Order, b: Order)
  {
    a.id == b.id && a.customer == b.customer && a.items == b.items
    && a.total == b.total && a.createdAt == b.createdAt
  }

  /** Concatenation is associative; recursive proofs over lists regroup
      their pieces with it. */
  lemma ConcatAssociates<T>(p: seq<T>, q: seq<T>, r: seq<T>)
    ensures p + (q + r) == (p + q) + r
  {
  }
}
