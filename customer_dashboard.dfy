/** The customer page's state: the cart, the customer's own orders, the
    selected tab and the loading flag. Each handler replaces the state with
    the pure transform of the old one. */
module CustomerPage {
  import opened Orders
  import Cart
  import OrderLists

  class CustomerDashboard {
    var cart: seq<Cart.CartLine>
    var orders: seq<Order>
    var activeTab: string
    var loading: bool

    /** At most one cart line per product, and every quantity positive. */
    ghost predicate Valid()
      reads this
    {
      Cart.UniqueIds(cart) && Cart.AllPositive(cart)
    }

    constructor()
      ensures Valid()
      ensures cart == [] && orders == [] && activeTab == "products" && !loading
    {
      cart := [];
      orders := [];
      activeTab := "products";
      loading := false;
    }

    method AddToCart(product: Cart.Product)
      requires Valid()
      modifies this
      ensures Valid()
      ensures cart == Cart.AddToCart(old(cart), product)
      ensures orders == old(orders) && activeTab == old(activeTab) && loading == old(loading)
    {
      cart := Cart.AddToCart(cart, product);
    }

    method RemoveFromCart(productId: string)
      requires Valid()
      modifies this
      ensures Valid()
      ensures cart == Cart.RemoveFromCart(old(cart), productId)
      ensures orders == old(orders) && activeTab == old(activeTab) && loading == old(loading)
    {
      cart := Cart.RemoveFromCart(cart, productId);
    }

    /** The minus and plus buttons of the line at index k. */
    method StepQuantity(k: nat, delta: int)
      requires Valid() && k < |cart| && (delta == 1 || delta == -1)
      modifies this
      ensures Valid()
      ensures cart == Cart.UpdateQuantity(old(cart), old(cart)[k].productId, old(cart)[k].quantity + delta)
      ensures orders == old(orders) && activeTab == old(activeTab) && loading == old(loading)
    {
      Cart.ButtonsKeepQuantitiesPositive(cart, k, delta);
      cart := Cart.UpdateQuantity(cart, cart[k].productId, cart[k].quantity + delta);
    }

    /** updateQuantity with the values the page sends it: a line's quantity
        plus or minus one, so never negative. Zero removes the line, any
        other value is written; the cart invariant is kept. */
    method UpdateQuantity(productId: string, quantity: int)
      requires Valid() && quantity >= 0
      modifies this
      ensures Valid()
      ensures cart == Cart.UpdateQuantity(old(cart), productId, quantity)
      ensures orders == old(orders) && activeTab == old(activeTab) && loading == old(loading)
    {
      cart := Cart.UpdateQuantity(cart, productId, quantity);
    }

    /** placeOrder. `posted` is whether the POST succeeded. On an empty cart
        nothing is sent and nothing changes. Otherwise the payload of the
        cart is sent; the cart is emptied and the orders tab selected only
        on success; the loading flag ends false either way. */
    method PlaceOrder(posted: bool) returns (sent: Option<Cart.OrderRequest>)
      requires Valid()
      modifies this
      ensures Valid()
      ensures old(cart) == [] ==>
        sent == None && cart == old(cart) && activeTab == old(activeTab) && loading == old(loading)
      ensures old(cart) != [] ==>
        && sent == Some(Cart.Payload(old(cart)))
        && cart == (if posted then [] else old(cart))
        && activeTab == (if posted then "orders" else old(activeTab))
        && !loading
      ensures orders == old(orders)
    {
      if |cart| == 0 {
        return None;
      }
      loading := true;
      var request := Cart.Payload(cart);
      sent := Some(request);
      if posted {
        cart := [];
        activeTab := "orders";
      }
      loading := false;
    }

    /** fetchMyOrders resolving with the server's list. */
    method LoadOrders(list: seq<Order>)
      modifies this
      ensures orders == list
      ensures cart == old(cart) && activeTab == old(activeTab) && loading == old(loading)
    {
      orders := list;
    }

    /** The order_accepted and order_status_updated handlers: the entry
        with the event's id takes the new snapshot, the others stay. */
    method OnOrderChanged(order: Order)
      modifies this
      ensures orders == OrderLists.ReplaceById(old(orders), order)
      ensures |orders| == |old(orders)|
      ensures (forall o :: o in old(orders) ==> o.id != order.id) ==> orders == old(orders)
      ensures cart == old(cart) && activeTab == old(activeTab) && loading == old(loading)
    {
      if forall o :: o in orders ==> o.id != order.id {
        OrderLists.ReplaceAbsentId(orders, order);
      }
      orders := OrderLists.ReplaceById(orders, order);
    }
  }
}
