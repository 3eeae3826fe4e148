/** The customer's cart and the order request built from it
    (CustomerDashboard.jsx). Every operation builds a new cart from the old
    one; prices are integer cents. */
module Cart {
  import opened Orders

  datatype Product = Product(id: string, name: string, price: int)

  /** A cart line keeps the product object it was added with. */
  datatype CartLine = CartLine(productId: string, product: Product, quantity: int)

  /** The body posted to create an order. */
  datatype OrderRequest = OrderRequest(items: seq<Item>, total: int)

  predicate InCart(cart: seq<CartLine>, productId: string)
  {
    exists i :: 0 <= i < |cart| && cart[i].productId == productId
  }

  /** The cart's invariant: at most one line per product. */
  predicate UniqueIds(cart: seq<CartLine>)
  {
    forall i, j :: 0 <= i < j < |cart| ==> cart[i].productId != cart[j].productId
  }

  predicate AllPositive(cart: seq<CartLine>)
  {
    forall i :: 0 <= i < |cart| ==> cart[i].quantity >= 1
  }

  /** `cart.map(item => item.productId === productId ? {...item, quantity} : item)`. */
  function SetQuantity(cart: seq<CartLine>, productId: string, quantity: int): (r: seq<CartLine>)
    ensures |r| == |cart|
    ensures forall i :: 0 <= i < |cart| ==>
      r[i].productId == cart[i].productId && r[i].product == cart[i].product
      && r[i].quantity == if cart[i].productId == productId then quantity else cart[i].quantity
  {
    if cart == [] then []
    else
      [if cart[0].productId == productId then cart[0].(quantity := quantity) else cart[0]]
      + SetQuantity(cart[1..], productId, quantity)
  }

  /** The map that adds one to every line of the product. */
  function IncrementQuantity(cart: seq<CartLine>, productId: string): (r: seq<CartLine>)
    ensures |r| == |cart|
    ensures forall i :: 0 <= i < |cart| ==>
      r[i].productId == cart[i].productId && r[i].product == cart[i].product
      && r[i].quantity == if cart[i].productId == productId then cart[i].quantity + 1 else cart[i].quantity
  {
    if cart == [] then []
    else
      [if cart[0].productId == productId then cart[0].(quantity := cart[0].quantity + 1) else cart[0]]
      + IncrementQuantity(cart[1..], productId)
  }

  /** addToCart: one more of a product already in the cart, otherwise a
      new line with quantity 1 at the end. */
  function AddToCart(cart: seq<CartLine>, product: Product): (r: seq<CartLine>)
    ensures InCart(r, product.id)
    ensures |r| == if InCart(cart, product.id) then |cart| else |cart| + 1
    ensures UniqueIds(cart) ==> UniqueIds(r)
    ensures AllPositive(cart) ==> AllPositive(r)
  {
    if InCart(cart, product.id) then IncrementQuantity(cart, product.id)
    else
      var r := cart + [CartLine(product.id, product, 1)];
      assert r[|cart|].productId == product.id;
      r
  }

  /** removeFromCart: `cart.filter(item => item.productId !== productId)`. */
  function RemoveFromCart(cart: seq<CartLine>, productId: string): (r: seq<CartLine>)
    ensures !InCart(r, productId)
    ensures forall line :: line in r <==> line in cart && line.productId != productId
    ensures |r| <= |cart|
    ensures UniqueIds(cart) ==> UniqueIds(r)
    ensures AllPositive(cart) ==> AllPositive(r)
  {
    if cart == [] then []
    else if cart[0].productId == productId then RemoveFromCart(cart[1..], productId)
    else [cart[0]] + RemoveFromCart(cart[1..], productId)
  }

  /** updateQuantity: zero removes the line, any other value is written. */
  function UpdateQuantity(cart: seq<CartLine>, productId: string, quantity: int): (r: seq<CartLine>)
    ensures UniqueIds(cart) ==> UniqueIds(r)
  {
    if quantity == 0 then RemoveFromCart(cart, productId) else SetQuantity(cart, productId, quantity)
  }

  /** price x quantity of one line. */
  function LineAmount(line: CartLine): int
  {
    line.product.price * line.quantity
  }

  /** calculateTotal: the sum of the line amounts. */
  function Total(cart: seq<CartLine>): (t: int)
    ensures cart == [] ==> t == 0
    ensures (forall i :: 0 <= i < |cart| ==> cart[i].product.price >= 0 && cart[i].quantity >= 0) ==> t >= 0
  {
    if cart == [] then 0 else LineAmount(cart[0]) + Total(cart[1..])
  }

  /** The placeOrder body: (productId, quantity) per line in cart order,
      and the cart total. */
  function Payload(cart: seq<CartLine>): (p: OrderRequest)
    ensures |p.items| == |cart|
    ensures forall i :: 0 <= i < |cart| ==> p.items[i] == Item(cart[i].productId, cart[i].quantity)
    ensures p.total == Total(cart)
  {
    OrderRequest(seq(|cart|, i requires 0 <= i < |cart| => Item(cart[i].productId, cart[i].quantity)), Total(cart))
  }

  /** Adding a new product appends one line with quantity 1 and keeps the
      others in order. */
  lemma AddNewProduct(cart: seq<CartLine>, product: Product)
    requires !InCart(cart, product.id)
    ensures AddToCart(cart, product) == cart + [CartLine(product.id, product, 1)]
  {
  }

  /** Adding a product already in the cart raises that line's quantity by
      one and leaves the other lines as they were. */
  lemma AddExistingProduct(cart: seq<CartLine>, product: Product, k: nat)
    requires UniqueIds(cart) && k < |cart| && cart[k].productId == product.id
    ensures |AddToCart(cart, product)| == |cart|
    ensures AddToCart(cart, product)[k] == cart[k].(quantity := cart[k].quantity + 1)
    ensures forall i :: 0 <= i < |cart| && i != k ==> AddToCart(cart, product)[i] == cart[i]
  {
  }

  /** Removing an absent product changes nothing. */
  lemma {:induction false} RemoveAbsent(cart: seq<CartLine>, productId: string)
    requires !InCart(cart, productId)
    ensures RemoveFromCart(cart, productId) == cart
  {
    if cart != [] {
      RemoveAbsent(cart[1..], productId);
    }
  }

  /** Removal is idempotent. */
  lemma RemoveIdempotent(cart: seq<CartLine>, productId: string)
    ensures RemoveFromCart(RemoveFromCart(cart, productId), productId) == RemoveFromCart(cart, productId)
  {
    RemoveAbsent(RemoveFromCart(cart, productId), productId);
  }

  /** Removing one product keeps the other lines in their order: removal
      from a concatenation is the concatenation of the removals. */
  lemma {:induction false} RemoveKeepsOrder(a: seq<CartLine>, b: seq<CartLine>, productId: string)
    ensures RemoveFromCart(a + b, productId) == RemoveFromCart(a, productId) + RemoveFromCart(b, productId)
  {
    if a == [] {
      assert a + b == b;
    } else {
      var head := if a[0].productId == productId then [] else [a[0]];
      assert a + b == [a[0]] + (a[1..] + b);
      RemoveCons(a[0], a[1..] + b, productId);
      RemoveCons(a[0], a[1..], productId);
      assert a == [a[0]] + a[1..];
      RemoveKeepsOrder(a[1..], b, productId);
      ConcatAssociates(head, RemoveFromCart(a[1..], productId), RemoveFromCart(b, productId));
    }
  }

  lemma RemoveCons(x: CartLine, rest: seq<CartLine>, productId: string)
    ensures RemoveFromCart([x] + rest, productId) == (if x.productId == productId then [] else [x]) + RemoveFromCart(rest, productId)
  {
    assert ([x] + rest)[0] == x && ([x] + rest)[1..] == rest;
  }

  /** Quantity zero is removal; any other quantity changes only that
      product's quantity. */
  lemma UpdateQuantityCases(cart: seq<CartLine>, productId: string, quantity: int)
    ensures quantity == 0 ==> UpdateQuantity(cart, productId, quantity) == RemoveFromCart(cart, productId)
    ensures quantity != 0 ==>
      && |UpdateQuantity(cart, productId, quantity)| == |cart|
      && forall i :: 0 <= i < |cart| ==>
        && UpdateQuantity(cart, productId, quantity)[i].productId == cart[i].productId
        && UpdateQuantity(cart, productId, quantity)[i].quantity ==
           if cart[i].productId == productId then quantity else cart[i].quantity
  {
  }

  /** The minus and plus buttons ask for the line's quantity minus or plus
      one; starting from positive quantities, every quantity stays positive
      (minus on a single item removes the line). */
  lemma ButtonsKeepQuantitiesPositive(cart: seq<CartLine>, k: nat, delta: int)
    requires AllPositive(cart) && k < |cart| && (delta == 1 || delta == -1)
    ensures AllPositive(UpdateQuantity(cart, cart[k].productId, cart[k].quantity + delta))
  {
  }

  /** The total of a concatenation is the sum of the totals. */
  lemma {:induction false} TotalAppend(a: seq<CartLine>, b: seq<CartLine>)
    ensures Total(a + b) == Total(a) + Total(b)
  {
    if a == [] {
      assert a + b == b;
    } else {
      assert (a + b)[0] == a[0] && (a + b)[1..] == a[1..] + b;
      TotalAppend(a[1..], b);
    }
  }

  /** Adding a product raises the total by one unit price: the new
      product's price for a new line, and for an existing line the price of
      the product object that line already holds. */
  lemma AddToCartTotal(cart: seq<CartLine>, product: Product)
    requires UniqueIds(cart)
    ensures !InCart(cart, product.id) ==> Total(AddToCart(cart, product)) == Total(cart) + product.price
    ensures forall k :: 0 <= k < |cart| && cart[k].productId == product.id ==>
      Total(AddToCart(cart, product)) == Total(cart) + cart[k].product.price
  {
    if !InCart(cart, product.id) {
      TotalAppend(cart, [CartLine(product.id, product, 1)]);
      assert Total([CartLine(product.id, product, 1)]) == product.price;
    } else {
      forall k | 0 <= k < |cart| && cart[k].productId == product.id
        ensures Total(AddToCart(cart, product)) == Total(cart) + cart[k].product.price
      {
        IncrementOneLine(cart, product.id, k);
      }
    }
  }

  /** With one line of the product, at position k, incrementing adds that
      line's unit price to the total. */
  lemma {:induction false} IncrementOneLine(cart: seq<CartLine>, productId: string, k: nat)
    requires UniqueIds(cart) && k < |cart| && cart[k].productId == productId
    ensures Total(IncrementQuantity(cart, productId)) == Total(cart) + cart[k].product.price
  {
    var r := IncrementQuantity(cart, productId);
    assert r[0].product == cart[0].product;
    if k == 0 {
      IncrementAbsent(cart[1..], productId);
      assert LineAmount(r[0]) == LineAmount(cart[0]) + cart[0].product.price;
    } else {
      assert cart[0].productId != productId;
      IncrementOneLine(cart[1..], productId, k - 1);
    }
  }

  /** Incrementing an absent product changes nothing. */
  lemma {:induction false} IncrementAbsent(cart: seq<CartLine>, productId: string)
    requires !InCart(cart, productId)
    ensures IncrementQuantity(cart, productId) == cart
  {
    if cart != [] {
      IncrementAbsent(cart[1..], productId);
    }
  }
}
