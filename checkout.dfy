/** The checkout page: the redirect rule, the order document built from the
    cart, the per-product sales increments written with it, and the
    `handlePlaceOrder` state changes (src/app/checkout/page.js). The cart
    lines and their total come from the cart context; the document store's
    transaction is an input that may fail. */
module Checkout {
  import opened Seqs
  import opened Js
  import opened SellerDashboard

  const DeliveryCharge: int := 50
  const LoginRedirect := "/login?redirect=/checkout"

  /** A cart line as the cart context holds it. */
  datatype CartItem = CartItem(id: string, name: string, price: int, quantity: int,
                               imageUrls: seq<string>, artisanId: string)

  /** The signed-in buyer: uid and display name (which may be null). */
  datatype Buyer = Buyer(uid: string, displayName: JsValue)

  /** A shipping address is an object of named fields. */
  type Address = map<string, JsValue>

  /** The order document written at checkout (the server timestamp aside). */
  datatype Order = Order(
    buyerId: string,
    artisanIds: seq<string>,
    shippingAddress: Address,
    items: seq<OrderItem>,
    subtotal: int,
    deliveryCharge: int,
    totalAmount: int,
    status: string,
    paymentMethod: string,
    paymentStatus: string)

  /** Where the page's effect sends the visitor, if anywhere: nowhere while
      the session is still being resolved, to the login page without a user,
      home with an empty cart. */
  function CheckoutRedirect(authLoading: bool, signedIn: bool, cartCount: int): (r: Option<string>)
    ensures authLoading ==> r == None
    ensures !authLoading && !signedIn ==> r == Some(LoginRedirect)
    ensures !authLoading && signedIn && cartCount == 0 ==> r == Some("/")
    ensures r == None <==> authLoading || (signedIn && cartCount != 0)
  {
    if authLoading then None
    else if !signedIn then Some(LoginRedirect)
    else if cartCount == 0 then Some("/")
    else None
  }

  /** `finalTotal`: the cart total plus the fixed delivery charge. */
  function FinalTotal(totalPrice: int): (t: int)
    ensures t - totalPrice == DeliveryCharge
  {
    totalPrice + DeliveryCharge
  }

  /** `[...new Set(cartItems.map(item => item.artisanId))]`. */
  function ArtisanIds(items: seq<CartItem>): (r: seq<string>)
    ensures NoDuplicates(r)
    ensures forall a :: a in r <==> exists k :: 0 <= k < |items| && items[k].artisanId == a
    ensures |r| <= |items|
  {
    var sellers := seq(|items|, k requires 0 <= k < |items| => items[k].artisanId);
    assert forall a :: a in sellers <==> exists k :: 0 <= k < |items| && items[k].artisanId == a by {
      forall a ensures a in sellers <==> exists k :: 0 <= k < |items| && items[k].artisanId == a {
        if a in sellers {
          var k :| 0 <= k < |sellers| && sellers[k] == a;
          assert items[k].artisanId == a;
        }
        if exists k :: 0 <= k < |items| && items[k].artisanId == a {
          var k :| 0 <= k < |items| && items[k].artisanId == a;
          assert sellers[k] == a;
        }
      }
    }
    Dedup(sellers)
  }

  /** `item.imageUrls[0]`: undefined when the line has no image. */
  function FirstImage(urls: seq<string>): (r: Option<string>)
    ensures r.Some? <==> urls != []
    ensures r.Some? ==> r.value == urls[0]
  {
    if urls == [] then None else Some(urls[0])
  }

  function LineOf(item: CartItem): OrderItem {
    OrderItem(item.id, item.name, item.price, item.quantity, FirstImage(item.imageUrls), item.artisanId)
  }

  /** The order's lines: one per cart line, in cart order, each copying the
      line's fields and its first image. */
  function OrderLines(items: seq<CartItem>): (r: seq<OrderItem>)
    ensures |r| == |items|
    ensures forall k :: 0 <= k < |items| ==>
      && r[k].id == items[k].id && r[k].name == items[k].name
      && r[k].price == items[k].price && r[k].quantity == items[k].quantity
      && r[k].artisanId == items[k].artisanId
      && r[k].imageUrl == FirstImage(items[k].imageUrls)
  {
    seq(|items|, k requires 0 <= k < |items| => LineOf(items[k]))
  }

  /** `orderData`. */
  function MakeOrder(buyer: Buyer, address: Address, items: seq<CartItem>, totalPrice: int): (o: Order)
    ensures o.buyerId == buyer.uid
    ensures o.artisanIds == ArtisanIds(items) && o.items == OrderLines(items)
    ensures o.shippingAddress.Keys == address.Keys + {"name"}
    ensures o.shippingAddress["name"] == buyer.displayName
    ensures forall f :: f in address && f != "name" ==> f in o.shippingAddress && o.shippingAddress[f] == address[f]
    ensures o.subtotal == totalPrice && o.deliveryCharge == DeliveryCharge
    ensures o.totalAmount == o.subtotal + o.deliveryCharge
    ensures o.status == "Packaging" && o.paymentMethod == "Manual" && o.paymentStatus == "Paid"
  {
    Order(buyer.uid, ArtisanIds(items), address["name" := buyer.displayName], OrderLines(items),
          totalPrice, DeliveryCharge, FinalTotal(totalPrice), "Packaging", "Manual", "Paid")
  }

  /** Every seller with a line in the order is listed in `artisanIds`, so the
      seller dashboard's `array-contains` query finds the order. */
  lemma OrderListsEverySeller(buyer: Buyer, address: Address, items: seq<CartItem>, totalPrice: int)
    ensures var o := MakeOrder(buyer, address, items, totalPrice);
      forall k :: 0 <= k < |o.items| ==> o.items[k].artisanId in o.artisanIds
  {
    var o := MakeOrder(buyer, address, items, totalPrice);
    forall k | 0 <= k < |o.items| ensures o.items[k].artisanId in o.artisanIds {
      assert items[k].artisanId == o.items[k].artisanId;
    }
  }

  /** The quantity a seller sells through the order is the sum of the
      quantities of that seller's cart lines. */
  function CartSales(items: seq<CartItem>, uid: string): int {
    if items == [] then 0
    else
      var last := items[|items| - 1];
      CartSales(items[..|items| - 1], uid) + (if last.artisanId == uid then last.quantity else 0)
  }

  lemma {:induction false} OrderSalesMatchCart(items: seq<CartItem>, uid: string)
    ensures ItemSales(OrderLines(items), uid) == CartSales(items, uid)
    decreases |items|
  {
    if items != [] {
      var front := items[..|items| - 1];
      OrderSalesMatchCart(front, uid);
      assert OrderLines(items)[..|items| - 1] == OrderLines(front);
    }
  }

  /** The total quantity of the cart lines for one product. */
  function QuantityOf(items: seq<CartItem>, id: string): int {
    if items == [] then 0
    else (if items[0].id == id then items[0].quantity else 0) + QuantityOf(items[1..], id)
  }

  /** The transaction's increments applied one line at a time to the
      products' `sales`; a line whose product document is missing makes the
      whole transaction fail. */
  function Increments(sales: map<string, int>, items: seq<CartItem>): Option<map<string, int>> {
    if items == [] then Some(sales)
    else if items[0].id !in sales then None
    else Increments(sales[items[0].id := sales[items[0].id] + items[0].quantity], items[1..])
  }

  /** The transaction succeeds exactly when every line's product exists, and
      then each product gains the total quantity ordered of it; no product
      is added or removed. */
  lemma {:induction false} IncrementsSpec(sales: map<string, int>, items: seq<CartItem>)
    ensures Increments(sales, items).Some? <==> forall k :: 0 <= k < |items| ==> items[k].id in sales
    ensures Increments(sales, items).Some? ==>
      && Increments(sales, items).value.Keys == sales.Keys
      && forall id :: id in sales ==> Increments(sales, items).value[id] == sales[id] + QuantityOf(items, id)
    decreases |items|
  {
    if items != [] && items[0].id in sales {
      var next := sales[items[0].id := sales[items[0].id] + items[0].quantity];
      IncrementsSpec(next, items[1..]);
      assert forall k :: 0 <= k < |items[1..]| ==> items[1..][k] == items[k + 1];
      if forall k :: 0 <= k < |items[1..]| ==> items[1..][k].id in next {
        assert forall k :: 0 <= k < |items| ==> items[k].id in sales by {
          forall k | 0 <= k < |items| ensures items[k].id in sales {
            if k > 0 {
              assert items[1..][k - 1].id in next;
            }
          }
        }
      }
    }
  }

  /** A product with no line in the cart keeps its sales. */
  lemma {:induction false} QuantityOfAbsent(items: seq<CartItem>, id: string)
    requires forall k :: 0 <= k < |items| ==> items[k].id != id
    ensures QuantityOf(items, id) == 0
    decreases |items|
  {
    if items != [] {
      QuantityOfAbsent(items[1..], id);
    }
  }

  /** The transaction body's `for` loop: one `increment(item.quantity)` per
      cart line. */
  method ApplyIncrements(sales: map<string, int>, items: seq<CartItem>) returns (r: Option<map<string, int>>)
    ensures r == Increments(sales, items)
  {
    var current := sales;
    var i := 0;
    while i < |items|
      invariant 0 <= i <= |items|
      invariant Increments(sales, items) == Increments(current, items[i..])
    {
      assert items[i..][1..] == items[i + 1..];
      var item := items[i];
      if item.id !in current {
        return None;
      }
      current := current[item.id := current[item.id] + item.quantity];
      i := i + 1;
    }
    r := Some(current);
  }

  /** The page's state, with the parts of the store and cart it changes. */
  class CheckoutPage {
    var address: Option<Address>
    var loading: bool
    var placingOrder: bool
    /** The cart context's lines. */
    var cart: seq<CartItem>
    /** The `sales` field of every product document, by id. */
    var productSales: map<string, int>
    /** The orders collection. */
    var orders: seq<Order>

    constructor (cart: seq<CartItem>, productSales: map<string, int>, orders: seq<Order>)
      ensures address == None && loading && !placingOrder
      ensures this.cart == cart && this.productSales == productSales && this.orders == orders
    {
      address := None;
      loading := true;
      placingOrder := false;
      this.cart := cart;
      this.productSales := productSales;
      this.orders := orders;
    }

    /** `fetchAddress`: the stored address (None when the profile or its
        `shippingAddress` is missing) is taken if present. */
    method AddressFetched(stored: Option<Address>)
      modifies this`address, this`loading
      ensures address == (if stored.Some? then stored else old(address))
      ensures !loading
    {
      if stored.Some? {
        address := stored;
      }
      loading := false;
    }

    /** `handlePlaceOrder`. `commits` says whether the store accepts the
        transaction; it also fails when a line's product is missing. On
        success the order is added, every line's product gains its
        quantity and the cart is emptied; otherwise nothing is written. */
    method PlaceOrder(buyer: Option<Buyer>, totalPrice: int, commits: bool) returns (placed: bool)
      modifies this
      ensures address == old(address) && loading == old(loading) && !placingOrder
      ensures buyer.None? || old(address).None? || old(cart) == [] ==> !placed
      ensures placed ==>
        && buyer.Some? && old(address).Some? && old(cart) != []
        && orders == old(orders) + [MakeOrder(buyer.value, old(address).value, old(cart), totalPrice)]
        && Increments(old(productSales), old(cart)) == Some(productSales)
        && cart == []
      ensures !placed ==> orders == old(orders) && productSales == old(productSales) && cart == old(cart)
      ensures placed <==>
        (buyer.Some? && old(address).Some? && old(cart) != [] && commits
         && Increments(old(productSales), old(cart)).Some?)
    {
      placed := false;
      if buyer.None? || address.None? || cart == [] {
        placingOrder := false;
        return;
      }
      placingOrder := true;
      var order := MakeOrder(buyer.value, address.value, cart, totalPrice);
      var updated := ApplyIncrements(productSales, cart);
      if commits && updated.Some? {
        orders := orders + [order];
        productSales := updated.value;
        cart := [];
        placed := true;
      }
      placingOrder := false;
    }
  }

  /** A placed order leaves a product without a cart line untouched and
      raises every other product's sales by exactly its ordered quantity. */
  lemma PlacedSales(before: map<string, int>, after: map<string, int>, items: seq<CartItem>)
    requires Increments(before, items) == Some(after)
    ensures after.Keys == before.Keys
    ensures forall id :: id in before ==> after[id] == before[id] + QuantityOf(items, id)
    ensures forall id :: id in before && (forall k :: 0 <= k < |items| ==> items[k].id != id) ==> after[id] == before[id]
  {
    IncrementsSpec(before, items);
    forall id | id in before && (forall k :: 0 <= k < |items| ==> items[k].id != id)
      ensures after[id] == before[id]
    {
      QuantityOfAbsent(items, id);
    }
  }
}
