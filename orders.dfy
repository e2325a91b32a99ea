/** Checkout and the order store (`OrderServiceImpl`): turning a user's cart
    into a PENDING order with one price-snapshot line per cart line, clearing
    the cart, and the order reads and the unrestricted status setter. */
module OrderService {
  import opened Common
  import opened Records
  import opened Store

  /** What the service hands back for an order (`OrderDto`). */
  datatype OrderDto = OrderDto(
    id: Id,
    userId: Id,
    orderDate: Timestamp,
    orderItems: seq<OrderItem>,
    status: OrderStatus,
    total: Money)

  ghost predicate WinesKnown(lines: seq<CartItem>, wines: map<Id, Wine>)
  {
    forall i :: 0 <= i < |lines| ==> lines[i].wineId in wines
  }

  /** One cart line's contribution: the wine's current price times the quantity. */
  function LineAmount(line: CartItem, wines: map<Id, Wine>): Money
    requires line.wineId in wines
  {
    wines[line.wineId].price * (line.quantity as real)
  }

  /** `calculateTotalOrderPrice`: the line amounts added up from zero, in order. */
  function CartTotal(lines: seq<CartItem>, wines: map<Id, Wine>): Money
    requires WinesKnown(lines, wines)
  {
    if lines == [] then 0.0
    else CartTotal(lines[..|lines| - 1], wines) + LineAmount(lines[|lines| - 1], wines)
  }

  /** The sum of price times quantity over order lines, added up from zero. */
  function ItemsTotal(items: seq<OrderItem>): Money
  {
    if items == [] then 0.0
    else ItemsTotal(items[..|items| - 1]) + items[|items| - 1].price * (items[|items| - 1].quantity as real)
  }

  /** `toEntityFromCartItem` followed by `setOrder`: the new line keeps the
      cart line's wine and quantity, copies the wine's price, and takes the
      key the store generates (the cart line's key is not copied). */
  function ToOrderItem(orderId: Id, id: Id, line: CartItem, wines: map<Id, Wine>): OrderItem
    requires line.wineId in wines
  {
    OrderItem(id, orderId, line.wineId, line.quantity, wines[line.wineId].price, false)
  }

  /** `createAndSaveOrderItems`: one order line per cart line, keyed from
      `firstId` upwards in line order. */
  function OrderItemsFor(orderId: Id, firstId: Id, lines: seq<CartItem>, wines: map<Id, Wine>): (items: seq<OrderItem>)
    requires WinesKnown(lines, wines)
    ensures |items| == |lines|
    ensures forall k :: 0 <= k < |items| ==>
      && items[k].id == firstId + k
      && items[k].orderId == orderId
      && items[k].wineId == lines[k].wineId
      && items[k].quantity == lines[k].quantity
      && items[k].price == wines[lines[k].wineId].price
      && !items[k].deleted
  {
    if lines == [] then []
    else
      var n := |lines| - 1;
      OrderItemsFor(orderId, firstId, lines[..n], wines) + [ToOrderItem(orderId, firstId + n, lines[n], wines)]
  }

  /** The order lines repeat the order's total: the sum of their price
      snapshots times their quantities equals the sum computed from the cart. */
  lemma {:induction false} SnapshotTotal(orderId: Id, firstId: Id, lines: seq<CartItem>, wines: map<Id, Wine>)
    requires WinesKnown(lines, wines)
    ensures ItemsTotal(OrderItemsFor(orderId, firstId, lines, wines)) == CartTotal(lines, wines)
  {
    if lines != [] {
      var n := |lines| - 1;
      var items := OrderItemsFor(orderId, firstId, lines, wines);
      assert items[..n] == OrderItemsFor(orderId, firstId, lines[..n], wines);
      SnapshotTotal(orderId, firstId, lines[..n], wines);
    }
  }

  /** `clearShoppingCart`: every line of cart `cartId` leaves the table; the
      other carts' lines stay, in order. */
  function ClearCart(items: seq<CartItem>, cartId: Id): (rest: seq<CartItem>)
    ensures |rest| <= |items|
    ensures forall x :: x in rest <==> x in items && x.cartId != cartId
  {
    if items == [] then []
    else if items[0].cartId == cartId then ClearCart(items[1..], cartId)
    else [items[0]] + ClearCart(items[1..], cartId)
  }

  /** After the clear the cart has no lines, and every other cart has exactly
      the lines it had. */
  lemma {:induction false} ClearCartEffect(items: seq<CartItem>, cartId: Id, other: Id)
    requires other != cartId
    ensures CartItemsOf(ClearCart(items, cartId), cartId) == []
    ensures CartItemsOf(ClearCart(items, cartId), other) == CartItemsOf(items, other)
  {
    if items != [] {
      ClearCartEffect(items[1..], cartId, other);
      if items[0].cartId != cartId {
        assert ClearCart(items, cartId) == [items[0]] + ClearCart(items[1..], cartId);
        assert ([items[0]] + ClearCart(items[1..], cartId))[1..] == ClearCart(items[1..], cartId);
      }
    }
  }

  /** `clearShoppingCart` as written: it empties the cart's in-memory item set,
      which is the inverse side of the line-to-cart association and has no
      orphan removal, then merges the cart.  No row of the cart-item table is
      deleted, so the table is left as it was. */
  function ClearCartAsWritten(items: seq<CartItem>, cartId: Id): seq<CartItem>
  {
    items
  }

  /** As written, a cart that had lines before checkout still has them after:
      the one-line cart of user 7 keeps its line. */
  lemma ClearAsWrittenKeepsLines()
    ensures var items := [CartItem(1, 7, 2)];
      && CartItemsOf(items, 7) == [CartItem(1, 7, 2)]
      && CartItemsOf(ClearCartAsWritten(items, 7), 7) == [CartItem(1, 7, 2)]
  {
    var items := [CartItem(1, 7, 2)];
    assert items[1..] == [];
  }

  lemma {:induction false} ClearCartKeepsKeysUnique(items: seq<CartItem>, cartId: Id)
    requires KeysUnique(items)
    ensures KeysUnique(ClearCart(items, cartId))
  {
    if items != [] {
      ClearCartKeepsKeysUnique(items[1..], cartId);
      var rest := ClearCart(items[1..], cartId);
      forall x | x in rest
        ensures x.wineId != items[0].wineId
      {
        var j :| 0 <= j < |items[1..]| && items[1..][j] == x;
        assert items[j + 1] == x;
      }
    }
  }

  /** Clearing a cart keeps the cart-item table sound. */
  lemma ClearCartSound(items: seq<CartItem>, cartId: Id, carts: map<Id, ShoppingCart>, wines: map<Id, Wine>)
    requires CartLinesSound(items, carts, wines)
    ensures CartLinesSound(ClearCart(items, cartId), carts, wines)
  {
    ClearCartKeepsKeysUnique(items, cartId);
    var rest := ClearCart(items, cartId);
    forall i | 0 <= i < |rest|
      ensures rest[i].cartId in carts && rest[i].wineId in wines
    {
      assert rest[i] in items;
    }
  }

  /** Saving a new order and its lines keeps the order-item table sound. */
  lemma AppendOrderItemsSound(
    old_items: seq<OrderItem>, orders: map<Id, Order>, orderId: Id, order: Order,
    firstId: Id, lines: seq<CartItem>, wines: map<Id, Wine>)
    requires OrderLinesSound(old_items, orders, firstId)
    requires WinesKnown(lines, wines)
    ensures OrderLinesSound(old_items + OrderItemsFor(orderId, firstId, lines, wines),
                            orders[orderId := order], firstId + |lines|)
  {
  }

  /** `createAndSaveOrder`: a PENDING order of the cart's user, carrying the
      cart's total and the request's date and address, saved under the next
      generated key. */
  method CreateAndSaveOrder(db: Database, cart: ShoppingCart, lines: seq<CartItem>, orderDate: Timestamp, shippingAddress: string)
    returns (orderId: Id, order: Order)
    requires db.Valid() && WinesKnown(lines, db.wines)
    modifies db`orders, db`nextOrderId
    ensures db.Valid()
    ensures orderId == old(db.nextOrderId) && orderId !in old(db.orders)
    ensures order == Order(cart.userId, Pending, CartTotal(lines, db.wines), orderDate, shippingAddress, false)
    ensures db.orders == old(db.orders)[orderId := order]
  {
    order := Order(cart.userId, Pending, CartTotal(lines, db.wines), orderDate, shippingAddress, false);
    orderId := db.nextOrderId;
    db.orders := db.orders[orderId := order];
    db.nextOrderId := db.nextOrderId + 1;
  }

  /** `createAndSaveOrderItems`: one saved order line per cart line. */
  method CreateAndSaveOrderItems(db: Database, orderId: Id, lines: seq<CartItem>) returns (items: seq<OrderItem>)
    requires db.Valid() && orderId in db.orders && WinesKnown(lines, db.wines)
    modifies db`orderItems, db`nextOrderItemId
    ensures db.Valid()
    ensures items == OrderItemsFor(orderId, old(db.nextOrderItemId), lines, db.wines)
    ensures db.orderItems == old(db.orderItems) + items
  {
    items := OrderItemsFor(orderId, db.nextOrderItemId, lines, db.wines);
    AppendOrderItemsSound(db.orderItems, db.orders, orderId, db.orders[orderId], db.nextOrderItemId, lines, db.wines);
    assert db.orders[orderId := db.orders[orderId]] == db.orders;
    db.orderItems := db.orderItems + items;
    db.nextOrderItemId := db.nextOrderItemId + |items|;
  }

  /** `clearShoppingCart`: the cart's lines leave the table; the cart stays. */
  method ClearShoppingCart(db: Database, cartId: Id)
    requires db.Valid()
    modifies db`cartItems
    ensures db.Valid()
    ensures db.cartItems == ClearCart(old(db.cartItems), cartId)
    ensures CartItemsOf(db.cartItems, cartId) == []
  {
    ClearCartEffect(db.cartItems, cartId, cartId + 1);
    ClearCartSound(db.cartItems, cartId, db.carts, db.wines);
    db.cartItems := ClearCart(db.cartItems, cartId);
  }

  /** `createOrder`: find the user's cart, refuse an empty one, save a PENDING
      order carrying the cart's total and the request's date and address, save
      one price-snapshot line per cart line, then empty the cart. */
  method CreateOrder(db: Database, userId: Id, orderDate: Timestamp, shippingAddress: string)
    returns (r: Result<OrderDto>)
    requires db.Valid()
    modifies db`orders, db`nextOrderId, db`orderItems, db`nextOrderItemId, db`cartItems
    ensures db.Valid()
    ensures r.Ok? <==> userId in db.carts && CartItemsOf(old(db.cartItems), userId) != []
    ensures userId !in db.carts ==>
      r == Err(Failure(EntityNotFound, "Shopping cart not found for user Id: " + IdToString(userId)))
    ensures userId in db.carts && CartItemsOf(old(db.cartItems), userId) == [] ==>
      r == Err(Failure(DataProcessing, "Unable to create order, add items to shopping cart."))
    ensures r.Err? ==>
      && db.orders == old(db.orders) && db.orderItems == old(db.orderItems) && db.cartItems == old(db.cartItems)
      && db.nextOrderId == old(db.nextOrderId) && db.nextOrderItemId == old(db.nextOrderItemId)
    ensures r.Ok? ==>
      var lines := CartItemsOf(old(db.cartItems), userId);
      var id := old(db.nextOrderId);
      var total := CartTotal(lines, db.wines);
      var items := OrderItemsFor(id, old(db.nextOrderItemId), lines, db.wines);
      && id !in old(db.orders)
      && db.orders == old(db.orders)[id := Order(userId, Pending, total, orderDate, shippingAddress, false)]
      && db.orderItems == old(db.orderItems) + items
      && db.cartItems == ClearCart(old(db.cartItems), userId)
      && CartItemsOf(db.cartItems, userId) == []
      && r.value == OrderDto(id, userId, orderDate, items, Pending, total)
    ensures r.Ok? ==> ItemsTotal(r.value.orderItems) == r.value.total && userId in db.carts
  {
    if userId !in db.carts {
      return Err(Failure(EntityNotFound, "Shopping cart not found for user Id: " + IdToString(userId)));
    }
    var cart := db.carts[userId];
    var lines := CartItemsOf(db.cartItems, cart.userId);
    if lines == [] {
      return Err(Failure(DataProcessing, "Unable to create order, add items to shopping cart."));
    }
    assert WinesKnown(lines, db.wines) by {
      forall i | 0 <= i < |lines|
        ensures lines[i].wineId in db.wines
      {
        assert lines[i] in db.cartItems;
      }
    }
    var orderId, order := CreateAndSaveOrder(db, cart, lines, orderDate, shippingAddress);
    var items := CreateAndSaveOrderItems(db, orderId, lines);
    SnapshotTotal(orderId, old(db.nextOrderItemId), lines, db.wines);
    ClearShoppingCart(db, cart.userId);
    r := Ok(OrderDto(orderId, order.userId, order.orderDate, items, order.status, order.total));
  }

  /** `findOrderById`: a live order, or not-found. */
  function FindOrder(orders: map<Id, Order>, orderId: Id): (r: Result<Order>)
    ensures r.Ok? <==> orderId in orders && !orders[orderId].deleted
    ensures r.Ok? ==> r.value == orders[orderId]
    ensures r.Err? ==> r.failure == Failure(EntityNotFound, "Order not found for id: " + IdToString(orderId))
  {
    if orderId in orders && !orders[orderId].deleted then Ok(orders[orderId])
    else Err(Failure(EntityNotFound, "Order not found for id: " + IdToString(orderId)))
  }

  /** `getOrders`: the user's live orders; a user without any is an error,
      not an empty answer. */
  function GetOrders(orders: map<Id, Order>, userId: Id): (r: Result<map<Id, Order>>)
    ensures r.Ok? <==> exists id :: id in orders && orders[id].userId == userId && !orders[id].deleted
    ensures r.Err? ==> r.failure == Failure(EntityNotFound, "No orders found for user with id: " + IdToString(userId))
    ensures r.Ok? ==> forall id :: id in r.value <==> id in orders && orders[id].userId == userId && !orders[id].deleted
    ensures r.Ok? ==> forall id :: id in r.value ==> r.value[id] == orders[id]
  {
    var mine := map id | id in orders && orders[id].userId == userId && !orders[id].deleted :: orders[id];
    if mine == map[] then
      assert forall id :: id in orders && orders[id].userId == userId && !orders[id].deleted ==> id in mine;
      Err(Failure(EntityNotFound, "No orders found for user with id: " + IdToString(userId)))
    else
      var id :| id in mine;
      Ok(mine)
  }

  /** `updateOrderStatus`: any status may be written over any other; every
      other field of the order stays as it was. */
  method UpdateOrderStatus(db: Database, orderId: Id, status: OrderStatus) returns (r: Result<Order>)
    requires db.Valid()
    modifies db`orders
    ensures db.Valid()
    ensures r.Ok? <==> orderId in old(db.orders) && !old(db.orders)[orderId].deleted
    ensures r.Err? ==>
      r.failure == Failure(EntityNotFound, "Order not found for id: " + IdToString(orderId)) && db.orders == old(db.orders)
    ensures r.Ok? ==>
      && r.value == old(db.orders)[orderId].(status := status)
      && db.orders == old(db.orders)[orderId := r.value]
  {
    var found := FindOrder(db.orders, orderId);
    if found.Err? {
      return Err(found.failure);
    }
    var order := found.value.(status := status);
    db.orders := db.orders[orderId := order];
    r := Ok(order);
  }

  /** `getOrderItemsByOrderId`: the live lines of the order, in table order;
      an unknown order simply has none. */
  function GetOrderItemsByOrderId(items: seq<OrderItem>, orderId: Id): (lines: seq<OrderItem>)
    ensures |lines| <= |items|
    ensures forall x :: x in lines <==> x in items && x.orderId == orderId && !x.deleted
  {
    if items == [] then []
    else if items[0].orderId == orderId && !items[0].deleted then [items[0]] + GetOrderItemsByOrderId(items[1..], orderId)
    else GetOrderItemsByOrderId(items[1..], orderId)
  }

  /** `orderItemRepository.findById`: the first live line with key `itemId`. */
  function FindOrderItem(items: seq<OrderItem>, itemId: Id): (r: Option<OrderItem>)
    ensures r.Some? ==> r.value in items && r.value.id == itemId && !r.value.deleted
    ensures r.None? <==> forall x :: x in items ==> x.id != itemId || x.deleted
  {
    if items == [] then None
    else if items[0].id == itemId && !items[0].deleted then Some(items[0])
    else FindOrderItem(items[1..], itemId)
  }

  /** `getOrderItemByIdAndOrderId`: the line must exist, and must belong to
      the order it is asked for under.  The not-found message quotes the order
      id, as the source's does. */
  function GetOrderItemByIdAndOrderId(items: seq<OrderItem>, orderId: Id, itemId: Id): (r: Result<OrderItem>)
    ensures (forall x :: x in items ==> x.id != itemId || x.deleted) ==>
      r == Err(Failure(EntityNotFound, "Order item not found for id: " + IdToString(orderId)))
    ensures r.Ok? ==> r.value in items && r.value.id == itemId && r.value.orderId == orderId && !r.value.deleted
    ensures r.Err? && r.failure.kind == DataProcessing ==>
      r.failure.message == "Order item does not belong to the order with id: " + IdToString(orderId)
    ensures OrderItemIdsUnique(items) ==>
      (r.Ok? <==> exists x :: x in items && x.id == itemId && !x.deleted && x.orderId == orderId)
    ensures OrderItemIdsUnique(items) && (exists x :: x in items && x.id == itemId && !x.deleted && x.orderId != orderId) ==>
      r == Err(Failure(DataProcessing, "Order item does not belong to the order with id: " + IdToString(orderId)))
  {
    match FindOrderItem(items, itemId)
    case None => Err(Failure(EntityNotFound, "Order item not found for id: " + IdToString(orderId)))
    case Some(item) =>
      if item.orderId != orderId then
        UniqueKeyOneRow(items, (x: OrderItem) => x.id, item);
        Err(Failure(DataProcessing, "Order item does not belong to the order with id: " + IdToString(orderId)))
      else Ok(item)
  }
}
