/** The relational store behind the services: one table per repository, the
    identity counters the store uses to generate keys, and the integrity
    constraints every service operation keeps. */
module Store {
  import opened Common
  import opened Roles
  import opened Records

  /** No two rows of the cart-item table share a key (a wine id). */
  ghost predicate KeysUnique(items: seq<CartItem>)
  {
    forall i, j :: 0 <= i < j < |items| ==> items[i].wineId != items[j].wineId
  }

  ghost predicate OrderItemIdsUnique(items: seq<OrderItem>)
  {
    forall i, j :: 0 <= i < j < |items| ==> items[i].id != items[j].id
  }

  /** The cart-item table's integrity: unique keys, and every line points at
      an existing cart and an existing wine. */
  ghost predicate CartLinesSound(items: seq<CartItem>, carts: map<Id, ShoppingCart>, wines: map<Id, Wine>)
  {
    && KeysUnique(items)
    && forall i :: 0 <= i < |items| ==> items[i].cartId in carts && items[i].wineId in wines
  }

  /** The order-item table's integrity: unique keys below the generator's next
      key, and every line points at an existing order. */
  ghost predicate OrderLinesSound(items: seq<OrderItem>, orders: map<Id, Order>, nextId: Id)
  {
    && OrderItemIdsUnique(items)
    && forall i :: 0 <= i < |items| ==> items[i].id < nextId && items[i].orderId in orders
  }

  /** The role table's name column is unique. */
  ghost predicate RoleNamesUnique(roles: map<Id, RoleRow>)
  {
    forall a, b :: a in roles && b in roles && roles[a].name == roles[b].name ==> a == b
  }

  /** The review table's integrity: keys below the generator's next key, and
      every review points at an existing wine and user. */
  ghost predicate ReviewsSound(reviews: seq<Review>, wines: map<Id, Wine>, users: map<Id, User>, nextId: Id)
  {
    forall i :: 0 <= i < |reviews| ==>
      reviews[i].id < nextId && reviews[i].wineId in wines && reviews[i].userId in users
  }

  /** Under keys that are unique in `rows`, a row is the only one with its key:
      the fact both the cart-line and the order-line lookups rely on. */
  lemma UniqueKeyOneRow<T>(rows: seq<T>, key: T -> Id, row: T)
    requires row in rows
    ensures (forall a, b :: 0 <= a < b < |rows| ==> key(rows[a]) != key(rows[b])) ==>
      forall x :: x in rows && key(x) == key(row) ==> x == row
  {
    if forall a, b :: 0 <= a < b < |rows| ==> key(rows[a]) != key(rows[b]) {
      forall x | x in rows && key(x) == key(row)
        ensures x == row
      {
        var i :| 0 <= i < |rows| && rows[i] == x;
        var j :| 0 <= j < |rows| && rows[j] == row;
        assert i == j;
      }
    }
  }

  /** The review table once the wine `wineId` is removed: its reviews are
      deleted with it (`orphanRemoval` on the wine's review collection, and a
      review has no soft delete), the others stay in table order. */
  function ReviewsWithoutWine(reviews: seq<Review>, wineId: Id): (kept: seq<Review>)
    ensures |kept| <= |reviews|
    ensures forall x :: x in kept <==> x in reviews && x.wineId != wineId
  {
    if reviews == [] then []
    else
      var rest := ReviewsWithoutWine(reviews[1..], wineId);
      assert forall x :: x in reviews <==> x == reviews[0] || x in reviews[1..];
      if reviews[0].wineId == wineId then rest else [reviews[0]] + rest
  }

  /** `cartItemRepository.findById`: the position of the row stored under the
      key `wineId`, if there is one. */
  function ItemIndex(items: seq<CartItem>, wineId: Id): (r: Option<nat>)
    ensures r.Some? ==> r.value < |items| && items[r.value].wineId == wineId
    ensures r.Some? ==> forall j :: 0 <= j < r.value ==> items[j].wineId != wineId
    ensures r.None? ==> forall j :: 0 <= j < |items| ==> items[j].wineId != wineId
  {
    if items == [] then None
    else if items[0].wineId == wineId then Some(0)
    else match ItemIndex(items[1..], wineId)
      case None => None
      case Some(k) => Some(k + 1)
  }

  /** The lines of the cart `cartId`, in table order: both the cart's item
      collection and `findListByShoppingCartId`. */
  function CartItemsOf(items: seq<CartItem>, cartId: Id): (lines: seq<CartItem>)
    ensures |lines| <= |items|
    ensures forall x :: x in lines <==> x in items && x.cartId == cartId
  {
    if items == [] then []
    else if items[0].cartId == cartId then [items[0]] + CartItemsOf(items[1..], cartId)
    else CartItemsOf(items[1..], cartId)
  }

  class Database {
    var regions: map<Id, Region>
    var wines: map<Id, Wine>
    var roles: map<Id, RoleRow>
    var users: map<Id, User>
    var carts: map<Id, ShoppingCart>
    var cartItems: seq<CartItem>
    var orders: map<Id, Order>
    var orderItems: seq<OrderItem>
    var reviews: seq<Review>

    // identity generators: the next key each table hands out
    var nextRegionId: Id
    var nextWineId: Id
    var nextUserId: Id
    var nextOrderId: Id
    var nextOrderItemId: Id
    var nextReviewId: Id

    ghost predicate Valid()
      reads this
    {
      && (forall id :: id in regions ==> id < nextRegionId)
      && (forall id :: id in wines ==> id < nextWineId)
      && (forall id :: id in users ==> id < nextUserId)
      && (forall id :: id in orders ==> id < nextOrderId)
      && OrderLinesSound(orderItems, orders, nextOrderItemId)
      // a wine's region and a review's wine and user are stored rows
      && (forall id :: id in wines ==> wines[id].regionId in regions)
      && ReviewsSound(reviews, wines, users, nextReviewId)
      && RoleNamesUnique(roles)
      // a cart's key is its user's id
      && (forall k :: k in carts ==> carts[k].userId == k && k in users)
      // a cart line's key is its wine's id
      && CartLinesSound(cartItems, carts, wines)
    }

    /** An empty store whose role table is seeded with `seedRoles`. */
    constructor (seedRoles: map<Id, RoleRow>)
      requires RoleNamesUnique(seedRoles)
      ensures Valid()
      ensures roles == seedRoles
      ensures regions == map[] && wines == map[] && users == map[] && carts == map[]
      ensures cartItems == [] && orders == map[] && orderItems == [] && reviews == []
    {
      regions, wines, roles, users, carts := map[], map[], seedRoles, map[], map[];
      cartItems, orders, orderItems, reviews := [], map[], [], [];
      nextRegionId, nextWineId, nextUserId := 1, 1, 1;
      nextOrderId, nextOrderItemId, nextReviewId := 1, 1, 1;
    }
  }
}
