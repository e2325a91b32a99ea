/** Cart mutation (`ShoppingCartServiceImpl`).  A cart is stored under its
    user's id, and a cart line under its wine's id, so a wine can sit in at
    most one cart of the whole shop and a line's id is its wine's id. */
module CartService {
  import opened Common
  import opened Records
  import opened Store

  /** A cart line as the service returns it (`CartItemDto`). */
  datatype CartItemDto = CartItemDto(id: Id, wineId: Id, wineName: string, quantity: int)

  /** A cart as the service returns it (`ShoppingCartDto`). */
  datatype ShoppingCartDto = ShoppingCartDto(id: Id, userId: Id, cartItems: seq<CartItemDto>)

  /** No line of another cart is stored under the key `wineId`. */
  predicate NoForeignLine(items: seq<CartItem>, cartId: Id, wineId: Id)
  {
    forall i :: 0 <= i < |items| && items[i].wineId == wineId ==> items[i].cartId == cartId
  }

  /** `setQuantity` then `save` on the cart's line for `wineId`: the line that
      is already there gets the new quantity, otherwise a new line is added
      at the end of the table. */
  function SetLine(items: seq<CartItem>, cartId: Id, wineId: Id, quantity: int): seq<CartItem>
  {
    match ItemIndex(items, wineId)
    case Some(i) => items[i := items[i].(quantity := quantity)]
    case None => items + [CartItem(wineId, cartId, quantity)]
  }

  /** `cartItemRepository.delete`: the row at position `i` leaves the table. */
  function RemoveLine(items: seq<CartItem>, i: nat): (rest: seq<CartItem>)
    requires i < |items|
    ensures |rest| == |items| - 1
  {
    items[..i] + items[i + 1..]
  }

  /** `cartItemMapper.toDto`: the line's key (its wine's id), the wine's id and
      name, and the quantity. */
  function ToCartItemDto(line: CartItem, wines: map<Id, Wine>): (dto: CartItemDto)
    requires line.wineId in wines
    ensures dto.id == dto.wineId == line.wineId
    ensures dto.wineName == wines[line.wineId].name && dto.quantity == line.quantity
  {
    CartItemDto(line.wineId, line.wineId, wines[line.wineId].name, line.quantity)
  }

  function ToCartItemDtos(lines: seq<CartItem>, wines: map<Id, Wine>): (dtos: seq<CartItemDto>)
    requires forall i :: 0 <= i < |lines| ==> lines[i].wineId in wines
    ensures |dtos| == |lines|
    ensures forall i :: 0 <= i < |lines| ==> dtos[i] == ToCartItemDto(lines[i], wines)
  {
    if lines == [] then []
    else [ToCartItemDto(lines[0], wines)] + ToCartItemDtos(lines[1..], wines)
  }

  /** `findShoppingCart`: the user's cart with the lines the per-cart query
      returns, or not-found. */
  function FindShoppingCart(carts: map<Id, ShoppingCart>, items: seq<CartItem>, wines: map<Id, Wine>, userId: Id)
    : (r: Result<ShoppingCartDto>)
    requires forall i :: 0 <= i < |items| ==> items[i].wineId in wines
    ensures r.Ok? <==> userId in carts
    ensures r.Err? ==> r.failure == Failure(EntityNotFound, "Can't find ShoppingCart for userId: " + IdToString(userId))
    ensures r.Ok? ==> r.value.id == userId && r.value.userId == carts[userId].userId
    ensures r.Ok? ==> |r.value.cartItems| == |CartItemsOf(items, userId)|
    ensures r.Ok? ==> forall d :: d in r.value.cartItems <==>
      exists x :: x in items && x.cartId == userId && d == ToCartItemDto(x, wines)
  {
    if userId !in carts then
      Err(Failure(EntityNotFound, "Can't find ShoppingCart for userId: " + IdToString(userId)))
    else
      var lines := CartItemsOf(items, userId);
      var dtos := ToCartItemDtos(lines, wines);
      assert forall d :: d in dtos ==> exists k :: 0 <= k < |lines| && d == ToCartItemDto(lines[k], wines);
      assert forall x :: x in lines ==> ToCartItemDto(x, wines) in dtos by {
        forall x | x in lines
          ensures ToCartItemDto(x, wines) in dtos
        {
          var k :| 0 <= k < |lines| && lines[k] == x;
          assert dtos[k] == ToCartItemDto(x, wines);
        }
      }
      Ok(ShoppingCartDto(userId, carts[userId].userId, dtos))
  }

  /** `validateCartItemBelongsToUser`: the position of the line stored under
      `cartItemId`, provided it sits in the user's own cart.  A line of
      somebody else's cart is reported as not-found, like a missing one. */
  function ValidateCartItemBelongsToUser(items: seq<CartItem>, cartItemId: Id, userId: Id): (r: Result<nat>)
    ensures r.Ok? ==> r.value < |items| && items[r.value].wineId == cartItemId && items[r.value].cartId == userId
    ensures (forall x :: x in items ==> x.wineId != cartItemId) ==>
      r == Err(Failure(EntityNotFound, "Can't find CartItem with cartItemId: " + IdToString(cartItemId)))
    ensures (exists x :: x in items && x.wineId == cartItemId) && r.Err? ==>
      r.failure == Failure(EntityNotFound, "CartItem does not belong to this user's ShoppingCart")
    ensures KeysUnique(items) ==>
      (r.Ok? <==> exists x :: x in items && x.wineId == cartItemId && x.cartId == userId)
  {
    match ItemIndex(items, cartItemId)
    case None => Err(Failure(EntityNotFound, "Can't find CartItem with cartItemId: " + IdToString(cartItemId)))
    case Some(i) =>
      if items[i].cartId != userId then
        UniqueKeyOneRow(items, (x: CartItem) => x.wineId, items[i]);
        Err(Failure(EntityNotFound, "CartItem does not belong to this user's ShoppingCart"))
      else Ok(i)
  }

  /** `createShoppingCart`: a cart for the user, stored under the user's id,
      with no lines.  A second cart for the same user collides on the key. */
  method CreateShoppingCart(db: Database, userId: Id) returns (r: Result<ShoppingCart>)
    requires db.Valid() && userId in db.users
    modifies db`carts
    ensures db.Valid()
    ensures r.Ok? <==> userId !in old(db.carts)
    ensures r.Err? ==> r.failure.kind == DuplicateKey && db.carts == old(db.carts)
    ensures r.Ok? ==>
      && r.value == ShoppingCart(userId)
      && db.carts == old(db.carts)[userId := r.value]
      && CartItemsOf(db.cartItems, userId) == []
  {
    if userId in db.carts {
      return Err(Failure(DuplicateKey, "Duplicate shopping cart key: " + IdToString(userId)));
    }
    NoLinesOfUnknownCart(db.cartItems, db.carts, db.wines, userId);
    var cart := ShoppingCart(userId);
    db.carts := db.carts[userId := cart];
    r := Ok(cart);
  }

  /** A cart that is not stored has no lines. */
  lemma NoLinesOfUnknownCart(items: seq<CartItem>, carts: map<Id, ShoppingCart>, wines: map<Id, Wine>, cartId: Id)
    requires CartLinesSound(items, carts, wines) && cartId !in carts
    ensures CartItemsOf(items, cartId) == []
  {
    NoLinesOf(items, cartId);
  }

  lemma {:induction false} NoLinesOf(items: seq<CartItem>, cartId: Id)
    requires forall i :: 0 <= i < |items| ==> items[i].cartId != cartId
    ensures CartItemsOf(items, cartId) == []
  {
    if items != [] {
      NoLinesOf(items[1..], cartId);
    }
  }

  /** `addWineToShoppingCart`: the wine must be live (checked first) and the
      user must have a cart; then the cart's line for the wine gets the
      requested quantity (overwritten, not added to), or a new line is
      created.  A wine already in another user's cart collides on the line's
      key, which is the wine's id. */
  method AddWineToShoppingCart(db: Database, userId: Id, wineId: Id, quantity: int) returns (r: Result<CartItemDto>)
    requires db.Valid()
    requires quantity > 0
    modifies db`cartItems
    ensures db.Valid()
    ensures r.Ok? <==>
      wineId in db.wines && !db.wines[wineId].deleted && userId in db.carts
      && NoForeignLine(old(db.cartItems), userId, wineId)
    ensures !(wineId in db.wines && !db.wines[wineId].deleted) ==>
      r == Err(Failure(EntityNotFound, "Can't find Wine with wineId: " + IdToString(wineId)))
    ensures wineId in db.wines && !db.wines[wineId].deleted && userId !in db.carts ==>
      r == Err(Failure(EntityNotFound, "Can't find ShoppingCart for userId: " + IdToString(userId)))
    ensures (wineId in db.wines && !db.wines[wineId].deleted && userId in db.carts
             && !NoForeignLine(old(db.cartItems), userId, wineId)) ==>
      r.Err? && r.failure.kind == DuplicateKey
    ensures r.Err? ==> db.cartItems == old(db.cartItems)
    ensures r.Ok? ==>
      && db.cartItems == SetLine(old(db.cartItems), userId, wineId, quantity)
      && r.value == CartItemDto(wineId, wineId, db.wines[wineId].name, quantity)
  {
    if wineId !in db.wines || db.wines[wineId].deleted {
      return Err(Failure(EntityNotFound, "Can't find Wine with wineId: " + IdToString(wineId)));
    }
    var wine := db.wines[wineId];
    if userId !in db.carts {
      return Err(Failure(EntityNotFound, "Can't find ShoppingCart for userId: " + IdToString(userId)));
    }
    if !NoForeignLine(db.cartItems, userId, wineId) {
      return Err(Failure(DuplicateKey, "Duplicate cart item key: " + IdToString(wineId)));
    }
    SetLineSound(db.cartItems, db.carts, db.wines, userId, wineId, quantity);
    db.cartItems := SetLine(db.cartItems, userId, wineId, quantity);
    r := Ok(CartItemDto(wineId, wineId, wine.name, quantity));
  }

  /** `updateWineInShoppingCart`: the caller's own line gets the new quantity. */
  method UpdateWineInShoppingCart(db: Database, userId: Id, cartItemId: Id, quantity: int) returns (r: Result<CartItemDto>)
    requires db.Valid()
    requires quantity > 0
    modifies db`cartItems
    ensures db.Valid()
    ensures r.Ok? <==> exists x :: x in old(db.cartItems) && x.wineId == cartItemId && x.cartId == userId
    ensures r.Err? ==> r.failure.kind == EntityNotFound && db.cartItems == old(db.cartItems)
    ensures r.Err? ==> r == Err(ValidateCartItemBelongsToUser(old(db.cartItems), cartItemId, userId).failure)
    ensures r.Ok? ==>
      var i := ValidateCartItemBelongsToUser(old(db.cartItems), cartItemId, userId).value;
      && db.cartItems == old(db.cartItems)[i := old(db.cartItems)[i].(quantity := quantity)]
      && r.value == CartItemDto(cartItemId, cartItemId, db.wines[cartItemId].name, quantity)
  {
    var found := ValidateCartItemBelongsToUser(db.cartItems, cartItemId, userId);
    if found.Err? {
      return Err(found.failure);
    }
    var i := found.value;
    assert db.cartItems[i] in db.cartItems;
    db.cartItems := db.cartItems[i := db.cartItems[i].(quantity := quantity)];
    assert forall k :: 0 <= k < |db.cartItems| ==> db.cartItems[k].wineId == old(db.cartItems)[k].wineId;
    r := Ok(CartItemDto(cartItemId, cartItemId, db.wines[cartItemId].name, quantity));
  }

  /** `deleteWineFromShoppingCart`: the caller's own line leaves the table. */
  method DeleteWineFromShoppingCart(db: Database, userId: Id, cartItemId: Id) returns (r: Result<Id>)
    requires db.Valid()
    modifies db`cartItems
    ensures db.Valid()
    ensures r.Ok? <==> exists x :: x in old(db.cartItems) && x.wineId == cartItemId && x.cartId == userId
    ensures r.Err? ==> r.failure.kind == EntityNotFound && db.cartItems == old(db.cartItems)
    ensures r.Err? ==> r == Err(ValidateCartItemBelongsToUser(old(db.cartItems), cartItemId, userId).failure)
    ensures r.Ok? ==>
      var i := ValidateCartItemBelongsToUser(old(db.cartItems), cartItemId, userId).value;
      && r.value == cartItemId
      && db.cartItems == RemoveLine(old(db.cartItems), i)
  {
    var found := ValidateCartItemBelongsToUser(db.cartItems, cartItemId, userId);
    if found.Err? {
      return Err(found.failure);
    }
    RemoveLineSound(db.cartItems, db.carts, db.wines, found.value);
    db.cartItems := RemoveLine(db.cartItems, found.value);
    r := Ok(cartItemId);
  }

  // ---------------------------------------------------------------------
  // Properties of the cart operations

  /** The table still has unique keys and sound references after `SetLine`. */
  lemma SetLineSound(items: seq<CartItem>, carts: map<Id, ShoppingCart>, wines: map<Id, Wine>,
                     cartId: Id, wineId: Id, quantity: int)
    requires CartLinesSound(items, carts, wines) && cartId in carts && wineId in wines
    ensures CartLinesSound(SetLine(items, cartId, wineId, quantity), carts, wines)
  {
    var r := SetLine(items, cartId, wineId, quantity);
    match ItemIndex(items, wineId)
    case Some(i) =>
      assert forall k :: 0 <= k < |r| ==> r[k].wineId == items[k].wineId && r[k].cartId == items[k].cartId;
    case None =>
  }

  /** When the cart holds the wine already, the line count stays; otherwise
      exactly one line is added. */
  lemma SetLineSize(items: seq<CartItem>, cartId: Id, wineId: Id, quantity: int)
    ensures (exists x :: x in items && x.wineId == wineId) ==> |SetLine(items, cartId, wineId, quantity)| == |items|
    ensures (forall x :: x in items ==> x.wineId != wineId) ==> |SetLine(items, cartId, wineId, quantity)| == |items| + 1
  {
    if ItemIndex(items, wineId).None? {
      assert forall x :: x in items ==> x.wineId != wineId;
    }
  }

  /** After `SetLine` the cart holds the wine exactly once, with the requested
      quantity: the old quantity is replaced, not added to. */
  lemma {:induction false} SetLineResult(items: seq<CartItem>, cartId: Id, wineId: Id, quantity: int)
    requires KeysUnique(items) && NoForeignLine(items, cartId, wineId)
    ensures KeysUnique(SetLine(items, cartId, wineId, quantity))
    ensures CartItem(wineId, cartId, quantity) in CartItemsOf(SetLine(items, cartId, wineId, quantity), cartId)
    ensures forall x :: x in SetLine(items, cartId, wineId, quantity) && x.wineId == wineId ==>
      x == CartItem(wineId, cartId, quantity)
  {
    var r := SetLine(items, cartId, wineId, quantity);
    match ItemIndex(items, wineId)
    case Some(i) =>
      assert r[i] == CartItem(wineId, cartId, quantity);
      assert forall k :: 0 <= k < |r| ==> r[k].wineId == items[k].wineId;
      forall x | x in r && x.wineId == wineId
        ensures x == CartItem(wineId, cartId, quantity)
      {
        var k :| 0 <= k < |r| && r[k] == x;
        assert k == i;
      }
    case None =>
      assert r[|items|] == CartItem(wineId, cartId, quantity);
  }

  /** Adding the same wine with the same quantity twice leaves the table as
      adding it once. */
  lemma SetLineIdempotent(items: seq<CartItem>, cartId: Id, wineId: Id, quantity: int)
    ensures SetLine(SetLine(items, cartId, wineId, quantity), cartId, wineId, quantity)
         == SetLine(items, cartId, wineId, quantity)
  {
    LastWriteWins(items, cartId, wineId, quantity, quantity);
  }

  /** A second add of the same wine replaces the first add's quantity. */
  lemma LastWriteWins(items: seq<CartItem>, cartId: Id, wineId: Id, q1: int, q2: int)
    ensures SetLine(SetLine(items, cartId, wineId, q1), cartId, wineId, q2)
         == SetLine(items, cartId, wineId, q2)
  {
    var once := SetLine(items, cartId, wineId, q1);
    match ItemIndex(items, wineId)
    case Some(i) =>
      assert forall k :: 0 <= k < |once| ==> once[k].wineId == items[k].wineId;
      SameKeysSameIndex(items, once, wineId);
    case None =>
      FirstIndexFound(once, wineId, |items|);
  }

  /** Two tables with the same keys in the same positions look a key up at the
      same position. */
  lemma {:induction false} SameKeysSameIndex(a: seq<CartItem>, b: seq<CartItem>, wineId: Id)
    requires |a| == |b| && forall k :: 0 <= k < |a| ==> a[k].wineId == b[k].wineId
    ensures ItemIndex(a, wineId) == ItemIndex(b, wineId)
  {
    if a != [] {
      SameKeysSameIndex(a[1..], b[1..], wineId);
    }
  }

  /** The first position holding the key is the one the lookup finds. */
  lemma FirstIndexFound(items: seq<CartItem>, wineId: Id, i: nat)
    requires i < |items| && items[i].wineId == wineId
    requires forall j :: 0 <= j < i ==> items[j].wineId != wineId
    ensures ItemIndex(items, wineId) == Some(i)
  {
  }

  /** `SetLine` for one cart leaves every other cart's lines as they were. */
  lemma OtherCartsUnchangedBySetLine(items: seq<CartItem>, cartId: Id, wineId: Id, quantity: int, other: Id)
    requires other != cartId && NoForeignLine(items, cartId, wineId)
    ensures CartItemsOf(SetLine(items, cartId, wineId, quantity), other) == CartItemsOf(items, other)
  {
    match ItemIndex(items, wineId)
    case Some(i) =>
      ReplaceOwnLine(items, i, items[i].(quantity := quantity), other);
    case None =>
      LinesOfAppend(items, [CartItem(wineId, cartId, quantity)], other);
  }

  /** Replacing a line that is not in cart `other` keeps that cart's lines. */
  lemma {:induction false} ReplaceOwnLine(items: seq<CartItem>, i: nat, x: CartItem, other: Id)
    requires i < |items| && items[i].cartId != other && x.cartId != other
    ensures CartItemsOf(items[i := x], other) == CartItemsOf(items, other)
  {
    if i == 0 {
      assert items[i := x][1..] == items[1..];
    } else {
      assert items[i := x][1..] == items[1..][i - 1 := x];
      ReplaceOwnLine(items[1..], i - 1, x, other);
    }
  }

  /** The per-cart query distributes over concatenation. */
  lemma {:induction false} LinesOfAppend(a: seq<CartItem>, b: seq<CartItem>, cartId: Id)
    ensures CartItemsOf(a + b, cartId) == CartItemsOf(a, cartId) + CartItemsOf(b, cartId)
  {
    if a == [] {
      assert a + b == b;
    } else {
      assert (a + b)[1..] == a[1..] + b;
      LinesOfAppend(a[1..], b, cartId);
    }
  }

  /** Removing a line keeps unique keys and sound references. */
  lemma RemoveLineSound(items: seq<CartItem>, carts: map<Id, ShoppingCart>, wines: map<Id, Wine>, i: nat)
    requires CartLinesSound(items, carts, wines) && i < |items|
    ensures CartLinesSound(RemoveLine(items, i), carts, wines)
  {
    var r := RemoveLine(items, i);
    assert forall k :: 0 <= k < |r| ==> r[k] == items[if k < i then k else k + 1];
  }

  /** After a delete the wine has no line left. */
  lemma RemoveLineDropsWine(items: seq<CartItem>, i: nat)
    requires KeysUnique(items) && i < |items|
    ensures forall x :: x in RemoveLine(items, i) ==> x.wineId != items[i].wineId
  {
    var r := RemoveLine(items, i);
    forall x | x in r
      ensures x.wineId != items[i].wineId
    {
      var k :| 0 <= k < |r| && r[k] == x;
      assert r[k] == items[if k < i then k else k + 1];
    }
  }

  /** A delete of a line of another cart leaves cart `other`'s lines as they were. */
  lemma RemoveLineOtherCarts(items: seq<CartItem>, i: nat, other: Id)
    requires i < |items| && items[i].cartId != other
    ensures CartItemsOf(RemoveLine(items, i), other) == CartItemsOf(items, other)
  {
    var front, back := items[..i], items[i + 1..];
    assert items == front + ([items[i]] + back);
    LinesOfAppend(front, [items[i]] + back, other);
    assert ([items[i]] + back)[1..] == back;
    LinesOfAppend(front, back, other);
  }

  /** An update of one line leaves every other cart's lines as they were. */
  lemma UpdateLineEffect(items: seq<CartItem>, i: nat, quantity: int, other: Id)
    requires i < |items| && items[i].cartId != other
    ensures CartItemsOf(items[i := items[i].(quantity := quantity)], other) == CartItemsOf(items, other)
  {
    ReplaceOwnLine(items, i, items[i].(quantity := quantity), other);
  }

  /** Because a line's key is its wine's id, a wine is in at most one cart. */
  lemma WineInAtMostOneCart(items: seq<CartItem>, x: CartItem, y: CartItem)
    requires KeysUnique(items) && x in items && y in items && x.wineId == y.wineId
    ensures x.cartId == y.cartId
  {
    var i :| 0 <= i < |items| && items[i] == x;
    var j :| 0 <= j < |items| && items[j] == y;
    assert i == j;
  }
}
