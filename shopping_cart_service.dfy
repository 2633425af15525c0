/**
 * `ShoppingCartServiceImpl`: creating a user's cart, reading it, and adding, updating and
 * removing its lines. Every operation first resolves the user's cart by the user id.
 */
module ShoppingCartService {
  import opened Types
  import opened Dto
  import opened Repositories

  /** `ShoppingCartDto`: the cart, its owner and its lines. */
  datatype CartView = CartView(id: Id, userId: Id, items: map<Id, CartItem>)

  /** `toShoppingCartDto`: the cart with the lines currently stored for it. */
  function ToCartDto(cart: ShoppingCart, cartItems: map<Id, CartItem>): CartView
  {
    CartView(cart.id, cart.userId, ItemsInCart(cartItems, cart.id))
  }

  /** The ids of the lines of cart `cartId` that hold book `bookId`. */
  function BookLines(cartItems: map<Id, CartItem>, cartId: Id, bookId: Id): set<Id>
  {
    set k | k in cartItems && cartItems[k].cartId == cartId && cartItems[k].bookId == bookId
  }

  /** Whether `itemId` is a line of cart `cartId`: what `findByIdAndShoppingCartId(itemId, cartId)`
      finds. */
  predicate InCart(cartItems: map<Id, CartItem>, itemId: Id, cartId: Id)
  {
    itemId in cartItems && cartItems[itemId].cartId == cartId
  }

  /** `createShoppingCartForUser`: a new cart owned by the user, with the next id. The user must be
      stored (the cart references it) and not own a cart yet (the one-to-one user/cart mapping). */
  method CreateShoppingCartForUser(store: Store, user: User) returns (cart: ShoppingCart)
    requires store.Valid()
    requires user.id in store.users
    requires !HasCart(store.carts, user.id)
    modifies store
    ensures store.Valid()
    ensures cart == ShoppingCart(old(store.nextId), user.id)
    ensures cart.id !in old(store.carts)
    ensures store.carts == old(store.carts)[cart.id := cart]
    ensures HasCart(store.carts, user.id) && CartIdOf(store.carts, user.id) == cart.id
    ensures store.nextId == old(store.nextId) + 1
    ensures unchanged(store`users, store`cartItems, store`books, store`categories, store`orders,
                      store`orderItems)
  {
    cart := ShoppingCart(store.nextId, user.id);
    NewCartIsOnlyCart(store.carts, cart);
    store.carts := store.carts[cart.id := cart];
    store.nextId := store.nextId + 1;
  }

  /** Adding a cart for a user who had none keeps one cart per user and makes it that user's cart. */
  lemma NewCartIsOnlyCart(carts: map<Id, ShoppingCart>, cart: ShoppingCart)
    requires OneCartPerUser(carts)
    requires cart.id !in carts
    requires !HasCart(carts, cart.userId)
    ensures OneCartPerUser(carts[cart.id := cart])
    ensures HasCart(carts[cart.id := cart], cart.userId)
    ensures CartIdOf(carts[cart.id := cart], cart.userId) == cart.id
  {
    forall c | c in carts
      ensures carts[c].userId != cart.userId
    {
    }
    var after := carts[cart.id := cart];
    assert cart.id in after && after[cart.id].userId == cart.userId;
  }

  /** `getCartByUser`: the user's cart with its lines, or EntityNotFound for that user id. */
  function GetCartByUser(carts: map<Id, ShoppingCart>, cartItems: map<Id, CartItem>, userId: Id)
    : (r: Result<CartView>)
    requires OneCartPerUser(carts)
    requires forall k :: k in carts ==> carts[k].id == k
    ensures r.Ok? <==> HasCart(carts, userId)
    ensures r.Ok? ==> && r.value.userId == userId
                      && r.value.id == CartIdOf(carts, userId)
                      && r.value.items == ItemsInCart(cartItems, CartIdOf(carts, userId))
    ensures r.Err? ==> r.error == EntityNotFound(CartEntity, userId)
  {
    var cart :- FindShoppingCartByUserId(carts, userId);
    Ok(ToCartDto(cart, cartItems))
  }

  /** `addItemToCart`: resolves the cart, then the book, then saves one new line with the requested
      book and quantity; it never merges with a line already holding that book. */
  method AddItemToCart(store: Store, userId: Id, request: CartItemRequest) returns (r: Result<CartView>)
    requires store.Valid()
    modifies store
    ensures store.Valid()
    ensures r.Ok? <==> HasCart(old(store.carts), userId) && request.bookId in old(store.books)
    ensures r.Err? ==> unchanged(store)
    ensures r.Err? ==> r.error == if !HasCart(old(store.carts), userId) then EntityNotFound(CartEntity, userId)
                                  else EntityNotFound(BookEntity, request.bookId)
    ensures r.Ok? ==> old(store.nextId) !in old(store.cartItems)
    ensures r.Ok? ==> store.cartItems == old(store.cartItems)[old(store.nextId) :=
                        CartItem(old(store.nextId), CartIdOf(old(store.carts), userId), request.bookId,
                                 request.quantity)]
    ensures r.Ok? ==> store.nextId == old(store.nextId) + 1
    ensures r.Ok? ==> r.value == ToCartDto(old(store.carts)[CartIdOf(old(store.carts), userId)], store.cartItems)
    ensures unchanged(store`users, store`carts, store`books, store`categories, store`orders,
                      store`orderItems)
  {
    var found := FindShoppingCartByUserId(store.carts, userId);
    if found.Err? {
      return Err(found.error);
    }
    var cart := found.value;
    if request.bookId !in store.books {
      return Err(EntityNotFound(BookEntity, request.bookId));
    }
    var item := CartItem(store.nextId, cart.id, request.bookId, request.quantity);
    store.cartItems := store.cartItems[item.id := item];
    store.nextId := store.nextId + 1;
    r := Ok(ToCartDto(cart, store.cartItems));
  }

  /** A new line for a book the cart already holds is a second line for it: the cart's lines for
      that book grow by exactly the new one. */
  lemma AddNeverMerges(cartItems: map<Id, CartItem>, item: CartItem)
    requires item.id !in cartItems
    ensures BookLines(cartItems[item.id := item], item.cartId, item.bookId)
            == BookLines(cartItems, item.cartId, item.bookId) + {item.id}
    ensures |BookLines(cartItems[item.id := item], item.cartId, item.bookId)|
            == |BookLines(cartItems, item.cartId, item.bookId)| + 1
  {
    var before := BookLines(cartItems, item.cartId, item.bookId);
    var after := BookLines(cartItems[item.id := item], item.cartId, item.bookId);
    assert after == before + {item.id};
    assert item.id !in before;
  }

  /** Adding book 33 twice to cart 7 leaves two lines for it, one per request. */
  lemma AddingTwiceGivesTwoLines()
    ensures var once := map[1 := CartItem(1, 7, 33, 3)];
            var twice := once[2 := CartItem(2, 7, 33, 1)];
            BookLines(twice, 7, 33) == {1, 2}
  {
    var once := map[1 := CartItem(1, 7, 33, 3)];
    AddNeverMerges(once, CartItem(2, 7, 33, 1));
    assert BookLines(once, 7, 33) == {1} by {
      assert 1 in BookLines(once, 7, 33);
    }
  }

  /** `updateItemQuantity` as written: the item lookup receives the cart's id as the item id and
      the item id as the cart id, the found line gets the new quantity, and the result is null. */
  method UpdateItemQuantity(store: Store, userId: Id, cartItemId: Id, request: UpdateCartItemRequest)
    returns (r: Result<Option<CartView>>)
    requires store.Valid()
    modifies store
    ensures store.Valid()
    ensures r.Ok? <==> HasCart(old(store.carts), userId)
                       && InCart(old(store.cartItems), CartIdOf(old(store.carts), userId), cartItemId)
    ensures r.Err? ==> unchanged(store)
    ensures r.Err? ==> r.error == if !HasCart(old(store.carts), userId) then EntityNotFound(CartEntity, userId)
                                  else EntityNotFound(CartItemEntity, cartItemId)
    ensures r.Ok? ==> r.value == None
    ensures r.Ok? ==> var c := CartIdOf(old(store.carts), userId);
                      store.cartItems == old(store.cartItems)[c := old(store.cartItems)[c].(quantity := request.quantity)]
    ensures unchanged(store`users, store`carts, store`books, store`categories, store`orders,
                      store`orderItems, store`nextId)
  {
    var found := FindShoppingCartByUserId(store.carts, userId);
    if found.Err? {
      return Err(found.error);
    }
    var cart := found.value;
    var item := FindItem(store.cartItems, cart.id, cartItemId);
    if item.None? {
      return Err(EntityNotFound(CartItemEntity, cartItemId));
    }
    store.cartItems := store.cartItems[item.value.id := item.value.(quantity := request.quantity)];
    r := Ok(None);
  }

  /** The lookup as written finds a line only when some line's id is the cart's id and that line
      belongs to a cart whose id is the requested item id. */
  lemma SwappedLookupFindsCartIdLine(cartItems: map<Id, CartItem>, cartId: Id, cartItemId: Id)
    ensures FindItem(cartItems, cartId, cartItemId).Some? <==> InCart(cartItems, cartId, cartItemId)
    ensures FindItem(cartItems, cartId, cartItemId).Some? ==> FindItem(cartItems, cartId, cartItemId).value == cartItems[cartId]
  {
  }

  /** User 1's cart 100 holds line 77: the update as written rejects that line, while the lookup
      in the order removeItem uses finds it. */
  lemma SwappedLookupMissesItem()
    ensures var cartItems := map[77 := CartItem(77, 100, 33, 2)];
            && FindItem(cartItems, 100, 77) == None
            && FindItem(cartItems, 77, 100) == Some(CartItem(77, 100, 33, 2))
  {
  }

  /** `updateItemQuantity` as evidently intended: the lookup takes the item id first, as in
      removeItem, and the updated cart is returned. */
  method UpdateItemQuantityFixed(store: Store, userId: Id, cartItemId: Id, request: UpdateCartItemRequest)
    returns (r: Result<CartView>)
    requires store.Valid()
    modifies store
    ensures store.Valid()
    ensures r.Ok? <==> HasCart(old(store.carts), userId)
                       && InCart(old(store.cartItems), cartItemId, CartIdOf(old(store.carts), userId))
    ensures r.Err? ==> unchanged(store)
    ensures r.Err? ==> r.error == if !HasCart(old(store.carts), userId) then EntityNotFound(CartEntity, userId)
                                  else EntityNotFound(CartItemEntity, cartItemId)
    ensures r.Ok? ==> store.cartItems == old(store.cartItems)[cartItemId :=
                        old(store.cartItems)[cartItemId].(quantity := request.quantity)]
    ensures r.Ok? ==> r.value == ToCartDto(old(store.carts)[CartIdOf(old(store.carts), userId)], store.cartItems)
    ensures unchanged(store`users, store`carts, store`books, store`categories, store`orders,
                      store`orderItems, store`nextId)
  {
    var found := FindShoppingCartByUserId(store.carts, userId);
    if found.Err? {
      return Err(found.error);
    }
    var cart := found.value;
    var item := FindItem(store.cartItems, cartItemId, cart.id);
    if item.None? {
      return Err(EntityNotFound(CartItemEntity, cartItemId));
    }
    store.cartItems := store.cartItems[item.value.id := item.value.(quantity := request.quantity)];
    r := Ok(ToCartDto(cart, store.cartItems));
  }

  /** A quantity update on a line of one cart leaves that cart's other lines and every other
      cart's lines as they were, and the line keeps its cart and book. */
  lemma QuantityUpdateIsLocal(cartItems: map<Id, CartItem>, itemId: Id, cartId: Id, quantity: int)
    requires InCart(cartItems, itemId, cartId)
    ensures var after := cartItems[itemId := cartItems[itemId].(quantity := quantity)];
            && (forall d :: d != cartId ==> ItemsInCart(after, d) == ItemsInCart(cartItems, d))
            && ItemsInCart(after, cartId).Keys == ItemsInCart(cartItems, cartId).Keys
            && (forall k :: k in ItemsInCart(after, cartId) && k != itemId ==>
                  ItemsInCart(after, cartId)[k] == cartItems[k])
            && ItemsInCart(after, cartId)[itemId] == cartItems[itemId].(quantity := quantity)
  {
    var after := cartItems[itemId := cartItems[itemId].(quantity := quantity)];
    forall d | d != cartId
      ensures ItemsInCart(after, d) == ItemsInCart(cartItems, d)
    {
      assert ItemsInCart(after, d).Keys == ItemsInCart(cartItems, d).Keys;
    }
    assert ItemsInCart(after, cartId).Keys == ItemsInCart(cartItems, cartId).Keys;
  }

  /** `removeItem`: resolves the cart, then the line by its id within that cart, and deletes it. */
  method RemoveItem(store: Store, cartItemId: Id, userId: Id) returns (r: Result<()>)
    requires store.Valid()
    modifies store
    ensures store.Valid()
    ensures r.Ok? <==> HasCart(old(store.carts), userId)
                       && InCart(old(store.cartItems), cartItemId, CartIdOf(old(store.carts), userId))
    ensures r.Err? ==> unchanged(store)
    ensures r.Err? ==> r.error == if !HasCart(old(store.carts), userId) then EntityNotFound(CartEntity, userId)
                                  else EntityNotFound(CartItemEntity, cartItemId)
    ensures r.Ok? ==> store.cartItems == old(store.cartItems) - {cartItemId}
    ensures unchanged(store`users, store`carts, store`books, store`categories, store`orders,
                      store`orderItems, store`nextId)
  {
    var found := FindShoppingCartByUserId(store.carts, userId);
    if found.Err? {
      return Err(found.error);
    }
    var cart := found.value;
    var item := FindItem(store.cartItems, cartItemId, cart.id);
    if item.None? {
      return Err(EntityNotFound(CartItemEntity, cartItemId));
    }
    store.cartItems := store.cartItems - {item.value.id};
    r := Ok(());
  }

  /** Removing a line takes exactly that line out of its cart and touches no other cart. */
  lemma RemovalIsLocal(cartItems: map<Id, CartItem>, itemId: Id, cartId: Id)
    requires InCart(cartItems, itemId, cartId)
    ensures ItemsInCart(cartItems - {itemId}, cartId) == ItemsInCart(cartItems, cartId) - {itemId}
    ensures forall d :: d != cartId ==> ItemsInCart(cartItems - {itemId}, d) == ItemsInCart(cartItems, d)
  {
    assert ItemsInCart(cartItems - {itemId}, cartId).Keys == ItemsInCart(cartItems, cartId).Keys - {itemId};
    forall d | d != cartId
      ensures ItemsInCart(cartItems - {itemId}, d) == ItemsInCart(cartItems, d)
    {
      assert ItemsInCart(cartItems - {itemId}, d).Keys == ItemsInCart(cartItems, d).Keys;
    }
  }
}
