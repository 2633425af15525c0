/**
 * `OrderServiceImpl`: order placement from the user's shopping cart, the owner-scoped order
 * queries and the status update.
 */
module OrderService {
  import opened Types
  import opened Dto
  import opened Repositories

  /** `findUserById`: the stored user, or EntityNotFound for that id. */
  function FindUserById(users: map<Id, User>, userId: Id): (r: Result<User>)
    ensures r.Ok? <==> userId in users
    ensures r.Ok? ==> r.value == users[userId]
    ensures r.Err? ==> r.error == EntityNotFound(UserEntity, userId)
  {
    if userId in users then Ok(users[userId]) else Err(EntityNotFound(UserEntity, userId))
  }

  /** The price of one cart line: the book's current price times the line's quantity. */
  function LinePrice(item: CartItem, books: map<Id, Book>): int
    requires item.bookId in books
  {
    books[item.bookId].price * item.quantity
  }

  /** The order line made from one cart line. */
  function LineFor(id: Id, orderId: Id, item: CartItem, books: map<Id, Book>): OrderItem
    requires item.bookId in books
  {
    OrderItem(id, orderId, item.bookId, item.quantity, LinePrice(item, books))
  }

  ghost predicate Distinct(s: seq<Id>)
  {
    forall i, j :: 0 <= i < j < |s| ==> s[i] != s[j]
  }

  /** `lines` holds exactly one order line per cart line: `origin[i]` is the cart line that
      `lines[i]` was made from, every cart line occurs once in `origin`, and line `i` takes the
      `i`-th id after the order's own, points back to the order, copies the book and quantity and costs
      book price × quantity. */
  ghost predicate MirrorsCart(lines: seq<OrderItem>, origin: seq<Id>, orderId: Id,
                              items: map<Id, CartItem>, books: map<Id, Book>)
  {
    && |lines| == |origin| == |items|
    && Distinct(origin)
    && (forall k :: k in items <==> k in origin)
    && (forall i :: 0 <= i < |lines| ==>
          && origin[i] in items
          && items[origin[i]].bookId in books
          && lines[i] == LineFor(orderId + 1 + i, orderId, items[origin[i]], books))
  }

  /** `createOrderItems`: one new order line per cart line, in the cart's iteration order; reading
      the price of a line whose book is no longer in the catalog fails. */
  method CreateOrderItems(orderId: Id, items: map<Id, CartItem>, books: map<Id, Book>)
    returns (r: Result<seq<OrderItem>>, ghost origin: seq<Id>)
    ensures r.Ok? <==> forall k :: k in items ==> items[k].bookId in books
    ensures r.Ok? ==> MirrorsCart(r.value, origin, orderId, items, books)
    ensures r.Err? ==> MissingBook(items, books, r.error)
  {
    var lines := [];
    origin := [];
    var remaining := items.Keys;
    while remaining != {}
      invariant remaining <= items.Keys
      invariant |lines| == |origin| == |items.Keys| - |remaining|
      invariant Distinct(origin)
      invariant forall k :: k in items ==> (k in origin <==> k !in remaining)
      invariant forall i :: 0 <= i < |lines| ==>
                  && origin[i] in items
                  && items[origin[i]].bookId in books
                  && lines[i] == LineFor(orderId + 1 + i, orderId, items[origin[i]], books)
      decreases remaining
    {
      NonEmptyHasElement(remaining);
      var k :| k in remaining;
      if items[k].bookId !in books {
        return Err(EntityNotFound(BookEntity, items[k].bookId)), origin;
      }
      lines := lines + [LineFor(orderId + 1 + |lines|, orderId, items[k], books)];
      origin := origin + [k];
      remaining := remaining - {k};
    }
    forall k | k in items ensures items[k].bookId in books {
      var i :| 0 <= i < |origin| && origin[i] == k;
    }
    r := Ok(lines);
  }

  /** `e` is the failure of loading a missing book that some line of `items` refers to. */
  ghost predicate MissingBook(items: map<Id, CartItem>, books: map<Id, Book>, e: Error)
  {
    && e.EntityNotFound? && e.entity == BookEntity && e.id !in books
    && exists k :: k in items && items[k].bookId == e.id
  }

  /** The order lines keyed by the ids they were given, `firstId` onwards. */
  function LinesById(lines: seq<OrderItem>, firstId: Id): (r: map<Id, OrderItem>)
    ensures forall id :: id in r <==> firstId <= id < firstId + |lines|
    ensures forall id :: id in r ==> r[id] == lines[id - firstId]
  {
    if lines == [] then map[]
    else LinesById(lines[..|lines| - 1], firstId)[firstId + |lines| - 1 := lines[|lines| - 1]]
  }

  /** The lines of the user's cart. */
  ghost function UserCartItems(carts: map<Id, ShoppingCart>, cartItems: map<Id, CartItem>, userId: Id)
    : map<Id, CartItem>
    requires HasCart(carts, userId)
  {
    ItemsInCart(cartItems, CartIdOf(carts, userId))
  }

  /** Everything placeOrder checks before it writes: the user exists, has a cart, the cart is
      not empty and every book it refers to is still in the catalog. */
  ghost predicate CanPlace(users: map<Id, User>, carts: map<Id, ShoppingCart>,
                           cartItems: map<Id, CartItem>, books: map<Id, Book>, userId: Id)
  {
    && userId in users
    && HasCart(carts, userId)
    && UserCartItems(carts, cartItems, userId) != map[]
    && forall k :: k in UserCartItems(carts, cartItems, userId) ==>
                     UserCartItems(carts, cartItems, userId)[k].bookId in books
  }

  /** The error placeOrder reports when `CanPlace` fails, after the checks in the order the code
      makes them: no user, no cart, an empty cart, then a line whose book is gone (any such line). */
  ghost predicate Rejection(users: map<Id, User>, carts: map<Id, ShoppingCart>,
                            cartItems: map<Id, CartItem>, books: map<Id, Book>, userId: Id, e: Error)
  {
    if userId !in users then e == EntityNotFound(UserEntity, userId)
    else if !HasCart(carts, userId) then e == EntityNotFound(CartEntity, userId)
    else if UserCartItems(carts, cartItems, userId) == map[] then e == EmptyCart
    else MissingBook(UserCartItems(carts, cartItems, userId), books, e)
  }

  /** The checks placeOrder makes before it builds anything: the user, then the user's cart, then
      that the cart has lines; on success, those lines. */
  function CheckCart(users: map<Id, User>, carts: map<Id, ShoppingCart>, cartItems: map<Id, CartItem>,
                     userId: Id): (r: Result<map<Id, CartItem>>)
    requires OneCartPerUser(carts)
    requires forall k :: k in carts ==> carts[k].id == k
    ensures r.Ok? <==> userId in users && HasCart(carts, userId) && UserCartItems(carts, cartItems, userId) != map[]
    ensures r.Ok? ==> r.value == UserCartItems(carts, cartItems, userId)
    ensures userId !in users ==> r == Err(EntityNotFound(UserEntity, userId))
    ensures userId in users && !HasCart(carts, userId) ==> r == Err(EntityNotFound(CartEntity, userId))
    ensures (userId in users && HasCart(carts, userId) && UserCartItems(carts, cartItems, userId) == map[]) ==>
              r == Err(EmptyCart)
  {
    var user :- FindUserById(users, userId);
    var cart :- FindShoppingCartByUserId(carts, userId);
    var items := ItemsInCart(cartItems, cart.id);
    if items == map[] then Err(EmptyCart) else Ok(items)
  }

  /** The `OrderResponseDto` of a placed order: the order and its lines. */
  datatype PlacedOrder = PlacedOrder(order: Order, items: seq<OrderItem>)

  /** `placeOrder`: a NEW order with total zero and one line per cart line, then the cart is emptied;
      a rejected request changes nothing. */
  method PlaceOrder(store: Store, request: OrderRequest, userId: Id)
    returns (r: Result<PlacedOrder>, ghost origin: seq<Id>)
    requires store.Valid()
    modifies store
    ensures store.Valid()
    ensures r.Ok? <==> CanPlace(old(store.users), old(store.carts), old(store.cartItems), old(store.books), userId)
    ensures r.Err? ==> unchanged(store)
    ensures r.Err? ==> Rejection(old(store.users), old(store.carts), old(store.cartItems), old(store.books),
                                 userId, r.error)
    ensures r.Ok? ==> r.value.order == Order(old(store.nextId), userId, New, 0, request.shippingAddress)
    ensures r.Ok? ==> r.value.order.id !in old(store.orders)
    ensures r.Ok? ==> MirrorsCart(r.value.items, origin, r.value.order.id,
                                  UserCartItems(old(store.carts), old(store.cartItems), userId), old(store.books))
    ensures r.Ok? ==> store.orders == old(store.orders)[r.value.order.id := r.value.order]
    ensures r.Ok? ==> SavedLines(old(store.orderItems), store.orderItems, r.value)
    ensures r.Ok? ==> ItemsOfOrder(store.orderItems, r.value.order.id) == (set l | l in r.value.items)
    ensures r.Ok? ==> store.cartItems == old(store.cartItems) - UserCartItems(old(store.carts), old(store.cartItems), userId).Keys
    ensures r.Ok? ==> ItemsInCart(store.cartItems, CartIdOf(old(store.carts), userId)) == map[]
    ensures r.Ok? ==> store.nextId == r.value.order.id + 1 + |r.value.items|
    ensures unchanged(store`users, store`carts, store`books, store`categories)
  {
    origin := [];
    var checked := CheckCart(store.users, store.carts, store.cartItems, userId);
    if checked.Err? {
      return Err(checked.error), origin;
    }
    var items := checked.value;
    var order := Order(store.nextId, userId, New, 0, request.shippingAddress);
    ghost var cartId := CartIdOf(store.carts, userId);
    var lines;
    lines, origin := CreateOrderItems(order.id, items, store.books);
    if lines.Err? {
      return Err(lines.error), origin;
    }
    var placed := PlacedOrder(order, lines.value);
    CommitOrder(store, placed, items, cartId);
    r := Ok(placed);
  }

  /** The writes of placeOrder: the order is saved with its lines, then the cart is cleared. */
  method CommitOrder(store: Store, placed: PlacedOrder, items: map<Id, CartItem>, ghost cartId: Id)
    requires store.Valid()
    requires placed.order.id == store.nextId
    requires items == ItemsInCart(store.cartItems, cartId)
    requires NumberedLines(placed)
    modifies store
    ensures store.Valid()
    ensures store.orders == old(store.orders)[placed.order.id := placed.order]
    ensures SavedLines(old(store.orderItems), store.orderItems, placed)
    ensures ItemsOfOrder(store.orderItems, placed.order.id) == (set l | l in placed.items)
    ensures store.cartItems == old(store.cartItems) - items.Keys
    ensures ItemsInCart(store.cartItems, cartId) == map[]
    ensures store.nextId == placed.order.id + 1 + |placed.items|
    ensures unchanged(store`users, store`carts, store`books, store`categories)
  {
    LinesOfSavedOrder(store.orderItems, placed.items, placed.order.id, placed.order.id + 1);
    SaveOrder(store, placed);
    ClearingEmptiesCart(store.cartItems, cartId);
    DeleteCartItems(store, items.Keys);
  }

  /** The order item table after saving: the old one plus the placed order's lines, keyed by
      their ids. */
  ghost predicate SavedLines(before: map<Id, OrderItem>, after: map<Id, OrderItem>, placed: PlacedOrder)
  {
    after == before + LinesById(placed.items, placed.order.id + 1)
  }

  /** The order's lines point back to it and take the ids that follow the order's own. */
  ghost predicate NumberedLines(placed: PlacedOrder)
  {
    forall i :: 0 <= i < |placed.items| ==>
      placed.items[i].id == placed.order.id + 1 + i && placed.items[i].orderId == placed.order.id
  }

  /** The cascade that removes the cleared cart's lines from the cart item table. */
  method DeleteCartItems(store: Store, keys: set<Id>)
    requires store.Valid()
    modifies store
    ensures store.Valid()
    ensures store.cartItems == old(store.cartItems) - keys
    ensures unchanged(store`users, store`carts, store`books, store`categories, store`orders,
                      store`orderItems, store`nextId)
  {
    store.cartItems := store.cartItems - keys;
  }

  /** Removing a cart's lines leaves that cart with none. */
  lemma ClearingEmptiesCart(cartItems: map<Id, CartItem>, cartId: Id)
    ensures ItemsInCart(cartItems - ItemsInCart(cartItems, cartId).Keys, cartId) == map[]
  {
    var rest := cartItems - ItemsInCart(cartItems, cartId).Keys;
    forall k | k in rest ensures rest[k].cartId != cartId {
    }
    assert ItemsInCart(rest, cartId).Keys == {};
  }

  /** `orderRepository.save(order)`, cascading to the order's lines. */
  method SaveOrder(store: Store, placed: PlacedOrder)
    requires store.Valid()
    requires placed.order.id == store.nextId
    requires NumberedLines(placed)
    modifies store
    ensures store.Valid()
    ensures store.orders == old(store.orders)[placed.order.id := placed.order]
    ensures SavedLines(old(store.orderItems), store.orderItems, placed)
    ensures store.nextId == placed.order.id + 1 + |placed.items|
    ensures unchanged(store`users, store`carts, store`cartItems, store`books, store`categories)
  {
    store.orders := store.orders[placed.order.id := placed.order];
    store.orderItems := store.orderItems + LinesById(placed.items, placed.order.id + 1);
    store.nextId := placed.order.id + 1 + |placed.items|;
  }

  /** The lines of an order saved with fresh line ids are exactly the order's lines. */
  lemma {:induction false} LinesOfSavedOrder(orderItems: map<Id, OrderItem>, lines: seq<OrderItem>,
                                             orderId: Id, firstId: Id)
    requires forall k :: k in orderItems ==> orderItems[k].orderId != orderId
    requires forall k :: k in orderItems ==> k < firstId
    requires forall i :: 0 <= i < |lines| ==> lines[i].orderId == orderId
    ensures ItemsOfOrder(orderItems + LinesById(lines, firstId), orderId) == set l | l in lines
  {
    var added := LinesById(lines, firstId);
    var all := orderItems + added;
    forall l | l in lines
      ensures l in ItemsOfOrder(all, orderId)
    {
      var i :| 0 <= i < |lines| && lines[i] == l;
      assert firstId + i in added;
      assert all[firstId + i] == l;
    }
    forall l | l in ItemsOfOrder(all, orderId)
      ensures l in lines
    {
      var k :| k in all && all[k].orderId == orderId && all[k] == l;
      assert k in added;
      assert lines[k - firstId] == l;
    }
  }

  /** Sum of the prices of order lines. */
  function SumPrices(lines: seq<OrderItem>): int
  {
    if lines == [] then 0 else lines[0].price + SumPrices(lines[1..])
  }

  /** The value of a set of cart lines: the sum of book price × quantity over them. */
  ghost function CartValue(keys: set<Id>, items: map<Id, CartItem>, books: map<Id, Book>): int
    requires keys <= items.Keys
    requires forall k :: k in keys ==> items[k].bookId in books
    decreases keys
  {
    if keys == {} then 0
    else
      NonEmptyHasElement(keys);
      var k :| k in keys;
      LinePrice(items[k], books) + CartValue(keys - {k}, items, books)
  }

  /** The value of the user's cart. */
  ghost function CartTotal(users: map<Id, User>, carts: map<Id, ShoppingCart>, cartItems: map<Id, CartItem>,
                           books: map<Id, Book>, userId: Id): int
    requires CanPlace(users, carts, cartItems, books, userId)
  {
    var items := UserCartItems(carts, cartItems, userId);
    CartValue(items.Keys, items, books)
  }

  /** The cart value does not depend on which line is taken first. */
  lemma {:induction false} CartValueRemove(keys: set<Id>, k: Id, items: map<Id, CartItem>, books: map<Id, Book>)
    requires keys <= items.Keys
    requires forall j :: j in keys ==> items[j].bookId in books
    requires k in keys
    ensures CartValue(keys, items, books) == LinePrice(items[k], books) + CartValue(keys - {k}, items, books)
    decreases keys
  {
    var j :| j in keys && CartValue(keys, items, books) == LinePrice(items[j], books) + CartValue(keys - {j}, items, books);
    if j != k {
      CartValueRemove(keys - {j}, k, items, books);
      CartValueRemove(keys - {k}, j, items, books);
      assert keys - {j} - {k} == keys - {k} - {j};
    }
  }

  /** Summing the prices of lines built from distinct cart lines gives those lines' cart value,
      in whatever order the cart was iterated. */
  lemma {:induction false} SumPricesIsCartValue(lines: seq<OrderItem>, origin: seq<Id>, orderId: Id,
                                                items: map<Id, CartItem>, books: map<Id, Book>)
    requires |lines| == |origin| && Distinct(origin)
    requires forall i :: 0 <= i < |origin| ==> origin[i] in items && items[origin[i]].bookId in books
    requires forall i :: 0 <= i < |lines| ==> lines[i].price == LinePrice(items[origin[i]], books)
    ensures SumPrices(lines) == CartValue((set k | k in origin), items, books)
    decreases |lines|
  {
    if lines != [] {
      var rest := set k | k in origin[1..];
      assert (set k | k in origin) - {origin[0]} == rest by {
        forall k | k in origin[1..] ensures k != origin[0] {
          var i :| 0 <= i < |origin[1..]| && origin[1..][i] == k;
          assert origin[i + 1] == k;
        }
      }
      SumPricesIsCartValue(lines[1..], origin[1..], orderId, items, books);
      CartValueRemove((set k | k in origin), origin[0], items, books);
    }
  }

  /** The total a placed order should carry: the value of the whole cart. */
  lemma PlacedLinesSumToCartValue(lines: seq<OrderItem>, origin: seq<Id>, orderId: Id,
                                  items: map<Id, CartItem>, books: map<Id, Book>)
    requires MirrorsCart(lines, origin, orderId, items, books)
    requires forall k :: k in items ==> items[k].bookId in books
    ensures SumPrices(lines) == CartValue(items.Keys, items, books)
  {
    SumPricesIsCartValue(lines, origin, orderId, items, books);
    forall k ensures k in (set j | j in origin) <==> k in items.Keys {
    }
    assert (set k | k in origin) == items.Keys;
  }

  /** Book X at 20.00 twice and book Y at 5.50 once are worth 45.50, while the
      order placeOrder saves for that cart has total 0. */
  lemma ZeroTotalCounterexample()
    ensures var books := map[1 := Book(1, "X", "", "", 2000, "", "", {}),
                             2 := Book(2, "Y", "", "", 550, "", "", {})];
            var items := map[10 := CartItem(10, 7, 1, 2), 11 := CartItem(11, 7, 2, 1)];
            CartValue(items.Keys, items, books) == 4550 != 0
  {
    var books := map[1 := Book(1, "X", "", "", 2000, "", "", {}),
                     2 := Book(2, "Y", "", "", 550, "", "", {})];
    var items := map[10 := CartItem(10, 7, 1, 2), 11 := CartItem(11, 7, 2, 1)];
    CartValueRemove(items.Keys, 10, items, books);
    assert items.Keys - {10} == {11};
    CartValueRemove({11}, 11, items, books);
  }

  /** placeOrder as evidently intended: the same, except that the order's total is the sum of
      its lines' prices, which is the value of the cart. */
  method PlaceOrderWithTotal(store: Store, request: OrderRequest, userId: Id)
    returns (r: Result<PlacedOrder>, ghost origin: seq<Id>)
    requires store.Valid()
    modifies store
    ensures store.Valid()
    ensures r.Ok? <==> CanPlace(old(store.users), old(store.carts), old(store.cartItems), old(store.books), userId)
    ensures r.Err? ==> unchanged(store)
    ensures r.Err? ==> Rejection(old(store.users), old(store.carts), old(store.cartItems), old(store.books),
                                 userId, r.error)
    ensures r.Ok? ==> r.value.order == Order(old(store.nextId), userId, New,
                                             CartTotal(old(store.users), old(store.carts), old(store.cartItems),
                                                       old(store.books), userId),
                                             request.shippingAddress)
    ensures r.Ok? ==> r.value.order.total == SumPrices(r.value.items)
    ensures r.Ok? ==> MirrorsCart(r.value.items, origin, r.value.order.id,
                                  UserCartItems(old(store.carts), old(store.cartItems), userId), old(store.books))
    ensures r.Ok? ==> store.orders == old(store.orders)[r.value.order.id := r.value.order]
    ensures r.Ok? ==> SavedLines(old(store.orderItems), store.orderItems, r.value)
    ensures r.Ok? ==> store.cartItems == old(store.cartItems) - UserCartItems(old(store.carts), old(store.cartItems), userId).Keys
    ensures r.Ok? ==> store.nextId == r.value.order.id + 1 + |r.value.items|
    ensures unchanged(store`users, store`carts, store`books, store`categories)
  {
    origin := [];
    var checked := CheckCart(store.users, store.carts, store.cartItems, userId);
    if checked.Err? {
      return Err(checked.error), origin;
    }
    var items := checked.value;
    ghost var cartId := CartIdOf(store.carts, userId);
    var lines;
    lines, origin := CreateOrderItems(store.nextId, items, store.books);
    if lines.Err? {
      return Err(lines.error), origin;
    }
    PlacedLinesSumToCartValue(lines.value, origin, store.nextId, items, store.books);
    var order := Order(store.nextId, userId, New, SumPrices(lines.value), request.shippingAddress);
    var placed := PlacedOrder(order, lines.value);
    CommitOrder(store, placed, items, cartId);
    r := Ok(placed);
  }

  /** `getOrderHistory`: exactly the orders whose owner is `userId` (pagination aside). */
  function GetOrderHistory(orders: map<Id, Order>, userId: Id): (r: map<Id, Order>)
    ensures forall k :: k in r <==> k in orders && orders[k].userId == userId
    ensures forall k :: k in r ==> r[k] == orders[k]
  {
    OrdersOfUser(orders, userId)
  }

  /** A newly saved order shows up in its owner's history and in no one else's. */
  lemma {:induction false} HistoryAfterSave(orders: map<Id, Order>, o: Order, userId: Id)
    requires o.id !in orders
    ensures GetOrderHistory(orders[o.id := o], userId) ==
              if o.userId == userId then GetOrderHistory(orders, userId)[o.id := o]
              else GetOrderHistory(orders, userId)
  {
    var before, after := GetOrderHistory(orders, userId), GetOrderHistory(orders[o.id := o], userId);
    if o.userId == userId {
      assert after.Keys == before.Keys + {o.id};
    } else {
      assert after.Keys == before.Keys;
    }
  }

  /** The histories of two different users share no order. */
  lemma HistoriesAreDisjoint(orders: map<Id, Order>, u: Id, v: Id)
    requires u != v
    ensures GetOrderHistory(orders, u).Keys !! GetOrderHistory(orders, v).Keys
  {
  }

  /** `getOrderItems` as written: the lines of the order, whoever asks; an unknown order id is a
      RuntimeException. */
  function GetOrderItems(orders: map<Id, Order>, orderItems: map<Id, OrderItem>,
                         orderId: Id, userId: Id): (r: Result<set<OrderItem>>)
    ensures r.Ok? <==> orderId in orders
    ensures r.Ok? ==> forall k :: k in orderItems && orderItems[k].orderId == orderId ==> orderItems[k] in r.value
    ensures r.Ok? ==> forall it :: it in r.value ==>
                        it.orderId == orderId && exists k :: k in orderItems && orderItems[k] == it
    ensures r.Err? ==> r.error == NotFound(OrderEntity, orderId)
  {
    if orderId in orders then Ok(ItemsOfOrder(orderItems, orderId)) else Err(NotFound(OrderEntity, orderId))
  }

  /** The user id is never consulted: another user's order lines are returned. */
  lemma OthersOrderItemsVisible(orders: map<Id, Order>, orderItems: map<Id, OrderItem>,
                                orderId: Id, userId: Id)
    requires orderId in orders && orders[orderId].userId != userId
    ensures GetOrderItems(orders, orderItems, orderId, userId) ==
              GetOrderItems(orders, orderItems, orderId, orders[orderId].userId)
    ensures GetOrderItems(orders, orderItems, orderId, userId).Ok?
    ensures GetOwnedOrderItems(orders, orderItems, orderId, userId).Err?
  {
  }

  /** getOrderItems as evidently intended: an order that is missing or owned by someone else is
      reported the same way. */
  function GetOwnedOrderItems(orders: map<Id, Order>, orderItems: map<Id, OrderItem>,
                              orderId: Id, userId: Id): (r: Result<set<OrderItem>>)
    ensures r.Ok? <==> orderId in orders && orders[orderId].userId == userId
    ensures r.Ok? ==> forall k :: k in orderItems && orderItems[k].orderId == orderId ==> orderItems[k] in r.value
    ensures r.Ok? ==> forall it :: it in r.value ==>
                        it.orderId == orderId && exists k :: k in orderItems && orderItems[k] == it
    ensures r.Err? ==> r.error == NotFound(OrderEntity, orderId)
  {
    if orderId in orders && orders[orderId].userId == userId then Ok(ItemsOfOrder(orderItems, orderId))
    else Err(NotFound(OrderEntity, orderId))
  }

  /** `getOrderItemById`: the line only if its id, its order's id and that order's owner all match. */
  function GetOrderItemById(orders: map<Id, Order>, orderItems: map<Id, OrderItem>,
                            orderId: Id, itemId: Id, userId: Id): (r: Result<OrderItem>)
    ensures r.Ok? <==> && itemId in orderItems && orderItems[itemId].orderId == orderId
                       && orderId in orders && orders[orderId].userId == userId
    ensures r.Ok? ==> r.value == orderItems[itemId]
    ensures r.Err? ==> r.error == NotFound(OrderItemEntity, itemId)
  {
    match FindOrderItem(orderItems, orders, itemId, orderId, userId)
    case Some(item) => Ok(item)
    case None => Err(NotFound(OrderItemEntity, itemId))
  }

  /** The intended list query and the single-item query agree: each line the owner may list is
      also found one by one. */
  lemma {:induction false} OwnedItemsFoundById(orders: map<Id, Order>, orderItems: map<Id, OrderItem>,
                                               orderId: Id, userId: Id)
    requires forall k :: k in orderItems ==> orderItems[k].id == k
    requires GetOwnedOrderItems(orders, orderItems, orderId, userId).Ok?
    ensures forall it :: it in GetOwnedOrderItems(orders, orderItems, orderId, userId).value ==>
              GetOrderItemById(orders, orderItems, orderId, it.id, userId) == Ok(it)
  {
    forall it | it in GetOwnedOrderItems(orders, orderItems, orderId, userId).value
      ensures GetOrderItemById(orders, orderItems, orderId, it.id, userId) == Ok(it)
    {
      var k :| k in orderItems && orderItems[k] == it;
      assert k == it.id;
    }
  }

  /** `updateOrderStatus`: any requested status overwrites the current one; nothing else changes. */
  method UpdateOrderStatus(store: Store, id: Id, request: UpdateOrderStatusRequest)
    returns (r: Result<Order>)
    requires store.Valid()
    modifies store
    ensures store.Valid()
    ensures r.Ok? <==> id in old(store.orders)
    ensures r.Err? ==> r.error == EntityNotFound(OrderEntity, id) && unchanged(store)
    ensures r.Ok? ==> && r.value == old(store.orders[id]).(status := request.status)
                      && store.orders == old(store.orders)[id := r.value]
    ensures unchanged(store`users, store`carts, store`cartItems, store`books, store`categories,
                      store`orderItems, store`nextId)
  {
    if id !in store.orders {
      return Err(EntityNotFound(OrderEntity, id));
    }
    var order := store.orders[id].(status := request.status);
    store.orders := store.orders[id := order];
    r := Ok(order);
  }

  /** A status update moves no order between histories. */
  lemma {:induction false} StatusUpdateKeepsHistories(orders: map<Id, Order>, id: Id, s: Status, userId: Id)
    requires id in orders
    ensures GetOrderHistory(orders[id := orders[id].(status := s)], userId).Keys ==
              GetOrderHistory(orders, userId).Keys
  {
    var after := orders[id := orders[id].(status := s)];
    assert forall k :: k in after <==> k in orders;
    assert forall k :: k in after ==> after[k].userId == orders[k].userId;
  }
}
