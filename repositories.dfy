/**
 * The persistence layer as one in-memory store: one map (id -> record) per repository,
 * and the repositories' derived queries as functions of those maps.
 */
module Repositories {
  import opened Types

  /** The cart item repository's `findByIdAndShoppingCartId(id, shoppingCartId)`: the item with
      that id, provided it belongs to that cart. */
  function FindItem(cartItems: map<Id, CartItem>, itemId: Id, cartId: Id): Option<CartItem>
  {
    if itemId in cartItems && cartItems[itemId].cartId == cartId then Some(cartItems[itemId]) else None
  }

  /** The `cartItems` collection of a cart: every cart item whose cart is `cartId`. */
  function ItemsInCart(cartItems: map<Id, CartItem>, cartId: Id): map<Id, CartItem>
  {
    map k | k in cartItems && cartItems[k].cartId == cartId :: cartItems[k]
  }

  /** The `orderItems` collection of an order: every order item pointing back to `orderId`. */
  function ItemsOfOrder(orderItems: map<Id, OrderItem>, orderId: Id): set<OrderItem>
  {
    set k | k in orderItems && orderItems[k].orderId == orderId :: orderItems[k]
  }

  /** The order repository's `findByUserId(userId)`, pagination aside. */
  function OrdersOfUser(orders: map<Id, Order>, userId: Id): map<Id, Order>
  {
    map k | k in orders && orders[k].userId == userId :: orders[k]
  }

  /** The order item repository's `findByIdAndOrderIdAndUserId`: the item with that id, if its
      order has that id and that order's user has that id. */
  function FindOrderItem(orderItems: map<Id, OrderItem>, orders: map<Id, Order>,
                         itemId: Id, orderId: Id, userId: Id): Option<OrderItem>
  {
    if && itemId in orderItems
       && orderItems[itemId].orderId == orderId
       && orderId in orders
       && orders[orderId].userId == userId
    then Some(orderItems[itemId])
    else None
  }

  /** The repository `findAllByCategoriesId(categoryId)`: every book in that category. */
  function BooksInCategory(books: map<Id, Book>, categoryId: Id): map<Id, Book>
  {
    map k | k in books && categoryId in books[k].categories :: books[k]
  }

  /** Whether some cart belongs to the user. */
  ghost predicate HasCart(carts: map<Id, ShoppingCart>, userId: Id)
  {
    exists c :: c in carts && carts[c].userId == userId
  }

  /** The id of the user's cart (unique in a valid store). */
  ghost function CartIdOf(carts: map<Id, ShoppingCart>, userId: Id): (c: Id)
    requires HasCart(carts, userId)
    ensures c in carts && carts[c].userId == userId
  {
    var c :| c in carts && carts[c].userId == userId; c
  }

  /** The one-to-one user/cart relation: no user owns two carts. */
  ghost predicate OneCartPerUser(carts: map<Id, ShoppingCart>)
  {
    forall c, d :: c in carts && d in carts && carts[c].userId == carts[d].userId ==> c == d
  }

  /** The shopping cart repository's `findByUserId(userId)`. */
  function FindCartByUserId(carts: map<Id, ShoppingCart>, userId: Id): (r: Option<ShoppingCart>)
    requires OneCartPerUser(carts)
    ensures r.Some? <==> HasCart(carts, userId)
    ensures r.Some? ==> r.value == carts[CartIdOf(carts, userId)] && r.value.userId == userId
  {
    if exists c | c in carts :: carts[c].userId == userId then
      var c :| c in carts && carts[c].userId == userId;
      Some(carts[c])
    else None
  }

  /** `findByUserId(userId).orElseThrow(EntityNotFoundException)`, the lookup placeOrder's
      `findShoppingCartByUserId` and every cart operation start with: the user's cart, or
      EntityNotFound for that user id. */
  function FindShoppingCartByUserId(carts: map<Id, ShoppingCart>, userId: Id): (r: Result<ShoppingCart>)
    requires OneCartPerUser(carts)
    ensures r.Ok? <==> HasCart(carts, userId)
    ensures r.Ok? ==> r.value == carts[CartIdOf(carts, userId)] && r.value.userId == userId
    ensures r.Err? ==> r.error == EntityNotFound(CartEntity, userId)
  {
    match FindCartByUserId(carts, userId)
    case Some(cart) => Ok(cart)
    case None => Err(EntityNotFound(CartEntity, userId))
  }

  class Store {
    var users: map<Id, User>
    var carts: map<Id, ShoppingCart>
    var cartItems: map<Id, CartItem>
    var books: map<Id, Book>
    var categories: map<Id, Category>
    var orders: map<Id, Order>
    var orderItems: map<Id, OrderItem>
    /** The database's id generator: every id handed out so far is below it. */
    var nextId: Id

    /** Keys are the records' ids, all below `nextId`; every cart belongs to a stored user and
        every order item to a stored order; no user has two carts (the one-to-one user/cart
        relation). */
    ghost predicate Valid()
      reads this
    {
      && (forall k :: k in users ==> users[k].id == k && k < nextId)
      && (forall k :: k in carts ==> carts[k].id == k && k < nextId && carts[k].userId in users)
      && (forall k :: k in cartItems ==> cartItems[k].id == k && k < nextId)
      && (forall k :: k in books ==> books[k].id == k && k < nextId)
      && (forall k :: k in categories ==> categories[k].id == k && k < nextId)
      && (forall k :: k in orders ==> orders[k].id == k && k < nextId)
      && (forall k :: k in orderItems ==>
            orderItems[k].id == k && k < nextId && orderItems[k].orderId in orders)
      && OneCartPerUser(carts)
    }

    constructor ()
      ensures Valid()
      ensures users == map[] && carts == map[] && cartItems == map[] && books == map[]
      ensures categories == map[] && orders == map[] && orderItems == map[]
    {
      users, carts, cartItems, books := map[], map[], map[], map[];
      categories, orders, orderItems := map[], map[], map[];
      nextId := 1;
    }
  }
}
