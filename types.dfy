/** Entities, error kinds and the Option/Result wrappers shared by the whole bookstore model. */
module Types {

  /** Database identifiers (Java `Long`); generated ids are never null, so the model has no null id. */
  type Id = int

  /** A non-empty set of ids has an element to pick. */
  lemma NonEmptyHasElement(s: set<Id>)
    requires s != {}
    ensures exists x :: x in s
  {
    if forall x :: x !in s {
      assert false;
    }
  }

  datatype Option<+T> = None | Some(value: T)

  /** The exceptions the services throw, one variant per kind of throw site. */
  datatype Entity = UserEntity | CartEntity | CartItemEntity | BookEntity | CategoryEntity
                  | OrderEntity | OrderItemEntity

  datatype Error =
    | EntityNotFound(entity: Entity, id: Id)  // EntityNotFoundException
    | NotFound(entity: Entity, id: Id)        // a plain RuntimeException raised by a failed lookup
    | EmptyCart                               // IllegalStateException("Shopping cart is empty")
    | EmailTaken(email: string)               // RegistrationException
    | NoProvider(key: string)                 // RuntimeException of the specification provider lookup

  /** Success or a typed error; usable with `:-`. */
  datatype Result<+T> = Ok(value: T) | Err(error: Error) {
    predicate IsFailure() {
      Err?
    }

    function PropagateFailure<U>(): Result<U>
      requires Err?
    {
      Err(error)
    }

    function Extract(): T
      requires Ok?
    {
      value
    }
  }

  /** Order status; the enum's source is not part of this model, its values are NEW, PENDING, DELIVERED, CANCELLED. */
  datatype Status = New | Pending | Delivered | Cancelled

  datatype RoleName = RoleUser | RoleAdmin

  /** Prices are exact decimals (BigDecimal), held as integers in minor units (cents). */
  datatype User = User(id: Id, email: string, password: string, firstName: string,
                       lastName: string, shippingAddress: string, roles: set<RoleName>)

  datatype Category = Category(id: Id, name: string, description: string)

  /** A book; `categories` holds the ids of its categories (the book/category join table). */
  datatype Book = Book(id: Id, title: string, author: string, isbn: string, price: int,
                       description: string, coverImage: string, categories: set<Id>)

  datatype ShoppingCart = ShoppingCart(id: Id, userId: Id)

  /** A cart line; `cartId` is the owning cart, `bookId` a live reference into the catalog. */
  datatype CartItem = CartItem(id: Id, cartId: Id, bookId: Id, quantity: int)

  datatype Order = Order(id: Id, userId: Id, status: Status, total: int, shippingAddress: string)

  /** An order line; `orderId` points back to the owning order. */
  datatype OrderItem = OrderItem(id: Id, orderId: Id, bookId: Id, quantity: int, price: int)
}
