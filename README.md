# Bookstore service layer: a Dafny model

This is a model of the service layer of a Spring bookstore backend. It covers:

- order placement from a user's shopping cart, the order queries, and order status updates;
- the shopping cart operations;
- saving, updating, deleting and listing catalog books and categories;
- user registration;
- the composition of book search specifications from optional author/title/isbn parameters;
- the hand-written parts of the book mapper;
- the password-repetition validator.

The persistence layer is one `Store` object (module `Repositories`). It holds one map per
repository, from id to record, and an id counter standing for the database's id generation. Its
invariant `Valid()` says:

- every key is its record's id and lies below the counter;
- every cart belongs to a stored user;
- every order line belongs to a stored order;
- no user owns two carts.

Every service operation that writes is a `method` on that store. It states its whole new state and
what stays unchanged, and every failure path leaves the store untouched, which is the observable
effect of the transaction rollback. Read-only queries and pure helpers are functions over the maps.

Modules:

- `Types`, `Dto`: entities, request/response records, errors.
- `Repositories`: the store and the repositories' derived queries.
- `OrderService`, `ShoppingCartService`, `BookService`, `CategoryService`, `UserService`: the services.
- `BookMapper`, `BookSpecificationProviderManager`, `BookSpecificationBuilder`, `FieldMatchValidator`.

Conventions:

- A book refers to its categories by id (the join table).
- Prices are exact decimals held as integers in minor units.
- The password encoder is a function parameter of `Register`.
- A search `Specification<Book>` is the list of (provider, parameters) conjuncts it is the `and` of. The empty list is `where(null)`, which matches every book. A provider's `getSpecification(params)` is an interface method whose predicate is not modelled, so it is represented by the conjunct of that provider and those parameters (`BookSpecificationProviderManager.GetSpecification`).
- The category mappings `toEntity` and `toDto` are field copies, so mapping a category request to an entity and back returns the request by definition.

Several derived repository queries used by the services are not visible in the repository
interfaces of this source tree. They are `existsByEmail`, `findByIdAndShoppingCartId`,
`findByIdWithCategory`, `findAllByCategoriesId` and the shopping cart repository's `findByUserId`.
The model gives each of them the meaning its Spring Data name has (`Repositories.FindItem`,
`Repositories.BooksInCategory`, `UserService.ExistsByEmail`, `Repositories.FindCartByUserId`). `findByIdWithCategory` is the plain lookup by id in `BookService.Save`, `BookService.GetBookById`, `BookService.UpdateBook` and `ShoppingCartService.AddItemToCart`.

Where the service code departs from what its names and tests suggest, the model follows the code:

- `updateOrderStatus` sets any requested status, with no transition rules.
- An order line keeps a reference to the book, not a title snapshot, and no order date is set.
- Adding a book that is already in the cart adds a second line rather than merging (`ShoppingCartService.AddingTwiceGivesTwoLines`).
- The order total is stored as zero, not as the sum of the line prices (see the Findings row for OrderServiceImpl.java:61-64).

## Model

| member | source | states |
|---|---|---|
| Repositories.FindShoppingCartByUserId | src/main/java/mate/academy/intro/service/OrderServiceImpl.java:78-83 | finds a cart exactly when the user owns one, returns that user's cart, otherwise EntityNotFound for the user id |
| OrderService.FindUserById | src/main/java/mate/academy/intro/service/OrderServiceImpl.java:73-76 | succeeds exactly for a stored user and returns that user, otherwise EntityNotFound for the id |
| OrderService.CreateOrderItems | src/main/java/mate/academy/intro/service/OrderServiceImpl.java:85-97 | the loop makes exactly one order line per cart line (a one-to-one `origin` map onto the cart's lines). Each line points to the order, copies book and quantity, and costs book price × quantity. A line whose book is not stored fails with EntityNotFound for a book some line refers to, an error path of the model's own (see "## Left out") |
| OrderService.CheckCart | src/main/java/mate/academy/intro/service/OrderServiceImpl.java:49-54 | the checks before any write, in code order: unknown user, then no cart (both EntityNotFound), then an empty cart (EmptyCart). On success returns the user's cart lines |
| OrderService.PlaceOrder | src/main/java/mate/academy/intro/service/OrderServiceImpl.java:48-71 | succeeds iff the user exists, has a non-empty cart, and every line's book is stored (the last is the model's own error path, see "## Left out"); otherwise the error in check order, store unchanged. On success: a NEW order owned by the user with the request's address and total 0, saved with exactly its lines; one order line per cart line; the cart then has no lines; users, carts, books and categories unchanged |
| OrderService.CommitOrder | src/main/java/mate/academy/intro/service/OrderServiceImpl.java:66-68 | saves the order and its lines, then deletes exactly the cart's lines, leaving that cart empty |
| OrderService.SaveOrder | src/main/java/mate/academy/intro/service/OrderServiceImpl.java:66 | the order table gains the order, the order-item table gains exactly its lines under fresh ids; other tables unchanged |
| OrderService.DeleteCartItems | src/main/java/mate/academy/intro/service/OrderServiceImpl.java:67-68 | removes exactly the given cart lines and nothing else |
| OrderService.ClearingEmptiesCart | src/main/java/mate/academy/intro/service/OrderServiceImpl.java:67 | after removing a cart's lines, the cart has none |
| OrderService.LinesOfSavedOrder | src/main/java/mate/academy/intro/service/OrderServiceImpl.java:62-66 | after saving, the order's `orderItems` collection is exactly the lines it was saved with |
| OrderService.SumPricesIsCartValue | src/main/java/mate/academy/intro/service/OrderServiceImpl.java:85-97 | summing the prices of lines built from distinct cart lines gives those lines' cart value, whatever the iteration order |
| OrderService.PlacedLinesSumToCartValue | src/main/java/mate/academy/intro/service/OrderServiceImpl.java:85-97 | the prices of the lines `createOrderItems` makes add up to the cart's value |
| OrderService.ZeroTotalCounterexample | src/main/java/mate/academy/intro/service/OrderServiceImpl.java:61-64 | a cart with book X at 20.00 × 2 and book Y at 5.50 × 1 is worth 45.50, not the 0 that `placeOrder` stores |
| OrderService.PlaceOrderWithTotal | src/main/java/mate/academy/intro/service/OrderServiceImpl.java:48-71 | placeOrder with the intended total: the same success and error conditions and state changes, and the order's total is the sum of its line prices, which equals the cart's value |
| OrderService.GetOrderHistory | src/main/java/mate/academy/intro/service/OrderServiceImpl.java:100-103 | exactly the orders whose owner is the user, unchanged |
| OrderService.HistoryAfterSave | src/main/java/mate/academy/intro/service/OrderServiceImpl.java:100-103 | a newly saved order appears in its owner's history and in nobody else's |
| OrderService.HistoriesAreDisjoint | src/main/java/mate/academy/intro/service/OrderServiceImpl.java:100-103 | two users' histories share no order |
| OrderService.GetOrderItems | src/main/java/mate/academy/intro/service/OrderServiceImpl.java:106-112 | succeeds iff the order exists, whoever asks; returns exactly the lines pointing to it; otherwise NotFound for the order id |
| OrderService.OthersOrderItemsVisible | src/main/java/mate/academy/intro/service/OrderServiceImpl.java:106-112 | the user argument is ignored: a non-owner gets the owner's result, and the owner-checked query refuses them |
| OrderService.GetOwnedOrderItems | src/main/java/mate/academy/intro/service/OrderServiceImpl.java:106-112 | succeeds iff the order exists and the user owns it; returns exactly its lines |
| OrderService.GetOrderItemById | src/main/java/mate/academy/intro/service/OrderServiceImpl.java:115-122 | succeeds iff the line exists, its order has the given id, and that order's owner is the user (the repository query at repository/OrderItemRepository.java:10-14); otherwise NotFound for the item id |
| OrderService.OwnedItemsFoundById | src/main/java/mate/academy/intro/service/OrderServiceImpl.java:115-122 | every line the owner may list is also found by the single-item lookup |
| OrderService.UpdateOrderStatus | src/main/java/mate/academy/intro/service/OrderServiceImpl.java:125-133 | an unknown id fails with EntityNotFound and changes nothing; otherwise only that order's status changes, to the requested one, whatever it was |
| OrderService.StatusUpdateKeepsHistories | src/main/java/mate/academy/intro/service/OrderServiceImpl.java:125-133 | a status update moves no order between users' histories |
| ShoppingCartService.CreateShoppingCartForUser | src/main/java/mate/academy/intro/service/ShoppingCartServiceImpl.java:32-36 | adds one new cart with the next id, owned by the user, which becomes the user's cart; nothing else changes |
| ShoppingCartService.NewCartIsOnlyCart | src/main/java/mate/academy/intro/service/ShoppingCartServiceImpl.java:32-36 | a cart added for a user without one keeps one cart per user and is found as that user's cart |
| ShoppingCartService.GetCartByUser | src/main/java/mate/academy/intro/service/ShoppingCartServiceImpl.java:39-44 | succeeds iff the user owns a cart; returns that cart with exactly its lines; otherwise EntityNotFound for the user id |
| ShoppingCartService.AddItemToCart | src/main/java/mate/academy/intro/service/ShoppingCartServiceImpl.java:47-59 | missing cart, then missing book, fail with nothing saved. Otherwise exactly one new line with the cart, book and quantity is inserted under the next id; existing lines are untouched |
| ShoppingCartService.AddNeverMerges | src/main/java/mate/academy/intro/service/ShoppingCartServiceImpl.java:53-57 | the cart's lines for a book grow by exactly the new line, even when the book is already there |
| ShoppingCartService.AddingTwiceGivesTwoLines | src/main/java/mate/academy/intro/service/ShoppingCartServiceImpl.java:53-57 | adding the same book twice leaves two lines for it |
| ShoppingCartService.UpdateItemQuantity | src/main/java/mate/academy/intro/service/ShoppingCartServiceImpl.java:62-74 | as written: succeeds iff the user has a cart and the line whose id is the cart's id belongs to a cart whose id is the item id. That line's quantity is set, nothing else changes, and the result is null; otherwise EntityNotFound with no change |
| ShoppingCartService.SwappedLookupFindsCartIdLine | src/main/java/mate/academy/intro/service/ShoppingCartServiceImpl.java:67-68 | the lookup as called finds exactly the line keyed by the cart id, and only if it lies in a cart keyed by the item id |
| ShoppingCartService.SwappedLookupMissesItem | src/main/java/mate/academy/intro/service/ShoppingCartServiceImpl.java:67-68 | line 77 of cart 100 is not found by the call as written, and is found with the arguments in the other order |
| ShoppingCartService.UpdateItemQuantityFixed | src/main/java/mate/academy/intro/service/ShoppingCartServiceImpl.java:62-74 | as intended: succeeds iff the item is a line of the user's cart; that line's quantity is set, nothing else changes, and the updated cart is returned |
| ShoppingCartService.QuantityUpdateIsLocal | src/main/java/mate/academy/intro/service/ShoppingCartServiceImpl.java:71-72 | a quantity update changes only that line's quantity: same line set, other lines and other carts unchanged |
| ShoppingCartService.RemoveItem | src/main/java/mate/academy/intro/service/ShoppingCartServiceImpl.java:77-86 | succeeds iff the item is a line of the user's cart and deletes exactly that line; otherwise EntityNotFound (cart first) with nothing deleted |
| ShoppingCartService.RemovalIsLocal | src/main/java/mate/academy/intro/service/ShoppingCartServiceImpl.java:85 | the deletion takes exactly that line out of its cart and leaves every other cart's lines as they were |
| BookMapper.SortedIds | src/main/java/mate/academy/intro/mapper/BookMapper.java:40-43 | the ids in strictly ascending order, with exactly the set's members, each once (same multiset) |
| BookMapper.SortedIdsLength | src/main/java/mate/academy/intro/mapper/BookMapper.java:40-43 | one list entry per category |
| BookMapper.AscendingListingIsUnique | src/main/java/mate/academy/intro/mapper/BookMapper.java:40-43 | two ascending listings of the same ids are equal, so the result does not depend on the set's iteration order |
| BookMapper.CategoriesToIds | src/main/java/mate/academy/intro/mapper/BookMapper.java:35-44 | null iff the input is null; otherwise ascending, same length, same multiset of ids |
| BookMapper.BookFromId | src/main/java/mate/academy/intro/mapper/BookMapper.java:28-33 | a book with the given id and every other field unset |
| BookMapper.DtoListsCategories | src/main/java/mate/academy/intro/mapper/BookMapper.java:19-20 | a book's DTO keeps its id and lists exactly its categories, ascending, as `categoriesToIds` gives them |
| BookService.ResolveCategories | src/main/java/mate/academy/intro/service/BookServiceImpl.java:34-39 | succeeds iff every requested id is a stored category; the result is exactly the requested ids. Otherwise EntityNotFound for the first unknown id in request order |
| BookService.Save | src/main/java/mate/academy/intro/service/BookServiceImpl.java:31-46 | an unresolved category fails before anything is saved. Otherwise a new book with the request's fields and exactly the resolved categories is saved under the next id, and reading it back returns the result |
| BookService.GetBookById | src/main/java/mate/academy/intro/service/BookServiceImpl.java:55-60 | succeeds exactly for a stored book and returns its DTO listing its categories; otherwise EntityNotFound |
| BookService.DeleteById | src/main/java/mate/academy/intro/service/BookServiceImpl.java:62-69 | removes exactly that book if it exists; otherwise EntityNotFound with nothing deleted |
| BookService.UpdateBook | src/main/java/mate/academy/intro/service/BookServiceImpl.java:71-89 | unknown book, then unresolved category, fail with no change. Otherwise the book gets the request's fields, keeps its id, and has its categories replaced by exactly the resolved ones |
| BookService.FindBooksByCategoryId | src/main/java/mate/academy/intro/service/BookServiceImpl.java:100-105 | exactly one DTO per stored book in the category, none when there are none |
| BookService.SavedBookIsListedUnderItsCategories | src/main/java/mate/academy/intro/service/BookServiceImpl.java:100-105 | a saved book is listed under a category iff it has that category |
| CategoryService.GetById | src/main/java/mate/academy/intro/service/CategoryServiceImpl.java:27-32 | succeeds exactly for a stored category and returns its name and description; otherwise EntityNotFound |
| CategoryService.Save | src/main/java/mate/academy/intro/service/CategoryServiceImpl.java:34-38 | stores the mapped category under the next id and returns the request, which `getById` then returns |
| CategoryService.Update | src/main/java/mate/academy/intro/service/CategoryServiceImpl.java:40-46 | an unknown id fails with no change. Otherwise only that category takes the request's name and description, keeping its id, and `getById` returns the result |
| CategoryService.DeleteById | src/main/java/mate/academy/intro/service/CategoryServiceImpl.java:48-55 | removes exactly that category if it exists; otherwise EntityNotFound with nothing deleted |
| CategoryService.UpdateThenDelete | src/main/java/mate/academy/intro/service/CategoryServiceImpl.java:40-55 | an update leaves every other category's lookup unchanged, and deleting the updated id makes it unknown |
| UserService.Register | src/main/java/mate/academy/intro/service/UserServiceImpl.java:27-40 | a taken email fails with EmailTaken and no change. Otherwise a user with the encoded password and exactly the USER role is saved, then one cart owned by that user is created and is that user's cart. Emails stay unique; the response copies the user |
| UserService.NewEmailKeepsEmailsUnique | src/main/java/mate/academy/intro/service/UserServiceImpl.java:30-37 | saving a user whose email is not taken keeps emails unique |
| UserService.NewUserHasNoCart | src/main/java/mate/academy/intro/service/UserServiceImpl.java:37-38 | a user id not yet stored owns no cart, so the cart creation after the save is allowed |
| BookSpecificationProviderManager.GetSpecificationProvider | src/main/java/mate/academy/intro/repository/BookSpecificationProviderManager.java:13-21 | succeeds iff some provider has the key; returns a provider with that key, the first in list order; otherwise fails with that key |
| BookSpecificationProviderManager.FirstProviderWins | src/main/java/mate/academy/intro/repository/BookSpecificationProviderManager.java:15-17 | with a provider at position i first with the key, the lookup returns exactly that one |
| BookSpecificationBuilder.Requested | src/main/java/mate/academy/intro/repository/BookSpecificationBuilder.java:17-31 | a key is requested iff its parameter is non-null and non-empty, with that parameter array |
| BookSpecificationBuilder.RequestedInKeyOrder | src/main/java/mate/academy/intro/repository/BookSpecificationBuilder.java:17-31 | the requests come in the order author, title, isbn, so each key at most once |
| BookSpecificationBuilder.Conjoin | src/main/java/mate/academy/intro/repository/BookSpecificationBuilder.java:16-32 | succeeds iff every requested key has a provider; then one conjunct per request, in order, from the provider the lookup returns. Otherwise fails with the first key without one |
| BookSpecificationBuilder.StepConjoins | src/main/java/mate/academy/intro/repository/BookSpecificationBuilder.java:17-31 | one guarded step after the conjunction of some requests is the conjunction with that parameter's request appended; a failure so far stays the result |
| BookSpecificationBuilder.StepsConjoinRequested | src/main/java/mate/academy/intro/repository/BookSpecificationBuilder.java:14-33 | the three guarded steps from `where(null)` give `Conjoin` of the requested conjuncts |
| BookSpecificationBuilder.Build | src/main/java/mate/academy/intro/repository/BookSpecificationBuilder.java:14-33 | the three guarded steps give exactly `Conjoin` of the requested conjuncts |
| BookSpecificationBuilder.NothingActiveMatchesAll | src/main/java/mate/academy/intro/repository/BookSpecificationBuilder.java:16-32 | with all three parameters null or empty, the result is the unrestricted specification |
| BookSpecificationBuilder.BuiltConjuncts | src/main/java/mate/academy/intro/repository/BookSpecificationBuilder.java:17-31 | a successful build holds one conjunct per active parameter, in the order author, title, isbn. Each is made by the first provider for its key, from that parameter's array |
| BookSpecificationBuilder.BuildFailsOnMissingProvider | src/main/java/mate/academy/intro/repository/BookSpecificationBuilder.java:17-31 | the build fails iff an active parameter's key has no provider, and then with the first such key |
| FieldMatchValidator.IsValid | src/main/java/mate/academy/intro/annotation/FieldMatchValidator.java:15-22 | a null request is valid; a present request (whose password is present) is valid iff the repeated password equals the password |
| FieldMatchValidator.VerdictIgnoresOtherFields | src/main/java/mate/academy/intro/annotation/FieldMatchValidator.java:21 | requests with the same two password fields get the same verdict, whatever their email, names or address |

## Left out

- `findAll` of books, categories and orders, and `BookServiceImpl.search`: listing all records and running a specification against the repository need the JPA predicate semantics, which the model does not have. The specification those queries run is modelled (`BookSpecificationBuilder.Build`).
- Pagination: `Pageable`/`Page` are dropped. `OrderService.GetOrderHistory` returns the whole owner-filtered set, with no page or order.
- `OrderService.GetOrderHistory`, `OrderService.GetOrderItems`: results are maps or sets, so the list order of the DTOs is not modelled.
- `BookService.FindBooksByCategoryId`: the result is keyed by book id, so repository order is not modelled.
- Controllers, authentication, JWT and role-based authorization are framework plumbing outside the service layer.
- The MapStruct-generated mappers (order, order item, cart, cart item, user, category and the abstract book mappings) are not visible, so they are modelled as plain field copies. `BookMapperImpl` is not part of this model: it is a second implementation whose `toModel` does not compile.
- `@Transactional` and concurrency: each operation is one sequential step. Failures check before they write, which gives the observable rollback behaviour.
- The bean-validation annotations on the DTOs (quantity minimums, ISBN length, non-blank fields) are enforced by the framework. The only one used is the password's presence in `UserService.Register`, which the encoder call needs.
- `UserService.Register`: the role is the value `RoleUser`, not a row loaded from the role repository. The encoder is an arbitrary function parameter.
- `ShoppingCartService.CreateShoppingCartForUser` requires that the user has no cart yet. The only caller passes a freshly saved user, which has none (`UserService.NewUserHasNoCart`). What a second save for the same user would do depends on the entity mapping, which is not in the tree.
- `ShoppingCartService.AddItemToCart`: the returned DTO is the cart with its stored lines. The source maps the in-memory cart entity, whose collection may not yet hold the new line.
- The entity classes and the ORM's cascades are not part of this model. Clearing the cart's collection in `placeOrder` is modelled as deleting its lines (orphan removal), and saving an order as saving its lines with it. `OrderService.CreateOrderItems` collects the new lines into a `HashSet<OrderItem>` and keeps each as its own element: this assumes `OrderItem` uses identity equality. A value-based `equals`/`hashCode` (with the id still null) would merge two lines of the same book and quantity, which `ShoppingCartService.AddNeverMerges` shows a cart can hold.
- Deleting a book or category does not model foreign keys or soft deletes: the record is removed from its map and nothing else changes.
- The `Status` enum is not in the source tree; its four values NEW, PENDING, DELIVERED and CANCELLED are assumed.
- `OrderService.CreateOrderItems`, `OrderService.PlaceOrder`: a cart line whose book is no longer stored fails with EntityNotFound for that book. This error is the model's own choice, not in the source. `OrderServiceImpl.java:92` reads `cartItem.getBook().getPrice()` with no check. What happens then depends on the entity mapping and the persistence layer, which are not visible: a dangling reference may fail some other way, a null book gives a NullPointerException, and a soft-deleted book may even let the order succeed.
- `BookMapper.BookFromId`: the fields `bookFromId` leaves null are given the empty value of their type (`""`, `0`, `{}`), so the model cannot tell an unset field from one set to empty.
- Integer widths: ids, quantities and prices are unbounded integers. `Long` overflow and `BigDecimal` scale are not modelled.

## Findings

| source | as written | input that shows it | evidently intended | confidence | as-written member | corrected member |
|---|---|---|---|---|---|---|
| src/main/java/mate/academy/intro/service/ShoppingCartServiceImpl.java:67-68 | `findByIdAndShoppingCartId(shoppingCart.getId(), cartItemId)` passes the cart id as the item id and the item id as the cart id, so it can rewrite the quantity of the line whose id equals the cart's id, even when that line is another user's (`ShoppingCartService.SwappedLookupFindsCartIdLine`); the method then returns null | cart 100 of user 1 holds line 77; updating line 77 fails with "not found", while `removeItem` finds it (the unit test for this operation expects the arguments in the other order and a non-null DTO) | look the line up by (item id, cart id), as `removeItem` does, and return the updated cart | high, not executed | ShoppingCartService.UpdateItemQuantity, ShoppingCartService.SwappedLookupMissesItem, ShoppingCartService.SwappedLookupFindsCartIdLine | ShoppingCartService.UpdateItemQuantityFixed |
| src/main/java/mate/academy/intro/service/OrderServiceImpl.java:61-64 | `total` is `BigDecimal.ZERO` and is stored without being accumulated | a cart with book X at 20.00 × 2 and book Y at 5.50 × 1 gives an order with total 0 instead of 45.50 | total = sum of the line prices (price × quantity), which equals the cart's value | high, not executed | OrderService.PlaceOrder, OrderService.ZeroTotalCounterexample | OrderService.PlaceOrderWithTotal |
| src/main/java/mate/academy/intro/service/OrderServiceImpl.java:106-112 | `getOrderItems(orderId, userId)` never uses `userId` | user 2 asks for the lines of order 5, owned by user 1, and receives them | refuse an order the user does not own, as `getOrderItemById` does | medium, not executed | OrderService.GetOrderItems, OrderService.OthersOrderItemsVisible | OrderService.GetOwnedOrderItems |
