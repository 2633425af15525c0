/**
 * `UserServiceImpl`: registration. The password encoder is a parameter, any function from raw
 * to encoded passwords.
 */
module UserService {
  import opened Types
  import opened Dto
  import opened Repositories
  import ShoppingCartService

  /** `UserResponseDto`. */
  datatype UserResponse = UserResponse(id: Id, email: string, firstName: string, lastName: string,
                                       shippingAddress: string)

  /** The user repository's `existsByEmail`. */
  predicate ExistsByEmail(users: map<Id, User>, email: string)
  {
    exists k | k in users :: users[k].email == email
  }

  /** No two stored users share an email. */
  ghost predicate UniqueEmails(users: map<Id, User>)
  {
    forall j, k :: j in users && k in users && users[j].email == users[k].email ==> j == k
  }

  /** `register`: a taken email fails and changes nothing; otherwise the user is saved with the
      encoded password and exactly the USER role, and then a cart is created for that user. The
      request's password is present (the DTO's `@NotBlank`). */
  method Register(store: Store, request: UserRegistrationRequest, encode: string -> string)
    returns (r: Result<UserResponse>)
    requires store.Valid()
    requires request.password.Some?
    modifies store
    ensures store.Valid()
    ensures r.Ok? <==> !ExistsByEmail(old(store.users), request.email)
    ensures r.Err? ==> r.error == EmailTaken(request.email) && unchanged(store)
    ensures r.Ok? ==> old(store.nextId) !in old(store.users)
    ensures r.Ok? ==> store.users == old(store.users)[old(store.nextId) :=
                        User(old(store.nextId), request.email, encode(request.password.value),
                             request.firstName, request.lastName, request.shippingAddress, {RoleUser})]
    ensures r.Ok? ==> var userId := old(store.nextId);
                      && store.carts == old(store.carts)[userId + 1 := ShoppingCart(userId + 1, userId)]
                      && HasCart(store.carts, userId) && CartIdOf(store.carts, userId) == userId + 1
    ensures r.Ok? ==> store.nextId == old(store.nextId) + 2
    ensures r.Ok? ==> r.value == UserResponse(old(store.nextId), request.email, request.firstName,
                                              request.lastName, request.shippingAddress)
    ensures UniqueEmails(old(store.users)) ==> UniqueEmails(store.users)
    ensures unchanged(store`cartItems, store`books, store`categories, store`orders, store`orderItems)
  {
    if ExistsByEmail(store.users, request.email) {
      return Err(EmailTaken(request.email));
    }
    var user := User(store.nextId, request.email, encode(request.password.value), request.firstName,
                     request.lastName, request.shippingAddress, {RoleUser});
    NewEmailKeepsEmailsUnique(store.users, user);
    NewUserHasNoCart(store.carts, store.users, user.id);
    store.users := store.users[user.id := user];
    store.nextId := store.nextId + 1;
    var _ := ShoppingCartService.CreateShoppingCartForUser(store, user);
    r := Ok(UserResponse(user.id, user.email, user.firstName, user.lastName, user.shippingAddress));
  }

  /** Saving a user whose email is not taken keeps emails unique. */
  lemma NewEmailKeepsEmailsUnique(users: map<Id, User>, user: User)
    requires user.id !in users
    requires !ExistsByEmail(users, user.email)
    ensures UniqueEmails(users) ==> UniqueEmails(users[user.id := user])
  {
    forall k | k in users
      ensures users[k].email != user.email
    {
    }
  }

  /** Every cart belongs to a stored user, so an id no user has yet owns no cart. */
  lemma NewUserHasNoCart(carts: map<Id, ShoppingCart>, users: map<Id, User>, userId: Id)
    requires forall k :: k in carts ==> carts[k].userId in users
    requires userId !in users
    ensures !HasCart(carts, userId)
  {
    forall c | c in carts
      ensures carts[c].userId != userId
    {
    }
  }
}
