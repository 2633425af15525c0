/** The request DTOs the services read; their bean-validation annotations are not enforced here. */
module Dto {
  import opened Types

  /** `OrderRequestDto`: placeOrder reads only the shipping address. */
  datatype OrderItemRequest = OrderItemRequest(bookId: Id, quantity: int)
  datatype OrderRequest = OrderRequest(shippingAddress: string, items: seq<OrderItemRequest>)

  /** `UpdateOrderStatusRequestDto`. */
  datatype UpdateOrderStatusRequest = UpdateOrderStatusRequest(status: Status)

  /** `CartItemRequestDto` and `UpdateCartItemDto`. */
  datatype CartItemRequest = CartItemRequest(bookId: Id, quantity: int)
  datatype UpdateCartItemRequest = UpdateCartItemRequest(shoppingCartId: Id, bookId: Id, quantity: int)

  /** `CreateBookRequestDto`; the price is in minor units. */
  datatype CreateBookRequest = CreateBookRequest(title: string, author: string, isbn: string,
                                                 price: int, description: string,
                                                 coverImage: string, categoriesId: seq<Id>)

  /** `CreateCategoryRequestDto`. */
  datatype CategoryRequest = CategoryRequest(name: string, description: string)

  /** `UserRegistrationRequestDto`; the two password fields may be null. */
  datatype UserRegistrationRequest = UserRegistrationRequest(
    email: string, password: Option<string>, repeatPassword: Option<string>,
    firstName: string, lastName: string, shippingAddress: string)

  /** `BookSearchParametersDto`: three nullable string arrays. */
  datatype BookSearchParameters = BookSearchParameters(author: Option<seq<string>>,
                                                       title: Option<seq<string>>,
                                                       isbn: Option<seq<string>>)
}
