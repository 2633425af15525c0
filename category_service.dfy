/**
 * `CategoryServiceImpl`: reading, saving, updating and deleting catalog categories. The DTO the
 * service returns is the category's name and description.
 */
module CategoryService {
  import opened Types
  import opened Dto
  import opened Repositories

  /** `toCategoryDto`: the category's name and description. */
  function ToCategoryDto(category: Category): CategoryRequest
  {
    CategoryRequest(category.name, category.description)
  }

  /** `toEntity`: a category with the request's fields and the id the store assigns. */
  function ToEntity(id: Id, request: CategoryRequest): Category
  {
    Category(id, request.name, request.description)
  }

  /** `getById`: the stored category's DTO, or EntityNotFound for that id. */
  function GetById(categories: map<Id, Category>, id: Id): (r: Result<CategoryRequest>)
    ensures r.Ok? <==> id in categories
    ensures r.Ok? ==> r.value.name == categories[id].name && r.value.description == categories[id].description
    ensures r.Err? ==> r.error == EntityNotFound(CategoryEntity, id)
  {
    if id in categories then Ok(ToCategoryDto(categories[id]))
    else Err(EntityNotFound(CategoryEntity, id))
  }

  /** `save`: a new category with the next id; the returned DTO is the request itself. */
  method Save(store: Store, request: CategoryRequest) returns (r: CategoryRequest)
    requires store.Valid()
    modifies store
    ensures store.Valid()
    ensures old(store.nextId) !in old(store.categories)
    ensures store.categories == old(store.categories)[old(store.nextId) := ToEntity(old(store.nextId), request)]
    ensures store.nextId == old(store.nextId) + 1
    ensures r == request
    ensures GetById(store.categories, old(store.nextId)) == Ok(request)
    ensures unchanged(store`users, store`carts, store`cartItems, store`books, store`orders,
                      store`orderItems)
  {
    var category := ToEntity(store.nextId, request);
    store.categories := store.categories[category.id := category];
    store.nextId := store.nextId + 1;
    r := ToCategoryDto(category);
  }

  /** `update`: the stored category takes the request's name and description and keeps its id;
      an unknown id fails and changes nothing. */
  method Update(store: Store, id: Id, request: CategoryRequest) returns (r: Result<CategoryRequest>)
    requires store.Valid()
    modifies store
    ensures store.Valid()
    ensures r.Ok? <==> id in old(store.categories)
    ensures r.Err? ==> r.error == EntityNotFound(CategoryEntity, id) && unchanged(store)
    ensures r.Ok? ==> store.categories == old(store.categories)[id := ToEntity(id, request)]
    ensures r.Ok? ==> r.value == request && GetById(store.categories, id) == r
    ensures unchanged(store`users, store`carts, store`cartItems, store`books, store`orders,
                      store`orderItems, store`nextId)
  {
    if id !in store.categories {
      return Err(EntityNotFound(CategoryEntity, id));
    }
    var category := store.categories[id];
    category := category.(name := request.name, description := request.description);
    store.categories := store.categories[id := category];
    r := Ok(ToCategoryDto(category));
  }

  /** `deleteById`: removes a stored category; an unknown id fails and deletes nothing. */
  method DeleteById(store: Store, id: Id) returns (r: Result<()>)
    requires store.Valid()
    modifies store
    ensures store.Valid()
    ensures r.Ok? <==> id in old(store.categories)
    ensures r.Ok? ==> store.categories == old(store.categories) - {id}
    ensures r.Err? ==> r.error == EntityNotFound(CategoryEntity, id) && unchanged(store)
    ensures unchanged(store`users, store`carts, store`cartItems, store`books, store`orders,
                      store`orderItems, store`nextId)
  {
    if id in store.categories {
      store.categories := store.categories - {id};
      r := Ok(());
    } else {
      r := Err(EntityNotFound(CategoryEntity, id));
    }
  }

  /** An update leaves every other category as it was, and then deleting the updated id makes it
      unknown to getById. */
  lemma UpdateThenDelete(categories: map<Id, Category>, id: Id, request: CategoryRequest, other: Id)
    requires id in categories && other != id
    ensures GetById(categories[id := ToEntity(id, request)], other) == GetById(categories, other)
    ensures GetById(categories[id := ToEntity(id, request)] - {id}, id) == Err(EntityNotFound(CategoryEntity, id))
  {
  }
}
