/**
 * `BookServiceImpl`: saving, reading, deleting and updating catalog books, and listing the books
 * of a category. Saving and updating resolve every requested category id first.
 */
module BookService {
  import opened Types
  import opened Dto
  import opened Repositories
  import opened BookMapper

  /** Whether every requested category id is a stored category. */
  predicate AllResolve(categories: map<Id, Category>, ids: seq<Id>)
  {
    forall i :: 0 <= i < |ids| ==> ids[i] in categories
  }

  /** Whether `ids[i]` is the first requested id that is not a stored category. */
  predicate FirstUnresolved(categories: map<Id, Category>, ids: seq<Id>, i: int)
  {
    && 0 <= i < |ids| && ids[i] !in categories
    && forall j :: 0 <= j < i ==> ids[j] in categories
  }

  /** The category resolution of `save` and `updateBook`: the ids are looked up in request order
      and the first one that is not stored fails with EntityNotFound; otherwise the book's category
      set is exactly the requested ids, duplicates collapsed. */
  function ResolveCategories(categories: map<Id, Category>, ids: seq<Id>): (r: Result<set<Id>>)
    ensures r.Ok? <==> AllResolve(categories, ids)
    ensures r.Ok? ==> r.value == set i | i in ids
    ensures r.Err? ==> exists i :: FirstUnresolved(categories, ids, i) && r.error == EntityNotFound(CategoryEntity, ids[i])
  {
    if ids == [] then Ok({})
    else if ids[0] !in categories then
      assert FirstUnresolved(categories, ids, 0);
      Err(EntityNotFound(CategoryEntity, ids[0]))
    else
      var rest := ResolveCategories(categories, ids[1..]);
      FirstUnresolvedShifts(categories, ids, rest);
      if rest.Err? then Err(rest.error) else Ok({ids[0]} + rest.value)
  }

  /** Step of the resolution proof: past a first id that resolves, the ids resolve exactly when
      the rest do, the resolved set gains the first id, and the first failure is the rest's
      first failure shifted by one. */
  lemma FirstUnresolvedShifts(categories: map<Id, Category>, ids: seq<Id>, rest: Result<set<Id>>)
    requires ids != [] && ids[0] in categories
    requires rest.Ok? <==> AllResolve(categories, ids[1..])
    requires rest.Ok? ==> rest.value == set i | i in ids[1..]
    requires rest.Err? ==> exists i :: FirstUnresolved(categories, ids[1..], i)
                                     && rest.error == EntityNotFound(CategoryEntity, ids[1..][i])
    ensures rest.Ok? <==> AllResolve(categories, ids)
    ensures rest.Ok? ==> {ids[0]} + rest.value == set i | i in ids
    ensures rest.Err? ==> exists i :: FirstUnresolved(categories, ids, i)
                                    && rest.error == EntityNotFound(CategoryEntity, ids[i])
  {
    assert ids == [ids[0]] + ids[1..];
    if AllResolve(categories, ids[1..]) {
      forall i | 0 <= i < |ids|
        ensures ids[i] in categories
      {
        if i > 0 {
          assert ids[1..][i - 1] == ids[i];
        }
      }
    } else {
      var i :| 0 <= i < |ids[1..]| && ids[1..][i] !in categories;
      assert ids[i + 1] !in categories;
    }
    if rest.Err? {
      var i :| FirstUnresolved(categories, ids[1..], i) && rest.error == EntityNotFound(CategoryEntity, ids[1..][i]);
      forall j | 0 <= j < i + 1
        ensures ids[j] in categories
      {
        if j > 0 {
          assert ids[j] == ids[1..][j - 1];
        }
      }
      assert FirstUnresolved(categories, ids, i + 1);
    }
  }

  /** `save`: the request's fields, the resolved categories and the next id make a new book; a
      category that does not resolve fails before anything is saved. The book is then read back,
      which always finds it. */
  method Save(store: Store, request: CreateBookRequest) returns (r: Result<BookDto>)
    requires store.Valid()
    modifies store
    ensures store.Valid()
    ensures r.Ok? <==> AllResolve(old(store.categories), request.categoriesId)
    ensures r.Err? ==> unchanged(store)
    ensures r.Err? ==> r == ResolveCategories(old(store.categories), request.categoriesId).PropagateFailure()
    ensures r.Ok? ==> old(store.nextId) !in old(store.books)
    ensures r.Ok? ==> store.books == old(store.books)[old(store.nextId) :=
                        ToModel(old(store.nextId), request, set i | i in request.categoriesId)]
    ensures r.Ok? ==> store.nextId == old(store.nextId) + 1
    ensures r.Ok? ==> GetBookById(store.books, old(store.nextId)) == r
    ensures unchanged(store`users, store`carts, store`cartItems, store`categories, store`orders,
                      store`orderItems)
  {
    var resolved := ResolveCategories(store.categories, request.categoriesId);
    if resolved.Err? {
      return resolved.PropagateFailure();
    }
    var book := ToModel(store.nextId, request, resolved.value);
    store.books := store.books[book.id := book];
    store.nextId := store.nextId + 1;
    var savedBook := store.books[book.id];
    r := Ok(ToBookDto(savedBook));
  }

  /** `getBookById`: the stored book's DTO, or EntityNotFound for that id. */
  function GetBookById(books: map<Id, Book>, id: Id): (r: Result<BookDto>)
    ensures r.Ok? <==> id in books
    ensures r.Ok? ==> r.value == ToBookDto(books[id]) && r.value.id == books[id].id
    ensures r.Ok? ==> forall c :: c in r.value.categoryIds <==> c in books[id].categories
    ensures r.Err? ==> r.error == EntityNotFound(BookEntity, id)
  {
    if id in books then Ok(ToBookDto(books[id])) else Err(EntityNotFound(BookEntity, id))
  }

  /** `deleteById`: removes a stored book; an unknown id fails and deletes nothing. */
  method DeleteById(store: Store, id: Id) returns (r: Result<()>)
    requires store.Valid()
    modifies store
    ensures store.Valid()
    ensures r.Ok? <==> id in old(store.books)
    ensures r.Ok? ==> store.books == old(store.books) - {id}
    ensures r.Err? ==> r.error == EntityNotFound(BookEntity, id) && unchanged(store)
    ensures unchanged(store`users, store`carts, store`cartItems, store`categories, store`orders,
                      store`orderItems, store`nextId)
  {
    if id in store.books {
      store.books := store.books - {id};
      r := Ok(());
    } else {
      r := Err(EntityNotFound(BookEntity, id));
    }
  }

  /** `updateBook`: the stored book with the request's fields copied onto it and its categories
      replaced by the resolved ones. An unknown book fails first, then an unknown category; either
      way nothing changes. */
  method UpdateBook(store: Store, id: Id, request: CreateBookRequest) returns (r: Result<BookDto>)
    requires store.Valid()
    modifies store
    ensures store.Valid()
    ensures r.Ok? <==> id in old(store.books) && AllResolve(old(store.categories), request.categoriesId)
    ensures r.Err? ==> unchanged(store)
    ensures r.Err? ==> r.error == if id !in old(store.books) then EntityNotFound(BookEntity, id)
                                  else ResolveCategories(old(store.categories), request.categoriesId).error
    ensures r.Ok? ==> store.books == old(store.books)[id :=
                        BookMapper.UpdateBook(old(store.books)[id], request).(categories := set i | i in request.categoriesId)]
    ensures r.Ok? ==> GetBookById(store.books, id) == r
    ensures unchanged(store`users, store`carts, store`cartItems, store`categories, store`orders,
                      store`orderItems, store`nextId)
  {
    if id !in store.books {
      return Err(EntityNotFound(BookEntity, id));
    }
    var book := BookMapper.UpdateBook(store.books[id], request);
    var resolved := ResolveCategories(store.categories, request.categoriesId);
    if resolved.Err? {
      return resolved.PropagateFailure();
    }
    book := book.(categories := resolved.value);
    store.books := store.books[id := book];
    var updatedBook := store.books[id];
    r := Ok(ToBookDto(updatedBook));
  }

  /** `findBooksByCategoryId`: one DTO per book in the category, keyed by book id; none when the
      category holds no book. */
  function FindBooksByCategoryId(books: map<Id, Book>, categoryId: Id): (r: map<Id, BookDto>)
    ensures forall k :: k in r <==> k in books && categoryId in books[k].categories
    ensures forall k :: k in r ==> r[k] == ToBookDto(books[k])
  {
    var found := BooksInCategory(books, categoryId);
    map k | k in found :: ToBookDto(found[k])
  }

  /** A book saved with some categories is listed under each of them and under no other. */
  lemma SavedBookIsListedUnderItsCategories(books: map<Id, Book>, book: Book, categoryId: Id)
    ensures book.id in FindBooksByCategoryId(books[book.id := book], categoryId)
            <==> categoryId in book.categories
  {
  }
}
