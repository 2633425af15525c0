/**
 * `BookMapper`: the entity/DTO conversions of books. The hand-written default methods
 * `categoriesToIds` and `bookFromId` are modelled as written, except that a field `bookFromId`
 * leaves null carries its type's empty value; the generated mappings are plain field copies. A book refers to its categories by id, so a set of categories is given by their ids.
 */
module BookMapper {
  import opened Types
  import opened Dto

  /** `BookDto`: the book's fields with `categoryIds` listing its categories. */
  datatype BookDto = BookDto(id: Id, title: string, author: string, isbn: string, price: int,
                             description: string, coverImage: string, categoryIds: seq<Id>)

  predicate StrictlyIncreasing(s: seq<Id>)
  {
    forall i, j :: 0 <= i < j < |s| ==> s[i] < s[j]
  }

  /** A finite non-empty set of ids has a least element. */
  lemma {:induction false} HasLeast(s: set<Id>)
    requires s != {}
    ensures exists m :: m in s && forall x :: x in s ==> m <= x
    decreases s
  {
    NonEmptyHasElement(s);
    var x :| x in s;
    if s == {x} {
      assert forall y :: y in s ==> x <= y;
    } else {
      HasLeast(s - {x});
      var m :| m in s - {x} && forall y :: y in s - {x} ==> m <= y;
      if x < m {
        forall y | y in s
          ensures x <= y
        {
          if y != x {
            assert y in s - {x};
          }
        }
      } else {
        forall y | y in s
          ensures m <= y
        {
          if y != x {
            assert y in s - {x};
          }
        }
      }
    }
  }

  /** The ids of a set in ascending order (the stream's `sorted()`), each exactly once. */
  function SortedIds(s: set<Id>): (r: seq<Id>)
    ensures StrictlyIncreasing(r)
    ensures forall x :: x in r <==> x in s
    ensures multiset(r) == multiset(s)
    decreases s
  {
    if s == {} then []
    else
      HasLeast(s);
      var m :| m in s && forall x :: x in s ==> m <= x;
      var rest := SortedIds(s - {m});
      LeastThenRest(s, m, rest);
      [m] + rest
  }

  /** Putting the least element before an ascending listing of the others lists the whole set. */
  lemma LeastThenRest(s: set<Id>, m: Id, rest: seq<Id>)
    requires m in s && forall x :: x in s ==> m <= x
    requires StrictlyIncreasing(rest)
    requires forall x :: x in rest <==> x in s - {m}
    requires multiset(rest) == multiset(s - {m})
    ensures StrictlyIncreasing([m] + rest)
    ensures forall x :: x in [m] + rest <==> x in s
    ensures multiset([m] + rest) == multiset(s)
  {
    assert s == {m} + (s - {m});
    assert multiset(s) == multiset{m} + multiset(s - {m});
    forall i, j | 0 <= i < j < |[m] + rest|
      ensures ([m] + rest)[i] < ([m] + rest)[j]
    {
      if i == 0 {
        assert ([m] + rest)[j] == rest[j - 1];
        assert rest[j - 1] in rest;
      }
    }
  }

  /** The listing has one entry per id. */
  lemma SortedIdsLength(s: set<Id>)
    ensures |SortedIds(s)| == |s|
  {
    assert |multiset(SortedIds(s))| == |multiset(s)|;
  }

  /** The head of an ascending listing is its least element. */
  lemma HeadIsLeast(a: seq<Id>)
    requires StrictlyIncreasing(a) && a != []
    ensures forall x :: x in a ==> a[0] <= x
  {
    forall x | x in a
      ensures a[0] <= x
    {
      var i :| 0 <= i < |a| && a[i] == x;
      if i > 0 {
        assert a[0] < a[i];
      }
    }
  }

  /** The tail of an ascending listing is ascending and lists every member but the head. */
  lemma TailListsTheRest(a: seq<Id>)
    requires StrictlyIncreasing(a) && a != []
    ensures StrictlyIncreasing(a[1..])
    ensures forall x :: x in a[1..] <==> x in a && x != a[0]
  {
    forall x | x in a[1..]
      ensures x in a && x != a[0]
    {
      var i :| 0 <= i < |a[1..]| && a[1..][i] == x;
      assert a[i + 1] == x && a[0] < a[i + 1];
    }
    forall x | x in a && x != a[0]
      ensures x in a[1..]
    {
      var i :| 0 <= i < |a| && a[i] == x;
      assert a[1..][i - 1] == x;
    }
  }

  /** Two ascending listings of the same ids are the same sequence: the result of `sorted()`
      does not depend on the order in which the set was iterated. */
  lemma {:induction false} AscendingListingIsUnique(a: seq<Id>, b: seq<Id>)
    requires StrictlyIncreasing(a) && StrictlyIncreasing(b)
    requires forall x :: x in a <==> x in b
    ensures a == b
    decreases |a|
  {
    if a != [] {
      assert a[0] in a;
    }
    if b != [] {
      assert b[0] in b;
    }
    if a != [] && b != [] {
      HeadIsLeast(a);
      HeadIsLeast(b);
      assert a[0] == b[0];
      TailListsTheRest(a);
      TailListsTheRest(b);
      AscendingListingIsUnique(a[1..], b[1..]);
      assert a == [a[0]] + a[1..] && b == [b[0]] + b[1..];
    }
  }

  /** `categoriesToIds`: null for null, otherwise the categories' ids in ascending order. */
  function CategoriesToIds(categories: Option<set<Id>>): (r: Option<seq<Id>>)
    ensures r.None? <==> categories.None?
    ensures r.Some? ==> && StrictlyIncreasing(r.value)
                        && |r.value| == |categories.value|
                        && multiset(r.value) == multiset(categories.value)
  {
    match categories
    case None => None
    case Some(s) =>
      SortedIdsLength(s);
      Some(SortedIds(s))
  }

  /** `bookFromId`: a book with the given id and every other field unset (null fields are the
      empty value of their type here). */
  function BookFromId(id: Id): (b: Book)
    ensures b.id == id
    ensures b.title == b.author == b.isbn == b.description == b.coverImage == ""
    ensures b.price == 0 && b.categories == {}
  {
    Book(id, "", "", "", 0, "", "", {})
  }

  /** `bookToBookDto`: the fields copied, the category ids listed by `categoriesToIds`. */
  function ToBookDto(book: Book): BookDto
  {
    BookDto(book.id, book.title, book.author, book.isbn, book.price, book.description,
            book.coverImage, SortedIds(book.categories))
  }

  /** `toModel`: the request's fields copied into a new book (its id and categories are set by
      the caller). */
  function ToModel(id: Id, request: CreateBookRequest, categories: set<Id>): Book
  {
    Book(id, request.title, request.author, request.isbn, request.price, request.description,
         request.coverImage, categories)
  }

  /** `updateBook`: the request's fields copied onto an existing book, keeping its id and its
      categories. */
  function UpdateBook(book: Book, request: CreateBookRequest): Book
  {
    book.(title := request.title, author := request.author, isbn := request.isbn,
          price := request.price, description := request.description,
          coverImage := request.coverImage)
  }

  /** A book's DTO lists exactly its categories, ascending, and copies its other fields. */
  lemma DtoListsCategories(book: Book)
    ensures ToBookDto(book).id == book.id
    ensures StrictlyIncreasing(ToBookDto(book).categoryIds)
    ensures forall c :: c in ToBookDto(book).categoryIds <==> c in book.categories
    ensures Some(ToBookDto(book).categoryIds) == CategoriesToIds(Some(book.categories))
  {
  }
}
