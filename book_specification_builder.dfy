/**
 * `BookSpecificationBuilder`: turns the search parameters into a specification. Starting from
 * the unrestricted specification, each of author, title and isbn that is given and non-empty adds
 * one conjunct, made by the provider registered for that key from that parameter array.
 */
module BookSpecificationBuilder {
  import opened Types
  import opened Dto
  import opened BookSpecificationProviderManager

  /** A parameter array takes part in the search when it is non-null and has at least one entry. */
  predicate Active(param: Option<seq<string>>)
  {
    param.Some? && |param.value| > 0
  }

  /** The three search parameters, in the order `build` tries them. */
  datatype SearchKey = Author | Title | Isbn

  /** The provider key a search parameter is looked up under. */
  function Name(key: SearchKey): string
  {
    match key
    case Author => "author"
    case Title => "title"
    case Isbn => "isbn"
  }

  /** The parameter array that belongs to a search key. */
  function Field(params: BookSearchParameters, key: SearchKey): Option<seq<string>>
  {
    match key
    case Author => params.author
    case Title => params.title
    case Isbn => params.isbn
  }

  /** A search key's position in the order author, title, isbn. */
  function Rank(key: SearchKey): int
  {
    match key
    case Author => 0
    case Title => 1
    case Isbn => 2
  }

  /** One requested conjunct: the search key and its parameters. */
  datatype Request = Request(key: SearchKey, params: seq<string>)

  /** The conjuncts the parameters ask for: a request for a key exactly when its parameter is
      active, carrying that parameter's array. */
  function Requested(params: BookSearchParameters): (r: seq<Request>)
    ensures forall k :: Active(Field(params, k)) <==> exists i :: 0 <= i < |r| && r[i].key == k
    ensures forall i :: 0 <= i < |r| ==> Active(Field(params, r[i].key)) && r[i].params == Field(params, r[i].key).value
  {
    var author, title, isbn := Ask(params, Author), Ask(params, Title), Ask(params, Isbn);
    var r := author + title + isbn;
    assert Active(params.author) ==> r[0].key == Author;
    assert Active(params.title) ==> r[|author|].key == Title;
    assert Active(params.isbn) ==> r[|author| + |title|].key == Isbn;
    r
  }

  /** The requests come in the order author, title, isbn, so each key at most once. */
  lemma RequestedInKeyOrder(params: BookSearchParameters)
    ensures var r := Requested(params);
            forall i, j :: 0 <= i < j < |r| ==> Rank(r[i].key) < Rank(r[j].key)
  {
  }

  /** The request one parameter array makes: none, or its key with the array. */
  function Ask(params: BookSearchParameters, key: SearchKey): seq<Request>
  {
    if Active(Field(params, key)) then [Request(key, Field(params, key).value)] else []
  }

  /** Whether every request's key has a provider. */
  predicate AllProvided(providers: seq<Provider>, requests: seq<Request>)
  {
    forall i :: 0 <= i < |requests| ==> HasProvider(providers, Name(requests[i].key))
  }

  /** Whether request `i` is the first whose key has no provider. */
  predicate FirstMissing(providers: seq<Provider>, requests: seq<Request>, i: int)
  {
    && 0 <= i < |requests| && !HasProvider(providers, Name(requests[i].key))
    && forall j :: 0 <= j < i ==> HasProvider(providers, Name(requests[j].key))
  }

  /** Whether a specification holds, one for one, the conjuncts the requests ask for, each made by
      the provider the lookup returns for its key. */
  predicate Made(providers: seq<Provider>, requests: seq<Request>, spec: Spec)
  {
    && AllProvided(providers, requests)
    && |spec| == |requests|
    && forall i :: 0 <= i < |requests| ==>
         spec[i] == GetSpecification(GetSpecificationProvider(providers, Name(requests[i].key)).value,
                                     requests[i].params)
  }

  /** The conjunction of the requested conjuncts, each from the provider for its key; the first
      key without a provider fails the whole build. */
  function Conjoin(providers: seq<Provider>, requests: seq<Request>): (r: Result<Spec>)
    ensures r.Ok? <==> AllProvided(providers, requests)
    ensures r.Ok? ==> Made(providers, requests, r.value)
    ensures r.Err? ==> exists i :: FirstMissing(providers, requests, i) && r.error == NoProvider(Name(requests[i].key))
  {
    if requests == [] then Ok([])
    else
      var last := requests[|requests| - 1];
      var init := requests[..|requests| - 1];
      var prefix := Conjoin(providers, init);
      var provider := GetSpecificationProvider(providers, Name(last.key));
      assert requests == init + [last];
      if prefix.Err? then
        MissingInPrefix(providers, init, last, prefix.error);
        Err(prefix.error)
      else if provider.Err? then
        MissingLast(providers, init, last);
        Err(provider.error)
      else
        MadeSnoc(providers, init, last, prefix.value);
        Ok(prefix.value + [GetSpecification(provider.value, last.params)])
  }

  /** A request list whose prefix already misses a provider misses it first at the same place. */
  lemma MissingInPrefix(providers: seq<Provider>, init: seq<Request>, last: Request, e: Error)
    requires exists i :: FirstMissing(providers, init, i) && e == NoProvider(Name(init[i].key))
    ensures !AllProvided(providers, init + [last])
    ensures exists i :: FirstMissing(providers, init + [last], i) && e == NoProvider(Name((init + [last])[i].key))
  {
    var i :| FirstMissing(providers, init, i) && e == NoProvider(Name(init[i].key));
    assert (init + [last])[i] == init[i];
    forall j | 0 <= j < i
      ensures HasProvider(providers, Name((init + [last])[j].key))
    {
      assert (init + [last])[j] == init[j];
    }
    assert FirstMissing(providers, init + [last], i);
  }

  /** When every earlier request is provided and the last is not, the last one is first missing. */
  lemma MissingLast(providers: seq<Provider>, init: seq<Request>, last: Request)
    requires AllProvided(providers, init) && !HasProvider(providers, Name(last.key))
    ensures !AllProvided(providers, init + [last])
    ensures FirstMissing(providers, init + [last], |init|)
  {
    assert (init + [last])[|init|] == last;
    forall j | 0 <= j < |init|
      ensures HasProvider(providers, Name((init + [last])[j].key))
    {
      assert (init + [last])[j] == init[j];
    }
  }

  /** Appending the last request's conjunct extends a specification made for the prefix. */
  lemma MadeSnoc(providers: seq<Provider>, init: seq<Request>, last: Request, spec: Spec)
    requires Made(providers, init, spec) && HasProvider(providers, Name(last.key))
    ensures AllProvided(providers, init + [last])
    ensures Made(providers, init + [last],
                 spec + [GetSpecification(GetSpecificationProvider(providers, Name(last.key)).value, last.params)])
  {
    var requests := init + [last];
    var spec' := spec + [GetSpecification(GetSpecificationProvider(providers, Name(last.key)).value, last.params)];
    forall i | 0 <= i < |requests|
      ensures HasProvider(providers, Name(requests[i].key))
      ensures spec'[i] == GetSpecification(GetSpecificationProvider(providers, Name(requests[i].key)).value,
                                           requests[i].params)
    {
      if i < |init| {
        assert requests[i] == init[i] && spec'[i] == spec[i];
      }
    }
  }

  /** One guarded step of `build`: when the parameter is active,
      `specification.and(getSpecificationProvider(key).getSpecification(params))`; a failure so far
      stays the result. */
  function Step(providers: seq<Provider>, before: Result<Spec>, params: BookSearchParameters,
                key: SearchKey): Result<Spec>
  {
    var specification :- before;
    if Active(Field(params, key)) then
      var provider :- GetSpecificationProvider(providers, Name(key));
      Ok(specification + [GetSpecification(provider, Field(params, key).value)])
    else Ok(specification)
  }

  /** A step after the conjunction of some requests is the conjunction with this parameter's
      request appended. */
  lemma StepConjoins(providers: seq<Provider>, asked: seq<Request>, params: BookSearchParameters, key: SearchKey)
    ensures Step(providers, Conjoin(providers, asked), params, key) == Conjoin(providers, asked + Ask(params, key))
  {
    if Active(Field(params, key)) {
      assert (asked + Ask(params, key))[..|asked|] == asked;
    } else {
      assert asked + Ask(params, key) == asked;
    }
  }

  /** The three guarded steps, from the unrestricted specification, build `Conjoin` of the
      requested conjuncts. */
  lemma StepsConjoinRequested(providers: seq<Provider>, params: BookSearchParameters)
    ensures Step(providers, Step(providers, Step(providers, Ok([]), params, Author), params, Title), params, Isbn)
            == Conjoin(providers, Requested(params))
  {
    var author, title, isbn := Ask(params, Author), Ask(params, Title), Ask(params, Isbn);
    assert Conjoin(providers, []) == Ok([]);
    StepConjoins(providers, [], params, Author);
    assert [] + author == author;
    StepConjoins(providers, author, params, Title);
    StepConjoins(providers, author + title, params, Isbn);
  }

  /** `build`: the three guarded steps in the order author, title, isbn, starting from the
      unrestricted specification `where(null)`. */
  method Build(providers: seq<Provider>, params: BookSearchParameters) returns (r: Result<Spec>)
    ensures r == Conjoin(providers, Requested(params))
  {
    StepsConjoinRequested(providers, params);
    var specification: Spec := [];
    if Active(params.author) {
      var provider :- GetSpecificationProvider(providers, "author");
      specification := specification + [GetSpecification(provider, params.author.value)];
    }
    assert Ok(specification) == Step(providers, Ok([]), params, Author);
    if Active(params.title) {
      var provider :- GetSpecificationProvider(providers, "title");
      specification := specification + [GetSpecification(provider, params.title.value)];
    }
    assert Ok(specification) == Step(providers, Step(providers, Ok([]), params, Author), params, Title);
    if Active(params.isbn) {
      var provider :- GetSpecificationProvider(providers, "isbn");
      specification := specification + [GetSpecification(provider, params.isbn.value)];
    }
    r := Ok(specification);
  }

  /** With all three parameters null or empty the result is the unrestricted specification,
      whatever providers are registered. */
  lemma NothingActiveMatchesAll(providers: seq<Provider>, params: BookSearchParameters)
    requires !Active(params.author) && !Active(params.title) && !Active(params.isbn)
    ensures Conjoin(providers, Requested(params)) == Ok([])
  {
    assert Requested(params) == [];
  }

  /** A successful build has one conjunct per active parameter, in the order author, title, isbn,
      each made by the first provider for that parameter's key from that parameter's array. */
  lemma BuiltConjuncts(providers: seq<Provider>, params: BookSearchParameters)
    requires Conjoin(providers, Requested(params)).Ok?
    ensures var spec, asked := Conjoin(providers, Requested(params)).value, Requested(params);
            && |spec| == |asked|
            && forall i :: 0 <= i < |spec| ==>
                 && spec[i].provider.key == Name(asked[i].key)
                 && spec[i].params == Field(params, asked[i].key).value
                 && exists k :: FirstWithKey(providers, Name(asked[i].key), k) && providers[k] == spec[i].provider
    ensures var spec, asked := Conjoin(providers, Requested(params)).value, Requested(params);
            forall i, j :: 0 <= i < j < |spec| ==> Rank(asked[i].key) < Rank(asked[j].key)
  {
    RequestedInKeyOrder(params);
  }

  /** The build fails exactly when some active parameter's key has no provider, and then it fails
      with the first such key in the order author, title, isbn. */
  lemma BuildFailsOnMissingProvider(providers: seq<Provider>, params: BookSearchParameters)
    ensures Conjoin(providers, Requested(params)).Err? <==>
            exists k :: Active(Field(params, k)) && !HasProvider(providers, Name(k))
    ensures var r := Conjoin(providers, Requested(params));
            r.Err? ==> exists k :: && Active(Field(params, k)) && !HasProvider(providers, Name(k))
                                   && r.error == NoProvider(Name(k))
                                   && forall k' :: Rank(k') < Rank(k) && Active(Field(params, k'))
                                                   ==> HasProvider(providers, Name(k'))
  {
    var asked := Requested(params);
    var r := Conjoin(providers, asked);
    RequestedInKeyOrder(params);
    if r.Err? {
      var i :| FirstMissing(providers, asked, i) && r.error == NoProvider(Name(asked[i].key));
      var k := asked[i].key;
      forall k' | Rank(k') < Rank(k) && Active(Field(params, k'))
        ensures HasProvider(providers, Name(k'))
      {
        var j :| 0 <= j < |asked| && asked[j].key == k';
        assert j < i;
      }
      assert Active(Field(params, k)) && !HasProvider(providers, Name(k));
    }
  }
}
