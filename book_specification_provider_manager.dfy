/**
 * `BookSpecificationProviderManager`: picks a search-specification provider by key. A provider is
 * known only by its key and by which implementation it is; the predicate it builds is left
 * uninterpreted, so a specification is the list of (provider, parameters) conjuncts it is made of.
 */
module BookSpecificationProviderManager {
  import opened Types

  /** A `SpecificationProvider<Book>`: `key` is what `getKey()` answers, `name` tells apart two
      implementations that answer the same key. */
  datatype Provider = Provider(key: string, name: string)

  /** One `getSpecification(params)` of a provider. */
  datatype Conjunct = Conjunct(provider: Provider, params: seq<string>)

  /** A `Specification<Book>` as the conjunction of its conjuncts; `[]` is `where(null)`, which
      matches every book, and `and` appends. */
  type Spec = seq<Conjunct>

  /** `getSpecification(params)` of a provider: the representation of the predicate it builds,
      which is only known as that provider applied to those parameters. */
  function GetSpecification(provider: Provider, params: seq<string>): Conjunct
  {
    Conjunct(provider, params)
  }

  /** Whether some provider in the list answers the key. */
  predicate HasProvider(providers: seq<Provider>, key: string)
  {
    exists i :: 0 <= i < |providers| && providers[i].key == key
  }

  /** Whether the provider at index `i` is the first in list order with the key. */
  predicate FirstWithKey(providers: seq<Provider>, key: string, i: int)
  {
    && 0 <= i < |providers| && providers[i].key == key
    && forall j :: 0 <= j < i ==> providers[j].key != key
  }

  /** `getSpecificationProvider`: the first provider in list order whose key equals the requested
      one; when none does, the lookup fails with that key. */
  function GetSpecificationProvider(providers: seq<Provider>, key: string): (r: Result<Provider>)
    ensures r.Ok? <==> HasProvider(providers, key)
    ensures r.Ok? ==> r.value.key == key
    ensures r.Ok? ==> exists i :: FirstWithKey(providers, key, i) && providers[i] == r.value
    ensures r.Err? ==> r.error == NoProvider(key)
  {
    if providers == [] then Err(NoProvider(key))
    else if providers[0].key == key then
      assert FirstWithKey(providers, key, 0);
      Ok(providers[0])
    else
      var rest := GetSpecificationProvider(providers[1..], key);
      FirstMatchShifts(providers, key, rest);
      rest
  }

  /** Step of the lookup proof: past a first provider with another key, the matches are those of
      the rest of the list shifted by one. */
  lemma FirstMatchShifts(providers: seq<Provider>, key: string, rest: Result<Provider>)
    requires providers != [] && providers[0].key != key
    requires rest.Ok? <==> HasProvider(providers[1..], key)
    requires rest.Ok? ==> exists i :: FirstWithKey(providers[1..], key, i) && providers[1..][i] == rest.value
    ensures rest.Ok? <==> HasProvider(providers, key)
    ensures rest.Ok? ==> exists i :: FirstWithKey(providers, key, i) && providers[i] == rest.value
  {
    if HasProvider(providers, key) {
      var i :| 0 <= i < |providers| && providers[i].key == key;
      assert providers[1..][i - 1].key == key;
    }
    if rest.Ok? {
      var i :| FirstWithKey(providers[1..], key, i) && providers[1..][i] == rest.value;
      assert providers[i + 1] == rest.value;
      forall j | 0 <= j < i + 1
        ensures providers[j].key != key
      {
        if j > 0 {
          assert providers[j] == providers[1..][j - 1];
        }
      }
      assert FirstWithKey(providers, key, i + 1);
    }
  }

  /** The lookup returns the provider which comes first: any provider with the key that is
      listed before another one is the one returned, so later duplicates are never reached. */
  lemma FirstProviderWins(providers: seq<Provider>, key: string, i: nat)
    requires i < |providers| && providers[i].key == key
    requires forall j :: 0 <= j < i ==> providers[j].key != key
    ensures GetSpecificationProvider(providers, key) == Ok(providers[i])
  {
    var r := GetSpecificationProvider(providers, key);
    var j :| FirstWithKey(providers, key, j) && providers[j] == r.value;
  }
}
