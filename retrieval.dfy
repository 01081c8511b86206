/**
 * The retrieval tool (tools/retrieval.py): a fresh vector store per call, a
 * top-k search, and an order-preserving relevance filter on the distances.
 */
module Retrieval {
  import opened Common
  import opened Config
  import opened VectorIndex
  import Chunking

  const DefaultPersistDir: string := "data/vector_store"
  const CollectionName: string := "support_co_pilot_kb"

  /** The distance bound used when the settings cannot be loaded. */
  const FallbackMaxDistance: real := 1.2

  /**
   * The API key `get_vector_store` hands to the store: the caller's key when
   * given, else the configured key unless it is empty, else none.
   */
  function SelectApiKey(apiKey: Option<string>, settings: Option<Settings>): (key: Option<string>)
    ensures apiKey.Some? ==> key == apiKey
    ensures apiKey.None? && settings.Some? && settings.value.llmApiKey != [] ==> key == Some(settings.value.llmApiKey)
    ensures apiKey.None? && (settings.None? || settings.value.llmApiKey == []) ==> key.None?
  {
    if apiKey.Some? then apiKey
    else if settings.Some? && settings.value.llmApiKey != [] then Some(settings.value.llmApiKey)
    else None
  }

  /** The bound `retrieve` filters with: the argument, else the configured one, else 1.2. */
  function ResolveMaxDistance(maxDistance: Option<real>, settings: Option<Settings>): (bound: real)
    ensures maxDistance.Some? ==> bound == maxDistance.value
    ensures maxDistance.None? && settings.Some? ==> bound == settings.value.ragMaxDistance
    ensures maxDistance.None? && settings.None? ==> bound == FallbackMaxDistance
  {
    if maxDistance.Some? then maxDistance.value
    else if settings.Some? then settings.value.ragMaxDistance
    else FallbackMaxDistance
  }

  /** A result is relevant when it has no distance or one within the bound. */
  predicate Relevant(r: SearchResult, bound: real)
  {
    r.distance.None? || r.distance.value <= bound
  }

  /** The relevant results, in their original order. */
  function Filtered(results: seq<SearchResult>, bound: real): (kept: seq<SearchResult>)
    ensures |kept| <= |results|
  {
    if results == [] then []
    else
      var init := results[..|results| - 1];
      var last := results[|results| - 1];
      Filtered(init, bound) + (if Relevant(last, bound) then [last] else [])
  }

  /** `xs` is `ys` with some elements left out, the rest in the same order. */
  predicate SubsequenceOf<T(==)>(xs: seq<T>, ys: seq<T>)
    decreases |ys|
  {
    xs == [] ||
    (ys != [] &&
     ((xs[|xs| - 1] == ys[|ys| - 1] && SubsequenceOf(xs[..|xs| - 1], ys[..|ys| - 1]))
      || SubsequenceOf(xs, ys[..|ys| - 1])))
  }

  lemma {:induction false} SubsequenceOfExtend<T>(xs: seq<T>, ys: seq<T>, y: T)
    requires SubsequenceOf(xs, ys)
    ensures SubsequenceOf(xs, ys + [y])
    ensures SubsequenceOf(xs + [y], ys + [y])
  {
    assert (ys + [y])[..|ys|] == ys;
    assert (xs + [y])[..|xs|] == xs;
  }

  /** One unfolding of `Filtered`. */
  lemma {:induction false} FilteredStep(results: seq<SearchResult>, bound: real, init: seq<SearchResult>, last: SearchResult)
    requires results == init + [last]
    ensures Filtered(results, bound) == Filtered(init, bound) + (if Relevant(last, bound) then [last] else [])
  {
    assert results[..|results| - 1] == init;
  }

  /**
   * The filter keeps exactly the relevant results: every kept result is a
   * result within the bound (or without a distance), and every such result
   * is kept.
   */
  lemma {:induction false} FilteredMembers(results: seq<SearchResult>, bound: real)
    ensures forall r :: r in Filtered(results, bound) <==> r in results && Relevant(r, bound)
  {
    if results != [] {
      var init := results[..|results| - 1];
      var last := results[|results| - 1];
      assert results == init + [last];
      FilteredMembers(init, bound);
      FilteredStep(results, bound, init, last);
    }
  }

  /** The kept results are in their original order. */
  lemma {:induction false} FilteredOrdered(results: seq<SearchResult>, bound: real)
    ensures SubsequenceOf(Filtered(results, bound), results)
  {
    if results == [] {
    } else {
      var init := results[..|results| - 1];
      var last := results[|results| - 1];
      assert results == init + [last];
      FilteredOrdered(init, bound);
      FilteredStep(results, bound, init, last);
      SubsequenceOfExtend(Filtered(init, bound), init, last);
      if !Relevant(last, bound) {
        assert Filtered(results, bound) == Filtered(init, bound) + [];
        assert Filtered(init, bound) + [] == Filtered(init, bound);
      }
    }
  }

  /** When every result is relevant the filter changes nothing. */
  lemma {:induction false} FilteredAllRelevant(results: seq<SearchResult>, bound: real)
    requires forall i :: 0 <= i < |results| ==> Relevant(results[i], bound)
    ensures Filtered(results, bound) == results
  {
    if results != [] {
      var init := results[..|results| - 1];
      FilteredAllRelevant(init, bound);
      assert results == init + [results[|results| - 1]];
    }
  }

  /** The relevance loop of `retrieve`. */
  method FilterRelevant(results: seq<SearchResult>, bound: real) returns (filtered: seq<SearchResult>)
    ensures filtered == Filtered(results, bound)
  {
    filtered := [];
    for i := 0 to |results|
      invariant filtered == Filtered(results[..i], bound)
    {
      var r := results[i];
      assert results[..i + 1][..i] == results[..i];
      if r.distance.None? {
        filtered := filtered + [r];
      } else if r.distance.value <= bound {
        filtered := filtered + [r];
      }
    }
    assert results[..|results|] == results;
  }

  /** `get_vector_store`: a new store on the directory, with the selected key. */
  method GetVectorStore(persistDirectory: string, apiKey: Option<string>, settings: Option<Settings>)
    returns (store: VectorStore)
    ensures fresh(store) && store.Valid() && !store.clientReady && store.calls == []
    ensures store.persistDirectory == persistDirectory
    ensures store.apiKey == SelectApiKey(apiKey, settings)
    ensures store.collectionName == CollectionName
  {
    store := new VectorStore(persistDirectory, SelectApiKey(apiKey, settings), CollectionName);
  }

  /** What `retrieve` returns, given the collection's answers. */
  function RetrieveResults(maxDistance: Option<real>, settings: Option<Settings>, count: nat,
                           response: Option<QueryResponse>): (out: seq<SearchResult>)
    ensures forall r :: r in out ==> Relevant(r, ResolveMaxDistance(maxDistance, settings))
  {
    var bound := ResolveMaxDistance(maxDistance, settings);
    FilteredMembers(SearchResults(count, response), bound);
    Filtered(SearchResults(count, response), bound)
  }

  /**
   * `retrieve`: searches a fresh store for the top `k` hits and drops the ones
   * farther than the bound.  `settings` is the outcome of loading the settings
   * (`None` when that raised); `count` and `response` are the collection's answers.
   */
  method Retrieve(query: string, k: int, persistDirectory: string, apiKey: Option<string>,
                  maxDistance: Option<real>, settings: Option<Settings>,
                  count: nat, response: Option<QueryResponse>)
    returns (filtered: seq<SearchResult>, store: VectorStore)
    ensures filtered == RetrieveResults(maxDistance, settings, count, response)
    ensures fresh(store) && store.apiKey == SelectApiKey(apiKey, settings)
    ensures count == 0 ==> store.calls == [CountCall]
    ensures count > 0 ==> store.calls == [CountCall, QueryCall(query, Chunking.Min(k, count))]
  {
    var bound := ResolveMaxDistance(maxDistance, settings);
    store := GetVectorStore(persistDirectory, apiKey, settings);
    var results := store.Search(query, k, count, response);
    filtered := FilterRelevant(results, bound);
  }

  /** `retrieval_tool_raw(q, k)`: `retrieve` with every other argument defaulted. */
  method RetrievalToolRaw(query: string, k: int, settings: Option<Settings>, count: nat,
                          response: Option<QueryResponse>)
    returns (filtered: seq<SearchResult>)
    ensures filtered == RetrieveResults(None, settings, count, response)
  {
    var store;
    filtered, store := Retrieve(query, k, DefaultPersistDir, None, None, settings, count, response);
  }
}
