/**
 * The persistent vector store (tools/vector_store.py): indexing a document's
 * chunks and assembling search results around a Chroma collection.
 *
 * The collection itself, its embedding function and SHA-256 are outside the
 * model.  The store keeps a log of the requests it sends to the collection;
 * what the collection answers (its size, the raw query response) and the
 * hex digest function are parameters.
 */
module VectorIndex {
  import opened Common
  import opened Chunking

  /** A Chroma metadata dict; a key the dict lacks is `None`. */
  datatype Meta = Meta(sourceFile: Option<string>, chunkIndex: Option<int>, start: Option<int>, end: Option<int>)

  /** A request sent to the collection. */
  datatype CollectionCall =
    | AddCall(ids: seq<string>, documents: seq<string>, metadatas: seq<Meta>)
    | CountCall
    | QueryCall(queryText: string, nResults: int)

  /**
   * The raw answer of `collection.query` for a single query text: `ids` is
   * the list of per-query id lists, `documents`, `metadatas` and `distances`
   * the entries for the first query.  A `metadatas` or `distances` entry that
   * is missing or null behaves as the empty list and is written as one.
   */
  datatype QueryResponse = QueryResponse(
    ids: seq<seq<string>>,
    documents: seq<string>,
    metadatas: seq<Meta>,
    distances: seq<seq<real>>)

  /** One entry of `search`'s output. */
  datatype SearchResult = SearchResult(
    text: string,
    sourceFile: string,
    chunkIndex: int,
    start: int,
    end: int,
    distance: Option<real>)

  // ---------------------------------------------------------------------------
  // Chunk ids

  /** The string `_chunk_id` hashes: `f"{source_file}:{chunk_index}"`. */
  function ChunkKey(sourceFile: string, chunkIndex: nat): (key: string)
    ensures |key| > |sourceFile| && key[|sourceFile|] == ':'
  {
    sourceFile + ":" + NatToString(chunkIndex)
  }

  /**
   * `_chunk_id`: the first 32 characters of the hex SHA-256 digest of the
   * key; `sha256Hex` stands for `hashlib.sha256(s.encode()).hexdigest()`.
   */
  function ChunkId(sha256Hex: string -> string, sourceFile: string, chunkIndex: nat): (id: string)
    ensures |id| <= 32
    ensures id == Take(sha256Hex(ChunkKey(sourceFile, chunkIndex)), 32)
  {
    Take(sha256Hex(ChunkKey(sourceFile, chunkIndex)), 32)
  }

  lemma {:induction false} KeySuffix(f: string, d: string, n: nat)
    requires n <= |d|
    ensures (f + ":" + d)[|f| + 1 + n..] == d[n..]
  {
    assert (f + ":" + d)[|f| + 1..] == d;
  }

  /**
   * Distinct (file, index) pairs hash distinct keys: the decimal index has no
   * ':' so the last ':' of the key separates the two parts.
   */
  lemma {:induction false} ChunkKeyInjective(f1: string, i1: nat, f2: string, i2: nat)
    requires ChunkKey(f1, i1) == ChunkKey(f2, i2)
    ensures f1 == f2 && i1 == i2
  {
    var d1, d2 := NatToString(i1), NatToString(i2);
    var key := ChunkKey(f1, i1);
    assert key == f1 + ":" + d1;
    assert key == f2 + ":" + d2;
    assert |f1| + |d1| == |f2| + |d2|;
    if |d1| != |d2| {
      // the shorter file name ends where the other key has a digit
      assert false;
    } else {
      assert f1 == key[..|f1|] == f2;
      KeySuffix(f1, d1, 0);
      KeySuffix(f2, d2, 0);
      NatToStringInjective(i1, i2);
    }
  }

  // ---------------------------------------------------------------------------
  // What is sent on `add` and what `search` returns

  /** The metadata `add_document` stores with chunk `i` of `source_file`. */
  function IndexMeta(sourceFile: string, i: nat, c: Chunk): Meta
  {
    Meta(Some(sourceFile), Some(i), Some(c.start), Some(c.end))
  }

  /** Whether the response passes the `not result or not ids or not ids[0]` guard. */
  predicate HasHits(response: Option<QueryResponse>)
  {
    response.Some? && response.value.ids != [] && response.value.ids[0] != []
  }

  /** `dist_list`: the first query's distances, or nothing. */
  function DistanceList(r: QueryResponse): seq<real>
  {
    if r.distances == [] then [] else r.distances[0]
  }

  /**
   * The `i`-th search result: `documents[i]` with the fields of
   * `metadatas[i]` (the defaults "", `i`, 0, 0 when the entry or the key is
   * missing) and `dist_list[i]`, if there is one.
   */
  function ResultAt(r: QueryResponse, i: nat): (res: SearchResult)
    requires i < |r.documents|
    ensures res.text == r.documents[i]
    ensures i >= |r.metadatas| ==> res.sourceFile == "" && res.chunkIndex == i && res.start == 0 && res.end == 0
    ensures res.distance.Some? <==> i < |DistanceList(r)|
    ensures res.distance.Some? ==> res.distance.value == DistanceList(r)[i]
  {
    var meta := if i < |r.metadatas| then r.metadatas[i] else Meta(None, None, None, None);
    var dist := DistanceList(r);
    SearchResult(
      r.documents[i],
      UnwrapOr(meta.sourceFile, ""),
      UnwrapOr(meta.chunkIndex, i),
      UnwrapOr(meta.start, 0),
      UnwrapOr(meta.end, 0),
      if i < |dist| then Some(dist[i]) else None)
  }

  /** What `search` returns, given the size the collection reports and its query response. */
  function SearchResults(count: nat, response: Option<QueryResponse>): (out: seq<SearchResult>)
    ensures count == 0 || !HasHits(response) ==> out == []
    ensures count > 0 && HasHits(response) ==>
      |out| == |response.value.documents| &&
      forall i :: 0 <= i < |out| ==> out[i] == ResultAt(response.value, i)
  {
    if count == 0 || !HasHits(response) then []
    else seq(|response.value.documents|, i requires 0 <= i < |response.value.documents| => ResultAt(response.value, i))
  }

  /**
   * A hit that the collection echoes back exactly as `add_document` stored it
   * gives back the chunk's text, file, index and bounds.
   */
  lemma {:induction false} SearchRecoversIndexed(r: QueryResponse, i: nat, sourceFile: string, j: nat, c: Chunk)
    requires i < |r.documents| && i < |r.metadatas|
    requires r.documents[i] == c.text && r.metadatas[i] == IndexMeta(sourceFile, j, c)
    ensures var res := ResultAt(r, i);
      res.text == c.text && res.sourceFile == sourceFile && res.chunkIndex == j &&
      res.start == c.start && res.end == c.end
  {
  }

  /** The `add` request `add_document` sends for a document's chunks. */
  function AddBatch(sha256Hex: string -> string, sourceFile: string, chunks: seq<Chunk>): (call: CollectionCall)
    ensures call.AddCall? && |call.ids| == |call.documents| == |call.metadatas| == |chunks|
  {
    AddCall(
      seq(|chunks|, i requires 0 <= i < |chunks| => ChunkId(sha256Hex, sourceFile, i)),
      seq(|chunks|, i requires 0 <= i < |chunks| => chunks[i].text),
      seq(|chunks|, i requires 0 <= i < |chunks| => IndexMeta(sourceFile, i, chunks[i])))
  }

  /**
   * The `i`-th entry of a batch is chunk `i` under id `_chunk_id(source_file, i)`,
   * and distinct entries of a batch are stored under distinct keys.
   */
  lemma {:induction false} AddBatchEntries(sha256Hex: string -> string, sourceFile: string, chunks: seq<Chunk>)
    ensures var call := AddBatch(sha256Hex, sourceFile, chunks);
      forall i :: 0 <= i < |chunks| ==>
        call.ids[i] == ChunkId(sha256Hex, sourceFile, i) &&
        call.documents[i] == chunks[i].text &&
        call.metadatas[i] == IndexMeta(sourceFile, i, chunks[i])
    ensures forall i, j :: 0 <= i < j < |chunks| ==> ChunkKey(sourceFile, i) != ChunkKey(sourceFile, j)
  {
    forall i, j | 0 <= i < j < |chunks| ensures ChunkKey(sourceFile, i) != ChunkKey(sourceFile, j) {
      if ChunkKey(sourceFile, i) == ChunkKey(sourceFile, j) {
        ChunkKeyInjective(sourceFile, i, sourceFile, j);
      }
    }
  }

  // ---------------------------------------------------------------------------
  // The loops of `add_document` and `search`

  /** The `for i, c in enumerate(chunks)` loop of `add_document`. */
  method BuildBatch(sha256Hex: string -> string, sourceFile: string, chunks: seq<Chunk>)
    returns (ids: seq<string>, documents: seq<string>, metadatas: seq<Meta>)
    ensures AddCall(ids, documents, metadatas) == AddBatch(sha256Hex, sourceFile, chunks)
  {
    ids, documents, metadatas := [], [], [];
    for i := 0 to |chunks|
      invariant |ids| == |documents| == |metadatas| == i
      invariant forall j :: 0 <= j < i ==> ids[j] == ChunkId(sha256Hex, sourceFile, j)
      invariant forall j :: 0 <= j < i ==> documents[j] == chunks[j].text
      invariant forall j :: 0 <= j < i ==> metadatas[j] == IndexMeta(sourceFile, j, chunks[j])
    {
      var c := chunks[i];
      ids := ids + [ChunkId(sha256Hex, sourceFile, i)];
      documents := documents + [c.text];
      metadatas := metadatas + [IndexMeta(sourceFile, i, c)];
    }
  }

  /** The `for i, doc in enumerate(documents)` loop of `search`. */
  method AssembleResults(r: QueryResponse) returns (out: seq<SearchResult>)
    ensures |out| == |r.documents|
    ensures forall i :: 0 <= i < |out| ==> out[i] == ResultAt(r, i)
  {
    out := [];
    var dist := DistanceList(r);
    for i := 0 to |r.documents|
      invariant |out| == i
      invariant forall j :: 0 <= j < i ==> out[j] == ResultAt(r, j)
    {
      var meta := if i < |r.metadatas| then r.metadatas[i] else Meta(None, None, None, None);
      out := out + [SearchResult(
        r.documents[i],
        UnwrapOr(meta.sourceFile, ""),
        UnwrapOr(meta.chunkIndex, i),
        UnwrapOr(meta.start, 0),
        UnwrapOr(meta.end, 0),
        if i < |dist| then Some(dist[i]) else None)];
    }
  }

  // ---------------------------------------------------------------------------
  // The store

  class VectorStore {
    const persistDirectory: string
    const apiKey: Option<string>
    const collectionName: string

    /** `_client is not None`: the client and the collection have been opened. */
    var clientReady: bool
    /** How many times a client has been opened. */
    ghost var clientsOpened: nat
    /** The requests sent to the collection, oldest first. */
    var calls: seq<CollectionCall>

    /** The client is opened at most once, and nothing is sent before it is. */
    ghost predicate Valid()
      reads this
    {
      clientsOpened == (if clientReady then 1 else 0)
      && (!clientReady ==> calls == [])
    }

    constructor(persistDirectory: string, apiKey: Option<string>, collectionName: string)
      ensures Valid() && !clientReady && calls == []
      ensures this.persistDirectory == persistDirectory && this.apiKey == apiKey
      ensures this.collectionName == collectionName
    {
      this.persistDirectory := persistDirectory;
      this.apiKey := apiKey;
      this.collectionName := collectionName;
      clientReady := false;
      clientsOpened := 0;
      calls := [];
    }

    /** `_ensure_client`: opens the client the first time and does nothing afterwards. */
    method EnsureClient()
      requires Valid()
      modifies this
      ensures Valid() && clientReady
      ensures calls == old(calls)
      ensures clientsOpened == 1
      ensures old(clientReady) ==> clientsOpened == old(clientsOpened)
    {
      if clientReady {
        return;
      }
      clientReady := true;
      clientsOpened := clientsOpened + 1;
    }

    /**
     * `add_document`: chunks the text (with the default configuration when
     * `config` is `None`) and, unless there are no chunks, sends one `add`
     * request for all of them; returns the number of chunks.
     */
    method AddDocument(sourceFile: string, text: string, config: Option<ChunkingConfig>, sha256Hex: string -> string)
      returns (added: nat)
      requires Valid()
      requires config.Some? ==> ValidConfig(config.value)
      modifies this
      ensures Valid() && clientReady && clientsOpened == 1
      ensures added == |ChunksFrom(text, Effective(config), 0)|
      ensures added == 0 ==> calls == old(calls)
      ensures added > 0 ==> calls == old(calls) + [AddBatch(sha256Hex, sourceFile, ChunksFrom(text, Effective(config), 0))]
    {
      EnsureClient();
      var cfg := Effective(config);
      var chunks := ChunkText(text, Some(cfg));
      if chunks == [] {
        return 0;
      }
      var ids, documents, metadatas := BuildBatch(sha256Hex, sourceFile, chunks);
      calls := calls + [AddCall(ids, documents, metadatas)];
      added := |chunks|;
    }

    /**
     * `search`: asks the collection for its size (`count` is the answer) and,
     * when it is not empty, queries it for `min(k, count)` hits (`response`
     * is the answer).
     */
    method Search(query: string, k: int, count: nat, response: Option<QueryResponse>)
      returns (out: seq<SearchResult>)
      requires Valid()
      modifies this
      ensures Valid() && clientReady && clientsOpened == 1
      ensures out == SearchResults(count, response)
      ensures count == 0 ==> calls == old(calls) + [CountCall]
      ensures count > 0 ==> calls == old(calls) + [CountCall, QueryCall(query, Min(k, count))]
    {
      EnsureClient();
      calls := calls + [CountCall];
      if count == 0 {
        return [];
      }
      calls := calls + [QueryCall(query, Min(k, count))];
      if !HasHits(response) {
        return [];
      }
      out := AssembleResults(response.value);
    }

    /** `count`: the collection's size, as the collection reports it. */
    method Count(reported: nat) returns (n: nat)
      requires Valid()
      modifies this
      ensures Valid() && clientReady && clientsOpened == 1
      ensures n == reported
      ensures calls == old(calls) + [CountCall]
    {
      EnsureClient();
      calls := calls + [CountCall];
      n := reported;
    }
  }
}
