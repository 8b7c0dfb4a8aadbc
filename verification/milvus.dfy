/** The decision logic of `MilvusVectorStore`: index and search parameters by index
    family, batched embedding with a per-item fallback on CUDA errors, the column
    layout handed to the engine, and the clamped search with hit-to-Document
    conversion. The Milvus engine and the embedding model are oracles. */
module VectorStore {
  import opened Wrappers
  import opened PyText
  import opened PyValues

  /** An embedding vector; its floats are never inspected. */
  type Vector = seq<real>

  /** Texts are embedded this many at a time. */
  const BatchSize: nat := 16

  const IvfTypes: seq<string> := ["IVF_FLAT", "IVF_SQ8", "IVF_PQ"]

  // ---------------------------------------------------------------------------
  // Index and search parameters (_create_index, similarity_search)
  // ---------------------------------------------------------------------------

  /** The index families the store distinguishes. */
  datatype Family = Hnsw | Ivf | Untuned

  /** The family of a (possibly missing) index type name. */
  function FamilyOf(indexType: Option<string>): (f: Family)
    ensures f == Hnsw <==> indexType == Some("HNSW")
    ensures f == Ivf <==> indexType.Some? && indexType.value in IvfTypes
  {
    match indexType
    case Some(t) => if t == "HNSW" then Hnsw else if t in IvfTypes then Ivf else Untuned
    case None => Untuned
  }

  /** Index-build parameters: graph degree and build beam for HNSW, the cluster
      count for the IVF family, nothing otherwise. */
  function BuildParams(indexType: string): (p: map<string, int>)
    ensures indexType == "HNSW" ==> p == map["M" := 8, "efConstruction" := 64]
    ensures indexType in IvfTypes ==> p == map["nlist" := 128]
    ensures indexType != "HNSW" && indexType !in IvfTypes ==> p == map[]
  {
    match FamilyOf(Some(indexType))
    case Hnsw => map["M" := 8, "efConstruction" := 64]
    case Ivf => map["nlist" := 128]
    case Untuned => map[]
  }

  /** Search parameters for the type recorded on the collection's first index. */
  function SearchParams(indexType: Option<string>): (p: map<string, int>)
    ensures indexType == Some("HNSW") ==> p == map["ef" := 64]
    ensures indexType.Some? && indexType.value in IvfTypes ==> p == map["nprobe" := 10]
    ensures FamilyOf(indexType) == Untuned ==> p == map[]
  {
    match FamilyOf(indexType)
    case Hnsw => map["ef" := 64]
    case Ivf => map["nprobe" := 10]
    case Untuned => map[]
  }

  /** The `create_index` request on the "vector" field. */
  datatype IndexRequest = IndexRequest(metricType: string, indexType: string, params: map<string, int>)

  function CreateIndexRequest(metricType: string, indexType: string): (r: IndexRequest)
    ensures r.metricType == metricType && r.indexType == indexType
    ensures r.params == BuildParams(indexType)
  {
    IndexRequest(metricType, indexType, BuildParams(indexType))
  }

  /** Searching an index the store built itself tunes the same family that was built:
      HNSW's search beam matches its build beam, the IVF family probes some of the
      clusters it built, and an untuned index is searched untuned. */
  lemma SearchMatchesBuild(indexType: string)
    ensures ("M" in BuildParams(indexType)) <==> ("ef" in SearchParams(Some(indexType)))
    ensures "ef" in SearchParams(Some(indexType)) ==>
      SearchParams(Some(indexType))["ef"] == BuildParams(indexType)["efConstruction"]
    ensures ("nlist" in BuildParams(indexType)) <==> ("nprobe" in SearchParams(Some(indexType)))
    ensures "nprobe" in SearchParams(Some(indexType)) ==>
      0 < SearchParams(Some(indexType))["nprobe"] <= BuildParams(indexType)["nlist"]
    ensures BuildParams(indexType) == map[] <==> SearchParams(Some(indexType)) == map[]
  {
    match FamilyOf(Some(indexType))
    case Hnsw =>
      assert "ef" in SearchParams(Some(indexType));
    case Ivf =>
      assert "nlist" in BuildParams(indexType);
      assert "nprobe" in SearchParams(Some(indexType));
    case Untuned =>
  }

  // ---------------------------------------------------------------------------
  // Batched embedding (add_texts)
  // ---------------------------------------------------------------------------

  /** What `embed_documents` does on one call: vectors, or a raised exception. */
  datatype EmbedResult = Embedded(vectors: seq<Vector>) | EmbedFailed(error: PyError)

  /** The embedding model's `embed_documents`. */
  type Embedder = seq<string> -> EmbedResult

  /** A `RuntimeError` (or subclass) whose message mentions CUDA. */
  predicate IsCudaError(e: PyError) {
    e.Raised? && e.kind == "RuntimeError" && Contains(e.message, "CUDA")
  }

  /** An embedder that returns one vector per input whenever it succeeds. */
  ghost predicate Aligned(embed: Embedder) {
    forall xs :: embed(xs).Embedded? ==> |embed(xs).vectors| == |xs|
  }

  /** The batch starting at `i`: `texts[i:i+16]`. */
  function Batch(texts: seq<string>, i: nat): (b: seq<string>)
    requires i < |texts|
    ensures 0 < |b| <= BatchSize
    ensures i + BatchSize <= |texts| ==> |b| == BatchSize
    ensures i + |b| <= |texts| && b == texts[i..i + |b|]
  {
    if i + BatchSize <= |texts| then texts[i..i + BatchSize] else texts[i..]
  }

  /** The batches `texts[0:16], texts[16:32], ...` from position `i` on. */
  function BatchesFrom(texts: seq<string>, i: nat): seq<seq<string>>
    decreases |texts| - i
  {
    if i >= |texts| then [] else [Batch(texts, i)] + BatchesFrom(texts, i + BatchSize)
  }

  /** The batches partition the texts: re-joined they give back the texts, in order. */
  lemma {:induction false} BatchesCover(texts: seq<string>, i: nat)
    requires i <= |texts|
    ensures Concat(BatchesFrom(texts, i)) == texts[i..]
    decreases |texts| - i
  {
    if i < |texts| {
      var b := Batch(texts, i);
      var next := i + |b|;
      if i + BatchSize <= |texts| {
        BatchesCover(texts, i + BatchSize);
      } else {
        assert BatchesFrom(texts, i + BatchSize) == [];
      }
      assert texts[i..] == b + texts[next..];
    }
  }

  /** There are ceil(n / 16) batches; all are full except possibly the last. */
  lemma {:induction false} BatchesShape(texts: seq<string>, i: nat)
    requires i <= |texts|
    ensures |BatchesFrom(texts, i)| == (|texts| - i + BatchSize - 1) / BatchSize
    ensures forall j :: 0 <= j < |BatchesFrom(texts, i)| ==> 0 < |BatchesFrom(texts, i)[j]| <= BatchSize
    ensures forall j :: 0 <= j < |BatchesFrom(texts, i)| - 1 ==> |BatchesFrom(texts, i)[j]| == BatchSize
    decreases |texts| - i
  {
    if i < |texts| {
      if i + BatchSize <= |texts| {
        BatchesShape(texts, i + BatchSize);
      } else {
        assert BatchesFrom(texts, i + BatchSize) == [];
      }
    }
  }

  /** The fallback: embed each text on its own, in order; any failure propagates. */
  function EmbedSingles(embed: Embedder, items: seq<string>): (r: Result<seq<Vector>, PyError>)
    ensures Aligned(embed) && r.Ok? ==> |r.value| == |items|
  {
    if |items| == 0 then Ok([])
    else match embed([items[0]])
      case EmbedFailed(e) => Err(e)
      case Embedded(v) =>
        match EmbedSingles(embed, items[1..])
        case Err(e) => Err(e)
        case Ok(rest) => Ok(v + rest)
  }

  /** Each text embedded on its own succeeds with exactly one vector. */
  predicate SinglesSucceed(embed: Embedder, items: seq<string>) {
    forall j :: 0 <= j < |items| ==> embed([items[j]]).Embedded? && |embed([items[j]]).vectors| == 1
  }

  /** When every text embeds on its own to one vector, the fallback succeeds and
      its vector `j` is the one returned for text `j` alone. */
  lemma {:induction false} EmbedSinglesInOrder(embed: Embedder, items: seq<string>)
    requires SinglesSucceed(embed, items)
    ensures EmbedSingles(embed, items).Ok?
    ensures |EmbedSingles(embed, items).value| == |items|
    ensures forall j :: 0 <= j < |items| ==>
      EmbedSingles(embed, items).value[j] == embed([items[j]]).vectors[0]
  {
    if |items| > 0 {
      assert embed([items[0]]).Embedded? && |embed([items[0]]).vectors| == 1;
      forall j | 0 <= j < |items[1..]|
        ensures embed([items[1..][j]]).Embedded? && |embed([items[1..][j]]).vectors| == 1
      {
        assert items[1..][j] == items[j + 1];
      }
      EmbedSinglesInOrder(embed, items[1..]);
      var v := embed([items[0]]).vectors;
      var rest := EmbedSingles(embed, items[1..]).value;
      assert EmbedSingles(embed, items).value == v + rest;
      forall j | 0 <= j < |items|
        ensures EmbedSingles(embed, items).value[j] == embed([items[j]]).vectors[0]
      {
        if j > 0 {
          assert items[1..][j - 1] == items[j];
        }
      }
    }
  }

  /** One batch: the batch call, or on a CUDA `RuntimeError` one call per text.
      Any other error propagates. */
  function EmbedBatch(embed: Embedder, batch: seq<string>): (r: Result<seq<Vector>, PyError>)
    ensures embed(batch).Embedded? ==> r == Ok(embed(batch).vectors)
    ensures embed(batch).EmbedFailed? && IsCudaError(embed(batch).error) ==>
      r == EmbedSingles(embed, batch)
    ensures embed(batch).EmbedFailed? && !IsCudaError(embed(batch).error) ==>
      r == Err(embed(batch).error)
    ensures Aligned(embed) && r.Ok? ==> |r.value| == |batch|
  {
    match embed(batch)
    case Embedded(v) => Ok(v)
    case EmbedFailed(e) => if IsCudaError(e) then EmbedSingles(embed, batch) else Err(e)
  }

  /** A batch whose call raises a CUDA `RuntimeError` is re-embedded one text at a
      time: when each text embeds on its own, the batch yields one vector per text,
      vector `j` being the one returned for text `j` alone. */
  lemma CudaFallbackInOrder(embed: Embedder, batch: seq<string>)
    requires embed(batch).EmbedFailed? && IsCudaError(embed(batch).error)
    requires SinglesSucceed(embed, batch)
    ensures EmbedBatch(embed, batch).Ok?
    ensures |EmbedBatch(embed, batch).value| == |batch|
    ensures forall j :: 0 <= j < |batch| ==>
      EmbedBatch(embed, batch).value[j] == embed([batch[j]]).vectors[0]
  {
    EmbedSinglesInOrder(embed, batch);
  }

  /** Vectors `p` collected before an outcome `r` of the remaining work. */
  function Prepend(p: seq<Vector>, r: Result<seq<Vector>, PyError>): (q: Result<seq<Vector>, PyError>)
    ensures r.Ok? ==> q == Ok(p + r.value)
    ensures r.Err? ==> q == r
  {
    match r
    case Ok(v) => Ok(p + v)
    case Err(e) => Err(e)
  }

  /** The vectors of every batch from position `i` on, or the first error raised. */
  function EmbedFrom(embed: Embedder, texts: seq<string>, i: nat): (r: Result<seq<Vector>, PyError>)
    ensures Aligned(embed) && r.Ok? && i <= |texts| ==> |r.value| == |texts| - i
    decreases |texts| - i
  {
    if i >= |texts| then Ok([])
    else match EmbedBatch(embed, Batch(texts, i))
      case Err(e) => Err(e)
      case Ok(v) => Prepend(v, EmbedFrom(embed, texts, i + BatchSize))
  }

  /** The vectors one call per batch returns, batch by batch. */
  function BatchVectors(embed: Embedder, batches: seq<seq<string>>): (vss: seq<seq<Vector>>)
    requires forall xs :: embed(xs).Embedded?
    ensures |vss| == |batches|
  {
    if |batches| == 0 then [] else [embed(batches[0]).vectors] + BatchVectors(embed, batches[1..])
  }

  /** When no call fails the vectors are those of the batches, concatenated in order. */
  lemma {:induction false} EmbedFromNoFailure(embed: Embedder, texts: seq<string>, i: nat)
    requires forall xs :: embed(xs).Embedded?
    ensures EmbedFrom(embed, texts, i) == Ok(Concat(BatchVectors(embed, BatchesFrom(texts, i))))
    decreases |texts| - i
  {
    if i < |texts| {
      EmbedFromNoFailure(embed, texts, i + BatchSize);
      var bs := BatchesFrom(texts, i);
      var vs := BatchVectors(embed, bs);
      assert bs[1..] == BatchesFrom(texts, i + BatchSize);
      assert Concat(vs) == vs[0] + Concat(vs[1..]);
    }
  }

  /** The batching loop of `add_texts`: it computes `EmbedFrom` from the first
      batch on, so with an aligned embedder it yields one vector per text. */
  method EmbedAll(embed: Embedder, texts: seq<string>) returns (r: Result<seq<Vector>, PyError>)
    ensures r == EmbedFrom(embed, texts, 0)
  {
    var all: seq<Vector> := [];
    var i: nat := 0;
    assert EmbedFrom(embed, texts, 0).Ok? ==>
      [] + EmbedFrom(embed, texts, 0).value == EmbedFrom(embed, texts, 0).value;
    while i < |texts|
      invariant EmbedFrom(embed, texts, 0) == Prepend(all, EmbedFrom(embed, texts, i))
      decreases |texts| - i
    {
      var batch := Batch(texts, i);
      var outcome := EmbedBatch(embed, batch);
      match outcome {
        case Err(e) =>
          return Err(e);
        case Ok(v) =>
          var later := EmbedFrom(embed, texts, i + BatchSize);
          assert later.Ok? ==> all + (v + later.value) == (all + v) + later.value;
          all := all + v;
      }
      i := i + BatchSize;
    }
    assert all + [] == all;
    return Ok(all);
  }

  // ---------------------------------------------------------------------------
  // Column building (add_texts)
  // ---------------------------------------------------------------------------

  /** The column-oriented rows handed to `collection.insert`. */
  datatype InsertData = InsertData(
    vectors: seq<Vector>,
    header1s: seq<Value>,
    header2s: seq<Value>,
    sources: seq<Value>,
    contents: seq<string>)

  /** `metadatas`, with `None` replaced by one empty dict per text. */
  function MetadataList(texts: seq<string>, metadatas: Option<seq<Metadata>>): (ms: seq<Metadata>)
    ensures metadatas.None? ==> |ms| == |texts| && forall i :: 0 <= i < |ms| ==> ms[i] == map[]
    ensures metadatas.Some? ==> ms == metadatas.value
  {
    match metadatas
    case None => seq(|texts|, _ => map[])
    case Some(ms) => ms
  }

  /** The error `metadatas[i]` raises past the end of a too-short list. */
  const MetadataIndexError := Raised("IndexError", "list index out of range")

  /** The four data columns; each missing metadata key becomes ''. */
  function Columns(vectors: seq<Vector>, texts: seq<string>, ms: seq<Metadata>): (r: Result<InsertData, PyError>)
    ensures r.Ok? <==> |texts| <= |ms|
    ensures r.Err? ==> r.error == MetadataIndexError
    ensures r.Ok? ==> r.value.vectors == vectors && r.value.contents == texts
    ensures r.Ok? ==> |r.value.header1s| == |r.value.header2s| == |r.value.sources| == |texts|
    ensures r.Ok? ==> forall i :: 0 <= i < |texts| ==>
      r.value.header1s[i] == Get(ms[i], "Header 1", Str(""))
      && r.value.header2s[i] == Get(ms[i], "Header 2", Str(""))
      && r.value.sources[i] == Get(ms[i], "source", Str(""))
  {
    if |ms| < |texts| then Err(MetadataIndexError)
    else Ok(InsertData(
      vectors,
      seq(|texts|, i requires 0 <= i < |texts| => Get(ms[i], "Header 1", Str(""))),
      seq(|texts|, i requires 0 <= i < |texts| => Get(ms[i], "Header 2", Str(""))),
      seq(|texts|, i requires 0 <= i < |texts| => Get(ms[i], "source", Str(""))),
      texts))
  }

  /** `add_texts` up to the insert: embed in batches, then build the columns. */
  method AddTexts(embed: Embedder, texts: seq<string>, metadatas: Option<seq<Metadata>>)
    returns (r: Result<InsertData, PyError>)
    ensures EmbedFrom(embed, texts, 0).Err? ==> r == Err(EmbedFrom(embed, texts, 0).error)
    ensures EmbedFrom(embed, texts, 0).Ok? ==>
      r == Columns(EmbedFrom(embed, texts, 0).value, texts, MetadataList(texts, metadatas))
    ensures metadatas.None? && EmbedFrom(embed, texts, 0).Ok? ==> r.Ok?
    ensures r.Ok? ==> r.value.contents == texts
  {
    var vectors := EmbedAll(embed, texts);
    if vectors.Err? {
      return Err(vectors.error);
    }
    r := Columns(vectors.value, texts, MetadataList(texts, metadatas));
  }

  /** Without metadatas every header and source cell is the empty string. */
  lemma NoMetadataEmptyColumns(vectors: seq<Vector>, texts: seq<string>)
    ensures Columns(vectors, texts, MetadataList(texts, None)).Ok?
    ensures var d := Columns(vectors, texts, MetadataList(texts, None)).value;
      forall i :: 0 <= i < |texts| ==>
        d.header1s[i] == Str("") && d.header2s[i] == Str("") && d.sources[i] == Str("")
  {
  }

  // ---------------------------------------------------------------------------
  // Search (similarity_search, similarity_search_with_score)
  // ---------------------------------------------------------------------------

  /** One search hit: its primary key, score and stored fields. */
  datatype Hit = Hit(id: string, score: real, header1: string, header2: string, source: string, content: string)

  /** What the store sends to `collection.search`. */
  datatype SearchRequest = SearchRequest(
    query: Vector,
    metricType: Option<string>,
    params: map<string, int>,
    limit: int)

  /** The engine: one hit list per query vector, or a raised exception. */
  type SearchEngine = SearchRequest -> Result<seq<seq<Hit>>, PyError>

  /** The index type and metric recorded on the collection's first index. */
  datatype IndexInfo = IndexInfo(indexType: Option<string>, metricType: Option<string>)

  /** A search: the documents returned and the request issued, if any. */
  datatype SearchRun = SearchRun(docs: seq<Document>, request: Option<SearchRequest>)

  function Min(a: int, b: int): int {
    if a < b then a else b
  }

  /** A hit as a LangChain Document. */
  function HitToDocument(h: Hit): (d: Document)
    ensures d.pageContent == h.content
    ensures d.metadata.Keys == {"Header 1", "Header 2", "source", "score", "id"}
  {
    Document(h.content, map[
      "Header 1" := Str(h.header1),
      "Header 2" := Str(h.header2),
      "source" := Str(h.source),
      "score" := Float(h.score),
      "id" := Str(h.id)])
  }

  /** Reads a hit back from a converted Document. */
  function DocumentToHit(d: Document): Option<Hit> {
    var m := d.metadata;
    if "Header 1" in m && m["Header 1"].Str? && "Header 2" in m && m["Header 2"].Str?
       && "source" in m && m["source"].Str? && "score" in m && m["score"].Float?
       && "id" in m && m["id"].Str?
    then Some(Hit(m["id"].s, m["score"].f, m["Header 1"].s, m["Header 2"].s, m["source"].s, d.pageContent))
    else None
  }

  /** The conversion loses nothing: the hit can be read back from its Document. */
  lemma HitDocumentRoundTrip(h: Hit)
    ensures DocumentToHit(HitToDocument(h)) == Some(h)
  {
    var m := HitToDocument(h).metadata;
    assert m["Header 1"] == Str(h.header1) && m["Header 2"] == Str(h.header2);
    assert m["source"] == Str(h.source) && m["score"] == Float(h.score) && m["id"] == Str(h.id);
  }

  /** Every hit of every hit list, in order, one Document each. */
  function HitsToDocuments(hits: seq<Hit>): (docs: seq<Document>)
    ensures |docs| == |hits|
    ensures forall i :: 0 <= i < |hits| ==> docs[i] == HitToDocument(hits[i])
  {
    seq(|hits|, i requires 0 <= i < |hits| => HitToDocument(hits[i]))
  }

  /** The error `indexes[0]` raises on a collection that has no index (index
      creation swallows its own failure, so this state is reachable). */
  const NoIndexError := Raised("IndexError", "list index out of range")

  /** `similarity_search`; `index` is the collection's first index, if it has one.
      No request at all on an empty collection; otherwise a missing index raises,
      and with an index one request is sent for min(k, total) hits, an engine
      error yielding no documents. */
  function SimilaritySearch(
    query: string, k: int, totalDocs: nat, index: Option<IndexInfo>,
    embedQuery: string -> Vector, engine: SearchEngine): (r: Result<SearchRun, PyError>)
    ensures totalDocs == 0 ==> r == Ok(SearchRun([], None))
    ensures totalDocs > 0 && index.None? ==> r == Err(NoIndexError)
    ensures r.Ok? <==> totalDocs == 0 || index.Some?
    ensures r.Ok? ==> (r.value.request.None? <==> totalDocs == 0)
    ensures r.Ok? && r.value.request.Some? ==>
      var req := r.value.request.value;
      req.limit == Min(k, totalDocs) && req.limit <= totalDocs
    ensures r.Ok? && r.value.request.Some? ==>
      var req := r.value.request.value;
      && req.query == embedQuery(query)
      && req.params == SearchParams(index.value.indexType)
      && req.metricType == index.value.metricType
    ensures r.Ok? && r.value.request.Some? && engine(r.value.request.value).Err? ==> r.value.docs == []
    ensures r.Ok? && r.value.request.Some? && engine(r.value.request.value).Ok? ==>
      r.value.docs == HitsToDocuments(Concat(engine(r.value.request.value).value))
  {
    if totalDocs == 0 then Ok(SearchRun([], None))
    else
      var queryVector := embedQuery(query);
      match index
      case None => Err(NoIndexError)
      case Some(info) =>
        var request := SearchRequest(queryVector, info.metricType,
          SearchParams(info.indexType), Min(k, totalDocs));
        match engine(request)
        case Err(_) => Ok(SearchRun([], Some(request)))
        case Ok(results) => Ok(SearchRun(HitsToDocuments(Concat(results)), Some(request)))
  }

  /** `similarity_search_with_score`: each Document with its `score` (0.0 if absent). */
  function WithScore(docs: seq<Document>): (r: seq<(Document, Value)>)
    ensures |r| == |docs|
    ensures forall i :: 0 <= i < |docs| ==>
      r[i].0 == docs[i] && r[i].1 == Get(docs[i].metadata, "score", Float(0.0))
  {
    seq(|docs|, i requires 0 <= i < |docs| => (docs[i], Get(docs[i].metadata, "score", Float(0.0))))
  }

  /** For converted hits the paired score is the hit's own score. */
  lemma WithScoreOfHits(hits: seq<Hit>, i: nat)
    requires i < |hits|
    ensures WithScore(HitsToDocuments(hits))[i] == (HitToDocument(hits[i]), Float(hits[i].score))
  {
  }
}
