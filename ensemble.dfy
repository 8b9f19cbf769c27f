/** The retrieval orchestrator (src/modules/ensemble/ensemble.service.ts):
    a two-state machine, uninitialised and ready, that serves fused BM25 +
    vector results when ready and vector-only results otherwise. The
    library's BM25 index and its reciprocal-rank fusion are not part of this
    model: the fused retriever is a configuration value and its `invoke` an
    oracle. */
module Ensemble {
  import opened JsValues
  import opened Documents
  import opened VectorStore

  /** Results per search when the caller gives no limit, and `k` of both sub-retrievers. */
  const DefaultResultCount := 12
  const Bm25Weight: real := 0.4
  const VectorWeight: real := 0.6
  /** The rank-discount constant `c` of reciprocal-rank fusion. */
  const RrfConstant := 60
  const NoDocuments := "No documents found in docstore"
  /** The TypeError raised by reading a property of a `null` record. */
  const NullRecord := "Cannot read properties of null"
  const ReadFailed := "ENOENT: no such file or directory"
  const ParseFailed := "Unexpected token in JSON"

  datatype Bm25Retriever = Bm25Retriever(documents: seq<Document>, k: int)
  datatype VectorRetriever = VectorRetriever(store: HnswIndex, k: int)
  /** The `EnsembleRetriever`: its sub-retrievers in order, their weights in
      the same order, and the fusion constant. */
  datatype FusedRetriever = FusedRetriever(retrievers: (Bm25Retriever, VectorRetriever), weights: seq<real>, c: int)

  /** The library's `ensembleRetriever.invoke(query)`: fused documents, or a thrown error. */
  type FusedInvoke = (FusedRetriever, string) -> Result<seq<Document>>

  /** The retriever `createEnsembleRetriever` builds over `documents` and the vector store. */
  function FusedConfig(documents: seq<Document>, store: HnswIndex): (f: FusedRetriever)
    ensures f.retrievers.0 == Bm25Retriever(documents, DefaultResultCount)
    ensures f.retrievers.1 == VectorRetriever(store, DefaultResultCount)
    ensures f.weights == [Bm25Weight, VectorWeight] && f.c == RrfConstant
    ensures forall w :: w in f.weights ==> 0.0 <= w <= 1.0
    ensures f.weights[0] + f.weights[1] == 1.0 && f.c > 0
  {
    FusedRetriever((Bm25Retriever(documents, DefaultResultCount), VectorRetriever(store, DefaultResultCount)),
                   [Bm25Weight, VectorWeight], RrfConstant)
  }

  /** `doc.pageContent || ''` when the value is a string. */
  function PageContentOf(v: Option<Json>): string {
    if Truthy(v) && v.value.JStr? then v.value.s else ""
  }

  /** `doc.metadata || {}` when the value is an object. */
  function MetadataOf(v: Option<Json>): Metadata {
    if Truthy(v) && v.value.JObj? then v.value.fields else map[]
  }

  /** One stored record as a document; reading a property of `null` throws. */
  function LoadedDocument(record: Json): (r: Result<Document>)
    ensures r.Err? <==> record == JNull
  {
    if record == JNull then Err(NullRecord)
    else Ok(Document(PageContentOf(Get(record, "pageContent")), MetadataOf(Get(record, "metadata"))))
  }

  /** `loadDocumentsFromStorage`: fails when the file cannot be read or
      parsed, when the parsed value is not an array or is empty, and when a
      record is `null`; otherwise one document per record, in order, with
      the record's text (default '') and metadata (default {}). */
  function LoadDocumentsFromStorage(file: StoredFile): (r: Result<seq<Document>>)
    ensures !(file.Parsed? && file.value.JArr? && file.value.items != []) ==> r.Err?
    ensures file.Parsed? && file.value.JArr? && file.value.items != [] ==>
      (r.Ok? <==> JNull !in file.value.items)
    ensures r.Ok? ==> |r.value| == |file.value.items| > 0
    ensures r.Ok? ==> forall i :: 0 <= i < |r.value| ==>
      r.value[i].pageContent == PageContentOf(Get(file.value.items[i], "pageContent")) &&
      r.value[i].metadata == MetadataOf(Get(file.value.items[i], "metadata"))
  {
    match file
    case Missing => Err(ReadFailed)
    case Unparsable => Err(ParseFailed)
    case Parsed(docstore) =>
      if !docstore.JArr? || |docstore.items| == 0 then Err(NoDocuments)
      else if JNull in docstore.items then Err(NullRecord)
      else
        var items := docstore.items;
        Ok(seq(|items|, i requires 0 <= i < |items| => LoadedDocument(items[i]).value))
  }

  /** The vector store's count and the loader agree: whenever loading
      succeeds it yields exactly as many documents as `getDocumentCount`
      reports, and a positive count with no `null` record always loads. */
  lemma CountMatchesLoad(file: StoredFile)
    ensures LoadDocumentsFromStorage(file).Ok? ==>
      |LoadDocumentsFromStorage(file).value| == GetDocumentCount(file)
    ensures GetDocumentCount(file) > 0 && JNull !in file.value.items ==>
      LoadDocumentsFromStorage(file).Ok?
  {
  }

  /** `convertToProcessedDocuments`: `documents.slice(0, limit)`, each copied
      unchanged. For a non-negative limit that is the first
      `min(limit, |documents|)` documents. */
  function ConvertToProcessedDocuments(documents: seq<Document>, limit: int): (r: seq<ProcessedDocument>)
    ensures |r| == SliceEnd(|documents|, limit) <= |documents|
    ensures limit >= 0 ==> |r| == if limit < |documents| then limit else |documents|
    ensures forall i :: 0 <= i < |r| ==>
      r[i].pageContent == documents[i].pageContent && r[i].metadata == documents[i].metadata
  {
    ToProcessedDocuments(documents[..SliceEnd(|documents|, limit)])
  }

  class EnsembleService {
    const vectorStoreService: VectorStoreService
    /** `ensembleRetriever`, null until built. */
    var ensembleRetriever: Option<FusedRetriever>
    /** `isInitialized`: false is the uninitialised state, true the ready one. */
    var isInitialized: bool

    ghost predicate Valid()
      reads this
    {
      isInitialized <==> ensembleRetriever.Some?
    }

    constructor (vectorStore: VectorStoreService)
      ensures Valid() && vectorStoreService == vectorStore
      ensures !isInitialized && ensembleRetriever == None
    {
      vectorStoreService := vectorStore;
      ensembleRetriever := None;
      isInitialized := false;
    }

    /** `fallbackToVectorSearch`: the vector store's own search with the same
        query, `limit` standing for `k`; its errors, including the undefined
        store before initialisation, are rethrown. */
    function FallbackToVectorSearch(search: NearestNeighbours, query: string, limit: int): (r: Result<seq<ProcessedDocument>>)
      reads vectorStoreService
      requires vectorStoreService.Valid()
      ensures !vectorStoreService.isInitialized ==> r == Err(StoreUndefined)
      ensures vectorStoreService.isInitialized ==>
        var hits := search(vectorStoreService.vectorStore.value, query, limit);
        (r.Ok? <==> hits.Ok?) && (r.Err? ==> r.error == hits.error) &&
        (r.Ok? ==> |r.value| == |hits.value|) &&
        (r.Ok? ==> forall i :: 0 <= i < |r.value| ==>
          r.value[i].pageContent == hits.value[i].0.pageContent &&
          Get(JObj(r.value[i].metadata), "score") == Some(JNum(Finite(hits.value[i].1))))
    {
      vectorStoreService.SimilaritySearch(search, query, limit)
    }

    /** `search`: when not ready, exactly the vector store's search with the
        same query and limit; when ready, the fused results cut to `limit`
        and copied unchanged, unless the fused retriever throws, in which
        case it is again the vector store's search with the same query and
        limit (never the fused error). */
    function Search(invoke: FusedInvoke, search: NearestNeighbours, query: string,
                    limit: int := DefaultResultCount): (r: Result<seq<ProcessedDocument>>)
      reads this, vectorStoreService
      requires vectorStoreService.Valid()
      ensures !isInitialized || ensembleRetriever.None? ==>
        r == vectorStoreService.SimilaritySearch(search, query, limit)
      ensures isInitialized && ensembleRetriever.Some? && invoke(ensembleRetriever.value, query).Err? ==>
        r == vectorStoreService.SimilaritySearch(search, query, limit)
      ensures isInitialized && ensembleRetriever.Some? && invoke(ensembleRetriever.value, query).Ok? ==>
        var fused := invoke(ensembleRetriever.value, query).value;
        r.Ok? && |r.value| == SliceEnd(|fused|, limit) &&
        (limit >= 0 ==> |r.value| == if limit < |fused| then limit else |fused|) &&
        forall i :: 0 <= i < |r.value| ==> r.value[i] == ToProcessed(fused[i])
    {
      if !isInitialized || ensembleRetriever.None? then
        FallbackToVectorSearch(search, query, limit)
      else
        match invoke(ensembleRetriever.value, query)
        case Err(_) => FallbackToVectorSearch(search, query, limit)
        case Ok(results) => Ok(ConvertToProcessedDocuments(results, limit))
    }

    /** `createEnsembleRetriever`: builds the BM25 retriever (`build` is
        whether the library's construction succeeds), then asks the vector
        store for its index, which throws before that store is initialised,
        and only then stores the fused retriever. */
    method CreateEnsembleRetriever(documents: seq<Document>, build: Outcome) returns (r: Outcome)
      requires vectorStoreService.Valid()
      modifies this`ensembleRetriever
      ensures build.Fail? ==> r == build
      ensures build.Pass? && !vectorStoreService.isInitialized ==> r == Fail(NotInitialized)
      ensures r.Pass? <==> build.Pass? && vectorStoreService.isInitialized
      ensures r.Pass? ==> ensembleRetriever == Some(FusedConfig(documents, vectorStoreService.vectorStore.value))
      ensures r.Fail? ==> ensembleRetriever == old(ensembleRetriever)
    {
      if build.Fail? {
        return build;
      }
      var store := vectorStoreService.GetVectorStore();
      if store.Err? {
        return Fail(store.error);
      }
      ensembleRetriever := Some(FusedConfig(documents, store.value));
      r := Pass;
    }

    /** `initializeWithDocuments`: the service becomes ready only after the
        retriever over these documents is built; a failure is rethrown and
        leaves the service as it was. Calling it when ready rebuilds. */
    method InitializeWithDocuments(documents: seq<ProcessedDocument>, build: Outcome) returns (r: Outcome)
      requires Valid() && vectorStoreService.Valid()
      modifies this
      ensures Valid()
      ensures old(isInitialized) ==> isInitialized
      ensures build.Fail? ==> r == build
      ensures build.Pass? && !vectorStoreService.isInitialized ==> r == Fail(NotInitialized)
      ensures r.Pass? <==> build.Pass? && vectorStoreService.isInitialized
      ensures r.Pass? ==> (isInitialized &&
        ensembleRetriever == Some(FusedConfig(ToDocuments(documents), vectorStoreService.vectorStore.value)))
      ensures r.Fail? ==> unchanged(this)
    {
      var langchainDocs := ToDocuments(documents);
      r := CreateEnsembleRetriever(langchainDocs, build);
      if r.Fail? {
        return;
      }
      isInitialized := true;
    }

    /** `loadDocumentsAndInitialize`: the same, over the documents loaded
        from `docstore.json`; a load failure is rethrown too. */
    method LoadDocumentsAndInitialize(file: StoredFile, build: Outcome) returns (r: Outcome)
      requires Valid() && vectorStoreService.Valid()
      modifies this
      ensures Valid()
      ensures old(isInitialized) ==> isInitialized
      ensures r.Pass? <==> LoadDocumentsFromStorage(file).Ok? && build.Pass? && vectorStoreService.isInitialized
      ensures r.Pass? ==> (isInitialized &&
        ensembleRetriever == Some(FusedConfig(LoadDocumentsFromStorage(file).value, vectorStoreService.vectorStore.value)))
      ensures r.Fail? ==> unchanged(this)
    {
      var documents := LoadDocumentsFromStorage(file);
      if documents.Err? {
        return Fail(documents.error);
      }
      r := CreateEnsembleRetriever(documents.value, build);
      if r.Fail? {
        return;
      }
      isInitialized := true;
    }

    /** `initializeIfNeeded`: nothing when already ready; nothing when the
        store holds no documents (the service stays uninitialised until
        ingestion); otherwise it loads and builds, and every error is
        swallowed, leaving the service uninitialised. */
    method InitializeIfNeeded(file: StoredFile, build: Outcome)
      requires Valid() && vectorStoreService.Valid()
      modifies this
      ensures Valid()
      ensures old(isInitialized) ==> isInitialized
      ensures old(isInitialized) || GetDocumentCount(file) == 0 ==> unchanged(this)
      ensures !old(isInitialized) && GetDocumentCount(file) > 0 ==>
        if LoadDocumentsFromStorage(file).Ok? && build.Pass? && vectorStoreService.isInitialized then
          isInitialized &&
          ensembleRetriever == Some(FusedConfig(LoadDocumentsFromStorage(file).value, vectorStoreService.vectorStore.value))
        else unchanged(this)
    {
      if isInitialized {
        return;
      }
      var docCount := GetDocumentCount(file);
      if docCount > 0 {
        var _ := LoadDocumentsAndInitialize(file, build);
      }
    }
  }
}
