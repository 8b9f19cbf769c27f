/** The wrapper around the HNSW vector store
    (src/modules/vector-store/vector-store.service.ts). The library's index,
    its nearest-neighbour search, the embeddings and the file system are not
    part of this model: they reach it as values and oracle functions. The
    store lives in `./data/vector-store`, its documents in `docstore.json`
    there, and the embeddings come from
    `sentence-transformers/all-mpnet-base-v2`; only the file's contents,
    never its path, enter the model. */
module VectorStore {
  import opened JsValues
  import opened Documents

  /** `k` when the caller of similaritySearch gives none. */
  const DefaultK := 4
  const NotInitialized := "Vector store not initialized"
  /** The TypeError raised by calling a method of the still undefined store. */
  const StoreUndefined := "Cannot read properties of undefined"

  /** The library's in-memory index: the documents it holds, in the order
      they were added. */
  datatype HnswIndex = HnswIndex(docs: seq<Document>)

  /** What reading `docstore.json` and parsing it with JSON.parse gives. */
  datatype StoredFile = Missing | Unparsable | Parsed(value: Json)

  /** The library's `similaritySearchWithScore(query, k)` on an index:
      documents paired with their similarity scores, or a thrown error. */
  type NearestNeighbours = (HnswIndex, string, int) -> Result<seq<(Document, real)>>

  /** `getDocumentCount`: the length of the parsed docstore when it is an
      array, and 0 in every other case (missing file, unparsable content, a
      parsed value that is not an array). It never fails. */
  function GetDocumentCount(file: StoredFile): (count: nat)
    ensures file.Parsed? && file.value.JArr? ==> count == |file.value.items|
    ensures !(file.Parsed? && file.value.JArr?) ==> count == 0
    ensures count > 0 <==> file.Parsed? && file.value.JArr? && file.value.items != []
  {
    match file
    case Parsed(JArr(items)) => |items|
    case _ => 0
  }

  /** One search hit as returned to callers: the text copied, the metadata
      spread into a new object with `score` set (replacing any `score` the
      document already had). */
  function WithScore(d: Document, score: real): (p: ProcessedDocument)
    ensures p.pageContent == d.pageContent
    ensures p.metadata.Keys == d.metadata.Keys + {"score"}
    ensures p.metadata["score"] == JNum(Finite(score))
    ensures forall key :: key in d.metadata && key != "score" ==> p.metadata[key] == d.metadata[key]
  {
    ProcessedDocument(d.pageContent, d.metadata["score" := JNum(Finite(score))])
  }

  /** The `results.map(([doc, score]) => ...)` of similaritySearch. */
  function TagScores(hits: seq<(Document, real)>): (r: seq<ProcessedDocument>)
    ensures |r| == |hits|
    ensures forall i :: 0 <= i < |hits| ==> r[i] == WithScore(hits[i].0, hits[i].1)
  {
    seq(|hits|, i requires 0 <= i < |hits| => WithScore(hits[i].0, hits[i].1))
  }

  /** Tagging keeps each hit's text and the position of every hit: hit `i`
      of the library is result `i`, and the score read back from its
      metadata is the library's score. */
  lemma TagScoresPreservesHits(hits: seq<(Document, real)>, i: int)
    requires 0 <= i < |hits|
    ensures |TagScores(hits)| == |hits|
    ensures TagScores(hits)[i].pageContent == hits[i].0.pageContent
    ensures Get(JObj(TagScores(hits)[i].metadata), "score") == Some(JNum(Finite(hits[i].1)))
  {
  }

  class VectorStoreService {
    /** `isInitialized` */
    var isInitialized: bool
    /** `vectorStore`, undefined (None) until initializeStore succeeds. */
    var vectorStore: Option<HnswIndex>
    /** The indexes written to the storage directory by `save`, oldest first. */
    ghost var saved: seq<HnswIndex>

    ghost predicate Valid()
      reads this
    {
      isInitialized <==> vectorStore.Some?
    }

    constructor ()
      ensures Valid() && !isInitialized && saved == []
    {
      isInitialized := false;
      vectorStore := None;
      saved := [];
    }

    /** `getVectorStore`: the store once initialised, the error
        "Vector store not initialized" before. */
    function GetVectorStore(): (r: Result<HnswIndex>)
      reads this
      requires Valid()
      ensures r.Err? <==> !isInitialized
      ensures r.Err? ==> r.error == NotInitialized
      ensures r.Ok? ==> vectorStore == Some(r.value)
    {
      if !isInitialized then Err(NotInitialized) else Ok(vectorStore.value)
    }

    /** `initializeStore`: nothing happens once initialised; otherwise the
        saved index is loaded when `docstore.json` exists (`indexExists`) and
        an empty one is created when it does not. `load` and `create` are
        what the library's `HNSWLib.load` and `HNSWLib.fromDocuments([])`
        give. The flag is set only when that step succeeds; a failure is
        rethrown and leaves the service as it was. */
    method InitializeStore(indexExists: bool, load: Result<HnswIndex>, create: Outcome) returns (r: Outcome)
      requires Valid()
      modifies this
      ensures Valid() && saved == old(saved)
      ensures old(isInitialized) ==> r == Pass && unchanged(this)
      ensures !old(isInitialized) && indexExists ==>
        r == (if load.Ok? then Pass else Fail(load.error))
      ensures !old(isInitialized) && !indexExists ==> r == create
      ensures !old(isInitialized) && r.Pass? ==>
        isInitialized && vectorStore == Some(if indexExists then load.value else HnswIndex([]))
      ensures r.Fail? ==> unchanged(this)
    {
      if isInitialized {
        return Pass;
      }
      if indexExists {
        if load.Err? {
          return Fail(load.error);
        }
        vectorStore := Some(load.value);
      } else {
        if create.Fail? {
          return create;
        }
        vectorStore := Some(HnswIndex([]));
      }
      isInitialized := true;
      r := Pass;
    }

    /** `addDocuments`: converts each document to the library's form, adds
        them all to the index (`embed` is whether the library's embedding
        and insertion succeed), then saves the index (`save` is whether
        writing succeeds). Any failure is rethrown; a failed save leaves the
        documents added in memory but not on disk. Before initialisation the
        store is undefined and the call throws. */
    method AddDocuments(documents: seq<ProcessedDocument>, embed: Outcome, save: Outcome) returns (r: Outcome)
      requires Valid()
      modifies this
      ensures Valid() && isInitialized == old(isInitialized)
      ensures !old(isInitialized) ==> r == Fail(StoreUndefined) && unchanged(this)
      ensures old(isInitialized) && embed.Fail? ==> r == embed && unchanged(this)
      ensures old(isInitialized) && embed.Pass? ==>
        vectorStore == Some(HnswIndex(old(vectorStore).value.docs + ToDocuments(documents)))
      ensures old(isInitialized) && embed.Pass? ==> r == save
      ensures r.Pass? ==> saved == old(saved) + [vectorStore.value]
      ensures r.Fail? ==> saved == old(saved)
    {
      if !isInitialized {
        return Fail(StoreUndefined);
      }
      var langchainDocs := ToDocuments(documents);
      if embed.Fail? {
        return embed;
      }
      vectorStore := Some(HnswIndex(vectorStore.value.docs + langchainDocs));
      if save.Fail? {
        return save;
      }
      saved := saved + [vectorStore.value];
      r := Pass;
    }

    /** `similaritySearch`: the library's hits for `query` and `k`, in the
        library's order, each with its score put into its metadata. Library
        errors are rethrown; before initialisation the store is undefined
        and the call throws. */
    function SimilaritySearch(search: NearestNeighbours, query: string, k: int := DefaultK): (r: Result<seq<ProcessedDocument>>)
      reads this
      requires Valid()
      ensures !isInitialized ==> r == Err(StoreUndefined)
      ensures isInitialized ==> (r.Ok? <==> search(vectorStore.value, query, k).Ok?)
      ensures isInitialized && r.Err? ==> r.error == search(vectorStore.value, query, k).error
      ensures r.Ok? ==> |r.value| == |search(vectorStore.value, query, k).value|
      ensures r.Ok? ==> forall i :: 0 <= i < |r.value| ==>
        var hit := search(vectorStore.value, query, k).value[i];
        r.value[i].pageContent == hit.0.pageContent &&
        r.value[i].metadata == hit.0.metadata["score" := JNum(Finite(hit.1))]
    {
      if !isInitialized then Err(StoreUndefined)
      else
        match search(vectorStore.value, query, k)
        case Err(e) => Err(e)
        case Ok(hits) => Ok(TagScores(hits))
    }
  }
}
