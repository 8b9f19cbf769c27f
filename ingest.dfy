/** The ingestion coordinator (src/modules/ingest/ingest.service.ts): reads
    the `.txt` files once, splits them into chunk documents with their
    metadata, adds them to the vector store and then initialises the
    ensemble. The directory listing, the files, their stats and the
    library's text splitter reach the model as oracle values. */
module Ingest {
  import opened JsValues
  import opened Documents
  import opened VectorStore
  import opened Ensemble

  const TextDir := "parts_text"
  const TextExtension := ".txt"

  /** The options given to the library's recursive character splitter. */
  datatype SplitterConfig = SplitterConfig(chunkSize: int, chunkOverlap: int, separators: seq<string>)

  /** The splitter the service builds: chunks of at most 8000 characters,
      1600 characters (a fifth) of overlap, separators from section breaks
      down to the empty string, the character-level last resort. */
  function TextSplitterConfig(): (c: SplitterConfig)
    ensures c.chunkSize == 8000 && c.chunkOverlap == 1600
    ensures 0 <= c.chunkOverlap < c.chunkSize && c.chunkOverlap * 5 == c.chunkSize
    ensures |c.separators| == 6 && c.separators[0] == "\n\n\n" && c.separators[5] == ""
    ensures forall i :: 0 <= i < 5 ==> c.separators[i] != ""
  {
    SplitterConfig(8000, 1600, ["\n\n\n", "\n\n", "\n", ". ", " ", ""])
  }

  /** The library's `splitText`: the chunks of a text under a configuration. */
  type Splitter = (SplitterConfig, string) -> seq<string>

  /** Reading a file and its stats: the text, the size and the modification
      time (held as the JSON value the date serialises to), or the error. */
  datatype FileInfo = Unreadable(error: string) | Readable(content: string, size: nat, modified: Json)

  /** The text directory: its listing (or the error of `readdir`) and its files by path. */
  datatype Corpus = Corpus(listing: Result<seq<string>>, files: string -> FileInfo)

  predicate EndsWith(s: string, suffix: string) {
    |s| >= |suffix| && s[|s| - |suffix|..] == suffix
  }

  /** `files.filter((file) => file.endsWith('.txt'))` */
  function TextFiles(names: seq<string>): (r: seq<string>)
    ensures |r| <= |names|
    ensures forall n :: n in r <==> n in names && EndsWith(n, TextExtension)
  {
    if names == [] then []
    else (if EndsWith(names[0], TextExtension) then [names[0]] else []) + TextFiles(names[1..])
  }

  /** The filter keeps the listing's order: filtering two listings one
      after the other is filtering their concatenation. */
  lemma {:induction false} TextFilesOrder(a: seq<string>, b: seq<string>)
    ensures TextFiles(a + b) == TextFiles(a) + TextFiles(b)
  {
    if a == [] {
      assert a + b == b;
    } else {
      assert (a + b)[0] == a[0];
      assert (a + b)[1..] == a[1..] + b;
      TextFilesOrder(a[1..], b);
    }
  }

  /** `path.join('./parts_text', file)` for a directory entry. */
  function JoinPath(file: string): string {
    TextDir + "/" + file
  }

  /** `path.basename`: what follows the last `/`. Node also drops trailing
      separators first (`a/b/` gives `b`); here the result is then empty,
      which cannot happen for a joined directory entry, whose name holds no
      `/` and is never empty. */
  function Basename(path: string): (name: string)
    ensures '/' !in name
    ensures |name| <= |path| && name == path[|path| - |name|..]
    ensures |name| == |path| || path[|path| - |name| - 1] == '/'
  {
    if path == [] || path[|path| - 1] == '/' then []
    else Basename(path[..|path| - 1]) + [path[|path| - 1]]
  }

  /** The file name recorded in each chunk's metadata is the directory entry
      it was read from. */
  lemma {:induction false} BasenameOfJoin(dir: string, file: string)
    requires '/' !in file
    ensures Basename(dir + "/" + file) == file
  {
    var p := dir + "/" + file;
    if file != [] {
      var init := file[..|file| - 1];
      assert p[..|p| - 1] == dir + "/" + init;
      assert p[|p| - 1] == file[|file| - 1];
      BasenameOfJoin(dir, init);
      assert file == init + [file[|file| - 1]];
    }
  }

  /** The twelve keys every chunk's metadata carries. */
  const ChunkKeys: set<string> := {"type", "source", "fileName", "filePath", "fileSize", "chunkIndex",
    "totalChunks", "chunkStart", "chunkEnd", "lastModified", "encoding", "chunkSize"}

  /** The metadata of chunk `index` of `total` cut from one file: the chunk
      spans from 0 to its own length, which is also its size. */
  function ChunkMetadata(fileName: string, filePath: string, size: nat, modified: Json,
                         chunk: string, index: nat, total: nat): (m: Metadata)
    ensures m.Keys == ChunkKeys
    ensures m["chunkStart"] == Int(0) && m["chunkEnd"] == m["chunkSize"] == Int(|chunk|)
  {
    map[
      "type" := JStr("text"),
      "source" := JStr("local_file"),
      "fileName" := JStr(fileName),
      "filePath" := JStr(filePath),
      "fileSize" := Int(size),
      "chunkIndex" := Int(index),
      "totalChunks" := Int(total),
      "chunkStart" := Int(0),
      "chunkEnd" := Int(|chunk|),
      "lastModified" := modified,
      "encoding" := JStr("utf-8"),
      "chunkSize" := Int(|chunk|)
    ]
  }

  /** The `chunks.map((chunk, index) => ...)` of processTextFile. */
  function ChunkDocuments(chunks: seq<string>, fileName: string, filePath: string,
                          size: nat, modified: Json): (r: seq<ProcessedDocument>)
    ensures |r| == |chunks|
  {
    seq(|chunks|, i requires 0 <= i < |chunks| =>
      ProcessedDocument(chunks[i], ChunkMetadata(fileName, filePath, size, modified, chunks[i], i, |chunks|)))
  }

  /** One document per chunk, in chunk order: document `i` holds chunk `i`,
      records its position `i` and the number of chunks, starts at 0 and
      ends at (and has the size of) the chunk's length. */
  lemma ChunkDocumentAt(chunks: seq<string>, fileName: string, filePath: string,
                        size: nat, modified: Json, i: int)
    requires 0 <= i < |chunks|
    ensures var d := ChunkDocuments(chunks, fileName, filePath, size, modified)[i];
      d.pageContent == chunks[i] &&
      d.metadata["chunkIndex"] == Int(i) &&
      d.metadata["totalChunks"] == Int(|chunks|) &&
      d.metadata["chunkStart"] == Int(0) &&
      d.metadata["chunkEnd"] == d.metadata["chunkSize"] == Int(|chunks[i]|) &&
      d.metadata["fileName"] == JStr(fileName)
  {
  }

  /** The chunks can be read back from the documents, so nothing is lost or
      reordered, and the recorded positions are exactly `0 .. |chunks|-1`. */
  lemma ChunkDocumentsInverse(chunks: seq<string>, fileName: string, filePath: string,
                              size: nat, modified: Json)
    ensures var ds := ChunkDocuments(chunks, fileName, filePath, size, modified);
      seq(|ds|, i requires 0 <= i < |ds| => ds[i].pageContent) == chunks &&
      (forall i, j :: 0 <= i < |ds| && 0 <= j < |ds| && ds[i].metadata["chunkIndex"] == ds[j].metadata["chunkIndex"] ==> i == j)
  {
    var ds := ChunkDocuments(chunks, fileName, filePath, size, modified);
    forall i, j | 0 <= i < |ds| && 0 <= j < |ds| && ds[i].metadata["chunkIndex"] == ds[j].metadata["chunkIndex"]
      ensures i == j
    {
      ChunkDocumentAt(chunks, fileName, filePath, size, modified, i);
      ChunkDocumentAt(chunks, fileName, filePath, size, modified, j);
    }
  }

  /** `processTextFile`: read errors are rethrown; otherwise the file's text
      is split with the configured splitter and mapped to chunk documents. */
  function ProcessTextFile(corpus: Corpus, split: Splitter, config: SplitterConfig, filePath: string): (r: Result<seq<ProcessedDocument>>)
    ensures corpus.files(filePath).Unreadable? ==> r == Err(corpus.files(filePath).error)
    ensures corpus.files(filePath).Readable? ==>
      r.Ok? && |r.value| == |split(config, corpus.files(filePath).content)|
  {
    match corpus.files(filePath)
    case Unreadable(e) => Err(e)
    case Readable(content, size, modified) =>
      Ok(ChunkDocuments(split(config, content), Basename(filePath), filePath, size, modified))
  }

  /** The documents of `names` in order, stopping at the first file that
      cannot be processed. */
  function CollectDocuments(corpus: Corpus, split: Splitter, config: SplitterConfig, names: seq<string>): Result<seq<ProcessedDocument>>
  {
    if names == [] then Ok([])
    else
      match CollectDocuments(corpus, split, config, names[..|names| - 1])
      case Err(e) => Err(e)
      case Ok(earlier) =>
        match ProcessTextFile(corpus, split, config, JoinPath(names[|names| - 1]))
        case Err(e) => Err(e)
        case Ok(docs) => Ok(earlier + docs)
  }

  /** Collecting one more file extends the collection of the files before it. */
  lemma CollectStep(corpus: Corpus, split: Splitter, config: SplitterConfig, names: seq<string>, i: nat)
    requires i < |names| && CollectDocuments(corpus, split, config, names[..i]).Ok?
    ensures var docs := ProcessTextFile(corpus, split, config, JoinPath(names[i]));
      CollectDocuments(corpus, split, config, names[..i + 1]) ==
        if docs.Err? then Err(docs.error)
        else Ok(CollectDocuments(corpus, split, config, names[..i]).value + docs.value)
  {
    assert names[..i + 1][..i] == names[..i];
    assert names[..i + 1][i] == names[i];
  }

  /** What `processAllTextFiles` gives: the concatenation, in listing order,
      of the documents of every `.txt` entry, or the first error. */
  function AllTextDocuments(corpus: Corpus, split: Splitter, config: SplitterConfig): Result<seq<ProcessedDocument>> {
    match corpus.listing
    case Err(e) => Err(e)
    case Ok(names) => CollectDocuments(corpus, split, config, TextFiles(names))
  }

  /** Once a prefix of the files fails, the whole collection fails with
      that error. */
  lemma {:induction false} CollectErrorPersists(corpus: Corpus, split: Splitter, config: SplitterConfig, names: seq<string>, n: nat)
    requires n <= |names|
    requires CollectDocuments(corpus, split, config, names[..n]).Err?
    ensures CollectDocuments(corpus, split, config, names) == CollectDocuments(corpus, split, config, names[..n])
    decreases |names|
  {
    if n < |names| {
      var init := names[..|names| - 1];
      assert init[..n] == names[..n];
      CollectErrorPersists(corpus, split, config, init, n);
    } else {
      assert names[..n] == names;
    }
  }

  /** The number of documents one file contributes (0 if it cannot be read). */
  function FileDocumentCount(corpus: Corpus, split: Splitter, config: SplitterConfig, name: string): nat {
    var r := ProcessTextFile(corpus, split, config, JoinPath(name));
    if r.Ok? then |r.value| else 0
  }

  function SumDocumentCounts(corpus: Corpus, split: Splitter, config: SplitterConfig, names: seq<string>): nat {
    if names == [] then 0
    else SumDocumentCounts(corpus, split, config, names[..|names| - 1]) + FileDocumentCount(corpus, split, config, names[|names| - 1])
  }

  /** A successful collection holds exactly the per-file documents: its
      length is the sum of the per-file counts, and every file was read. */
  lemma {:induction false} CollectLength(corpus: Corpus, split: Splitter, config: SplitterConfig, names: seq<string>)
    requires CollectDocuments(corpus, split, config, names).Ok?
    ensures |CollectDocuments(corpus, split, config, names).value| == SumDocumentCounts(corpus, split, config, names)
    ensures forall n :: n in names ==> ProcessTextFile(corpus, split, config, JoinPath(n)).Ok?
  {
    if names != [] {
      var init := names[..|names| - 1];
      CollectLength(corpus, split, config, init);
      assert names == init + [names[|names| - 1]];
    }
  }

  /** Every document of a successful collection names, as its file, an
      entry of the collected list (entries hold no `/`). */
  lemma {:induction false} CollectFileNames(corpus: Corpus, split: Splitter, config: SplitterConfig, names: seq<string>)
    requires forall n :: n in names ==> '/' !in n
    requires CollectDocuments(corpus, split, config, names).Ok?
    ensures forall d :: d in CollectDocuments(corpus, split, config, names).value ==>
      "fileName" in d.metadata && d.metadata["fileName"].JStr? && d.metadata["fileName"].s in names
  {
    if names != [] {
      var init := names[..|names| - 1];
      var last := names[|names| - 1];
      CollectFileNames(corpus, split, config, init);
      BasenameOfJoin(TextDir, last);
      var earlier := CollectDocuments(corpus, split, config, init).value;
      var docs := ProcessTextFile(corpus, split, config, JoinPath(last)).value;
      forall d: ProcessedDocument | d in earlier + docs
        ensures "fileName" in d.metadata && d.metadata["fileName"].JStr? && d.metadata["fileName"].s in names
      {
        if d in earlier {
          assert forall n :: n in init ==> n in names;
        } else {
          var i :| 0 <= i < |docs| && docs[i] == d;
          var info := corpus.files(JoinPath(last));
          ChunkDocumentAt(split(config, info.content), Basename(JoinPath(last)), JoinPath(last), info.size, info.modified, i);
        }
      }
    }
  }

  /** Only `.txt` entries are ingested: every document produced names a
      directory entry ending in `.txt`, and the count is the sum over those
      entries alone. */
  lemma OnlyTextFiles(corpus: Corpus, split: Splitter, config: SplitterConfig)
    requires corpus.listing.Ok? && forall n :: n in corpus.listing.value ==> '/' !in n
    requires AllTextDocuments(corpus, split, config).Ok?
    ensures forall d :: d in AllTextDocuments(corpus, split, config).value ==>
      "fileName" in d.metadata && d.metadata["fileName"].JStr? &&
      EndsWith(d.metadata["fileName"].s, TextExtension) && d.metadata["fileName"].s in corpus.listing.value
    ensures |AllTextDocuments(corpus, split, config).value| ==
      SumDocumentCounts(corpus, split, config, TextFiles(corpus.listing.value))
  {
    var names := TextFiles(corpus.listing.value);
    CollectFileNames(corpus, split, config, names);
    CollectLength(corpus, split, config, names);
  }

  /** `processAllTextFiles`: lists the directory, keeps the `.txt` entries
      and appends each file's documents in turn; the first error is
      rethrown. */
  method ProcessAllTextFiles(corpus: Corpus, split: Splitter, config: SplitterConfig) returns (r: Result<seq<ProcessedDocument>>)
    ensures r == AllTextDocuments(corpus, split, config)
  {
    if corpus.listing.Err? {
      return Err(corpus.listing.error);
    }
    var textFiles := TextFiles(corpus.listing.value);
    var allDocuments: seq<ProcessedDocument> := [];
    var i := 0;
    while i < |textFiles|
      invariant 0 <= i <= |textFiles|
      invariant CollectDocuments(corpus, split, config, textFiles[..i]) == Ok(allDocuments)
    {
      var documents := ProcessTextFile(corpus, split, config, JoinPath(textFiles[i]));
      CollectStep(corpus, split, config, textFiles, i);
      if documents.Err? {
        CollectErrorPersists(corpus, split, config, textFiles, i + 1);
        return Err(documents.error);
      }
      allDocuments := allDocuments + documents.value;
      i := i + 1;
    }
    assert textFiles[..i] == textFiles;
    r := Ok(allDocuments);
  }

  /** What `ingestDocuments` completes with: nothing to do when the store
      already has documents or the corpus is empty; otherwise the outcome of
      adding to the vector store and then initialising the ensemble. */
  function IngestOutcome(count: nat, documents: Result<seq<ProcessedDocument>>, storeReady: bool,
                         embed: Outcome, save: Outcome, build: Outcome): (r: Outcome)
    ensures count > 0 ==> r == Pass
    ensures count == 0 && documents.Ok? && documents.value != [] ==>
      (r.Pass? <==> storeReady && embed.Pass? && save.Pass? && build.Pass?)
    ensures r.Fail? ==>
      (documents.Err? && r.error == documents.error) || r == Fail(StoreUndefined) ||
      r == embed || r == save || r == build
  {
    if count > 0 then Pass
    else if documents.Err? then Fail(documents.error)
    else if documents.value == [] then Pass
    else if !storeReady then Fail(StoreUndefined)
    else if embed.Fail? then embed
    else if save.Fail? then save
    else build
  }

  class IngestService {
    const vectorStoreService: VectorStoreService
    const ensembleService: EnsembleService
    const textSplitter: SplitterConfig
    /** `isIngested` */
    var isIngested: bool

    ghost predicate Valid()
      reads this, vectorStoreService, ensembleService
    {
      ensembleService.vectorStoreService == vectorStoreService &&
      vectorStoreService.Valid() && ensembleService.Valid()
    }

    constructor (vectorStore: VectorStoreService, ensemble: EnsembleService)
      requires ensemble.vectorStoreService == vectorStore
      requires vectorStore.Valid() && ensemble.Valid()
      ensures Valid() && vectorStoreService == vectorStore && ensembleService == ensemble
      ensures textSplitter == TextSplitterConfig() && !isIngested
    {
      vectorStoreService := vectorStore;
      ensembleService := ensemble;
      textSplitter := TextSplitterConfig();
      isIngested := false;
    }

    /** The ingestion has work to do: the store is empty and the corpus
        yields documents. */
    ghost predicate HasWork(docstore: StoredFile, corpus: Corpus, split: Splitter)
      reads this
    {
      GetDocumentCount(docstore) == 0 &&
      AllTextDocuments(corpus, split, textSplitter).Ok? &&
      AllTextDocuments(corpus, split, textSplitter).value != []
    }

    /** `ingestDocuments`. With documents already in the store it returns
        without reading files or touching either service; with an empty
        corpus it does nothing and raises nothing. Otherwise it adds the
        documents to the vector store first and then initialises the
        ensemble with the same list, so the ensemble's vector retriever
        wraps an index that already holds them; any error is rethrown. */
    method IngestDocuments(docstore: StoredFile, corpus: Corpus, split: Splitter,
                           embed: Outcome, save: Outcome, build: Outcome) returns (r: Outcome)
      requires Valid()
      modifies vectorStoreService, ensembleService
      ensures Valid()
      ensures r == IngestOutcome(GetDocumentCount(docstore), AllTextDocuments(corpus, split, textSplitter),
                                 old(vectorStoreService.isInitialized), embed, save, build)
      ensures !HasWork(docstore, corpus, split) ==> unchanged(vectorStoreService, ensembleService)
      ensures vectorStoreService.isInitialized == old(vectorStoreService.isInitialized)
      ensures old(ensembleService.isInitialized) ==> ensembleService.isInitialized
      ensures r.Fail? ==> unchanged(ensembleService)
      ensures HasWork(docstore, corpus, split) && (!old(vectorStoreService.isInitialized) || embed.Fail?) ==>
        unchanged(vectorStoreService)
      ensures HasWork(docstore, corpus, split) && old(vectorStoreService.isInitialized) && embed.Pass? ==>
        vectorStoreService.vectorStore == Some(HnswIndex(old(vectorStoreService.vectorStore).value.docs +
          ToDocuments(AllTextDocuments(corpus, split, textSplitter).value)))
      ensures HasWork(docstore, corpus, split) && old(vectorStoreService.isInitialized) && embed.Pass? ==>
        vectorStoreService.saved == old(vectorStoreService.saved) +
          (if save.Pass? then [vectorStoreService.vectorStore.value] else [])
      ensures HasWork(docstore, corpus, split) && r.Pass? ==>
        var docs := ToDocuments(AllTextDocuments(corpus, split, textSplitter).value);
        vectorStoreService.saved == old(vectorStoreService.saved) + [vectorStoreService.vectorStore.value] &&
        ensembleService.isInitialized &&
        ensembleService.ensembleRetriever == Some(FusedConfig(docs, vectorStoreService.vectorStore.value)) &&
        vectorStoreService.vectorStore.value.docs[|vectorStoreService.vectorStore.value.docs| - |docs|..] == docs
    {
      var currentCount := GetDocumentCount(docstore);
      if currentCount > 0 {
        return Pass;
      }
      var documents := ProcessAllTextFiles(corpus, split, textSplitter);
      if documents.Err? {
        return Fail(documents.error);
      }
      if |documents.value| == 0 {
        return Pass;
      }
      r := vectorStoreService.AddDocuments(documents.value, embed, save);
      if r.Fail? {
        return;
      }
      r := ensembleService.InitializeWithDocuments(documents.value, build);
    }

    /** `onModuleInit`: runs the ingestion once; the flag is set only when
        it succeeds, and a failure is rethrown with the flag still false. A
        run leaves the two services as `ingestDocuments` does. */
    method OnModuleInit(docstore: StoredFile, corpus: Corpus, split: Splitter,
                        embed: Outcome, save: Outcome, build: Outcome) returns (r: Outcome)
      requires Valid()
      modifies this, vectorStoreService, ensembleService
      ensures Valid()
      ensures old(isIngested) ==> r == Pass && unchanged(this, vectorStoreService, ensembleService)
      ensures !old(isIngested) ==>
        r == IngestOutcome(GetDocumentCount(docstore), AllTextDocuments(corpus, split, textSplitter),
                           old(vectorStoreService.isInitialized), embed, save, build)
      ensures isIngested <==> old(isIngested) || r.Pass?
      ensures vectorStoreService.isInitialized == old(vectorStoreService.isInitialized)
      ensures old(ensembleService.isInitialized) ==> ensembleService.isInitialized
      ensures r.Fail? ==> unchanged(ensembleService)
      ensures !old(isIngested) && !HasWork(docstore, corpus, split) ==> unchanged(vectorStoreService, ensembleService)
      ensures !old(isIngested) && HasWork(docstore, corpus, split) && (!old(vectorStoreService.isInitialized) || embed.Fail?) ==>
        unchanged(vectorStoreService)
      ensures !old(isIngested) && HasWork(docstore, corpus, split) && old(vectorStoreService.isInitialized) && embed.Pass? ==>
        vectorStoreService.vectorStore == Some(HnswIndex(old(vectorStoreService.vectorStore).value.docs +
          ToDocuments(AllTextDocuments(corpus, split, textSplitter).value))) &&
        vectorStoreService.saved == old(vectorStoreService.saved) +
          (if save.Pass? then [vectorStoreService.vectorStore.value] else [])
      ensures !old(isIngested) && HasWork(docstore, corpus, split) && r.Pass? ==>
        var docs := ToDocuments(AllTextDocuments(corpus, split, textSplitter).value);
        ensembleService.isInitialized &&
        ensembleService.ensembleRetriever == Some(FusedConfig(docs, vectorStoreService.vectorStore.value)) &&
        vectorStoreService.vectorStore.value.docs[|vectorStoreService.vectorStore.value.docs| - |docs|..] == docs
    {
      if isIngested {
        return Pass;
      }
      r := IngestDocuments(docstore, corpus, split, embed, save, build);
      if r.Pass? {
        isIngested := true;
      }
    }
  }
}
