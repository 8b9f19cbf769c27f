# A verified model of a legal-document question-answering service

The modelled service answers questions about a corpus of legal texts, the
Civil Procedure Rules. At start-up it splits text files into chunks and
stores them in an HNSW vector index. It also builds an "ensemble"
retriever, which fuses BM25 keyword search with vector search by weighted
reciprocal-rank fusion.

A query goes through four steps:

1. The request body is validated.
2. Up to 12 documents are retrieved. If the ensemble is not ready, or its
   search throws, retrieval falls back to vector search.
3. The documents are rendered into a context, and a language model answers
   from it.
4. A second model call scores the answer on eight legal metrics. That
   evaluation never fails: on any problem it gives scores of all ones.

The Dafny project has one module per service of the core, plus two shared
modules:

- `values.dfy` (`JsValues`) holds the JavaScript values the services handle:
  - `Option`, `Result` and `Outcome`. An `Err` or `Fail` is a thrown error.
  - Numbers with NaN and the infinities.
  - JSON values, truthiness, and property access.
- `documents.dfy` (`Documents`) holds the application's `ProcessedDocument`
  and the retrieval library's `Document`, and the conversions between them.
- `vector_store.dfy` (`VectorStore`) is the `VectorStoreService` class. Its
  fields are the initialisation flag and the store, which its methods update
  in place.
- `ensemble.dfy` (`Ensemble`) is the `EnsembleService` class. It covers the
  retriever configuration, loading documents from the docstore, and search
  with fallback.
- `ingest.dfy` (`Ingest`) is the `IngestService` class. It covers the file
  listing, chunk metadata, the loop that collects the documents, and the
  ingestion sequence.
- `evaluation.dfy` (`Evaluation`) covers:
  - score validation, which is a loop with an early return;
  - filling in the overall score;
  - the all-ones default;
  - the reliability self-test.
- `query.dfy` (`Query`) covers context formatting and the query pipeline.
  It spells out JavaScript's string conversion of numbers and values.
- `query_dto.dfy` (`QueryDto`) holds the validation rules on the query
  message.

Calls into libraries and the outside world are parameters:

- the vector index's search;
- the fused retriever's `invoke`;
- the text splitter;
- the file system and `JSON.parse`;
- the language model.

Each is an oracle function of its arguments, or an `Outcome` saying whether
the call threw. Properties therefore hold for every behaviour of those
components.

## Model

| member | source | states |
|---|---|---|
| Documents.ToDocuments | src/modules/ensemble/ensemble.service.ts:192-202 | one library document per input, in order, with the same text and metadata |
| Documents.ToProcessedDocuments | src/modules/ensemble/ensemble.service.ts:204-212 | one processed document per library document, in order, with the same text and metadata |
| Documents.DocumentRoundTrip | src/modules/ensemble/ensemble.service.ts:192-212 | converting to the library's documents and back gives the original list |
| VectorStore.GetDocumentCount | src/modules/vector-store/vector-store.service.ts:96-115 | the count is the length of the parsed docstore when it is an array and 0 in every other case (missing, unparsable, not an array); it is positive exactly for a non-empty array |
| VectorStore.WithScore | src/modules/vector-store/vector-store.service.ts:136-144 | a hit keeps its text and every metadata key; `score` is added or overridden with the library's score |
| VectorStore.TagScores | src/modules/vector-store/vector-store.service.ts:136-144 | one result per hit, in the library's order |
| VectorStore.TagScoresPreservesHits | src/modules/vector-store/vector-store.service.ts:131-144 | result `i` carries hit `i`'s text, and reading back its `score` gives hit `i`'s score |
| VectorStore.VectorStoreService.constructor | src/modules/vector-store/vector-store.service.ts:11-22 | a new service is uninitialised, holds no store and has saved nothing |
| VectorStore.VectorStoreService.GetVectorStore | src/modules/vector-store/vector-store.service.ts:32-37 | fails with "Vector store not initialized" exactly when not initialised; otherwise returns the store |
| VectorStore.VectorStoreService.InitializeStore | src/modules/vector-store/vector-store.service.ts:39-66 | does nothing once initialised; loads the index when the docstore exists and creates an empty one otherwise; sets the flag only on success; a failure is rethrown and leaves the service unchanged |
| VectorStore.VectorStoreService.AddDocuments | src/modules/vector-store/vector-store.service.ts:68-94 | throws while the store is undefined; an embedding failure changes nothing; otherwise the store holds its old documents followed by the new ones, in order; a save failure is rethrown after the in-memory add; only a successful save records the index as saved |
| VectorStore.VectorStoreService.SimilaritySearch | src/modules/vector-store/vector-store.service.ts:124-153 | throws while the store is undefined; a library error is rethrown; otherwise it returns one result per library hit, in order, with the hit's text and metadata plus its score |
| Ensemble.FusedConfig | src/modules/ensemble/ensemble.service.ts:172-190 | BM25 then vector retriever, both with k = 12, weights 0.4 and 0.6 (each in [0,1], summing to 1), and RRF constant 60 |
| Ensemble.LoadedDocument | src/modules/ensemble/ensemble.service.ts:163-169 | a stored record becomes a document unless it is null, in which case reading it throws |
| Ensemble.LoadDocumentsFromStorage | src/modules/ensemble/ensemble.service.ts:151-170 | fails unless the docstore parses to a non-empty array; it succeeds exactly when no record is null, with one document per record, in order, defaulting to the empty text and `{}` |
| Ensemble.CountMatchesLoad | src/modules/ensemble/ensemble.service.ts:117-149 | whenever loading succeeds the vector store's count equals the number of loaded documents; a positive count with no null record makes loading succeed |
| Ensemble.ConvertToProcessedDocuments | src/modules/ensemble/ensemble.service.ts:204-212 | the first `limit` documents are copied in order, clamped to the list length; a negative limit counts from the end, as `slice` does |
| Ensemble.EnsembleService.constructor | src/modules/ensemble/ensemble.service.ts:33-38 | a new service is not ready and has no retriever |
| Ensemble.EnsembleService.Search | src/modules/ensemble/ensemble.service.ts:51-82 | when not ready, or when the fused retriever throws, the result is exactly the vector store's search with the same query and limit; otherwise the first `limit` fused documents are returned, in order and unchanged |
| Ensemble.EnsembleService.FallbackToVectorSearch | src/modules/ensemble/ensemble.service.ts:109-115 | the vector store's search with the same query and `limit` as `k`: the undefined-store error before initialisation, otherwise the library's error or one document per hit carrying its text and its score |
| Ensemble.EnsembleService.CreateEnsembleRetriever | src/modules/ensemble/ensemble.service.ts:172-190 | a BM25 build failure is rethrown; an uninitialised vector store gives "Vector store not initialized"; it succeeds exactly otherwise, installing the fused configuration over the documents and the current store; a failure leaves the retriever unchanged |
| Ensemble.EnsembleService.InitializeWithDocuments | src/modules/ensemble/ensemble.service.ts:89-104 | the service becomes ready only when the retriever was built, with the configuration over the converted documents; errors are rethrown with the service unchanged; readiness is never lost |
| Ensemble.EnsembleService.LoadDocumentsAndInitialize | src/modules/ensemble/ensemble.service.ts:138-149 | succeeds exactly when loading succeeds and the retriever can be built, and then the service is ready over the loaded documents; otherwise it is unchanged |
| Ensemble.EnsembleService.InitializeIfNeeded | src/modules/ensemble/ensemble.service.ts:117-136 | nothing changes when the service is already ready or the store's count is 0; otherwise it loads and initialises, swallowing any error |
| Ingest.TextSplitterConfig | src/modules/ingest/ingest.service.ts:19-30 | chunk size 8000 and overlap 1600, which is 20% and less than the size; six separators from section breaks down to the empty string, which comes only last |
| Ingest.TextFiles | src/modules/ingest/ingest.service.ts:81 | a name is kept exactly when it is listed and ends in ".txt" |
| Ingest.TextFilesOrder | src/modules/ingest/ingest.service.ts:81 | the filter keeps listing order: filtering a concatenation is the concatenation of the filtered parts |
| Ingest.Basename | src/modules/ingest/ingest.service.ts:103 | the base name holds no "/" and is the suffix of the path that is either all of it or follows its last "/" |
| Ingest.BasenameOfJoin | src/modules/ingest/ingest.service.ts:88-103 | the base name of the joined path of a listed file is that file's name |
| Ingest.ChunkDocuments | src/modules/ingest/ingest.service.ts:116-134 | one document per chunk |
| Ingest.ChunkDocumentAt | src/modules/ingest/ingest.service.ts:116-134 | document `i` holds chunk `i`, chunk index `i`, the chunk count, start 0, end and size equal to the chunk's length, and the file name |
| Ingest.ChunkMetadata | src/modules/ingest/ingest.service.ts:119-132 | a chunk's metadata has exactly the twelve keys the source writes, starts at 0, and ends at its own length, which is also its size |
| Ingest.IngestOutcome | src/modules/ingest/ingest.service.ts:40-74 | a store that already has documents means success; with work to do it succeeds exactly when the store is ready and embedding, saving and building all succeed; any failure is one of those steps' errors |
| Ingest.ChunkDocumentsInverse | src/modules/ingest/ingest.service.ts:116-134 | the chunks read back from the documents are the original chunks in order, and no two documents share a chunk index |
| Ingest.ProcessTextFile | src/modules/ingest/ingest.service.ts:101-142 | a read error is rethrown; otherwise the result has one document per chunk of the configured split of the file's text |
| Ingest.CollectErrorPersists | src/modules/ingest/ingest.service.ts:86-91 | once a file fails, the collection stays failed with that file's error, whatever files follow |
| Ingest.CollectLength | src/modules/ingest/ingest.service.ts:86-91 | a successful collection has exactly as many documents as all the files' chunks together, and every file was processed |
| Ingest.CollectFileNames | src/modules/ingest/ingest.service.ts:86-134 | every collected document names, as its file, one of the processed files |
| Ingest.OnlyTextFiles | src/modules/ingest/ingest.service.ts:76-99 | every ingested document comes from a listed ".txt" file, and the total is the sum of those files' chunk counts |
| Ingest.ProcessAllTextFiles | src/modules/ingest/ingest.service.ts:76-99 | the loop over the text files returns the documents of all of them in listing order, or the listing's or the first failing file's error |
| Ingest.IngestService.constructor | src/modules/ingest/ingest.service.ts:11-31 | a new service holds the splitter configuration and is not ingested |
| Ingest.IngestService.IngestDocuments | src/modules/ingest/ingest.service.ts:40-74 | with documents already stored, or an empty corpus, nothing changes; otherwise the documents are added to the vector store first, then the ensemble is initialised over the same list, so the store ends with those documents; an undefined store or an embedding failure leaves the vector store unchanged; once embedding passed, a save is recorded exactly when it succeeds; errors are rethrown with the ensemble unchanged |
| Ingest.IngestService.OnModuleInit | src/modules/ingest/ingest.service.ts:33-38 | runs the ingestion only when not yet ingested; the flag is set exactly when a run succeeds; a run leaves both services as the ingestion does, so a successful first run with work to do leaves the ensemble ready over the ingested documents, which the vector store now ends with |
| Evaluation.DefaultEvaluation | src/modules/evaluation/evaluation.service.ts:214-226 | all eight metrics and the overall score are 1 |
| Evaluation.SourceSummaries | src/modules/evaluation/evaluation.service.ts:28-32 | one summary per source, holding the first 500 characters of its text (all of a shorter text) and its score, or 0 when the score is absent or falsy |
| Evaluation.OverallScore | src/modules/evaluation/evaluation.service.ts:66-82 | a truthy overall score is kept; otherwise it is filled in with a finite number in [1, 10], the mean of the validated metrics |
| Evaluation.EvaluationOf | src/modules/evaluation/evaluation.service.ts:59-98 | only scores that pass validation give anything but the default |
| Evaluation.Evaluate | src/modules/evaluation/evaluation.service.ts:19-103 | a result other than the default needs a buildable prompt, a parsed reply and validated scores |
| Evaluation.ValidScoreExactly | src/modules/evaluation/evaluation.service.ts:121-131 | a metric passes exactly when it is a finite number from 1 to 10; NaN and the infinities fail |
| Evaluation.ValidateScores | src/modules/evaluation/evaluation.service.ts:108-134 | returns true exactly when all eight required metrics pass (and the scores are then an object); `overallScore` is not checked |
| Evaluation.MeanBounds | src/modules/evaluation/evaluation.service.ts:77-81 | the mean of a non-empty list of values in [lo, hi] lies in [lo, hi] |
| Evaluation.AllValidKept | src/modules/evaluation/evaluation.service.ts:67-76 | when every value passes validation, the numeric filter keeps all of them, in order, and each is finite in [1, 10] |
| Evaluation.MeanOfValidated | src/modules/evaluation/evaluation.service.ts:66-82 | after validation the filter keeps all eight metrics, and their mean lies in [1, 10] |
| Evaluation.PromptBuildableExactly | src/common/constants/evaluation-prompts.ts:45-52 | the evaluation prompt can be built exactly when no source has a truthy score that is not a number, since `toFixed` throws on anything else |
| Evaluation.DefaultOnFailure | src/modules/evaluation/evaluation.service.ts:28-102 | a source score the prompt cannot print, a failed model call, an unparsable reply, failed validation, or a truthy non-numeric overall score (whose `toFixed` throws) each give the default |
| Evaluation.ValidScoresPassThrough | src/modules/evaluation/evaluation.service.ts:59-98 | for validated scores the eight metrics come back as parsed; the overall score is the given one when truthy, else the mean of the eight, which lies in [1, 10] |
| Evaluation.MetricsInRange | src/modules/evaluation/evaluation.service.ts:19-103 | whatever the model replies, the eight returned metrics are finite numbers in [1, 10] |
| Evaluation.EvaluateLegalQuery | src/modules/evaluation/evaluation.service.ts:19-103 | the method (prompt check, validation loop, in-place fill of the overall score) returns exactly the evaluation the specification function defines, and never fails |
| Evaluation.MetricByName | src/modules/evaluation/evaluation.service.ts:196-198 | looking a metric up by name gives the metric at that name's position |
| Evaluation.HighScoreCount | src/modules/evaluation/evaluation.service.ts:196-198 | the count of expected metrics scoring at least 7 is at most the number expected |
| Evaluation.CaseAccuracy | src/modules/evaluation/evaluation.service.ts:200 | a case's accuracy is in [0, 1] |
| Evaluation.TotalsBounded | src/modules/evaluation/evaluation.service.ts:174-201 | after `n` cases both running totals are in [0, n] |
| Evaluation.ScoreCase | src/modules/evaluation/evaluation.service.ts:178-201 | one pass of the loop gives the case's accuracy (the share of its expected metrics at 7 or more) and consistency (1 when the overall score is at least 6) for the evaluation of that case |
| Evaluation.TestDocuments | src/modules/evaluation/evaluation.service.ts:182-192 | each test source becomes one document with its text, file name and numeric score, so the evaluation prompt over them can always be built |
| Evaluation.TestEvaluationReliability | src/modules/evaluation/evaluation.service.ts:139-212 | two test cases; consistency and accuracy are the per-case totals divided by 2, and both lie in [0, 1] |
| Query.NatText | src/modules/query/query.service.ts:106 | the decimal numeral is non-empty, all digits, with no leading zero |
| Query.NatTextRoundTrip | src/modules/query/query.service.ts:106 | reading the numeral back gives the number |
| Query.RenderDocumentShape | src/modules/query/query.service.ts:105-115 | rendering fails exactly when the score is defined but not a number; otherwise the text starts with "[" and the name, and ends with "]", a newline and the document's text |
| Query.RenderDocument | src/modules/query/query.service.ts:105-115 | a failure is one of the two `toFixed` TypeErrors, the one about null exactly when the score is null |
| Query.FallbackName | src/modules/query/query.service.ts:106 | a document without a truthy file name is called "Document " followed by the numeral of its position plus one |
| Query.RenderIngestedChunk | src/modules/query/query.service.ts:105-115 | a chunk with the metadata ingestion writes renders as `[file (Chunk k+1/total) [Score: s]]`, a newline and its text |
| Query.RenderFrom | src/modules/query/query.service.ts:104-116 | every document is rendered with its own index, in order; the map fails, with a failing document's error, exactly when some document cannot be rendered |
| Query.JoinLength | src/modules/query/query.service.ts:117 | joining no parts gives ""; joining `n > 0` parts gives their total length plus `n - 1` separators |
| Query.JoinEnds | src/modules/query/query.service.ts:117 | a join of at least one part opens with the first part and closes with the last |
| Query.FormatContextShape | src/modules/query/query.service.ts:103-118 | the empty list gives ""; formatting succeeds exactly when every document renders; `n > 0` documents give their renderings' total length plus `n - 1` separators, opening with the first rendering and closing with the last |
| Query.FormatDocumentsToContext | src/modules/query/query.service.ts:103-118 | no documents give ""; it succeeds exactly when every document renders at its own index, and a failure is some document's error |
| Query.RetrieveRelevantDocuments | src/modules/query/query.service.ts:70-86 | retrieval is the ensemble search, 12 documents by default; when the fused retriever answers, at most `limit` documents come back |
| Query.EmptyResponse | src/modules/query/query.service.ts:91-98 | the fixed "could not find" answer with no sources and no evaluation |
| Query.GenerateAnswer | src/modules/query/query.service.ts:123-133 | a formatting error is rethrown without calling the model; otherwise the answer is the model's reply to the formatted context, so an answer means every document rendered |
| Query.EvaluateResponse | src/modules/query/query.service.ts:138-165 | the evaluation is always present and is the evaluator's result |
| Query.AnsweredSourcesBuildPrompt | src/modules/query/query.service.ts:41-52 | once an answer has been generated, every source score was printable in the context, so the evaluation prompt can be built too |
| Query.ProcessQuery | src/modules/query/query.service.ts:21-65 | the method, which runs the evaluator's validation loop, returns exactly the query outcome whose retrieval, empty-result and answered paths the three lemmas below state |
| Query.QueryRetrieval | src/modules/query/query.service.ts:29-35 | a retrieval error, from the ensemble search with the limit 12, is rethrown unchanged |
| Query.EmptyRetrievalResponse | src/modules/query/query.service.ts:37-39 | when nothing is retrieved the response is the fixed answer with no sources and no evaluation, whatever the generator and judge would do |
| Query.AnsweredResponse | src/modules/query/query.service.ts:41-60 | on the non-empty path it succeeds exactly when generation does; the sources are the retrieved list, and the evaluation is present with its eight metrics in [1, 10] |
| QueryDto.MatchesPatternExactly | src/modules/query/query.dto.ts:19-21 | the pattern matches exactly the non-empty strings of allowed characters |
| QueryDto.ErrorMessages | src/modules/query/query.dto.ts:12-21 | the reported messages are exactly the messages of the broken constraints |
| QueryDto.ValidatorLength | src/modules/query/query.dto.ts:13-18 | the length the two length constraints measure is at most the character count, and equal to it exactly when the string holds no variation selector |
| QueryDto.AllowedLength | src/modules/query/query.dto.ts:13-21 | on a string the pattern allows, the measured length is the character count |
| QueryDto.Violations | src/modules/query/query.dto.ts:12-21 | "must be a string" is reported exactly for a missing or non-string message, and then with all three others; no violation means a length from 3 to 250 |
| QueryDto.AcceptedExactly | src/modules/query/query.dto.ts:12-22 | a message is accepted exactly when it is a string of 3 to 250 characters, each a letter, digit, white space or one of `[](),.?!-` |
| QueryDto.ViolationCauses | src/modules/query/query.dto.ts:13-21 | each constraint is broken exactly for its own cause, the two length constraints on the measured length (variation selectors not counted); "too short" and "too long" never occur together |
| QueryDto.VariationSelectorDiscounted | src/modules/query/query.dto.ts:13-15 | two letters followed by a variation selector measure 2, so they are reported too short as well as holding an invalid character |
| QueryDto.EmptyMessageRejected | src/modules/query/query.dto.ts:13-21 | the empty string breaks the minimum length and the pattern, and nothing else |
| QueryDto.NonStringRejected | src/modules/query/query.dto.ts:12-22 | a missing or non-string message breaks all four constraints |

## Left out

- The library algorithms are left out: BM25 scoring, reciprocal-rank fusion, HNSW nearest-neighbour search, embeddings and the recursive text splitter. They are oracles or `Outcome`s. Only the configuration the services pass to them is modelled.
- `AnthropicService` is not part of this model. Model calls are oracle functions that may fail.
- The prompt texts and `guardedPrompt` are left out. The generator and the judge take the query, the context and the source summaries directly. Of `createEvaluationPrompt` only its one failure is modelled: `toFixed` on a source score that is not a number.
- File I/O, directory listing, `fs.stat` and `JSON.parse` are left out. They are inputs: a file listing, a map from paths to contents, and the parsed docstore.
- Logging, `console.log`, `Date.now()` and the `queryTime`/`searchTime` fields are left out. They have no effect on results.
- The HTTP controller, dependency-injection wiring and module files are left out.
- Concurrency is left out. All calls are sequential, and the order in which the framework runs the services' `onModuleInit` hooks is not modelled.
- `VectorStoreService.onModuleInit` and `EnsembleService.onModuleInit` only delegate to `initializeStore` and `initializeIfNeeded`. They have no members of their own.
- Query.NumberText: the shortest round-trip decimal of a non-integral double and `toFixed(3)` are parameters (`Formatting`). Integers below 10^21, NaN and the infinities are spelled out.
- Numbers are reals. IEEE rounding, overflow and `-0` are not modelled.
- String lengths count Unicode scalar values; the JavaScript code counts UTF-16 units, so the two differ for text with characters outside the Basic Multilingual Plane. Request validation follows validator.js instead: its length counts a surrogate pair once, as here, and does not count the variation selectors U+FE0E and U+FE0F, which `ValidatorLength` discounts too.
- Ingest.ChunkMetadata: `chunkEnd` and `chunkSize` are the chunk's length in scalar values, where the source stores `chunk.length` in UTF-16 units; they differ for chunks holding characters outside the Basic Multilingual Plane.
- Evaluation.SourceSummaries: the 500-character cut counts scalar values, where `substring(0, 500)` counts UTF-16 units and can split a surrogate pair; the summaries differ for text with characters outside the Basic Multilingual Plane.
- Ensemble.LoadDocumentsFromStorage: a stored record whose `pageContent` is truthy but not a string, or whose `metadata` is truthy but not an object, gets the default, instead of being passed through to the library's constructor as is.
- Evaluation.ValidateScores: on `null` scores the source throws at the first property read, while the model returns false. Both lead to the default evaluation.
- Ensemble.FusedConfig: the vector retriever holds the store as it was when the ensemble was built. The source holds a live reference; no operation of the core changes the store afterwards, except the ingestion order that `IngestDocuments` states.
- The docstore's on-disk record layout is whatever the library writes. `GetDocumentCount` and `LoadDocumentsFromStorage` read it as a JSON array of records.
- Query.EvaluateResponse: the `undefined` branch of its `catch` is unreachable, because `EvaluateLegalQuery` never fails. The model therefore always returns an evaluation.
- Ingest.Basename: Node's `path.basename` drops trailing separators first (`a/b/` gives `b`); the model gives the empty name. A joined directory entry never ends in `/`, so ingestion is not affected.
- Failures inside the BM25 retriever's constructor are the `build` outcome.
