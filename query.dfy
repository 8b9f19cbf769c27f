/** The question-answering pipeline (src/modules/query/query.service.ts):
    retrieve up to 12 documents with the ensemble search, answer from them
    with the language model, and attach an evaluation of the answer. The
    model call is an oracle; formatting a non-integral number and
    `toFixed(3)` are parameters. */
module Query {
  import opened JsValues
  import opened Documents
  import opened VectorStore
  import opened Ensemble
  import opened Evaluation

  /** How many documents a query retrieves. */
  const RetrievalLimit := 12
  const EmptyAnswer := "I could not find any relevant information in the knowledge base to answer your question."
  /** What separates two rendered documents in the model's context. */
  const Separator := "\n\n---\n\n"
  /** The TypeErrors of `score.toFixed(3)` on null and on a value that is
      not a number. */
  const ToFixedOfNull := "Cannot read properties of null (reading 'toFixed')"
  const ToFixedNotFunction := "doc.metadata.score.toFixed is not a function"

  /** The number formatting the model does not spell out: the shortest
      decimal of a non-integral double, and `Number.prototype.toFixed(3)`. */
  datatype Formatting = Formatting(fraction: real -> string, toFixed3: Num -> string)

  /** The model call `createMessage(systemInstruction, guardedPrompt(query, context))`,
      as a function of the query and the context. */
  type Generate = (string, string) -> Result<string>

  datatype QueryResponse = QueryResponse(answer: string, sources: seq<ProcessedDocument>, evaluation: Option<LegalEvaluationMetrics>)

  // ----- JavaScript string conversion -----

  function Digit(d: nat): char
    requires d < 10
  {
    ('0' as int + d) as char
  }

  predicate IsDigit(c: char) {
    '0' <= c <= '9'
  }

  function DigitValue(c: char): nat
    requires IsDigit(c)
  {
    c as int - '0' as int
  }

  /** The decimal numeral of a natural number, without leading zeros. */
  function NatText(n: nat): (s: string)
    ensures |s| > 0 && forall c :: c in s ==> IsDigit(c)
    ensures s[0] == '0' ==> n == 0
    decreases n
  {
    if n < 10 then [Digit(n)] else NatText(n / 10) + [Digit(n % 10)]
  }

  /** The number a string of decimal digits denotes. */
  function DigitsValue(s: string): nat
    requires forall c :: c in s ==> IsDigit(c)
  {
    if s == [] then 0
    else
      assert s[|s| - 1] in s;
      assert forall c :: c in s[..|s| - 1] ==> c in s;
      DigitsValue(s[..|s| - 1]) * 10 + DigitValue(s[|s| - 1])
  }

  /** Reading a numeral back gives the number it was made from. */
  lemma {:induction false} NatTextRoundTrip(n: nat)
    ensures DigitsValue(NatText(n)) == n
    decreases n
  {
    if n >= 10 {
      var s := NatText(n);
      var init := NatText(n / 10);
      assert s == init + [Digit(n % 10)];
      assert s[..|s| - 1] == init;
      NatTextRoundTrip(n / 10);
    }
  }

  function IntText(i: int): string {
    if i < 0 then "-" + NatText(-i) else NatText(i)
  }

  /** `String(n)`: integers below 10^21 in decimal, NaN and the infinities
      by name, other values through `fmt.fraction`. */
  function NumberText(n: Num, fmt: Formatting): string {
    match n
    case NaN => "NaN"
    case Infinity(negative) => if negative then "-Infinity" else "Infinity"
    case Finite(r) =>
      if r == r.Floor as real && -1000000000000000000000.0 < r < 1000000000000000000000.0
      then IntText(r.Floor) else fmt.fraction(r)
  }

  /** `parts.join(sep)` */
  function Join(parts: seq<string>, sep: string): string {
    if |parts| == 0 then ""
    else if |parts| == 1 then parts[0]
    else Join(parts[..|parts| - 1], sep) + sep + parts[|parts| - 1]
  }

  /** `String(j)` as a template literal interpolates it. */
  function JsonText(j: Json, fmt: Formatting): string
    decreases j
  {
    match j
    case JNull => "null"
    case JBool(b) => if b then "true" else "false"
    case JNum(n) => NumberText(n, fmt)
    case JStr(s) => s
    case JArr(items) =>
      // Array.prototype.join: null elements become empty strings.
      Join(seq(|items|, k requires 0 <= k < |items| =>
             assert items[k] in items;
             if items[k].JNull? then "" else JsonText(items[k], fmt)), ",")
    case JObj(_) => "[object Object]"
  }

  /** `${v}` for a value that may be undefined. */
  function Show(v: Option<Json>, fmt: Formatting): string {
    match v
    case None => "undefined"
    case Some(j) => JsonText(j, fmt)
  }

  /** `${v + 1}` for a defined value: numeric addition for numbers, null and
      booleans; string concatenation for strings, arrays and objects. */
  function PlusOneText(v: Json, fmt: Formatting): string {
    match v
    case JNum(n) =>
      NumberText(match n
                 case Finite(r) => Finite(r + 1.0)
                 case NaN => NaN
                 case Infinity(negative) => Infinity(negative), fmt)
    case JNull => NumberText(Finite(1.0), fmt)
    case JBool(b) => NumberText(Finite(if b then 2.0 else 1.0), fmt)
    case _ => JsonText(v, fmt) + "1"
  }

  // ----- formatDocumentsToContext -----

  /** The name shown for document `index`: its file name, or
      "Document <index + 1>" when that is falsy. */
  function DocumentName(d: ProcessedDocument, index: nat, fmt: Formatting): string {
    var fileName := Get(JObj(d.metadata), "fileName");
    if Truthy(fileName) then JsonText(fileName.value, fmt) else "Document " + NatText(index + 1)
  }

  /** ` (Chunk <chunkIndex + 1>/<totalChunks>)`, empty when chunkIndex is undefined. */
  function ChunkInfo(d: ProcessedDocument, fmt: Formatting): string {
    var m := JObj(d.metadata);
    match Get(m, "chunkIndex")
    case None => ""
    case Some(k) => " (Chunk " + PlusOneText(k, fmt) + "/" + Show(Get(m, "totalChunks"), fmt) + ")"
  }

  /** One document of the context: `[name chunkInfo scoreInfo]` on a line of
      its own, then the text. A score that is defined but not a number makes
      `toFixed` throw. */
  function RenderDocument(d: ProcessedDocument, index: nat, fmt: Formatting): (r: Result<string>)
    ensures r.Err? ==> r.error == ToFixedOfNull || r.error == ToFixedNotFunction
    ensures r.Err? ==> (r.error == ToFixedOfNull <==> Get(JObj(d.metadata), "score") == Some(JNull))
  {
    var score := Get(JObj(d.metadata), "score");
    if score.Some? && !score.value.JNum? then
      Err(if score.value.JNull? then ToFixedOfNull else ToFixedNotFunction)
    else
      var scoreInfo := if score.Some? then " [Score: " + fmt.toFixed3(score.value.n) + "]" else "";
      Ok("[" + DocumentName(d, index, fmt) + ChunkInfo(d, fmt) + scoreInfo + "]\n" + d.pageContent)
  }

  /** Rendering fails exactly on a defined non-numeric score; otherwise the
      text opens with "[" and the name, and ends with "]" and a newline
      followed by the document's own text. */
  lemma RenderDocumentShape(d: ProcessedDocument, index: nat, fmt: Formatting)
    ensures var score := Get(JObj(d.metadata), "score");
      RenderDocument(d, index, fmt).Ok? <==> (score.None? || score.value.JNum?)
    ensures var r := RenderDocument(d, index, fmt);
      r.Ok? ==>
        var prefix := "[" + DocumentName(d, index, fmt);
        var suffix := "]\n" + d.pageContent;
        |r.value| >= |prefix| + |suffix| &&
        r.value[..|prefix|] == prefix && r.value[|r.value| - |suffix|..] == suffix
  {
    var r := RenderDocument(d, index, fmt);
    if r.Ok? {
      var score := Get(JObj(d.metadata), "score");
      var scoreInfo := if score.Some? then " [Score: " + fmt.toFixed3(score.value.n) + "]" else "";
      var prefix := "[" + DocumentName(d, index, fmt);
      var middle := ChunkInfo(d, fmt) + scoreInfo;
      var suffix := "]\n" + d.pageContent;
      assert r.value == prefix + middle + suffix;
    }
  }

  /** A document without a truthy file name is called "Document <index + 1>",
      and that numeral reads back as `index + 1`. */
  lemma FallbackName(d: ProcessedDocument, index: nat, fmt: Formatting)
    requires !Truthy(Get(JObj(d.metadata), "fileName"))
    ensures DocumentName(d, index, fmt) == "Document " + NatText(index + 1)
    ensures DigitsValue(NatText(index + 1)) == index + 1
  {
    NatTextRoundTrip(index + 1);
  }

  /** The chunk information of a chunk with an integer index and count. */
  lemma IngestedChunkInfo(d: ProcessedDocument, fmt: Formatting, k: nat, total: nat)
    requires k + 1 < 1000000000000000000000 && total < 1000000000000000000000
    requires "chunkIndex" in d.metadata && d.metadata["chunkIndex"] == Int(k)
    requires "totalChunks" in d.metadata && d.metadata["totalChunks"] == Int(total)
    ensures ChunkInfo(d, fmt) == " (Chunk " + NatText(k + 1) + "/" + NatText(total) + ")"
  {
    assert (k as real + 1.0).Floor == k + 1;
    assert NumberText(Finite(k as real + 1.0), fmt) == NatText(k + 1);
    assert PlusOneText(Int(k), fmt) == NatText(k + 1);
    assert (total as real).Floor == total;
    assert NumberText(Finite(total as real), fmt) == NatText(total);
    assert Show(Some(Int(total)), fmt) == NatText(total);
  }

  /** A chunk as ingestion writes it (file name, integer chunk index and
      count, a numeric score) renders as
      `[<file> (Chunk <k + 1>/<total>) [Score: <score>]]` and its text. */
  lemma RenderIngestedChunk(d: ProcessedDocument, index: nat, fmt: Formatting, file: string, k: nat, total: nat, score: real)
    requires file != ""
    requires k + 1 < 1000000000000000000000 && total < 1000000000000000000000
    requires d.metadata["fileName" := JStr(file)]["chunkIndex" := Int(k)]["totalChunks" := Int(total)]["score" := JNum(Finite(score))] == d.metadata
    ensures RenderDocument(d, index, fmt) ==
      Ok("[" + file + (" (Chunk " + NatText(k + 1) + "/" + NatText(total) + ")") +
         (" [Score: " + fmt.toFixed3(Finite(score)) + "]") + "]\n" + d.pageContent)
  {
    assert "fileName" in d.metadata && d.metadata["fileName"] == JStr(file);
    assert "chunkIndex" in d.metadata && d.metadata["chunkIndex"] == Int(k);
    assert "totalChunks" in d.metadata && d.metadata["totalChunks"] == Int(total);
    assert "score" in d.metadata && d.metadata["score"] == JNum(Finite(score));
    IngestedChunkInfo(d, fmt, k, total);
    assert DocumentName(d, index, fmt) == file;
  }

  /** The documents from `offset` on, each rendered with its own index. The
      first document that cannot be rendered stops the map with its error. */
  function RenderFrom(docs: seq<ProcessedDocument>, fmt: Formatting, offset: nat): (r: Result<seq<string>>)
    ensures r.Ok? <==> forall i :: 0 <= i < |docs| ==> RenderDocument(docs[i], offset + i, fmt).Ok?
    ensures r.Ok? ==> (|r.value| == |docs| &&
      forall i :: 0 <= i < |docs| ==> r.value[i] == RenderDocument(docs[i], offset + i, fmt).value)
    ensures r.Err? ==> exists i :: 0 <= i < |docs| && RenderDocument(docs[i], offset + i, fmt) == Err(r.error)
    decreases |docs|
  {
    if docs == [] then Ok([])
    else
      match RenderDocument(docs[0], offset, fmt)
      case Err(e) => Err(e)
      case Ok(first) =>
        assert forall i :: 1 <= i < |docs| ==> docs[1..][i - 1] == docs[i];
        match RenderFrom(docs[1..], fmt, offset + 1)
        case Err(e) => Err(e)
        case Ok(rest) => Ok([first] + rest)
  }

  /** `formatDocumentsToContext`: the rendered documents joined by the
      separator. */
  function FormatDocumentsToContext(documents: seq<ProcessedDocument>, fmt: Formatting): (r: Result<string>)
    ensures documents == [] ==> r == Ok("")
    ensures r.Ok? <==> forall i :: 0 <= i < |documents| ==> RenderDocument(documents[i], i, fmt).Ok?
    ensures r.Err? ==> exists i :: 0 <= i < |documents| && RenderDocument(documents[i], i, fmt) == Err(r.error)
  {
    match RenderFrom(documents, fmt, 0)
    case Err(e) => Err(e)
    case Ok(parts) => Ok(Join(parts, Separator))
  }

  function TotalLength(parts: seq<string>): nat {
    if parts == [] then 0 else TotalLength(parts[..|parts| - 1]) + |parts[|parts| - 1]|
  }

  /** A join of `n > 0` parts holds the parts and `n - 1` separators. */
  lemma {:induction false} JoinLength(parts: seq<string>, sep: string)
    ensures |parts| == 0 ==> Join(parts, sep) == ""
    ensures |parts| > 0 ==> |Join(parts, sep)| == TotalLength(parts) + (|parts| - 1) * |sep|
  {
    if |parts| > 1 {
      var init := parts[..|parts| - 1];
      JoinLength(init, sep);
      assert TotalLength(parts) == TotalLength(init) + |parts[|parts| - 1]|;
    } else if |parts| == 1 {
      assert parts[..0] == [];
    }
  }

  /** The empty list formats to the empty context; `n` renderable documents
      format to their renderings and `n - 1` separators; a document whose
      score is defined but not a number makes formatting fail. */
  /** A join of `n > 0` parts opens with the first part and closes with
      the last. */
  lemma {:induction false} JoinEnds(parts: seq<string>, sep: string)
    requires |parts| > 0
    ensures var j := Join(parts, sep);
      |j| >= |parts[0]| && |j| >= |parts[|parts| - 1]| &&
      j[..|parts[0]|] == parts[0] && j[|j| - |parts[|parts| - 1]|..] == parts[|parts| - 1]
  {
    if |parts| > 1 {
      var init := parts[..|parts| - 1];
      JoinEnds(init, sep);
      var j0 := Join(init, sep);
      assert init[0] == parts[0];
      assert Join(parts, sep) == j0 + sep + parts[|parts| - 1];
      assert (j0 + sep + parts[|parts| - 1])[..|parts[0]|] == j0[..|parts[0]|];
    }
  }

  lemma FormatContextShape(documents: seq<ProcessedDocument>, fmt: Formatting)
    ensures documents == [] ==> FormatDocumentsToContext(documents, fmt) == Ok("")
    ensures var r := FormatDocumentsToContext(documents, fmt);
      r.Ok? <==> forall i :: 0 <= i < |documents| ==> RenderDocument(documents[i], i, fmt).Ok?
    ensures var r := RenderFrom(documents, fmt, 0);
      r.Ok? && |documents| > 0 ==>
        |FormatDocumentsToContext(documents, fmt).value| == TotalLength(r.value) + (|documents| - 1) * |Separator|
    ensures var r := RenderFrom(documents, fmt, 0);
      r.Ok? && |documents| > 0 ==>
        var context := FormatDocumentsToContext(documents, fmt).value;
        var first := RenderDocument(documents[0], 0, fmt).value;
        var last := RenderDocument(documents[|documents| - 1], |documents| - 1, fmt).value;
        |context| >= |first| && |context| >= |last| &&
        context[..|first|] == first && context[|context| - |last|..] == last
  {
    var r := RenderFrom(documents, fmt, 0);
    if r.Ok? {
      JoinLength(r.value, Separator);
      if |documents| > 0 {
        JoinEnds(r.value, Separator);
      }
    }
  }

  // ----- processQuery -----

  /** `retrieveRelevantDocuments`: the ensemble search, 12 documents by default. */
  function RetrieveRelevantDocuments(ensemble: EnsembleService, invoke: FusedInvoke, search: NearestNeighbours,
                                     query: string, limit: int := RetrievalLimit): (r: Result<seq<ProcessedDocument>>)
    reads ensemble, ensemble.vectorStoreService
    requires ensemble.vectorStoreService.Valid()
    ensures r == ensemble.Search(invoke, search, query, limit)
    ensures ensemble.isInitialized && ensemble.ensembleRetriever.Some? && invoke(ensemble.ensembleRetriever.value, query).Ok? && limit >= 0 ==>
      r.Ok? && |r.value| <= limit
  {
    ensemble.Search(invoke, search, query, limit)
  }

  /** `createEmptyResponse`: the fixed answer, no sources, no evaluation. */
  function EmptyResponse(): (r: QueryResponse)
    ensures r.answer == EmptyAnswer && r.sources == [] && r.evaluation.None?
  {
    QueryResponse(EmptyAnswer, [], None)
  }

  /** `generateAnswer`: the model's answer from the formatted context; a
      formatting error or a model failure is rethrown. */
  function GenerateAnswer(query: string, documents: seq<ProcessedDocument>, fmt: Formatting, generate: Generate): (r: Result<string>)
    ensures r.Ok? ==> forall i :: 0 <= i < |documents| ==> RenderDocument(documents[i], i, fmt).Ok?
    ensures FormatDocumentsToContext(documents, fmt).Err? ==> r == Err(FormatDocumentsToContext(documents, fmt).error)
    ensures FormatDocumentsToContext(documents, fmt).Ok? ==> r == generate(query, FormatDocumentsToContext(documents, fmt).value)
  {
    match FormatDocumentsToContext(documents, fmt)
    case Err(e) => Err(e)
    case Ok(context) => generate(query, context)
  }

  /** Once an answer has been generated every source's score was printable
      in the context, so the evaluation prompt can be built as well: only
      the judge decides whether the default comes back. */
  lemma AnsweredSourcesBuildPrompt(query: string, documents: seq<ProcessedDocument>, fmt: Formatting, generate: Generate)
    requires GenerateAnswer(query, documents, fmt, generate).Ok?
    ensures PromptBuildable(SourceSummaries(documents))
  {
    assert RenderFrom(documents, fmt, 0).Ok?;
    forall i | 0 <= i < |documents|
      ensures var score := Get(JObj(documents[i].metadata), "score"); !Truthy(score) || score.value.JNum?
    {
      RenderDocumentShape(documents[i], i, fmt);
    }
    PromptBuildableExactly(documents);
  }

  /** `evaluateResponse`: the evaluation, which is never undefined because
      evaluateLegalQuery never throws. */
  method EvaluateResponse(query: string, answer: string, documents: seq<ProcessedDocument>, judge: Judge)
    returns (r: Option<LegalEvaluationMetrics>)
    ensures r == Some(Evaluate(query, answer, documents, judge))
  {
    var evaluation := EvaluateLegalQuery(query, answer, documents, judge);
    return Some(evaluation);
  }

  /** What processQuery gives for `message`. */
  function QueryOutcome(ensemble: EnsembleService, message: string, invoke: FusedInvoke, search: NearestNeighbours,
                        fmt: Formatting, generate: Generate, judge: Judge): Result<QueryResponse>
    reads ensemble, ensemble.vectorStoreService
    requires ensemble.vectorStoreService.Valid()
  {
    match RetrieveRelevantDocuments(ensemble, invoke, search, message)
    case Err(e) => Err(e)
    case Ok(relevantDocs) =>
      if |relevantDocs| == 0 then Ok(EmptyResponse())
      else
        match GenerateAnswer(message, relevantDocs, fmt, generate)
        case Err(e) => Err(e)
        case Ok(answer) => Ok(QueryResponse(answer, relevantDocs, Some(Evaluate(message, answer, relevantDocs, judge))))
  }

  /** `processQuery`: retrieve, answer the empty result with the fixed
      response, otherwise generate an answer and evaluate it. Errors from
      retrieval and generation are rethrown. */
  method ProcessQuery(ensemble: EnsembleService, message: string, invoke: FusedInvoke, search: NearestNeighbours,
                      fmt: Formatting, generate: Generate, judge: Judge) returns (r: Result<QueryResponse>)
    requires ensemble.vectorStoreService.Valid()
    ensures r == QueryOutcome(ensemble, message, invoke, search, fmt, generate, judge)
  {
    var relevantDocs := RetrieveRelevantDocuments(ensemble, invoke, search, message);
    if relevantDocs.Err? {
      return Err(relevantDocs.error);
    }
    if |relevantDocs.value| == 0 {
      return Ok(EmptyResponse());
    }
    var answer := GenerateAnswer(message, relevantDocs.value, fmt, generate);
    if answer.Err? {
      return Err(answer.error);
    }
    var evaluation := EvaluateResponse(message, answer.value, relevantDocs.value, judge);
    return Ok(QueryResponse(answer.value, relevantDocs.value, evaluation));
  }

  /** Retrieval always asks the ensemble for 12 documents, and its errors
      come back unchanged. */
  lemma QueryRetrieval(ensemble: EnsembleService, message: string, invoke: FusedInvoke, search: NearestNeighbours,
                       fmt: Formatting, generate: Generate, judge: Judge)
    requires ensemble.vectorStoreService.Valid()
    ensures var docs := ensemble.Search(invoke, search, message, 12);
      docs.Err? ==> QueryOutcome(ensemble, message, invoke, search, fmt, generate, judge) == Err(docs.error)
  {
  }

  /** When nothing is retrieved the response is the fixed answer with no
      sources and no evaluation, whatever the model would say: neither the
      generator nor the judge takes part. */
  lemma EmptyRetrievalResponse(ensemble: EnsembleService, message: string, invoke: FusedInvoke, search: NearestNeighbours,
                               fmt: Formatting, generate: Generate, judge: Judge, otherGenerate: Generate, otherJudge: Judge)
    requires ensemble.vectorStoreService.Valid()
    requires ensemble.Search(invoke, search, message, RetrievalLimit) == Ok([])
    ensures var r := QueryOutcome(ensemble, message, invoke, search, fmt, generate, judge);
      r == Ok(QueryResponse(EmptyAnswer, [], None)) &&
      r == QueryOutcome(ensemble, message, invoke, search, fmt, otherGenerate, otherJudge)
  {
  }

  /** On the non-empty path the sources are exactly the retrieved documents,
      the answer is the model's, and the evaluation is present with its
      eight metrics in [1, 10]. */
  lemma AnsweredResponse(ensemble: EnsembleService, message: string, invoke: FusedInvoke, search: NearestNeighbours,
                         fmt: Formatting, generate: Generate, judge: Judge)
    requires ensemble.vectorStoreService.Valid()
    requires var docs := ensemble.Search(invoke, search, message, RetrievalLimit); docs.Ok? && docs.value != []
    ensures var docs := ensemble.Search(invoke, search, message, RetrievalLimit).value;
      var r := QueryOutcome(ensemble, message, invoke, search, fmt, generate, judge);
      (r.Ok? <==> GenerateAnswer(message, docs, fmt, generate).Ok?) &&
      (r.Ok? ==>
        r.value.sources == docs &&
        r.value.answer == GenerateAnswer(message, docs, fmt, generate).value &&
        r.value.evaluation.Some? &&
        forall m :: m in Metrics(r.value.evaluation.value) ==> m.Finite? && 1.0 <= m.r <= 10.0)
  {
    var docs := ensemble.Search(invoke, search, message, RetrievalLimit).value;
    var answer := GenerateAnswer(message, docs, fmt, generate);
    if answer.Ok? {
      MetricsInRange(message, answer.value, docs, judge);
    }
  }
}
