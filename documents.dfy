/** The document shapes that flow between the services: the application's
    `ProcessedDocument` and the retrieval library's `Document`, both a text
    and a metadata object. */
module Documents {
  import opened JsValues

  /** A metadata object: property names to JSON values. The declared
      fields (fileName, chunkIndex, totalChunks, score, ...) are optional
      keys of it. */
  type Metadata = map<string, Json>

  datatype ProcessedDocument = ProcessedDocument(pageContent: string, metadata: Metadata)

  /** A document as the retrieval library holds it. */
  datatype Document = Document(pageContent: string, metadata: Metadata)

  /** `new Document({ pageContent: doc.pageContent, metadata: doc.metadata })` */
  function ToDocument(d: ProcessedDocument): Document {
    Document(d.pageContent, d.metadata)
  }

  /** `{ pageContent: doc.pageContent, metadata: doc.metadata }` */
  function ToProcessed(d: Document): ProcessedDocument {
    ProcessedDocument(d.pageContent, d.metadata)
  }

  function ToDocuments(ds: seq<ProcessedDocument>): (r: seq<Document>)
    ensures |r| == |ds|
    ensures forall i :: 0 <= i < |ds| ==> r[i] == ToDocument(ds[i])
  {
    seq(|ds|, i requires 0 <= i < |ds| => ToDocument(ds[i]))
  }

  function ToProcessedDocuments(ds: seq<Document>): (r: seq<ProcessedDocument>)
    ensures |r| == |ds|
    ensures forall i :: 0 <= i < |ds| ==> r[i] == ToProcessed(ds[i])
  {
    seq(|ds|, i requires 0 <= i < |ds| => ToProcessed(ds[i]))
  }

  /** Converting to the library's documents and back loses nothing: text and
      metadata are copied unchanged in both directions. */
  lemma DocumentRoundTrip(ds: seq<ProcessedDocument>)
    ensures ToProcessedDocuments(ToDocuments(ds)) == ds
  {
    var back := ToProcessedDocuments(ToDocuments(ds));
    assert |back| == |ds|;
    forall i | 0 <= i < |ds| ensures back[i] == ds[i] {
      assert back[i] == ToProcessed(ToDocument(ds[i]));
    }
  }

  /** The end index of `array.slice(0, end)` on an array of length `n`:
      a negative `end` counts from the back, and the index is clamped to
      `0..n`. */
  function SliceEnd(n: nat, end: int): (e: nat)
    ensures e <= n
    ensures end >= 0 ==> e == if end < n then end else n
    ensures end < 0 ==> e == if n + end > 0 then n + end else 0
  {
    if end < 0 then (if n + end > 0 then n + end else 0)
    else if end < n then end
    else n
  }
}
