/**
 * The records the pipeline passes around: the closed set of document types,
 * the query types, the open metadata bag, the document record, the indexing
 * response, and the query request and response.
 */
module Model {
  import opened Wrappers

  /** The closed set of document types (`DocumentType`). */
  datatype DocumentType = Law | Jurisprudence | Article | Text | Pdf | Other | CivilCode

  /**
   * The query types the prompt templates know; any other tag a caller sends is
   * `Unrecognised`. The tags `"SUMMARY"`, `"QUESTION"` and `"ANALYSIS"` are the
   * three named constructors, never an `Unrecognised` tag; `IsCanonical` states it.
   */
  datatype QueryType = Summary | Question | Analysis | Unrecognised(tag: string)

  /** A query type in its one form: an unrecognised tag is none of the known names. */
  predicate IsCanonical(q: QueryType) {
    q.Unrecognised? ==> q.tag != "SUMMARY" && q.tag != "QUESTION" && q.tag != "ANALYSIS"
  }

  /** The keys a chunk adds to its parent's metadata. */
  datatype ChunkInfo = ChunkInfo(parentDocumentId: string, chunkIndex: nat, totalChunks: nat, chunkSize: nat)

  /**
   * The open metadata bag: the well-known optional fields, the fields the
   * pipeline itself adds (`pages` for a PDF, the chunk keys for a chunk), and
   * any other key a caller supplies, kept in `extra`.
   */
  datatype Metadata = Metadata(
    title: Option<string>,
    author: Option<string>,
    date: Option<int>,
    source: Option<string>,
    tags: Option<seq<string>>,
    pages: Option<nat>,
    chunk: Option<ChunkInfo>,
    extra: map<string, string>)

  /** `{}`: no metadata at all. */
  const NoMetadata := Metadata(None, None, None, None, None, None, None, map[])

  /** A processed document or chunk (`IDocument`). `createdAt` is a timestamp. */
  datatype Document = Document(
    id: string,
    content: string,
    docType: DocumentType,
    metadata: Metadata,
    hash: string,
    createdAt: int)

  /** What indexing reports (`IIndexResponse`); `errors` and `documentIds` may be absent. */
  datatype IndexResponse = IndexResponse(
    success: bool,
    documentsIndexed: nat,
    duplicatesSkipped: nat,
    errors: Option<seq<string>>,
    documentIds: Option<seq<string>>)

  /** A response carries errors when its `errors` array is present and non-empty. */
  predicate HasErrors(r: IndexResponse) {
    r.errors.Some? && |r.errors.value| > 0
  }

  /** A cited source of an answer (`ISource`); every producer sets the title. */
  datatype Source = Source(documentId: string, title: string, excerpt: string, similarity: real)

  datatype QueryResponse = QueryResponse(answer: string, sources: seq<Source>)

  /** A query (`IQueryRequest`); `context` is accepted but never read by the pipeline. */
  datatype QueryRequest = QueryRequest(
    query: string,
    queryType: QueryType,
    context: Option<string>,
    maxResults: Option<int>)

  /**
   * The hits of one similarity query, as parallel lists (the first row of the
   * store's result). A missing row is an empty list; an element of
   * `metadatas` or `distances` may be null.
   */
  datatype RetrievalResult = RetrievalResult(
    ids: seq<string>,
    documents: seq<string>,
    metadatas: seq<Option<Metadata>>,
    distances: seq<Option<real>>)

  /** What the PDF text extractor returns. */
  datatype PdfInfo = PdfInfo(title: Option<string>, author: Option<string>)
  datatype PdfData = PdfData(text: string, numpages: nat, info: Option<PdfInfo>)

  /** The identifier and creation time a document is given when it is processed. */
  datatype Stamp = Stamp(id: string, createdAt: int)

  /** JavaScript truthiness of an optional string: present and non-empty. */
  predicate Truthy(s: Option<string>) {
    s.Some? && s.value != ""
  }

  /** `a || fallback` for an optional string and a string fallback. */
  function OrElse(a: Option<string>, fallback: string): string {
    if Truthy(a) then a.value else fallback
  }
}
