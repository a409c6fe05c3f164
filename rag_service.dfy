/**
 * The orchestration service: indexing a text or a PDF with deduplication,
 * indexing a batch of texts, answering a query from the store's hits, and
 * analysing an uploaded PDF without indexing it.
 *
 * The store is a `Store` object; the document processor's collaborators
 * (digest, splitter, PDF extractor) travel in a `Processor`; the language
 * model is a `Generator`; identifiers and timestamps are given as `Stamp`s.
 */
module RagService {
  import opened Wrappers
  import opened Strings
  import opened Model
  import opened TextCleaning
  import opened DocumentProcessor
  import opened VectorStore
  import opened Ollama

  // ---------------------------------------------------------------------------
  // Indexing one document

  /** What indexing one document does: the response, and the records it adds to the store. */
  datatype IngestOutcome = IngestOutcome(response: IndexResponse, added: seq<StoredRecord>)

  /** The response for a document whose hash the store already holds. */
  const DuplicateResponse := IndexResponse(true, 0, 1, None, None)

  /** The response for a document whose indexing threw. */
  function FailureResponse(message: string): (r: IndexResponse)
    ensures !r.success && r.documentsIndexed == 0 && r.duplicatesSkipped == 0
    ensures r.errors == Some([message]) && r.documentIds.None?
  {
    IndexResponse(false, 0, 0, Some([message]), None)
  }

  /**
   * The common tail of `indexDocument` and `indexPDF`, once the document is
   * processed: a document whose hash the store holds is skipped; otherwise
   * it is chunked and its chunks are added. A chunking error or a store
   * error becomes a failure response and adds nothing.
   */
  function Ingest(records: seq<StoredRecord>, faults: Faults, doc: Document, proc: Processor)
    : (o: IngestOutcome)
    ensures o.response.success <==> !HasErrors(o.response)
    ensures o.response.documentsIndexed == |o.added|
    ensures o.added != [] ==> o.response.success && o.response.duplicatesSkipped == 0
    ensures faults.lookup.None? && HasHash(records, doc.hash) ==> o == IngestOutcome(DuplicateResponse, [])
    ensures !o.response.success ==> o.added == [] && exists m :: o.response == FailureResponse(m)
    ensures faults.write.Some? && !(faults.lookup.None? && HasHash(records, doc.hash)) ==>
      var split := proc.split(doc.content, DefaultChunkSize, DefaultChunkOverlap);
      o == IngestOutcome(FailureResponse(if split == [] then EmptyReduceError else faults.write.value), [])
  {
    if faults.lookup.None? && HasHash(records, doc.hash) then
      IngestOutcome(DuplicateResponse, [])
    else
      match ChunkDocument(doc, DefaultChunkSize, DefaultChunkOverlap, proc.split, proc.hash)
      case Failure(e) => IngestOutcome(FailureResponse(e), [])
      case Success(chunks) =>
        if faults.write.Some? then IngestOutcome(FailureResponse(faults.write.value), [])
        else IngestOutcome(IndexResponse(true, |chunks|, 0, None, Some(Ids(chunks))), ToRecords(chunks))
  }

  /** `Ingest` after processing, where processing itself may have failed. */
  function IngestResult(records: seq<StoredRecord>, faults: Faults,
                        processed: Result<Document, string>, proc: Processor): (o: IngestOutcome)
    ensures processed.Failure? ==> o == IngestOutcome(FailureResponse(processed.error), [])
    ensures processed.Success? ==> o == Ingest(records, faults, processed.value, proc)
  {
    match processed
    case Failure(e) => IngestOutcome(FailureResponse(e), [])
    case Success(doc) => Ingest(records, faults, doc, proc)
  }

  /** A document the store does not hold is chunked and every chunk is stored:
      the response counts the chunks and returns exactly their ids. */
  lemma FreshDocumentIndexed(records: seq<StoredRecord>, faults: Faults, doc: Document, proc: Processor)
    requires faults.write.None? && !(faults.lookup.None? && HasHash(records, doc.hash))
    requires proc.split(doc.content, DefaultChunkSize, DefaultChunkOverlap) != []
    ensures var o := Ingest(records, faults, doc, proc);
      var chunks := ChunkDocument(doc, DefaultChunkSize, DefaultChunkOverlap, proc.split, proc.hash).value;
      && o.response == IndexResponse(true, |chunks|, 0, None, Some(Ids(chunks)))
      && o.added == ToRecords(chunks)
      && |o.added| == |proc.split(doc.content, DefaultChunkSize, DefaultChunkOverlap)|
  {
  }

  /** When the splitter returns nothing, indexing fails with the error of the
      chunk statistics and stores nothing. */
  lemma EmptySplitFails(records: seq<StoredRecord>, faults: Faults, doc: Document, proc: Processor)
    requires faults.lookup.Some? || !HasHash(records, doc.hash)
    requires proc.split(doc.content, DefaultChunkSize, DefaultChunkOverlap) == []
    ensures Ingest(records, faults, doc, proc) == IngestOutcome(FailureResponse(EmptyReduceError), [])
  {
  }

  /**
   * A lookup failure is taken for "not present": a document the store
   * already holds is chunked and stored again when the lookup fails and the
   * write does not.
   */
  lemma FailedLookupStoresAgain(records: seq<StoredRecord>, doc: Document, proc: Processor, message: string)
    requires HasHash(records, doc.hash)
    requires proc.split(doc.content, DefaultChunkSize, DefaultChunkOverlap) != []
    ensures Ingest(records, Healthy, doc, proc) == IngestOutcome(DuplicateResponse, [])
    ensures var o := Ingest(records, Faults(Some(message), None), doc, proc);
      && o.response.success && o.response.duplicatesSkipped == 0
      && o.added == ToRecords(ChunkDocument(doc, DefaultChunkSize, DefaultChunkOverlap, proc.split, proc.hash).value)
      && |o.added| == |proc.split(doc.content, DefaultChunkSize, DefaultChunkOverlap)|
  {
  }

  /**
   * Deduplication compares the document's hash with the hashes of the
   * stored CHUNKS. A document whose only chunk is its whole content (the
   * usual case for a short text) is therefore skipped when indexed again.
   */
  lemma SingleChunkDocumentSkippedOnReindex(records: seq<StoredRecord>, doc: Document, again: Document,
                                            proc: Processor)
    requires doc.hash == proc.hash(doc.content)
    requires proc.split(doc.content, DefaultChunkSize, DefaultChunkOverlap) == [doc.content]
    requires again.hash == doc.hash
    ensures var first := Ingest(records, Healthy, doc, proc);
      Ingest(records + first.added, Healthy, again, proc) == IngestOutcome(DuplicateResponse, [])
  {
    var first := Ingest(records, Healthy, doc, proc);
    if !HasHash(records, doc.hash) {
      var chunks := ChunkDocument(doc, DefaultChunkSize, DefaultChunkOverlap, proc.split, proc.hash).value;
      assert chunks[0].hash == doc.hash;
      HasHashAppend(records, chunks, doc.hash);
    } else {
      assert records + first.added == records;
    }
  }

  /**
   * ... whereas a document split into chunks none of which is the whole
   * content is never recognised: with a collision-free digest, indexing it a
   * second time stores all of its chunks again.
   */
  lemma SplitDocumentStoredAgainOnReindex(records: seq<StoredRecord>, doc: Document, again: Document,
                                          proc: Processor)
    requires forall a, b :: proc.hash(a) == proc.hash(b) ==> a == b
    requires doc.hash == proc.hash(doc.content) && again.hash == doc.hash && again.content == doc.content
    requires !HasHash(records, doc.hash)
    requires var pieces := proc.split(doc.content, DefaultChunkSize, DefaultChunkOverlap);
      pieces != [] && doc.content !in pieces
    ensures var first := Ingest(records, Healthy, doc, proc);
      var second := Ingest(records + first.added, Healthy, again, proc);
      && first.response.documentsIndexed > 0
      && second.response.success && second.response.duplicatesSkipped == 0
      && second.response.documentsIndexed == first.response.documentsIndexed
  {
    var pieces := proc.split(doc.content, DefaultChunkSize, DefaultChunkOverlap);
    var chunks := ChunkDocument(doc, DefaultChunkSize, DefaultChunkOverlap, proc.split, proc.hash).value;
    HasHashAppend(records, chunks, doc.hash);
    forall i | 0 <= i < |chunks| ensures chunks[i].hash != doc.hash {
      assert chunks[i].hash == proc.hash(pieces[i]);
      assert pieces[i] != doc.content;
    }
  }

  /** The indexing steps on an already processed document: the existence
      check, then chunking, then the store's `addDocuments`. */
  method IngestDocument(store: Store, proc: Processor, document: Document) returns (r: IndexResponse)
    modifies store`records
    ensures var o := Ingest(old(store.records), store.faults, document, proc);
      r == o.response && store.records == old(store.records) + o.added
  {
    var exists_ := store.CheckDocumentExists(document.hash);
    if exists_ {
      return DuplicateResponse;
    }
    var chunks := ChunkDocument(document, DefaultChunkSize, DefaultChunkOverlap, proc.split, proc.hash);
    if chunks.Failure? {
      return FailureResponse(chunks.error);
    }
    var ids := store.AddDocuments(chunks.value);
    if ids.Failure? {
      return FailureResponse(ids.error);
    }
    r := IndexResponse(true, |chunks.value|, 0, None, Some(ids.value));
  }

  /** `indexDocument`: clean and hash the text, then index it. */
  method IndexDocument(store: Store, proc: Processor, content: string, docType: DocumentType,
                       metadata: Option<Metadata>, stamp: Stamp) returns (r: IndexResponse)
    modifies store`records
    ensures var o := IngestInput(old(store.records), store.faults, DocumentInput(content, docType, metadata), stamp, proc);
      r == o.response && store.records == old(store.records) + o.added
  {
    var document := ProcessText(content, docType, metadata, stamp, proc.hash);
    r := IngestDocument(store, proc, document);
  }

  /** `indexPDF`: extract the PDF's text, then index it; an extraction error
      becomes a failure response. */
  method IndexPDF(store: Store, proc: Processor, buffer: seq<bv8>, metadata: Option<Metadata>, stamp: Stamp)
    returns (r: IndexResponse)
    modifies store`records
    ensures var o := IngestResult(old(store.records), store.faults,
                                  ProcessPDF(proc.parsePdf(buffer), metadata, stamp, proc.hash), proc);
      r == o.response && store.records == old(store.records) + o.added
  {
    var processed := ProcessPDF(proc.parsePdf(buffer), metadata, stamp, proc.hash);
    if processed.Failure? {
      return FailureResponse(processed.error);
    }
    r := IngestDocument(store, proc, processed.value);
  }

  // ---------------------------------------------------------------------------
  // Indexing a batch of texts

  /** One entry of the batch `indexMultipleDocuments` takes. */
  datatype DocumentInput = DocumentInput(content: string, docType: DocumentType, metadata: Option<Metadata>)

  /** The accumulator the batch starts from: success, nothing counted, empty lists. */
  const EmptyTally := IndexResponse(true, 0, 0, Some([]), Some([]))

  /** One step of the batch loop: add the counts; a result carrying errors
      appends them and marks the batch failed; a result carrying ids appends them. */
  function Absorb(acc: IndexResponse, result: IndexResponse): (r: IndexResponse)
    ensures r.documentsIndexed == acc.documentsIndexed + result.documentsIndexed
    ensures r.duplicatesSkipped == acc.duplicatesSkipped + result.duplicatesSkipped
    ensures r.success <==> acc.success && !(HasErrors(result) && acc.errors.Some?)
    ensures acc.errors.Some? && HasErrors(result) ==> r.errors == Some(acc.errors.value + result.errors.value)
    ensures acc.errors.None? || !HasErrors(result) ==> r.errors == acc.errors
    ensures acc.documentIds.Some? && result.documentIds.Some? ==>
      r.documentIds == Some(acc.documentIds.value + result.documentIds.value)
    ensures acc.documentIds.None? || result.documentIds.None? ==> r.documentIds == acc.documentIds
  {
    var counted := acc.(documentsIndexed := acc.documentsIndexed + result.documentsIndexed,
                        duplicatesSkipped := acc.duplicatesSkipped + result.duplicatesSkipped);
    var withErrors := if HasErrors(result) && counted.errors.Some? then
                        counted.(errors := Some(counted.errors.value + result.errors.value), success := false)
                      else counted;
    if result.documentIds.Some? && withErrors.documentIds.Some? then
      withErrors.(documentIds := Some(withErrors.documentIds.value + result.documentIds.value))
    else withErrors
  }

  /** The batch's combined response: the results absorbed in order. */
  function Tally(rs: seq<IndexResponse>): (t: IndexResponse)
    ensures t.errors.Some? && t.documentIds.Some?
  {
    if rs == [] then EmptyTally else Absorb(Tally(rs[..|rs| - 1]), rs[|rs| - 1])
  }

  function SumIndexed(rs: seq<IndexResponse>): nat {
    if rs == [] then 0 else rs[0].documentsIndexed + SumIndexed(rs[1..])
  }

  function SumSkipped(rs: seq<IndexResponse>): nat {
    if rs == [] then 0 else rs[0].duplicatesSkipped + SumSkipped(rs[1..])
  }

  /** The errors of the results, in order. */
  function AllErrors(rs: seq<IndexResponse>): seq<string> {
    if rs == [] then [] else (if rs[0].errors.Some? then rs[0].errors.value else []) + AllErrors(rs[1..])
  }

  /** The ids of the results, in order. */
  function AllIds(rs: seq<IndexResponse>): seq<string> {
    if rs == [] then [] else (if rs[0].documentIds.Some? then rs[0].documentIds.value else []) + AllIds(rs[1..])
  }

  lemma {:induction false} SumsAppend(rs: seq<IndexResponse>, r: IndexResponse)
    ensures SumIndexed(rs + [r]) == SumIndexed(rs) + r.documentsIndexed
    ensures SumSkipped(rs + [r]) == SumSkipped(rs) + r.duplicatesSkipped
  {
    if rs != [] {
      assert (rs + [r])[1..] == rs[1..] + [r];
      SumsAppend(rs[1..], r);
    } else {
      assert [r][1..] == [];
    }
  }

  lemma {:induction false} ListsAppend(rs: seq<IndexResponse>, r: IndexResponse)
    ensures AllErrors(rs + [r]) == AllErrors(rs) + (if r.errors.Some? then r.errors.value else [])
    ensures AllIds(rs + [r]) == AllIds(rs) + (if r.documentIds.Some? then r.documentIds.value else [])
  {
    if rs != [] {
      assert (rs + [r])[1..] == rs[1..] + [r];
      ListsAppend(rs[1..], r);
      AppendAssoc(if rs[0].errors.Some? then rs[0].errors.value else [], AllErrors(rs[1..]),
                  if r.errors.Some? then r.errors.value else []);
      AppendAssoc(if rs[0].documentIds.Some? then rs[0].documentIds.value else [], AllIds(rs[1..]),
                  if r.documentIds.Some? then r.documentIds.value else []);
    } else {
      assert [r][1..] == [];
    }
  }

  /**
   * What the batch reports: the sums of the per-document counts, every error
   * and every id in order, and success exactly when no document reported an
   * error.
   */
  lemma {:induction false} TallyMeaning(rs: seq<IndexResponse>)
    ensures Tally(rs) == IndexResponse(!(exists i :: 0 <= i < |rs| && HasErrors(rs[i])),
                                       SumIndexed(rs), SumSkipped(rs), Some(AllErrors(rs)), Some(AllIds(rs)))
  {
    if rs != [] {
      var front := rs[..|rs| - 1];
      var r := rs[|rs| - 1];
      TallyMeaning(front);
      assert rs == front + [r];
      SumsAppend(front, r);
      ListsAppend(front, r);
      TallyStep(front, r);
      assert (exists i :: 0 <= i < |rs| && HasErrors(rs[i]))
         <==> (exists i :: 0 <= i < |front| && HasErrors(front[i])) || HasErrors(r) by {
        if i :| 0 <= i < |rs| && HasErrors(rs[i]) {
          if i < |front| {
            assert HasErrors(front[i]);
          }
        }
        if i :| 0 <= i < |front| && HasErrors(front[i]) {
          assert HasErrors(rs[i]);
        }
        if HasErrors(r) {
          assert HasErrors(rs[|rs| - 1]);
        }
      }
      if !HasErrors(r) {
        assert (if r.errors.Some? then r.errors.value else []) == [];
        assert AllErrors(rs) == AllErrors(front) + [] == AllErrors(front);
      }
      if r.documentIds.None? {
        assert AllIds(rs) == AllIds(front) + [] == AllIds(front);
      }
      var t := Tally(rs);
      var tf := Tally(front);
      assert t == Absorb(tf, r);
      assert tf.errors == Some(AllErrors(front)) && tf.documentIds == Some(AllIds(front));
      if HasErrors(r) {
        assert t.errors == Some(AllErrors(front) + r.errors.value);
      } else {
        assert t.errors == tf.errors;
      }
      if r.documentIds.Some? {
        assert t.documentIds == Some(AllIds(front) + r.documentIds.value);
      } else {
        assert t.documentIds == tf.documentIds;
      }
      assert t.success == !(exists i :: 0 <= i < |rs| && HasErrors(rs[i]));
      assert t.documentsIndexed == SumIndexed(rs);
      assert t.duplicatesSkipped == SumSkipped(rs);
      assert t.errors == Some(AllErrors(rs));
      assert t.documentIds == Some(AllIds(rs));
    }
  }

  /** What the batch does: document `i` is processed with `stamps(i)` and
      ingested against the records the earlier documents left. */
  datatype BatchOutcome = BatchOutcome(responses: seq<IndexResponse>, added: seq<StoredRecord>)

  function IndexBatch(records: seq<StoredRecord>, faults: Faults, docs: seq<DocumentInput>,
                      stamps: nat -> Stamp, proc: Processor): (b: BatchOutcome)
    ensures |b.responses| == |docs|
  {
    if docs == [] then BatchOutcome([], [])
    else
      var prev := IndexBatch(records, faults, docs[..|docs| - 1], stamps, proc);
      var o := IngestInput(records + prev.added, faults, docs[|docs| - 1], stamps(|docs| - 1), proc);
      BatchOutcome(prev.responses + [o.response], prev.added + o.added)
  }

  /** Indexing one entry of a batch. */
  function IngestInput(records: seq<StoredRecord>, faults: Faults, d: DocumentInput,
                       stamp: Stamp, proc: Processor): (o: IngestOutcome)
    ensures o.response.success <==> !HasErrors(o.response)
    ensures o.response.documentsIndexed == |o.added|
  {
    Ingest(records, faults, ProcessText(d.content, d.docType, d.metadata, stamp, proc.hash), proc)
  }

  /** The batch grows one document at a time. */
  lemma IndexBatchStep(records: seq<StoredRecord>, faults: Faults, docs: seq<DocumentInput>, i: nat,
                       stamps: nat -> Stamp, proc: Processor)
    requires i < |docs|
    ensures var prev := IndexBatch(records, faults, docs[..i], stamps, proc);
      var o := IngestInput(records + prev.added, faults, docs[i], stamps(i), proc);
      IndexBatch(records, faults, docs[..i + 1], stamps, proc)
        == BatchOutcome(prev.responses + [o.response], prev.added + o.added)
  {
    assert docs[..i + 1][..i] == docs[..i];
  }

  lemma TallyStep(rs: seq<IndexResponse>, r: IndexResponse)
    ensures Tally(rs + [r]) == Absorb(Tally(rs), r)
  {
    assert (rs + [r])[..|rs|] == rs;
  }

  /** A batch stores as many records as its responses report indexed. */
  lemma {:induction false} BatchStoredCount(records: seq<StoredRecord>, faults: Faults,
                                            docs: seq<DocumentInput>, stamps: nat -> Stamp, proc: Processor)
    ensures var b := IndexBatch(records, faults, docs, stamps, proc);
      |b.added| == SumIndexed(b.responses)
  {
    if docs != [] {
      var n := |docs| - 1;
      BatchStoredCount(records, faults, docs[..n], stamps, proc);
      var prev := IndexBatch(records, faults, docs[..n], stamps, proc);
      var o := IngestInput(records + prev.added, faults, docs[n], stamps(n), proc);
      IndexBatchStep(records, faults, docs, n, stamps, proc);
      assert docs[..n + 1] == docs;
      SumsAppend(prev.responses, o.response);
    }
  }

  /** A response reports success exactly when it carries no error. */
  predicate Consistent(r: IndexResponse) {
    r.success <==> !HasErrors(r)
  }

  lemma ConsistentAppend(rs: seq<IndexResponse>, r: IndexResponse)
    requires forall i :: 0 <= i < |rs| ==> Consistent(rs[i])
    requires Consistent(r)
    ensures forall i :: 0 <= i < |rs + [r]| ==> Consistent((rs + [r])[i])
  {
  }

  /** Every response of a batch reports success exactly when it carries no error. */
  lemma {:induction false} BatchResponsesConsistent(records: seq<StoredRecord>, faults: Faults,
                                                    docs: seq<DocumentInput>, stamps: nat -> Stamp, proc: Processor)
    ensures var b := IndexBatch(records, faults, docs, stamps, proc);
      forall i :: 0 <= i < |docs| ==> Consistent(b.responses[i])
  {
    if docs != [] {
      var n := |docs| - 1;
      BatchResponsesConsistent(records, faults, docs[..n], stamps, proc);
      var prev := IndexBatch(records, faults, docs[..n], stamps, proc);
      var o := IngestInput(records + prev.added, faults, docs[n], stamps(n), proc);
      IndexBatchStep(records, faults, docs, n, stamps, proc);
      assert docs[..n + 1] == docs;
      ConsistentAppend(prev.responses, o.response);
    }
  }

  /** The batch succeeds exactly when every document does, and it reports as
      indexed exactly the number of records it stored. */
  lemma BatchReport(records: seq<StoredRecord>, faults: Faults, docs: seq<DocumentInput>,
                    stamps: nat -> Stamp, proc: Processor)
    ensures var b := IndexBatch(records, faults, docs, stamps, proc);
      && (Tally(b.responses).success <==> forall i :: 0 <= i < |docs| ==> b.responses[i].success)
      && Tally(b.responses).documentsIndexed == |b.added|
  {
    var b := IndexBatch(records, faults, docs, stamps, proc);
    TallyMeaning(b.responses);
    BatchStoredCount(records, faults, docs, stamps, proc);
    BatchResponsesConsistent(records, faults, docs, stamps, proc);
  }

  /** A short text indexed again with a different whitespace layout is
      recognised as a duplicate (as it is within one batch). */
  lemma RelaidTextSkippedOnReindex(records: seq<StoredRecord>, a: DocumentInput, b: DocumentInput,
                                   sa: Stamp, sb: Stamp, proc: Processor)
    requires Words(a.content) == Words(b.content)
    requires var c := CleanText(a.content);
      proc.split(c, DefaultChunkSize, DefaultChunkOverlap) == [c]
    ensures var first := IngestInput(records, Healthy, a, sa, proc);
      IngestInput(records + first.added, Healthy, b, sb, proc) == IngestOutcome(DuplicateResponse, [])
  {
    CleanTextSameIffSameWords(a.content, b.content);
    var d0 := ProcessText(a.content, a.docType, a.metadata, sa, proc.hash);
    var d1 := ProcessText(b.content, b.docType, b.metadata, sb, proc.hash);
    SingleChunkDocumentSkippedOnReindex(records, d0, d1, proc);
  }

  /** The body of the batch loop: fold one result into the running response. */
  method AddResult(acc: IndexResponse, result: IndexResponse) returns (results: IndexResponse)
    ensures results == Absorb(acc, result)
  {
    results := acc;
    results := results.(documentsIndexed := results.documentsIndexed + result.documentsIndexed);
    results := results.(duplicatesSkipped := results.duplicatesSkipped + result.duplicatesSkipped);
    if result.errors.Some? && |result.errors.value| > 0 && results.errors.Some? {
      results := results.(errors := Some(results.errors.value + result.errors.value), success := false);
    }
    if result.documentIds.Some? && results.documentIds.Some? {
      results := results.(documentIds := Some(results.documentIds.value + result.documentIds.value));
    }
  }

  /** `indexMultipleDocuments`: index each text in turn and fold the results. */
  method IndexMultipleDocuments(store: Store, proc: Processor, documents: seq<DocumentInput>,
                                stamps: nat -> Stamp) returns (results: IndexResponse)
    modifies store`records
    ensures var b := IndexBatch(old(store.records), store.faults, documents, stamps, proc);
      results == Tally(b.responses) && store.records == old(store.records) + b.added
  {
    results := EmptyTally;
    var i := 0;
    while i < |documents|
      invariant 0 <= i <= |documents|
      invariant var b := IndexBatch(old(store.records), store.faults, documents[..i], stamps, proc);
        results == Tally(b.responses) && store.records == old(store.records) + b.added
    {
      ghost var prev := IndexBatch(old(store.records), store.faults, documents[..i], stamps, proc);
      var doc := documents[i];
      var result := IndexDocument(store, proc, doc.content, doc.docType, doc.metadata, stamps(i));
      results := AddResult(results, result);
      IndexBatchStep(old(store.records), store.faults, documents, i, stamps, proc);
      TallyStep(prev.responses, result);
      AppendAssoc(old(store.records), prev.added,
                  IngestInput(old(store.records) + prev.added, store.faults, doc, stamps(i), proc).added);
      i := i + 1;
    }
    assert documents[..i] == documents;
  }

  // ---------------------------------------------------------------------------
  // Building the context from the hits

  /** The total length `buildContext` allows the context. */
  const MaxContextLength: nat := 2000
  /** The length past which a hit's text is cut in the context. */
  const SectionBodyLimit: nat := 500
  const UntitledDocument := "Untitled document"

  /** The stored metadata of hit `i`, when there is any. */
  function HitMetadata(res: RetrievalResult, i: nat): Option<Metadata> {
    if i < |res.metadatas| then res.metadatas[i] else None
  }

  /** `metadata?.title || 'Untitled document'`. */
  function HitTitle(res: RetrievalResult, i: nat): (r: string)
    ensures r != []
    ensures var m := HitMetadata(res, i);
      r == if m.Some? && Truthy(m.value.title) then m.value.title.value else UntitledDocument
  {
    var m := HitMetadata(res, i);
    OrElse(if m.Some? then m.value.title else None, UntitledDocument)
  }

  /** A hit's text as the context shows it: whole up to 500 characters, else
      its first 500 characters followed by `...`. */
  function BodyExcerpt(doc: string): (r: string)
    ensures |doc| <= SectionBodyLimit ==> r == doc
    ensures |doc| > SectionBodyLimit ==> r == doc[..SectionBodyLimit] + Ellipsis
    ensures |r| <= SectionBodyLimit + |Ellipsis|
  {
    if |doc| > SectionBodyLimit then doc[..SectionBodyLimit] + Ellipsis else doc
  }

  /** The text before a section's title, between its title and its body, and after its body. */
  const SectionOpen := "\n--- Document: "
  const SectionTitleClose := " ---\n"
  const SectionClose := "\n"

  /** One hit's section of the context: the labelled title, then the body
      excerpt, each in its place. */
  function Section(title: string, doc: string): (r: string)
    ensures |r| == 21 + |title| + |BodyExcerpt(doc)|
    ensures r[..|SectionOpen|] == SectionOpen
    ensures r[|SectionOpen|..|SectionOpen| + |title|] == title
    ensures r[|SectionOpen| + |title|..|SectionOpen| + |title| + |SectionTitleClose|] == SectionTitleClose
    ensures var b := |SectionOpen| + |title| + |SectionTitleClose|;
      r[b..b + |BodyExcerpt(doc)|] == BodyExcerpt(doc)
    ensures r[|r| - 1..] == SectionClose
  {
    Parts(SectionOpen, title, SectionTitleClose, BodyExcerpt(doc), SectionClose);
    SectionOpen + title + SectionTitleClose + BodyExcerpt(doc) + SectionClose
  }

  /** Where each of five concatenated parts sits in the whole. */
  lemma Parts(a: string, b: string, c: string, d: string, e: string)
    ensures var r := a + b + c + d + e;
      && r[..|a|] == a
      && r[|a|..|a| + |b|] == b
      && r[|a| + |b|..|a| + |b| + |c|] == c
      && r[|a| + |b| + |c|..|a| + |b| + |c| + |d|] == d
      && r[|r| - |e|..] == e
  {
    var r := a + b + c + d + e;
    var p := |a| + |b|;
    var q := p + |c|;
    assert r[|a|..p] == b by {
      forall i | 0 <= i < |b| ensures r[|a| + i] == b[i] { }
    }
    assert r[p..q] == c by {
      forall i | 0 <= i < |c| ensures r[p + i] == c[i] { }
    }
    assert r[q..q + |d|] == d by {
      forall i | 0 <= i < |d| ensures r[q + i] == d[i] { }
    }
  }

  /** The section of every hit, in order of relevance. */
  function ContextSections(res: RetrievalResult): (secs: seq<string>)
    ensures |secs| == |res.documents|
    ensures forall i :: 0 <= i < |secs| ==> secs[i] == Section(HitTitle(res, i), res.documents[i])
  {
    seq(|res.documents|, i requires 0 <= i < |res.documents| => Section(HitTitle(res, i), res.documents[i]))
  }

  /** How many of the leading sections fit the budget when `used` characters
      are already taken: sections are taken in order until the first that
      would overflow. */
  function FittingSections(secs: seq<string>, used: nat): (n: nat)
    ensures n <= |secs|
  {
    if secs == [] || used + |secs[0]| > MaxContextLength then 0
    else 1 + FittingSections(secs[1..], used + |secs[0]|)
  }

  /** The context `buildContext` builds: the leading sections that fit, concatenated. */
  function ContextFor(res: RetrievalResult): (context: string)
    ensures |context| <= MaxContextLength
    ensures res.documents == [] ==> context == ""
  {
    var secs := ContextSections(res);
    FittingSplit(secs, FittingSections(secs, 0));
    Concat(secs[..FittingSections(secs, 0)])
  }

  lemma ConcatPrefixStep(ss: seq<string>, k: nat)
    requires k < |ss|
    ensures Concat(ss[..k + 1]) == Concat(ss[..k]) + ss[k]
  {
    assert ss[..k + 1][..k] == ss[..k];
  }

  /** A longer prefix of the sections never concatenates to a shorter text. */
  lemma {:induction false} ConcatPrefixMonotone(ss: seq<string>, m: nat, k: nat)
    requires m <= k <= |ss|
    ensures |Concat(ss[..m])| <= |Concat(ss[..k])|
    decreases k - m
  {
    if m < k {
      ConcatPrefixMonotone(ss, m, k - 1);
      ConcatPrefixStep(ss, k - 1);
    }
  }

  /** Taking `k` fitting sections first leaves the rest of the count to the remaining sections. */
  lemma {:induction false} FittingSplit(secs: seq<string>, k: nat)
    requires k <= FittingSections(secs, 0)
    ensures |Concat(secs[..k])| <= MaxContextLength
    ensures FittingSections(secs, 0) == k + FittingSections(secs[k..], |Concat(secs[..k])|)
  {
    if k == 0 {
      assert secs[..0] == [] && secs[0..] == secs;
    } else {
      FittingSplit(secs, k - 1);
      var used := |Concat(secs[..k - 1])|;
      ConcatPrefixStep(secs, k - 1);
      assert secs[k - 1..][0] == secs[k - 1] && secs[k - 1..][1..] == secs[k..];
    }
  }

  /**
   * The context is the LONGEST run of leading sections that fits in 2000
   * characters: a prefix of the sections fits exactly when it is no longer
   * than the one chosen. In particular a later, shorter section is never
   * taken once one has overflowed.
   */
  lemma ContextIsLongestFittingPrefix(res: RetrievalResult)
    ensures |ContextFor(res)| <= MaxContextLength
    ensures res.documents == [] ==> ContextFor(res) == ""
    ensures var secs := ContextSections(res);
      forall m :: 0 <= m <= |secs| ==> (|Concat(secs[..m])| <= MaxContextLength <==> m <= FittingSections(secs, 0))
  {
    var secs := ContextSections(res);
    var n := FittingSections(secs, 0);
    FittingSplit(secs, n);
    forall m | 0 <= m <= |secs|
      ensures |Concat(secs[..m])| <= MaxContextLength <==> m <= n
    {
      if m <= n {
        ConcatPrefixMonotone(secs, m, n);
      } else {
        assert secs[n..][0] == secs[n];
        ConcatPrefixStep(secs, n);
        ConcatPrefixMonotone(secs, n + 1, m);
      }
    }
  }

  /** Counting the fitting sections from position `k` on. */
  lemma FittingFrom(secs: seq<string>, k: nat, used: nat)
    requires k < |secs|
    ensures FittingSections(secs[k..], used)
         == if used + |secs[k]| > MaxContextLength then 0 else 1 + FittingSections(secs[k + 1..], used + |secs[k]|)
  {
    assert secs[k..][0] == secs[k] && secs[k..][1..] == secs[k + 1..];
  }

  /** `buildContext`: append the sections in order, stopping at the first that would overflow 2000 characters. */
  method BuildContext(res: RetrievalResult) returns (context: string)
    ensures context == ContextFor(res)
  {
    ghost var secs := ContextSections(res);
    var documents := res.documents;
    context := "";
    var index := 0;
    assert secs[0..] == secs;
    while index < |documents|
      invariant 0 <= index <= |documents|
      invariant index <= FittingSections(secs, 0)
      invariant context == Concat(secs[..index])
      invariant FittingSections(secs, 0) == index + FittingSections(secs[index..], |context|)
    {
      var docSection := Section(HitTitle(res, index), documents[index]);
      FittingFrom(secs, index, |context|);
      if |context| + |docSection| > MaxContextLength {
        break;
      }
      ConcatPrefixStep(secs, index);
      context := context + docSection;
      index := index + 1;
    }
    assert index == FittingSections(secs, 0) by {
      if index == |documents| {
        assert secs[index..] == [];
      }
    }
  }

  // ---------------------------------------------------------------------------
  // Sources

  const ExcerptLength: nat := 300
  const NoExcerpt := "No excerpt available"

  /** The text of hit `i`, when the hits have one: reading past the end is `undefined`. */
  function HitDocument(res: RetrievalResult, i: nat): Option<string> {
    if i < |res.documents| then Some(res.documents[i]) else None
  }

  /** `1 - (distance || 0)`. */
  function Similarity(res: RetrievalResult, i: nat): (r: real)
    ensures i < |res.distances| && res.distances[i].Some? ==> r == 1.0 - res.distances[i].value
    ensures i >= |res.distances| || res.distances[i].None? ==> r == 1.0
  {
    var d := if i < |res.distances| then res.distances[i] else None;
    1.0 - (if d.Some? then d.value else 0.0)
  }

  /**
   * `buildSources`: one source per hit id. The excerpt is the first 300
   * characters of the hit's text followed by `...`; for a hit with no text
   * the concatenation gives `undefined...`, and the `No excerpt available`
   * fallback can never be chosen, since the concatenation is never empty.
   */
  function BuildSources(res: RetrievalResult): (r: seq<Source>)
    ensures |r| == |res.ids|
    ensures forall i :: 0 <= i < |r| ==>
      && r[i].documentId == res.ids[i]
      && r[i].title == HitTitle(res, i)
      && r[i].similarity == Similarity(res, i)
      && EndsWith(r[i].excerpt, Ellipsis)
      && |r[i].excerpt| <= ExcerptLength + |Ellipsis|
      && (i < |res.documents| ==>
            && r[i].excerpt == Prefix(res.documents[i], ExcerptLength) + Ellipsis
            && r[i].excerpt[..|r[i].excerpt| - |Ellipsis|] <= res.documents[i]
            && (|res.documents[i]| >= ExcerptLength ==> |r[i].excerpt| == ExcerptLength + |Ellipsis|))
      && (i >= |res.documents| ==> r[i].excerpt == "undefined...")
  {
    seq(|res.ids|, i requires 0 <= i < |res.ids| =>
      var doc := HitDocument(res, i);
      var excerpt := (if doc.Some? then Prefix(doc.value, ExcerptLength) else "undefined") + Ellipsis;
      Source(res.ids[i], HitTitle(res, i), if excerpt != [] then excerpt else NoExcerpt, Similarity(res, i)))
  }

  // ---------------------------------------------------------------------------
  // Query type

  const SummaryKeywords := ["summary", "summarize", "overview", "synthesis", "résumé", "résumer", "sommaire", "synthèse"]
  const AnalysisKeywords := ["analyze", "analysis", "examine", "evaluate", "analyser", "analyse", "examiner", "évaluer"]

  /** `text.includes(k1) || text.includes(k2) || ...`. */
  function MentionsAny(text: string, keywords: seq<string>): (r: bool)
    ensures r <==> exists i :: 0 <= i < |keywords| && Contains(text, keywords[i])
  {
    if keywords == [] then false
    else Contains(text, keywords[0]) || MentionsAny(text, keywords[1..])
  }

  /**
   * `inferQueryType`: on the lower-cased query, a summary keyword makes a
   * summary (even when an analysis keyword is present too), else an
   * analysis keyword makes an analysis, else it is a question.
   */
  function InferQueryType(query: string): (r: QueryType)
    ensures !r.Unrecognised?
    ensures r == Summary <==> MentionsAny(Lower(query), SummaryKeywords)
    ensures r == Analysis <==> !MentionsAny(Lower(query), SummaryKeywords) && MentionsAny(Lower(query), AnalysisKeywords)
  {
    var lowerQuery := Lower(query);
    if MentionsAny(lowerQuery, SummaryKeywords) then Summary
    else if MentionsAny(lowerQuery, AnalysisKeywords) then Analysis
    else Question
  }

  /** The query type does not depend on letter case. */
  lemma InferQueryTypeIgnoresCase(query: string)
    ensures InferQueryType(Lower(query)) == InferQueryType(query)
  {
    LowerIdempotent(query);
  }

  // ---------------------------------------------------------------------------
  // Answering

  const DefaultMaxResults := 5
  const NoDocumentsAnswer := "I did not find any relevant documents to answer your question."

  /** `request.maxResults || 5`: an absent or zero count means five. */
  function MaxResults(requested: Option<int>): (n: int)
    ensures n != 0
    ensures requested.Some? && requested.value != 0 ==> n == requested.value
    ensures requested.None? || requested == Some(0) ==> n == DefaultMaxResults
  {
    if requested.Some? && requested.value != 0 then requested.value else DefaultMaxResults
  }

  /** The answer to a query once the hits are known: no hits, no model call. */
  function Answer(request: QueryRequest, hits: RetrievalResult, model: Generator): (r: Result<QueryResponse, string>)
    ensures hits.ids == [] ==> r == Success(QueryResponse(NoDocumentsAnswer, []))
    ensures hits.ids != [] && r.Success? ==>
      model(GenerationPrompt(request.query, ContextFor(hits), request.queryType)) == Success(r.value.answer)
      && r.value.sources == BuildSources(hits)
      && |r.value.sources| == |hits.ids|
    ensures hits.ids != [] && r.Failure? ==>
      model(GenerationPrompt(request.query, ContextFor(hits), request.queryType)) == Failure(r.error)
  {
    if hits.ids == [] then Success(QueryResponse(NoDocumentsAnswer, []))
    else
      match GenerateResponse(request.query, ContextFor(hits), request.queryType, model)
      case Failure(e) => Failure(e)
      case Success(answer) => Success(QueryResponse(answer, BuildSources(hits)))
  }

  /** `query`: search the store for the request's query, then answer from the hits. */
  method Query(store: Store, request: QueryRequest, model: Generator) returns (r: Result<QueryResponse, string>)
    ensures store.faults.write.Some? ==> r == Failure(store.faults.write.value)
    ensures store.faults.write.None? ==>
      r == Answer(request, store.search(store.records, request.query, MaxResults(request.maxResults)), model)
  {
    var maxResults := MaxResults(request.maxResults);
    var retrieval := store.QueryDocuments(request.query, maxResults);
    if retrieval.Failure? {
      return Failure(retrieval.error);
    }
    var hits := retrieval.value;
    if |hits.ids| == 0 {
      return Success(QueryResponse(NoDocumentsAnswer, []));
    }
    var context := BuildContext(hits);
    var answer := GenerateResponse(request.query, context, request.queryType, model);
    if answer.Failure? {
      return Failure(answer.error);
    }
    var sources := BuildSources(hits);
    r := Success(QueryResponse(answer.value, sources));
  }

  // ---------------------------------------------------------------------------
  // Analysing an uploaded PDF

  const DefaultAnalysisQuery := "Provide a comprehensive summary of this legal document, including key points, involved parties, and legal implications."
  const AnalysisContextLimit: nat := 10000
  const AnalysisExcerptLength: nat := 500

  /**
   * `analyzeDocument`: extract the PDF (not indexed), ask the model about its
   * first 10000 characters with the caller's question or a default summary
   * request, and cite the PDF itself as the one source. A question picks the
   * query type; without one the type is a summary.
   */
  function AnalyzeDocument(buffer: seq<bv8>, query: Option<string>, stamp: Stamp, proc: Processor,
                           model: Generator): (r: Result<QueryResponse, string>)
    ensures proc.parsePdf(buffer).Failure? ==> r == Failure(proc.parsePdf(buffer).error)
    ensures r.Success? ==>
      var pdf := proc.parsePdf(buffer).value;
      && proc.parsePdf(buffer).Success?
      && r.value.sources == [Source("uploaded_document", PdfTitle(None, pdf.info),
                                    Prefix(pdf.text, AnalysisExcerptLength) + Ellipsis, 1.0)]
  {
    match ProcessPDF(proc.parsePdf(buffer), None, stamp, proc.hash)
    case Failure(e) => Failure(e)
    case Success(document) =>
      var context := document.content;
      var question := AnalysisQuestion(query);
      var queryType := AnalysisQueryType(query);
      match GenerateResponse(question, Prefix(context, AnalysisContextLimit), queryType, model)
      case Failure(e) => Failure(e)
      case Success(answer) =>
        var title := OrElse(document.metadata.title, "Uploaded document");
        Success(QueryResponse(answer, [Source("uploaded_document", title,
                                              Prefix(context, AnalysisExcerptLength) + Ellipsis, 1.0)]))
  }

  /** The question the model is asked about an uploaded PDF: the caller's, else the default request. */
  function AnalysisQuestion(query: Option<string>): (q: string)
    ensures Truthy(query) ==> q == query.value
    ensures !Truthy(query) ==> q == DefaultAnalysisQuery
  {
    OrElse(query, DefaultAnalysisQuery)
  }

  /** The query type of an analysis: inferred from the caller's question, a summary without one. */
  function AnalysisQueryType(query: Option<string>): (t: QueryType)
    ensures !Truthy(query) ==> t == Summary
    ensures Truthy(query) ==> t == InferQueryType(query.value)
  {
    if Truthy(query) then InferQueryType(query.value) else Summary
  }

  /**
   * The answer of an analysis is the model's answer to the prompt built
   * around the WHOLE extracted text: cutting it to 10000 characters first
   * makes no difference, since generation cuts it to 2500 anyway. A model
   * failure propagates.
   */
  lemma AnalyzeDocumentAsksAboutWholeText(buffer: seq<bv8>, query: Option<string>, stamp: Stamp,
                                          proc: Processor, model: Generator)
    requires proc.parsePdf(buffer).Success?
    ensures var answer := model(GenerationPrompt(AnalysisQuestion(query), proc.parsePdf(buffer).value.text,
                                                 AnalysisQueryType(query)));
      var r := AnalyzeDocument(buffer, query, stamp, proc, model);
      && (answer.Failure? ==> r == Failure(answer.error))
      && (answer.Success? ==> r.Success? && r.value.answer == answer.value)
  {
    GenerationPromptOfPrefix(AnalysisQuestion(query), proc.parsePdf(buffer).value.text, AnalysisContextLimit,
                             AnalysisQueryType(query));
  }
}
