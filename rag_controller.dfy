/**
 * The HTTP layer's own logic: the checks on uploaded files before the
 * service is called, and the multi-PDF upload, which folds the per-file
 * results itself and reports a non-PDF file as an error without failing.
 *
 * A rejected request is a `BadRequest`; an error the service throws is
 * passed on as a `ServerError`.
 */
module RagController {
  import opened Wrappers
  import opened Strings
  import opened Model
  import opened DocumentProcessor
  import opened VectorStore
  import opened Ollama
  import opened RagService

  /** What the upload layer hands over for one file. */
  datatype UploadedFile = UploadedFile(originalname: string, mimetype: string, buffer: seq<bv8>)

  datatype HttpError = BadRequest(message: string) | ServerError(message: string)

  const PdfMimeType := "application/pdf"
  const NoFileMessage := "Aucun fichier fourni"
  const NotPdfMessage := "Le fichier doit être un PDF"

  /** The error a non-PDF file of a multi-file upload adds. */
  function NotPdfError(name: string): string {
    name + " n'est pas un PDF"
  }

  /** The checks of the single-file endpoints: a file must be present and be
      a PDF; the result is the rejection message, if any. */
  function CheckUpload(file: Option<UploadedFile>): (rejection: Option<string>)
    ensures rejection.None? <==> file.Some? && file.value.mimetype == PdfMimeType
    ensures file.None? ==> rejection == Some(NoFileMessage)
    ensures file.Some? && file.value.mimetype != PdfMimeType ==> rejection == Some(NotPdfMessage)
  {
    if file.None? then Some(NoFileMessage)
    else if file.value.mimetype != PdfMimeType then Some(NotPdfMessage)
    else None
  }

  /** `indexPDF`: a rejected upload changes nothing; an accepted one is indexed
      with the metadata the request carried. */
  method IndexPDF(store: Store, proc: Processor, file: Option<UploadedFile>, metadata: Option<Metadata>,
                  stamp: Stamp) returns (r: Result<IndexResponse, HttpError>)
    modifies store`records
    ensures CheckUpload(file).Some? ==>
      r == Failure(BadRequest(CheckUpload(file).value)) && store.records == old(store.records)
    ensures CheckUpload(file).None? ==>
      var o := IngestResult(old(store.records), store.faults,
                            ProcessPDF(proc.parsePdf(file.value.buffer), metadata, stamp, proc.hash), proc);
      r == Success(o.response) && store.records == old(store.records) + o.added
  {
    var rejection := CheckUpload(file);
    if rejection.Some? {
      return Failure(BadRequest(rejection.value));
    }
    var response := RagService.IndexPDF(store, proc, file.value.buffer, metadata, stamp);
    r := Success(response);
  }

  /** `analyzePDF`: a rejected upload is a bad request; otherwise the analysis,
      whose errors become server errors. */
  function AnalyzePDF(file: Option<UploadedFile>, query: Option<string>, stamp: Stamp, proc: Processor,
                      model: Generator): (r: Result<QueryResponse, HttpError>)
    ensures CheckUpload(file).Some? ==> r == Failure(BadRequest(CheckUpload(file).value))
    ensures CheckUpload(file).None? ==>
      var a := AnalyzeDocument(file.value.buffer, query, stamp, proc, model);
      (a.Success? ==> r == Success(a.value)) && (a.Failure? ==> r == Failure(ServerError(a.error)))
  {
    var rejection := CheckUpload(file);
    if rejection.Some? then Failure(BadRequest(rejection.value))
    else
      match AnalyzeDocument(file.value.buffer, query, stamp, proc, model)
      case Failure(e) => Failure(ServerError(e))
      case Success(v) => Success(v)
  }

  // ---------------------------------------------------------------------------
  // Uploading several PDFs

  /** What happened to one file of a multi-file upload. */
  datatype FileOutcome = NotPdf(name: string) | Indexed(response: IndexResponse)

  /** One step of the upload loop. A non-PDF file only appends its error; an
      indexed file adds its counts, appends its errors and fails the upload
      when it has any, and appends its ids. */
  function AbsorbFile(acc: IndexResponse, outcome: FileOutcome): (r: IndexResponse)
    ensures outcome.NotPdf? ==>
      && r.success == acc.success
      && r.documentsIndexed == acc.documentsIndexed && r.duplicatesSkipped == acc.duplicatesSkipped
      && r.documentIds == acc.documentIds
      && (acc.errors.Some? ==> r.errors == Some(acc.errors.value + [NotPdfError(outcome.name)]))
    ensures outcome.Indexed? ==>
      && r.documentsIndexed == acc.documentsIndexed + outcome.response.documentsIndexed
      && r.duplicatesSkipped == acc.duplicatesSkipped + outcome.response.duplicatesSkipped
      && (r.success <==> acc.success && !HasErrors(outcome.response))
    ensures acc.errors.None? ==> r.errors.None?
    ensures acc.documentIds.None? ==> r.documentIds.None?
  {
    match outcome
    case NotPdf(name) =>
      if acc.errors.Some? then acc.(errors := Some(acc.errors.value + [NotPdfError(name)])) else acc
    case Indexed(result) =>
      var counted := acc.(documentsIndexed := acc.documentsIndexed + result.documentsIndexed,
                          duplicatesSkipped := acc.duplicatesSkipped + result.duplicatesSkipped);
      var withErrors := if HasErrors(result) then
                          (if counted.errors.Some? then counted.(errors := Some(counted.errors.value + result.errors.value))
                           else counted).(success := false)
                        else counted;
      if result.documentIds.Some? && withErrors.documentIds.Some? then
        withErrors.(documentIds := Some(withErrors.documentIds.value + result.documentIds.value))
      else withErrors
  }

  /** The upload's combined response. */
  function FileTally(outcomes: seq<FileOutcome>): (t: IndexResponse)
    ensures t.errors.Some? && t.documentIds.Some?
  {
    if outcomes == [] then EmptyTally
    else AbsorbFile(FileTally(outcomes[..|outcomes| - 1]), outcomes[|outcomes| - 1])
  }

  /** The response a file's outcome contributes: its own, or for a non-PDF a
      response holding only the file's error. */
  function AsResponse(outcome: FileOutcome): IndexResponse {
    match outcome
    case NotPdf(name) => IndexResponse(true, 0, 0, Some([NotPdfError(name)]), None)
    case Indexed(result) => result
  }

  function AsResponses(outcomes: seq<FileOutcome>): (rs: seq<IndexResponse>)
    ensures |rs| == |outcomes|
    ensures forall i :: 0 <= i < |outcomes| ==> rs[i] == AsResponse(outcomes[i])
  {
    seq(|outcomes|, i requires 0 <= i < |outcomes| => AsResponse(outcomes[i]))
  }

  /** Some indexed file reported an error. */
  predicate AnyIndexingError(outcomes: seq<FileOutcome>) {
    exists i :: 0 <= i < |outcomes| && outcomes[i].Indexed? && HasErrors(outcomes[i].response)
  }

  /**
   * The upload counts, lists errors and lists ids exactly as the batch of
   * texts does over the same responses, with each non-PDF file contributing
   * its error; but its success ignores the non-PDF errors: it fails only
   * when an indexed file reported an error.
   */
  lemma {:induction false} FileTallyIsTally(outcomes: seq<FileOutcome>)
    ensures FileTally(outcomes) == Tally(AsResponses(outcomes)).(success := !AnyIndexingError(outcomes))
  {
    if outcomes != [] {
      var front := outcomes[..|outcomes| - 1];
      var last := outcomes[|outcomes| - 1];
      FileTallyIsTally(front);
      assert AsResponses(outcomes) == AsResponses(front) + [AsResponse(last)];
      TallyStep(AsResponses(front), AsResponse(last));
      AbsorbFileIsAbsorb(Tally(AsResponses(front)), !AnyIndexingError(front), last);
      AnyIndexingErrorAppend(front, last);
      assert outcomes == front + [last];
    }
  }

  lemma AnyIndexingErrorAppend(front: seq<FileOutcome>, last: FileOutcome)
    ensures AnyIndexingError(front + [last]) <==> AnyIndexingError(front) || (last.Indexed? && HasErrors(last.response))
  {
    var all := front + [last];
    if i :| 0 <= i < |all| && all[i].Indexed? && HasErrors(all[i].response) {
      if i < |front| {
        assert front[i] == all[i];
      }
    }
    if i :| 0 <= i < |front| && front[i].Indexed? && HasErrors(front[i].response) {
      assert all[i] == front[i];
    }
    if last.Indexed? && HasErrors(last.response) {
      assert all[|front|] == last;
    }
  }

  /** One step of the upload is one step of the batch of texts, but for success. */
  lemma AbsorbFileIsAbsorb(t: IndexResponse, success: bool, outcome: FileOutcome)
    requires t.errors.Some? && t.documentIds.Some?
    ensures AbsorbFile(t.(success := success), outcome)
         == Absorb(t, AsResponse(outcome)).(success := success && !(outcome.Indexed? && HasErrors(outcome.response)))
  {
  }

  /** The upload's report in full: the sums over the indexed files, every
      error and id in order, and success unless an indexed file failed. */
  lemma FileTallyMeaning(outcomes: seq<FileOutcome>)
    ensures var t := FileTally(outcomes); var rs := AsResponses(outcomes);
      && t.success == !AnyIndexingError(outcomes)
      && t.documentsIndexed == SumIndexed(rs) && t.duplicatesSkipped == SumSkipped(rs)
      && t.errors == Some(AllErrors(rs)) && t.documentIds == Some(AllIds(rs))
  {
    FileTallyIsTally(outcomes);
    TallyMeaning(AsResponses(outcomes));
  }

  /** What the upload does: file `i` is skipped when it is not a PDF, and is
      otherwise indexed with `stamps(i)` against the records the earlier
      files left. */
  datatype FilesOutcome = FilesOutcome(outcomes: seq<FileOutcome>, added: seq<StoredRecord>)

  /** Indexing one accepted file of an upload (no metadata is passed). */
  function IngestFile(records: seq<StoredRecord>, faults: Faults, file: UploadedFile, stamp: Stamp,
                      proc: Processor): IngestOutcome
  {
    IngestResult(records, faults, ProcessPDF(proc.parsePdf(file.buffer), None, stamp, proc.hash), proc)
  }

  function IndexFiles(records: seq<StoredRecord>, faults: Faults, files: seq<UploadedFile>,
                      stamps: nat -> Stamp, proc: Processor): (b: FilesOutcome)
    ensures |b.outcomes| == |files|
  {
    if files == [] then FilesOutcome([], [])
    else
      var prev := IndexFiles(records, faults, files[..|files| - 1], stamps, proc);
      var file := files[|files| - 1];
      if file.mimetype != PdfMimeType then
        FilesOutcome(prev.outcomes + [NotPdf(file.originalname)], prev.added)
      else
        var o := IngestFile(records + prev.added, faults, file, stamps(|files| - 1), proc);
        FilesOutcome(prev.outcomes + [Indexed(o.response)], prev.added + o.added)
  }

  lemma IndexFilesStep(records: seq<StoredRecord>, faults: Faults, files: seq<UploadedFile>, i: nat,
                       stamps: nat -> Stamp, proc: Processor)
    requires i < |files|
    ensures var prev := IndexFiles(records, faults, files[..i], stamps, proc);
      var file := files[i];
      var o := IngestFile(records + prev.added, faults, file, stamps(i), proc);
      IndexFiles(records, faults, files[..i + 1], stamps, proc)
        == if file.mimetype != PdfMimeType then FilesOutcome(prev.outcomes + [NotPdf(file.originalname)], prev.added)
           else FilesOutcome(prev.outcomes + [Indexed(o.response)], prev.added + o.added)
  {
    assert files[..i + 1][..i] == files[..i];
  }

  lemma FileTallyStep(outcomes: seq<FileOutcome>, outcome: FileOutcome)
    ensures FileTally(outcomes + [outcome]) == AbsorbFile(FileTally(outcomes), outcome)
  {
    assert (outcomes + [outcome])[..|outcomes|] == outcomes;
  }

  /** Non-PDF files store nothing and are reported as non-PDF, in order. */
  lemma {:induction false} NonPdfFilesOnly(records: seq<StoredRecord>, faults: Faults,
                                           files: seq<UploadedFile>, stamps: nat -> Stamp, proc: Processor)
    requires forall i :: 0 <= i < |files| ==> files[i].mimetype != PdfMimeType
    ensures var b := IndexFiles(records, faults, files, stamps, proc);
      b.added == [] && forall i :: 0 <= i < |files| ==> b.outcomes[i] == NotPdf(files[i].originalname)
  {
    if files != [] {
      var n := |files| - 1;
      NonPdfFilesOnly(records, faults, files[..n], stamps, proc);
      IndexFilesStep(records, faults, files, n, stamps, proc);
      assert files[..n + 1] == files;
    }
  }

  /**
   * An upload of non-PDF files only indexes nothing and lists one error per
   * file, yet reports success: the non-PDF branch never clears `success`.
   */
  lemma NonPdfUploadReportsSuccess(records: seq<StoredRecord>, faults: Faults,
                                   files: seq<UploadedFile>, stamps: nat -> Stamp, proc: Processor)
    requires files != []
    requires forall i :: 0 <= i < |files| ==> files[i].mimetype != PdfMimeType
    ensures var b := IndexFiles(records, faults, files, stamps, proc);
      var t := FileTally(b.outcomes);
      && b.added == [] && t.success && t.documentsIndexed == 0
      && t.errors.Some? && |t.errors.value| == |files|
  {
    var b := IndexFiles(records, faults, files, stamps, proc);
    NonPdfFilesOnly(records, faults, files, stamps, proc);
    NotPdfTally(b.outcomes);
  }

  lemma {:induction false} NotPdfTally(outcomes: seq<FileOutcome>)
    requires forall i :: 0 <= i < |outcomes| ==> outcomes[i].NotPdf?
    ensures var t := FileTally(outcomes);
      t.success && t.documentsIndexed == 0 && t.errors.Some? && |t.errors.value| == |outcomes|
  {
    if outcomes != [] {
      NotPdfTally(outcomes[..|outcomes| - 1]);
    }
  }

  /** The body of the upload loop for an indexed file. */
  method AddFileResult(acc: IndexResponse, result: IndexResponse) returns (results: IndexResponse)
    ensures results == AbsorbFile(acc, Indexed(result))
  {
    results := acc;
    results := results.(documentsIndexed := results.documentsIndexed + result.documentsIndexed);
    results := results.(duplicatesSkipped := results.duplicatesSkipped + result.duplicatesSkipped);
    if result.errors.Some? && |result.errors.value| > 0 {
      if results.errors.Some? {
        results := results.(errors := Some(results.errors.value + result.errors.value));
      }
      results := results.(success := false);
    }
    if result.documentIds.Some? && results.documentIds.Some? {
      results := results.(documentIds := Some(results.documentIds.value + result.documentIds.value));
    }
  }

  /** `indexMultiplePDFs`: reject an upload without files; otherwise index
      each PDF in turn, note each non-PDF, and fold the results. */
  method IndexMultiplePDFs(store: Store, proc: Processor, files: Option<seq<UploadedFile>>,
                           stamps: nat -> Stamp) returns (r: Result<IndexResponse, HttpError>)
    modifies store`records
    ensures files.None? || files.value == [] ==>
      r == Failure(BadRequest(NoFileMessage)) && store.records == old(store.records)
    ensures files.Some? && files.value != [] ==>
      var b := IndexFiles(old(store.records), store.faults, files.value, stamps, proc);
      r == Success(FileTally(b.outcomes)) && store.records == old(store.records) + b.added
  {
    if files.None? || |files.value| == 0 {
      return Failure(BadRequest(NoFileMessage));
    }
    var uploads := files.value;
    var results := EmptyTally;
    var i := 0;
    while i < |uploads|
      invariant 0 <= i <= |uploads|
      invariant var b := IndexFiles(old(store.records), store.faults, uploads[..i], stamps, proc);
        results == FileTally(b.outcomes) && store.records == old(store.records) + b.added
    {
      ghost var prev := IndexFiles(old(store.records), store.faults, uploads[..i], stamps, proc);
      var file := uploads[i];
      IndexFilesStep(old(store.records), store.faults, uploads, i, stamps, proc);
      if file.mimetype != PdfMimeType {
        if results.errors.Some? {
          results := results.(errors := Some(results.errors.value + [NotPdfError(file.originalname)]));
        }
        FileTallyStep(prev.outcomes, NotPdf(file.originalname));
        i := i + 1;
        continue;
      }
      var result := RagService.IndexPDF(store, proc, file.buffer, None, stamps(i));
      results := AddFileResult(results, result);
      FileTallyStep(prev.outcomes, Indexed(result));
      AppendAssoc(old(store.records), prev.added,
                  IngestFile(old(store.records) + prev.added, store.faults, file, stamps(i), proc).added);
      i := i + 1;
    }
    assert uploads[..i] == uploads;
    r := Success(results);
  }
}
