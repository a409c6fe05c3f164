# lexconsilia core in Dafny

A model of the retrieval-augmented legal assistant's ingestion and query
pipeline:

- **Ingestion.** A text is cleaned (whitespace runs collapsed, ends trimmed) and
  hashed. A PDF's extracted text is hashed as it is.
- **Deduplication.** The store is asked whether that hash exists. A known hash
  is skipped. Otherwise the document is split into chunk records, which are
  added to the store.
- **Batches.** A batch of texts, and a multi-file PDF upload, fold their
  per-item responses into one report.
- **Queries.**
  - The store's hits are packed into a context under a 2000-character budget.
  - The context is cut again to 2500 characters before the prompt is built
    around it.
  - Each hit becomes a cited source.
  - The query type is inferred from keywords.
- **Analysis.** An uploaded PDF can be analysed without being indexed.

Collaborators are parameters of the model:

| Collaborator | Modelled as |
|---|---|
| SHA-256 digest | `Hasher` |
| LangChain splitter | `Splitter` |
| pdf-parse | a function from bytes to text-or-error |
| language model | `Generator` |
| vector store's similarity search | `Search` |
| ids and timestamps | `Stamp`s |

The vector store is a `Store` object. Its `records` field is only ever appended to. Its `faults` tell apart a failing lookup by hash, which the existence check swallows, from a failing write or query, which propagates; a collection that cannot be reached has both.

Modules:

| Module | File | Contents |
|---|---|---|
| `Wrappers`, `Strings` | `common.dfy` | `Option`/`Result`; JavaScript string operations (`\s`, `trim`, `toLowerCase`, `substring`, `includes`) |
| `Model` | `model.dfy` | document types, query types, metadata, document and response records |
| `LegalQueryPrompt` | `prompt.dfy` | system prompts and the prompt template |
| `Ollama` | `ollama.dfy` | context truncation and the generation prompt |
| `TextCleaning` | `cleaning.dfy` | `cleanText` and its meaning as joined words |
| `DocumentProcessor` | `processor.dfy` | `processText`, `processPDF`, `chunkDocument`, title extraction |
| `VectorStore` | `store.dfy` | the `Store` class (`checkDocumentExists`, `addDocuments`, `queryDocuments`) |
| `RagService` | `rag_service.dfy` | `indexDocument`, `indexPDF`, `indexMultipleDocuments`, `buildContext`, `buildSources`, `inferQueryType`, `query`, `analyzeDocument` |
| `RagController` | `rag_controller.dfy` | upload checks, `indexMultiplePDFs` |

Behaviours of the code worth noting:

- **Multi-PDF upload.** A non-PDF file in a multi-PDF upload adds an error but
  leaves `success` true. An upload made only of non-PDF files therefore reports
  success (`NonPdfUploadReportsSuccess`).
- **Deduplication.**
  - The existence check asks for the hash of the WHOLE processed document.
  - The store only keeps records of CHUNKS, each with the hash of its own
    content.
  - The check matches the hash of ANY stored record. A re-indexed document is
    therefore recognised only when some stored chunk record, of this or of any
    other document, carries the digest of its whole content. That is the usual
    case for a text of one chunk (`SingleChunkDocumentSkippedOnReindex`).
  - A document split into several chunks is stored again in full
    (`SplitDocumentStoredAgainOnReindex`).
- **Lookup failures.** `checkDocumentExists` answers "not present" when its
  lookup fails (src/rag/services/chromadb.service.ts:101-104), so a document
  already stored is chunked and stored again when the lookup fails and the
  write succeeds (`FailedLookupStoresAgain`).
- **PDF text.** The text extracted from a PDF is neither cleaned nor
  deduplicated on cleaned text. It is hashed exactly as extracted.

## Model

| member | source | states |
|---|---|---|
| TextCleaning.CleanText | src/rag/services/document-processor.service.ts:95-101 | the cleaned text has no whitespace at either end, its only whitespace is the plain space, and no two whitespace characters are adjacent |
| TextCleaning.CleanTextIsJoinedWords | src/rag/services/document-processor.service.ts:95-101 | collapsing then trimming equals the text's words joined by single spaces |
| TextCleaning.CollapseIsJoin | src/rag/services/document-processor.service.ts:97 | `CollapseSpaces` (the `replace(/\s+/g, ' ')` step) turns a text without leading whitespace into its words joined by single spaces, followed by one space when the text ends in whitespace |
| TextCleaning.CleanTextIdempotent | src/rag/services/document-processor.service.ts:97-99 | cleaning twice is cleaning once |
| TextCleaning.CleanTextSameIffSameWords | src/rag/services/document-processor.service.ts:95-101 | two texts clean to the same string exactly when they have the same words: only the whitespace layout is forgotten |
| TextCleaning.WordsOfJoin | src/rag/services/document-processor.service.ts:97-99 | splitting proper words joined by single spaces recovers them |
| TextCleaning.TrimStartOfCollapse | src/rag/services/document-processor.service.ts:97-99 | trimming the front of a collapsed text is collapsing the trimmed text |
| DocumentProcessor.ProcessText | src/rag/services/document-processor.service.ts:69-93 | the document's content is the cleaned text and its hash is the digest of that cleaned content; id, time and type are the given ones, metadata defaults to `{}` |
| DocumentProcessor.WhitespaceLayoutSameHash | src/rag/services/document-processor.service.ts:75-83 | texts with the same words get the same hash, whatever the digest |
| DocumentProcessor.PdfTitle | src/rag/services/document-processor.service.ts:53 | the PDF title is never empty: the caller's non-empty title, else the PDF's own non-empty title, else `Untitled PDF` |
| DocumentProcessor.PdfAuthor | src/rag/services/document-processor.service.ts:54 | the PDF author is the caller's non-empty author, else whatever the PDF's own info holds (possibly absent or empty) |
| DocumentProcessor.ProcessPDF | src/rag/services/document-processor.service.ts:38-67 | an extraction failure propagates; otherwise content and hash are the raw extracted text and its digest, the type is PDF, and the metadata is the caller's (or `{}`) with the page count set, the title the caller's non-empty title, else the PDF's own non-empty title, else `Untitled PDF`, and the author by `PdfAuthor`'s precedence; every other key of the caller's metadata is kept |
| DocumentProcessor.ChunkDocument | src/rag/services/document-processor.service.ts:115-180 | one chunk per piece of the splitter, in order: chunk i of n has id `parent_chunk_i`, the piece as content, chunk info (parent id, i, n, its own length), the digest of its own content, the parent's type and time, and the parent's whole metadata with the chunk keys set over it; a non-empty split always succeeds, and an empty one fails with the `reduce` error |
| DocumentProcessor.ChunkIdsDistinct | src/rag/services/document-processor.service.ts:151 | chunk ids of one parent determine the chunk index |
| DocumentProcessor.ChunkRecordIdsDistinct | src/rag/services/document-processor.service.ts:150-163 | the chunks of one document have pairwise distinct ids |
| DocumentProcessor.FirstLine | src/rag/services/document-processor.service.ts:194-195 | the first line is the prefix before the first line break and holds none |
| DocumentProcessor.ExtractTitle | src/rag/services/document-processor.service.ts:193-198 | a title is set exactly when the trimmed first line has 1 to 199 characters, and it is that trimmed line, which occurs in the content |
| VectorStore.ToRecord | src/rag/services/chromadb.service.ts:42-52 | a stored record keeps the document's id, content, hash and type, and its title, author and source with absent values stored as empty strings, and its creation time |
| VectorStore.HasHashAppend | src/rag/services/chromadb.service.ts:94-100 | after appending documents, a hash is present exactly when it was present before or is one of the new documents' hashes |
| VectorStore.Store.CheckDocumentExists | src/rag/services/chromadb.service.ts:94-105 | true exactly when the lookup succeeds and some record carries the hash; a failing lookup answers false |
| VectorStore.Store.AddDocuments | src/rag/services/chromadb.service.ts:40-72 | appends one record per document in order and returns their ids; a failing write stores nothing and fails with its message |
| VectorStore.Store.QueryDocuments | src/rag/services/chromadb.service.ts:74-92 | the search's hits over the stored records for the text and count, or the failing call's message |
| RagService.FailureResponse | src/rag/services/rag.service.ts:61-69 | a thrown error gives `success:false`, 0 indexed, 0 skipped and exactly that one message |
| RagService.Ingest | src/rag/services/rag.service.ts:33-69 | success exactly when no error is reported; the count indexed is the number of records added; a known hash found by a working lookup gives `{true, 0, 1}` and adds nothing; otherwise a failing write gives `{false, 0, 0, [message]}` with the write's message (or the `reduce` error when the split is empty) and adds nothing; any failure adds nothing and carries one message |
| RagService.IngestResult | src/rag/services/rag.service.ts:72-119 | a processing failure becomes a failure response adding nothing; otherwise the document is ingested |
| RagService.FreshDocumentIndexed | src/rag/services/rag.service.ts:50-60 | a document whose hash the lookup does not find (absent, or the lookup failed) stores every chunk when the write works, and reports their count and exactly the ids returned |
| RagService.EmptySplitFails | src/rag/services/rag.service.ts:50-69 | an empty split fails with the `reduce` error and stores nothing |
| RagService.FailedLookupStoresAgain | src/rag/services/chromadb.service.ts:101-104 | a document the store holds is a duplicate with a working lookup, but with a failing lookup and a working write all its chunks are stored again and reported as indexed |
| RagService.SingleChunkDocumentSkippedOnReindex | src/rag/services/rag.service.ts:34-47 | a document whose one chunk is its whole content is skipped when indexed again |
| RagService.SplitDocumentStoredAgainOnReindex | src/rag/services/rag.service.ts:34-60 | with a collision-free digest, a document none of whose chunks is its whole content is stored again in full on re-indexing |
| RagService.IngestDocument | src/rag/services/rag.service.ts:33-60 | the response and the new records are those of `Ingest` on the old records |
| RagService.IndexDocument | src/rag/services/rag.service.ts:21-70 | the response and the new records are those of ingesting the processed text against the old records |
| RagService.IndexPDF | src/rag/services/rag.service.ts:72-119 | the response and the new records are those of ingesting the processed PDF; an extraction error becomes a failure response |
| RagService.IngestInput | src/rag/services/rag.service.ts:136-141 | one batch entry reports success exactly when it reports no error, and counts as indexed the records it adds |
| RagService.Absorb | src/rag/services/rag.service.ts:143-153 | one step of the batch loop adds both counts, appends a result's non-empty errors (clearing success) and its ids, and otherwise leaves the lists and success as they were |
| RagService.Tally | src/rag/services/rag.service.ts:128-156 | the batch fold always keeps its error and id lists; its full meaning is `RagService.TallyMeaning` |
| RagService.SumsAppend | src/rag/services/rag.service.ts:143-144 | the counts of a batch extended by one result grow by that result's counts |
| RagService.ListsAppend | src/rag/services/rag.service.ts:146-153 | the errors and ids of a batch extended by one result are extended by that result's |
| RagService.TallyMeaning | src/rag/services/rag.service.ts:128-156 | the batch report is: success iff no result carried errors, the sums of the counts, every error in order, every id in order |
| RagService.IndexBatchStep | src/rag/services/rag.service.ts:136-154 | the batch grows one document at a time, each ingested against the records the earlier ones left |
| RagService.TallyStep | src/rag/services/rag.service.ts:136-154 | the report of a longer batch is the shorter batch's report with one more result absorbed |
| RagService.BatchStoredCount | src/rag/services/rag.service.ts:143 | a batch stores exactly as many records as its results report indexed |
| RagService.BatchResponsesConsistent | src/rag/services/rag.service.ts:136-141 | every result of a batch reports success exactly when it reports no error |
| RagService.BatchReport | src/rag/services/rag.service.ts:128-156 | the batch succeeds exactly when every document does, and reports as indexed exactly the number of records it stored |
| RagService.RelaidTextSkippedOnReindex | src/rag/services/rag.service.ts:27-47 | a single-chunk text indexed again with a different whitespace layout is a duplicate and stores nothing |
| RagService.AddResult | src/rag/services/rag.service.ts:143-153 | the loop body absorbs one result into the running report |
| RagService.IndexMultipleDocuments | src/rag/services/rag.service.ts:121-157 | the report is `Tally` of `IndexBatch`, the reference fold of the per-document results of the batch run against the old records, and the store gains exactly the batch's records |
| RagService.HitTitle | src/rag/services/rag.service.ts:249 | the hit's non-empty title, else `Untitled document` |
| RagService.BodyExcerpt | src/rag/services/rag.service.ts:252-253 | a hit's text of at most 500 characters is kept whole; a longer one becomes exactly its first 500 characters followed by `...` |
| RagService.Section | src/rag/services/rag.service.ts:255 | a section is `\n--- Document: `, then the title, then ` ---\n`, then the body excerpt, then a line break, each part at its offset |
| RagService.ContextSections | src/rag/services/rag.service.ts:246-255 | one section per hit text, in order, with that hit's title |
| RagService.FittingSections | src/rag/services/rag.service.ts:246-266 | the count of leading sections the loop takes never exceeds the sections; what the count means is `RagService.ContextIsLongestFittingPrefix` |
| RagService.ConcatPrefixMonotone | src/rag/services/rag.service.ts:265 | a longer run of sections never concatenates to a shorter text |
| RagService.FittingSplit | src/rag/services/rag.service.ts:257-265 | the fitting sections taken so far fit the budget, and the rest of the count is that of the remaining sections |
| RagService.ContextIsLongestFittingPrefix | src/rag/services/rag.service.ts:239-272 | the context is at most 2000 characters and empty without hits; a run of leading sections fits exactly when it is no longer than the one taken, so nothing after the first overflowing section is taken |
| RagService.ContextFor | src/rag/services/rag.service.ts:239-272 | the context built from the hits has at most 2000 characters and is empty without hits; its characterisation is `RagService.ContextIsLongestFittingPrefix` |
| RagService.FittingFrom | src/rag/services/rag.service.ts:257-265 | the count of fitting sections from position k on unfolds one section |
| RagService.BuildContext | src/rag/services/rag.service.ts:239-272 | the loop with `break` builds exactly the longest fitting run of leading sections |
| RagService.BuildSources | src/rag/services/rag.service.ts:274-287 | one source per id in order, with that hit's title and similarity; the excerpt of a hit with text is exactly the first 300 characters of that text (all of a shorter one) followed by `...`, and `undefined...` for a hit without text, so the `No excerpt available` fallback never applies |
| RagService.Similarity | src/rag/services/rag.service.ts:285 | `1 - distance`, with a missing distance taken as 0 |
| RagService.MentionsAny | src/rag/services/rag.service.ts:292-316 | true exactly when the text contains one of the keywords |
| RagService.InferQueryType | src/rag/services/rag.service.ts:289-319 | always one of the three types; a summary keyword in the lower-cased query gives SUMMARY, else an analysis keyword gives ANALYSIS, else QUESTION |
| RagService.InferQueryTypeIgnoresCase | src/rag/services/rag.service.ts:290 | lower-casing the query first does not change its type |
| RagService.MaxResults | src/rag/services/rag.service.ts:161 | an absent or zero count becomes 5; any other is kept; the result is never 0 |
| RagService.Answer | src/rag/services/rag.service.ts:169-193 | no hits gives the fixed "did not find" answer with no sources and no model call; otherwise the model's answer to the prompt around the hits' context, with exactly the sources `BuildSources` gives for the hits, or the model's failure |
| RagService.Query | src/rag/services/rag.service.ts:159-198 | a failing query call fails the query with its message; otherwise the answer from the store's hits for the request's query and count |
| RagService.AnalyzeDocument | src/rag/services/rag.service.ts:200-237 | an extraction failure propagates; a success cites the PDF itself once, with its title and its first 500 characters followed by `...`, at similarity 1 |
| RagService.AnalysisQuestion | src/rag/services/rag.service.ts:212-214 | the caller's non-empty question, else the default summary request |
| RagService.AnalysisQueryType | src/rag/services/rag.service.ts:219 | the type inferred from the caller's question, else SUMMARY |
| RagService.AnalyzeDocumentAsksAboutWholeText | src/rag/services/rag.service.ts:216-220 | the answer is the model's answer (or failure) for the prompt around the whole extracted text: the 10000-character slice changes nothing |
| Ollama.LastIndexOf | src/rag/services/ollama.service.ts:115-116 | the last position of the character, or -1 when it does not occur |
| Ollama.TruncateContext | src/rag/services/ollama.service.ts:104-125 | a context within budget is unchanged; a longer one is either its prefix ending at the last `.` or line break, when that lies beyond 80% of the budget, or its first `maxChars` characters followed by `...` when none does; the result has at most `maxChars + 3` characters |
| Ollama.TruncatedIsPrefixOrMarked | src/rag/services/ollama.service.ts:104-125 | the summary of `TruncateContext` a caller needs: the result is a prefix of the context, or a prefix followed by `...` |
| Ollama.TruncateContextOfPrefix | src/rag/services/ollama.service.ts:114 | truncation never looks past the budget: any longer prefix truncates to the same result |
| Ollama.GenerationPrompt | src/rag/services/ollama.service.ts:30-35 | the prompt is built around `TruncateContext(context, 2500)`, never the raw context; a context within 2500 characters is used as it is |
| Ollama.LongContextSentCut | src/rag/services/ollama.service.ts:30-35 | the prompt for a context over 2500 characters is the template built around a prefix of the context of at most 2500 characters, or around its first 2500 characters followed by `...`: nothing beyond the budget is sent |
| Ollama.GenerateResponse | src/rag/services/ollama.service.ts:23-35 | the model is asked the prompt built around `TruncateContext(context, 2500)`, which is the context itself when it is within 2500 characters, and a model failure propagates |
| Ollama.GenerationPromptShape | src/rag/services/ollama.service.ts:30-35 | the prompt is built around the context itself when within 2500 characters; its length is bounded whatever the context's length; it starts with the system prompt |
| Ollama.GenerationPromptOfPrefix | src/rag/services/ollama.service.ts:30-35 | cutting the context to more than 2500 characters before generation does not change the prompt |
| LegalQueryPrompt.SystemPrompt | src/constants/legal-query.prompt.ts:6-20 | every system prompt starts with the base prompt, and it is exactly the base prompt for an unrecognised type |
| LegalQueryPrompt.SystemPromptsDistinct | src/constants/legal-query.prompt.ts:8-15 | the three recognised types have three different system prompts |
| LegalQueryPrompt.BuildPrompt | src/constants/legal-query.prompt.ts:22-38 | the prompt starts with the system prompt, followed by `\n\nRelevant legal context:\n`; `\n\nQuestion/Request:\n` follows the context; the prompt has the length of the filled-in template and ends with `\n\nAnswer:` |
| LegalQueryPrompt.PromptPlacesContextAndQuery | src/constants/legal-query.prompt.ts:29-37 | the context and the query appear whole at their offsets in the prompt, the context before the query |
| LegalQueryPrompt.Frame | src/constants/legal-query.prompt.ts:29-37 | all six parts of the template sit at their offsets: the system prompt, the context header, the context, the question header, the query and the answer cue |
| RagController.CheckUpload | src/rag/rag.controller.ts:104-110 | accepted exactly when a file is present with the PDF mime type; a missing file and a non-PDF get their own messages |
| RagController.IndexPDF | src/rag/rag.controller.ts:100-115 | a rejected upload is a bad request and changes nothing; an accepted one is indexed with the request's metadata |
| RagController.AnalyzePDF | src/rag/rag.controller.ts:267-280 | a rejected upload is a bad request before any analysis; otherwise the analysis, whose failure is a server error |
| RagController.AsResponses | src/rag/rag.controller.ts:165-187 | one response per file outcome, in order |
| RagController.AbsorbFile | src/rag/rag.controller.ts:165-186 | a non-PDF file appends its one error and leaves success, counts and ids unchanged; an indexed file adds both counts and clears success exactly when it reported errors |
| RagController.FileTally | src/rag/rag.controller.ts:157-189 | the upload fold always keeps its error and id lists; its full meaning is `RagController.FileTallyMeaning` |
| RagController.FileTallyIsTally | src/rag/rag.controller.ts:157-189 | the upload report counts, lists errors and lists ids as the batch of texts does over the same responses, but its success ignores non-PDF errors |
| RagController.AnyIndexingErrorAppend | src/rag/rag.controller.ts:177-182 | some indexed file failed in a longer upload exactly when one did before or the new one did |
| RagController.AbsorbFileIsAbsorb | src/rag/rag.controller.ts:165-186 | one upload step is one batch step except for success |
| RagController.FileTallyMeaning | src/rag/rag.controller.ts:157-189 | success iff no indexed PDF reported errors; sums over the PDF files; errors are the non-PDF messages and the PDFs' errors in order; ids in order |
| RagController.IndexFilesStep | src/rag/rag.controller.ts:165-187 | the upload grows one file at a time: a non-PDF is noted and stores nothing, a PDF is indexed against the records the earlier files left |
| RagController.FileTallyStep | src/rag/rag.controller.ts:165-187 | the report of a longer upload absorbs one more file outcome |
| RagController.NonPdfFilesOnly | src/rag/rag.controller.ts:166-171 | non-PDF files store nothing and are reported as non-PDF, in order |
| RagController.NonPdfUploadReportsSuccess | src/rag/rag.controller.ts:165-189 | an upload of only non-PDF files stores nothing, indexes nothing, lists one error per file, and yet reports success |
| RagController.NotPdfTally | src/rag/rag.controller.ts:166-171 | non-PDF outcomes leave success true and the count at 0, and add one error each |
| RagController.AddFileResult | src/rag/rag.controller.ts:173-186 | the loop body absorbs one indexed file's result |
| RagController.IndexMultiplePDFs | src/rag/rag.controller.ts:150-190 | a missing or empty file list is a bad request that changes nothing; otherwise the report is `FileTally` of `IndexFiles`, the reference fold of the per-file outcomes against the old records, and the store gains exactly their records |
| Strings.Trim | src/rag/services/document-processor.service.ts:99 | the trimmed text has no whitespace at either end and occurs in the original with only whitespace before and after it: nothing but surrounding whitespace is removed |
| Strings.Lower | src/rag/services/rag.service.ts:290 | lower-casing keeps the length and maps each character |
| Strings.LowerIdempotent | src/rag/services/rag.service.ts:290 | lower-casing twice is lower-casing once |
| Strings.NatToStringInjective | src/rag/services/document-processor.service.ts:151 | distinct indices print differently |

## Left out

- SHA-256 (`generateHash`) is an arbitrary function `Hasher`. Lemmas that need a collision-free digest say so in their `requires`.
- The LangChain `RecursiveCharacterTextSplitter` is an arbitrary `Splitter` from content, size and overlap to pieces. Nothing is claimed about chunk sizes or overlap. The custom-configuration path of `chunkDocument` is not modelled: the service always uses the defaults 1000 and 200.
- pdf-parse is a function from the buffer to the extracted text, page count and info, or an error message. `generateId`, `Math.random` and `new Date()` are replaced by a given `Stamp`: a batch receives one stamp per position.
- The date regex and `new Date(...)` of `extractMetadataFromContent` are not modelled, since they rely on library date parsing. Only its title part is modelled.
- The language model and the Ollama HTTP client are not modelled beyond a `Generator` from prompt to answer or error. The same holds for streaming generation, model availability and pulling.
- ChromaDB is not modelled beyond the `Store` with an append-only record list, its `Faults` and an abstract `Search`. The embeddings, `getDocumentByHash`, `deleteDocument` and collection statistics (`getStats`) are not part of this model.
- `VectorStore.Store.AddDocuments`: the stored `createdAt` is the timestamp itself rather than its ISO string, and the `tags` join is not kept.
- VectorStore.Store: its faults stay the same for the whole of one operation, so a failure that comes and goes between the calls of one batch is not modelled; the effect of a failed lookup on one document is stated by `RagService.FailedLookupStoresAgain`.
- `QueryTypesEnum` and the request's `QueryType` come from enum files that are not part of this model. Both are taken to be string enums whose values are exactly `'SUMMARY'`, `'QUESTION'` and `'ANALYSIS'`, the strings `inferQueryType` returns (src/rag/services/rag.service.ts:302-318). Under that reading the enums and the strings are one `Model.QueryType`, and a caller's tag that names one of them is that constructor, never `Unrecognised` (`Model.IsCanonical`). With any other enum values, every inferred type would fall through to the base prompt, and the model does not capture that.
- Similarities and distances are mathematical reals, with no floating-point rounding.
- Lengths count characters, not UTF-16 code units. `toLowerCase` is modelled for ASCII and Latin-1 letters only.
- Logging is not modelled. `JSON.parse` of the metadata string in the controller's `indexPDF` is taken as already done: the model receives the parsed metadata, and a parse error is not modelled.
- The `FilesInterceptor` limit of ten files and the Swagger and validation decorators are not modelled.
- The `context` field of a query request is carried but never read, as in the source.
- `Ollama.GenerationPromptShape` states the generation prompt's length bound as a sum of offsets rather than a single constant, because the system prompt's length depends on the query type.
- `RagService.AnalyzeDocument`: its own contract leaves the answer to `RagService.AnalyzeDocumentAsksAboutWholeText`, which keeps the function's proof small.
