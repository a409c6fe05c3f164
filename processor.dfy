/**
 * Document processing: whitespace cleaning, hashing, turning extracted or
 * supplied text into a document record, splitting a document into chunk
 * records, and reading a title off the first line of a text.
 *
 * The digest (SHA-256 in hex) and the recursive character splitter are
 * collaborators passed in as functions; nothing is assumed about them.
 */
module DocumentProcessor {
  import opened Wrappers
  import opened Strings
  import opened Model
  import opened TextCleaning

  type Hasher = string -> string
  /** The splitter, given the content, the chunk size and the overlap. */
  type Splitter = (string, nat, nat) -> seq<string>

  /** The collaborators the processor works with. */
  datatype Processor = Processor(
    hash: Hasher,
    split: Splitter,
    parsePdf: seq<bv8> -> Result<PdfData, string>)

  const DefaultChunkSize: nat := 1000
  const DefaultChunkOverlap: nat := 200

  /** The message JavaScript's `reduce` throws on an empty array with no initial value. */
  const EmptyReduceError := "Reduce of empty array with no initial value"

  // ---------------------------------------------------------------------------
  // Document records

  /** `processText`: the document stores the cleaned text and the hash of that cleaned text. */
  function ProcessText(text: string, docType: DocumentType, metadata: Option<Metadata>,
                       stamp: Stamp, hash: Hasher): (d: Document)
    ensures d.content == CleanText(text) && d.hash == hash(d.content)
    ensures d.id == stamp.id && d.createdAt == stamp.createdAt && d.docType == docType
    ensures d.metadata == metadata.GetOr(NoMetadata)
  {
    var cleaned := CleanText(text);
    Document(stamp.id, cleaned, docType, metadata.GetOr(NoMetadata), hash(cleaned), stamp.createdAt)
  }

  /** Texts that differ only in whitespace layout get the same hash, whatever the digest. */
  lemma WhitespaceLayoutSameHash(a: string, b: string, ta: DocumentType, tb: DocumentType,
                                 ma: Option<Metadata>, mb: Option<Metadata>,
                                 sa: Stamp, sb: Stamp, hash: Hasher)
    requires Words(a) == Words(b)
    ensures ProcessText(a, ta, ma, sa, hash).hash == ProcessText(b, tb, mb, sb, hash).hash
  {
    CleanTextSameIffSameWords(a, b);
  }

  /** The title a PDF gets: the caller's, else the PDF's own, else `Untitled PDF`. */
  function PdfTitle(metadata: Option<Metadata>, info: Option<PdfInfo>): (title: string)
    ensures title != ""
    ensures metadata.Some? && Truthy(metadata.value.title) ==> title == metadata.value.title.value
    ensures !(metadata.Some? && Truthy(metadata.value.title)) && info.Some? && Truthy(info.value.title) ==>
      title == info.value.title.value
    ensures !(metadata.Some? && Truthy(metadata.value.title)) && !(info.Some? && Truthy(info.value.title)) ==>
      title == "Untitled PDF"
  {
    var given := if metadata.Some? then metadata.value.title else None;
    var embedded := if info.Some? then info.value.title else None;
    OrElse(given, OrElse(embedded, "Untitled PDF"))
  }

  /** The author a PDF gets: the caller's non-empty author, else whatever the PDF's own info holds. */
  function PdfAuthor(metadata: Option<Metadata>, info: Option<PdfInfo>): (author: Option<string>)
    ensures metadata.Some? && Truthy(metadata.value.author) ==> author == metadata.value.author
    ensures !(metadata.Some? && Truthy(metadata.value.author)) && info.Some? ==> author == info.value.author
    ensures !(metadata.Some? && Truthy(metadata.value.author)) && info.None? ==> author == None
  {
    var given := metadata.GetOr(NoMetadata).author;
    if Truthy(given) then given else if info.Some? then info.value.author else None
  }

  /**
   * `processPDF`: the extractor's text is stored and hashed as it is, without
   * cleaning; the type is PDF; the caller's metadata is kept, with the title,
   * author and page count set from it or from the PDF. An extraction failure
   * propagates.
   */
  function ProcessPDF(parsed: Result<PdfData, string>, metadata: Option<Metadata>,
                      stamp: Stamp, hash: Hasher): (r: Result<Document, string>)
    ensures parsed.Failure? ==> r == Failure(parsed.error)
    ensures parsed.Success? ==>
      && r.Success?
      && r.value.content == parsed.value.text && r.value.hash == hash(parsed.value.text)
      && r.value.docType == Pdf && r.value.id == stamp.id && r.value.createdAt == stamp.createdAt
      && r.value.metadata.pages == Some(parsed.value.numpages)
      && r.value.metadata.title == Some(PdfTitle(metadata, parsed.value.info))
      && r.value.metadata.author == PdfAuthor(metadata, parsed.value.info)
      && var base := metadata.GetOr(NoMetadata);
         r.value.metadata == base.(title := r.value.metadata.title, author := r.value.metadata.author,
                                   pages := Some(parsed.value.numpages), extra := base.extra - {"pages"})
    ensures parsed.Success? ==>
      var given := metadata.GetOr(NoMetadata).title;
      var info := parsed.value.info;
      var title := r.value.metadata.title;
      title.Some? && title.value != ""
      && (Truthy(given) ==> title == given)
      && (!Truthy(given) && info.Some? && Truthy(info.value.title) ==> title == info.value.title)
      && (!Truthy(given) && (info.None? || !Truthy(info.value.title)) ==> title == Some("Untitled PDF"))
  {
    match parsed
    case Failure(e) => Failure(e)
    case Success(pdf) =>
      var base := metadata.GetOr(NoMetadata);
      var meta := base.(title := Some(PdfTitle(metadata, pdf.info)), author := PdfAuthor(metadata, pdf.info),
                        pages := Some(pdf.numpages), extra := base.extra - {"pages"});
      Success(Document(stamp.id, pdf.text, Pdf, meta, hash(pdf.text), stamp.createdAt))
  }

  // ---------------------------------------------------------------------------
  // Chunking

  /** `${parent}_chunk_${i}`. */
  function ChunkId(parentId: string, i: nat): string {
    parentId + "_chunk_" + NatToString(i)
  }

  /** Chunks of one parent have pairwise distinct ids. */
  lemma ChunkIdsDistinct(parentId: string, i: nat, j: nat)
    requires ChunkId(parentId, i) == ChunkId(parentId, j)
    ensures i == j
  {
    var p := |parentId| + |"_chunk_"|;
    assert NatToString(i) == ChunkId(parentId, i)[p..] == ChunkId(parentId, j)[p..] == NatToString(j);
    NatToStringInjective(i, j);
  }

  /** The keys a chunk sets, removed from the bag it inherits so that the chunk's own values win. */
  const ChunkKeys := {"parentDocumentId", "chunkIndex", "totalChunks", "chunkSize"}

  /** Chunk `i` of the `pieces` the splitter returned for `parent`. */
  function ChunkAt(parent: Document, pieces: seq<string>, i: nat, hash: Hasher): Document
    requires i < |pieces|
  {
    var info := ChunkInfo(parent.id, i, |pieces|, |pieces[i]|);
    var meta := parent.metadata.(chunk := Some(info), extra := parent.metadata.extra - ChunkKeys);
    Document(ChunkId(parent.id, i), pieces[i], parent.docType, meta, hash(pieces[i]), parent.createdAt)
  }

  /**
   * `chunkDocument`: one chunk record per piece of the splitter's output, in
   * order. When the splitter returns nothing, the size statistics' `reduce`
   * throws, and so does the whole operation.
   */
  function ChunkDocument(parent: Document, chunkSize: nat, overlap: nat, split: Splitter, hash: Hasher)
    : (r: Result<seq<Document>, string>)
    ensures split(parent.content, chunkSize, overlap) == [] <==> r == Failure(EmptyReduceError)
    ensures r.Success? <==> split(parent.content, chunkSize, overlap) != []
    ensures r.Success? ==>
      var pieces := split(parent.content, chunkSize, overlap);
      var n := |pieces|;
      |r.value| == n
      && forall i :: 0 <= i < n ==>
        var c := r.value[i];
        && c.id == ChunkId(parent.id, i)
        && c.content == pieces[i]
        && c.metadata == parent.metadata.(chunk := Some(ChunkInfo(parent.id, i, n, |c.content|)),
                                          extra := parent.metadata.extra - ChunkKeys)
        && c.hash == hash(c.content)
        && c.docType == parent.docType && c.createdAt == parent.createdAt
  {
    var pieces := split(parent.content, chunkSize, overlap);
    if |pieces| == 0 then Failure(EmptyReduceError)
    else Success(seq(|pieces|, i requires 0 <= i < |pieces| => ChunkAt(parent, pieces, i, hash)))
  }

  /** The chunks of one document have pairwise distinct ids. */
  lemma ChunkRecordIdsDistinct(parent: Document, chunkSize: nat, overlap: nat, split: Splitter,
                               hash: Hasher, i: nat, j: nat)
    requires ChunkDocument(parent, chunkSize, overlap, split, hash).Success?
    requires i < j < |ChunkDocument(parent, chunkSize, overlap, split, hash).value|
    ensures ChunkDocument(parent, chunkSize, overlap, split, hash).value[i].id
         != ChunkDocument(parent, chunkSize, overlap, split, hash).value[j].id
  {
    if ChunkId(parent.id, i) == ChunkId(parent.id, j) {
      ChunkIdsDistinct(parent.id, i, j);
    }
  }

  // ---------------------------------------------------------------------------
  // Title extraction

  /** `content.split('\n')[0]`: the text before the first line break. */
  function FirstLine(s: string): (r: string)
    ensures |r| <= |s| && r == s[..|r|] && '\n' !in r
    ensures |r| == |s| || s[|r|] == '\n'
  {
    if s == [] || s[0] == '\n' then [] else [s[0]] + FirstLine(s[1..])
  }

  /**
   * The title part of `extractMetadataFromContent`: the trimmed first line,
   * when it has between 1 and 199 characters.
   */
  function ExtractTitle(content: string): (r: Option<string>)
    ensures r.Some? <==> 0 < |Trim(FirstLine(content))| < 200
    ensures r.Some? ==> r.value == Trim(FirstLine(content))
    ensures r.Some? ==> '\n' !in r.value && !IsSpace(r.value[0]) && !IsSpace(r.value[|r.value| - 1])
    ensures r.Some? ==> Contains(content, r.value)
  {
    var line := FirstLine(content);
    var first := Trim(line);
    if 0 < |first| < 200 then
      ContainsTransitive(content, line, first);
      Some(first)
    else None
  }

  lemma ContainsTransitive(s: string, line: string, t: string)
    requires |line| <= |s| && line == s[..|line|] && Contains(line, t)
    ensures Contains(s, t) && forall c :: c in t ==> c in line
  {
    var k :| 0 <= k <= |line| - |t| && OccursAt(line, t, k);
    assert s[k..k + |t|] == line[k..k + |t|];
    assert OccursAt(s, t, k);
    forall c | c in t ensures c in line {
      var m :| 0 <= m < |t| && t[m] == c;
      assert line[k + m] == c;
    }
  }
}
