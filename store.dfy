/**
 * The vector store as the pipeline sees it: a collection of records, each
 * keeping a document's id, content, hash and flattened metadata. Records are
 * only ever appended. The similarity search is an abstract function of the
 * stored records. Two kinds of failure are told apart: the existence check's
 * own lookup may fail, and that failure is swallowed (the answer is "not
 * present"); adding and querying may fail, and that failure propagates.
 */
module VectorStore {
  import opened Wrappers
  import opened Strings
  import opened Model

  /** What the collection keeps of a document: the id, the content, and the
      flattened metadata (absent strings stored as empty strings). */
  datatype StoredRecord = StoredRecord(
    id: string,
    content: string,
    hash: string,
    docType: DocumentType,
    title: string,
    author: string,
    source: string,
    createdAt: int)

  /** The record the collection keeps for one document. */
  function ToRecord(d: Document): (r: StoredRecord)
    ensures r.id == d.id && r.content == d.content && r.hash == d.hash && r.docType == d.docType
    ensures r.title == (if Truthy(d.metadata.title) then d.metadata.title.value else "")
    ensures r.author == (if Truthy(d.metadata.author) then d.metadata.author.value else "")
    ensures r.source == (if Truthy(d.metadata.source) then d.metadata.source.value else "")
    ensures r.createdAt == d.createdAt
  {
    StoredRecord(d.id, d.content, d.hash, d.docType, OrElse(d.metadata.title, ""),
                 OrElse(d.metadata.author, ""), OrElse(d.metadata.source, ""), d.createdAt)
  }

  /** The records of a batch of documents, in order. */
  function ToRecords(docs: seq<Document>): (rs: seq<StoredRecord>)
    ensures |rs| == |docs|
    ensures forall i :: 0 <= i < |docs| ==> rs[i] == ToRecord(docs[i])
  {
    seq(|docs|, i requires 0 <= i < |docs| => ToRecord(docs[i]))
  }

  /** The ids of a batch of documents, in order. */
  function Ids(docs: seq<Document>): (ids: seq<string>)
    ensures |ids| == |docs|
    ensures forall i :: 0 <= i < |docs| ==> ids[i] == docs[i].id
  {
    seq(|docs|, i requires 0 <= i < |docs| => docs[i].id)
  }

  /** Some stored record carries hash `h`. */
  predicate HasHash(records: seq<StoredRecord>, h: string) {
    exists i :: 0 <= i < |records| && records[i].hash == h
  }

  /** The hashes a batch of documents leaves in the store are exactly the batch's own hashes. */
  lemma HasHashAppend(records: seq<StoredRecord>, docs: seq<Document>, h: string)
    ensures HasHash(records + ToRecords(docs), h)
        <==> HasHash(records, h) || exists i :: 0 <= i < |docs| && docs[i].hash == h
  {
    var all := records + ToRecords(docs);
    forall k | 0 <= k < |all| && all[k].hash == h
      ensures HasHash(records, h) || exists i :: 0 <= i < |docs| && docs[i].hash == h
    {
      if k < |records| {
        assert records[k].hash == h;
      } else {
        assert docs[k - |records|].hash == h;
      }
    }
    forall k | 0 <= k < |records| && records[k].hash == h ensures HasHash(all, h) {
      assert all[k].hash == h;
    }
    forall i | 0 <= i < |docs| && docs[i].hash == h ensures HasHash(all, h) {
      assert all[|records| + i].hash == h;
    }
  }

  /**
   * The failures the collection may show: `lookup` is the error of the
   * lookup by hash behind the existence check, `write` the error of adding
   * and querying. A collection that cannot be reached at all has both.
   */
  datatype Faults = Faults(lookup: Option<string>, write: Option<string>)

  /** A collection that answers every call. */
  const Healthy := Faults(None, None)

  /** The similarity search: the hits for a query text, at most `n` of them as the collection decides. */
  type Search = (seq<StoredRecord>, string, int) -> RetrievalResult

  /** The collection. */
  class Store {
    /** The stored records, oldest first. */
    var records: seq<StoredRecord>
    /** The failures the collection shows. */
    var faults: Faults
    /** The similarity search over the stored records. */
    const search: Search

    constructor (search: Search, faults: Faults)
      ensures this.search == search && this.faults == faults && records == []
    {
      this.search := search;
      this.faults := faults;
      records := [];
    }

    /** `checkDocumentExists`: whether some record carries the hash. A failing
        lookup answers `false`: the error is logged and swallowed. */
    method CheckDocumentExists(hash: string) returns (exists_: bool)
      ensures exists_ <==> faults.lookup.None? && HasHash(records, hash)
    {
      if faults.lookup.Some? {
        return false;
      }
      exists_ := exists i | 0 <= i < |records| :: records[i].hash == hash;
    }

    /** `addDocuments`: stores one record per document, in order, and returns
        their ids; a failing collection stores nothing and the error propagates. */
    method AddDocuments(docs: seq<Document>) returns (r: Result<seq<string>, string>)
      modifies this`records
      ensures faults.write.Some? ==> r == Failure(faults.write.value) && records == old(records)
      ensures faults.write.None? ==> r == Success(Ids(docs)) && records == old(records) + ToRecords(docs)
    {
      if faults.write.Some? {
        return Failure(faults.write.value);
      }
      records := records + ToRecords(docs);
      r := Success(Ids(docs));
    }

    /** `queryDocuments`: the search's hits; a failing collection's error propagates. */
    method QueryDocuments(queryText: string, nResults: int) returns (r: Result<RetrievalResult, string>)
      ensures faults.write.Some? ==> r == Failure(faults.write.value)
      ensures faults.write.None? ==> r == Success(search(records, queryText, nResults))
    {
      if faults.write.Some? {
        return Failure(faults.write.value);
      }
      r := Success(search(records, queryText, nResults));
    }
  }
}
