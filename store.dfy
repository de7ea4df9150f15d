/** The MongoDB collection the engine caches into, reduced to what `cache`
    uses of it: documents `{key, value}` kept in insertion order, `findOne`
    by key and `insertOne`. */
module Store {
  import opened Wrappers
  import opened Js

  /** One cache document: the cache key and the stringified result. */
  datatype Document = Document(key: string, value: string)

  /** The position of the first document with `key`, or |documents| when
      there is none. */
  function FirstMatch(documents: seq<Document>, key: string): (i: nat)
    ensures i <= |documents|
    ensures i < |documents| ==> documents[i].key == key
    ensures forall j :: 0 <= j < i ==> documents[j].key != key
  {
    if documents == [] then 0
    else if documents[0].key == key then 0
    else 1 + FirstMatch(documents[1..], key)
  }

  /** `findOne({ key })`: the first document, in insertion order, whose key
      is `key`; None when no document has that key. */
  function FirstWithKey(documents: seq<Document>, key: string): (found: Option<Document>)
    ensures found.Some? ==> found.value in documents && found.value.key == key
    ensures found.None? <==> forall d :: d in documents ==> d.key != key
  {
    var i := FirstMatch(documents, key);
    if i < |documents| then Some(documents[i]) else None
  }

  /** Appending never changes which document `findOne` answers for a key
      that was already present: later documents with the same key are
      shadowed by the first one. */
  lemma {:induction false} AppendKeepsFirstWithKey(documents: seq<Document>, d: Document, key: string)
    requires FirstWithKey(documents, key).Some?
    ensures FirstWithKey(documents + [d], key) == FirstWithKey(documents, key)
  {
    var extended := documents + [d];
    var i := FirstMatch(documents, key);
    var k := FirstMatch(extended, key);
    assert forall j :: 0 <= j < |documents| ==> extended[j] == documents[j];
    assert k == i;
  }

  /** After appending the first document for a key, `findOne` returns it. */
  lemma AppendToMissIsFound(documents: seq<Document>, d: Document)
    requires FirstWithKey(documents, d.key).None?
    ensures FirstWithKey(documents + [d], d.key) == Some(d)
  {
    // No earlier document has the key, and the appended one does.
  }

  /** The cache collection as seen by the engine. `finds` and `inserts`
      count the requests sent to the server, whether or not it served them. */
  class Collection {
    var documents: seq<Document>
    ghost var finds: nat
    ghost var inserts: nat

    constructor (documents: seq<Document>)
      ensures this.documents == documents && finds == 0 && inserts == 0
    {
      this.documents := documents;
      finds, inserts := 0, 0;
    }

    /** `findOne({ key })`. `fault` is the error the server or the network
        answers this request with, if any; the documents are not changed. */
    method FindOne(key: string, fault: Option<Error>) returns (r: Result<Option<Document>, Error>)
      modifies this`finds
      ensures documents == old(documents) && inserts == old(inserts)
      ensures finds == old(finds) + 1
      ensures fault.Some? ==> r == Failure(fault.value)
      ensures fault.None? ==> r == Success(FirstWithKey(documents, key))
    {
      finds := finds + 1;
      if fault.Some? {
        return Failure(fault.value);
      }
      r := Success(FirstWithKey(documents, key));
    }

    /** `insertOne(doc)`: appends `doc`, even when a document with the same
        key exists. A failed insert leaves the documents as they were. */
    method InsertOne(doc: Document, fault: Option<Error>) returns (failed: Option<Error>)
      modifies this`documents, this`inserts
      ensures finds == old(finds) && inserts == old(inserts) + 1
      ensures failed == fault
      ensures documents == if fault.Some? then old(documents) else old(documents) + [doc]
    {
      inserts := inserts + 1;
      if fault.Some? {
        return fault;
      }
      documents := documents + [doc];
      failed := None;
    }
  }
}
