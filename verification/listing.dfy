/**
 * The event listing page: the documents of the `acara` collection whose
 * `userId` is the caller's, each turned into a table row that carries the
 * document id, every stored field, and `tanggal` as a Date (or null).
 *
 * The query applies no limit, ordering or cursor, so the rows come in the
 * order the store returns the matching documents, all of them.
 */
module Listing {
  import opened Wrappers

  /** A stored field value, or a value of a row. */
  datatype Value =
    | Str(s: string)
    | Bool(b: bool)
    | Number(n: int)
    | Null
    | Timestamp(seconds: int, nanoseconds: nat)  // the store's native timestamp
    | Date(millis: int)                          // a JavaScript Date
    | Other                                      // arrays, maps, references, ...

  /** A document returned by the query. */
  datatype Document = Document(id: string, data: map<string, Value>)

  /** A normalised listing entry, keyed by field name. */
  type Row = map<string, Value>

  const NanosPerMilli: nat := 1000000

  /**
   * `new Date(timestamp.toDate().toISOString())`: the instant
   * `seconds * 1000 + nanoseconds / 1e6` milliseconds, cut to whole
   * milliseconds toward zero (as the Date constructor does). The result is
   * within one millisecond of the exact instant, on the side of zero.
   */
  function TimestampMillis(seconds: int, nanoseconds: nat): (ms: int)
    ensures var exact := seconds * 1000000000 + nanoseconds;
      && (exact >= 0 ==> 0 <= exact - ms * NanosPerMilli < NanosPerMilli)
      && (exact < 0 ==> 0 <= ms * NanosPerMilli - exact < NanosPerMilli)
  {
    var exact := seconds * 1000000000 + nanoseconds;
    if exact >= 0 then exact / NanosPerMilli else -((-exact) / NanosPerMilli)
  }

  /** `data.tanggal instanceof Timestamp ? new Date(...) : null` */
  function NormalisedTanggal(data: map<string, Value>): (t: Value)
    ensures t.Null? || t.Date?
    ensures t.Date? <==> "tanggal" in data && data["tanggal"].Timestamp?
  {
    if "tanggal" in data && data["tanggal"].Timestamp? then
      Date(TimestampMillis(data["tanggal"].seconds, data["tanggal"].nanoseconds))
    else
      Null
  }

  /**
   * `{ id: doc.id, ...data, tanggal: ... }`: the id first, then every stored
   * field (a stored `id` overrides the document id), then the normalised date.
   */
  function Normalise(doc: Document): (row: Row)
    ensures row.Keys == doc.data.Keys + {"id", "tanggal"}
    ensures forall k :: k in doc.data && k != "tanggal" ==> row[k] == doc.data[k]
    ensures "id" !in doc.data ==> row["id"] == Str(doc.id)
    ensures row["tanggal"].Null? <==> !("tanggal" in doc.data && doc.data["tanggal"].Timestamp?)
    ensures "tanggal" in doc.data && doc.data["tanggal"].Timestamp? ==>
      row["tanggal"] == Date(TimestampMillis(doc.data["tanggal"].seconds, doc.data["tanggal"].nanoseconds))
  {
    (map["id" := Str(doc.id)] + doc.data)["tanggal" := NormalisedTanggal(doc.data)]
  }

  /** `where('userId', '==', userId)`; a caller without an id (null) matches documents whose `userId` is null. */
  predicate OwnedBy(doc: Document, caller: Option<string>) {
    "userId" in doc.data && doc.data["userId"] == (if caller.Some? then Str(caller.value) else Null)
  }

  /** A document is returned to one caller at most: the query never shows an event to two users. */
  lemma OneOwner(doc: Document, a: Option<string>, b: Option<string>)
    requires OwnedBy(doc, a) && OwnedBy(doc, b)
    ensures a == b
  {
  }

  /** The documents the query returns, in the store's order. */
  function OwnedDocuments(store: seq<Document>, caller: Option<string>): (owned: seq<Document>)
    ensures |owned| <= |store|
    ensures forall d :: d in owned <==> d in store && OwnedBy(d, caller)
  {
    if store == [] then []
    else (if OwnedBy(store[0], caller) then [store[0]] else []) + OwnedDocuments(store[1..], caller)
  }

  /** `snapshot.docs.map(...)`: one row per document, in the same order. */
  function Rows(docs: seq<Document>): (rows: seq<Row>)
    ensures |rows| == |docs|
    ensures forall i :: 0 <= i < |docs| ==> rows[i] == Normalise(docs[i])
  {
    if docs == [] then [] else [Normalise(docs[0])] + Rows(docs[1..])
  }

  /** The listing page's data for a caller. */
  function ListAcara(store: seq<Document>, caller: Option<string>): (rows: seq<Row>)
    ensures |rows| == |OwnedDocuments(store, caller)|
    ensures forall i :: 0 <= i < |rows| ==> rows[i] == Normalise(OwnedDocuments(store, caller)[i])
  {
    Rows(OwnedDocuments(store, caller))
  }

  // ---------------------------------------------------------------------------
  // The owner filter
  // ---------------------------------------------------------------------------

  /** The filter keeps the store's order: filtering two parts one after the other is filtering the whole. */
  lemma {:induction false} OwnedConcat(a: seq<Document>, b: seq<Document>, caller: Option<string>)
    ensures OwnedDocuments(a + b, caller) == OwnedDocuments(a, caller) + OwnedDocuments(b, caller)
  {
    if a == [] {
      assert a + b == b;
    } else {
      assert (a + b)[0] == a[0];
      assert (a + b)[1..] == a[1..] + b;
      OwnedConcat(a[1..], b, caller);
    }
  }

  /** A store of one document lists it, normalised, for its owner and for nobody else. */
  lemma SingleDocument(doc: Document, caller: Option<string>)
    ensures ListAcara([doc], caller) == if OwnedBy(doc, caller) then [Normalise(doc)] else []
  {
    assert [doc][1..] == [];
  }

  /** Nothing bounds the listing: when every document is the caller's, every one is listed, in order. */
  lemma {:induction false} NoLimit(store: seq<Document>, caller: Option<string>)
    requires forall i :: 0 <= i < |store| ==> OwnedBy(store[i], caller)
    ensures OwnedDocuments(store, caller) == store
    ensures |ListAcara(store, caller)| == |store|
  {
    if store != [] {
      NoLimit(store[1..], caller);
    }
  }

  /** Every row is the normalisation of one of the caller's documents, and every such document gives a row. */
  lemma RowsAreCallersDocuments(store: seq<Document>, caller: Option<string>)
    ensures forall i :: 0 <= i < |ListAcara(store, caller)| ==>
      exists d :: d in store && OwnedBy(d, caller) && ListAcara(store, caller)[i] == Normalise(d)
    ensures forall d :: d in store && OwnedBy(d, caller) ==> Normalise(d) in ListAcara(store, caller)
  {
    var owned := OwnedDocuments(store, caller);
    var rows := ListAcara(store, caller);
    forall i | 0 <= i < |rows|
      ensures exists d :: d in store && OwnedBy(d, caller) && rows[i] == Normalise(d)
    {
      assert owned[i] in owned;
    }
    forall d | d in store && OwnedBy(d, caller)
      ensures Normalise(d) in rows
    {
      var i :| 0 <= i < |owned| && owned[i] == d;
      assert rows[i] == Normalise(d);
    }
  }

  /** Two of three documents belong to "u1": the listing for "u1" is exactly those two, in order. */
  lemma OwnerExample(a: Document, b: Document, c: Document)
    requires a.data["userId" := Str("u1")] == a.data && b.data["userId" := Str("u1")] == b.data
    requires c.data["userId" := Str("u2")] == c.data
    ensures ListAcara([a, c, b], Some("u1")) == [Normalise(a), Normalise(b)]
  {
    assert "userId" in a.data && "userId" in b.data && "userId" in c.data;
    assert [a, c, b] == [a] + [c] + [b];
    OwnedConcat([a] + [c], [b], Some("u1"));
    OwnedConcat([a], [c], Some("u1"));
    assert OwnedDocuments([a], Some("u1")) == [a] by { assert [a][1..] == []; }
    assert OwnedDocuments([b], Some("u1")) == [b] by { assert [b][1..] == []; }
    assert OwnedDocuments([c], Some("u1")) == [] by { assert [c][1..] == []; }
    assert OwnedDocuments([a, c, b], Some("u1")) == [a, b];
  }

  // ---------------------------------------------------------------------------
  // The date normalisation
  // ---------------------------------------------------------------------------

  /** A stored `tanggal` that is not a timestamp (absent, a string, null, ...) becomes null; the row is still produced. */
  lemma NonTimestampBecomesNull(doc: Document)
    requires "tanggal" !in doc.data || !doc.data["tanggal"].Timestamp?
    ensures Normalise(doc)["tanggal"] == Null
  {
  }

  /**
   * A timestamp becomes a Date for the same instant to the millisecond: whole
   * seconds and milliseconds are kept, and a sub-millisecond rest is dropped
   * toward zero (so before 1970 the Date is one millisecond later).
   */
  lemma TimestampSameInstant(seconds: int, millis: nat, rest: nat)
    requires millis < 1000 && rest < NanosPerMilli
    ensures TimestampMillis(seconds, millis * NanosPerMilli + rest) ==
      seconds * 1000 + millis + (if seconds < 0 && rest > 0 then 1 else 0)
  {
  }
}
