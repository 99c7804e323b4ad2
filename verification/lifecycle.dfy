/**
 * A created event as the listing later shows it: the record the form writes,
 * kept by the store as a document (a JavaScript Date is kept as the store's
 * timestamp), comes back as a row for its creator and for nobody else.
 */
module Lifecycle {
  import opened Wrappers
  import opened AcaraForm
  import opened Listing

  /** `Timestamp.fromDate`: whole seconds rounded down, the rest of the millisecond count as nanoseconds. */
  function TimestampOfMillis(ms: int): (t: Value)
    ensures t.Timestamp? && t.nanoseconds < 1000000000
    ensures t.seconds * 1000000000 + t.nanoseconds == ms * NanosPerMilli
  {
    Timestamp(ms / 1000, (ms % 1000) * NanosPerMilli)
  }

  /**
   * The document the store keeps for a written record, under the keys the form
   * writes: it belongs to the record's user, has no `id` field of its own, and
   * keeps the date as a timestamp.
   */
  function StoredDocument(id: string, r: AcaraRecord): (doc: Document)
    requires r.userId.Some?
    ensures doc.id == id && OwnedBy(doc, r.userId) && "id" !in doc.data
    ensures "tanggal" in doc.data && doc.data["tanggal"] == TimestampOfMillis(r.tanggal)
  {
    Document(id, map[
      "name" := Str(r.name),
      "pembicara" := Str(r.pembicara),
      "jabatan_pembicara" := Str(r.jabatanPembicara),
      "slot" := Str(r.slot),
      "tempat" := Str(r.tempat),
      "tanggal" := TimestampOfMillis(r.tanggal),
      "is_free" := Bool(r.isFree),
      "category" := Str(r.category),
      "harga" := Str(r.harga),
      "description" := Str(r.description),
      "is_public" := Bool(r.isPublic),
      "is_complete" := Bool(r.isComplete),
      "thumbnailUrl" := Str(r.thumbnailUrl),
      "userId" := Str(r.userId.value)])
  }

  /** A Date stored as a timestamp and listed again is the same millisecond. */
  lemma DateSurvivesStorage(ms: int)
    ensures var t := TimestampOfMillis(ms); TimestampMillis(t.seconds, t.nanoseconds) == ms
  {
    var t := TimestampOfMillis(ms);
    var exact := t.seconds * 1000000000 + t.nanoseconds;
    assert exact == ms * NanosPerMilli;
    if exact >= 0 {
      assert exact / NanosPerMilli == ms;
    } else {
      assert (-exact) / NanosPerMilli == -ms;
    }
  }

  /** The row the listing makes of a stored record carries the document id and the record's date. */
  lemma StoredRowIdAndDate(id: string, r: AcaraRecord)
    requires r.userId.Some?
    ensures var row := Normalise(StoredDocument(id, r));
      row["id"] == Str(id) && row["tanggal"] == Date(r.tanggal)
  {
    var doc := StoredDocument(id, r);
    assert "id" !in doc.data;
    assert doc.data["tanggal"] == TimestampOfMillis(r.tanggal);
    DateSurvivesStorage(r.tanggal);
  }

  /** The row carries the submitted name, price and free flag. */
  lemma StoredRowValues(id: string, r: AcaraRecord)
    requires r.userId.Some?
    ensures var row := Normalise(StoredDocument(id, r));
      row["name"] == Str(r.name) && row["harga"] == Str(r.harga) && row["is_free"] == Bool(r.isFree)
  {
    var data := StoredDocument(id, r).data;
    assert data["name"] == Str(r.name) && data["harga"] == Str(r.harga) && data["is_free"] == Bool(r.isFree);
  }

  /** The row carries the flags and the poster URL the form wrote. */
  lemma StoredRowFlags(id: string, r: AcaraRecord)
    requires r.userId.Some?
    ensures var row := Normalise(StoredDocument(id, r));
      row["is_public"] == Bool(r.isPublic) && row["thumbnailUrl"] == Str(r.thumbnailUrl)
  {
    var data := StoredDocument(id, r).data;
    assert data["is_public"] == Bool(r.isPublic) && data["thumbnailUrl"] == Str(r.thumbnailUrl);
  }

  /**
   * In any store, a created event is listed for its creator, as the row the
   * lemmas above describe, and is returned to no other caller.
   */
  lemma CreatedEventIsListedInAnyStore(store: seq<Document>, id: string, r: AcaraRecord, caller: Option<string>)
    requires r.userId.Some? && StoredDocument(id, r) in store
    ensures Normalise(StoredDocument(id, r)) in ListAcara(store, r.userId)
    ensures caller != r.userId ==> StoredDocument(id, r) !in OwnedDocuments(store, caller)
  {
    var doc := StoredDocument(id, r);
    RowsAreCallersDocuments(store, r.userId);
    if OwnedBy(doc, caller) {
      OneOwner(doc, caller, r.userId);
    }
  }

  /**
   * The listing of a store holding one created event: its creator gets one row
   * with the document id, the event's date, the submitted values and the flags
   * the form wrote; any other caller gets nothing.
   */
  lemma CreatedEventIsListedForItsCreator(id: string, r: AcaraRecord, caller: Option<string>)
    requires r.userId.Some?
    ensures caller == r.userId ==>
      var rows := ListAcara([StoredDocument(id, r)], caller);
      && |rows| == 1
      && rows[0]["id"] == Str(id)
      && rows[0]["tanggal"] == Date(r.tanggal)
      && rows[0]["name"] == Str(r.name) && rows[0]["harga"] == Str(r.harga)
      && rows[0]["is_free"] == Bool(r.isFree)
      && rows[0]["is_public"] == Bool(r.isPublic) && rows[0]["thumbnailUrl"] == Str(r.thumbnailUrl)
    ensures caller != r.userId ==> ListAcara([StoredDocument(id, r)], caller) == []
  {
    var doc := StoredDocument(id, r);
    SingleDocument(doc, caller);
    assert OwnedBy(doc, caller) <==> caller == r.userId;
    StoredRowIdAndDate(id, r);
    StoredRowValues(id, r);
    StoredRowFlags(id, r);
  }
}
