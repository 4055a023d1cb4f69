/** Result normalisation: the mapping every reader applies to the documents
    of a query snapshot, turning each into a plain record of its id, its
    fields and its timestamp converted with `.toDate()`. */
module Normalize {
  import opened Documents

  /** One document as a plain record; a document without a timestamp makes
      `.toDate()` throw. */
  function ToRecord<T>(d: Document<T>): (r: Result<Record<T>, Error>)
    ensures r.Ok? <==> d.data.timestamp.Some?
    ensures r.Err? ==> r.error == MissingTimestamp
    ensures r.Ok? ==> r.value.id == d.id && r.value.fields == d.data.fields
                      && FromDate(r.value.timestamp) == d.data.timestamp.value
  {
    match d.data.timestamp
    case None => Err(MissingTimestamp)
    case Some(t) => Ok(Record(d.id, d.data.fields, ToDate(t)))
  }

  /** `docs.map(...)`: every document in order, or the failure of the first
      one that cannot be converted. */
  function ToRecords<T>(docs: seq<Document<T>>): (r: Result<seq<Record<T>>, Error>)
    ensures r.Ok? <==> forall i :: 0 <= i < |docs| ==> docs[i].data.timestamp.Some?
    ensures r.Err? ==> r.error == MissingTimestamp
    ensures r.Ok? ==> |r.value| == |docs|
    ensures r.Ok? ==> forall i :: 0 <= i < |docs| ==> ToRecord(docs[i]) == Ok(r.value[i])
    decreases |docs|
  {
    if docs == [] then Ok([])
    else
      match ToRecord(docs[0])
      case Err(e) => Err(e)
      case Ok(first) =>
        match ToRecords(docs[1..])
        case Err(e) => Err(e)
        case Ok(rest) => Ok([first] + rest)
  }

  /** Normalisation succeeds exactly when every document has a timestamp. */
  lemma RecordsNeedTimestamps<T>(docs: seq<Document<T>>)
    ensures ToRecords(docs).Ok? <==> forall d :: d in docs ==> d.data.timestamp.Some?
  {
    if !ToRecords(docs).Ok? {
      var i :| 0 <= i < |docs| && docs[i].data.timestamp.None?;
      assert docs[i] in docs;
    }
  }

  /** The document a record was made from. */
  function FromRecord<T>(r: Record<T>): Document<T> {
    Document(r.id, Data(r.fields, Some(FromDate(r.timestamp))))
  }

  function FromRecords<T>(rs: seq<Record<T>>): (ds: seq<Document<T>>)
    ensures |ds| == |rs|
    ensures forall i :: 0 <= i < |rs| ==> ds[i] == FromRecord(rs[i])
  {
    seq(|rs|, i requires 0 <= i < |rs| => FromRecord(rs[i]))
  }

  /** Normalisation loses nothing: the records determine the documents. */
  lemma RecordsDetermineDocuments<T>(docs: seq<Document<T>>)
    requires ToRecords(docs).Ok?
    ensures FromRecords(ToRecords(docs).value) == docs
  {
    var rs := ToRecords(docs).value;
    forall i | 0 <= i < |docs| ensures FromRecords(rs)[i] == docs[i] {
      assert ToRecord(docs[i]) == Ok(rs[i]);
    }
  }

  /** Every sequence of records is the normalisation of its documents. */
  lemma RecordsRoundTrip<T>(rs: seq<Record<T>>)
    ensures ToRecords(FromRecords(rs)) == Ok(rs)
  {
    var ds := FromRecords(rs);
    var r := ToRecords(ds);
    assert r.Ok?;
    forall i | 0 <= i < |rs| ensures r.value[i] == rs[i] {
      assert ToRecord(ds[i]) == Ok(r.value[i]);
      assert ToRecord(ds[i]) == Ok(rs[i]);
    }
    assert r.value == rs;
  }
}
