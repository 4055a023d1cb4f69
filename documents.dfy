/** Values shared by every part of the model: failure-carrying wrappers, the
    errors the core raises, document ids, timestamps, and the shapes in which
    documents leave the store (`Document`) and reach callers (`Record`). */
module Documents {

  datatype Option<+T> = None | Some(value: T)

  datatype Result<+T, +E> = Ok(value: T) | Err(error: E)

  /** The result of an operation that returns nothing but may fail. */
  datatype Outcome = Pass | Fail(error: Error)

  /** The ways an operation of the core can fail. */
  datatype Error =
    | NoRestaurantId    // the restaurant id is empty (falsy)
    | NoReview          // the review is absent (falsy)
    | NotFound          // the referenced restaurant document does not exist
    | MissingTimestamp  // a document without `timestamp` reaches `.toDate()`
    | StoreUnavailable  // the store could not be reached or refused the commit

  /** Document ids are strings; the empty string is the one falsy id. */
  type Id = string

  /** The store's native timestamp: an opaque, totally ordered instant. */
  datatype Timestamp = Timestamp(instant: int)

  /** The caller's date type that `.toDate()` produces. */
  datatype Date = Date(instant: int)

  function ToDate(t: Timestamp): Date {
    Date(t.instant)
  }

  /** The timestamp a date was converted from (the inverse of `ToDate`). */
  function FromDate(d: Date): (t: Timestamp)
    ensures ToDate(t) == d
  {
    Timestamp(d.instant)
  }

  /** What `doc.data()` yields: the document's own fields and its optional
      `timestamp` field. */
  datatype Data<T> = Data(fields: T, timestamp: Option<Timestamp>)

  /** One document of a query snapshot: its id and its data. */
  datatype Document<T> = Document(id: Id, data: Data<T>)

  /** The plain object handed to callers: the id, the fields, and the
      timestamp converted to a `Date`. */
  datatype Record<T> = Record(id: Id, fields: T, timestamp: Date)

  /** A plain object without an id (what a get-by-id read returns). */
  datatype Dated<T> = Dated(fields: T, timestamp: Date)
}
