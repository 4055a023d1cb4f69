/** The filter compositor (`applyQueryFilters`) and the evaluation of the
    queries it builds: equality clauses select restaurants, ordering clauses
    sort them descending. Also the fixed query of a restaurant's ratings,
    newest first. */
module Queries {
  import opened Documents
  import opened Listings
  import opened Ordering

  /** The sparse filter object a caller passes; every value is optional and
      arrives as a string (a price tier is written as "$", "$$", ...). */
  datatype Filters = Filters(
    category: Option<string>,
    city: Option<string>,
    price: Option<string>,
    sort: Option<string>)

  /** JavaScript truthiness of a filter value: present and not empty. */
  predicate IsSet(v: Option<string>) {
    v.Some? && v.value != ""
  }

  datatype Field = Category | City | Price

  datatype Value = Text(text: string) | Number(number: int)

  /** `where(field, "==", value)`. */
  datatype Clause = Where(field: Field, value: Value)

  /** `orderBy("avgRating", "desc")` and `orderBy("numRatings", "desc")`. */
  datatype OrderKey = AvgRatingDesc | NumRatingsDesc

  /** A query over the restaurants collection: the equality clauses and the
      ordering clauses in the order they were added. */
  datatype Query = Query(clauses: seq<Clause>, orders: seq<OrderKey>)

  /** `query(collection(db, "restaurants"))`: every restaurant, no order. */
  const RestaurantsQuery := Query([], [])

  /** The position of a field in the order the compositor adds clauses. */
  function FieldRank(field: Field): nat {
    match field
    case Category => 0
    case City => 1
    case Price => 2
  }

  /** The equality clauses the filters add, in the order category, city,
      price; the price clause compares against the length of the price
      string. */
  function EqualityClauses(f: Filters): (cs: seq<Clause>)
    ensures |cs| <= 3
    ensures cs == [] <==> !IsSet(f.category) && !IsSet(f.city) && !IsSet(f.price)
  {
    (if IsSet(f.category) then [Where(Category, Text(f.category.value))] else [])
    + (if IsSet(f.city) then [Where(City, Text(f.city.value))] else [])
    + (if IsSet(f.price) then [Where(Price, Number(|f.price.value|))] else [])
  }

  /** There is a clause for a field exactly when its filter value is set,
      and it compares against that value. */
  lemma EqualityClausesMembers(f: Filters)
    ensures forall c :: Where(Category, Text(c)) in EqualityClauses(f) <==> f.category == Some(c) && c != ""
    ensures forall c :: Where(City, Text(c)) in EqualityClauses(f) <==> f.city == Some(c) && c != ""
    ensures forall n :: Where(Price, Number(n)) in EqualityClauses(f) <==> IsSet(f.price) && n == |f.price.value|
  {
  }

  /** At most one clause per field, in the order category, city, price, and
      only the price clause compares against a number. */
  lemma EqualityClausesOrdered(f: Filters)
    ensures var cs := EqualityClauses(f);
      && (forall i, j :: 0 <= i < j < |cs| ==> FieldRank(cs[i].field) < FieldRank(cs[j].field))
      && (forall i :: 0 <= i < |cs| ==> (cs[i].field == Price <==> cs[i].value.Number?))
  {
  }

  /** The ordering clause the sort value adds: by average rating when the
      sort is unset or "Rating", by number of ratings when it is "Review",
      and none at all for any other value. */
  function OrderClauses(sort: Option<string>): (os: seq<OrderKey>)
    ensures |os| <= 1
    ensures os == [AvgRatingDesc] <==> sort == Some("Rating") || !IsSet(sort)
    ensures os == [NumRatingsDesc] <==> sort == Some("Review")
    ensures os == [] <==> IsSet(sort) && sort.value != "Rating" && sort.value != "Review"
  {
    if sort == Some("Rating") || !IsSet(sort) then [AvgRatingDesc]
    else if sort == Some("Review") then [NumRatingsDesc]
    else []
  }

  /** The query `applyQueryFilters` returns. */
  function Composed(q: Query, f: Filters): (r: Query)
    ensures |q.clauses| <= |r.clauses| <= |q.clauses| + 3 && r.clauses[..|q.clauses|] == q.clauses
    ensures |q.orders| <= |r.orders| <= |q.orders| + 1 && r.orders[..|q.orders|] == q.orders
  {
    Query(q.clauses + EqualityClauses(f), q.orders + OrderClauses(f.sort))
  }

  /** `applyQueryFilters`: extends q one clause at a time. */
  method ApplyQueryFilters(q0: Query, f: Filters) returns (q: Query)
    ensures q == Composed(q0, f)
  {
    q := q0;
    if IsSet(f.category) {
      q := Query(q.clauses + [Where(Category, Text(f.category.value))], q.orders);
    }
    if IsSet(f.city) {
      q := Query(q.clauses + [Where(City, Text(f.city.value))], q.orders);
    }
    if IsSet(f.price) {
      q := Query(q.clauses + [Where(Price, Number(|f.price.value|))], q.orders);
    }
    if f.sort == Some("Rating") || !IsSet(f.sort) {
      q := Query(q.clauses, q.orders + [AvgRatingDesc]);
    } else if f.sort == Some("Review") {
      q := Query(q.clauses, q.orders + [NumRatingsDesc]);
    }
  }

  /** A filter value that is empty means the same as one that is absent. */
  function Canonical(v: Option<string>): Option<string> {
    if IsSet(v) then v else None
  }

  lemma UnsetMeansAbsent(q: Query, f: Filters)
    ensures Composed(q, f)
         == Composed(q, Filters(Canonical(f.category), Canonical(f.city), Canonical(f.price), Canonical(f.sort)))
  {
  }

  /** The stored value of a filtered field. */
  function FieldValue(l: Listing, field: Field): Value {
    match field
    case Category => Text(l.category)
    case City => Text(l.city)
    case Price => Number(l.price)
  }

  predicate Satisfies(l: Listing, c: Clause) {
    FieldValue(l, c.field) == c.value
  }

  /** A query ordered by a field only returns documents that have it. */
  predicate HasOrderField(l: Listing, k: OrderKey) {
    match k
    case AvgRatingDesc => l.avgRating.Some?
    case NumRatingsDesc => l.numRatings.Some?
  }

  function OrderValue(l: Listing, k: OrderKey): real {
    match k
    case AvgRatingDesc => if l.avgRating.Some? then l.avgRating.value else 0.0
    case NumRatingsDesc => if l.numRatings.Some? then l.numRatings.value as real else 0.0
  }

  /** The query returns the listing. */
  predicate Selects(q: Query, l: Listing) {
    && (forall c :: c in q.clauses ==> Satisfies(l, c))
    && (forall k :: k in q.orders ==> HasOrderField(l, k))
  }

  /** The values a listing is sorted by, one per ordering clause. */
  function SortValues(l: Listing, orders: seq<OrderKey>): (vs: seq<real>)
    ensures |vs| == |orders|
  {
    seq(|orders|, i requires 0 <= i < |orders| => OrderValue(l, orders[i]))
  }

  function RankOf(orders: seq<OrderKey>): Document<Listing> -> seq<real> {
    (d: Document<Listing>) => SortValues(d.data.fields, orders)
  }

  /** The documents the query selects, in the store's order: each selected
      document as often as it is stored, and no other. */
  function Matching(q: Query, docs: seq<Document<Listing>>): (r: seq<Document<Listing>>)
    ensures forall d :: d in r <==> d in docs && Selects(q, d.data.fields)
    decreases |docs|
  {
    if docs == [] then []
    else
      (if Selects(q, docs[0].data.fields) then [docs[0]] else []) + Matching(q, docs[1..])
  }

  /** A selected document is kept as many times as it is stored, any other
      not at all. */
  lemma {:induction false} MatchingCounts(q: Query, docs: seq<Document<Listing>>)
    ensures forall d :: multiset(Matching(q, docs))[d] == if Selects(q, d.data.fields) then multiset(docs)[d] else 0
    decreases |docs|
  {
    if docs != [] {
      MatchingCounts(q, docs[1..]);
      assert docs == [docs[0]] + docs[1..];
    }
  }

  lemma ConcatAssoc<T>(a: seq<T>, b: seq<T>, c: seq<T>)
    ensures a + (b + c) == (a + b) + c
  {
  }

  /** Filtering keeps the store's order: filtering two stretches of the
      collection one after the other is filtering the whole. */
  lemma {:induction false} MatchingConcat(q: Query, a: seq<Document<Listing>>, b: seq<Document<Listing>>)
    ensures Matching(q, a + b) == Matching(q, a) + Matching(q, b)
    decreases |a|
  {
    if a == [] {
      assert a + b == b;
    } else {
      assert (a + b)[1..] == a[1..] + b;
      MatchingConcat(q, a[1..], b);
      var head := if Selects(q, a[0].data.fields) then [a[0]] else [];
      ConcatAssoc(head, Matching(q, a[1..]), Matching(q, b));
      assert Matching(q, a + b) == head + (Matching(q, a[1..]) + Matching(q, b));
      assert Matching(q, a) == head + Matching(q, a[1..]);
    }
  }

  /** Filtering keeps the store's order: a document comes through at the
      place it is stored. */
  lemma MatchingSingle(q: Query, d: Document<Listing>)
    ensures Matching(q, [d]) == if Selects(q, d.data.fields) then [d] else []
  {
    assert [d][1..] == [];
  }

  /** What executing the query returns: the selected documents sorted
      descending by its ordering clauses. */
  function Run(q: Query, docs: seq<Document<Listing>>): (r: seq<Document<Listing>>)
    ensures multiset(r) == multiset(Matching(q, docs))
  {
    SortDescending(Matching(q, docs), RankOf(q.orders))
  }

  /** The query returns exactly the selected documents, each once per stored
      copy, in descending order, and in the store's order when it has no
      ordering clause. */
  lemma RunSound(q: Query, docs: seq<Document<Listing>>)
    ensures forall d :: d in Run(q, docs) <==> d in docs && Selects(q, d.data.fields)
    ensures multiset(Run(q, docs)) == multiset(Matching(q, docs))
    ensures forall d :: multiset(Run(q, docs))[d] == if Selects(q, d.data.fields) then multiset(docs)[d] else 0
    ensures Descending(Run(q, docs), RankOf(q.orders))
    ensures q.orders == [] ==> Run(q, docs) == Matching(q, docs)
  {
    var key := RankOf(q.orders);
    MatchingCounts(q, docs);
    assert forall d :: |key(d)| == |q.orders|;
    SortIsDescending(Matching(q, docs), key, |q.orders|);
    if q.orders == [] {
      assert forall d :: key(d) == [];
      SortWithoutValues(Matching(q, docs), key);
    }
    assert forall d :: d in Run(q, docs) <==> d in multiset(Run(q, docs));
  }

  /** The listing passes the caller's filters. */
  predicate MatchesFilters(f: Filters, l: Listing) {
    && (IsSet(f.category) ==> l.category == f.category.value)
    && (IsSet(f.city) ==> l.city == f.city.value)
    && (IsSet(f.price) ==> l.price == |f.price.value|)
  }

  /** The composed query selects a listing exactly when the base query does,
      the listing passes the filters, and it has the field it is sorted by. */
  lemma ComposedSelects(q: Query, f: Filters, l: Listing)
    ensures Selects(Composed(q, f), l)
        <==> Selects(q, l) && MatchesFilters(f, l)
             && (forall k :: k in OrderClauses(f.sort) ==> HasOrderField(l, k))
  {
    SelectsExtended(q, EqualityClauses(f), OrderClauses(f.sort), l);
    assert (forall c :: c in EqualityClauses(f) ==> Satisfies(l, c)) <==> MatchesFilters(f, l) by {
      EqualityClausesMembers(f);
    }
  }

  /** Extending a query with more clauses and orderings selects what it
      selected and passes the extra ones. */
  lemma SelectsExtended(q: Query, cs: seq<Clause>, os: seq<OrderKey>, l: Listing)
    ensures Selects(Query(q.clauses + cs, q.orders + os), l)
        <==> Selects(q, l) && (forall c :: c in cs ==> Satisfies(l, c)) && (forall k :: k in os ==> HasOrderField(l, k))
  {
  }

  /** A query with one ordering clause returns only documents that have
      the ordered field, and in descending order of it. */
  lemma RunBySingleKey(q: Query, docs: seq<Document<Listing>>)
    requires |q.orders| == 1
    ensures var r := Run(q, docs);
      && (forall i :: 0 <= i < |r| ==> HasOrderField(r[i].data.fields, q.orders[0]))
      && forall i, j :: 0 <= i < j < |r| ==>
           OrderValue(r[i].data.fields, q.orders[0]) >= OrderValue(r[j].data.fields, q.orders[0])
  {
    var r := Run(q, docs);
    RunSound(q, docs);
    forall i | 0 <= i < |r| ensures HasOrderField(r[i].data.fields, q.orders[0]) {
      assert r[i] in r && q.orders[0] in q.orders;
    }
    forall i, j | 0 <= i < j < |r|
      ensures OrderValue(r[i].data.fields, q.orders[0]) >= OrderValue(r[j].data.fields, q.orders[0])
    {
      assert RanksFirst(RankOf(q.orders)(r[i]), RankOf(q.orders)(r[j]));
      SingleKeyRank(r[i].data.fields, r[j].data.fields, q.orders);
    }
  }

  /** Under one ordering clause, ranking first means a value at least as
      large. */
  lemma SingleKeyRank(l: Listing, m: Listing, orders: seq<OrderKey>)
    requires |orders| == 1
    requires RanksFirst(SortValues(l, orders), SortValues(m, orders))
    ensures OrderValue(l, orders[0]) >= OrderValue(m, orders[0])
  {
    var u, v := SortValues(l, orders), SortValues(m, orders);
    assert u[0] == OrderValue(l, orders[0]) && v[0] == OrderValue(m, orders[0]);
    assert u[1..] == [] && v[1..] == [];
  }

  /** The ordering of the filtered restaurants, by sort value: average rating
      descending when the sort is unset or "Rating", number of ratings
      descending when it is "Review", and the store's order otherwise. */
  lemma RunOrder(f: Filters, docs: seq<Document<Listing>>)
    ensures var r := Run(Composed(RestaurantsQuery, f), docs);
      && ((f.sort == Some("Rating") || !IsSet(f.sort)) ==>
            (forall i :: 0 <= i < |r| ==> r[i].data.fields.avgRating.Some?)
            && forall i, j :: 0 <= i < j < |r| ==>
                 r[i].data.fields.avgRating.value >= r[j].data.fields.avgRating.value)
      && (f.sort == Some("Review") ==>
            (forall i :: 0 <= i < |r| ==> r[i].data.fields.numRatings.Some?)
            && forall i, j :: 0 <= i < j < |r| ==>
                 r[i].data.fields.numRatings.value >= r[j].data.fields.numRatings.value)
      && (IsSet(f.sort) && f.sort.value != "Rating" && f.sort.value != "Review" ==> r == Matching(Composed(RestaurantsQuery, f), docs))
  {
    var q := Composed(RestaurantsQuery, f);
    assert q.orders == OrderClauses(f.sort);
    if q.orders == [] {
      RunSound(q, docs);
    } else {
      RunBySingleKey(q, docs);
    }
  }

  /** The sort value of a rating document: its timestamp. */
  function TimeValue(d: Document<Review>): seq<real> {
    [if d.data.timestamp.Some? then d.data.timestamp.value.instant as real else 0.0]
  }

  /** The rating documents that have a timestamp, in the store's order:
      each as often as it is stored, and no other. */
  function Timestamped(docs: seq<Document<Review>>): (r: seq<Document<Review>>)
    ensures forall d :: d in r <==> d in docs && d.data.timestamp.Some?
    decreases |docs|
  {
    if docs == [] then []
    else
      (if docs[0].data.timestamp.Some? then [docs[0]] else []) + Timestamped(docs[1..])
  }

  /** A timestamped document is kept as many times as it is stored, any
      other not at all. */
  lemma {:induction false} TimestampedCounts(docs: seq<Document<Review>>)
    ensures forall d :: multiset(Timestamped(docs))[d] == if d.data.timestamp.Some? then multiset(docs)[d] else 0
    decreases |docs|
  {
    if docs != [] {
      TimestampedCounts(docs[1..]);
      assert docs == [docs[0]] + docs[1..];
    }
  }

  /** Keeping the timestamped documents keeps the store's order. */
  lemma {:induction false} TimestampedConcat(a: seq<Document<Review>>, b: seq<Document<Review>>)
    ensures Timestamped(a + b) == Timestamped(a) + Timestamped(b)
    decreases |a|
  {
    if a == [] {
      assert a + b == b;
    } else {
      assert (a + b)[1..] == a[1..] + b;
      TimestampedConcat(a[1..], b);
      var head := if a[0].data.timestamp.Some? then [a[0]] else [];
      ConcatAssoc(head, Timestamped(a[1..]), Timestamped(b));
      assert Timestamped(a + b) == head + (Timestamped(a[1..]) + Timestamped(b));
      assert Timestamped(a) == head + Timestamped(a[1..]);
    }
  }

  /** `orderBy("timestamp", "desc")` on a restaurant's ratings. */
  function NewestFirst(docs: seq<Document<Review>>): (r: seq<Document<Review>>)
    ensures multiset(r) == multiset(Timestamped(docs))
  {
    SortDescending(Timestamped(docs), TimeValue)
  }

  /** The ratings query returns exactly the rating documents that carry a
      timestamp, newest first. */
  lemma NewestFirstSound(docs: seq<Document<Review>>)
    ensures var r := NewestFirst(docs);
      && (forall d :: d in r <==> d in docs && d.data.timestamp.Some?)
      && multiset(r) == multiset(Timestamped(docs))
      && (forall d :: multiset(r)[d] == if d.data.timestamp.Some? then multiset(docs)[d] else 0)
      && (forall i :: 0 <= i < |r| ==> r[i].data.timestamp.Some?)
      && forall i, j :: 0 <= i < j < |r| ==>
           r[i].data.timestamp.value.instant >= r[j].data.timestamp.value.instant
  {
    var r := NewestFirst(docs);
    assert forall d :: d in r <==> d in multiset(r);
    TimestampedCounts(docs);
    NewestFirstOrdered(docs);
  }

  /** Timestamped documents in descending order of their time value have
      non-increasing instants. */
  lemma NewestFirstOrdered(docs: seq<Document<Review>>)
    ensures var r := NewestFirst(docs);
      && (forall i :: 0 <= i < |r| ==> r[i].data.timestamp.Some?)
      && forall i, j :: 0 <= i < j < |r| ==>
           r[i].data.timestamp.value.instant >= r[j].data.timestamp.value.instant
  {
    var r := NewestFirst(docs);
    forall i | 0 <= i < |r| ensures r[i].data.timestamp.Some? {
      assert r[i] in multiset(Timestamped(docs));
    }
    SortIsDescending(Timestamped(docs), TimeValue, 1);
    forall i, j | 0 <= i < j < |r|
      ensures r[i].data.timestamp.value.instant >= r[j].data.timestamp.value.instant
    {
      var u, v := TimeValue(r[i]), TimeValue(r[j]);
      assert RanksFirst(u, v);
      assert u[1..] == [] && v[1..] == [];
    }
  }
}
