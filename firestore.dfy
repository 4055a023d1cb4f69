/** The document store and the operations of the module that works on it:
    the transactional rating aggregator, the photo-reference updater, the
    readers, and the bulk loader. The store is modelled as values (`State`)
    with one function per operation; the class `Store` holds the same
    contents in fields and runs each operation as a method proved against
    its function. */
module Firestore {
  import opened Documents
  import opened Listings
  import opened Queries
  import opened Normalize

  /** The store's contents: each restaurant's document data, the order the
      restaurants collection lists them in, each restaurant's ratings
      subcollection in the order it was written, and the counter the
      store's fresh ids are drawn from. */
  datatype State = State(
    restaurants: map<Id, Data<Listing>>,
    order: seq<Id>,
    ratings: map<Id, seq<Document<Review>>>,
    nextId: nat)

  /** The id the store assigns to its n-th new document; it is longer than
      every id assigned before it. */
  function AutoId(n: nat): (id: Id)
    ensures |id| == n + 1
  {
    seq(n + 1, _ => 'x')
  }

  /** The collection order lists every restaurant once and nothing else. */
  ghost predicate Listed(s: State) {
    && (forall i, j :: 0 <= i < j < |s.order| ==> s.order[i] != s.order[j])
    && (forall id :: id in s.restaurants <==> id in s.order)
  }

  /** No id in the store is as long as the next fresh one. */
  ghost predicate IdsBelow(s: State) {
    && (forall id :: id in s.restaurants ==> |id| <= s.nextId)
    && (forall id, k :: id in s.ratings && 0 <= k < |s.ratings[id]| ==> |s.ratings[id][k].id| <= s.nextId)
  }

  /** The invariant of the store: every restaurant is listed once, has a
      ratings subcollection, and every id is older than the next one. */
  ghost predicate WellFormed(s: State) {
    Listed(s) && s.ratings.Keys == s.restaurants.Keys && IdsBelow(s)
  }

  /** A restaurant's ratings subcollection; that of a missing restaurant is
      empty. */
  function RatingsOf(s: State, id: Id): seq<Document<Review>> {
    if id in s.ratings then s.ratings[id] else []
  }

  /** The ratings held by a sequence of rating documents. */
  function RatingValues(ds: seq<Document<Review>>): (rs: seq<int>)
    ensures |rs| == |ds| && forall i :: 0 <= i < |ds| ==> rs[i] == ds[i].data.fields.rating
  {
    seq(|ds|, i requires 0 <= i < |ds| => ds[i].data.fields.rating)
  }

  /** The restaurants collection as a query sees it. */
  function Collection(s: State): (docs: seq<Document<Listing>>)
    requires WellFormed(s)
    ensures |docs| == |s.order|
    ensures forall i :: 0 <= i < |docs| ==> docs[i] == Document(s.order[i], s.restaurants[s.order[i]])
  {
    seq(|s.order|, i requires 0 <= i < |s.order| => Document(s.order[i], s.restaurants[s.order[i]]))
  }

  /** The collection holds every restaurant, under its own id, once. */
  lemma CollectionHolds(s: State)
    requires WellFormed(s)
    ensures forall d :: d in Collection(s) <==> d.id in s.restaurants && d.data == s.restaurants[d.id]
    ensures DistinctIds(Collection(s))
  {
    var docs := Collection(s);
    forall d: Document<Listing> | d.id in s.restaurants && d.data == s.restaurants[d.id] ensures d in docs {
      var i :| 0 <= i < |s.order| && s.order[i] == d.id;
      assert docs[i] == d;
    }
  }

  // ---------------------------------------------------------------------
  // Rating aggregator

  /** The two writes of the rating transaction, which commit together: the
      new aggregate on the restaurant and the new rating document, which
      carries the review's fields and the commit timestamp. */
  function CommitRating(s: State, id: Id, review: Review, now: Timestamp): (t: State)
    requires id in s.restaurants
    ensures t.restaurants.Keys == s.restaurants.Keys && t.order == s.order
  {
    var data := s.restaurants[id];
    s.(restaurants := s.restaurants[id := data.(fields := WithRating(data.fields, review.rating))],
       ratings := s.ratings[id := RatingsOf(s, id) + [Document(AutoId(s.nextId), Data(review, Some(now)))]],
       nextId := s.nextId + 1)
  }

  /** `addReviewToRestaurant`: the argument checks, then the transaction,
      which commits both writes or neither. */
  function AddReview(s: State, id: Id, review: Option<Review>, now: Timestamp, unavailable: bool)
    : (r: Result<State, Error>)
    ensures r.Ok? <==> id != "" && review.Some? && !unavailable && id in s.restaurants
    ensures r.Err? ==> r.error == (if id == "" then NoRestaurantId else if review.None? then NoReview
                                   else if unavailable then StoreUnavailable else NotFound)
    ensures r.Ok? ==> r.value.restaurants.Keys == s.restaurants.Keys && r.value.order == s.order
                      && RatingCount(r.value.restaurants[id].fields) == RatingCount(s.restaurants[id].fields) + 1
                      && |RatingsOf(r.value, id)| == |RatingsOf(s, id)| + 1
  {
    if id == "" then Err(NoRestaurantId)
    else if review.None? then Err(NoReview)
    else if unavailable then Err(StoreUnavailable)
    else if id !in s.restaurants then Err(NotFound)
    else Ok(CommitRating(s, id, review.value, now))
  }

  /** A commit keeps the store's invariant. */
  lemma CommitRatingWellFormed(s: State, id: Id, review: Review, now: Timestamp)
    requires WellFormed(s) && id in s.restaurants
    ensures WellFormed(CommitRating(s, id, review, now))
  {
    var t := CommitRating(s, id, review, now);
    forall other, k | other in t.ratings && 0 <= k < |t.ratings[other]|
      ensures |t.ratings[other][k].id| <= t.nextId
    {
      if other == id && k < |s.ratings[id]| {
        assert t.ratings[other][k] == s.ratings[id][k];
      }
    }
  }

  /** A commit changes the restaurant's aggregate and nothing else about it,
      appends exactly one rating document, whose id is new in that
      subcollection and which holds the review and the timestamp, and
      touches no other restaurant. */
  lemma CommitRatingEffect(s: State, id: Id, review: Review, now: Timestamp)
    requires WellFormed(s) && id in s.restaurants
    ensures var t := CommitRating(s, id, review, now);
      var before, after := s.restaurants[id], t.restaurants[id];
      && after.timestamp == before.timestamp
      && SameDetails(before.fields, after.fields)
      && RatingCount(after.fields) == RatingCount(before.fields) + 1
      && RatingSum(after.fields) == RatingSum(before.fields) + review.rating
      && Consistent(after.fields)
      && RatingsOf(t, id) == RatingsOf(s, id) + [Document(AutoId(s.nextId), Data(review, Some(now)))]
      && (forall d :: d in RatingsOf(s, id) ==> d.id != AutoId(s.nextId))
      && (forall other :: other != id ==>
            RatingsOf(t, other) == RatingsOf(s, other)
            && (other in s.restaurants ==> t.restaurants[other] == s.restaurants[other]))
  {
    forall d | d in RatingsOf(s, id) ensures d.id != AutoId(s.nextId) {
      var k :| 0 <= k < |s.ratings[id]| && s.ratings[id][k] == d;
    }
  }

  /** One call of `addReviewToRestaurant`: its review, commit time, and
      whether the store fails it. */
  datatype Call = Call(review: Option<Review>, at: Timestamp, unavailable: bool)

  /** The store after the calls were made one after another on one
      restaurant; a call that fails changes nothing. */
  function AddReviews(s: State, id: Id, calls: seq<Call>): (t: State)
    ensures t.restaurants.Keys == s.restaurants.Keys && t.order == s.order
    decreases |calls|
  {
    if calls == [] then s
    else
      var before := AddReviews(s, id, calls[..|calls| - 1]);
      var c := calls[|calls| - 1];
      match AddReview(before, id, c.review, c.at, c.unavailable)
      case Ok(after) => after
      case Err(_) => before
  }

  /** The ratings of the calls that succeed on an existing restaurant. */
  function Accepted(calls: seq<Call>): seq<int>
    decreases |calls|
  {
    if calls == [] then []
    else
      var c := calls[|calls| - 1];
      Accepted(calls[..|calls| - 1]) + (if c.review.Some? && !c.unavailable then [c.review.value.rating] else [])
  }

  /** One more call either commits its rating, and then its rating is
      accepted, or changes nothing. */
  lemma AddReviewsStep(s: State, id: Id, calls: seq<Call>)
    requires calls != [] && id in s.restaurants
    ensures var c, prefix := calls[|calls| - 1], calls[..|calls| - 1];
      var before := AddReviews(s, id, prefix);
      && Accepted(calls) == Accepted(prefix) + (if c.review.Some? && !c.unavailable then [c.review.value.rating] else [])
      && AddReviews(s, id, calls)
         == if id != "" && c.review.Some? && !c.unavailable then CommitRating(before, id, c.review.value, c.at) else before
  {
  }

  /** A run of calls keeps the store's invariant. */
  lemma {:induction false} AddReviewsWellFormed(s: State, id: Id, calls: seq<Call>)
    requires WellFormed(s) && id in s.restaurants
    ensures WellFormed(AddReviews(s, id, calls))
    decreases |calls|
  {
    if calls != [] {
      var c := calls[|calls| - 1];
      AddReviewsWellFormed(s, id, calls[..|calls| - 1]);
      AddReviewsStep(s, id, calls);
      if c.review.Some? {
        CommitRatingWellFormed(AddReviews(s, id, calls[..|calls| - 1]), id, c.review.value, c.at);
      }
    }
  }

  /** After a run of calls, the restaurant's listing is the old one with the
      successful ratings applied in order, its timestamp is unchanged, and no
      other restaurant changed. */
  lemma {:induction false} AddReviewsListing(s: State, id: Id, calls: seq<Call>)
    requires id != "" && id in s.restaurants
    ensures var t := AddReviews(s, id, calls);
      && t.restaurants[id] == s.restaurants[id].(fields := ApplyRatings(s.restaurants[id].fields, Accepted(calls)))
      && forall other :: other in s.restaurants && other != id ==> t.restaurants[other] == s.restaurants[other]
    decreases |calls|
  {
    if calls != [] {
      var prefix := calls[..|calls| - 1];
      var c := calls[|calls| - 1];
      AddReviewsListing(s, id, prefix);
      AddReviewsStep(s, id, calls);
      if c.review.Some? && !c.unavailable {
        var a, l := Accepted(calls), s.restaurants[id].fields;
        var before := AddReviews(s, id, prefix);
        assert a[..|a| - 1] == Accepted(prefix);
        assert ApplyRatings(l, a) == WithRating(ApplyRatings(l, Accepted(prefix)), c.review.value.rating);
        assert AddReviews(s, id, calls).restaurants
            == before.restaurants[id := before.restaurants[id].(fields := ApplyRatings(l, a))];
      } else {
        assert Accepted(calls) == Accepted(prefix);
      }
    }
  }

  /** After a run of calls, the restaurant's subcollection gained one
      document per successful call, holding that call's rating, after the
      documents it had; no other subcollection changed. */
  lemma {:induction false} AddReviewsDocuments(s: State, id: Id, calls: seq<Call>)
    requires id != "" && id in s.restaurants
    ensures var t, n := AddReviews(s, id, calls), |RatingsOf(s, id)|;
      && |RatingsOf(t, id)| == n + |Accepted(calls)|
      && RatingsOf(t, id)[..n] == RatingsOf(s, id)
      && RatingValues(RatingsOf(t, id)[n..]) == Accepted(calls)
      && forall other :: other != id ==> RatingsOf(t, other) == RatingsOf(s, other)
    decreases |calls|
  {
    if calls != [] {
      var prefix := calls[..|calls| - 1];
      var c := calls[|calls| - 1];
      AddReviewsDocuments(s, id, prefix);
      AddReviewsStep(s, id, calls);
      if c.review.Some? && !c.unavailable {
        var before := AddReviews(s, id, prefix);
        var t := AddReviews(s, id, calls);
        var n := |RatingsOf(s, id)|;
        var doc := Document(AutoId(before.nextId), Data(c.review.value, Some(c.at)));
        var old_docs := RatingsOf(before, id);
        assert RatingsOf(t, id) == old_docs + [doc];
        assert (old_docs + [doc])[..n] == old_docs[..n];
        assert (old_docs + [doc])[n..] == old_docs[n..] + [doc];
        assert RatingValues(old_docs[n..] + [doc]) == RatingValues(old_docs[n..]) + [c.review.value.rating];
        assert forall other :: other != id ==> RatingsOf(t, other) == RatingsOf(before, other);
      } else {
        assert Accepted(calls) == Accepted(prefix);
      }
    }
  }

  /** numRatings equals the number of successful adds: from an unrated
      restaurant, the calls leave numRatings, sumRating and avgRating at the
      count, total and mean of the accepted ratings, and the count equals the
      number of rating documents written. */
  lemma CountEqualsSuccessfulAdds(s: State, id: Id, calls: seq<Call>)
    requires id != "" && id in s.restaurants
    requires Unrated(s.restaurants[id].fields)
    requires Accepted(calls) != []
    ensures var l := AddReviews(s, id, calls).restaurants[id].fields;
      && l.numRatings == Some(|Accepted(calls)|)
      && l.sumRating == Some(Total(Accepted(calls)))
      && l.avgRating == Some(Total(Accepted(calls)) as real / |Accepted(calls)| as real)
      && |RatingsOf(AddReviews(s, id, calls), id)| - |RatingsOf(s, id)| == l.numRatings.value
  {
    AddReviewsListing(s, id, calls);
    AddReviewsDocuments(s, id, calls);
    RatingsFromUnrated(s.restaurants[id].fields, Accepted(calls));
  }

  /** Calls that commit in any order converge: if two runs accept the same
      ratings, in whatever order, the restaurant ends with the same listing
      and the same number of rating documents. */
  lemma ConcurrentAddsConverge(s: State, id: Id, calls1: seq<Call>, calls2: seq<Call>)
    requires id != "" && id in s.restaurants
    requires multiset(Accepted(calls1)) == multiset(Accepted(calls2))
    ensures AddReviews(s, id, calls1).restaurants[id] == AddReviews(s, id, calls2).restaurants[id]
    ensures |RatingsOf(AddReviews(s, id, calls1), id)| == |RatingsOf(AddReviews(s, id, calls2), id)|
  {
    AddReviewsListing(s, id, calls1);
    AddReviewsListing(s, id, calls2);
    AddReviewsDocuments(s, id, calls1);
    AddReviewsDocuments(s, id, calls2);
    OrderIndependent(s.restaurants[id].fields, Accepted(calls1), Accepted(calls2));
    assert |Accepted(calls1)| == |multiset(Accepted(calls1))| == |Accepted(calls2)|;
  }

  /** If the count matched the number of rating documents, it still does
      after any run of calls. */
  lemma CountTracksRatingDocuments(s: State, id: Id, calls: seq<Call>)
    requires id != "" && id in s.restaurants
    requires RatingCount(s.restaurants[id].fields) == |RatingsOf(s, id)|
    ensures var t := AddReviews(s, id, calls);
      RatingCount(t.restaurants[id].fields) == |RatingsOf(t, id)|
  {
    AddReviewsListing(s, id, calls);
    AddReviewsDocuments(s, id, calls);
    ApplyRatingsTotals(s.restaurants[id].fields, Accepted(calls));
  }

  // ---------------------------------------------------------------------
  // Photo-reference updater

  /** `updateRestaurantImageReference`: overwrite the `photo` field. */
  function UpdateImageReference(s: State, id: Id, url: string, unavailable: bool): (r: Result<State, Error>)
    ensures r.Ok? <==> !unavailable && id in s.restaurants
    ensures r.Err? ==> r.error == if unavailable then StoreUnavailable else NotFound
    ensures r.Ok? ==> r.value.restaurants.Keys == s.restaurants.Keys && r.value.restaurants[id].fields.photo == Some(url)
  {
    if unavailable then Err(StoreUnavailable)
    else if id !in s.restaurants then Err(NotFound)
    else
      var data := s.restaurants[id];
      Ok(s.(restaurants := s.restaurants[id := data.(fields := data.fields.(photo := Some(url)))]))
  }

  /** The update sets the photo and leaves the aggregate, every other field,
      every other restaurant and every rating as they were; it fails, with
      nothing changed, exactly when the store does or the restaurant is
      missing. */
  lemma ImageReferenceOnlyPhoto(s: State, id: Id, url: string, unavailable: bool)
    requires WellFormed(s)
    ensures var r := UpdateImageReference(s, id, url, unavailable);
      && (r.Ok? <==> !unavailable && id in s.restaurants)
      && (r.Err? ==> r.error == if unavailable then StoreUnavailable else NotFound)
      && (r.Ok? ==>
            var before, after := s.restaurants[id], r.value.restaurants[id];
            && WellFormed(r.value)
            && after.fields == before.fields.(photo := Some(url))
            && (Consistent(after.fields) <==> Consistent(before.fields))
            && after.timestamp == before.timestamp
            && r.value.order == s.order && r.value.ratings == s.ratings && r.value.nextId == s.nextId
            && (forall other :: other in s.restaurants && other != id ==>
                  r.value.restaurants[other] == s.restaurants[other]))
  {
  }

  // ---------------------------------------------------------------------
  // Readers

  /** `getRestaurants`: the composed query, evaluated and normalised. */
  function FetchRestaurants(s: State, f: Filters, unavailable: bool): (r: Result<seq<Record<Listing>>, Error>)
    requires WellFormed(s)
    ensures unavailable ==> r == Err(StoreUnavailable)
    ensures r.Ok? ==> FromRecords(r.value) == Run(Composed(RestaurantsQuery, f), Collection(s))
  {
    if unavailable then Err(StoreUnavailable)
    else
      var run := Run(Composed(RestaurantsQuery, f), Collection(s));
      if ToRecords(run).Ok? then RecordsDetermineDocuments(run); ToRecords(run) else ToRecords(run)
  }

  /** The listing passes the filters and has the field it is sorted by. */
  predicate Wanted(f: Filters, l: Listing) {
    MatchesFilters(f, l) && forall k :: k in OrderClauses(f.sort) ==> HasOrderField(l, k)
  }

  /** The query `getRestaurants` runs returns exactly the wanted
      restaurants of the store, each once. */
  lemma RestaurantsQueryRun(s: State, f: Filters)
    requires WellFormed(s)
    ensures var run := Run(Composed(RestaurantsQuery, f), Collection(s));
      && (forall d :: d in run <==> d.id in s.restaurants && d.data == s.restaurants[d.id] && Wanted(f, d.data.fields))
      && DistinctIds(run)
  {
    var q := Composed(RestaurantsQuery, f);
    RunSound(q, Collection(s));
    CollectionHolds(s);
    forall l: Listing ensures Selects(q, l) <==> Wanted(f, l) {
      ComposedSelects(RestaurantsQuery, f, l);
    }
    MatchingKeepsDistinct(q, Collection(s));
    DistinctIdsPermutation(Matching(q, Collection(s)), Run(q, Collection(s)));
  }

  /** `getRestaurants` fails only when the store does, or when a wanted
      restaurant has no timestamp for `.toDate()`. */
  lemma FetchRestaurantsOutcome(s: State, f: Filters, unavailable: bool)
    requires WellFormed(s)
    ensures var r := FetchRestaurants(s, f, unavailable);
      && (r.Ok? <==> !unavailable && forall id :: id in s.restaurants && Wanted(f, s.restaurants[id].fields)
                                               ==> s.restaurants[id].timestamp.Some?)
      && (r.Err? ==> r.error == if unavailable then StoreUnavailable else MissingTimestamp)
  {
    if !unavailable {
      var run := Run(Composed(RestaurantsQuery, f), Collection(s));
      assert FetchRestaurants(s, f, unavailable) == ToRecords(run);
      RecordsNeedTimestamps(run);
      WantedTimestamps(s, f);
    }
  }

  /** Every document the restaurants query returns has a timestamp exactly
      when every wanted restaurant has one. */
  lemma WantedTimestamps(s: State, f: Filters)
    requires WellFormed(s)
    ensures (forall d :: d in Run(Composed(RestaurantsQuery, f), Collection(s)) ==> d.data.timestamp.Some?)
        <==> forall id :: id in s.restaurants && Wanted(f, s.restaurants[id].fields) ==> s.restaurants[id].timestamp.Some?
  {
    var run := Run(Composed(RestaurantsQuery, f), Collection(s));
    RestaurantsQueryRun(s, f);
    if forall d :: d in run ==> d.data.timestamp.Some? {
      forall id | id in s.restaurants && Wanted(f, s.restaurants[id].fields)
        ensures s.restaurants[id].timestamp.Some?
      {
        assert Document(id, s.restaurants[id]) in run;
      }
    } else {
      var d :| d in run && d.data.timestamp.None?;
      assert d.id in s.restaurants && d.data == s.restaurants[d.id] && Wanted(f, d.data.fields);
    }
  }

  /** The records `getRestaurants` returns are the wanted restaurants, each
      with its id and stored fields and each once. */
  lemma FetchRestaurantsContents(s: State, f: Filters)
    requires WellFormed(s)
    requires FetchRestaurants(s, f, false).Ok?
    ensures var rs := FetchRestaurants(s, f, false).value;
      && (forall d :: d in FromRecords(rs) <==>
            d.id in s.restaurants && d.data == s.restaurants[d.id] && Wanted(f, d.data.fields))
      && forall i, j :: 0 <= i < j < |rs| ==> rs[i].id != rs[j].id
  {
    var run := Run(Composed(RestaurantsQuery, f), Collection(s));
    RestaurantsQueryRun(s, f);
    RecordsDetermineDocuments(run);
    var rs := FetchRestaurants(s, f, false).value;
    forall i, j | 0 <= i < j < |rs| ensures rs[i].id != rs[j].id {
      assert FromRecords(rs)[i].id == rs[i].id && FromRecords(rs)[j].id == rs[j].id;
    }
  }

  /** The documents have pairwise different ids. */
  ghost predicate DistinctIds<T>(docs: seq<Document<T>>) {
    forall i, j :: 0 <= i < j < |docs| ==> docs[i].id != docs[j].id
  }

  /** Putting a document in front of documents with other ids keeps the
      ids pairwise different. */
  lemma DistinctCons<T>(x: Document<T>, rest: seq<Document<T>>)
    requires DistinctIds(rest)
    requires forall d :: d in rest ==> d.id != x.id
    ensures DistinctIds([x] + rest)
  {
    var r := [x] + rest;
    forall i, j | 0 <= i < j < |r| ensures r[i].id != r[j].id {
      assert r[j] == rest[j - 1] && r[j] in rest;
      if i > 0 {
        assert r[i] == rest[i - 1];
      }
    }
  }

  /** Filtering documents with pairwise different ids keeps them pairwise
      different. */
  lemma {:induction false} MatchingKeepsDistinct(q: Query, docs: seq<Document<Listing>>)
    requires DistinctIds(docs)
    ensures DistinctIds(Matching(q, docs))
    decreases |docs|
  {
    if docs != [] {
      var tail := docs[1..];
      assert DistinctIds(tail) by {
        forall i, j | 0 <= i < j < |tail| ensures tail[i].id != tail[j].id {
          assert tail[i] == docs[i + 1] && tail[j] == docs[j + 1];
        }
      }
      MatchingKeepsDistinct(q, tail);
      var rest := Matching(q, tail);
      if Selects(q, docs[0].data.fields) {
        forall d | d in rest ensures d.id != docs[0].id {
          var k :| 0 <= k < |tail| && tail[k] == d;
          assert docs[k + 1] == d;
        }
        DistinctCons(docs[0], rest);
        assert Matching(q, docs) == [docs[0]] + rest;
      } else {
        assert Matching(q, docs) == rest;
      }
    }
  }

  /** An element at two positions occurs at least twice. */
  lemma TwiceInMultiset<T>(ys: seq<T>, i: nat, j: nat)
    requires i < j < |ys| && ys[i] == ys[j]
    ensures multiset(ys)[ys[i]] >= 2
  {
    assert ys == ys[..i] + [ys[i]] + ys[i + 1..j] + [ys[j]] + ys[j + 1..];
  }

  /** A document among documents with pairwise different ids occurs once. */
  lemma CountOneInDistinct<T>(xs: seq<Document<T>>, a: nat)
    requires DistinctIds(xs) && a < |xs|
    ensures multiset(xs)[xs[a]] == 1
  {
    var x := xs[a];
    assert xs == xs[..a] + [x] + xs[a + 1..];
    assert x !in xs[..a];
    assert x !in xs[a + 1..];
  }

  /** Rearranging documents with pairwise different ids keeps them
      pairwise different. */
  lemma DistinctIdsPermutation<T>(xs: seq<Document<T>>, ys: seq<Document<T>>)
    requires DistinctIds(xs) && multiset(xs) == multiset(ys)
    ensures DistinctIds(ys)
  {
    forall i, j | 0 <= i < j < |ys| ensures ys[i].id != ys[j].id {
      if ys[i].id == ys[j].id {
        assert ys[i] in multiset(xs) && ys[j] in multiset(xs);
        var a :| 0 <= a < |xs| && xs[a] == ys[i];
        var b :| 0 <= b < |xs| && xs[b] == ys[j];
        assert a == b;
        TwiceInMultiset(ys, i, j);
        CountOneInDistinct(xs, a);
      }
    }
  }

  /** The records come sorted as the sort value asks: by average rating
      descending when it is unset or "Rating", by number of ratings
      descending when it is "Review", and otherwise in the collection's
      order. */
  lemma FetchRestaurantsOrder(s: State, f: Filters)
    requires WellFormed(s)
    requires FetchRestaurants(s, f, false).Ok?
    ensures var r := FetchRestaurants(s, f, false).value;
      && ((f.sort == Some("Rating") || !IsSet(f.sort)) ==>
            forall i, j :: 0 <= i < j < |r| ==>
              r[i].fields.avgRating.Some? && r[j].fields.avgRating.Some?
              && r[i].fields.avgRating.value >= r[j].fields.avgRating.value)
      && (f.sort == Some("Review") ==>
            forall i, j :: 0 <= i < j < |r| ==>
              r[i].fields.numRatings.Some? && r[j].fields.numRatings.Some?
              && r[i].fields.numRatings.value >= r[j].fields.numRatings.value)
      && (IsSet(f.sort) && f.sort.value != "Rating" && f.sort.value != "Review" ==>
            FromRecords(r) == Matching(Composed(RestaurantsQuery, f), Collection(s)))
  {
    var run := Run(Composed(RestaurantsQuery, f), Collection(s));
    RunOrder(f, Collection(s));
    RecordsDetermineDocuments(run);
    var r := FetchRestaurants(s, f, false).value;
    forall i | 0 <= i < |r| ensures r[i].fields == run[i].data.fields {
      assert FromRecords(r)[i] == run[i];
    }
  }

  /** `getReviewsByRestaurantId`: the ratings subcollection newest first,
      normalised. An empty id is refused without reading the store. */
  function FetchReviews(s: State, id: Id, unavailable: bool): (r: Result<seq<Record<Review>>, Error>)
    ensures id == "" ==> r == Err(NoRestaurantId)
    ensures id != "" && unavailable ==> r == Err(StoreUnavailable)
    ensures r.Ok? ==> FromRecords(r.value) == NewestFirst(RatingsOf(s, id))
  {
    if id == "" then Err(NoRestaurantId)
    else if unavailable then Err(StoreUnavailable)
    else
      var docs := NewestFirst(RatingsOf(s, id));
      if ToRecords(docs).Ok? then RecordsDetermineDocuments(docs); ToRecords(docs) else ToRecords(docs)
  }

  /** Reading a restaurant's ratings never trips over a missing timestamp
      (the ordering leaves such documents out): it fails only for an empty
      id or an unavailable store, and returns every timestamped rating
      document, as often as it is stored, newest first. */
  lemma FetchReviewsSound(s: State, id: Id, unavailable: bool)
    ensures var r := FetchReviews(s, id, unavailable);
      && (r.Ok? <==> id != "" && !unavailable)
      && (r.Err? ==> r.error == if id == "" then NoRestaurantId else StoreUnavailable)
      && (r.Ok? ==> multiset(FromRecords(r.value)) == multiset(Timestamped(RatingsOf(s, id))))
      && (r.Ok? ==> forall d :: multiset(FromRecords(r.value))[d]
                               == if d.data.timestamp.Some? then multiset(RatingsOf(s, id))[d] else 0)
      && (r.Ok? ==> forall d :: d in FromRecords(r.value) <==> d in RatingsOf(s, id) && d.data.timestamp.Some?)
      && (r.Ok? ==> forall i, j :: 0 <= i < j < |r.value| ==>
            r.value[i].timestamp.instant >= r.value[j].timestamp.instant)
  {
    if id != "" && !unavailable {
      var docs := NewestFirst(RatingsOf(s, id));
      NewestFirstSound(RatingsOf(s, id));
      var r := FetchReviews(s, id, unavailable);
      assert FromRecords(r.value) == docs;
      forall i, j | 0 <= i < j < |r.value|
        ensures r.value[i].timestamp.instant >= r.value[j].timestamp.instant
      {
        assert FromRecords(r.value)[i] == docs[i] && FromRecords(r.value)[j] == docs[j];
      }
    }
  }

  // ---------------------------------------------------------------------
  // Bulk loader

  /** One entry of the generated sample data. */
  datatype SeedEntry = SeedEntry(restaurantData: Data<Listing>, ratingsData: seq<Data<Review>>)

  /** Which write of an entry the store rejects, if any: write 0 adds the
      restaurant, write k adds its k-th rating. */
  datatype Fault = NoFault | FailAt(write: nat)

  function FaultOf(faults: seq<Fault>, i: nat): Fault {
    if i < |faults| then faults[i] else NoFault
  }

  /** `addDoc` on the restaurants collection. */
  function AddRestaurantDoc(s: State, data: Data<Listing>): (t: State)
    ensures var id := AutoId(s.nextId);
      && t.restaurants.Keys == s.restaurants.Keys + {id} && t.restaurants[id] == data
      && t.order == s.order + [id] && RatingsOf(t, id) == [] && t.nextId == s.nextId + 1
      && forall other :: other != id ==> RatingsOf(t, other) == RatingsOf(s, other)
  {
    var id := AutoId(s.nextId);
    s.(restaurants := s.restaurants[id := data], order := s.order + [id],
       ratings := s.ratings[id := []], nextId := s.nextId + 1)
  }

  /** `addDoc` on a restaurant's ratings subcollection. */
  function AddRatingDoc(s: State, id: Id, data: Data<Review>): (t: State)
    requires id in s.ratings
    ensures t.restaurants == s.restaurants && t.order == s.order && t.nextId == s.nextId + 1
    ensures RatingsOf(t, id) == RatingsOf(s, id) + [Document(AutoId(s.nextId), data)]
    ensures forall other :: other != id ==> RatingsOf(t, other) == RatingsOf(s, other)
  {
    s.(ratings := s.ratings[id := s.ratings[id] + [Document(AutoId(s.nextId), data)]],
       nextId := s.nextId + 1)
  }

  function AddRatingDocs(s: State, id: Id, ds: seq<Data<Review>>): (t: State)
    requires id in s.ratings
    ensures t.restaurants == s.restaurants && t.order == s.order && t.ratings.Keys == s.ratings.Keys
    ensures t.nextId == s.nextId + |ds|
    decreases |ds|
  {
    if ds == [] then s else AddRatingDoc(AddRatingDocs(s, id, ds[..|ds| - 1]), id, ds[|ds| - 1])
  }

  /** The rating documents `addDoc` creates for ds when the counter stands
      at n. */
  function NewRatingDocs(n: nat, ds: seq<Data<Review>>): (docs: seq<Document<Review>>)
    ensures |docs| == |ds|
    ensures forall k :: 0 <= k < |ds| ==> docs[k] == Document(AutoId(n + k), ds[k])
  {
    seq(|ds|, k requires 0 <= k < |ds| => Document(AutoId(n + k), ds[k]))
  }

  /** How many of an entry's n ratings are written before its fault. */
  function RatingsWritten(f: Fault, n: nat): (w: nat)
    ensures w <= n
    ensures f.NoFault? ==> w == n
    ensures f.FailAt? ==> w == if f.write == 0 then 0 else if f.write <= n then f.write - 1 else n
  {
    match f
    case NoFault => n
    case FailAt(k) => if k == 0 then 0 else if k - 1 < n then k - 1 else n
  }

  /** One iteration of the loader: the restaurant, then its ratings until the
      first rejected write; the rejection is caught, and what was written
      before it stays. */
  function LoadEntry(s: State, e: SeedEntry, f: Fault): (t: State)
    ensures f == FailAt(0) ==> t == s
    ensures f != FailAt(0) ==> t.order == s.order + [AutoId(s.nextId)]
                               && t.restaurants == s.restaurants[AutoId(s.nextId) := e.restaurantData]
                               && t.nextId == s.nextId + 1 + RatingsWritten(f, |e.ratingsData|)
  {
    if f == FailAt(0) then s
    else
      AddRatingDocs(AddRestaurantDoc(s, e.restaurantData), AutoId(s.nextId),
                    e.ratingsData[..RatingsWritten(f, |e.ratingsData|)])
  }

  /** `addFakeRestaurantsAndReviews` over the entries. */
  function LoadAll(s: State, data: seq<SeedEntry>, faults: seq<Fault>): (t: State)
    ensures |s.order| <= |t.order| <= |s.order| + |data| && s.nextId <= t.nextId
    decreases |data|
  {
    if data == [] then s
    else LoadEntry(LoadAll(s, data[..|data| - 1], faults), data[|data| - 1], FaultOf(faults, |data| - 1))
  }

  /** The id of a new document is not that of a stored restaurant. */
  lemma FreshRestaurantId(s: State)
    requires IdsBelow(s)
    ensures AutoId(s.nextId) !in s.restaurants
  {
  }

  /** Adding a restaurant keeps the invariant. */
  lemma AddRestaurantDocWellFormed(s: State, data: Data<Listing>)
    requires WellFormed(s)
    ensures WellFormed(AddRestaurantDoc(s, data))
  {
    var t := AddRestaurantDoc(s, data);
    FreshRestaurantId(s);
    forall i, j | 0 <= i < j < |t.order| ensures t.order[i] != t.order[j] {
      if j == |s.order| {
        assert s.order[i] in s.restaurants;
      }
    }
    forall other, k | other in t.ratings && 0 <= k < |t.ratings[other]|
      ensures |t.ratings[other][k].id| <= t.nextId
    {
      assert other in s.ratings && t.ratings[other] == s.ratings[other];
    }
  }

  /** Adding rating documents appends them, in order, with the given data and
      with consecutive fresh ids, to that restaurant's subcollection alone. */
  lemma {:induction false} AddRatingDocsContents(s: State, id: Id, ds: seq<Data<Review>>)
    requires id in s.ratings
    ensures var t := AddRatingDocs(s, id, ds);
      && t.restaurants == s.restaurants && t.order == s.order && t.nextId == s.nextId + |ds|
      && t.ratings == s.ratings[id := s.ratings[id] + NewRatingDocs(s.nextId, ds)]
    decreases |ds|
  {
    if ds != [] {
      var prefix := ds[..|ds| - 1];
      var before := AddRatingDocs(s, id, prefix);
      var doc := Document(AutoId(s.nextId + |prefix|), ds[|prefix|]);
      var old_docs, new_docs := NewRatingDocs(s.nextId, prefix), NewRatingDocs(s.nextId, ds);
      AddRatingDocsContents(s, id, prefix);
      assert new_docs == old_docs + [doc] by {
        NewRatingDocsSnoc(s.nextId, ds, |prefix|);
        assert ds[..|prefix|] == prefix && ds[..|prefix| + 1] == ds;
      }
      assert AddRatingDocs(s, id, ds).ratings == before.ratings[id := before.ratings[id] + [doc]] by {
        assert AddRatingDocs(s, id, ds) == AddRatingDoc(before, id, ds[|prefix|]);
      }
      assert before.ratings[id] + [doc] == s.ratings[id] + new_docs by {
        ConcatAssoc(s.ratings[id], old_docs, [doc]);
      }
      Overwrite(s.ratings, id, s.ratings[id] + old_docs, s.ratings[id] + new_docs);
    } else {
      assert s.ratings[id] + NewRatingDocs(s.nextId, ds) == s.ratings[id];
    }
  }

  /** Writing one more rating appends one more document. */
  lemma NewRatingDocsSnoc(n: nat, ds: seq<Data<Review>>, j: nat)
    requires j < |ds|
    ensures NewRatingDocs(n, ds[..j + 1]) == NewRatingDocs(n, ds[..j]) + [Document(AutoId(n + j), ds[j])]
  {
  }

  /** Adding a rating document keeps the store's invariant. */
  lemma AddRatingDocWellFormed(s: State, id: Id, d: Data<Review>)
    requires WellFormed(s) && id in s.restaurants
    ensures WellFormed(AddRatingDoc(s, id, d))
  {
    var t := AddRatingDoc(s, id, d);
    forall other, k | other in t.ratings && 0 <= k < |t.ratings[other]|
      ensures |t.ratings[other][k].id| <= t.nextId
    {
      if other == id && k < |s.ratings[id]| {
        assert t.ratings[other][k] == s.ratings[id][k];
      } else if other != id {
        assert t.ratings[other] == s.ratings[other];
      }
    }
  }

  /** Adding rating documents keeps the store's invariant. */
  lemma {:induction false} AddRatingDocsWellFormed(s: State, id: Id, ds: seq<Data<Review>>)
    requires WellFormed(s) && id in s.restaurants
    ensures WellFormed(AddRatingDocs(s, id, ds))
    decreases |ds|
  {
    if ds != [] {
      AddRatingDocsWellFormed(s, id, ds[..|ds| - 1]);
      AddRatingDocWellFormed(AddRatingDocs(s, id, ds[..|ds| - 1]), id, ds[|ds| - 1]);
    }
  }

  /** Loading an entry keeps the store's invariant; a loaded restaurant's
      id is new. */
  lemma LoadEntryWellFormed(s: State, e: SeedEntry, f: Fault)
    requires WellFormed(s)
    ensures WellFormed(LoadEntry(s, e, f))
    ensures f != FailAt(0) ==> AutoId(s.nextId) !in s.restaurants
  {
    if f != FailAt(0) {
      FreshRestaurantId(s);
      AddRestaurantDocWellFormed(s, e.restaurantData);
      AddRatingDocsWellFormed(AddRestaurantDoc(s, e.restaurantData), AutoId(s.nextId),
                              e.ratingsData[..RatingsWritten(f, |e.ratingsData|)]);
    }
  }

  /** A loaded restaurant gets exactly the generated data, aggregate
      included (the loader computes no aggregate); its ratings are those
      written before the fault, with consecutive new ids; nothing else
      changes. A fault on the restaurant's own write skips the entry. */
  lemma LoadEntryEffect(s: State, e: SeedEntry, f: Fault)
    ensures var t := LoadEntry(s, e, f);
      && (f == FailAt(0) ==> t == s)
      && (f != FailAt(0) ==>
            var id := AutoId(s.nextId);
            var n := RatingsWritten(f, |e.ratingsData|);
            && t.restaurants == s.restaurants[id := e.restaurantData]
            && t.order == s.order + [id]
            && t.ratings == s.ratings[id := NewRatingDocs(s.nextId + 1, e.ratingsData[..n])]
            && t.nextId == s.nextId + 1 + n)
  {
    if f != FailAt(0) {
      LoadEntryRatings(s, e, f);
    }
  }

  /** The ratings part of `LoadEntryEffect`. */
  lemma LoadEntryRatings(s: State, e: SeedEntry, f: Fault)
    requires f != FailAt(0)
    ensures LoadEntry(s, e, f).ratings
         == s.ratings[AutoId(s.nextId) := NewRatingDocs(s.nextId + 1, e.ratingsData[..RatingsWritten(f, |e.ratingsData|)])]
  {
    NewRestaurantRatings(s, e.restaurantData, e.ratingsData[..RatingsWritten(f, |e.ratingsData|)]);
  }

  /** A new restaurant followed by its ratings: the subcollection holds
      exactly those ratings, under the ids that follow the restaurant's. */
  lemma NewRestaurantRatings(s: State, data: Data<Listing>, ds: seq<Data<Review>>)
    ensures AddRatingDocs(AddRestaurantDoc(s, data), AutoId(s.nextId), ds).ratings
         == s.ratings[AutoId(s.nextId) := NewRatingDocs(s.nextId + 1, ds)]
  {
    var id := AutoId(s.nextId);
    var mid := AddRestaurantDoc(s, data);
    var written := mid.ratings[id] + NewRatingDocs(mid.nextId, ds);
    assert AddRatingDocs(mid, id, ds).ratings == mid.ratings[id := written] by {
      AddRatingDocsContents(mid, id, ds);
    }
    assert mid.ratings[id := written] == s.ratings[id := NewRatingDocs(s.nextId + 1, ds)] by {
      assert mid.ratings == s.ratings[id := []] && mid.nextId == s.nextId + 1;
      EmptyPrefix(mid.ratings[id], NewRatingDocs(mid.nextId, ds));
      Overwrite(s.ratings, id, [], written);
    }
  }

  lemma Overwrite<K, V>(m: map<K, V>, k: K, u: V, v: V)
    ensures m[k := u][k := v] == m[k := v]
  {
  }

  lemma EmptyPrefix<T>(a: seq<T>, b: seq<T>)
    requires a == []
    ensures a + b == b
  {
  }

  /** The number of entries whose restaurant write succeeds. */
  function LoadedCount(data: seq<SeedEntry>, faults: seq<Fault>): nat
    decreases |data|
  {
    if data == [] then 0
    else LoadedCount(data[..|data| - 1], faults) + (if FaultOf(faults, |data| - 1) == FailAt(0) then 0 else 1)
  }

  /** The loader keeps the store's invariant. */
  lemma {:induction false} LoadAllWellFormed(s: State, data: seq<SeedEntry>, faults: seq<Fault>)
    requires WellFormed(s)
    ensures WellFormed(LoadAll(s, data, faults))
    decreases |data|
  {
    if data != [] {
      LoadAllWellFormed(s, data[..|data| - 1], faults);
      LoadEntryWellFormed(LoadAll(s, data[..|data| - 1], faults), data[|data| - 1], FaultOf(faults, |data| - 1));
    }
  }

  /** The loader keeps every restaurant and rating already stored, and adds
      one restaurant per entry whose restaurant write succeeds. */
  lemma {:induction false} LoadAllEffect(s: State, data: seq<SeedEntry>, faults: seq<Fault>)
    requires WellFormed(s)
    ensures var t := LoadAll(s, data, faults);
      && |t.order| == |s.order| + LoadedCount(data, faults)
      && t.order[..|s.order|] == s.order
      && (forall id :: id in s.restaurants ==>
            id in t.restaurants && t.restaurants[id] == s.restaurants[id] && RatingsOf(t, id) == RatingsOf(s, id))
    decreases |data|
  {
    if data != [] {
      var prefix := data[..|data| - 1];
      var e, f := data[|data| - 1], FaultOf(faults, |data| - 1);
      LoadAllEffect(s, prefix, faults);
      LoadAllWellFormed(s, prefix, faults);
      var before := LoadAll(s, prefix, faults);
      var t := LoadAll(s, data, faults);
      assert t == LoadEntry(before, e, f);
      LoadEntryEffect(before, e, f);
      if f != FailAt(0) {
        var newId := AutoId(before.nextId);
        assert t.order[..|s.order|] == before.order[..|s.order|];
        forall id | id in s.restaurants
          ensures id in t.restaurants && t.restaurants[id] == s.restaurants[id] && RatingsOf(t, id) == RatingsOf(s, id)
        {
          assert id in before.restaurants && id != newId;
          assert id in before.ratings <==> id in t.ratings;
        }
      }
    }
  }

  // ---------------------------------------------------------------------
  // The store as an object

  class Store {
    var restaurants: map<Id, Data<Listing>>
    var order: seq<Id>
    var ratings: map<Id, seq<Document<Review>>>
    var nextId: nat

    function Contents(): State
      reads this
    {
      State(restaurants, order, ratings, nextId)
    }

    ghost predicate Valid()
      reads this
    {
      WellFormed(Contents())
    }

    /** An empty store. */
    constructor ()
      ensures Valid() && Contents() == State(map[], [], map[], 0)
    {
      restaurants, order, ratings, nextId := map[], [], map[], 0;
    }

    /** The transaction body of `updateWithRating`: read the restaurant,
        compute the new count, sum and average, and commit the aggregate
        update and the new rating document together. */
    method UpdateWithRating(docRef: Id, newRatingId: Id, review: Review, now: Timestamp, unavailable: bool)
      returns (res: Outcome)
      requires Valid() && newRatingId == AutoId(nextId)
      modifies this
      ensures Valid()
      ensures res == (if unavailable then Fail(StoreUnavailable)
                      else if docRef !in old(restaurants) then Fail(NotFound)
                      else Pass)
      ensures res.Pass? ==> Contents() == CommitRating(old(Contents()), docRef, review, now)
      ensures res.Fail? ==> Contents() == old(Contents())
    {
      if unavailable {
        return Fail(StoreUnavailable);
      }
      if docRef !in restaurants {
        // the update of a missing document aborts the commit
        return Fail(NotFound);
      }
      var data := restaurants[docRef].fields;
      var newNumRatings := if data.numRatings.Some? && data.numRatings.value != 0 then data.numRatings.value + 1 else 1;
      var newSumRating := (if data.sumRating.Some? && data.sumRating.value != 0 then data.sumRating.value else 0)
                          + review.rating;
      var newAverage := newSumRating as real / newNumRatings as real;
      ghost var before := Contents();
      assert data.(numRatings := Some(newNumRatings), sumRating := Some(newSumRating), avgRating := Some(newAverage))
          == WithRating(data, review.rating);
      restaurants := restaurants[docRef := restaurants[docRef].(fields := data.(
        numRatings := Some(newNumRatings), sumRating := Some(newSumRating), avgRating := Some(newAverage)))];
      ratings := ratings[docRef := ratings[docRef] + [Document(newRatingId, Data(review, Some(now)))]];
      nextId := nextId + 1;
      res := Pass;
      assert Contents() == CommitRating(before, docRef, review, now);
      CommitRatingWellFormed(before, docRef, review, now);
    }

    /** `addReviewToRestaurant`: an empty id or a missing review is refused
        before the store is touched; otherwise the transaction runs, and any
        failure in it is passed on with nothing committed. */
    method AddReviewToRestaurant(restaurantId: Id, review: Option<Review>, now: Timestamp, unavailable: bool)
      returns (res: Outcome)
      requires Valid()
      modifies this
      ensures Valid()
      ensures AddReview(old(Contents()), restaurantId, review, now, unavailable).Ok? <==> res.Pass?
      ensures res.Pass? ==> Contents() == AddReview(old(Contents()), restaurantId, review, now, unavailable).value
      ensures res.Fail? ==> AddReview(old(Contents()), restaurantId, review, now, unavailable) == Err(res.error)
      ensures res.Fail? ==> Contents() == old(Contents())
    {
      if restaurantId == "" {
        return Fail(NoRestaurantId);
      }
      if review.None? {
        return Fail(NoReview);
      }
      var newRatingDocument := AutoId(nextId);
      res := UpdateWithRating(restaurantId, newRatingDocument, review.value, now, unavailable);
    }

    /** `updateRestaurantImageReference`. `doc` returns a reference or
        throws, so its truthiness guard always passes. An empty id, which
        `doc` rejects, is treated as any other id: the store never assigns
        it, so the update fails as for a missing restaurant. */
    method UpdateRestaurantImageReference(restaurantId: Id, publicImageUrl: string, unavailable: bool)
      returns (res: Outcome)
      requires Valid()
      modifies this
      ensures Valid()
      ensures UpdateImageReference(old(Contents()), restaurantId, publicImageUrl, unavailable).Ok? <==> res.Pass?
      ensures res.Pass? ==>
        Contents() == UpdateImageReference(old(Contents()), restaurantId, publicImageUrl, unavailable).value
      ensures res.Fail? ==>
        UpdateImageReference(old(Contents()), restaurantId, publicImageUrl, unavailable) == Err(res.error)
      ensures res.Fail? ==> Contents() == old(Contents())
    {
      if unavailable {
        return Fail(StoreUnavailable);
      }
      if restaurantId !in restaurants {
        // updateDoc rejects a missing document
        return Fail(NotFound);
      }
      var data := restaurants[restaurantId];
      restaurants := restaurants[restaurantId := data.(fields := data.fields.(photo := Some(publicImageUrl)))];
      res := Pass;
    }

    /** `getRestaurants`. */
    method GetRestaurants(filters: Filters, unavailable: bool) returns (res: Result<seq<Record<Listing>>, Error>)
      requires Valid()
      ensures res == FetchRestaurants(Contents(), filters, unavailable)
    {
      var q := ApplyQueryFilters(RestaurantsQuery, filters);
      if unavailable {
        return Err(StoreUnavailable);
      }
      var docs := Run(q, Collection(Contents()));
      res := ToRecords(docs);
    }

    /** `getRestaurantById`: the stored fields with the timestamp converted
        and no id. An empty id is refused; reading a missing document's
        timestamp fails. */
    method GetRestaurantById(restaurantId: Id, unavailable: bool) returns (res: Result<Dated<Listing>, Error>)
      ensures res.Ok? <==> (restaurantId != "" && !unavailable && restaurantId in restaurants
                            && restaurants[restaurantId].timestamp.Some?)
      ensures res.Ok? ==> res.value.fields == restaurants[restaurantId].fields
                          && FromDate(res.value.timestamp) == restaurants[restaurantId].timestamp.value
      ensures res.Err? ==> res.error == (if restaurantId == "" then NoRestaurantId
                                         else if unavailable then StoreUnavailable
                                         else if restaurantId !in restaurants then NotFound
                                         else MissingTimestamp)
    {
      if restaurantId == "" {
        return Err(NoRestaurantId);
      }
      if unavailable {
        return Err(StoreUnavailable);
      }
      if restaurantId !in restaurants {
        return Err(NotFound);
      }
      var data := restaurants[restaurantId];
      if data.timestamp.None? {
        return Err(MissingTimestamp);
      }
      res := Ok(Dated(data.fields, ToDate(data.timestamp.value)));
    }

    /** `getReviewsByRestaurantId`. */
    method GetReviewsByRestaurantId(restaurantId: Id, unavailable: bool)
      returns (res: Result<seq<Record<Review>>, Error>)
      ensures res == FetchReviews(Contents(), restaurantId, unavailable)
    {
      if restaurantId == "" {
        return Err(NoRestaurantId);
      }
      if unavailable {
        return Err(StoreUnavailable);
      }
      var docs := NewestFirst(RatingsOf(Contents(), restaurantId));
      res := ToRecords(docs);
    }

    /** `addFakeRestaurantsAndReviews`: for each entry add the restaurant and
        then each of its ratings, straight to the store and without the
        aggregate transaction; a rejected write ends that entry, and the loop
        goes on with the next. */
    method AddFakeRestaurantsAndReviews(data: seq<SeedEntry>, faults: seq<Fault>)
      requires Valid()
      modifies this
      ensures Valid()
      ensures Contents() == LoadAll(old(Contents()), data, faults)
    {
      var i := 0;
      while i < |data|
        invariant 0 <= i <= |data|
        invariant Valid()
        invariant Contents() == LoadAll(old(Contents()), data[..i], faults)
      {
        ghost var start := Contents();
        assert LoadAll(old(Contents()), data[..i + 1], faults) == LoadEntry(start, data[i], FaultOf(faults, i)) by {
          assert data[..i + 1][..i] == data[..i];
        }
        AddSeedEntry(data[i], FaultOf(faults, i));
        LoadEntryWellFormed(start, data[i], FaultOf(faults, i));
        i := i + 1;
      }
      assert data[..|data|] == data;
    }

    /** One pass of the loader's outer loop: the restaurant document, then
        its ratings one by one until a write is rejected. */
    method AddSeedEntry(entry: SeedEntry, fault: Fault)
      modifies this
      ensures Contents() == LoadEntry(old(Contents()), entry, fault)
    {
      ghost var start := Contents();
      if fault == FailAt(0) {
        return;
      }
      var docRef := AutoId(nextId);
      restaurants := restaurants[docRef := entry.restaurantData];
      order := order + [docRef];
      ratings := ratings[docRef := []];
      nextId := nextId + 1;
      var j := 0;
      while j < |entry.ratingsData|
        invariant 0 <= j <= |entry.ratingsData|
        invariant fault.FailAt? ==> j < fault.write
        invariant restaurants == start.restaurants[docRef := entry.restaurantData]
        invariant order == start.order + [docRef]
        invariant ratings == start.ratings[docRef := NewRatingDocs(start.nextId + 1, entry.ratingsData[..j])]
        invariant nextId == start.nextId + 1 + j
      {
        if fault == FailAt(j + 1) {
          break;
        }
        var doc := Document(AutoId(nextId), entry.ratingsData[j]);
        ghost var written := NewRatingDocs(start.nextId + 1, entry.ratingsData[..j + 1]);
        assert written == ratings[docRef] + [doc] by {
          NewRatingDocsSnoc(start.nextId + 1, entry.ratingsData, j);
        }
        ratings := ratings[docRef := ratings[docRef] + [doc]];
        assert ratings == start.ratings[docRef := written] by {
          Overwrite(start.ratings, docRef, NewRatingDocs(start.nextId + 1, entry.ratingsData[..j]), written);
        }
        nextId := nextId + 1;
        j := j + 1;
      }
      assert j == RatingsWritten(fault, |entry.ratingsData|);
      LoadEntryEffect(start, entry, fault);
    }
  }
}
