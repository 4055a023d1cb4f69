# Restaurant reviews: the Firestore data layer in Dafny

This project models the data layer of a restaurant-review web application, `src/lib/firebase/firestore.js`. It covers four parts:

- The **rating aggregator**. `updateWithRating`, run inside a transaction by `addReviewToRestaurant`, validates its arguments. In one atomic step it then raises the restaurant's `numRatings`, `sumRating` and `avgRating` and writes a new, timestamped rating document.
- The **filter compositor**. `applyQueryFilters` extends a query with equality clauses for category, city and price, in that order, followed by at most one descending ordering clause. An evaluator runs such a query over the restaurants collection: it keeps the documents that pass every clause and have the ordered field, then sorts them descending.
- The **result normalisation** that every reader uses. Each document becomes a plain record holding its id, its fields and its timestamp converted with `.toDate()`.
- The **small writers**: the photo-reference updater, and the bulk loader that writes generated restaurants and their ratings.

The document store is abstract, and it appears twice:

- as a value `Firestore.State`: restaurant documents, the order of the collection, each restaurant's ratings subcollection, and a counter for new ids. Each operation is a function on this value.
- as a class `Firestore.Store` with the same four fields, whose methods are the source's imperative operations. Each method's contract ties its new state or result to the matching function, so the lemmas about the functions hold of the methods.

Files:

- `documents.dfy`: shared values — `Option`, `Result`, the errors, ids, timestamps, documents and records.
- `listings.dfy`: the restaurant and review fields, and the rating aggregate with its arithmetic.
- `ordering.dfy`: descending sort by a list of sort values, the way `orderBy(…, "desc")` orders a query result.
- `queries.dfy`: the filter compositor, and the evaluator of the queries it builds and of the ratings query.
- `normalize.dfy`: the document-to-record mapping.
- `firestore.dfy`: the store, its operations, and the `Store` class.

Conventions:

- **JavaScript truthiness.** A filter value or id is falsy when it is absent or the empty string. A `numRatings` or `sumRating` is falsy when it is absent or 0.
- **Environment as parameters.** The clock is the `now` parameter. A store failure (network, rejected commit) is the `unavailable` flag. A bulk-load failure is a `Fault` naming which write of an entry is rejected.
- **Document ids.** The store's new ids are modelled as fresh values: `AutoId(n)` is longer than every id handed out before it.
- **Query semantics.** As Firestore does, a query with an `orderBy` on a field leaves out documents that lack that field. A query without an ordering clause returns documents in the order the collection holds them.

Two behaviours that a reader might expect differently are modelled as the code has them:

- **Unrecognised sort value.** One could expect a sort value other than "Rating" or "Review" to fall back to the default ordering by `avgRating`. The code adds no ordering clause for it, so the model does not either (`Queries.OrderClauses`, `Queries.RunOrder`).
- **Rating range.** One could expect a rating to be checked against a range such as 1–5. The code checks only that a review is present, so the model accepts any integer rating.

## Model

| member | source | states |
|---|---|---|
| `Listings.WithRating` | src/lib/firebase/firestore.js:48-50 | One aggregate step: the count becomes the old count plus one (1 when it was absent or 0); the sum becomes the old sum (0 when absent) plus the rating; the other listing fields are untouched; and `avgRating * numRatings == sumRating` holds afterwards. |
| `Listings.ApplyRatings` | src/lib/firebase/firestore.js:48-50 | After n successive aggregate steps the count has risen by n and the other listing fields are unchanged. |
| `Listings.ApplyRatingsTotals` | src/lib/firebase/firestore.js:48-50 | After n successive aggregate steps: the count has risen by n and the sum by the ratings' total; the other fields are kept; and when n > 0 the aggregate is consistent, with the average equal to sum / count. |
| `Listings.RatingsFromUnrated` | src/lib/firebase/firestore.js:48-50 | From an unrated restaurant, adds with ratings r1..rn leave `numRatings == n`, `sumRating == r1 + … + rn` and `avgRating == (r1 + … + rn) / n`. |
| `Listings.OrderIndependent` | src/lib/firebase/firestore.js:86-88 | Two sequences of adds with the same ratings, in any order, leave the same listing. |
| `Listings.RatingScenarioPair` | src/lib/firebase/firestore.js:48-50 | Ratings 4 then 2 on an unrated restaurant give count 2, sum 6 and average 3.0. |
| `Listings.RatingScenarioFour` | src/lib/firebase/firestore.js:48-50 | Ratings 4, 2, 5 and 3 give count 4, sum 14 and average 3.5. |
| `Listings.RatingScenarioConcurrent` | src/lib/firebase/firestore.js:86-88 | Committing 5 before 3, or 3 before 5, after 4 and 2 leaves the same listing. |
| `Ordering.SortDescending` | src/lib/firebase/firestore.js:114-119 | Sorting rearranges its input: the result is a permutation of it (same multiset). |
| `Ordering.SortIsDescending` | src/lib/firebase/firestore.js:114-119 | The sorted result is in descending order: each element ranks no later than every element after it. |
| `Ordering.SortWithoutValues` | src/lib/firebase/firestore.js:113-120 | With no ordering clause, sorting leaves the input in the collection's order. |
| `Queries.ApplyQueryFilters` | src/lib/firebase/firestore.js:100-121 | Extending a query one clause at a time produces the base query followed by the clauses of `EqualityClauses` (category, city, price) and then those of `OrderClauses`. |
| `Queries.EqualityClauses` | src/lib/firebase/firestore.js:101-112 | At most three equality clauses, and none exactly when category, city and price are all unset. |
| `Queries.Composed` | src/lib/firebase/firestore.js:100-121 | The composed query begins with the base query's clauses and orderings, and adds at most three clauses and at most one ordering. |
| `Queries.EqualityClausesMembers` | src/lib/firebase/firestore.js:101-112 | A category or city clause exists exactly when that filter is set, and compares against its value. A price clause exists exactly when the price filter is set, and compares against the length of the price string. |
| `Queries.EqualityClausesOrdered` | src/lib/firebase/firestore.js:101-112 | There is at most one clause per field, in the order category, city, price, and only the price clause compares against a number. |
| `Queries.OrderClauses` | src/lib/firebase/firestore.js:113-119 | At most one ordering clause: by `avgRating` descending exactly when the sort is unset or "Rating", by `numRatings` descending exactly when it is "Review", and none exactly when it is set to any other value. |
| `Queries.UnsetMeansAbsent` | src/lib/firebase/firestore.js:100-119 | An empty filter value composes the same query as an absent one. |
| `Queries.Matching` | src/lib/firebase/firestore.js:100-112 | Filtering keeps exactly the documents that pass every clause and have every ordered field. |
| `Queries.MatchingCounts` | src/lib/firebase/firestore.js:100-112 | Filtering keeps each selected document as many times as it is stored, and every other one not at all. |
| `Queries.MatchingConcat` | src/lib/firebase/firestore.js:100-112 | Filtering a concatenation is the concatenation of the filtered parts, so the survivors keep the collection's order. |
| `Queries.MatchingSingle` | src/lib/firebase/firestore.js:100-112 | A single document survives filtering exactly when the query selects it. |
| `Queries.RunSound` | src/lib/firebase/firestore.js:100-121 | Running a query returns exactly the selected documents, each as many times as it is stored, rearranged from `Matching` (the same multiset), in descending order of the ordering clauses. With no ordering clause it is `Matching` itself, in the collection's order. |
| `Queries.Run` | src/lib/firebase/firestore.js:131 | The query result is a rearrangement of the filtered documents (the same multiset). |
| `Queries.RunBySingleKey` | src/lib/firebase/firestore.js:114-119 | Under one ordering clause, every returned document has the ordered field, and its value never increases along the result. |
| `Queries.ComposedSelects` | src/lib/firebase/firestore.js:100-121 | The composed query selects a listing exactly when the base query does, the listing passes the filters, and it has the field it is sorted by. |
| `Queries.RunOrder` | src/lib/firebase/firestore.js:114-119 | With sort unset or "Rating", the results are sorted by `avgRating` descending and all have one. With "Review", they are sorted by `numRatings` descending and all have one. With any other value they stay in the collection's order. |
| `Queries.Timestamped` | src/lib/firebase/firestore.js:200-203 | Keeps exactly the rating documents that have a timestamp. |
| `Queries.TimestampedCounts` | src/lib/firebase/firestore.js:200-203 | Keeps each timestamped rating document as many times as it is stored, and every other one not at all. |
| `Queries.TimestampedConcat` | src/lib/firebase/firestore.js:200-203 | Keeping the timestamped documents of a concatenation concatenates the kept parts, so they keep the subcollection's order. |
| `Queries.NewestFirstSound` | src/lib/firebase/firestore.js:200-203 | The ratings query returns exactly the timestamped rating documents, each as many times as it is stored, rearranged from `Timestamped` (the same multiset), newest first. |
| `Queries.NewestFirst` | src/lib/firebase/firestore.js:200-206 | The ratings query result is a rearrangement of the timestamped rating documents (the same multiset). |
| `Queries.NewestFirstOrdered` | src/lib/firebase/firestore.js:202 | The timestamps of the ratings query's result never increase. |
| `Normalize.ToRecord` | src/lib/firebase/firestore.js:133-140 | A document becomes a record with its id, its fields, and its timestamp converted to a date. A document without a timestamp makes the conversion fail. |
| `Normalize.ToRecords` | src/lib/firebase/firestore.js:157-165 | The mapping succeeds exactly when every document has a timestamp. It then keeps the number and the order of the documents, and each record is its document's conversion. |
| `Normalize.RecordsNeedTimestamps` | src/lib/firebase/firestore.js:138 | Normalisation fails exactly when some document lacks a timestamp. |
| `Normalize.FromRecords` | src/lib/firebase/firestore.js:207-214 | Rebuilds one document per record, in the same order. |
| `Normalize.RecordsDetermineDocuments` | src/lib/firebase/firestore.js:207-214 | Normalisation loses nothing: the records rebuild exactly the documents they came from. |
| `Normalize.RecordsRoundTrip` | src/lib/firebase/firestore.js:232-239 | Every sequence of records is the normalisation of the documents it rebuilds. |
| `Firestore.AutoId` | src/lib/firebase/firestore.js:81-83 | A new document id is longer than every id assigned before it, hence fresh. |
| `Firestore.Collection` | src/lib/firebase/firestore.js:126 | The restaurants collection lists every restaurant once, in the collection's order, with its stored data. |
| `Firestore.CollectionHolds` | src/lib/firebase/firestore.js:126 | A document is in the collection exactly when it is a stored restaurant under its own id, and ids in the collection are pairwise different. |
| `Firestore.CommitRating` | src/lib/firebase/firestore.js:53-63 | The committed transaction keeps the set of restaurants and their order. |
| `Firestore.AddReview` | src/lib/firebase/firestore.js:67-97 | A call succeeds exactly when the id is non-empty, the review present, the store available and the restaurant stored. Errors come in that order of checks. On success the restaurants and their order are kept, the count rises by one and the subcollection gains one document. |
| `Firestore.CommitRatingWellFormed` | src/lib/firebase/firestore.js:53-63 | A commit keeps the store's invariant (every restaurant listed once, each with a subcollection, every id older than the next). |
| `Firestore.CommitRatingEffect` | src/lib/firebase/firestore.js:53-63 | A commit changes only the restaurant's three aggregate fields (count plus one, sum plus the rating, consistent average). It appends exactly one rating document, holding the review and the commit timestamp under a new id, and touches no other restaurant. |
| `Firestore.AddReviews` | src/lib/firebase/firestore.js:67-97 | A run of `addReviewToRestaurant` calls keeps the set of restaurants and their order. |
| `Firestore.AddReviewsStep` | src/lib/firebase/firestore.js:69-88 | One more call commits its rating exactly when the id is non-empty, the review present, and the store available; otherwise it changes nothing. |
| `Firestore.AddReviewsWellFormed` | src/lib/firebase/firestore.js:67-97 | A run of calls keeps the store's invariant. |
| `Firestore.AddReviewsListing` | src/lib/firebase/firestore.js:86-88 | After a run of calls, the restaurant's listing is the old one with the ratings of the successful calls applied in order. Its timestamp is unchanged, and no other restaurant changed. |
| `Firestore.AddReviewsDocuments` | src/lib/firebase/firestore.js:81-88 | After a run of calls, the subcollection keeps its old documents and gains one per successful call, whose ratings are the accepted ratings in order. No other subcollection changed. |
| `Firestore.CountEqualsSuccessfulAdds` | src/lib/firebase/firestore.js:48-50 | From an unrated restaurant: `numRatings`, `sumRating` and `avgRating` are the count, total and mean of the successful adds, and `numRatings` equals the number of rating documents written. |
| `Firestore.ConcurrentAddsConverge` | src/lib/firebase/firestore.js:86-88 | Two runs that accept the same ratings, in any order, leave the same restaurant document and the same number of rating documents. |
| `Firestore.CountTracksRatingDocuments` | src/lib/firebase/firestore.js:86-88 | If `numRatings` matched the number of rating documents, it still does after any run of calls. |
| `Firestore.ImageReferenceOnlyPhoto` | src/lib/firebase/firestore.js:30-33 | The photo update succeeds exactly when the store is available and the restaurant exists. It then sets `photo` and leaves the aggregate, every other field, the timestamp, every other restaurant, the ratings and the invariant unchanged. |
| `Firestore.UpdateImageReference` | src/lib/firebase/firestore.js:25-35 | The update succeeds exactly when the store is available and the restaurant exists, with `StoreUnavailable` or `NotFound` otherwise. On success the set of restaurants is kept and the photo is the new URL. |
| `Firestore.RestaurantsQueryRun` | src/lib/firebase/firestore.js:124-131 | The composed query returns exactly the stored restaurants that pass the filters and have the ordered field, and no id twice. |
| `Firestore.FetchRestaurants` | src/lib/firebase/firestore.js:124-140 | An unavailable store gives `StoreUnavailable`. The records of a successful read rebuild exactly the result of the composed query over the collection. |
| `Firestore.FetchRestaurantsOutcome` | src/lib/firebase/firestore.js:131-140 | `getRestaurants` fails only when the store does, or when a wanted restaurant has no timestamp for `.toDate()`, with the matching error. |
| `Firestore.WantedTimestamps` | src/lib/firebase/firestore.js:131-138 | Every document the restaurants query returns has a timestamp exactly when every wanted restaurant has one. |
| `Firestore.FetchRestaurantsContents` | src/lib/firebase/firestore.js:133-140 | The records returned are the wanted restaurants with their ids and stored fields, and ids are pairwise different. |
| `Firestore.FetchRestaurantsOrder` | src/lib/firebase/firestore.js:113-140 | When the sort is unset or "Rating", the records all have `avgRating` and come sorted by it descending. When it is "Review", they have `numRatings` and come sorted by it descending. For any other sort value they come in the collection's order. |
| `Firestore.FetchReviews` | src/lib/firebase/firestore.js:192-214 | An empty id gives `NoRestaurantId`; otherwise an unavailable store gives `StoreUnavailable`. The records of a successful read rebuild exactly the result of the ratings query. |
| `Firestore.FetchReviewsSound` | src/lib/firebase/firestore.js:192-214 | Reading ratings fails exactly for an empty id or an unavailable store. Otherwise it returns every timestamped rating document, as often as it is stored, newest first. |
| `Firestore.AddRatingDocs` | src/lib/firebase/firestore.js:257-262 | Writing ratings keeps the restaurants, their order and the set of subcollections, and uses one new id per rating. |
| `Firestore.NewRatingDocs` | src/lib/firebase/firestore.js:257-262 | One rating document per rating written: the k-th holds the k-th rating under the k-th new id. |
| `Firestore.RatingsWritten` | src/lib/firebase/firestore.js:249-266 | All ratings are written when no write fails. When write k fails, none are written for k = 0 (the restaurant write), the first k − 1 for a rating write, and all of them when k lies past the entry. |
| `Firestore.FreshRestaurantId` | src/lib/firebase/firestore.js:251-254 | The id `addDoc` assigns to a new restaurant is not that of a stored one. |
| `Firestore.AddRestaurantDoc` | src/lib/firebase/firestore.js:251-254 | `addDoc` stores the restaurant under a new id, with its data, at the end of the collection and with an empty subcollection; every other subcollection is unchanged. |
| `Firestore.AddRestaurantDocWellFormed` | src/lib/firebase/firestore.js:251-254 | Adding a restaurant keeps the store's invariant. |
| `Firestore.AddRatingDocsContents` | src/lib/firebase/firestore.js:257-262 | Writing ratings appends them, in order, with their data and consecutive new ids, to that restaurant's subcollection alone. |
| `Firestore.AddRatingDocWellFormed` | src/lib/firebase/firestore.js:258-261 | Writing one rating keeps the store's invariant. |
| `Firestore.AddRatingDoc` | src/lib/firebase/firestore.js:258-261 | `addDoc` on a subcollection appends one document with the data under a new id; the restaurants, their order and every other subcollection are unchanged. |
| `Firestore.AddRatingDocsWellFormed` | src/lib/firebase/firestore.js:257-262 | Writing ratings keeps the store's invariant. |
| `Firestore.LoadEntryWellFormed` | src/lib/firebase/firestore.js:249-266 | Loading one entry keeps the store's invariant, and a loaded restaurant's id is new. |
| `Firestore.LoadEntry` | src/lib/firebase/firestore.js:249-266 | A rejected restaurant write leaves the store unchanged. Otherwise the restaurant is added under a new id at the end of the collection, and the counter moves past it and the ratings written. |
| `Firestore.LoadEntryEffect` | src/lib/firebase/firestore.js:249-266 | A loaded entry adds its restaurant exactly as generated, aggregate included, at the end of the collection. It adds the ratings written before the fault, with consecutive new ids, and changes nothing else. A rejected restaurant write skips the entry. |
| `Firestore.LoadEntryRatings` | src/lib/firebase/firestore.js:251-262 | After one entry, the new restaurant's subcollection holds exactly the ratings written before the fault, under the ids following the restaurant's, and no other subcollection changed. |
| `Firestore.NewRestaurantRatings` | src/lib/firebase/firestore.js:251-262 | A new restaurant followed by its ratings leaves a subcollection holding exactly those ratings, under the ids following the restaurant's. |
| `Firestore.LoadAllWellFormed` | src/lib/firebase/firestore.js:245-268 | The loader keeps the store's invariant. |
| `Firestore.LoadAll` | src/lib/firebase/firestore.js:245-268 | The loader adds at most one restaurant per entry and never removes one from the collection. |
| `Firestore.LoadAllEffect` | src/lib/firebase/firestore.js:245-268 | The loader keeps every restaurant and rating already stored, and adds one restaurant per entry whose restaurant write succeeds. |
| `Firestore.Store.UpdateWithRating` | src/lib/firebase/firestore.js:38-64 | The transaction body computes the new count, sum and average as the source does. Its commit is `CommitRating` on the old contents; when the store fails or the restaurant is missing, nothing changes and the error is returned. The invariant is kept. |
| `Firestore.Store.AddReviewToRestaurant` | src/lib/firebase/firestore.js:67-97 | Refuses an empty id or a missing review before touching the store. Otherwise it runs the transaction and passes on its failure with nothing committed. New contents and error are exactly those of `AddReview`. |
| `Firestore.Store.UpdateRestaurantImageReference` | src/lib/firebase/firestore.js:25-35 | New contents and error are exactly those of `UpdateImageReference`. |
| `Firestore.Store.GetRestaurants` | src/lib/firebase/firestore.js:124-141 | Returns exactly `FetchRestaurants` of the current contents. |
| `Firestore.Store.GetRestaurantById` | src/lib/firebase/firestore.js:171-184 | Succeeds exactly for a non-empty id of an existing, timestamped restaurant with the store available. It returns the stored fields with the timestamp converted, and otherwise the matching error. |
| `Firestore.Store.GetReviewsByRestaurantId` | src/lib/firebase/firestore.js:192-215 | Returns exactly `FetchReviews` of the current contents. |
| `Firestore.Store.AddFakeRestaurantsAndReviews` | src/lib/firebase/firestore.js:245-268 | The nested loop leaves the store as `LoadAll` of the old contents and keeps the invariant. |
| `Firestore.Store.AddSeedEntry` | src/lib/firebase/firestore.js:249-266 | One pass of the outer loop leaves the store as `LoadEntry` of the old contents. |

## Left out

- Subscriptions are not modelled: `onSnapshot` push channels, the callback and unsubscribing (src/lib/firebase/firestore.js:144-168, 218-242). They are concurrency and callbacks. Their query composition and their mapping are the same as those of `getRestaurants` and `getReviewsByRestaurantId`, and are modelled there.
- The `typeof cb !== "function"` guard: a dynamic type check with no counterpart in typed code.
- `getRestaurantSnapshotById`: a stub that does nothing.
- `runTransaction` retries and conflict detection. A transaction is one atomic step, and a failed one is the `unavailable` flag.
- How the store assigns ids. They are modelled as fresh values (`AutoId`), not random strings.
- `Timestamp.fromDate(new Date())` and `.toDate()`. Timestamps are opaque, totally ordered instants, and the clock is the `now` parameter.
- Floating point. `avgRating` is an exact `real` quotient with no rounding.
- `Number(review.rating)`: ratings are integers in the model, so coercion of strings and non-integers is not modelled.
- The default order of a collection, and tie-breaking by document id under `orderBy`. The model lists restaurants in an explicit collection order (the order they were added). Under an ordering clause it states that the result is descending and a rearrangement of the filtered documents; the order among documents with equal sort values is not stated.
- `updateRestaurantImageReference` with an empty id: `doc` throws on an empty path segment. The model treats the empty id as an id the store never assigns, so the update fails with `NotFound`.
- The price filter compares against `price.length`, a count of UTF-16 code units. The model uses the length of the string as a sequence of characters, which agrees for the `$` strings the app passes.
- `db = db` and `filters = {}` as default parameters. The store is the `Store` object, and an empty filter object is `Filters(None, None, None, None)`.
- Console logging, and the wrapping and rethrowing of errors. An error is returned as a value.
- `getRestaurantById` and `getReviewsByRestaurantId` return `undefined` for a falsy id. The model returns `Err(NoRestaurantId)` instead.
- `getRestaurantById` on a missing document throws when it reads the timestamp of undefined data. The model returns `Err(NotFound)`.
- `Firestore.AddReviewsDocuments`: for a run of calls, it states only the rating held by each new document. `Firestore.CommitRatingEffect` states the whole new document (review and timestamp) for one commit.
- `Firestore.Store.AddSeedEntry`: the inner loop of `addFakeRestaurantsAndReviews` is a separate method, one pass of the outer loop, so that each loop is proved against its own specification function.
- The generator of the sample data (`generateFakeRestaurantsAndReviews`). Its output is a parameter of the loader. Any write it rejects is a `Fault` parameter.
- `src/lib/firebase/storage.js` (file upload through Firebase Storage), `src/app/page.js` (page rendering) and `src/lib/firebase/serverApp.js` (cookies and authentication) are not part of this model. The store logic they reach is modelled: `storage.js` calls the photo updater, and `page.js` calls `getRestaurants` with the page's search parameters as filters.
