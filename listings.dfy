/** Restaurant and review documents, and the rating aggregate
    (`numRatings`, `sumRating`, `avgRating`) that `updateWithRating` keeps on
    each restaurant. */
module Listings {
  import opened Documents

  /** The fields of a restaurant document, its timestamp aside. `price` is
      the stored tier (a small positive integer); the three aggregate fields
      are absent on a restaurant that was loaded without them. */
  datatype Listing = Listing(
    name: string,
    category: string,
    city: string,
    price: int,
    photo: Option<string>,
    numRatings: Option<nat>,
    sumRating: Option<int>,
    avgRating: Option<real>)

  /** The fields of a review as the caller submits it. */
  datatype Review = Review(rating: int, text: string, userId: string)

  /** `numRatings` as the aggregator reads it: absent counts as zero. */
  function RatingCount(l: Listing): nat {
    if l.numRatings.Some? then l.numRatings.value else 0
  }

  /** `sumRating` as the aggregator reads it: absent counts as zero. */
  function RatingSum(l: Listing): int {
    if l.sumRating.Some? then l.sumRating.value else 0
  }

  /** The two listings agree on every field outside the aggregate. */
  predicate SameDetails(l: Listing, m: Listing) {
    && l.name == m.name && l.category == m.category && l.city == m.city
    && l.price == m.price && l.photo == m.photo
  }

  /** The aggregate invariant: there is a rating, and the average times the
      count is the sum. */
  predicate Consistent(l: Listing) {
    && l.numRatings.Some? && l.numRatings.value > 0
    && l.sumRating.Some? && l.avgRating.Some?
    && l.avgRating.value * (l.numRatings.value as real) == l.sumRating.value as real
  }

  /** Nobody has rated the restaurant yet. */
  predicate Unrated(l: Listing) {
    RatingCount(l) == 0 && RatingSum(l) == 0
  }

  /** The listing with the given aggregate, the average being sum / count. */
  function WithAggregate(l: Listing, count: nat, sum: int): Listing
    requires count > 0
  {
    l.(numRatings := Some(count), sumRating := Some(sum),
       avgRating := Some(sum as real / count as real))
  }

  /** The listing after one rating was added: the count goes up by one, the
      sum by the rating, the other fields stay, and the aggregate is
      consistent. */
  function WithRating(l: Listing, rating: int): (r: Listing)
    ensures SameDetails(l, r)
    ensures RatingCount(r) == RatingCount(l) + 1
    ensures RatingSum(r) == RatingSum(l) + rating
    ensures Consistent(r)
  {
    WithAggregate(l, RatingCount(l) + 1, RatingSum(l) + rating)
  }

  /** The sum of a sequence of ratings. */
  function Total(rs: seq<int>): int
    decreases |rs|
  {
    if rs == [] then 0 else Total(rs[..|rs| - 1]) + rs[|rs| - 1]
  }

  /** The listing after the ratings rs were added one after another. */
  function ApplyRatings(l: Listing, rs: seq<int>): (r: Listing)
    ensures SameDetails(l, r) && RatingCount(r) == RatingCount(l) + |rs|
    decreases |rs|
  {
    if rs == [] then l else WithRating(ApplyRatings(l, rs[..|rs| - 1]), rs[|rs| - 1])
  }

  /** n successive adds raise the count by n and the sum by the ratings'
      total, keep every other field, and leave the aggregate consistent. */
  lemma {:induction false} ApplyRatingsTotals(l: Listing, rs: seq<int>)
    ensures SameDetails(l, ApplyRatings(l, rs))
    ensures RatingCount(ApplyRatings(l, rs)) == RatingCount(l) + |rs|
    ensures RatingSum(ApplyRatings(l, rs)) == RatingSum(l) + Total(rs)
    ensures rs != [] ==> Consistent(ApplyRatings(l, rs))
    ensures rs != [] ==>
      ApplyRatings(l, rs) == WithAggregate(l, RatingCount(l) + |rs|, RatingSum(l) + Total(rs))
    decreases |rs|
  {
    if rs != [] {
      ApplyRatingsTotals(l, rs[..|rs| - 1]);
    }
  }

  /** From an unrated restaurant, n adds with ratings r1..rn leave
      numRatings == n, sumRating == r1 + ... + rn and avgRating == sum / n. */
  lemma RatingsFromUnrated(l: Listing, rs: seq<int>)
    requires Unrated(l) && rs != []
    ensures ApplyRatings(l, rs).numRatings == Some(|rs|)
    ensures ApplyRatings(l, rs).sumRating == Some(Total(rs))
    ensures ApplyRatings(l, rs).avgRating == Some(Total(rs) as real / |rs| as real)
  {
    ApplyRatingsTotals(l, rs);
  }

  lemma {:induction false} TotalConcat(a: seq<int>, b: seq<int>)
    ensures Total(a + b) == Total(a) + Total(b)
    decreases |b|
  {
    if b == [] {
      assert a + b == a;
    } else {
      assert (a + b)[..|a + b| - 1] == a + b[..|b| - 1];
      TotalConcat(a, b[..|b| - 1]);
    }
  }

  /** Taking the k-th rating out lowers the total by that rating. */
  lemma TotalWithout(b: seq<int>, k: nat)
    requires k < |b|
    ensures Total(b) == Total(b[..k] + b[k + 1..]) + b[k]
  {
    var pre, x, post := b[..k], b[k], b[k + 1..];
    var mid := pre + [x];
    assert Total(mid) == Total(pre) + x by {
      assert mid[..|mid| - 1] == pre;
    }
    assert Total(b) == Total(mid) + Total(post) by {
      assert b == mid + post;
      TotalConcat(mid, post);
    }
    assert Total(pre + post) == Total(pre) + Total(post) by {
      TotalConcat(pre, post);
    }
  }

  /** Taking the k-th rating out takes one copy of it out of the multiset. */
  lemma MultisetWithout(b: seq<int>, k: nat)
    requires k < |b|
    ensures multiset(b[..k] + b[k + 1..]) == multiset(b) - multiset{b[k]}
  {
    assert b == b[..k] + [b[k]] + b[k + 1..];
  }

  /** The total does not depend on the order of the ratings. */
  lemma {:induction false} TotalPermutation(a: seq<int>, b: seq<int>)
    requires multiset(a) == multiset(b)
    ensures Total(a) == Total(b)
    decreases |a|
  {
    if a != [] {
      var x := a[|a| - 1];
      var rest := a[..|a| - 1];
      assert a == rest + [x];
      assert multiset(rest) == multiset(a) - multiset{x};
      assert x in multiset(b);
      var k :| 0 <= k < |b| && b[k] == x;
      MultisetWithout(b, k);
      TotalPermutation(rest, b[..k] + b[k + 1..]);
      TotalWithout(b, k);
    }
  }

  /** Adds that commit in any order leave the same listing: the final count
      and sum (hence the average) depend only on which ratings were added. */
  lemma OrderIndependent(l: Listing, rs: seq<int>, ts: seq<int>)
    requires multiset(rs) == multiset(ts)
    ensures ApplyRatings(l, rs) == ApplyRatings(l, ts)
  {
    assert |rs| == |multiset(rs)| == |multiset(ts)| == |ts|;
    TotalPermutation(rs, ts);
    ApplyRatingsTotals(l, rs);
    ApplyRatingsTotals(l, ts);
  }

  /** Ratings 4 then 2 on an unrated restaurant give 2, 6 and 3. */
  lemma RatingScenarioPair(l: Listing)
    requires Unrated(l)
    ensures ApplyRatings(l, [4, 2]).numRatings == Some(2)
    ensures ApplyRatings(l, [4, 2]).sumRating == Some(6)
    ensures ApplyRatings(l, [4, 2]).avgRating == Some(3.0)
  {
    var two := [4, 2];
    assert two[..1] == [4] && [4][..0] == [];
    assert Total(two) == 6;
    RatingsFromUnrated(l, two);
  }

  /** A further pair 5 and 3 gives 4, 14 and 3.5. */
  lemma RatingScenarioFour(l: Listing)
    requires Unrated(l)
    ensures ApplyRatings(l, [4, 2, 5, 3]).numRatings == Some(4)
    ensures ApplyRatings(l, [4, 2, 5, 3]).sumRating == Some(14)
    ensures ApplyRatings(l, [4, 2, 5, 3]).avgRating == Some(3.5)
  {
    var four := [4, 2, 5, 3];
    assert four == [4, 2] + [5, 3];
    TotalConcat([4, 2], [5, 3]);
    assert [4, 2][..1] == [4] && [4][..0] == [] && [5, 3][..1] == [5] && [5][..0] == [];
    assert Total(four) == 14;
    RatingsFromUnrated(l, four);
  }

  /** The pair 5 and 3 leaves the same listing whichever commits first. */
  lemma RatingScenarioConcurrent(l: Listing)
    ensures ApplyRatings(l, [4, 2, 5, 3]) == ApplyRatings(l, [4, 2, 3, 5])
  {
    var four, swapped := [4, 2, 5, 3], [4, 2, 3, 5];
    assert multiset(four) == multiset(swapped);
    OrderIndependent(l, four, swapped);
  }
}
