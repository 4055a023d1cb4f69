/** Descending order on documents by a list of sort values, as a query with
    one or more `orderBy(field, "desc")` clauses returns them: the first
    value decides, the next breaks ties, and documents that tie on every
    value keep the order in which the store holds them. */
module Ordering {

  /** u comes no later than v when both are sorted descending, comparing the
      values from the first one on. */
  predicate RanksFirst(u: seq<real>, v: seq<real>)
    decreases |u|
  {
    u == [] || v == [] || u[0] > v[0] || (u[0] == v[0] && RanksFirst(u[1..], v[1..]))
  }

  lemma {:induction false} RanksFirstTotal(u: seq<real>, v: seq<real>)
    requires |u| == |v|
    ensures RanksFirst(u, v) || RanksFirst(v, u)
    decreases |u|
  {
    if u != [] && u[0] == v[0] {
      RanksFirstTotal(u[1..], v[1..]);
    }
  }

  lemma {:induction false} RanksFirstTransitive(u: seq<real>, v: seq<real>, w: seq<real>)
    requires |u| == |v| == |w|
    requires RanksFirst(u, v) && RanksFirst(v, w)
    ensures RanksFirst(u, w)
    decreases |u|
  {
    if u != [] && u[0] == v[0] && v[0] == w[0] {
      RanksFirstTransitive(u[1..], v[1..], w[1..]);
    }
  }

  /** Every element of xs comes no later than every element after it. */
  ghost predicate Descending<T>(xs: seq<T>, key: T -> seq<real>) {
    forall i, j :: 0 <= i < j < |xs| ==> RanksFirst(key(xs[i]), key(xs[j]))
  }

  /** x put in front of the first element of ys that it ranks before. */
  function Insert<T(==)>(x: T, ys: seq<T>, key: T -> seq<real>): (r: seq<T>)
    ensures multiset(r) == multiset(ys) + multiset{x}
    decreases |ys|
  {
    if ys == [] then [x]
    else if RanksFirst(key(x), key(ys[0])) then [x] + ys
    else
      assert ys == [ys[0]] + ys[1..];
      [ys[0]] + Insert(x, ys[1..], key)
  }

  /** Insertion sort into descending order; among elements that rank alike
      the earlier one stays first. */
  function SortDescending<T(==)>(xs: seq<T>, key: T -> seq<real>): (r: seq<T>)
    ensures multiset(r) == multiset(xs)
    decreases |xs|
  {
    if xs == [] then []
    else
      assert xs == [xs[0]] + xs[1..];
      Insert(xs[0], SortDescending(xs[1..], key), key)
  }

  /** An element that ranks no later than the head of a descending
      sequence can go in front of it. */
  lemma ConsDescending<T>(x: T, ys: seq<T>, key: T -> seq<real>, n: nat)
    requires forall y :: |key(y)| == n
    requires Descending(ys, key)
    requires forall j :: 0 <= j < |ys| ==> RanksFirst(key(x), key(ys[j]))
    ensures Descending([x] + ys, key)
  {
    var r := [x] + ys;
    forall i, j | 0 <= i < j < |r| ensures RanksFirst(key(r[i]), key(r[j])) {
      assert r[j] == ys[j - 1];
      if i > 0 {
        assert r[i] == ys[i - 1];
      }
    }
  }

  lemma {:induction false} InsertDescending<T>(x: T, ys: seq<T>, key: T -> seq<real>, n: nat)
    requires forall y :: |key(y)| == n
    requires Descending(ys, key)
    ensures Descending(Insert(x, ys, key), key)
    decreases |ys|
  {
    if ys != [] {
      if RanksFirst(key(x), key(ys[0])) {
        forall j | 0 <= j < |ys| ensures RanksFirst(key(x), key(ys[j])) {
          if j > 0 {
            RanksFirstTransitive(key(x), key(ys[0]), key(ys[j]));
          }
        }
        ConsDescending(x, ys, key, n);
      } else {
        RanksFirstTotal(key(x), key(ys[0]));
        var tail := ys[1..];
        assert Descending(tail, key) by {
          forall i, j | 0 <= i < j < |tail| ensures RanksFirst(key(tail[i]), key(tail[j])) {
            assert tail[i] == ys[i + 1] && tail[j] == ys[j + 1];
          }
        }
        InsertDescending(x, tail, key, n);
        var rest := Insert(x, tail, key);
        forall j | 0 <= j < |rest| ensures RanksFirst(key(ys[0]), key(rest[j])) {
          assert rest[j] in multiset(rest);
          if rest[j] != x {
            assert rest[j] in multiset(tail);
            var k :| 0 <= k < |tail| && tail[k] == rest[j];
            assert tail[k] == ys[k + 1];
          }
        }
        ConsDescending(ys[0], rest, key, n);
      }
    }
  }

  /** The sort returns its input rearranged into descending order. */
  lemma {:induction false} SortIsDescending<T>(xs: seq<T>, key: T -> seq<real>, n: nat)
    requires forall y :: |key(y)| == n
    ensures Descending(SortDescending(xs, key), key)
    decreases |xs|
  {
    if xs != [] {
      SortIsDescending(xs[1..], key, n);
      InsertDescending(xs[0], SortDescending(xs[1..], key), key, n);
    }
  }

  /** An element without sort values goes in front. */
  lemma InsertWithoutValue<T>(x: T, ys: seq<T>, key: T -> seq<real>)
    requires key(x) == []
    ensures Insert(x, ys, key) == [x] + ys
  {
    if ys != [] {
      assert RanksFirst(key(x), key(ys[0]));
    }
  }

  /** With no sort value at all, every element ranks alike and the sort
      keeps the input order. */
  lemma {:induction false} SortWithoutValues<T>(xs: seq<T>, key: T -> seq<real>)
    requires forall y :: key(y) == []
    ensures SortDescending(xs, key) == xs
    decreases |xs|
  {
    if xs != [] {
      var rest := xs[1..];
      SortWithoutValues(rest, key);
      InsertWithoutValue(xs[0], rest, key);
      assert xs == [xs[0]] + rest;
    }
  }
}
