/** Sorting by a text key, as the tools' library sorts do. */
module Sorting {
  import opened Text

  function InsertBy<T>(x: T, xs: seq<T>, key: T -> string): seq<T> {
    if |xs| == 0 || Less(key(x), key(xs[0])) then [x] + xs else [xs[0]] + InsertBy(x, xs[1..], key)
  }

  function SortBy<T>(xs: seq<T>, key: T -> string): seq<T> {
    if |xs| == 0 then [] else InsertBy(xs[0], SortBy(xs[1..], key), key)
  }

  /** No key is less than an earlier one. */
  predicate Ordered<T>(xs: seq<T>, key: T -> string) {
    forall i, j :: 0 <= i < j < |xs| ==> !Less(key(xs[j]), key(xs[i]))
  }

  predicate DistinctKeys<T>(xs: seq<T>, key: T -> string) {
    forall i, j :: 0 <= i < j < |xs| ==> key(xs[i]) != key(xs[j])
  }

  predicate StrictlyOrdered<T>(xs: seq<T>, key: T -> string) {
    forall i, j :: 0 <= i < j < |xs| ==> Less(key(xs[i]), key(xs[j]))
  }

  lemma {:induction false} InsertByPermutes<T>(x: T, xs: seq<T>, key: T -> string)
    ensures multiset(InsertBy(x, xs, key)) == multiset(xs) + multiset{x}
  {
    if xs != [] && !Less(key(x), key(xs[0])) {
      InsertByPermutes(x, xs[1..], key);
      assert xs == [xs[0]] + xs[1..];
    }
  }

  lemma {:induction false} SortByPermutes<T>(xs: seq<T>, key: T -> string)
    ensures multiset(SortBy(xs, key)) == multiset(xs)
  {
    if xs != [] {
      SortByPermutes(xs[1..], key);
      InsertByPermutes(xs[0], SortBy(xs[1..], key), key);
      assert xs == [xs[0]] + xs[1..];
    }
  }

  /** Whatever holds of the new and the old elements holds of all. */
  lemma InsertedOrOld<T>(x: T, xs: seq<T>, key: T -> string, y: T)
    requires y in InsertBy(x, xs, key)
    ensures y == x || y in xs
  {
    InsertByPermutes(x, xs, key);
    assert y in multiset(InsertBy(x, xs, key));
  }

  lemma {:induction false} InsertByOrders<T>(x: T, xs: seq<T>, key: T -> string)
    requires Ordered(xs, key)
    ensures Ordered(InsertBy(x, xs, key), key)
  {
    hide Less;
    if xs == [] {
    } else if Less(key(x), key(xs[0])) {
      forall y | y in xs ensures !Less(key(y), key(x)) {
        if Less(key(y), key(x)) {
          LessTransitive(key(y), key(x), key(xs[0]));
          LessIrreflexive(key(y));
        }
      }
    } else {
      InsertByOrders(x, xs[1..], key);
      forall y | y in InsertBy(x, xs[1..], key) ensures !Less(key(y), key(xs[0])) {
        InsertedOrOld(x, xs[1..], key, y);
      }
    }
  }

  lemma {:induction false} SortByOrders<T>(xs: seq<T>, key: T -> string)
    ensures Ordered(SortBy(xs, key), key)
  {
    if xs != [] {
      SortByOrders(xs[1..], key);
      InsertByOrders(xs[0], SortBy(xs[1..], key), key);
    }
  }

  lemma {:induction false} InsertByKeepsDistinct<T>(x: T, xs: seq<T>, key: T -> string)
    requires DistinctKeys(xs, key) && forall y :: y in xs ==> key(y) != key(x)
    ensures DistinctKeys(InsertBy(x, xs, key), key)
  {
    hide Less;
    if xs != [] && !Less(key(x), key(xs[0])) {
      InsertByKeepsDistinct(x, xs[1..], key);
      forall y | y in InsertBy(x, xs[1..], key) ensures key(y) != key(xs[0]) {
        InsertedOrOld(x, xs[1..], key, y);
      }
    }
  }

  /** With distinct keys the sort is strict. */
  lemma SortByIsStrict<T>(xs: seq<T>, key: T -> string)
    requires DistinctKeys(xs, key)
    ensures StrictlyOrdered(SortBy(xs, key), key)
  {
    SortByOrders(xs, key);
    SortByKeepsDistinct(xs, key);
    OrderedIsStrict(SortBy(xs, key), key);
  }

  lemma OrderedIsStrict<T>(xs: seq<T>, key: T -> string)
    requires Ordered(xs, key) && DistinctKeys(xs, key)
    ensures StrictlyOrdered(xs, key)
  {
    hide Less;
    forall i, j | 0 <= i < j < |xs| ensures Less(key(xs[i]), key(xs[j])) {
      LessConnected(key(xs[i]), key(xs[j]));
    }
  }

  lemma {:induction false} SortByKeepsDistinct<T>(xs: seq<T>, key: T -> string)
    requires DistinctKeys(xs, key)
    ensures DistinctKeys(SortBy(xs, key), key)
  {
    if xs != [] {
      SortByKeepsDistinct(xs[1..], key);
      SortByPermutes(xs[1..], key);
      forall y | y in SortBy(xs[1..], key) ensures key(y) != key(xs[0]) {
        assert y in multiset(SortBy(xs[1..], key));
        assert y in xs[1..];
      }
      InsertByKeepsDistinct(xs[0], SortBy(xs[1..], key), key);
    }
  }
}
