/** Sorting by a string key, as the library's unstable sort leaves it when all
    keys differ. */
module Sorting {
  import opened Text

  predicate Ordered<T(!new)>(key: T -> string, xs: seq<T>) {
    forall i, j :: 0 <= i < j < |xs| ==> !Less(key(xs[j]), key(xs[i]))
  }

  predicate Strict<T(!new)>(key: T -> string, xs: seq<T>) {
    forall i, j :: 0 <= i < j < |xs| ==> Less(key(xs[i]), key(xs[j]))
  }

  predicate DistinctKeys<T(!new)>(key: T -> string, xs: seq<T>) {
    forall i, j :: 0 <= i < j < |xs| ==> key(xs[i]) != key(xs[j])
  }

  function Insert<T(!new)>(key: T -> string, x: T, xs: seq<T>): seq<T> {
    if xs == [] || !Less(key(xs[0]), key(x)) then [x] + xs else [xs[0]] + Insert(key, x, xs[1..])
  }

  function SortBy<T(!new)>(key: T -> string, xs: seq<T>): seq<T> {
    if xs == [] then [] else Insert(key, xs[0], SortBy(key, xs[1..]))
  }

  lemma IndexIn<T(!new)>(xs: seq<T>, y: T) returns (j: nat)
    requires y in xs
    ensures j < |xs| && xs[j] == y
  {
    j :| 0 <= j < |xs| && xs[j] == y;
  }

  lemma {:induction false} InsertMembers<T(!new)>(key: T -> string, x: T, xs: seq<T>)
    ensures multiset(Insert(key, x, xs)) == multiset(xs) + multiset{x}
    ensures forall y :: y in Insert(key, x, xs) <==> y in xs || y == x
  {
    if xs != [] && Less(key(xs[0]), key(x)) {
      assert xs == [xs[0]] + xs[1..];
      InsertMembers(key, x, xs[1..]);
    }
  }

  lemma {:induction false} InsertSorts<T(!new)>(key: T -> string, x: T, xs: seq<T>)
    requires Strict(key, xs) && forall y :: y in xs ==> key(y) != key(x)
    ensures Strict(key, Insert(key, x, xs))
  {
    if xs == [] {
    } else if !Less(key(xs[0]), key(x)) {
      forall k | 0 <= k < |xs| ensures Less(key(x), key(xs[k])) {
        LessIsTotal(key(x), key(xs[0]));
        assert xs[0] in xs;
        if k > 0 { LessIsTransitive(key(x), key(xs[0]), key(xs[k])); }
      }
    } else {
      assert xs == [xs[0]] + xs[1..];
      var rest := Insert(key, x, xs[1..]);
      InsertSorts(key, x, xs[1..]);
      InsertMembers(key, x, xs[1..]);
      forall k | 0 <= k < |rest| ensures Less(key(xs[0]), key(rest[k])) {
        var y := rest[k];
        assert y in rest;
        if y != x {
          var j := IndexIn(xs[1..], y);
          assert xs[j + 1] == y;
        }
      }
    }
  }

  /** Sorting distinct keys gives the same elements in strictly increasing order. */
  lemma {:induction false} SortBySorts<T(!new)>(key: T -> string, xs: seq<T>)
    requires DistinctKeys(key, xs)
    ensures Strict(key, SortBy(key, xs)) && multiset(SortBy(key, xs)) == multiset(xs)
    ensures forall y :: y in SortBy(key, xs) <==> y in xs
  {
    if xs != [] {
      assert xs == [xs[0]] + xs[1..];
      var rest := SortBy(key, xs[1..]);
      SortBySorts(key, xs[1..]);
      forall y | y in rest ensures key(y) != key(xs[0]) {
        var j := IndexIn(xs[1..], y);
        assert xs[j + 1] == y;
      }
      InsertSorts(key, xs[0], rest);
      InsertMembers(key, xs[0], rest);
    }
  }

  lemma HeadsAgree<T(!new)>(key: T -> string, a: seq<T>, b: seq<T>)
    requires Strict(key, a) && Strict(key, b) && a != [] && b != []
    requires a[0] in b && b[0] in a
    ensures a[0] == b[0]
  {
    var i :| 0 <= i < |b| && b[i] == a[0];
    var j :| 0 <= j < |a| && a[j] == b[0];
    LessIsTotal(key(a[0]), key(b[0]));
  }

  lemma TailMembers<T(!new)>(key: T -> string, a: seq<T>, y: T)
    requires Strict(key, a) && a != []
    ensures y in a[1..] <==> y in a && y != a[0]
  {
    assert a == [a[0]] + a[1..];
    if y in a[1..] {
      var k :| 0 <= k < |a[1..]| && a[1..][k] == y;
      assert a[k + 1] == y;
      LessIsTotal(key(a[0]), key(a[k + 1]));
    }
  }

  lemma EmptyAlike<T(!new)>(a: seq<T>, b: seq<T>)
    requires forall y :: y in a <==> y in b
    ensures a != [] ==> b != []
  {
    if a != [] {
      assert a[0] in b;
    }
  }

  /** Strictly increasing lists of the same elements are the same list. */
  lemma {:induction false} StrictIsUnique<T(!new)>(key: T -> string, a: seq<T>, b: seq<T>)
    requires Strict(key, a) && Strict(key, b)
    requires forall y :: y in a <==> y in b
    ensures a == b
  {
    EmptyAlike(a, b);
    EmptyAlike(b, a);
    if a != [] {
      assert a[0] in b && b[0] in a;
      HeadsAgree(key, a, b);
      forall y ensures y in a[1..] <==> y in b[1..] {
        TailMembers(key, a, y);
        TailMembers(key, b, y);
      }
      StrictIsUnique(key, a[1..], b[1..]);
      assert a == [a[0]] + a[1..] && b == [b[0]] + b[1..];
    }
  }

  /** Whatever a sort does with equal keys, on distinct keys it can only produce
      this list. */
  lemma AnySortAgrees<T(!new)>(key: T -> string, xs: seq<T>, sorted: seq<T>)
    requires DistinctKeys(key, xs) && Ordered(key, sorted) && multiset(sorted) == multiset(xs)
    ensures sorted == SortBy(key, xs)
  {
    SortBySorts(key, xs);
    DistinctInOrder(key, xs, sorted);
    forall i, j | 0 <= i < j < |sorted| ensures Less(key(sorted[i]), key(sorted[j])) {
      LessIsTotal(key(sorted[i]), key(sorted[j]));
    }
    SameMembers(sorted, xs);
    StrictIsUnique(key, sorted, SortBy(key, xs));
  }

  lemma SameMembers<T(!new)>(a: seq<T>, b: seq<T>)
    requires multiset(a) == multiset(b)
    ensures forall y :: y in a <==> y in b
  {
    forall y ensures y in a <==> y in b {
      assert y in a <==> y in multiset(a);
      assert y in b <==> y in multiset(b);
    }
  }

  /** Distinct keys stay distinct in any other order. */
  lemma DistinctInOrder<T(!new)>(key: T -> string, a: seq<T>, b: seq<T>)
    requires DistinctKeys(key, a) && multiset(a) == multiset(b)
    ensures DistinctKeys(key, b)
  {
    SameMembers(a, b);
    forall i, j | 0 <= i < j < |b| ensures key(b[i]) != key(b[j]) {
      assert b[i] in b && b[j] in b;
      var p :| 0 <= p < |a| && a[p] == b[i];
      var q :| 0 <= q < |a| && a[q] == b[j];
      if p == q {
        TwiceInOrder(b, i, j);
        CountsOnce(key, a, a[p]);
      }
    }
  }

  lemma TwiceInOrder<T(!new)>(b: seq<T>, i: nat, j: nat)
    requires i < j < |b| && b[i] == b[j]
    ensures multiset(b)[b[i]] >= 2
  {
    assert b == b[..i] + [b[i]] + b[i + 1..j] + [b[j]] + b[j + 1..];
  }

  lemma {:induction false} CountsOnce<T(!new)>(key: T -> string, xs: seq<T>, x: T)
    requires DistinctKeys(key, xs)
    ensures multiset(xs)[x] <= 1
  {
    if xs != [] {
      assert xs == [xs[0]] + xs[1..];
      CountsOnce(key, xs[1..], x);
      assert forall j :: 0 <= j < |xs[1..]| ==> xs[1..][j] == xs[j + 1];
    }
  }
}
