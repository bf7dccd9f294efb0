/** Lists ordered by age and served page by page: invocations, templates and audit
    events, taken from a map and sorted, newest first, by a sort that may leave
    items of equal age in any order. */
module Listings {
  import opened Sorting
  import opened Paging
  import opened Seqs

  predicate NewestFirst<T>(time: T -> int, xs: seq<T>) {
    forall i, j :: 0 <= i < j < |xs| ==> time(xs[i]) >= time(xs[j])
  }

  /** One of the orders in which the same items may be listed. */
  ghost predicate IsListing<T(!new)>(time: T -> int, items: seq<T>, xs: seq<T>) {
    multiset(xs) == multiset(items) && NewestFirst(time, xs)
  }

  predicate DistinctTimes<T>(time: T -> int, xs: seq<T>) {
    forall i, j :: 0 <= i < j < |xs| ==> time(xs[i]) != time(xs[j])
  }

  // --- there is a listing, and with distinct times only one ---

  function InsertByAge<T>(time: T -> int, x: T, xs: seq<T>): seq<T> {
    if xs == [] || time(x) >= time(xs[0]) then [x] + xs else [xs[0]] + InsertByAge(time, x, xs[1..])
  }

  function SortByAge<T>(time: T -> int, xs: seq<T>): seq<T> {
    if xs == [] then [] else InsertByAge(time, xs[0], SortByAge(time, xs[1..]))
  }

  lemma {:induction false} InsertedMembers<T(!new)>(time: T -> int, x: T, xs: seq<T>)
    ensures multiset(InsertByAge(time, x, xs)) == multiset(xs) + multiset{x}
    ensures forall y :: y in InsertByAge(time, x, xs) <==> y in xs || y == x
  {
    if xs != [] && time(x) < time(xs[0]) {
      assert xs == [xs[0]] + xs[1..];
      InsertedMembers(time, x, xs[1..]);
    }
  }

  lemma {:induction false} InsertedByAge<T(!new)>(time: T -> int, x: T, xs: seq<T>)
    requires NewestFirst(time, xs)
    ensures NewestFirst(time, InsertByAge(time, x, xs))
  {
    if xs != [] && time(x) < time(xs[0]) {
      var rest := InsertByAge(time, x, xs[1..]);
      InsertedByAge(time, x, xs[1..]);
      InsertedMembers(time, x, xs[1..]);
      forall k | 0 <= k < |rest| ensures time(rest[k]) <= time(xs[0]) {
        assert rest[k] in rest;
        if rest[k] != x {
          var j := IndexIn(xs[1..], rest[k]);
          assert xs[j + 1] == rest[k];
        }
      }
    }
  }

  lemma {:induction false} SortedByAge<T(!new)>(time: T -> int, items: seq<T>)
    ensures IsListing(time, items, SortByAge(time, items))
  {
    if items != [] {
      assert items == [items[0]] + items[1..];
      SortedByAge(time, items[1..]);
      InsertedByAge(time, items[0], SortByAge(time, items[1..]));
      InsertedMembers(time, items[0], SortByAge(time, items[1..]));
    }
  }

  lemma HeadIsNewest<T(!new)>(time: T -> int, xs: seq<T>, y: T)
    requires NewestFirst(time, xs) && xs != [] && y in xs
    ensures time(y) <= time(xs[0])
  {
    var j := IndexIn(xs, y);
  }

  lemma HeadsAreOne<T(!new)>(time: T -> int, xs: seq<T>, ys: seq<T>)
    requires NewestFirst(time, xs) && NewestFirst(time, ys) && DistinctTimes(time, xs) && multiset(xs) == multiset(ys)
      && xs != []
    ensures ys != [] && xs[0] == ys[0]
  {
    SameMembers(xs, ys);
    assert xs[0] in ys;
    HeadIsNewest(time, ys, xs[0]);
    assert ys[0] in xs;
    HeadIsNewest(time, xs, ys[0]);
    var i := IndexIn(xs, ys[0]);
  }

  lemma TailsAreListings<T(!new)>(time: T -> int, xs: seq<T>, ys: seq<T>)
    requires NewestFirst(time, xs) && NewestFirst(time, ys) && DistinctTimes(time, xs) && multiset(xs) == multiset(ys)
    requires xs != [] && ys != [] && xs[0] == ys[0]
    ensures NewestFirst(time, xs[1..]) && NewestFirst(time, ys[1..]) && DistinctTimes(time, xs[1..])
    ensures multiset(xs[1..]) == multiset(ys[1..])
  {
    TailMultiset(xs);
    TailMultiset(ys);
  }

  lemma {:induction false} OneListing<T(!new)>(time: T -> int, xs: seq<T>, ys: seq<T>)
    requires NewestFirst(time, xs) && NewestFirst(time, ys) && DistinctTimes(time, xs) && multiset(xs) == multiset(ys)
    ensures xs == ys
  {
    if xs == [] {
      SameMembers(xs, ys);
      EmptyAlike(ys, xs);
    } else {
      HeadsAreOne(time, xs, ys);
      TailsAreListings(time, xs, ys);
      OneListing(time, xs[1..], ys[1..]);
      assert xs == [xs[0]] + xs[1..] && ys == [ys[0]] + ys[1..];
    }
  }

  lemma DistinctTimesInOrder<T(!new)>(time: T -> int, key: T -> string, xs: seq<T>, ys: seq<T>)
    requires multiset(xs) == multiset(ys) && DistinctKeys(key, xs) && DistinctTimes(time, xs)
    ensures DistinctTimes(time, ys)
  {
    DistinctInOrder(key, xs, ys);
    SameMembers(xs, ys);
    forall i, j | 0 <= i < j < |ys| ensures time(ys[i]) != time(ys[j]) {
      assert ys[i] in xs && ys[j] in xs;
      var p := IndexIn(xs, ys[i]);
      var q := IndexIn(xs, ys[j]);
      assert key(ys[i]) != key(ys[j]);
    }
  }

  // --- following the cursors over lists that are made anew for each page ---

  /** What a reader sees who asks for page after page, `views` being the lists that
      the pages are cut from. */
  ghost function Follow<T(!new)>(views: seq<seq<T>>, key: T -> string, cursor: string, limit: nat): seq<T>
    requires limit > 0
  {
    if views == [] then []
    else
      var xs := views[0];
      var start := StartOf(xs, key, cursor);
      var end := End(start, limit, |xs|);
      xs[start..end] +
      (if end < |xs| && key(xs[end - 1]) != "" then Follow(views[1..], key, key(xs[end - 1]), limit) else [])
  }

  /** Enough lists for every page, all of them listings of the items. */
  ghost predicate Views<T(!new)>(time: T -> int, items: seq<T>, views: seq<seq<T>>) {
    |views| > |items| && forall k :: 0 <= k < |views| ==> IsListing(time, items, views[k])
  }

  predicate AllAlike<T(==)>(views: seq<seq<T>>, xs: seq<T>) {
    forall k :: 0 <= k < |views| ==> views[k] == xs
  }

  lemma PageStep<T(!new)>(views: seq<seq<T>>, key: T -> string, limit: nat, k: nat)
    requires limit > 0 && views != [] && DistinctIds(views[0], key) && k <= |views[0]|
    ensures var xs, end := views[0], End(k, limit, |views[0]|);
            Follow(views, key, Cursor(xs, key, k), limit) ==
            xs[k..end] + (if end < |xs| then Follow(views[1..], key, Cursor(xs, key, end), limit) else [])
  {
    StartAfter(views[0], key, k);
  }

  /** From any place on, a list that stays as it is is seen to its end. */
  lemma {:induction false} SteadyFrom<T(!new)>(views: seq<seq<T>>, xs: seq<T>, key: T -> string, limit: nat, k: nat)
    requires limit > 0 && DistinctIds(xs, key) && AllAlike(views, xs) && k <= |xs| < |views| + k
    ensures Follow(views, key, Cursor(xs, key, k), limit) == xs[k..]
    decreases |views|
  {
    var end := End(k, limit, |xs|);
    assert views[0] == xs;
    PageStep(views, key, limit, k);
    CutAt(xs, k, end);
    if end < |xs| {
      assert AllAlike(views[1..], xs);
      SteadyFrom(views[1..], xs, key, limit, end);
    } else {
      assert xs[k..end] == xs[k..];
    }
  }

  /** With ages all different every listing is the same, and the pages show it
      exactly, whatever their size. */
  lemma DistinctTimesAreSeen<T(!new)>(time: T -> int, items: seq<T>, key: T -> string, views: seq<seq<T>>, limit: nat)
    requires DistinctIds(items, key) && DistinctTimes(time, items) && Views(time, items, views) && limit > 0
    ensures Follow(views, key, "", limit) == SortByAge(time, items)
    ensures multiset(Follow(views, key, "", limit)) == multiset(items)
  {
    var xs := SortByAge(time, items);
    SortedByAge(time, items);
    DistinctTimesInOrder(time, key, items, xs);
    forall k | 0 <= k < |views| ensures views[k] == xs { OneListing(time, xs, views[k]); }
    DistinctIdsInOrder(items, xs, key);
    assert |xs| == |multiset(xs)| == |multiset(items)| == |items|;
    SteadyFrom(views, xs, key, limit, 0);
    assert xs[0..] == xs;
  }

  lemma DistinctIdsInOrder<T(!new)>(items: seq<T>, xs: seq<T>, key: T -> string)
    requires DistinctIds(items, key) && multiset(xs) == multiset(items)
    ensures DistinctIds(xs, key)
  {
    DistinctInOrder(key, items, xs);
    SameMembers(xs, items);
    forall i | 0 <= i < |xs| ensures key(xs[i]) != "" {
      assert xs[i] in items;
      var j := IndexIn(items, xs[i]);
    }
  }

  // --- and with a tie an item may be on no page ---

  function Swapped<T>(xs: seq<T>, q: nat): seq<T>
    requires q + 1 < |xs|
  {
    xs[q := xs[q + 1]][q + 1 := xs[q]]
  }

  lemma SwappedMembers<T>(xs: seq<T>, q: nat)
    requires q + 1 < |xs|
    ensures multiset(Swapped(xs, q)) == multiset(xs)
  {
    var once := xs[q := xs[q + 1]];
    assert multiset(once) == multiset(xs) - multiset{xs[q]} + multiset{xs[q + 1]};
    assert multiset(once[q + 1 := xs[q]]) == multiset(once) - multiset{xs[q + 1]} + multiset{xs[q]};
  }

  lemma SwappedIsListing<T(!new)>(time: T -> int, items: seq<T>, xs: seq<T>, q: nat)
    requires IsListing(time, items, xs) && q + 1 < |xs| && time(xs[q]) == time(xs[q + 1])
    ensures IsListing(time, items, Swapped(xs, q))
  {
    SwappedMembers(xs, q);
    var ys := Swapped(xs, q);
    assert forall i :: 0 <= i < |xs| ==> time(ys[i]) == time(xs[i]);
  }

  function Repeated<T>(xs: seq<T>, n: nat): seq<seq<T>> {
    seq(n, _ => xs)
  }

  /** Two neighbours of equal age trade places after the first page: the second of
      them is on no page. */
  lemma TradeLosesAnItem<T(!new)>(xs: seq<T>, key: T -> string, q: nat)
    requires DistinctIds(xs, key) && q + 1 < |xs|
    ensures var seen := Follow([xs] + Repeated(Swapped(xs, q), |xs| + 1), key, "", q + 1);
            seen == xs[..q + 1] + xs[q + 2..] && xs[q + 1] !in seen
  {
    var ys := Swapped(xs, q);
    var rest := Repeated(ys, |xs| + 1);
    SwappedIds(xs, key, q);
    PageStep([xs] + rest, key, q + 1, 0);
    assert ([xs] + rest)[1..] == rest && xs[0..q + 1] == xs[..q + 1];
    assert Cursor(ys, key, q + 2) == key(xs[q]);
    SteadyFrom(rest, ys, key, q + 1, q + 2);
    assert ys[q + 2..] == xs[q + 2..];
    OnlyThere(xs, key, q + 1);
  }

  lemma OnlyThere<T(!new)>(xs: seq<T>, key: T -> string, i: nat)
    requires DistinctIds(xs, key) && i < |xs|
    ensures xs[i] !in xs[..i] + xs[i + 1..]
  {
    var others := xs[..i] + xs[i + 1..];
    forall x | x in others ensures x != xs[i] {
      if x in xs[..i] {
        var j := IndexIn(xs[..i], x);
        assert key(xs[j]) != key(xs[i]);
      } else {
        var j := IndexIn(xs[i + 1..], x);
        assert key(xs[i]) != key(xs[i + 1 + j]);
      }
    }
  }

  lemma SwappedIds<T(!new)>(xs: seq<T>, key: T -> string, q: nat)
    requires DistinctIds(xs, key) && q + 1 < |xs|
    ensures DistinctIds(Swapped(xs, q), key)
  {
  }

  /** A tie of age shows as two neighbours in a listing. */
  lemma TiedNeighbours<T(!new)>(time: T -> int, items: seq<T>, key: T -> string) returns (xs: seq<T>, q: nat)
    requires DistinctIds(items, key) && !DistinctTimes(time, items)
    ensures IsListing(time, items, xs) && DistinctIds(xs, key) && |xs| == |items|
    ensures q + 1 < |xs| && time(xs[q]) == time(xs[q + 1])
  {
    xs := SortByAge(time, items);
    SortedByAge(time, items);
    DistinctIdsInOrder(items, xs, key);
    assert |xs| == |multiset(xs)| == |multiset(items)| == |items|;
    if DistinctTimes(time, xs) {
      DistinctTimesInOrder(time, key, xs, items);
    }
    var j;
    q, j :| 0 <= q < j < |xs| && time(xs[q]) == time(xs[j]);
    assert time(xs[q]) >= time(xs[q + 1]) >= time(xs[j]);
  }

  /** At a tie of age there are listings and a page size for which a named item is
      seen on no page. */
  lemma TieLosesAnItem<T(!new)>(time: T -> int, items: seq<T>, key: T -> string)
    returns (views: seq<seq<T>>, limit: nat, lost: T)
    requires DistinctIds(items, key) && !DistinctTimes(time, items)
    ensures limit > 0 && Views(time, items, views) && lost in items && lost !in Follow(views, key, "", limit)
  {
    var xs, q := TiedNeighbours(time, items, key);
    SwappedIsListing(time, items, xs, q);
    TradeLosesAnItem(xs, key, q);
    views, limit, lost := [xs] + Repeated(Swapped(xs, q), |xs| + 1), q + 1, xs[q + 1];
    SameMembers(xs, items);
    assert xs[q + 1] in xs;
  }

  lemma TieHasTwoListings<T(!new)>(time: T -> int, items: seq<T>, key: T -> string)
    requires DistinctIds(items, key) && !DistinctTimes(time, items)
    ensures exists xs, ys :: IsListing(time, items, xs) && IsListing(time, items, ys) && xs != ys
  {
    var xs, q := TiedNeighbours(time, items, key);
    SwappedIsListing(time, items, xs, q);
    assert key(xs[q]) != key(xs[q + 1]) && Swapped(xs, q)[q] == xs[q + 1];
  }

  /** The exact condition, for every set of items: all listings agree, and
      following the cursors over any of them with any page size shows each item
      exactly once, if and only if no two items are of the same age. */
  lemma TraversalIsCompleteIff<T(!new)>(time: T -> int, items: seq<T>, key: T -> string)
    requires DistinctIds(items, key)
    ensures DistinctTimes(time, items) <==>
      forall xs, ys :: IsListing(time, items, xs) && IsListing(time, items, ys) ==> xs == ys
    ensures DistinctTimes(time, items) <==>
      forall views, limit: nat :: limit > 0 && Views(time, items, views) ==>
        multiset(Follow(views, key, "", limit)) == multiset(items)
  {
    if DistinctTimes(time, items) {
      forall xs, ys | IsListing(time, items, xs) && IsListing(time, items, ys) ensures xs == ys {
        DistinctTimesInOrder(time, key, items, xs);
        OneListing(time, xs, ys);
      }
      forall views, limit: nat | limit > 0 && Views(time, items, views)
        ensures multiset(Follow(views, key, "", limit)) == multiset(items)
      {
        DistinctTimesAreSeen(time, items, key, views, limit);
      }
    } else {
      var views, limit, lost := TieLosesAnItem(time, items, key);
      SeenIsIncomplete(views, key, limit, items, lost);
      TieHasTwoListings(time, items, key);
    }
  }

  lemma SeenIsIncomplete<T(!new)>(views: seq<seq<T>>, key: T -> string, limit: nat, items: seq<T>, lost: T)
    requires limit > 0 && lost in items && lost !in Follow(views, key, "", limit)
    ensures multiset(Follow(views, key, "", limit)) != multiset(items)
  {
    if multiset(Follow(views, key, "", limit)) == multiset(items) {
      SameMembers(Follow(views, key, "", limit), items);
    }
  }
}
