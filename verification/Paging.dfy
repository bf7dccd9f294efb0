/** Cursor pagination. */
module Paging {
  import opened Sorting
  import opened Division
  import opened Seqs

  datatype Page<T> = Page(items: seq<T>, next: string)

  /** From `i` on, the place after the first item whose key is the cursor; the end
      when there is none. */
  function StartFrom<T>(items: seq<T>, key: T -> string, cursor: string, i: nat): (start: nat)
    requires i <= |items|
    ensures i <= start <= |items|
    decreases |items| - i
  {
    if i == |items| then i
    else if key(items[i]) == cursor then i + 1
    else StartFrom(items, key, cursor, i + 1)
  }

  /** Where the page begins that the cursor asks for. */
  function StartOf<T>(items: seq<T>, key: T -> string, cursor: string): (start: nat)
    ensures start <= |items|
  {
    if cursor == "" then 0 else StartFrom(items, key, cursor, 0)
  }

  function End(start: nat, limit: nat, total: nat): nat {
    if start + limit < total then start + limit else total
  }

  predicate Known<T(!new)>(items: seq<T>, key: T -> string, cursor: string) {
    exists i :: 0 <= i < |items| && key(items[i]) == cursor
  }

  method Paginate<T(!new)>(items: seq<T>, cursor: string, limit: nat, key: T -> string) returns (page: Page<T>)
    requires limit > 0
    ensures var start := StartOf(items, key, cursor);
            var end := End(start, limit, |items|);
            page == Page(items[start..end], if end < |items| then key(items[end - 1]) else "")
  {
    var start := 0;
    if cursor != "" {
      start := |items|;
      for i := 0 to |items|
        invariant start == |items|
        invariant StartOf(items, key, cursor) == StartFrom(items, key, cursor, i)
      {
        if key(items[i]) == cursor {
          start := i + 1;
          break;
        }
      }
    }
    if start > |items| {
      start := |items|;
    }
    var end := if start + limit < |items| then start + limit else |items|;
    var next := "";
    if end < |items| {
      next := key(items[end - 1]);
    }
    page := Page(items[start..end], next);
  }

  predicate DistinctIds<T(!new)>(items: seq<T>, key: T -> string) {
    DistinctKeys(key, items) && forall i :: 0 <= i < |items| ==> key(items[i]) != ""
  }

  lemma {:induction false} FoundAt<T(!new)>(items: seq<T>, key: T -> string, k: nat, i: nat)
    requires i <= k < |items| && DistinctIds(items, key)
    ensures StartFrom(items, key, key(items[k]), i) == k + 1
    decreases k - i
  {
    if i < k {
      FoundAt(items, key, k, i + 1);
    }
  }

  /** The cursor with which a reader goes on who has seen the first `k` items. */
  function Cursor<T>(items: seq<T>, key: T -> string, k: nat): string
    requires k <= |items|
  {
    if k == 0 then "" else key(items[k - 1])
  }

  lemma StartAfter<T(!new)>(items: seq<T>, key: T -> string, k: nat)
    requires k <= |items| && DistinctIds(items, key)
    ensures StartOf(items, key, Cursor(items, key, k)) == k
  {
    if k > 0 { FoundAt(items, key, k - 1, 0); }
  }

  /** Following the cursors from the empty one over a fixed list visits every item
      exactly once, in order, and takes as many pages as the list fills, at least
      one. */
  method FollowCursors<T(!new)>(items: seq<T>, key: T -> string, limit: nat) returns (visited: seq<T>, pages: nat)
    requires limit > 0 && DistinctIds(items, key)
    ensures visited == items
    ensures pages == if items == [] then 1 else (|items| + limit - 1) / limit
  {
    visited, pages := [], 0;
    var cursor, more := "", true;
    ghost var seen: nat := 0;
    while more
      invariant seen <= |items| && visited == items[..seen]
      invariant more ==> seen == pages * limit && (seen < |items| || pages == 0) && cursor == Cursor(items, key, seen)
      invariant !more ==> seen == |items| && Filled(|items|, limit, pages)
      decreases more, |items| - seen
    {
      StartAfter(items, key, seen);
      var page := Paginate(items, cursor, limit, key);
      CutAt(items, seen, End(seen, limit, |items|));
      seen := End(seen, limit, |items|);
      visited := visited + page.items;
      pages := pages + 1;
      cursor := page.next;
      more := cursor != "";
    }
    assert items[..|items|] == items;
    FilledIsCeiling(|items|, limit, pages);
  }

  lemma {:induction false} NotFound<T(!new)>(items: seq<T>, key: T -> string, cursor: string, i: nat)
    requires i <= |items| && !Known(items, key, cursor)
    ensures StartFrom(items, key, cursor, i) == |items|
    decreases |items| - i
  {
    if i < |items| {
      NotFound(items, key, cursor, i + 1);
    }
  }

  /** A cursor that is on no item any more ends the traversal at once. */
  lemma UnknownCursorEnds<T(!new)>(items: seq<T>, key: T -> string, cursor: string)
    requires cursor != "" && !Known(items, key, cursor)
    ensures StartOf(items, key, cursor) == |items|
  {
    NotFound(items, key, cursor, 0);
  }

  // --- limits ---

  function NormalizeLimit(limit: int): (r: nat)
    ensures 1 <= r <= 200
    ensures 1 <= limit <= 200 ==> r == limit
    ensures (limit <= 0 ==> r == 50) && (limit > 200 ==> r == 200)
  {
    if limit <= 0 then 50 else if limit > 200 then 200 else limit
  }
}
