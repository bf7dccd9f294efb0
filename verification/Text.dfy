/** Strings as the program compares and trims them. */
module Text {
  import opened Seqs

  /** The order of Go's `<` on strings: byte by byte, a prefix first. */
  predicate Less(a: string, b: string) {
    if b == "" then false
    else if a == "" then true
    else a[0] < b[0] || (a[0] == b[0] && Less(a[1..], b[1..]))
  }

  lemma {:induction false} LessIsTotal(a: string, b: string)
    ensures Less(a, b) || a == b || Less(b, a)
    ensures Less(a, b) ==> a != b && !Less(b, a)
  {
    if a != "" && b != "" && a[0] == b[0] {
      LessIsTotal(a[1..], b[1..]);
      assert a == [a[0]] + a[1..] && b == [b[0]] + b[1..];
    }
  }

  lemma {:induction false} LessIsTransitive(a: string, b: string, c: string)
    requires Less(a, b) && Less(b, c)
    ensures Less(a, c)
  {
    if a != "" && a[0] == b[0] && b[0] == c[0] {
      LessIsTransitive(a[1..], b[1..], c[1..]);
    }
  }

  /** Up to `k` the strings agree, and there `a` ends or has the smaller character. */
  predicate SmallerAt(a: string, b: string, k: nat) {
    && k <= |a| && k < |b| && a[..k] == b[..k]
    && (k == |a| || a[k] < b[k])
  }

  lemma {:induction false} LessIff(a: string, b: string)
    ensures Less(a, b) <==> exists k: nat :: SmallerAt(a, b, k)
  {
    if a == "" && b != "" {
      assert SmallerAt(a, b, 0);
    } else if a != "" && b != "" && a[0] < b[0] {
      assert SmallerAt(a, b, 0);
    } else if a != "" && b != "" && a[0] == b[0] {
      LessIff(a[1..], b[1..]);
      if Less(a, b) {
        var k: nat :| SmallerAt(a[1..], b[1..], k);
        assert a[..k + 1] == [a[0]] + a[1..][..k] && b[..k + 1] == [b[0]] + b[1..][..k];
        assert SmallerAt(a, b, k + 1);
      }
      if k: nat :| SmallerAt(a, b, k) {
        assert k > 0;
        assert a[1..][..k - 1] == a[..k][1..];
        assert b[1..][..k - 1] == b[..k][1..];
        assert SmallerAt(a[1..], b[1..], k - 1);
      }
    } else {
      forall k: nat ensures !SmallerAt(a, b, k) {
        if 0 < k <= |a| && k < |b| { assert a[..k][0] == a[0] && b[..k][0] == b[0]; }
      }
    }
  }

  /** White space of the first 256 code points. */
  predicate IsSpace(c: char) {
    c == ' ' || ('\t' <= c <= '\r') || c == 0x85 as char || c == 0xA0 as char
  }

  lemma WhiteSpaceIs(c: char)
    ensures IsSpace(c) <==> c as int in {9, 10, 11, 12, 13, 32, 0x85, 0xA0}
  {
  }

  function TrimLeft(s: string): string {
    if s != "" && IsSpace(s[0]) then TrimLeft(s[1..]) else s
  }

  function TrimRight(s: string): string {
    if s != "" && IsSpace(s[|s| - 1]) then TrimRight(s[..|s| - 1]) else s
  }

  function Trim(s: string): string {
    TrimRight(TrimLeft(s))
  }

  /** No space at either end. */
  predicate Trimmed(s: string) {
    s != "" ==> !IsSpace(s[0]) && !IsSpace(s[|s| - 1])
  }

  lemma {:induction false} TrimLeftEnds(s: string)
    ensures TrimLeft(s) != "" ==> !IsSpace(TrimLeft(s)[0]) && s != "" && TrimLeft(s)[|TrimLeft(s)| - 1] == s[|s| - 1]
    ensures |TrimLeft(s)| <= |s|
  {
    if s != "" && IsSpace(s[0]) {
      TrimLeftEnds(s[1..]);
    }
  }

  lemma {:induction false} TrimRightEnds(s: string)
    ensures TrimRight(s) != "" ==> !IsSpace(TrimRight(s)[|TrimRight(s)| - 1]) && s != "" && TrimRight(s)[0] == s[0]
    ensures |TrimRight(s)| <= |s|
  {
    if s != "" && IsSpace(s[|s| - 1]) {
      TrimRightEnds(s[..|s| - 1]);
    }
  }

  lemma TrimIsTrimmed(s: string)
    ensures Trimmed(Trim(s))
  {
    TrimLeftEnds(s);
    TrimRightEnds(TrimLeft(s));
  }

  lemma TrimmedIff(s: string)
    ensures Trim(s) == s <==> Trimmed(s)
  {
    TrimIsTrimmed(s);
  }

  predicate Blank(s: string) {
    forall i :: 0 <= i < |s| ==> IsSpace(s[i])
  }

  /** What stands between white space is kept, whatever is in it. */
  lemma {:induction false} TrimKeepsMiddle(before: string, middle: string, after: string)
    requires Blank(before) && Blank(after) && Trimmed(middle)
    ensures Trim(before + middle + after) == middle
  {
    TrimLeftDrops(before, middle + after);
    assert before + middle + after == before + (middle + after);
    if middle == "" {
      TrimLeftDrops(after, "");
      assert middle + after == after && after + "" == after;
    } else {
      TrimRightDrops(middle, after);
    }
  }

  lemma {:induction false} TrimLeftDrops(before: string, rest: string)
    requires Blank(before)
    ensures TrimLeft(before + rest) == TrimLeft(rest)
  {
    if before == "" {
      assert before + rest == rest;
    } else {
      assert (before + rest)[0] == before[0] && (before + rest)[1..] == before[1..] + rest;
      TrimLeftDrops(before[1..], rest);
    }
  }

  lemma {:induction false} TrimRightDrops(rest: string, after: string)
    requires Blank(after) && (rest != "" ==> !IsSpace(rest[|rest| - 1]))
    ensures TrimRight(rest + after) == rest
    decreases |after|
  {
    var all := rest + after;
    if after == "" {
      assert all == rest;
    } else {
      assert all[|all| - 1] == after[|after| - 1] && all[..|all| - 1] == rest + after[..|after| - 1];
      TrimRightDrops(rest, after[..|after| - 1]);
    }
  }

  // --- cutting and joining ---

  /** Where `stop` occurs first, or the length. */
  function Until(s: string, stop: char): (n: nat)
    ensures n <= |s| && stop !in s[..n] && (n < |s| ==> s[n] == stop)
  {
    if s == "" || s[0] == stop then 0 else
      var n := Until(s[1..], stop);
      assert s[..n + 1] == [s[0]] + s[1..][..n];
      n + 1
  }

  lemma {:induction false} UntilAt(part: string, stop: char, rest: string)
    requires stop !in part
    ensures Until(part + [stop] + rest, stop) == |part| && Until(part, stop) == |part|
  {
    if part != "" {
      assert part[0] in part;
      assert part == [part[0]] + part[1..];
      assert (part + [stop] + rest)[1..] == part[1..] + [stop] + rest;
      UntilAt(part[1..], stop, rest);
    }
  }

  function Join(parts: seq<string>, sep: char): string {
    if parts == [] then ""
    else if |parts| == 1 then parts[0]
    else parts[0] + [sep] + Join(parts[1..], sep)
  }

  lemma JoinCons(a: string, rest: seq<string>, sep: char)
    requires rest != []
    ensures Join([a] + rest, sep) == a + [sep] + Join(rest, sep)
  {
    assert ([a] + rest)[1..] == rest;
  }

  lemma {:induction false} JoinSnoc(parts: seq<string>, last: string, sep: char)
    requires parts != []
    ensures Join(parts + [last], sep) == Join(parts, sep) + [sep] + last
  {
    assert (parts + [last])[1..] == parts[1..] + [last];
    if |parts| > 1 {
      JoinSnoc(parts[1..], last, sep);
      assert Join(parts + [last], sep) == parts[0] + [sep] + (Join(parts[1..], sep) + [sep] + last);
    } else {
      assert parts[1..] + [last] == [last];
    }
  }

  /** The parts between the separators, empty ones included. */
  function Split(s: string, sep: char): seq<string>
    decreases |s|
  {
    var n := Until(s, sep);
    if n == |s| then [s] else [s[..n]] + Split(s[n + 1..], sep)
  }

  lemma SplitCons(part: string, rest: string, sep: char)
    requires sep !in part
    ensures Split(part + [sep] + rest, sep) == [part] + Split(rest, sep)
  {
    UntilAt(part, sep, rest);
    var s := part + [sep] + rest;
    assert s[..|part|] == part && s[|part| + 1..] == rest;
  }

  /** A text cut at one of its separators. */
  lemma {:induction false} SplitAppend(a: string, b: string, sep: char)
    ensures Split(a + [sep] + b, sep) == Split(a, sep) + Split(b, sep)
    decreases |a|
  {
    var n := Until(a, sep);
    if n == |a| {
      assert a[..n] == a;
      SplitCons(a, b, sep);
    } else {
      var head, rest := a[..n], a[n + 1..];
      Around(a, n);
      SplitCons(head, rest, sep);
      SplitAppend(rest, b, sep);
      assert a + [sep] + b == head + [sep] + (rest + [sep] + b);
      SplitCons(head, rest + [sep] + b, sep);
      Assoc([head], Split(rest, sep), Split(b, sep));
    }
  }

  lemma {:induction false} JoinSplit(s: string, sep: char)
    ensures Join(Split(s, sep), sep) == s
    decreases |s|
  {
    var n := Until(s, sep);
    if n < |s| {
      JoinSplit(s[n + 1..], sep);
      JoinCons(s[..n], Split(s[n + 1..], sep), sep);
      assert s == s[..n] + [sep] + s[n + 1..];
    } else {
      assert s[..n] == s;
    }
  }

  lemma {:induction false} SplitJoin(parts: seq<string>, sep: char)
    requires parts != [] && forall p :: p in parts ==> sep !in p
    ensures Split(Join(parts, sep), sep) == parts
  {
    assert parts[0] in parts && parts == [parts[0]] + parts[1..];
    if |parts| == 1 {
      UntilAt(parts[0], sep, "");
    } else {
      SplitJoin(parts[1..], sep);
      SplitCons(parts[0], Join(parts[1..], sep), sep);
    }
  }

  lemma {:induction false} SplitHasNoSeparator(s: string, sep: char)
    ensures forall p :: p in Split(s, sep) ==> sep !in p
    decreases |s|
  {
    var n := Until(s, sep);
    if n < |s| {
      SplitHasNoSeparator(s[n + 1..], sep);
    } else {
      assert s[..n] == s;
    }
  }
}
