/** The lines of a file as the line scanner of the file tools gives them. A file is
    the sequence of its bytes, each byte a character. */
module LineScan {
  import opened Text
  import opened Seqs

  function Joined(lines: seq<string>): string {
    Join(lines, '\n')
  }

  /** Where the first line of `s` ends. */
  function LineEnd(s: string): nat {
    Until(s, '\n')
  }

  /** A line without one carriage return at its end. */
  function DropCr(s: string): string {
    if s != "" && s[|s| - 1] == '\r' then s[..|s| - 1] else s
  }

  /** The lines that a line scanner gives: they end at newlines, and what follows
      the last newline is a line unless it is empty. */
  function Lines(s: string): seq<string>
    decreases |s|
  {
    if s == "" then []
    else
      var n := LineEnd(s);
      [DropCr(s[..n])] + (if n < |s| then Lines(s[n + 1..]) else [])
  }

  predicate Clean(line: string) {
    '\n' !in line && (line == "" || line[|line| - 1] != '\r')
  }

  lemma OneLine(l: string)
    requires '\n' !in l
    ensures Lines(l) == (if l == "" then [] else [DropCr(l)]) && (DropCr(l) == l <==> Clean(l))
  {
    UntilAt(l, '\n', "");
    assert l[..|l|] == l;
  }

  lemma CleanCons(l: string, rest: seq<string>)
    ensures (forall x :: x in [l] + rest ==> Clean(x)) <==> Clean(l) && forall x :: x in rest ==> Clean(x)
  {
    assert ([l] + rest)[0] == l;
  }

  lemma FirstLine(line: string, rest: string)
    requires '\n' !in line
    ensures Lines(line + "\n" + rest) == [DropCr(line)] + Lines(rest)
  {
    UntilAt(line, '\n', rest);
    var s := line + "\n" + rest;
    assert s[..|line|] == line && s[|line| + 1..] == rest;
  }

  /** Lines without newlines survive being joined and scanned again exactly when
      none ends in a carriage return and the last one is not empty. */
  lemma {:induction false} JoinThenScanIff(lines: seq<string>)
    requires forall l :: l in lines ==> '\n' !in l
    ensures Lines(Joined(lines)) == lines <==>
      (forall l :: l in lines ==> Clean(l)) && (lines == [] || lines[|lines| - 1] != "")
  {
    if |lines| == 1 {
      assert lines == [lines[0]];
      OneLine(lines[0]);
    } else if |lines| > 1 {
      var l, rest := lines[0], lines[1..];
      assert lines == [l] + rest;
      JoinCons(l, rest, '\n');
      FirstLine(l, Joined(rest));
      JoinThenScanIff(rest);
      ConsIff(DropCr(l), Lines(Joined(rest)), l, rest);
      assert DropCr(l) == l <==> Clean(l);
      CleanCons(l, rest);
    }
  }

  function Ending(s: string): string {
    if s != "" && s[|s| - 1] == '\n' then "\n" else ""
  }

  predicate NoReturns(s: string) {
    forall i :: 0 <= i < |s| ==> s[i] != '\r'
  }

  lemma LastLine(s: string)
    requires NoReturns(s) && s != "" && LineEnd(s) == |s|
    ensures Joined(Lines(s)) == s && Ending(s) == ""
  {
    assert s[..|s|] == s;
    assert s[|s| - 1] in s;
    assert Lines(s) == [s];
  }

  /** A file without carriage returns comes back as it is, except that a final
      newline is lost. */
  lemma {:induction false} ScanThenJoin(s: string)
    requires NoReturns(s)
    ensures s == Joined(Lines(s)) + Ending(s)
    decreases |s|
  {
    if s != "" {
      var n := LineEnd(s);
      if n == |s| {
        LastLine(s);
      } else {
        var line, rest := s[..n], s[n + 1..];
        assert s == line + "\n" + rest;
        FirstLine(line, rest);
        if rest != "" {
          JoinCons(line, Lines(rest), '\n');
          ScanThenJoin(rest);
          EndingOfRest(line, rest);
        }
      }
    }
  }

  lemma EndingOfRest(line: string, rest: string)
    requires rest != ""
    ensures Ending(line + "\n" + rest) == Ending(rest)
  {
  }

  // --- lines that are too long ---

  /** What a scan gives: the lines before the first one that does not fit the
      scanner's buffer, and whether there is such a line. */
  datatype Scan = Scan(lines: seq<string>, tooLong: bool)

  function Scanned(s: string, max: nat): Scan
    decreases |s|
  {
    if s == "" then Scan([], false)
    else
      var n := LineEnd(s);
      if n >= max then Scan([], true)
      else
        var rest := if n < |s| then Scanned(s[n + 1..], max) else Scan([], false);
        Scan([DropCr(s[..n])] + rest.lines, rest.tooLong)
  }

  predicate SomeLong(parts: seq<string>, max: nat) {
    exists k :: 0 <= k < |parts| && |parts[k]| >= max
  }

  lemma SomeLongCons(part: string, rest: seq<string>, max: nat)
    ensures SomeLong([part] + rest, max) <==> |part| >= max || SomeLong(rest, max)
  {
    var parts := [part] + rest;
    assert parts[0] == part;
    assert forall k :: 0 <= k < |rest| ==> parts[k + 1] == rest[k];
  }

  /** The scan fails exactly when a stretch between newlines reaches the size of the
      buffer. */
  lemma {:induction false} ScanFailsIff(s: string, max: nat)
    requires max > 0
    ensures Scanned(s, max).tooLong <==> SomeLong(Split(s, '\n'), max)
    decreases |s|
  {
    var n := LineEnd(s);
    if n < |s| {
      ScanFailsIff(s[n + 1..], max);
      SomeLongCons(s[..n], Split(s[n + 1..], '\n'), max);
    } else {
      SomeLongCons(s, [], max);
      assert [s] + [] == [s];
    }
  }

  /** A scan gives the first lines, and all of them when it does not fail. */
  lemma {:induction false} ScanIsPrefix(s: string, max: nat)
    ensures Scanned(s, max).lines <= Lines(s)
    ensures !Scanned(s, max).tooLong ==> Scanned(s, max).lines == Lines(s)
    decreases |s|
  {
    if s != "" && LineEnd(s) < |s| {
      ScanIsPrefix(s[LineEnd(s) + 1..], max);
    }
  }
}
