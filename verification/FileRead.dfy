/** Reading a file: the first or last lines of it, all of it, or a range of bytes.
    A file is the sequence of its bytes, each byte a character. */
module FileRead {
  import opened Text
  import opened LineScan
  import opened SentText
  import opened Seqs
  import opened Division

  // --- lines ---

  method JoinLines(lines: seq<string>) returns (buf: string)
    ensures buf == Joined(lines)
  {
    if |lines| == 0 {
      return "";
    }
    buf := "";
    for i := 0 to |lines|
      invariant buf == if i == 0 then "" else if i < |lines| then Joined(lines[..i]) + "\n" else Joined(lines)
    {
      assert lines[..i + 1] == lines[..i] + [lines[i]];
      if i > 0 { JoinSnoc(lines[..i], lines[i], '\n'); }
      buf := buf + lines[i];
      assert buf == Joined(lines[..i + 1]);
      if i < |lines| - 1 {
        buf := buf + "\n";
      } else {
        assert lines[..i + 1] == lines;
      }
    }
  }

  // --- the first lines ---

  datatype Read = Read(content: string, lines: nat, truncated: bool)

  /** The smaller of the positive limits; none for zero. */
  function Limit(head: int, maxLines: int): nat {
    if head > 0 && (maxLines <= 0 || head <= maxLines) then head
    else if maxLines > 0 then maxLines
    else 0
  }

  function Taken(lines: seq<string>, limit: nat): seq<string> {
    if limit > 0 && |lines| > limit then lines[..limit] else lines
  }

  /** The first lines of a file: as many as there are, or as the first limit that
      is set allows. */
  lemma TakenAreFirst(lines: seq<string>, head: int, maxLines: int)
    ensures var kept := Taken(lines, Limit(head, maxLines));
            && kept <= lines && (head > 0 ==> |kept| <= head) && (maxLines > 0 ==> |kept| <= maxLines)
            && (kept == lines || (head > 0 && |kept| == head) || (maxLines > 0 && |kept| == maxLines))
  {
  }

  /** A read of lines fails when it meets a line that is too long. */
  datatype LineRead = Got(read: Read) | LineTooLong

  /** Reads up to the limit, and calls the result truncated when it reached it; a
      line that is too long matters only before the limit. */
  method ReadHead(scan: Scan, head: int, maxLines: int) returns (r: LineRead)
    ensures var file, limit := scan.lines, Limit(head, maxLines);
            && (r.LineTooLong? <==> scan.tooLong && (limit == 0 || |file| < limit))
            && (r.Got? ==>
                  r.read == Read(Joined(Taken(file, limit)), |Taken(file, limit)|, limit > 0 && |file| >= limit))
  {
    var file := scan.lines;
    var lines: seq<string>, truncated := [], false;
    for k := 0 to |file|
      invariant lines == file[..k] && !truncated
      invariant head > 0 ==> k < head
      invariant maxLines > 0 ==> k < maxLines
    {
      lines := lines + [file[k]];
      if head > 0 && |lines| >= head {
        truncated := true;
        break;
      }
      if maxLines > 0 && |lines| >= maxLines {
        truncated := true;
        break;
      }
    }
    if scan.tooLong && !truncated {
      return LineTooLong;
    }
    assert lines == Taken(file, Limit(head, maxLines));
    var content := JoinLines(lines);
    r := Got(Read(content, |lines|, truncated));
  }

  /** The flag says whether lines are missing, except for a file of exactly as
      many lines as the limit, which it calls truncated too. */
  lemma TruncatedIsExactIff(file: seq<string>, limit: nat)
    ensures (limit > 0 && |file| >= limit <==> Taken(file, limit) != file) <==> limit == 0 || |file| != limit
  {
  }

  // --- the last lines ---

  function Last(lines: seq<string>, n: nat): seq<string> {
    if |lines| <= n then lines else lines[|lines| - n..]
  }

  lemma LastAreLast(lines: seq<string>, n: nat)
    ensures |Last(lines, n)| <= |lines| && Last(lines, n) == lines[|lines| - |Last(lines, n)|..]
    ensures |Last(lines, n)| == n || (|lines| < n && Last(lines, n) == lines)
  {
  }

  /** Which line the ring holds at `i` after `k` lines, `pos` being the next place. */
  function LineAt(i: int, k: int, pos: int, n: int): int {
    if i < pos then k - pos + i else k - pos - n + i
  }

  /** The ring after `k` lines, with `pos` the next place. */
  predicate Holds(ring: seq<string>, file: seq<string>, k: nat, pos: nat) {
    && pos < |ring| && k <= |file|
    && (if k < |ring| then pos == k else k - pos >= |ring|)
    && forall i :: 0 <= i < |ring| && i < k ==> ring[i] == file[LineAt(i, k, pos, |ring|)]
  }

  lemma HoldsMore(ring: seq<string>, file: seq<string>, k: nat, pos: nat)
    requires Holds(ring, file, k, pos) && k < |file|
    ensures Holds(ring[pos := file[k]], file, k + 1, if pos == |ring| - 1 then 0 else pos + 1)
  {
  }

  lemma Unrolled(ring: seq<string>, file: seq<string>, pos: nat)
    requires Holds(ring, file, |file|, pos)
    ensures Last(file, |ring|) == if |file| <= |ring| then ring[..|file|] else ring[pos..] + ring[..pos]
  {
  }

  /** The last `n` lines in their order, and whether there were more; any line that
      is too long makes it fail. */
  method ReadTail(scan: Scan, n: nat) returns (r: LineRead)
    requires n > 0
    ensures r.LineTooLong? <==> scan.tooLong
    ensures r.Got? ==> r.read == Read(Joined(Last(scan.lines, n)), |Last(scan.lines, n)|, |scan.lines| > n)
  {
    var file, ring, idx := scan.lines, new string[n](_ => ""), 0;
    for k := 0 to |file|
      invariant idx == k && Holds(ring[..], file, k, idx % n)
    {
      ghost var was := ring[..];
      NextPlace(idx, n);
      HoldsMore(was, file, k, idx % n);
      ring[idx % n] := file[k];
      assert ring[..] == was[idx % n := file[k]];
      idx := idx + 1;
    }
    if scan.tooLong {
      return LineTooLong;
    }
    Unrolled(ring[..], file, idx % n);
    var lines: seq<string>;
    if |file| <= n {
      lines := ring[..|file|];
    } else {
      var start := idx % n;
      lines := ring[start..] + ring[..start];
    }
    assert lines == Last(file, n);
    var content := JoinLines(lines);
    r := Got(Read(content, |lines|, |file| > n));
  }

  lemma NextPlace(k: nat, n: nat)
    requires n > 0
    ensures (k + 1) % n == if k % n == n - 1 then 0 else k % n + 1
  {
    if k % n == n - 1 {
      DivisionIs(k + 1, n, k / n + 1, 0);
    } else {
      DivisionIs(k + 1, n, k / n, k % n + 1);
    }
  }

  // --- a range of bytes ---

  datatype RangeResult = Range(content: string, lines: nat, truncated: bool) | NegativeOffset

  function Smaller(a: int, b: int): int {
    if a < b then a else b
  }

  function Slice(file: string, offset: nat, length: nat): string {
    if offset >= |file| then "" else file[offset..Smaller(offset + length, |file|)]
  }

  /** The bytes from the offset on, up to the length or the end of the file. */
  lemma SliceIsRange(file: string, offset: nat, length: nat)
    ensures |Slice(file, offset, length)| <= length
    ensures forall i :: 0 <= i < |Slice(file, offset, length)| ==>
      offset + i < |file| && Slice(file, offset, length)[i] == file[offset + i]
    ensures |Slice(file, offset, length)| < length ==> offset + |Slice(file, offset, length)| >= |file|
  {
  }

  function Newlines(s: string): nat {
    if s == "" then 0 else (if s[0] == '\n' then 1 else 0) + Newlines(s[1..])
  }

  /** One more than the newlines are the parts that they cut a text into. */
  lemma {:induction false} NewlinesCut(s: string)
    ensures Newlines(s) + 1 == |Split(s, '\n')|
  {
    if s != "" {
      NewlinesCut(s[1..]);
      if s[0] == '\n' {
        SplitCons("", s[1..], '\n');
        assert s == "" + ['\n'] + s[1..];
      }
    }
  }

  const DEFAULT_LENGTH := 4096

  method ReadRange(file: string, offset: int, length: int) returns (r: RangeResult)
    ensures r.NegativeOffset? <==> offset < 0
    ensures offset >= 0 ==>
      var content := Slice(file, offset, if length <= 0 then DEFAULT_LENGTH else length);
      r == Range(content, Newlines(content) + 1, offset + |content| < |file|)
  {
    if offset < 0 {
      return NegativeOffset;
    }
    var wanted := if length <= 0 then DEFAULT_LENGTH else length;
    var remaining := |file| - offset;
    if remaining < 0 {
      remaining := 0;
    }
    var readLen := wanted;
    if remaining < readLen {
      readLen := remaining;
    }
    var buf := new char[readLen];
    var n := 0;
    while n < readLen && offset + n < |file|
      invariant 0 <= n <= readLen
      invariant forall i :: 0 <= i < n ==> offset + i < |file| && buf[i] == file[offset + i]
    {
      buf[n] := file[offset + n];
      n := n + 1;
    }
    assert buf[..n] == Slice(file, offset, wanted);
    r := Range(buf[..n], Newlines(buf[..n]) + 1, offset + n < |file|);
  }

  /** The `k`-th range of a reader that asks for `length` bytes at a time. */
  function Piece(file: string, length: nat, k: nat): string {
    Slice(file, k * length, length)
  }

  lemma PieceIsNext(file: string, length: nat, k: nat)
    requires k * length <= |file|
    ensures var offset, piece := k * length, Piece(file, length, k);
            offset + |piece| <= |file| && file[..offset] + piece == file[..offset + |piece|]
  {
    var offset := k * length;
    CutAt(file, offset, Smaller(offset + length, |file|));
  }

  /** After one more range the reader is at the next multiple of the length, or at
      the end of the file, which the ranges so far then fill. */
  lemma NextRange(file: string, length: nat, n: nat)
    requires length > 0 && n * length <= |file| && (n == 0 || n * length < |file|)
    ensures var offset := n * length + |Piece(file, length, n)|;
            && offset <= |file| && (offset < |file| ==> offset == (n + 1) * length)
            && (offset == |file| ==> Filled(|file|, length, n + 1))
            && (n * length < |file| ==> offset > n * length)
  {
    assert (n + 1) * length == n * length + length;
  }

  lemma SentThen(content: string, text: string, piece: string)
    requires |text| >= |content|
    ensures text + Sent(piece) == content + piece <==> text == content && ValidText(piece)
    ensures |text + Sent(piece)| >= |content + piece|
  {
    SentIffValid(piece);
    if text + Sent(piece) == content + piece {
      assert text == (text + Sent(piece))[..|text|] && content == (content + piece)[..|content|];
      assert Sent(piece) == (text + Sent(piece))[|text|..] && piece == (content + piece)[|content|..];
    }
  }

  /** After `n` ranges: the text is the bytes exactly when each range was valid text. */
  predicate Received(file: string, length: nat, n: nat, content: string, text: string) {
    && |text| >= |content|
    && (text == content <==> forall k :: 0 <= k < n ==> ValidText(Piece(file, length, k)))
  }

  lemma ReceivedMore(file: string, length: nat, n: nat, content: string, text: string)
    requires Received(file, length, n, content, text)
    ensures var piece := Piece(file, length, n); Received(file, length, n + 1, content + piece, text + Sent(piece))
  {
    SentThen(content, text, Piece(file, length, n));
  }

  /** A reader that starts at the first byte, asks for `length` bytes at a time,
      advances by the bytes of each range and stops when nothing is cut off: the
      ranges are the file. What the replies carry as text is the file exactly when
      every range by itself is valid text, that is none cuts a character. */
  method ReadAll(file: string, length: int) returns (content: string, text: string, requests: nat)
    requires length > 0
    ensures content == file
    ensures requests == if file == "" then 1 else (|file| + length - 1) / length
    ensures text == file <==> forall k :: 0 <= k < requests ==> ValidText(Piece(file, length, k))
  {
    content, text, requests := "", "", 0;
    var offset, more := 0, true;
    while more
      invariant 0 <= offset <= |file| && content == file[..offset]
      invariant more ==> offset == requests * length && (offset < |file| || requests == 0)
      invariant !more ==> offset == |file| && Filled(|file|, length, requests)
      invariant Received(file, length, requests, content, text)
      decreases more, |file| - offset
    {
      var r := ReadRange(file, offset, length);
      PieceIsNext(file, length, requests);
      NextRange(file, length, requests);
      ReceivedMore(file, length, requests, content, text);
      content, text := content + r.content, text + Sent(r.content);
      offset := offset + |r.content|;
      requests := requests + 1;
      more := r.truncated;
    }
    FilledIsCeiling(|file|, length, requests);
  }

  // --- the whole operation ---

  datatype Params = Params(offset: int, length: int, head: int, tail: int, maxLines: int)

  datatype Outcome = Binary | TooLarge | Lined(result: LineRead) | Bytes(range: RangeResult)

  const PROBE := 512

  /** The size of the line scanner's buffer. */
  const MAX_LINE := 64 * 1024

  predicate LooksBinary(file: string) {
    exists i :: 0 <= i < |file| && i < PROBE && file[i] == '\0'
  }

  /** A binary file is reported before it can be too large, and a range before a
      tail; a negative offset counts only together with a length. Lines are read
      when there is no range, and a line that is too long makes that fail unless
      the limit comes first. */
  method ReadFile(file: string, p: Params, maxBytes: int) returns (o: Outcome)
    ensures o.Binary? <==> LooksBinary(file)
    ensures o.TooLarge? <==> !LooksBinary(file) && |file| > maxBytes
    ensures !LooksBinary(file) && |file| <= maxBytes ==>
      if p.offset > 0 || p.length > 0 then
        && o.Bytes? && (o.range.NegativeOffset? <==> p.offset < 0)
        && (p.offset >= 0 ==>
          o.range.content == Slice(file, p.offset, if p.length <= 0 then DEFAULT_LENGTH else p.length))
      else
        && o.Lined?
        && var scan := Scanned(file, MAX_LINE);
           var limit := Limit(p.head, p.maxLines);
           var kept := if p.tail > 0 then Last(scan.lines, p.tail) else Taken(scan.lines, limit);
           && (o.result.LineTooLong? <==> scan.tooLong && (p.tail > 0 || limit == 0 || |scan.lines| < limit))
           && (o.result.Got? ==>
                 o.result.read.content == Joined(kept) && o.result.read.lines == |kept|
                   && (kept != Lines(file) ==> o.result.read.truncated))
  {
    for i := 0 to Smaller(|file|, PROBE)
      invariant forall j :: 0 <= j < i ==> file[j] != '\0'
    {
      if file[i] == '\0' {
        return Binary;
      }
    }
    if |file| > maxBytes {
      return TooLarge;
    }
    if p.offset > 0 || p.length > 0 {
      var range := ReadRange(file, p.offset, p.length);
      return Bytes(range);
    }
    ScanIsPrefix(file, MAX_LINE);
    var result;
    if p.tail > 0 {
      result := ReadTail(Scanned(file, MAX_LINE), p.tail);
    } else {
      result := ReadHead(Scanned(file, MAX_LINE), p.head, p.maxLines);
    }
    o := Lined(result);
  }
}
