/** Bytes that are sent as text: the encoder of the replies puts the replacement
    character in the place of every byte that is no part of a valid character. */
module SentText {

  predicate Within(c: char, low: int, high: int) {
    low <= c as int <= high
  }

  /** The bytes of the character that `s` starts with in UTF-8, as section 4 of
      RFC 3629 has them; none when it starts with no valid character. */
  function CharLength(s: string): (n: nat)
    ensures n <= |s|
  {
    if s == "" then 0
    else if Within(s[0], 0x00, 0x7F) then 1
    else if |s| >= 2 && Within(s[0], 0xC2, 0xDF) && Follows(s, 1) then 2
    else if |s| >= 3 && Within(s[0], 0xE0, 0xEF) && SecondOfThree(s[0], s[1]) && Follows(s, 2) then 3
    else if |s| >= 4 && Within(s[0], 0xF0, 0xF4) && SecondOfFour(s[0], s[1]) && Follows(s, 2) && Follows(s, 3) then 4
    else 0
  }

  predicate Follows(s: string, i: nat)
    requires i < |s|
  {
    Within(s[i], 0x80, 0xBF)
  }

  /** No overlong forms, and no surrogates. */
  predicate SecondOfThree(first: char, second: char) {
    if first as int == 0xE0 then Within(second, 0xA0, 0xBF)
    else if first as int == 0xED then Within(second, 0x80, 0x9F)
    else Within(second, 0x80, 0xBF)
  }

  /** No overlong forms, and nothing beyond the last code point. */
  predicate SecondOfFour(first: char, second: char) {
    if first as int == 0xF0 then Within(second, 0x90, 0xBF)
    else if first as int == 0xF4 then Within(second, 0x80, 0x8F)
    else Within(second, 0x80, 0xBF)
  }

  predicate ValidText(s: string)
    decreases |s|
  {
    s == "" || (CharLength(s) > 0 && ValidText(s[CharLength(s)..]))
  }

  /** The replacement character in UTF-8. */
  const REPLACEMENT := [0xEF as char, 0xBF as char, 0xBD as char]

  /** What the receiver reads. */
  function Sent(s: string): string
    decreases |s|
  {
    if s == "" then ""
    else if CharLength(s) == 0 then REPLACEMENT + Sent(s[1..])
    else s[..CharLength(s)] + Sent(s[CharLength(s)..])
  }

  /** What is sent is what was to be sent exactly when that is valid text;
      otherwise it is longer. */
  lemma {:induction false} SentIffValid(s: string)
    ensures Sent(s) == s <==> ValidText(s)
    ensures |Sent(s)| >= |s| && (|Sent(s)| == |s| ==> Sent(s) == s)
    decreases |s|
  {
    var n := CharLength(s);
    if s != "" && n == 0 {
      SentIffValid(s[1..]);
    } else if s != "" {
      SentIffValid(s[n..]);
      assert s == s[..n] + s[n..];
      if Sent(s) == s {
        assert Sent(s)[n..] == Sent(s[n..]);
      }
    }
  }

  // --- characters and their bytes ---

  /** A code point that is a character: no surrogate. */
  predicate Scalar(c: int) {
    0 <= c <= 0x10FFFF && !(0xD800 <= c <= 0xDFFF)
  }

  function Byte(n: int): char
    requires 0 <= n <= 0xFF
  {
    n as char
  }

  /** The encoding in the table of section 3 of RFC 3629: six bits to each byte
      after the first. */
  function Encoded(c: int): (s: string)
    requires Scalar(c)
    ensures s != ""
  {
    if c < 0x80 then [Byte(c)]
    else if c < 0x800 then [Byte(0xC0 + c / 64), Byte(0x80 + c % 64)]
    else if c < 0x10000 then [Byte(0xE0 + c / 64 / 64), Byte(0x80 + c / 64 % 64), Byte(0x80 + c % 64)]
    else
      [Byte(0xF0 + c / 64 / 64 / 64), Byte(0x80 + c / 64 / 64 % 64), Byte(0x80 + c / 64 % 64), Byte(0x80 + c % 64)]
  }

  /** An encoded character is recognised, whatever follows it. */
  lemma EncodedIsRead(c: int, rest: string)
    requires Scalar(c)
    ensures CharLength(Encoded(c) + rest) == |Encoded(c)|
  {
  }

  lemma SixBits(high: nat, low: nat)
    requires low < 64
    ensures (high * 64 + low) / 64 == high && (high * 64 + low) % 64 == low
  {
  }

  /** The six bits of a byte after the first. */
  function Low(s: string, i: nat): nat
    requires i < |s| && Follows(s, i)
  {
    s[i] as int - 0x80
  }

  lemma ReadTwo(s: string) returns (c: int)
    requires CharLength(s) == 2
    ensures Scalar(c) && s[..2] == Encoded(c)
  {
    c := (s[0] as int - 0xC0) * 64 + Low(s, 1);
    SixBits(s[0] as int - 0xC0, Low(s, 1));
    assert Encoded(c) == [Byte(0xC0 + c / 64), Byte(0x80 + c % 64)];
  }

  lemma ReadThree(s: string) returns (c: int)
    requires CharLength(s) == 3
    ensures Scalar(c) && s[..3] == Encoded(c)
  {
    var top := (s[0] as int - 0xE0) * 64 + Low(s, 1);
    c := top * 64 + Low(s, 2);
    SixBits(s[0] as int - 0xE0, Low(s, 1));
    SixBits(top, Low(s, 2));
    assert Encoded(c) == [s[0], s[1], s[2]];
  }

  lemma ReadFour(s: string) returns (c: int)
    requires CharLength(s) == 4
    ensures Scalar(c) && s[..4] == Encoded(c)
  {
    var top := (s[0] as int - 0xF0) * 64 + Low(s, 1);
    var middle := top * 64 + Low(s, 2);
    c := middle * 64 + Low(s, 3);
    SixBits(s[0] as int - 0xF0, Low(s, 1));
    SixBits(top, Low(s, 2));
    SixBits(middle, Low(s, 3));
    assert Encoded(c) == [s[0], s[1], s[2], s[3]];
  }

  /** What is recognised is the encoding of some character. */
  lemma ReadIsEncoded(s: string) returns (c: int)
    requires CharLength(s) > 0
    ensures Scalar(c) && s[..CharLength(s)] == Encoded(c)
  {
    match CharLength(s)
    case 1 => c := s[0] as int;
    case 2 => c := ReadTwo(s);
    case 3 => c := ReadThree(s);
    case _ => c := ReadFour(s);
  }

  predicate AllScalar(cs: seq<int>) {
    forall i :: 0 <= i < |cs| ==> Scalar(cs[i])
  }

  function EncodedAll(cs: seq<int>): string
    requires AllScalar(cs)
  {
    if cs == [] then "" else Encoded(cs[0]) + EncodedAll(cs[1..])
  }

  /** Valid text is exactly what encodes some sequence of characters. */
  lemma {:induction false} ValidIffEncoded(s: string)
    ensures ValidText(s) <==> exists cs :: AllScalar(cs) && EncodedAll(cs) == s
    decreases |s|
  {
    if ValidText(s) {
      var cs := Characters(s);
    }
    if cs :| AllScalar(cs) && EncodedAll(cs) == s {
      EncodedIsValid(cs);
    }
  }

  lemma {:induction false} EncodedIsValid(cs: seq<int>)
    requires AllScalar(cs)
    ensures ValidText(EncodedAll(cs))
  {
    if cs != [] {
      EncodedIsValid(cs[1..]);
      EncodedIsRead(cs[0], EncodedAll(cs[1..]));
      var s, n := EncodedAll(cs), |Encoded(cs[0])|;
      assert s[n..] == EncodedAll(cs[1..]);
    }
  }

  lemma {:induction false} Characters(s: string) returns (cs: seq<int>)
    requires ValidText(s)
    ensures AllScalar(cs) && EncodedAll(cs) == s
    decreases |s|
  {
    cs := [];
    if s != "" {
      var n := CharLength(s);
      var c := ReadIsEncoded(s);
      var rest := Characters(s[n..]);
      cs := [c] + rest;
      assert cs[1..] == rest && s == s[..n] + s[n..];
    }
  }

  /** A byte that starts no character is read as the replacement character, and
      what is read is always valid text. */
  lemma BadByteIsReplaced(s: string)
    requires s != "" && CharLength(s) == 0
    ensures Sent(s) == Encoded(0xFFFD) + Sent(s[1..])
  {
    assert Encoded(0xFFFD) == REPLACEMENT;
  }

  lemma {:induction false} SentIsValid(s: string)
    ensures ValidText(Sent(s))
    decreases |s|
  {
    if s != "" {
      var n := CharLength(s);
      if n == 0 {
        SentIsValid(s[1..]);
        EncodedThen(0xFFFD, Sent(s[1..]));
        BadByteIsReplaced(s);
      } else {
        SentIsValid(s[n..]);
        var c := ReadIsEncoded(s);
        EncodedThen(c, Sent(s[n..]));
      }
    }
  }

  lemma EncodedThen(c: int, rest: string)
    requires Scalar(c) && ValidText(rest)
    ensures ValidText(Encoded(c) + rest)
  {
    EncodedIsRead(c, rest);
    var s, n := Encoded(c) + rest, |Encoded(c)|;
    assert s[n..] == rest;
  }
}
