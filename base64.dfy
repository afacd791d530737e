/** Base64 as used by the key exchange: encoding per section 4 of RFC 4648
    (standard alphabet, '=' padding), and decoding with unknown characters
    ignored, the behaviour the source asks of Foundation with
    `ignoreUnknownCharacters`.  After the unknown characters are dropped the
    remaining text must be whole quadruples, with padding only in the last. */
module Base64 {
  import opened Wrappers

  type byte = x: int | 0 <= x < 256

  /** The character for a 6-bit value (table 1 of RFC 4648). */
  function CharOf(i: int): (c: char)
    requires 0 <= i < 64
  {
    if i < 26 then ('A' as int + i) as char
    else if i < 52 then ('a' as int + (i - 26)) as char
    else if i < 62 then ('0' as int + (i - 52)) as char
    else if i == 62 then '+'
    else '/'
  }

  /** The 6-bit value of an alphabet character, None for any other character. */
  function IndexOf(c: char): (r: Option<int>)
    ensures r.Some? ==> 0 <= r.value < 64 && CharOf(r.value) == c
  {
    if 'A' <= c <= 'Z' then Some(c as int - 'A' as int)
    else if 'a' <= c <= 'z' then Some(c as int - 'a' as int + 26)
    else if '0' <= c <= '9' then Some(c as int - '0' as int + 52)
    else if c == '+' then Some(62)
    else if c == '/' then Some(63)
    else None
  }

  lemma IndexOfCharOf(i: int)
    requires 0 <= i < 64
    ensures IndexOf(CharOf(i)) == Some(i)
  {
  }

  predicate IsAlphabet(c: char) {
    IndexOf(c).Some?
  }

  /** Characters the decoder keeps: the alphabet and the pad character. */
  predicate IsKnown(c: char) {
    IsAlphabet(c) || c == '='
  }

  function Index(c: char): (i: int)
    requires IsAlphabet(c)
    ensures 0 <= i < 64
  {
    IndexOf(c).value
  }

  /** Encoding: each group of three bytes becomes four characters; a final
      group of one or two bytes is padded with "==" or "=". */
  function Encode(b: seq<byte>): (s: seq<char>)
    ensures |s| == 4 * ((|b| + 2) / 3)
    decreases |b|
  {
    if |b| == 0 then []
    else if |b| == 1 then
      [CharOf(b[0] / 4), CharOf((b[0] % 4) * 16), '=', '=']
    else if |b| == 2 then
      [CharOf(b[0] / 4), CharOf((b[0] % 4) * 16 + b[1] / 16), CharOf((b[1] % 16) * 4), '=']
    else
      Block(b[0], b[1], b[2]) + Encode(b[3..])
  }

  /** Three bytes as four characters. */
  function Block(b0: byte, b1: byte, b2: byte): seq<char> {
    [CharOf(b0 / 4), CharOf((b0 % 4) * 16 + b1 / 16), CharOf((b1 % 16) * 4 + b2 / 64), CharOf(b2 % 64)]
  }

  lemma BlockIsKnown(b0: byte, b1: byte, b2: byte)
    ensures forall k :: 0 <= k < 4 ==> IsKnown(Block(b0, b1, b2)[k])
  {
    ByteSplit(b0, 4); ByteSplit(b1, 16); ByteSplit(b2, 64);
    IndexOfCharOf(b0 / 4);
    IndexOfCharOf((b0 % 4) * 16 + b1 / 16);
    IndexOfCharOf((b1 % 16) * 4 + b2 / 64);
    IndexOfCharOf(b2 % 64);
  }

  /** Every character an encoding produces is one the decoder keeps. */
  lemma {:induction false} EncodeIsKnown(b: seq<byte>)
    ensures forall k :: 0 <= k < |Encode(b)| ==> IsKnown(Encode(b)[k])
    decreases |b|
  {
    if |b| == 1 {
      IndexOfCharOf(b[0] / 4);
      IndexOfCharOf((b[0] % 4) * 16);
    } else if |b| == 2 {
      IndexOfCharOf(b[0] / 4);
      IndexOfCharOf((b[0] % 4) * 16 + b[1] / 16);
      IndexOfCharOf((b[1] % 16) * 4);
    } else if |b| >= 3 {
      EncodeIsKnown(b[3..]);
      BlockIsKnown(b[0], b[1], b[2]);
      var q, rest := Block(b[0], b[1], b[2]), Encode(b[3..]);
      assert Encode(b) == q + rest;
      forall k | 0 <= k < |q + rest| ensures IsKnown((q + rest)[k]) {
        if k >= 4 { assert (q + rest)[k] == rest[k - 4]; }
      }
    }
  }

  /** The text with every character outside the alphabet and '=' removed. */
  function Clean(s: seq<char>): (t: seq<char>)
    ensures |t| <= |s|
    ensures forall k :: 0 <= k < |t| ==> IsKnown(t[k])
  {
    if s == [] then []
    else (if IsKnown(s[0]) then [s[0]] else []) + Clean(s[1..])
  }

  /** One quadruple of known characters; padding is accepted only in the
      last quadruple of the text. */
  function DecodeQuad(c0: char, c1: char, c2: char, c3: char, last: bool): Option<seq<byte>>
  {
    if IsAlphabet(c0) && IsAlphabet(c1) && IsAlphabet(c2) && IsAlphabet(c3) then
      var i0, i1, i2, i3 := Index(c0), Index(c1), Index(c2), Index(c3);
      Some([i0 * 4 + i1 / 16, (i1 % 16) * 16 + i2 / 4, (i2 % 4) * 64 + i3])
    else if last && IsAlphabet(c0) && IsAlphabet(c1) && IsAlphabet(c2) && c3 == '=' then
      var i0, i1, i2 := Index(c0), Index(c1), Index(c2);
      Some([i0 * 4 + i1 / 16, (i1 % 16) * 16 + i2 / 4])
    else if last && IsAlphabet(c0) && IsAlphabet(c1) && c2 == '=' && c3 == '=' then
      var i0, i1 := Index(c0), Index(c1);
      Some([i0 * 4 + i1 / 16])
    else None
  }

  /** Decoding of text made of known characters only. */
  function DecodeKnown(t: seq<char>): Option<seq<byte>>
    decreases |t|
  {
    if |t| == 0 then Some([])
    else if |t| < 4 then None
    else
      match DecodeQuad(t[0], t[1], t[2], t[3], |t| == 4)
      case None => None
      case Some(head) =>
        match DecodeKnown(t[4..])
        case None => None
        case Some(tail) => Some(head + tail)
  }

  /** Each quadruple of known characters decodes to three bytes, except that
      the last may decode to one or two. */
  lemma {:induction false} DecodeKnownLength(t: seq<char>)
    ensures DecodeKnown(t).Some? ==>
              && |t| % 4 == 0
              && 3 * (|t| / 4) - 2 <= |DecodeKnown(t).value| <= 3 * (|t| / 4)
    decreases |t|
  {
    if |t| >= 4 {
      DecodeKnownLength(t[4..]);
    }
  }

  /** `Data(base64Encoded:options: .ignoreUnknownCharacters)`: the
      characters outside the alphabet are dropped, and what remains must be
      whole quadruples, each giving three bytes (the last one to three). */
  function Decode(s: seq<char>): (r: Option<seq<byte>>)
    ensures r.Some? ==> |Clean(s)| % 4 == 0
    ensures r.Some? ==> 3 * (|Clean(s)| / 4) - 2 <= |r.value| <= 3 * (|Clean(s)| / 4)
  {
    DecodeKnownLength(Clean(s));
    DecodeKnown(Clean(s))
  }

  lemma {:induction false} CleanAppend(a: seq<char>, b: seq<char>)
    ensures Clean(a + b) == Clean(a) + Clean(b)
    decreases |a|
  {
    if a == [] {
      assert a + b == b;
    } else {
      assert (a + b)[1..] == a[1..] + b;
      CleanAppend(a[1..], b);
    }
  }

  lemma {:induction false} CleanKnown(s: seq<char>)
    requires forall k :: 0 <= k < |s| ==> IsKnown(s[k])
    ensures Clean(s) == s
    decreases |s|
  {
    if s != [] {
      CleanKnown(s[1..]);
    }
  }

  /** Decoding ignores any character outside the alphabet and '=', wherever
      it stands. */
  lemma DecodeIgnoresUnknown(before: seq<char>, c: char, after: seq<char>)
    requires !IsKnown(c)
    ensures Decode(before + [c] + after) == Decode(before + after)
  {
    assert Clean([c]) == [] by {
      assert [c][1..] == [];
    }
    CleanAppend(before + [c], after);
    CleanAppend(before, [c]);
    CleanAppend(before, after);
    assert Clean(before + [c]) == Clean(before);
  }

  lemma ByteSplit(x: int, d: int)
    requires 0 <= x < 256
    requires d == 4 || d == 16 || d == 64
    ensures 0 <= x / d < 256 / d && 0 <= x % d < d
    ensures (x / d) * d + x % d == x
  {
  }

  lemma ShiftedDivMod(q: int, r: int, d: int)
    requires d == 4 || d == 16
    requires 0 <= q && 0 <= r < d
    ensures (q * d + r) / d == q && (q * d + r) % d == r
  {
  }

  lemma {:induction false} QuadOfFullGroup(b0: byte, b1: byte, b2: byte, last: bool)
    ensures DecodeQuad(CharOf(b0 / 4), CharOf((b0 % 4) * 16 + b1 / 16),
                       CharOf((b1 % 16) * 4 + b2 / 64), CharOf(b2 % 64), last)
            == Some([b0, b1, b2])
  {
    ByteSplit(b0, 4); ByteSplit(b1, 16); ByteSplit(b2, 64);
    var i0, i1 := b0 / 4, (b0 % 4) * 16 + b1 / 16;
    var i2, i3 := (b1 % 16) * 4 + b2 / 64, b2 % 64;
    IndexOfCharOf(i0); IndexOfCharOf(i1); IndexOfCharOf(i2); IndexOfCharOf(i3);
    ShiftedDivMod(b0 % 4, b1 / 16, 16);
    ShiftedDivMod(b1 % 16, b2 / 64, 4);
  }

  lemma {:induction false} QuadOfTwoBytes(b0: byte, b1: byte)
    ensures DecodeQuad(CharOf(b0 / 4), CharOf((b0 % 4) * 16 + b1 / 16),
                       CharOf((b1 % 16) * 4), '=', true)
            == Some([b0, b1])
  {
    ByteSplit(b0, 4); ByteSplit(b1, 16);
    var i0, i1, i2 := b0 / 4, (b0 % 4) * 16 + b1 / 16, (b1 % 16) * 4;
    IndexOfCharOf(i0); IndexOfCharOf(i1); IndexOfCharOf(i2);
    ShiftedDivMod(b0 % 4, b1 / 16, 16);
    ShiftedDivMod(b1 % 16, 0, 4);
  }

  lemma {:induction false} QuadOfOneByte(b0: byte)
    ensures DecodeQuad(CharOf(b0 / 4), CharOf((b0 % 4) * 16), '=', '=', true)
            == Some([b0])
  {
    ByteSplit(b0, 4);
    var i0, i1 := b0 / 4, (b0 % 4) * 16;
    IndexOfCharOf(i0); IndexOfCharOf(i1);
    ShiftedDivMod(b0 % 4, 0, 16);
  }

  /** DecodeKnown consumes one quadruple and then the rest. */
  lemma DecodeKnownStep(q: seq<char>, rest: seq<char>, head: seq<byte>, tail: seq<byte>)
    requires |q| == 4
    requires DecodeQuad(q[0], q[1], q[2], q[3], rest == []) == Some(head)
    requires DecodeKnown(rest) == Some(tail)
    ensures DecodeKnown(q + rest) == Some(head + tail)
  {
    var t := q + rest;
    assert t[0] == q[0] && t[1] == q[1] && t[2] == q[2] && t[3] == q[3];
    assert t[4..] == rest;
  }

  lemma DecodeKnownEncodeShort(b: seq<byte>)
    requires |b| == 1 || |b| == 2
    ensures DecodeKnown(Encode(b)) == Some(b)
  {
    var q := Encode(b);
    if |b| == 1 {
      QuadOfOneByte(b[0]);
      DecodeKnownStep(q, [], [b[0]], []);
    } else {
      QuadOfTwoBytes(b[0], b[1]);
      DecodeKnownStep(q, [], [b[0], b[1]], []);
    }
    AppendEmpty(q, b);
  }

  lemma AppendEmpty(q: seq<char>, b: seq<byte>)
    requires |b| == 1 || |b| == 2
    ensures q + [] == q
    ensures (if |b| == 1 then [b[0]] else [b[0], b[1]]) + [] == b
  {
  }

  lemma SplitFirstThree(b: seq<byte>)
    requires |b| >= 3
    ensures b == [b[0], b[1], b[2]] + b[3..]
  {
  }

  lemma DecodeKnownGroup(b0: byte, b1: byte, b2: byte, rest: seq<char>, tail: seq<byte>)
    requires DecodeKnown(rest) == Some(tail)
    ensures DecodeKnown(Block(b0, b1, b2) + rest) == Some([b0, b1, b2] + tail)
  {
    QuadOfFullGroup(b0, b1, b2, rest == []);
    DecodeKnownStep(Block(b0, b1, b2), rest, [b0, b1, b2], tail);
  }

  lemma DecodeKnownEncodeGroup(b: seq<byte>)
    requires |b| >= 3
    requires DecodeKnown(Encode(b[3..])) == Some(b[3..])
    ensures DecodeKnown(Encode(b)) == Some(b)
  {
    var rest := Encode(b[3..]);
    assert Encode(b) == Block(b[0], b[1], b[2]) + rest;
    DecodeKnownGroup(b[0], b[1], b[2], rest, b[3..]);
    SplitFirstThree(b);
  }

  lemma {:induction false} DecodeKnownEncode(b: seq<byte>)
    ensures DecodeKnown(Encode(b)) == Some(b)
    decreases |b|
  {
    if |b| == 1 || |b| == 2 {
      DecodeKnownEncodeShort(b);
    } else if |b| >= 3 {
      DecodeKnownEncode(b[3..]);
      DecodeKnownEncodeGroup(b);
    }
  }

  /** Decoding inverts encoding: the round trip of section 4 of RFC 4648. */
  lemma RoundTrip(b: seq<byte>)
    ensures Decode(Encode(b)) == Some(b)
  {
    EncodeIsKnown(b);
    CleanKnown(Encode(b));
    DecodeKnownEncode(b);
  }

  /** "Q0VSVA==" is the encoding of the ASCII text "CERT". */
  lemma DecodeCertExample()
    ensures Decode("Q0VSVA==") == Some([67, 69, 82, 84])
  {
    assert Block(67, 69, 82) == "Q0VS";
    assert Encode([84]) == "VA==";
    assert [67, 69, 82, 84][3..] == [84];
    assert Encode([67, 69, 82, 84]) == "Q0VSVA==";
    RoundTrip([67, 69, 82, 84]);
  }

  /** "S0VZ" is the encoding of the ASCII text "KEY". */
  lemma DecodeKeyExample()
    ensures Decode("S0VZ") == Some([75, 69, 89])
  {
    assert Block(75, 69, 89) == "S0VZ";
    assert [75, 69, 89][3..] == [];
    assert Encode([75, 69, 89]) == "S0VZ";
    RoundTrip([75, 69, 89]);
  }

  /** Whole quadruples are not enough: a '=' before the last two positions
      of the last quadruple, as in "S0=Z", is rejected. */
  lemma DecodeRejectsMisplacedPadding()
    ensures Decode("S0=Z") == None
  {
    CleanKnown("S0=Z");
  }
}
