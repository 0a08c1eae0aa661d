/** Hexadecimal text as bytes: lower case out, either case in. */
module Hex {
  import opened Wrappers
  import opened Octets

  function HexDigit(d: nat): byte
    requires d < 16
  {
    if d < 10 then 48 + d else 87 + d
  }

  function DigitValue(b: byte): Option<nat> {
    if 48 <= b <= 57 then Some(b - 48)
    else if 97 <= b <= 102 then Some(b - 87)
    else if 65 <= b <= 70 then Some(b - 55)
    else None
  }

  function Encode(bytes: seq<byte>): (text: seq<byte>)
    ensures |text| == 2 * |bytes|
  {
    if bytes == [] then [] else [HexDigit(bytes[0] / 16), HexDigit(bytes[0] % 16)] + Encode(bytes[1..])
  }

  function Decode(text: seq<byte>): Option<seq<byte>> {
    if text == [] then Some([])
    else if |text| == 1 then None
    else
      match (DigitValue(text[0]), DigitValue(text[1]), Decode(text[2..]))
      case (Some(high), Some(low), Some(rest)) =>
        if high < 16 && low < 16 then Some([16 * high + low] + rest) else None
      case _ => None
  }

  /** Decoding undoes encoding. */
  lemma {:induction false} RoundTrip(bytes: seq<byte>)
    ensures Decode(Encode(bytes)) == Some(bytes)
  {
    if bytes != [] {
      var text := Encode(bytes);
      assert text[2..] == Encode(bytes[1..]);
      RoundTrip(bytes[1..]);
      assert bytes == [bytes[0]] + bytes[1..];
    }
  }

  function LowerByte(b: byte): byte {
    if 65 <= b <= 90 then b + 32 else b
  }

  /** The text with its letters in lower case. */
  function LowerText(text: seq<byte>): seq<byte> {
    if text == [] then [] else [LowerByte(text[0])] + LowerText(text[1..])
  }

  lemma {:induction false} EncodeIsLowerCase(bytes: seq<byte>)
    ensures forall b :: b in Encode(bytes) ==> 48 <= b <= 57 || 97 <= b <= 102
  {
    if bytes != [] {
      EncodeIsLowerCase(bytes[1..]);
    }
  }

  lemma DigitExactly(b: byte, d: nat)
    requires d < 16
    ensures DigitValue(b) == Some(d) <==> LowerByte(b) == HexDigit(d)
  {
  }

  lemma LowerTwoMore(text: seq<byte>)
    requires |text| >= 2
    ensures LowerText(text) == [LowerByte(text[0]), LowerByte(text[1])] + LowerText(text[2..])
  {
    assert text[1..][1..] == text[2..];
  }

  lemma TwoHeads(a: byte, b: byte, rest: seq<byte>, c: byte, d: byte, rest': seq<byte>)
    ensures [a, b] + rest == [c, d] + rest' <==> a == c && b == d && rest == rest'
  {
    if [a, b] + rest == [c, d] + rest' {
      assert ([a, b] + rest)[0] == a && ([a, b] + rest)[1] == b && ([a, b] + rest)[2..] == rest;
      assert ([c, d] + rest')[0] == c && ([c, d] + rest')[1] == d && ([c, d] + rest')[2..] == rest';
    }
  }

  lemma HeadApart(a: byte, r: seq<byte>, b: byte, s: seq<byte>)
    ensures [a] + r == [b] + s <==> a == b && r == s
  {
    if [a] + r == [b] + s {
      assert ([a] + r)[0] == a && ([a] + r)[1..] == r && ([b] + s)[0] == b && ([b] + s)[1..] == s;
    }
  }

  lemma TwoDigits(high: nat, low: nat, b: byte)
    requires high < 16 && low < 16
    ensures 16 * high + low == b <==> high == b / 16 && low == b % 16
  {
  }

  lemma DecodeOneMore(text: seq<byte>, first: byte, rest: seq<byte>)
    requires |text| >= 2
    ensures Decode(text) == Some([first] + rest)
            <==> && DigitValue(text[0]) == Some(first / 16) && DigitValue(text[1]) == Some(first % 16)
                 && Decode(text[2..]) == Some(rest)
  {
    if DigitValue(text[0]).Some? && DigitValue(text[1]).Some? && Decode(text[2..]).Some? {
      var high, low, more := DigitValue(text[0]).value, DigitValue(text[1]).value, Decode(text[2..]).value;
      HeadApart(16 * high + low, more, first, rest);
      TwoDigits(high, low, first);
    }
  }

  /** A text is read as these bytes exactly when it is their encoding, but for the case of its letters. */
  lemma {:induction false} DecodeExactly(text: seq<byte>, bytes: seq<byte>)
    ensures Decode(text) == Some(bytes) <==> LowerText(text) == Encode(bytes)
    decreases |text|
  {
    if |text| >= 2 && bytes != [] {
      var first, rest := bytes[0], bytes[1..];
      assert bytes == [first] + rest;
      DecodeExactly(text[2..], rest);
      DigitExactly(text[0], first / 16);
      DigitExactly(text[1], first % 16);
      LowerTwoMore(text);
      DecodeOneMore(text, first, rest);
      TwoHeads(LowerByte(text[0]), LowerByte(text[1]), LowerText(text[2..]),
               HexDigit(first / 16), HexDigit(first % 16), Encode(rest));
    }
  }

  const KEY_SIZE := 32

  /** A key of exactly 32 bytes, from its text. */
  function KeyFromHex(text: seq<byte>): Option<seq<byte>> {
    match Decode(text)
    case Some(bytes) => if |bytes| == KEY_SIZE then Some(bytes) else None
    case None => None
  }
}
