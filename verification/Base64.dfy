/**
 * Base64 with the standard alphabet and canonical padding (section 4 of RFC 4648): the encoding
 * a binary partition key travels in.
 */
module Base64 {
  import opened Common
  import opened Bytes

  /** A symbol of the text: 0 to 63 are the alphabet in order, 64 is the padding sign. */
  type Code = x: int | 0 <= x <= 64

  const PAD: Code := 64

  function Symbol(v: Code): (c: char)
  {
    if v < 26 then ('A' as int + v) as char
    else if v < 52 then ('a' as int + (v - 26)) as char
    else if v < 62 then ('0' as int + (v - 52)) as char
    else if v == 62 then '+'
    else if v == 63 then '/' else '='
  }

  function Value(c: char): (v: Option<Code>)
    ensures v.Some? ==> Symbol(v.value) == c
  {
    if 'A' <= c <= 'Z' then Some(c as int - 'A' as int)
    else if 'a' <= c <= 'z' then Some(c as int - 'a' as int + 26)
    else if '0' <= c <= '9' then Some(c as int - '0' as int + 52)
    else if c == '+' then Some(62)
    else if c == '/' then Some(63)
    else if c == '=' then Some(PAD)
    else None
  }

  function Text(codes: seq<Code>): (s: string)
    ensures |s| == |codes|
  {
    if codes == [] then [] else [Symbol(codes[0])] + Text(codes[1..])
  }

  function CodesOf(s: string): (codes: Option<seq<Code>>)
    ensures codes.Some? ==> Text(codes.value) == s
  {
    if s == [] then Some([])
    else
      match (Value(s[0]), CodesOf(s[1..]))
      case (Some(v), Some(tail)) => Some([v] + tail)
      case _ => None
  }

  lemma {:induction false} TextReadsBack(codes: seq<Code>)
    ensures CodesOf(Text(codes)) == Some(codes)
  {
    if codes != [] {
      TextReadsBack(codes[1..]);
      assert Value(Symbol(codes[0])) == Some(codes[0]);
      assert [codes[0]] + codes[1..] == codes;
    }
  }

  function EncodeBytes(b: seq<Byte>): (codes: seq<Code>)
  {
    if b == [] then []
    else if |b| == 1 then [b[0] / 4, b[0] % 4 * 16, PAD, PAD]
    else if |b| == 2 then [b[0] / 4, b[0] % 4 * 16 + b[1] / 16, b[1] % 16 * 4, PAD]
    else
      [b[0] / 4, b[0] % 4 * 16 + b[1] / 16, b[1] % 16 * 4 + b[2] / 64, b[2] % 64] + EncodeBytes(b[3..])
  }

  /** Four symbols of which none is padding. */
  function DecodeQuad(v: seq<Code>): (b: Option<seq<Byte>>)
    requires |v| >= 4
    ensures b.Some? ==> |b.value| == 3
  {
    if v[0] == PAD || v[1] == PAD || v[2] == PAD || v[3] == PAD then None
    else Some([v[0] as int * 4 + v[1] as int / 16, v[1] as int % 16 * 16 + v[2] as int / 4, v[2] as int % 4 * 64 + v[3] as int])
  }

  /** The final four symbols: padding is allowed, but the bits it leaves over must be zero. */
  function DecodeLast(v: seq<Code>): (b: Option<seq<Byte>>)
    requires |v| == 4
  {
    if v[3] != PAD then DecodeQuad(v)
    else if v[0] == PAD || v[1] == PAD then None
    else if v[2] != PAD then
      if v[2] % 4 == 0 then Some([v[0] as int * 4 + v[1] as int / 16, v[1] as int % 16 * 16 + v[2] as int / 4]) else None
    else if v[1] % 16 == 0 then Some([v[0] as int * 4 + v[1] as int / 16]) else None
  }

  function DecodeCodes(v: seq<Code>): (b: Option<seq<Byte>>)
  {
    if v == [] then Some([])
    else if |v| < 4 then None
    else if |v| == 4 then DecodeLast(v)
    else
      match (DecodeQuad(v), DecodeCodes(v[4..]))
      case (Some(head), Some(tail)) => Some(head + tail)
      case _ => None
  }

  function Encode(b: seq<Byte>): (s: string)
  {
    Text(EncodeBytes(b))
  }

  function Decode(s: string): (b: Option<seq<Byte>>)
  {
    var codes := CodesOf(s);
    if codes.None? then None else DecodeCodes(codes.value)
  }

  /** Three bytes regrouped as four sextets and back. */
  lemma Regroup3(b0: int, b1: int, b2: int, v0: int, v1: int, v2: int, v3: int)
    requires 0 <= b0 < 256 && 0 <= b1 < 256 && 0 <= b2 < 256
    requires v0 == b0 / 4 && v1 == b0 % 4 * 16 + b1 / 16 && v2 == b1 % 16 * 4 + b2 / 64 && v3 == b2 % 64
    ensures v0 < 64 && v1 < 64 && v2 < 64 && v3 < 64
    ensures v0 * 4 + v1 / 16 == b0 && v1 % 16 * 16 + v2 / 4 == b1 && v2 % 4 * 64 + v3 == b2
  {
    assert v1 / 16 == b0 % 4 && v1 % 16 == b1 / 16;
    assert v2 / 4 == b1 % 16 && v2 % 4 == b2 / 64;
  }

  lemma OneReadsBack(x: Byte)
    ensures DecodeCodes([x / 4, x % 4 * 16, PAD, PAD]) == Some([x])
  {
    Regroup3(x, 0, 0, x / 4, x % 4 * 16, 0, 0);
  }

  lemma TwoReadBack(x: Byte, y: Byte)
    ensures DecodeCodes([x / 4, x % 4 * 16 + y / 16, y % 16 * 4, PAD]) == Some([x, y])
  {
    Regroup3(x, y, 0, x / 4, x % 4 * 16 + y / 16, y % 16 * 4, 0);
  }

  lemma FirstThree<T>(b: seq<T>)
    requires |b| >= 3
    ensures b[..3] == [b[0], b[1], b[2]]
  {
  }

  lemma QuadReadsBack(b: seq<Byte>)
    requires |b| >= 3
    ensures DecodeQuad(EncodeBytes(b)) == Some(b[..3])
  {
    var v := EncodeBytes(b);
    var v0: int, v1: int, v2: int, v3: int := v[0], v[1], v[2], v[3];
    Regroup3(b[0], b[1], b[2], v0, v1, v2, v3);
    var d := DecodeQuad(v).value;
    assert d[0] as int == v0 * 4 + v1 / 16;
    assert d[1] as int == v1 % 16 * 16 + v2 / 4;
    assert d[2] as int == v2 % 4 * 64 + v3;
    assert d[0] == b[0] && d[1] == b[1] && d[2] == b[2];
    FirstThree(b);
  }

  lemma {:induction false} BytesReadBack(b: seq<Byte>)
    ensures DecodeCodes(EncodeBytes(b)) == Some(b)
  {
    if |b| == 1 {
      OneReadsBack(b[0]);
      assert b == [b[0]];
    } else if |b| == 2 {
      TwoReadBack(b[0], b[1]);
      assert b == [b[0], b[1]];
    } else if b != [] {
      var v := EncodeBytes(b);
      assert v[4..] == EncodeBytes(b[3..]);
      QuadReadsBack(b);
      BytesReadBack(b[3..]);
      assert b[..3] + b[3..] == b;
      assert |b| == 3 ==> b[3..] == [] && b[..3] == b;
      assert |v| == 4 <==> b[3..] == [];
    }
  }

  /** Four sextets regrouped as three bytes and back. */
  lemma Ungroup3(v0: int, v1: int, v2: int, v3: int, b0: int, b1: int, b2: int)
    requires 0 <= v0 < 64 && 0 <= v1 < 64 && 0 <= v2 < 64 && 0 <= v3 < 64
    requires b0 == v0 * 4 + v1 / 16 && b1 == v1 % 16 * 16 + v2 / 4 && b2 == v2 % 4 * 64 + v3
    ensures b0 / 4 == v0 && b0 % 4 * 16 + b1 / 16 == v1 && b1 % 16 * 4 + b2 / 64 == v2 && b2 % 64 == v3
  {
    assert b0 % 4 == v1 / 16 && b1 / 16 == v1 % 16;
    assert b1 % 16 == v2 / 4 && b2 / 64 == v2 % 4;
  }

  lemma FirstFour<T>(v: seq<T>)
    requires |v| >= 4
    ensures v[..4] == [v[0], v[1], v[2], v[3]]
  {
  }

  lemma QuadIsCanonical(v: seq<Code>, tail: seq<Byte>)
    requires |v| >= 4 && DecodeQuad(v).Some?
    ensures EncodeBytes(DecodeQuad(v).value + tail) == v[..4] + EncodeBytes(tail)
  {
    var head := DecodeQuad(v).value;
    Ungroup3(v[0], v[1], v[2], v[3], head[0], head[1], head[2]);
    assert (head + tail)[3..] == tail;
    FirstFour(v);
  }

  lemma {:induction false} CodesAreCanonical(v: seq<Code>)
    requires DecodeCodes(v).Some?
    ensures EncodeBytes(DecodeCodes(v).value) == v
  {
    if |v| > 4 {
      CodesAreCanonical(v[4..]);
      QuadIsCanonical(v, DecodeCodes(v[4..]).value);
      SplitAt(v, 4);
    } else if |v| == 4 && v[3] != PAD {
      QuadIsCanonical(v, []);
      assert DecodeQuad(v).value + [] == DecodeQuad(v).value;
      assert v[..4] + [] == v;
    }
  }

  lemma FourSymbols(a: Code, b: Code, c: Code, d: Code)
    ensures Text([a, b, c, d]) == [Symbol(a), Symbol(b), Symbol(c), Symbol(d)]
  {
    hide Symbol;
    assert Text([d]) == [Symbol(d)] + Text([]);
    assert [c, d][1..] == [d];
    assert Text([c, d]) == [Symbol(c)] + Text([d]);
    assert [b, c, d][1..] == [c, d];
    assert Text([b, c, d]) == [Symbol(b)] + Text([c, d]);
    assert [a, b, c, d][1..] == [b, c, d];
  }

  lemma KnownText(b: seq<Byte>, v0: Code, v1: Code, v2: Code, v3: Code)
    requires EncodeBytes(b) == [v0, v1, v2, v3]
    ensures Encode(b) == [Symbol(v0), Symbol(v1), Symbol(v2), Symbol(v3)]
  {
    hide Symbol;
    FourSymbols(v0, v1, v2, v3);
  }

  /** Test vectors of section 10 of RFC 4648, and a text with the two symbols that are neither letter nor digit. */
  lemma KnownTexts()
    ensures Encode([0x66]) == "Zg==" && Encode([0x66, 0x6f]) == "Zm8="
    ensures Encode([0x66, 0x6f, 0x6f]) == "Zm9v" && Encode([0xfb, 0xff]) == "+/8="
  {
    hide Text, Encode;
    KnownText([0x66], 25, 32, PAD, PAD);
    KnownText([0x66, 0x6f], 25, 38, 60, PAD);
    assert [0x66, 0x6f, 0x6f][3..] == [];
    assert EncodeBytes([0x66, 0x6f, 0x6f]) == [25, 38, 61, 47] + EncodeBytes([]);
    KnownText([0x66, 0x6f, 0x6f], 25, 38, 61, 47);
    KnownText([0xfb, 0xff], 62, 63, 60, PAD);
  }

  /**
   * Three bytes and the four symbols for them carry the same 24 bits; one or two bytes at the end
   * are filled up with zero bits, and the symbols that carry none of their bits are padding.
   */
  lemma SymbolsCarryTheBits(b: seq<Byte>)
    requires b != []
    ensures var v := EncodeBytes(b);
            && |v| >= 4 && v[0] < 64 && v[1] < 64
            && (|b| >= 3 ==>
                  && v[2] < 64 && v[3] < 64 && v[4..] == EncodeBytes(b[3..])
                  && ((v[0] as int * 64 + v[1]) * 64 + v[2]) * 64 + v[3] == (b[0] as int * 256 + b[1]) * 256 + b[2])
            && (|b| == 2 ==>
                  |v| == 4 && v[2] < 64 && v[3] == PAD
                  && (v[0] as int * 64 + v[1]) * 64 + v[2] == (b[0] as int * 256 + b[1]) * 4)
            && (|b| == 1 ==> |v| == 4 && v[2] == PAD && v[3] == PAD && v[0] as int * 64 + v[1] == b[0] as int * 16)
  {
    if |b| >= 3 {
      Regroup3(b[0], b[1], b[2], b[0] / 4, b[0] % 4 * 16 + b[1] / 16, b[1] % 16 * 4 + b[2] / 64, b[2] % 64);
    }
  }

  /** Every byte string is recovered from its text. */
  lemma EncodeReadsBack(b: seq<Byte>)
    ensures Decode(Encode(b)) == Some(b)
  {
    TextReadsBack(EncodeBytes(b));
    BytesReadBack(b);
  }

  /** Decoding accepts exactly the encodings: each byte string has one text, each accepted text one meaning. */
  lemma DecodeExactlyInvertsEncode(s: string, b: seq<Byte>)
    ensures Decode(s) == Some(b) <==> s == Encode(b)
  {
    EncodeReadsBack(b);
    if Decode(s) == Some(b) {
      CodesAreCanonical(CodesOf(s).value);
    }
  }
}
