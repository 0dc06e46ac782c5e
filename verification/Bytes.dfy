/** Byte strings, growable byte buffers and big-endian 32-bit fields. */
module Bytes {

  type Byte = x: int | 0 <= x < 256

  const TWO_31: int := 0x8000_0000
  const TWO_32: int := 0x1_0000_0000

  type U32 = x: int | 0 <= x < 0x1_0000_0000
  type I32 = x: int | -0x8000_0000 <= x < 0x8000_0000
  type U64 = x: int | 0 <= x < 0x1_0000_0000_0000_0000
  type I64 = x: int | -0x8000_0000_0000_0000 <= x < 0x8000_0000_0000_0000

  /** A `Vec<u8>` or `BytesMut`: bytes are appended at the end and consumed at the front. */
  class Buffer {
    var data: seq<Byte>

    constructor ()
      ensures data == []
    {
      data := [];
    }

    /** `put_u32(n as u32)`: the cast keeps the low 32 bits. */
    method PutU32(n: nat)
      modifies this
      ensures data == old(data) + U32Bytes(n)
    {
      data := data + U32Bytes(n);
    }

    method PutSlice(bytes: seq<Byte>)
      modifies this
      ensures data == old(data) + bytes
    {
      data := data + bytes;
    }

    method Advance(count: nat)
      requires count <= |data|
      modifies this
      ensures data == old(data)[count..]
    {
      data := data[count..];
    }
  }

  /** The four big-endian bytes of `n as u32`. */
  function U32Bytes(n: nat): (bytes: seq<Byte>)
    ensures |bytes| == 4
  {
    [n / 256 / 256 / 256 % 256, n / 256 / 256 % 256, n / 256 % 256, n % 256]
  }

  function ReadU32(bytes: seq<Byte>): (n: U32)
    requires 4 <= |bytes|
  {
    (((bytes[0] as int) * 256 + bytes[1]) * 256 + bytes[2]) * 256 + bytes[3]
  }

  lemma DigitOrder(m: int, n: int, a: int, b: int, x: int, y: int)
    requires 0 <= x < 256 && 0 <= y < 256 && m == a * 256 + x && n == b * 256 + y
    ensures m < n <==> a < b || (a == b && x < y)
    ensures m == n <==> a == b && x == y
  {
  }

  lemma FourDigits(n: U32) returns (a: int, b: int, c: int, d: int)
    ensures U32Bytes(n) == [a, b, c, d] && n == ((a * 256 + b) * 256 + c) * 256 + d
    ensures 0 <= a < 256 && 0 <= b < 256 && 0 <= c < 256 && 0 <= d < 256
  {
    a, b, c, d := n / 256 / 256 / 256, n / 256 / 256 % 256, n / 256 % 256, n % 256;
  }

  /** The byte strings compare, first byte first, as the numbers do: the field is big-endian. */
  lemma ByteOrderIsNumericOrder(m: U32, n: U32)
    ensures var a, b := U32Bytes(m), U32Bytes(n);
            m < n <==>
              || a[0] < b[0]
              || (a[0] == b[0] && a[1] < b[1])
              || (a[0] == b[0] && a[1] == b[1] && a[2] < b[2])
              || (a[0] == b[0] && a[1] == b[1] && a[2] == b[2] && a[3] < b[3])
  {
    hide U32Bytes;
    var a0, a1, a2, a3 := FourDigits(m);
    var b0, b1, b2, b3 := FourDigits(n);
    DigitOrder(a0 * 256 + a1, b0 * 256 + b1, a0, b0, a1, b1);
    DigitOrder((a0 * 256 + a1) * 256 + a2, (b0 * 256 + b1) * 256 + b2, a0 * 256 + a1, b0 * 256 + b1, a2, b2);
    DigitOrder(m, n, (a0 * 256 + a1) * 256 + a2, (b0 * 256 + b1) * 256 + b2, a3, b3);
  }

  /** Reading back a written field gives the value modulo 2^32, hence the value itself iff it fits. */
  lemma U32RoundTrip(n: nat, rest: seq<Byte>)
    ensures ReadU32(U32Bytes(n) + rest) == n % TWO_32
    ensures ReadU32(U32Bytes(n) + rest) == n <==> n < TWO_32
  {
    var high := n / 256 / 256 / 256;
    var value := ReadU32(U32Bytes(n) + rest);
    assert n == high / 256 * TWO_32 + value;
  }
}
