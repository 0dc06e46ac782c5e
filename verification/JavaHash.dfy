/** The Java-compatible key hashes and the partition index derived from them. */
module JavaHash {
  import opened Common
  import opened Bytes

  type CodeUnit = x: int | 0 <= x < 0x1_0000

  /** UTF-16 of one Unicode scalar value (section 2.1 of RFC 2781). */
  function CharUnits(c: char): (units: seq<CodeUnit>)
  {
    var u := c as int;
    if u < 0x1_0000 then [u]
    else [0xD800 + (u - 0x1_0000) / 0x400, 0xDC00 + (u - 0x1_0000) % 0x400]
  }

  /**
   * A character of the basic plane is its own unit. Any other is a high surrogate holding the upper
   * ten bits of its offset from 0x10000, followed by a low one holding the lower ten.
   */
  lemma SurrogatesCarryTheOffset(c: char)
    ensures c as int < 0x1_0000 ==> CharUnits(c) == [c as int]
    ensures c as int >= 0x1_0000 ==>
              var u := CharUnits(c);
              && |u| == 2 && 0xD800 <= u[0] < 0xDC00 && 0xDC00 <= u[1] < 0xE000
              && (u[0] as int - 0xD800) * 1024 + (u[1] as int - 0xDC00) == c as int - 0x1_0000
  {
  }

  function Utf16(s: string): (units: seq<CodeUnit>)
  {
    if s == [] then [] else CharUnits(s[0]) + Utf16(s[1..])
  }

  /** Section 2.2 of RFC 2781, on input that came from `Utf16`. */
  function FromUtf16(units: seq<CodeUnit>): (s: Option<string>)
  {
    if units == [] then Some([])
    else if !(0xD800 <= units[0] < 0xE000) then
      var tail := FromUtf16(units[1..]);
      if tail.None? then None else Some([units[0] as char] + tail.value)
    else if |units| >= 2 && units[0] < 0xDC00 && 0xDC00 <= units[1] < 0xE000 then
      var tail := FromUtf16(units[2..]);
      if tail.None? then None
      else Some([(0x1_0000 + (units[0] as int - 0xD800) * 0x400 + (units[1] as int - 0xDC00)) as char] + tail.value)
    else None
  }

  /** The code units determine the key, so hashing them rather than the text confuses no two keys. */
  lemma {:induction false} Utf16RoundTrip(s: string)
    ensures FromUtf16(Utf16(s)) == Some(s)
  {
    if s != [] {
      Utf16RoundTrip(s[1..]);
      var head := CharUnits(s[0]);
      assert Utf16(s)[|head|..] == Utf16(s[1..]);
      assert [s[0]] + s[1..] == s;
    }
  }

  /** `x as i32` after arithmetic modulo 2^32. */
  function WrapI32(x: int): (i: int)
    ensures -TWO_31 <= i < TWO_31
  {
    var low := x % TWO_32;
    if low < TWO_31 then low else low - TWO_32
  }

  function Power(base: nat, exponent: nat): (p: nat)
  {
    if exponent == 0 then 1 else base * Power(base, exponent - 1)
  }

  /** `s[0] * 31^(n-1) + s[1] * 31^(n-2) + ... + s[n-1]`, the documented value of Java's `String.hashCode`. */
  function Polynomial(units: seq<CodeUnit>): (p: nat)
  {
    if units == [] then 0 else units[0] * Power(31, |units| - 1) + Polynomial(units[1..])
  }

  lemma {:induction false} PolynomialAppend(units: seq<CodeUnit>, last: CodeUnit)
    ensures Polynomial(units + [last]) == 31 * Polynomial(units) + last
  {
    if units == [] {
      assert units + [last] == [last];
      assert Polynomial([last]) == last * Power(31, 0) + Polynomial([]);
    } else {
      assert (units + [last])[1..] == units[1..] + [last];
      PolynomialAppend(units[1..], last);
      var n := |units|;
      assert Power(31, n) == 31 * Power(31, n - 1);
      assert units[0] * Power(31, n) == 31 * (units[0] * Power(31, n - 1));
    }
  }

  lemma WrapStep(h: int, p: int, unit: CodeUnit)
    requires h == WrapI32(p)
    ensures WrapI32(WrapI32(h * 31) + unit) == WrapI32(31 * p + unit)
  {
    var k := (p - h) / TWO_32;
    assert p == h + k * TWO_32;
    var j := (h * 31 - WrapI32(h * 31)) / TWO_32;
    assert h * 31 == WrapI32(h * 31) + j * TWO_32;
    assert 31 * p + unit == WrapI32(h * 31) + unit + (j + 31 * k) * TWO_32;
    SameResidue(WrapI32(h * 31) + unit, 31 * p + unit, j + 31 * k);
  }

  lemma SameResidue(a: int, b: int, k: int)
    requires b == a + k * TWO_32
    ensures a % TWO_32 == b % TWO_32
  {
  }

  lemma HashStep(units: seq<CodeUnit>, i: nat, h: int)
    requires i < |units| && h == WrapI32(Polynomial(units[..i]))
    ensures WrapI32(WrapI32(h * 31) + units[i]) == WrapI32(Polynomial(units[..i + 1]))
  {
    WrapStep(h, Polynomial(units[..i]), units[i]);
    PolynomialAppend(units[..i], units[i]);
    assert units[..i + 1] == units[..i] + [units[i]];
  }

  lemma ClearSign(p: nat)
    ensures (if WrapI32(p) < 0 then WrapI32(p) + TWO_31 else WrapI32(p)) == p % TWO_31
  {
    var q, low := p / TWO_32, p % TWO_32;
    assert p == q * 2 * TWO_31 + low;
  }

  /** `java_string_hash`: wrapping 32-bit arithmetic, then the sign bit is cleared. */
  method JavaStringHash(key: string) returns (hash: U32)
    ensures hash == Polynomial(Utf16(key)) % TWO_31
  {
    var units := Utf16(key);
    var h := 0;
    for i := 0 to |units|
      invariant h == WrapI32(Polynomial(units[..i]))
    {
      HashStep(units, i, h);
      h := WrapI32(WrapI32(h * 31) + units[i]);
    }
    assert units[..|units|] == units;
    ClearSign(Polynomial(units));
    hash := if h < 0 then h + TWO_31 else h;
  }

  datatype HashingScheme = JavaString | Murmur3

  /** The external MurmurHash3 function, seed 0, on the key's bytes. */
  type Murmur = string -> U32

  /** `hash & i32::MAX`. */
  function Mask(raw: U32): (hash: U32)
    ensures hash < TWO_31
    ensures hash == raw % TWO_31
  {
    if raw < TWO_31 then raw else raw - TWO_31
  }

  /** The hash of a key, as the Java client documents it. */
  function KeyHash(scheme: HashingScheme, murmur: Murmur, key: string): (hash: U32)
    ensures hash < TWO_31
  {
    match scheme
    case JavaString => Polynomial(Utf16(key)) % TWO_31
    case Murmur3 => Mask(murmur(key))
  }

  /** `compute_partition_index_for_key`. */
  method PartitionForKey(scheme: HashingScheme, murmur: Murmur, key: string, partitions: nat) returns (index: nat)
    requires partitions > 0
    ensures index < partitions
    ensures index == KeyHash(scheme, murmur, key) % partitions
    ensures scheme.JavaString? ==> index == Polynomial(Utf16(key)) % TWO_31 % partitions
    ensures scheme.Murmur3? ==> index == murmur(key) % TWO_31 % partitions
  {
    var hash;
    match scheme {
      case JavaString => hash := JavaStringHash(key);
      case Murmur3 => hash := Mask(murmur(key));
    }
    index := hash % partitions;
  }

  lemma ModShift(a: nat, shift: nat, n: nat)
    requires n > 0
    ensures (a + shift) % n == a % n <==> shift % n == 0
  {
    var q, r := a / n, a % n;
    var p, t := shift / n, shift % n;
    assert a + shift == (q + p) * n + (r + t);
    if r + t < n {
      UniqueRemainder(a + shift, n, q + p, r + t);
    } else {
      assert a + shift == (q + p + 1) * n + (r + t - n);
      UniqueRemainder(a + shift, n, q + p + 1, r + t - n);
    }
  }

  lemma UniqueRemainder(x: nat, n: nat, q: nat, r: nat)
    requires n > 0 && r < n && x == q * n + r
    ensures x % n == r
  {
    var d := x / n - q;
    assert x == x / n * n + x % n;
    assert d * n == r - x % n;
    ProductBound(d, n);
  }

  lemma ProductBound(d: int, n: int)
    requires n > 0
    ensures d >= 1 ==> d * n >= n
    ensures d <= -1 ==> d * n <= -n
  {
  }

  /**
   * Clearing the sign bit of a raw hash that has it leaves the partition unchanged exactly when the
   * partition count divides 2^31, i.e. forgetting the mask shows on every other count.
   */
  lemma MaskMattersUnlessCountDivides(raw: U32, partitions: nat)
    requires partitions > 0 && TWO_31 <= raw
    ensures Mask(raw) % partitions == raw % partitions <==> TWO_31 % partitions == 0
  {
    ModShift(Mask(raw), TWO_31, partitions);
  }
}
