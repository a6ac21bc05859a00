/** Byte conversions and the hexadecimal rendering of hash digests, as the
    two platforms do them: Kotlin works on signed bytes, Swift on unsigned
    ones, and both render each byte as two lower-case hexadecimal digits. */
module Octets {
  import opened Bridge

  /** Kotlin `Int.toByte()`: keeps the low eight bits, read as two's complement. */
  function ToByte(x: int32): (b: int8)
    ensures (b - x) % 0x100 == 0
    ensures -0x80 <= x < 0x80 ==> b == x
  {
    var low := x % 0x100;
    if low < 0x80 then low else low - 0x100
  }

  /** The unsigned value of a signed byte, which is what Java's `%x` prints for
      a negative `Byte` (it adds 2^8). */
  function Unsigned(b: int8): (u: uint8)
    ensures (u - b) % 0x100 == 0
    ensures b >= 0 ==> u == b
  {
    if b < 0 then b + 0x100 else b
  }

  function UnsignedAll(bs: seq<int8>): seq<uint8>
  {
    seq(|bs|, i requires 0 <= i < |bs| => Unsigned(bs[i]))
  }

  /** The digit characters `0`-`9`, `a`-`f` and `0`-`9`, `A`-`F`. */
  function LowerDigit(k: int): char
    requires 0 <= k < 16
  {
    if k < 10 then ('0' as int + k) as char else ('a' as int + k - 10) as char
  }

  function UpperDigit(k: int): char
    requires 0 <= k < 16
  {
    if k < 10 then ('0' as int + k) as char else ('A' as int + k - 10) as char
  }

  predicate IsLowerHexDigit(c: char)
  {
    '0' <= c <= '9' || 'a' <= c <= 'f'
  }

  /** The value of a lower-case hexadecimal digit; inverse of LowerDigit. */
  function DigitValue(c: char): (v: int)
    requires IsLowerHexDigit(c)
    ensures 0 <= v < 16 && LowerDigit(v) == c
  {
    if c <= '9' then c as int - '0' as int else c as int - 'a' as int + 10
  }

  /** Java's `"%02x".format(b)` for a Kotlin `Byte`. */
  function FormatByte(b: int8): string
  {
    var u := Unsigned(b);
    [LowerDigit(u / 16), LowerDigit(u % 16)]
  }

  /** `output.joinToString(separator = "") { "%02x".format(it) }`: two lower-case
      hexadecimal digits per byte. */
  function AndroidHex(bs: seq<int8>): (s: string)
    ensures |s| == 2 * |bs|
    ensures forall i | 0 <= i < |s| :: IsLowerHexDigit(s[i])
  {
    if bs == [] then "" else FormatByte(bs[0]) + AndroidHex(bs[1..])
  }

  /** Swift's `String(format: "%02X", o)` for a `UInt8`. */
  function FormatUpper(o: uint8): string
  {
    [UpperDigit(o / 16), UpperDigit(o % 16)]
  }

  /** `map { String(format: "%02X", $0) }.joined()`. */
  function JoinedUpper(os: seq<uint8>): string
  {
    if os == [] then "" else FormatUpper(os[0]) + JoinedUpper(os[1..])
  }

  /** Swift's `lowercased()` on the ASCII letters (the only letters a
      hexadecimal rendering contains). */
  function LowerChar(c: char): char
  {
    if 'A' <= c <= 'Z' then (c as int + 32) as char else c
  }

  function Lowercased(s: string): string
  {
    seq(|s|, i requires 0 <= i < |s| => LowerChar(s[i]))
  }

  /** The iOS rendering: upper-case digits joined, then the whole string
      lower-cased. */
  function IosHex(os: seq<uint8>): string
  {
    Lowercased(JoinedUpper(os))
  }

  /** Reads back a string of lower-case hexadecimal digit pairs. */
  function Unhex(s: string): Option<seq<uint8>>
  {
    if s == [] then Some([])
    else if |s| < 2 || !IsLowerHexDigit(s[0]) || !IsLowerHexDigit(s[1]) then None
    else match Unhex(s[2..])
      case None => None
      case Some(rest) => Some([DigitValue(s[0]) * 16 + DigitValue(s[1])] + rest)
  }

  /** Reading a digit back gives its value. */
  lemma DigitRoundTrip(k: int)
    requires 0 <= k < 16
    ensures IsLowerHexDigit(LowerDigit(k)) && DigitValue(LowerDigit(k)) == k
  {
  }

  /** The Android rendering loses nothing: reading it back gives every byte
      of the digest, as an unsigned value, in order. */
  lemma {:induction false} AndroidHexRoundTrip(bs: seq<int8>)
    ensures Unhex(AndroidHex(bs)) == Some(UnsignedAll(bs))
  {
    if bs == [] {
      assert UnsignedAll(bs) == [];
    } else {
      var s := AndroidHex(bs);
      var u := Unsigned(bs[0]);
      DigitRoundTrip(u / 16);
      DigitRoundTrip(u % 16);
      assert s == FormatByte(bs[0]) + AndroidHex(bs[1..]);
      assert s[0] == LowerDigit(u / 16) && s[1] == LowerDigit(u % 16);
      assert s[2..] == AndroidHex(bs[1..]);
      AndroidHexRoundTrip(bs[1..]);
      assert DigitValue(s[0]) * 16 + DigitValue(s[1]) == u;
      assert Unhex(s) == Some([u] + UnsignedAll(bs[1..]));
      assert UnsignedAll(bs) == [u] + UnsignedAll(bs[1..]);
    }
  }

  /** Lower-casing distributes over concatenation. */
  lemma LowercasedAppend(a: string, b: string)
    ensures Lowercased(a + b) == Lowercased(a) + Lowercased(b)
  {
  }

  /** The two platforms render the same digest identically: Swift's upper-case
      digits lower-cased equal Java's `%02x` of the signed bytes. */
  lemma {:induction false} IosHexMatchesAndroid(bs: seq<int8>)
    ensures IosHex(UnsignedAll(bs)) == AndroidHex(bs)
  {
    if bs != [] {
      var os := UnsignedAll(bs);
      assert os[0] == Unsigned(bs[0]);
      assert os[1..] == UnsignedAll(bs[1..]);
      LowercasedAppend(FormatUpper(os[0]), JoinedUpper(os[1..]));
      IosHexMatchesAndroid(bs[1..]);
    }
  }

  /** Every unsigned byte sequence is the image of some signed one, so the
      iOS rendering also reads back to its input. */
  lemma IosHexRoundTrip(os: seq<uint8>)
    ensures Unhex(IosHex(os)) == Some(os)
  {
    var bs := seq(|os|, i requires 0 <= i < |os| => (if os[i] < 0x80 then os[i] as int else os[i] as int - 0x100) as int8);
    assert UnsignedAll(bs) == os;
    IosHexMatchesAndroid(bs);
    AndroidHexRoundTrip(bs);
  }

  /** Neither rendering loses information: two digests print as the same
      string only when they are the same bytes. */
  lemma HexDistinguishesDigests(a: seq<int8>, b: seq<int8>, x: seq<uint8>, y: seq<uint8>)
    ensures AndroidHex(a) == AndroidHex(b) ==> a == b
    ensures IosHex(x) == IosHex(y) ==> x == y
  {
    AndroidHexRoundTrip(a);
    AndroidHexRoundTrip(b);
    IosHexRoundTrip(x);
    IosHexRoundTrip(y);
  }
}
