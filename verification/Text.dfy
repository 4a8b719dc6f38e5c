/** Text forms of scalars: decimal, lowercase hex, standard base64 (strconv, encoding/hex, encoding/base64). */
module Text {
  import opened Wire

  function Decimal(n: nat): (r: bytes)
    ensures |r| >= 1
    ensures forall i :: 0 <= i < |r| ==> 0x30 <= r[i] <= 0x39
  {
    if n < 10 then [0x30 + n] else Decimal(n / 10) + [0x30 + n % 10]
  }

  function DecimalInt(n: int): bytes {
    if n < 0 then [0x2d] + Decimal(-n) else Decimal(n)
  }

  function DecimalValue(s: bytes): int {
    if |s| == 0 then 0 else 10 * DecimalValue(s[..|s| - 1]) + s[|s| - 1] - 0x30
  }

  lemma {:induction false} DecimalRoundTrip(n: nat)
    ensures DecimalValue(Decimal(n)) == n
  {
    if n < 10 {
      assert Decimal(n)[..0] == [];
    } else {
      assert Decimal(n)[..|Decimal(n)| - 1] == Decimal(n / 10);
      DecimalRoundTrip(n / 10);
    }
  }

  /** No leading zeros. */
  lemma {:induction false} DecimalShort(n: nat)
    ensures Decimal(n)[0] == 0x30 <==> n == 0
    ensures n < 10 ==> |Decimal(n)| == 1
  {
    if n >= 10 { DecimalShort(n / 10); }
  }

  /** Reads a decimal with an optional minus sign. */
  function DecimalIntValue(s: bytes): int {
    if |s| > 0 && s[0] == 0x2d then -DecimalValue(s[1..]) else DecimalValue(s)
  }

  /** Signed numbers are read back exactly; digits never look like the sign. */
  lemma DecimalIntRoundTrip(n: int)
    ensures DecimalIntValue(DecimalInt(n)) == n
  {
    hide Decimal, DecimalValue;
    if n < 0 {
      DecimalRoundTrip(-n);
      assert DecimalInt(n)[1..] == Decimal(-n);
    } else {
      DecimalRoundTrip(n);
    }
  }

  function HexDigit(n: int): byte
    requires 0 <= n < 16
  {
    if n < 10 then 0x30 + n else 0x61 + n - 10
  }

  function HexValue(c: byte): Option<int> {
    if 0x30 <= c <= 0x39 then Some(c - 0x30) else if 0x61 <= c <= 0x66 then Some(c - 0x61 + 10) else None
  }

  function Hex(b: bytes): bytes {
    if |b| == 0 then [] else [HexDigit(b[0] / 16), HexDigit(b[0] % 16)] + Hex(b[1..])
  }

  function Unhex(s: bytes): Option<bytes> {
    if |s| == 0 then Some([])
    else if |s| == 1 then None
    else
      match (HexValue(s[0]), HexValue(s[1]), Unhex(s[2..]))
      case (Some(h), Some(l), Some(rest)) => if 0 <= h < 16 && 0 <= l < 16 then Some([16 * h + l] + rest) else None
      case _ => None
  }

  /** Hex loses nothing: trace and span ids can be read back. */
  lemma {:induction false} HexRoundTrip(b: bytes)
    ensures Unhex(Hex(b)) == Some(b)
  {
    if |b| > 0 {
      HexRoundTrip(b[1..]);
      assert Hex(b)[2..] == Hex(b[1..]);
      assert [b[0]] + b[1..] == b;
    }
  }

  function Base64Digit(n: int): byte
    requires 0 <= n < 64
  {
    if n < 26 then 0x41 + n
    else if n < 52 then 0x61 + n - 26
    else if n < 62 then 0x30 + n - 52
    else if n == 62 then 0x2b
    else 0x2f
  }

  /** The alphabets. */
  lemma Alphabets(n: int)
    ensures 0 <= n < 16 ==> HexDigit(n) == Ascii("0123456789abcdef")[n]
    ensures 0 <= n < 26 ==> Base64Digit(n) == 'A' as int + n
    ensures 26 <= n < 52 ==> Base64Digit(n) == 'a' as int + n - 26
    ensures 52 <= n < 64 ==> Base64Digit(n) == Ascii("0123456789+/")[n - 52]
  {
  }

  function Base64(b: bytes): bytes {
    if |b| == 0 then []
    else if |b| == 1 then [Base64Digit(b[0] / 4), Base64Digit(b[0] % 4 * 16), 0x3d, 0x3d]
    else if |b| == 2 then
      [Base64Digit(b[0] / 4), Base64Digit(b[0] % 4 * 16 + b[1] / 16), Base64Digit(b[1] % 16 * 4), 0x3d]
    else
      [Base64Digit(b[0] / 4), Base64Digit(b[0] % 4 * 16 + b[1] / 16),
       Base64Digit(b[1] % 16 * 4 + b[2] / 64), Base64Digit(b[2] % 64)] + Base64(b[3..])
  }

  function Base64Value(c: byte): int {
    if 0x41 <= c <= 0x5a then c - 0x41
    else if 0x61 <= c <= 0x7a then c - 0x61 + 26
    else if 0x30 <= c <= 0x39 then c - 0x30 + 52
    else if c == 0x2b then 62
    else if c == 0x2f then 63
    else -1
  }

  /** Decodes well-formed base64; the padding tells how many bytes the last group holds. */
  function Unbase64(s: bytes): Option<bytes> {
    if |s| == 0 then Some([])
    else if |s| < 4 then None
    else
      var x, y, z, w := Base64Value(s[0]), Base64Value(s[1]), Base64Value(s[2]), Base64Value(s[3]);
      if x < 0 || y < 0 then None
      else if |s| == 4 && s[2] == 0x3d then Some([(4 * x + y / 16) % 0x100])
      else if z < 0 then None
      else if |s| == 4 && s[3] == 0x3d then Some([(4 * x + y / 16) % 0x100, (16 * y + z / 4) % 0x100])
      else if w < 0 then None
      else
        match Unbase64(s[4..])
        case None => None
        case Some(rest) => Some([(4 * x + y / 16) % 0x100, (16 * y + z / 4) % 0x100, (64 * z + w) % 0x100] + rest)
  }

  lemma Base64DigitValue(n: int)
    requires 0 <= n < 64
    ensures Base64Value(Base64Digit(n)) == n && Base64Digit(n) != 0x3d
  {
  }

  /** Six-bit groups hold exactly the eight-bit bytes they were cut from. */
  lemma Regroup(a: byte, b: byte, c: byte)
    ensures var x, y, z, w := a / 4, a % 4 * 16 + b / 16, b % 16 * 4 + c / 64, c % 64;
      && (4 * x + y / 16) % 0x100 == a && (16 * y + z / 4) % 0x100 == b && (64 * z + w) % 0x100 == c
  {
    var y, z := a % 4 * 16 + b / 16, b % 16 * 4 + c / 64;
    assert y / 16 == a % 4;
    assert z / 4 == b % 16;
    assert 16 * y + z / 4 == a % 4 * 0x100 + b;
    assert 64 * z + c % 64 == b % 16 * 0x100 + c;
  }

  lemma {:induction false} Base64RoundTrip(b: bytes)
    ensures Unbase64(Base64(b)) == Some(b)
  {
    hide Base64Digit, Base64Value;
    if |b| == 1 {
      Base64One(b[0]);
      assert b == [b[0]];
    } else if |b| == 2 {
      Base64Two(b[0], b[1]);
      assert b == [b[0], b[1]];
    } else if |b| > 2 {
      Base64RoundTrip(b[3..]);
      Base64Group(b[0], b[1], b[2], Base64(b[3..]), b[3..]);
      assert b == [b[0], b[1], b[2]] + b[3..];
    }
  }

  /** A full group in front of decodable text. */
  lemma Base64Group(a: byte, b: byte, c: byte, text: bytes, rest: bytes)
    requires Unbase64(text) == Some(rest)
    ensures
      Unbase64([Base64Digit(a / 4), Base64Digit(a % 4 * 16 + b / 16), Base64Digit(b % 16 * 4 + c / 64),
        Base64Digit(c % 64)] + text)
      == Some([a, b, c] + rest)
  {
    hide Base64Digit, Base64Value;
    var s := [Base64Digit(a / 4), Base64Digit(a % 4 * 16 + b / 16), Base64Digit(b % 16 * 4 + c / 64),
      Base64Digit(c % 64)] + text;
    assert s[4..] == text;
    Base64DigitValue(a / 4);
    Base64DigitValue(a % 4 * 16 + b / 16);
    Base64DigitValue(b % 16 * 4 + c / 64);
    Base64DigitValue(c % 64);
    Regroup(a, b, c);
  }

  lemma Base64One(a: byte)
    ensures Unbase64(Base64([a])) == Some([a])
  {
    hide Base64Digit, Base64Value;
    Regroup(a, 0, 0);
    Base64DigitValue(a / 4);
    Base64DigitValue(a % 4 * 16);
    assert Base64Value(0x3d) == -1 by { Padding(); }
  }

  lemma Base64Two(a: byte, b: byte)
    ensures Unbase64(Base64([a, b])) == Some([a, b])
  {
    hide Base64Digit, Base64Value;
    Regroup(a, b, 0);
    Base64DigitValue(a / 4);
    Base64DigitValue(a % 4 * 16 + b / 16);
    Base64DigitValue(b % 16 * 4);
    assert Base64Value(0x3d) == -1 by { Padding(); }
  }

  lemma Padding()
    ensures Base64Value(0x3d) == -1
  {
  }
}
