/**
  JSON strings, after `appendJSONString` (otlp/json.go), with an independent reader following
  section 7 of RFC 8259 and the UTF-8 syntax of sections 3 and 4 of RFC 3629.
*/
module JsonString {
  import opened Wire
  import opened Text

  const QUOTE: byte := 0x22
  const BACKSLASH: byte := 0x5c
  const REPLACEMENT: bytes := [0xef, 0xbf, 0xbd]  // U+FFFD

  predicate Tail(b: byte) {
    0x80 <= b <= 0xbf
  }

  /** Length of the well-formed UTF-8 character at the front of `s`, 0 if there is none. */
  function RuneLen(s: bytes): (n: nat)
    ensures n <= |s| && n <= 4
  {
    if |s| == 0 then 0
    else if s[0] < 0x80 then 1
    else if 0xc2 <= s[0] <= 0xdf then if |s| >= 2 && Tail(s[1]) then 2 else 0
    else if 0xe0 <= s[0] <= 0xef then
      if |s| >= 3 && Second3(s[0], s[1]) && Tail(s[2]) then 3 else 0
    else if 0xf0 <= s[0] <= 0xf4 then
      if |s| >= 4 && Second4(s[0], s[1]) && Tail(s[2]) && Tail(s[3]) then 4 else 0
    else 0
  }

  predicate Second3(lead: byte, b: byte) {
    if lead == 0xe0 then 0xa0 <= b <= 0xbf else if lead == 0xed then 0x80 <= b <= 0x9f else Tail(b)
  }

  predicate Second4(lead: byte, b: byte) {
    if lead == 0xf0 then 0x90 <= b <= 0xbf else if lead == 0xf4 then 0x80 <= b <= 0x8f else Tail(b)
  }

  predicate ValidUtf8(s: bytes) {
    |s| == 0 || (RuneLen(s) > 0 && ValidUtf8(s[RuneLen(s)..]))
  }

  // ---------------------------------------------------------------------------------------
  // Characters
  // ---------------------------------------------------------------------------------------

  /** A Unicode character number: not a surrogate, and within the code space. */
  predicate Scalar(c: nat) {
    c < 0xd800 || 0xe000 <= c < 0x11_0000
  }

  /** The encoding of a character, after section 3 of RFC 3629. */
  function Utf8(c: nat): (r: bytes)
    requires Scalar(c)
    ensures 1 <= |r| <= 4
  {
    if c < 0x80 then [c]
    else if c < 0x800 then [0xc0 + c / 0x40, 0x80 + c % 0x40]
    else if c < 0x1_0000 then [0xe0 + c / 0x1000, 0x80 + c / 0x40 % 0x40, 0x80 + c % 0x40]
    else [0xf0 + c / 0x4_0000, 0x80 + c / 0x1000 % 0x40, 0x80 + c / 0x40 % 0x40, 0x80 + c % 0x40]
  }

  /** The first bytes of an encoding, by its length. */
  lemma LeadByte(c: nat)
    requires Scalar(c)
    ensures var b := Utf8(c);
      && (|b| == 1 ==> b[0] < 0x80)
      && (|b| == 2 ==> 0xc2 <= b[0] <= 0xdf)
      && (|b| == 3 ==> 0xe0 <= b[0] <= 0xef && Second3(b[0], b[1]))
      && (|b| == 4 ==> 0xf0 <= b[0] <= 0xf4 && Second4(b[0], b[1]))
      && forall i :: 1 <= i < |b| ==> Tail(b[i])
  {
  }

  /** Every character is recognized, with its own length, whatever follows. */
  lemma CharRecognized(c: nat, rest: bytes)
    requires Scalar(c)
    ensures RuneLen(Utf8(c) + rest) == |Utf8(c)|
  {
    hide Utf8;
    LeadByte(c);
    assert forall i :: 0 <= i < |Utf8(c)| ==> (Utf8(c) + rest)[i] == Utf8(c)[i];
  }

  lemma SixBits(hi: nat, lo: nat)
    requires lo < 0x40
    ensures (0x40 * hi + lo) / 0x40 == hi && (0x40 * hi + lo) % 0x40 == lo
  {
  }

  lemma Shifts(c: nat)
    ensures c / 0x1000 == c / 0x40 / 0x40 && c / 0x4_0000 == c / 0x40 / 0x40 / 0x40
  {
  }

  lemma TwoBytes(a: nat, b: nat)
    requires 2 <= a < 0x20 && b < 0x40
    ensures var c := 0x40 * a + b; Scalar(c) && Utf8(c) == [0xc0 + a, 0x80 + b]
  {
    SixBits(a, b);
  }

  lemma ThreeBytes(a: nat, b: nat, d: nat)
    requires a < 0x10 && b < 0x40 && d < 0x40
    requires (a == 0 ==> b >= 0x20) && (a == 0xd ==> b < 0x20)
    ensures var c := 0x40 * (0x40 * a + b) + d; Scalar(c) && Utf8(c) == [0xe0 + a, 0x80 + b, 0x80 + d]
  {
    SixBits(a, b);
    SixBits(0x40 * a + b, d);
    Shifts(0x40 * (0x40 * a + b) + d);
  }

  lemma FourBytes(a: nat, b: nat, d: nat, e: nat)
    requires a < 5 && b < 0x40 && d < 0x40 && e < 0x40
    requires (a == 0 ==> b >= 0x10) && (a == 4 ==> b < 0x10)
    ensures var c := 0x40 * (0x40 * (0x40 * a + b) + d) + e;
      Scalar(c) && Utf8(c) == [0xf0 + a, 0x80 + b, 0x80 + d, 0x80 + e]
  {
    SixBits(a, b);
    SixBits(0x40 * a + b, d);
    SixBits(0x40 * (0x40 * a + b) + d, e);
    Shifts(0x40 * (0x40 * (0x40 * a + b) + d) + e);
  }

  /** Nothing but a character is recognized. */
  lemma RecognizedChar(s: bytes) returns (c: nat)
    requires RuneLen(s) > 0
    ensures Scalar(c) && Utf8(c) == s[..RuneLen(s)]
  {
    hide Utf8, Scalar;
    if s[0] < 0x80 {
      c := s[0];
      assert Scalar(c) && Utf8(c) == [c] by { OneByte(c); }
    } else if s[0] < 0xe0 {
      var a: nat, b: nat := s[0] - 0xc0, s[1] - 0x80;
      TwoBytes(a, b);
      c := 0x40 * a + b;
    } else if s[0] < 0xf0 {
      var a: nat, b: nat, d: nat := s[0] - 0xe0, s[1] - 0x80, s[2] - 0x80;
      ThreeBytes(a, b, d);
      c := 0x40 * (0x40 * a + b) + d;
    } else {
      var a: nat, b: nat, d: nat, e: nat := s[0] - 0xf0, s[1] - 0x80, s[2] - 0x80, s[3] - 0x80;
      FourBytes(a, b, d, e);
      c := 0x40 * (0x40 * (0x40 * a + b) + d) + e;
    }
  }

  lemma OneByte(c: nat)
    requires c < 0x80
    ensures Scalar(c) && Utf8(c) == [c]
  {
  }

  predicate Scalars(cs: seq<nat>) {
    forall i :: 0 <= i < |cs| ==> Scalar(cs[i])
  }

  function Utf8Text(cs: seq<nat>): bytes
    requires Scalars(cs)
  {
    if |cs| == 0 then [] else Utf8(cs[0]) + Utf8Text(cs[1..])
  }

  lemma {:induction false} TextValid(cs: seq<nat>)
    requires Scalars(cs)
    ensures ValidUtf8(Utf8Text(cs))
  {
    hide RuneLen, Utf8;
    if |cs| > 0 {
      TextValid(cs[1..]);
      CharRecognized(cs[0], Utf8Text(cs[1..]));
      assert Utf8Text(cs)[|Utf8(cs[0])|..] == Utf8Text(cs[1..]);
    }
  }

  lemma {:induction false} ValidText(s: bytes) returns (cs: seq<nat>)
    requires ValidUtf8(s)
    ensures Scalars(cs) && Utf8Text(cs) == s
    decreases |s|
  {
    hide RuneLen, Utf8;
    if |s| == 0 {
      cs := [];
    } else {
      var c := RecognizedChar(s);
      var more := ValidText(s[RuneLen(s)..]);
      cs := [c] + more;
      assert cs[1..] == more;
    }
  }

  /** Valid are exactly the encodings of sequences of Unicode characters. */
  lemma ValidExact(s: bytes)
    ensures ValidUtf8(s) <==> exists cs: seq<nat> :: Scalars(cs) && Utf8Text(cs) == s
  {
    hide ValidUtf8, Utf8Text, Scalars;
    if ValidUtf8(s) {
      var cs := ValidText(s);
    }
    forall cs: seq<nat> | Scalars(cs) && Utf8Text(cs) == s ensures ValidUtf8(s) {
      TextValid(cs);
    }
  }

  // ---------------------------------------------------------------------------------------
  // Writing
  // ---------------------------------------------------------------------------------------

  function Escape(c: byte): bytes {
    if c == QUOTE then [BACKSLASH, QUOTE]
    else if c == BACKSLASH then [BACKSLASH, BACKSLASH]
    else if c == 0x0a then [BACKSLASH, 0x6e]
    else if c == 0x0d then [BACKSLASH, 0x72]
    else if c == 0x09 then [BACKSLASH, 0x74]
    else if c < 0x20 then [BACKSLASH, 0x75, 0x30, 0x30, HexDigit(c / 16), HexDigit(c % 16)]
    else [c]
  }

  /** What the code writes for the next character, and how many bytes of input that takes. */
  function Emit(s: bytes): (r: (bytes, nat))
    requires |s| > 0
    ensures 1 <= r.1 <= |s|
  {
    if s[0] < 0x80 then (Escape(s[0]), 1)
    else if RuneLen(s) == 0 then (REPLACEMENT, 1)
    else (s[..RuneLen(s)], RuneLen(s))
  }

  function Body(s: bytes): bytes
    decreases |s|
  {
    if |s| == 0 then [] else Emit(s).0 + Body(s[Emit(s).1..])
  }

  function Quoted(s: bytes): bytes {
    [QUOTE] + Body(s) + [QUOTE]
  }

  /** Printable ASCII but quote and backslash. */
  predicate Plain(s: bytes) {
    forall i :: 0 <= i < |s| ==> 0x20 <= s[i] < 0x80 && s[i] != QUOTE && s[i] != BACKSLASH
  }

  /** Plain text is written as it is, between quotes. */
  lemma PlainQuoted(s: bytes)
    requires Plain(s)
    ensures Quoted(s) == [0x22] + s + [0x22]
  {
    PlainBody(s);
  }

  lemma {:induction false} PlainBody(s: bytes)
    requires Plain(s)
    ensures Body(s) == s
  {
    if |s| > 0 {
      PlainBody(s[1..]);
      assert Emit(s) == ([s[0]], 1);
      assert s == [s[0]] + s[1..];
    }
  }

  /** The characters that are not, and how they are written. */
  lemma EscapeTable()
    ensures Escape(0x22) == Ascii("\\\"") && Escape(0x5c) == Ascii("\\\\")
    ensures Escape(0x0a) == Ascii("\\n") && Escape(0x0d) == Ascii("\\r") && Escape(0x09) == Ascii("\\t")
    ensures forall c: byte :: c < 0x20 && c != 0x0a && c != 0x0d && c != 0x09 ==>
      Escape(c) == Ascii("\\u00") + [HexDigit(c / 16), HexDigit(c % 16)]
  {
    hide HexDigit;
  }

  /** Splitting off what is emitted at position `i`. */
  lemma BodyStep(s: bytes, i: nat)
    requires i < |s|
    ensures Body(s[i..]) == Emit(s[i..]).0 + Body(s[i + Emit(s[i..]).1..])
  {
  }

  method AppendJsonString(dst: bytes, s: bytes) returns (r: bytes)
    ensures r == dst + Quoted(s)
  {
    hide Escape, RuneLen, Body;
    r := dst + [QUOTE];
    var i := 0;
    while i < |s|
      invariant 0 <= i <= |s|
      invariant r + Body(s[i..]) == dst + [QUOTE] + Body(s)
      decreases |s| - i
    {
      BodyStep(s, i);
      ghost var before, text, tail := r, Emit(s[i..]).0, Body(s[i + Emit(s[i..]).1..]);
      var c := s[i];
      if c < 0x80 {
        r := r + Escape(c);
        i := i + 1;
      } else {
        var n := RuneLen(s[i..]);
        if n == 0 {
          r := r + REPLACEMENT;
          i := i + 1;
        } else {
          assert s[i..][..n] == s[i..i + n];
          r := r + s[i..i + n];
          i := i + n;
        }
      }
      assert before + (text + tail) == before + text + tail;
    }
    NoBody();
    assert s[i..] == [];
    assert r == dst + [QUOTE] + Body(s);
    r := r + [QUOTE];
    assert r == dst + Quoted(s);
  }

  lemma NoBody()
    ensures Body([]) == []
  {
  }

  /** The input with every ill-formed byte replaced by U+FFFD. */
  function Sanitize(s: bytes): bytes
    decreases |s|
  {
    if |s| == 0 then []
    else if RuneLen(s) == 0 then REPLACEMENT + Sanitize(s[1..])
    else s[..RuneLen(s)] + Sanitize(s[RuneLen(s)..])
  }

  // ---------------------------------------------------------------------------------------
  // Reading
  // ---------------------------------------------------------------------------------------

  /** UTF-8 of a character of the basic plane; a lone surrogate has none. */
  function Encode16(u: int): Option<bytes>
    requires 0 <= u < 0x1_0000
  {
    if Scalar(u) then Some(Utf8(u)) else None
  }

  function Hex4(t: bytes): Option<int>
    ensures Hex4(t).Some? ==> |t| >= 4 && 0 <= Hex4(t).value < 0x1_0000
  {
    if |t| < 4 then None
    else
      match (HexValue(t[0]), HexValue(t[1]), HexValue(t[2]), HexValue(t[3]))
      case (Some(a), Some(b), Some(c), Some(d)) =>
        if 0 <= a < 16 && 0 <= b < 16 && 0 <= c < 16
          && 0 <= d < 16 then Some(0x1000 * a + 0x100 * b + 0x10 * c + d) else None
      case _ => None
  }

  /** One character of a JSON string body: its bytes and the length of its text; None is a syntax error. */
  function ReadChar(t: bytes): (r: Option<(bytes, nat)>)
    ensures r.Some? ==> 1 <= r.value.1 <= |t|
  {
    if |t| == 0 || t[0] < 0x20 || t[0] == QUOTE then None
    else if t[0] == BACKSLASH then
      if |t| == 1 then None
      else if t[1] == QUOTE || t[1] == BACKSLASH || t[1] == 0x2f then Some(([t[1]], 2))
      else if t[1] == 0x62 then Some(([0x08], 2))
      else if t[1] == 0x66 then Some(([0x0c], 2))
      else if t[1] == 0x6e then Some(([0x0a], 2))
      else if t[1] == 0x72 then Some(([0x0d], 2))
      else if t[1] == 0x74 then Some(([0x09], 2))
      else if t[1] == 0x75 then
        match Hex4(t[2..])
        case None => None
        case Some(u) => if Encode16(u).Some? then Some((Encode16(u).value, 6)) else None
      else None
    else if RuneLen(t) == 0 then None
    else Some((t[..RuneLen(t)], RuneLen(t)))
  }

  /** Reads a string body up to its closing quote: the contents and what follows. */
  function ReadBody(t: bytes): Option<(bytes, bytes)>
    decreases |t|
  {
    if |t| > 0 && t[0] == QUOTE then Some(([], t[1..]))
    else
      match ReadChar(t)
      case None => None
      case Some((c, n)) =>
        match ReadBody(t[n..])
        case None => None
        case Some((s, rest)) => Some((c + s, rest))
  }

  function ReadString(t: bytes): Option<(bytes, bytes)> {
    if |t| > 0 && t[0] == QUOTE then ReadBody(t[1..]) else None
  }

  // ---------------------------------------------------------------------------------------
  // Round trip
  // ---------------------------------------------------------------------------------------

  lemma RuneLenPrefix(s: bytes, rest: bytes)
    requires |s| > 0 && RuneLen(s) > 0
    ensures RuneLen(s[..RuneLen(s)] + rest) == RuneLen(s)
  {
  }

  lemma ReadControl(c: byte, rest: bytes)
    requires c < 0x20
    ensures ReadChar([BACKSLASH, 0x75, 0x30, 0x30, HexDigit(c / 16), HexDigit(c % 16)] + rest) == Some(([c], 6))
  {
  }

  /** Each piece the writer emits is read as one character: the original one, or U+FFFD. */
  lemma ReadEmitted(s: bytes, rest: bytes)
    requires |s| > 0
    ensures
      var (text, n) := Emit(s);
      && |text| > 0 && text[0] != QUOTE
      && ReadChar(text + rest) == Some((if RuneLen(s) == 0 then REPLACEMENT else s[..n], |text|))
      && (RuneLen(s) > 0 ==> n == RuneLen(s))
  {
    hide HexDigit, Hex4, Encode16;
    var text := Emit(s).0;
    if s[0] < 0x80 {
      assert s[..1] == [s[0]];
      if s[0] < 0x20 && s[0] != 0x0a && s[0] != 0x0d && s[0] != 0x09 { ReadControl(s[0], rest); }
      assert [s[0]][..1] == [s[0]] && ([s[0]] + rest)[..1] == [s[0]];
    } else if RuneLen(s) == 0 {
      assert RuneLen(REPLACEMENT + rest) == 3;
      assert (REPLACEMENT + rest)[..3] == REPLACEMENT;
    } else {
      RuneLenPrefix(s, rest);
      assert (text + rest)[..|text|] == text;
    }
  }

  /**
    Reading what was written gives the sanitized input, whatever follows it; in particular there is
    no raw control byte and no unescaped quote inside.
  */
  lemma {:induction false} ReadBack(s: bytes, rest: bytes)
    ensures ReadBody(Body(s) + [QUOTE] + rest) == Some((Sanitize(s), rest))
    decreases |s|
  {
    hide RuneLen, Emit, ReadChar;
    if |s| == 0 {
      assert Body(s) + [QUOTE] + rest == [QUOTE] + rest;
      assert ([QUOTE] + rest)[1..] == rest;
    } else {
      var (text, n) := Emit(s);
      var tail := Body(s[n..]) + [QUOTE] + rest;
      assert Body(s) + [QUOTE] + rest == text + tail;
      ReadEmitted(s, tail);
      EmitLen(s);
      ReadBack(s[n..], rest);
      assert (text + tail)[|text|..] == tail;
    }
  }

  lemma EmitLen(s: bytes)
    requires |s| > 0
    ensures RuneLen(s) == 0 ==> Emit(s).1 == 1
  {
  }

  lemma StringRoundTrip(s: bytes, rest: bytes)
    ensures ReadString(Quoted(s) + rest) == Some((Sanitize(s), rest))
  {
    hide Body, ReadBody, Sanitize;
    ReadBack(s, rest);
    assert (Quoted(s) + rest)[1..] == Body(s) + [QUOTE] + rest;
  }

  /** Sanitizing changes nothing exactly on well-formed UTF-8, and always yields well-formed UTF-8. */
  lemma {:induction false} SanitizeValid(s: bytes)
    ensures ValidUtf8(s) <==> Sanitize(s) == s
    ensures ValidUtf8(Sanitize(s))
    decreases |s|
  {
    hide RuneLen;
    if |s| > 0 {
      var n := RuneLen(s);
      if n == 0 {
        SanitizeValid(s[1..]);
        assert RuneLen(REPLACEMENT + Sanitize(s[1..])) == 3 by { ReplacementLen(Sanitize(s[1..])); }
        assert (REPLACEMENT + Sanitize(s[1..]))[3..] == Sanitize(s[1..]);
      } else {
        SanitizeValid(s[n..]);
        RuneLenPrefix(s, Sanitize(s[n..]));
        assert Sanitize(s)[n..] == Sanitize(s[n..]);
        assert s == s[..n] + s[n..];
      }
    }
  }

  lemma ReplacementLen(rest: bytes)
    ensures RuneLen(REPLACEMENT + rest) == 3
  {
  }

  /** Every well-formed string is recovered exactly, and only those. */
  lemma ValidRoundTrip(s: bytes, rest: bytes)
    ensures ReadString(Quoted(s) + rest) == Some((s, rest)) <==> ValidUtf8(s)
  {
    hide Quoted, ReadString, Sanitize, ValidUtf8;
    StringRoundTrip(s, rest);
    SanitizeValid(s);
  }
}
