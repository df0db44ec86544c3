/**
 * Decoding of the strings a script writes.  The decoders follow RFC 4648 (base64 in section 4, base64url
 * in section 5, hex in section 8, padding in section 3.2) as Go's library applies it: CR and LF are
 * skipped wherever they stand, and the unused low bits of a last digit are ignored.
 */
module Decoding {
  import opened Basics

  type sextet = v: int | 0 <= v < 64

  const PAD: byte := 61   // '='
  const CR: byte := 13
  const LF: byte := 10

  // ---------------------------------------------------------------- the alphabets

  function Digit(url: bool, v: sextet): byte {
    if v < 26 then 65 + v
    else if v < 52 then 71 + v
    else if v < 62 then v - 4
    else if v == 62 then (if url then 45 else 43)
    else if url then 95 else 47
  }

  function Value(url: bool, c: byte): Option<sextet> {
    if 65 <= c <= 90 then Some(c - 65)
    else if 97 <= c <= 122 then Some(c - 71)
    else if 48 <= c <= 57 then Some(c + 4)
    else if c == (if url then 45 else 43) then Some(62)
    else if c == (if url then 95 else 47) then Some(63)
    else None
  }

  predicate IsDigit(url: bool, c: byte) { Value(url, c).Some? }

  lemma ValueOfDigit(url: bool, v: sextet)
    ensures Value(url, Digit(url, v)) == Some(v)
    ensures Digit(url, v) != PAD && Digit(url, v) != CR && Digit(url, v) != LF
  {}

  lemma PadIsNoDigit(url: bool)
    ensures !IsDigit(url, PAD)
  {}

  lemma DigitOfValue(url: bool, c: byte)
    ensures IsDigit(url, c) ==> Digit(url, Value(url, c).value) == c && c != PAD
  {}

  // ---------------------------------------------------------------- one quantum

  function First(v: sextet, w: sextet): byte { v * 4 + w / 16 }
  function Second(w: sextet, x: sextet): byte { w % 16 * 16 + x / 4 }
  function Third(x: sextet, y: sextet): byte { x % 4 * 64 + y }

  /** The two digits of a single byte. */
  function Digits1(url: bool, a: byte): seq<byte> { [Digit(url, a / 4), Digit(url, a % 4 * 16)] }

  /** The three digits of two bytes. */
  function Digits2(url: bool, a: byte, b: byte): seq<byte> {
    [Digit(url, a / 4), Digit(url, a % 4 * 16 + b / 16), Digit(url, b % 16 * 4)]
  }

  function Digits3(url: bool, a: byte, b: byte, c: byte): seq<byte> {
    [Digit(url, a / 4), Digit(url, a % 4 * 16 + b / 16), Digit(url, b % 16 * 4 + c / 64), Digit(url, c % 64)]
  }

  function Bytes1(url: bool, s: seq<byte>): seq<byte>
    requires |s| >= 2 && IsDigit(url, s[0]) && IsDigit(url, s[1])
  {
    [First(Value(url, s[0]).value, Value(url, s[1]).value)]
  }

  function Bytes2(url: bool, s: seq<byte>): seq<byte>
    requires |s| >= 3 && IsDigit(url, s[0]) && IsDigit(url, s[1]) && IsDigit(url, s[2])
  {
    Bytes1(url, s) + [Second(Value(url, s[1]).value, Value(url, s[2]).value)]
  }

  function Bytes3(url: bool, s: seq<byte>): seq<byte>
    requires |s| >= 4 && IsDigit(url, s[0]) && IsDigit(url, s[1]) && IsDigit(url, s[2]) && IsDigit(url, s[3])
  {
    Bytes2(url, s) + [Third(Value(url, s[2]).value, Value(url, s[3]).value)]
  }

  predicate FullQuantum(url: bool, s: seq<byte>) {
    |s| >= 4 && IsDigit(url, s[0]) && IsDigit(url, s[1]) && IsDigit(url, s[2]) && IsDigit(url, s[3])
  }

  // ---------------------------------------------------------------- encoding and decoding

  function Encode(url: bool, padded: bool, data: seq<byte>): seq<byte> {
    if data == [] then []
    else if |data| == 1 then Digits1(url, data[0]) + (if padded then [PAD, PAD] else [])
    else if |data| == 2 then Digits2(url, data[0], data[1]) + (if padded then [PAD] else [])
    else Digits3(url, data[0], data[1], data[2]) + Encode(url, padded, data[3..])
  }

  /** The last quantum of a text, shorter than four digits. */
  function DecodeLast(url: bool, padded: bool, s: seq<byte>): Option<seq<byte>> {
    var n := if padded then (if |s| != 4 || s[3] != PAD then 0 else if s[2] == PAD then 2 else 3) else |s|;
    if n == 2 && IsDigit(url, s[0]) && IsDigit(url, s[1]) then Some(Bytes1(url, s))
    else if n == 3 && IsDigit(url, s[0]) && IsDigit(url, s[1]) && IsDigit(url, s[2]) then Some(Bytes2(url, s))
    else None
  }

  /** Decoding of a text free of CR and LF. */
  function DecodeText(url: bool, padded: bool, s: seq<byte>): Option<seq<byte>> {
    if s == [] then Some([])
    else if FullQuantum(url, s) then
      (match DecodeText(url, padded, s[4..])
       case None => None
       case Some(rest) => Some(Bytes3(url, s) + rest))
    else DecodeLast(url, padded, s)
  }

  function WithoutNewlines(s: seq<byte>): seq<byte> {
    if s == [] then []
    else (if s[0] == CR || s[0] == LF then [] else [s[0]]) + WithoutNewlines(s[1..])
  }

  function Decode(url: bool, padded: bool, s: seq<byte>): Option<seq<byte>> {
    DecodeText(url, padded, WithoutNewlines(s))
  }

  /** `decodeBase64URLString`: unpadded first, then padded. */
  function DecodeBase64Url(s: seq<byte>): Option<seq<byte>> {
    var raw := Decode(true, false, s);
    if raw.Some? then raw else Decode(true, true, s)
  }

  // ---------------------------------------------------------------- decoding undoes encoding

  lemma {:induction false} EncodingHasNoNewlines(url: bool, padded: bool, data: seq<byte>)
    ensures WithoutNewlines(Encode(url, padded, data)) == Encode(url, padded, data)
  {
    var s := Encode(url, padded, data);
    forall i | 0 <= i < |s| ensures s[i] != CR && s[i] != LF { EncodedChar(url, padded, data, i); }
    NothingToStrip(s);
  }

  lemma {:induction false} NothingToStrip(s: seq<byte>)
    requires forall i :: 0 <= i < |s| ==> s[i] != CR && s[i] != LF
    ensures WithoutNewlines(s) == s
  {
    if s != [] { NothingToStrip(s[1..]); }
  }

  lemma {:induction false} EncodedChar(url: bool, padded: bool, data: seq<byte>, i: nat)
    requires i < |Encode(url, padded, data)|
    ensures var c := Encode(url, padded, data)[i]; c != CR && c != LF
  {
    hide Digit;
    forall v: sextet ensures Digit(url, v) != CR && Digit(url, v) != LF { ValueOfDigit(url, v); }
    if |data| > 2 && i >= 4 { EncodedChar(url, padded, data[3..], i - 4); }
  }

  lemma {:induction false} DecodeUndoesEncode(url: bool, padded: bool, data: seq<byte>)
    ensures DecodeText(url, padded, Encode(url, padded, data)) == Some(data)
  {
    hide Digit, Value, Bytes1, Bytes2, Bytes3;
    var s := Encode(url, padded, data);
    PadIsNoDigit(url);
    if |data| == 1 {
      LastQuantum1(url, data[0], if padded then [PAD, PAD] else []);
      assert data == [data[0]];
    } else if |data| == 2 {
      LastQuantum2(url, data[0], data[1], if padded then [PAD] else []);
      assert data == [data[0], data[1]];
    } else if |data| > 2 {
      DecodeUndoesEncode(url, padded, data[3..]);
      Quantum(url, data[0], data[1], data[2], Encode(url, padded, data[3..]));
      assert s[4..] == Encode(url, padded, data[3..]);
      assert data == [data[0], data[1], data[2]] + data[3..];
    }
  }

  /** `hi` and `lo` are recovered from a value made of both. */
  lemma Split(hi: nat, lo: nat, base: nat)
    requires lo < base && (base == 4 || base == 16 || base == 64)
    ensures (hi * base + lo) / base == hi && (hi * base + lo) % base == lo
  {
    if base == 4 { assert (hi * 4 + lo) / 4 == hi; }
    else if base == 16 { assert (hi * 16 + lo) / 16 == hi; }
    else { assert (hi * 64 + lo) / 64 == hi; }
  }

  lemma LastQuantum1(url: bool, a: byte, tail: seq<byte>)
    ensures var s := Digits1(url, a) + tail; IsDigit(url, s[0]) && IsDigit(url, s[1]) && Bytes1(url, s) == [a]
  {
    hide Digit, Value;
    Split(a % 4, 0, 16);
    ValueOfDigit(url, a / 4);
    ValueOfDigit(url, a % 4 * 16);
  }

  lemma LastQuantum2(url: bool, a: byte, b: byte, tail: seq<byte>)
    ensures var s := Digits2(url, a, b) + tail;
            IsDigit(url, s[0]) && IsDigit(url, s[1]) && IsDigit(url, s[2]) && Bytes2(url, s) == [a, b]
  {
    hide Digit, Value;
    Split(a % 4, b / 16, 16);
    Split(b % 16, 0, 4);
    ValueOfDigit(url, a / 4);
    ValueOfDigit(url, a % 4 * 16 + b / 16);
    ValueOfDigit(url, b % 16 * 4);
  }

  lemma Quantum(url: bool, a: byte, b: byte, c: byte, tail: seq<byte>)
    ensures var s := Digits3(url, a, b, c) + tail; FullQuantum(url, s) && Bytes3(url, s) == [a, b, c]
  {
    hide Digit, Value;
    Split(a % 4, b / 16, 16);
    Split(b % 16, c / 64, 4);
    ValueOfDigit(url, a / 4);
    ValueOfDigit(url, a % 4 * 16 + b / 16);
    ValueOfDigit(url, b % 16 * 4 + c / 64);
    ValueOfDigit(url, c % 64);
  }

  /** Newlines may be put anywhere into an encoding without changing what it decodes to. */
  lemma {:induction false} RoundTrip(url: bool, padded: bool, data: seq<byte>, s: seq<byte>)
    requires WithoutNewlines(s) == Encode(url, padded, data)
    ensures Decode(url, padded, s) == Some(data)
  {
    DecodeUndoesEncode(url, padded, data);
  }

  // ---------------------------------------------------------------- encoding undoes decoding, up to spare bits

  /** The spare low bits of the last digit are zero. */
  predicate Canonical(url: bool, padded: bool, s: seq<byte>) {
    if FullQuantum(url, s) then Canonical(url, padded, s[4..])
    else
      var n := if padded then (if |s| != 4 || s[3] != PAD then 0 else if s[2] == PAD then 2 else 3) else |s|;
      && (n == 2 && IsDigit(url, s[1]) ==> Value(url, s[1]).value % 16 == 0)
      && (n == 3 && IsDigit(url, s[2]) ==> Value(url, s[2]).value % 4 == 0)
  }

  lemma {:induction false} EncodeUndoesDecode(url: bool, padded: bool, s: seq<byte>)
    requires DecodeText(url, padded, s).Some?
    ensures Canonical(url, padded, s) <==> Encode(url, padded, DecodeText(url, padded, s).value) == s
  {
    if FullQuantum(url, s) {
      var rest := DecodeText(url, padded, s[4..]).value;
      EncodeUndoesDecode(url, padded, s[4..]);
      QuantumBack(url, s);
      var d := Bytes3(url, s) + rest;
      assert d[3..] == rest;
      assert Encode(url, padded, d) == s[..4] + Encode(url, padded, rest);
      assert s == s[..4] + s[4..];
    } else if s != [] {
      LastBack(url, padded, s);
    }
  }

  lemma QuantumBack(url: bool, s: seq<byte>)
    requires FullQuantum(url, s)
    ensures var d := Bytes3(url, s); Digits3(url, d[0], d[1], d[2]) == s[..4]
  {
    hide Digit, Value;
    var v, w, x, y := Value(url, s[0]).value, Value(url, s[1]).value, Value(url, s[2]).value, Value(url, s[3]).value;
    Split(v, w / 16, 4);
    Split(w % 16, x / 4, 16);
    Split(x % 4, y, 64);
    DigitOfValue(url, s[0]);
    DigitOfValue(url, s[1]);
    DigitOfValue(url, s[2]);
    DigitOfValue(url, s[3]);
  }

  lemma LastBack(url: bool, padded: bool, s: seq<byte>)
    requires s != [] && !FullQuantum(url, s) && DecodeLast(url, padded, s).Some?
    ensures Canonical(url, padded, s) <==> Encode(url, padded, DecodeLast(url, padded, s).value) == s
  {
    hide Digit, Value;
    PadIsNoDigit(url);
    var d := DecodeLast(url, padded, s).value;
    DigitOfValue(url, s[0]);
    DigitOfValue(url, s[1]);
    var v, w := Value(url, s[0]).value, Value(url, s[1]).value;
    Split(v, w / 16, 4);
    if |d| == 1 {
      ValueOfDigit(url, d[0] % 4 * 16);
    } else {
      DigitOfValue(url, s[2]);
      var x := Value(url, s[2]).value;
      Split(w % 16, x / 4, 16);
      ValueOfDigit(url, d[1] % 16 * 4);
    }
  }

  // ---------------------------------------------------------------- the order of the two attempts

  /** Text both decoders accept is full quanta only, on which they agree. */
  lemma {:induction false} DecodersAgree(url: bool, s: seq<byte>)
    requires DecodeText(url, false, s).Some? && DecodeText(url, true, s).Some?
    ensures DecodeText(url, false, s) == DecodeText(url, true, s)
  {
    if FullQuantum(url, s) { DecodersAgree(url, s[4..]); }
  }

  /** Trying the padded decoder first would give the same result on every string, failure included. */
  lemma OrderDoesNotMatter(s: seq<byte>)
    ensures DecodeBase64Url(s) ==
              (var padded := Decode(true, true, s); if padded.Some? then padded else Decode(true, false, s))
  {
    if Decode(true, false, s).Some? && Decode(true, true, s).Some? { DecodersAgree(true, WithoutNewlines(s)); }
  }

  /** base64url text decodes to what was encoded, padded or not, newlines or not. */
  lemma Base64UrlRoundTrip(padded: bool, data: seq<byte>, s: seq<byte>)
    requires WithoutNewlines(s) == Encode(true, padded, data)
    ensures DecodeBase64Url(s) == Some(data)
  {
    RoundTrip(true, padded, data, s);
    OrderDoesNotMatter(s);
  }

  // ---------------------------------------------------------------- hex

  type nibble = v: int | 0 <= v < 16

  function HexDigit(v: nibble): byte { if v < 10 then 48 + v else 87 + v }

  function HexValue(c: byte): Option<nibble> {
    if 48 <= c <= 57 then Some(c - 48)
    else if 97 <= c <= 102 then Some(c - 87)
    else if 65 <= c <= 70 then Some(c - 55)
    else None
  }

  function HexEncode(data: seq<byte>): seq<byte> {
    if data == [] then [] else [HexDigit(data[0] / 16), HexDigit(data[0] % 16)] + HexEncode(data[1..])
  }

  function HexDecode(s: seq<byte>): Option<seq<byte>> {
    if s == [] then Some([])
    else if |s| == 1 || HexValue(s[0]).None? || HexValue(s[1]).None? then None
    else
      match HexDecode(s[2..])
      case None => None
      case Some(rest) => Some([HexValue(s[0]).value * 16 + HexValue(s[1]).value] + rest)
  }

  /** Case does not matter to hex digits. */
  function LowerDigits(s: seq<byte>): seq<byte> {
    if s == [] then [] else [if 65 <= s[0] <= 70 then s[0] + 32 else s[0]] + LowerDigits(s[1..])
  }

  /** A text decodes to `data` exactly when it is the hex encoding of `data` in any mixture of cases. */
  lemma {:induction false} HexDecodesExactly(s: seq<byte>, data: seq<byte>)
    ensures HexDecode(s) == Some(data) <==> LowerDigits(s) == HexEncode(data)
  {
    var l, e := LowerDigits(s), HexEncode(data);
    HexLengths(s, data);
    if |s| >= 2 && data != [] {
      HexDecodesExactly(s[2..], data[1..]);
      assert l == [l[0], l[1]] + LowerDigits(s[2..]) by { assert s[1..][1..] == s[2..]; }
      assert e[2..] == HexEncode(data[1..]) && l[2..] == LowerDigits(s[2..]);
      if l == e { assert l[0] == e[0] && l[1] == e[1] && l[2..] == e[2..]; }
      if HexDecode(s) == Some(data) {
        assert HexDecode(s[2..]).value == data[1..];
        assert l[0] == e[0] && l[1] == e[1];
      }
      assert data == [data[0]] + data[1..];
    }
  }

  lemma HexLengths(s: seq<byte>, data: seq<byte>)
    ensures |LowerDigits(s)| == |s| && |HexEncode(data)| == 2 * |data|
    ensures HexDecode(s).Some? ==> |s| == 2 * |HexDecode(s).value|
  {
    LowerLength(s);
    EncodedLength(data);
    DecodedLength(s);
  }

  lemma LowerLength(s: seq<byte>)
    ensures |LowerDigits(s)| == |s|
  {}

  lemma EncodedLength(data: seq<byte>)
    ensures |HexEncode(data)| == 2 * |data|
  {}

  lemma DecodedLength(s: seq<byte>)
    ensures HexDecode(s).Some? ==> |s| == 2 * |HexDecode(s).value|
  {}

  // ---------------------------------------------------------------- decodeString

  datatype DecodeResult = Decoded(data: seq<byte>) | Malformed | UnsupportedEncoding

  /** Lower case of one character, as far as the encoding names can tell: besides A to Z, Go lowers the
      dotted capital I to `i` and the Kelvin sign to `k`. */
  function LowerChar(c: char): char {
    if 'A' <= c <= 'Z' then c + ' '
    else if c == '\U{0130}' then 'i'
    else if c == '\U{212A}' then 'k'
    else c
  }

  function Lower(s: string): string {
    if s == [] then [] else [LowerChar(s[0])] + Lower(s[1..])
  }

  function FromOption(d: Option<seq<byte>>): DecodeResult {
    match d case None => Malformed case Some(data) => Decoded(data)
  }

  const PLAIN: set<string> := {"", "utf8", "utf-8", "ascii"}

  function DecodeString(s: seq<byte>, encoding: string): DecodeResult {
    var name := Lower(encoding);
    if name in PLAIN then Decoded(s)
    else if name == "base64" then FromOption(Decode(false, true, s))
    else if name == "base64url" then FromOption(DecodeBase64Url(s))
    else if name == "hex" then FromOption(HexDecode(s))
    else UnsupportedEncoding
  }

  /** The standard text form of `data` under an encoding name. */
  function EncodeString(data: seq<byte>, name: string): Option<seq<byte>> {
    if name in PLAIN then Some(data)
    else if name == "base64" then Some(Encode(false, true, data))
    else if name == "base64url" then Some(Encode(true, true, data))
    else if name == "hex" then Some(HexEncode(data))
    else None
  }

  lemma {:induction false} LowerEncoding(data: seq<byte>)
    ensures LowerDigits(HexEncode(data)) == HexEncode(data)
  {
    if data != [] {
      LowerEncoding(data[1..]);
      var e := HexEncode(data);
      assert e[1..][1..] == HexEncode(data[1..]);
    }
  }

  /**
   * Under every name, in any case: a supported encoding decodes its own text form of any data back to
   * that data, and a name is unsupported exactly when it has no text form.
   */
  lemma {:induction false} WrittenTextIsWhatWasMeant(data: seq<byte>, encoding: string)
    ensures match EncodeString(data, Lower(encoding))
            case Some(s) => DecodeString(s, encoding) == Decoded(data)
            case None => forall s :: DecodeString(s, encoding) == UnsupportedEncoding
  {
    var name := Lower(encoding);
    if name == "base64" {
      EncodingHasNoNewlines(false, true, data);
      RoundTrip(false, true, data, Encode(false, true, data));
    } else if name == "base64url" {
      EncodingHasNoNewlines(true, true, data);
      Base64UrlRoundTrip(true, data, Encode(true, true, data));
    } else if name == "hex" {
      LowerEncoding(data);
      HexDecodesExactly(HexEncode(data), data);
    }
  }
}
