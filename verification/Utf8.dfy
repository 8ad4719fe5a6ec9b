// UTF-8 as section 3 of RFC 3629 defines it. `Utf8Bytes` is the arithmetic of
// the runtime's hand-written encoder; `DecodeOne` is the standard's decoder.
module Utf8 {
  import opened Basics

  /** A Unicode scalar value: a code point that is not a surrogate. */
  predicate Scalar(c: int) {
    0 <= c < 0xD800 || 0xE000 <= c < 0x110000
  }

  /** Shifts and masks are written as division and remainder by powers of two. */
  function Utf8Bytes(c: int): (bytes: seq<Byte>)
    requires 0 <= c < 0x110000
    ensures 1 <= |bytes| <= 4
  {
    if c < 0x80 then [c]
    else if c < 0x800 then [0xC0 + c / 64, 0x80 + c % 64]
    else if c < 0x10000 then [0xE0 + c / 4096, 0x80 + c / 64 % 64, 0x80 + c % 64]
    else [0xF0 + c / 262144, 0x80 + c / 4096 % 64, 0x80 + c / 64 % 64, 0x80 + c % 64]
  }

  predicate Continuation(b: Byte) {
    0x80 <= b < 0xC0
  }

  /** The low six bits of a continuation byte. */
  function Payload(b: Byte): int {
    (b as int) % 64
  }

  /** One character from the front, with overlong forms and surrogates refused. */
  function DecodeOne(bytes: seq<Byte>): (r: Option<(int, nat)>)
    ensures r.Some? ==> Scalar(r.value.0) && 1 <= r.value.1 <= |bytes|
  {
    if |bytes| == 0 then None
    else
      var lead := bytes[0] as int;
      if lead < 0x80 then Some((lead, 1))
      else if 0xC2 <= lead < 0xE0 && |bytes| >= 2 && Continuation(bytes[1]) then
        Some(((lead - 0xC0) * 64 + Payload(bytes[1]), 2))
      else if 0xE0 <= lead < 0xF0 && |bytes| >= 3 && Continuation(bytes[1]) && Continuation(bytes[2]) then
        var c := (lead - 0xE0) * 4096 + Payload(bytes[1]) * 64 + Payload(bytes[2]);
        if 0x800 <= c && Scalar(c) then Some((c, 3)) else None
      else if 0xF0 <= lead < 0xF8 && |bytes| >= 4 && Continuation(bytes[1]) && Continuation(bytes[2]) && Continuation(bytes[3]) then
        var c := (lead - 0xF0) * 262144 + Payload(bytes[1]) * 4096 + Payload(bytes[2]) * 64 + Payload(bytes[3]);
        if 0x10000 <= c < 0x110000 then Some((c, 4)) else None
      else None
  }

  /** The base-64 digits of a code point determine it, and it determines them. */
  lemma Digits(c: int, a: int, b: int, d: int, e: int)
    requires 0 <= b < 64 && 0 <= d < 64 && 0 <= e < 64
    ensures c == a * 64 + e ==> c / 64 == a && c % 64 == e
    ensures c == a * 4096 + d * 64 + e ==> c / 4096 == a && c / 64 % 64 == d && c % 64 == e
    ensures c == a * 262144 + b * 4096 + d * 64 + e ==>
              c / 262144 == a && c / 4096 % 64 == b && c / 64 % 64 == d && c % 64 == e
  {
    if c == a * 4096 + d * 64 + e {
      assert c / 64 == a * 64 + d;
    }
    if c == a * 262144 + b * 4096 + d * 64 + e {
      assert c / 64 == a * 4096 + b * 64 + d;
      assert c / 4096 == a * 64 + b;
    }
  }

  lemma DigitsSum(c: int)
    ensures c == c / 64 * 64 + c % 64
    ensures c == c / 4096 * 4096 + c / 64 % 64 * 64 + c % 64
    ensures c == c / 262144 * 262144 + c / 4096 % 64 * 4096 + c / 64 % 64 * 64 + c % 64
  {
    assert c / 4096 == c / 64 / 64;
    assert c / 262144 == c / 4096 / 64;
  }

  lemma EncodeTwo(a: int, e: int)
    requires 2 <= a < 32 && 0 <= e < 64
    ensures Utf8Bytes(a * 64 + e) == [0xC0 + a, 0x80 + e]
  {
    Digits(a * 64 + e, a, 0, 0, e);
  }

  lemma EncodeThree(a: int, d: int, e: int)
    requires 0 <= a < 16 && 0 <= d < 64 && 0 <= e < 64 && 0x800 <= a * 4096 + d * 64 + e
    ensures Utf8Bytes(a * 4096 + d * 64 + e) == [0xE0 + a, 0x80 + d, 0x80 + e]
  {
    Digits(a * 4096 + d * 64 + e, a, 0, d, e);
  }

  lemma EncodeFour(a: int, b: int, d: int, e: int)
    requires 0 <= a < 8 && 0 <= b < 64 && 0 <= d < 64 && 0 <= e < 64
    requires 0x10000 <= a * 262144 + b * 4096 + d * 64 + e < 0x110000
    ensures Utf8Bytes(a * 262144 + b * 4096 + d * 64 + e) == [0xF0 + a, 0x80 + b, 0x80 + d, 0x80 + e]
  {
    Digits(a * 262144 + b * 4096 + d * 64 + e, a, b, d, e);
  }

  lemma PayloadOf(b: Byte)
    requires Continuation(b)
    ensures b as int == 0x80 + Payload(b) && 0 <= Payload(b) < 64
  {
  }

  lemma DecodedTwo(bytes: seq<Byte>, c: int)
    requires DecodeOne(bytes) == Some((c, 2))
    ensures bytes[..2] == Utf8Bytes(c)
  {
    hide Utf8Bytes, Payload;
    PayloadOf(bytes[1]);
    EncodeTwo(bytes[0] as int - 0xC0, Payload(bytes[1]));
  }

  lemma DecodedThree(bytes: seq<Byte>, c: int)
    requires DecodeOne(bytes) == Some((c, 3))
    ensures bytes[..3] == Utf8Bytes(c)
  {
    hide Utf8Bytes, Payload;
    PayloadOf(bytes[1]);
    PayloadOf(bytes[2]);
    EncodeThree(bytes[0] as int - 0xE0, Payload(bytes[1]), Payload(bytes[2]));
  }

  lemma DecodedFour(bytes: seq<Byte>, c: int)
    requires DecodeOne(bytes) == Some((c, 4))
    ensures bytes[..4] == Utf8Bytes(c)
  {
    hide Utf8Bytes, Payload;
    PayloadOf(bytes[1]);
    PayloadOf(bytes[2]);
    PayloadOf(bytes[3]);
    EncodeFour(bytes[0] as int - 0xF0, Payload(bytes[1]), Payload(bytes[2]), Payload(bytes[3]));
  }

  /** What the decoder accepts is what the encoder writes for the same character. */
  lemma EncodeAfterDecodeOne(bytes: seq<Byte>)
    requires DecodeOne(bytes).Some?
    ensures bytes[..DecodeOne(bytes).value.1] == Utf8Bytes(DecodeOne(bytes).value.0)
  {
    var (c, width) := DecodeOne(bytes).value;
    if width == 2 {
      DecodedTwo(bytes, c);
    } else if width == 3 {
      DecodedThree(bytes, c);
    } else if width == 4 {
      DecodedFour(bytes, c);
    }
  }

  lemma DecodeTwo(c: int, rest: seq<Byte>)
    requires 0x80 <= c < 0x800
    ensures DecodeOne(Utf8Bytes(c) + rest) == Some((c, 2))
  {
    DigitsSum(c);
    var bytes := Utf8Bytes(c) + rest;
    assert bytes[0] == 0xC0 + c / 64 && bytes[1] == 0x80 + c % 64;
    assert Payload(bytes[1]) == c % 64;
  }

  lemma DecodeThree(c: int, rest: seq<Byte>)
    requires 0x800 <= c < 0x10000 && Scalar(c)
    ensures DecodeOne(Utf8Bytes(c) + rest) == Some((c, 3))
  {
    DigitsSum(c);
    var bytes := Utf8Bytes(c) + rest;
    assert bytes[0] == 0xE0 + c / 4096 && bytes[1] == 0x80 + c / 64 % 64 && bytes[2] == 0x80 + c % 64;
    assert Payload(bytes[1]) == c / 64 % 64 && Payload(bytes[2]) == c % 64;
  }

  lemma DecodeFour(c: int, rest: seq<Byte>)
    requires 0x10000 <= c < 0x110000
    ensures DecodeOne(Utf8Bytes(c) + rest) == Some((c, 4))
  {
    DigitsSum(c);
    var bytes := Utf8Bytes(c) + rest;
    assert bytes[0] == 0xF0 + c / 262144 && bytes[1] == 0x80 + c / 4096 % 64;
    assert bytes[2] == 0x80 + c / 64 % 64 && bytes[3] == 0x80 + c % 64;
    assert Payload(bytes[1]) == c / 4096 % 64 && Payload(bytes[2]) == c / 64 % 64 && Payload(bytes[3]) == c % 64;
  }

  /** The decoder recognises what the encoder wrote, whatever follows it. */
  lemma DecodeOneAfterEncode(c: int, rest: seq<Byte>)
    requires Scalar(c)
    ensures DecodeOne(Utf8Bytes(c) + rest) == Some((c, |Utf8Bytes(c)|))
  {
    if 0x10000 <= c {
      DecodeFour(c, rest);
    } else if 0x800 <= c {
      DecodeThree(c, rest);
    } else if 0x80 <= c {
      DecodeTwo(c, rest);
    }
  }

  predicate CodePoints(cs: seq<int>) {
    forall i :: 0 <= i < |cs| ==> 0 <= cs[i] < 0x110000
  }

  predicate Scalars(cs: seq<int>) {
    forall i :: 0 <= i < |cs| ==> Scalar(cs[i])
  }

  function Encode(cs: seq<int>): seq<Byte>
    requires CodePoints(cs)
  {
    if cs == [] then [] else Utf8Bytes(cs[0]) + Encode(cs[1..])
  }

  function Decode(bytes: seq<Byte>): (r: Option<seq<int>>)
    ensures r.Some? ==> Scalars(r.value)
    decreases |bytes|
  {
    if bytes == [] then Some([])
    else
      match DecodeOne(bytes)
      case None => None
      case Some((c, width)) =>
        match Decode(bytes[width..])
        case None => None
        case Some(rest) => Some([c] + rest)
  }

  lemma DecodeFront(bytes: seq<Byte>, c: int, width: nat)
    requires DecodeOne(bytes) == Some((c, width))
    ensures 1 <= width <= |bytes| && bytes[..width] == Utf8Bytes(c) && Scalar(c)
    ensures Decode(bytes) == match Decode(bytes[width..]) case None => None case Some(rest) => Some([c] + rest)
  {
    EncodeAfterDecodeOne(bytes);
  }

  predicate Valid(bytes: seq<Byte>) {
    Decode(bytes).Some?
  }

  lemma {:induction false} DecodeAfterEncode(cs: seq<int>)
    requires Scalars(cs)
    ensures CodePoints(cs)
    ensures Decode(Encode(cs)) == Some(cs)
  {
    hide Utf8Bytes, DecodeOne;
    if cs != [] {
      var head := Utf8Bytes(cs[0]);
      var bytes := Encode(cs);
      DecodeOneAfterEncode(cs[0], Encode(cs[1..]));
      assert bytes[|head|..] == Encode(cs[1..]);
      DecodeAfterEncode(cs[1..]);
      assert [cs[0]] + cs[1..] == cs;
      DecodeFront(bytes, cs[0], |head|);
    }
  }

  /** Accepted bytes are exactly the encoding of the text they decode to. */
  lemma {:induction false} EncodeAfterDecode(bytes: seq<Byte>)
    requires Valid(bytes)
    ensures Encode(Decode(bytes).value) == bytes
    decreases |bytes|
  {
    hide DecodeOne, Utf8Bytes;
    if bytes != [] {
      var (c, width) := DecodeOne(bytes).value;
      DecodeFront(bytes, c, width);
      EncodeAfterDecode(bytes[width..]);
      var rest := Decode(bytes[width..]).value;
      assert ([c] + rest)[1..] == rest;
      assert bytes == bytes[..width] + bytes[width..];
    }
  }

  lemma {:induction false} EncodeConcat(a: seq<int>, b: seq<int>)
    requires CodePoints(a) && CodePoints(b)
    ensures CodePoints(a + b)
    ensures Encode(a + b) == Encode(a) + Encode(b)
  {
    hide Utf8Bytes;
    if a == [] {
      assert a + b == b;
    } else {
      EncodeConcat(a[1..], b);
      assert (a + b)[1..] == a[1..] + b;
    }
  }

  // ------------------------------------------------------------------ strings

  /** The bytes of a Rust string, whose characters are Unicode scalar values. */
  function OfString(s: string): seq<Byte> {
    if s == "" then [] else Utf8Bytes(s[0] as int) + OfString(s[1..])
  }

  /** `str::len`: a string's length in bytes. */
  function ByteLen(s: string): nat {
    if s == "" then 0 else |Utf8Bytes(s[0] as int)| + ByteLen(s[1..])
  }

  lemma {:induction false} OfStringConcat(a: string, b: string)
    ensures OfString(a + b) == OfString(a) + OfString(b)
    ensures ByteLen(a + b) == ByteLen(a) + ByteLen(b)
  {
    hide Utf8Bytes;
    if a == "" {
      assert a + b == b;
    } else {
      OfStringConcat(a[1..], b);
      assert (a + b)[1..] == a[1..] + b;
    }
  }

  lemma {:induction false} ByteLenIsLength(s: string)
    ensures ByteLen(s) == |OfString(s)|
  {
    hide Utf8Bytes;
    if s != "" {
      ByteLenIsLength(s[1..]);
    }
  }

  /** Two strings with the same bytes are the same string. */
  lemma {:induction false} OfStringInjective(a: string, b: string)
    requires OfString(a) == OfString(b)
    ensures a == b
  {
    hide Utf8Bytes, DecodeOne;
    if a != "" && b != "" {
      var x, y := a[0] as int, b[0] as int;
      DecodeOneAfterEncode(x, OfString(a[1..]));
      DecodeOneAfterEncode(y, OfString(b[1..]));
      assert x == y;
      assert OfString(a)[|Utf8Bytes(x)|..] == OfString(a[1..]);
      assert OfString(b)[|Utf8Bytes(y)|..] == OfString(b[1..]);
      OfStringInjective(a[1..], b[1..]);
    }
  }

  /** `String::from_utf8`: the string with exactly these bytes, if there is one. */
  function StringOf(bytes: seq<Byte>): (r: Option<string>)
    decreases |bytes|
  {
    if bytes == [] then Some("")
    else
      match DecodeOne(bytes)
      case None => None
      case Some((c, width)) =>
        match StringOf(bytes[width..])
        case None => None
        case Some(rest) => Some([c as char] + rest)
  }

  lemma {:induction false} StringOfBytes(s: string)
    ensures StringOf(OfString(s)) == Some(s)
  {
    hide Utf8Bytes, DecodeOne;
    if s != "" {
      var head := Utf8Bytes(s[0] as int);
      DecodeOneAfterEncode(s[0] as int, OfString(s[1..]));
      assert DecodeOne(OfString(s)) == Some((s[0] as int, |head|));
      assert OfString(s)[|head|..] == OfString(s[1..]);
      StringOfBytes(s[1..]);
      assert [s[0]] + s[1..] == s;
    }
  }

  lemma {:induction false} BytesOfString(bytes: seq<Byte>)
    requires StringOf(bytes).Some?
    ensures OfString(StringOf(bytes).value) == bytes
    decreases |bytes|
  {
    hide DecodeOne, Utf8Bytes;
    if bytes != [] {
      var (c, width) := DecodeOne(bytes).value;
      EncodeAfterDecodeOne(bytes);
      BytesOfString(bytes[width..]);
      var rest := StringOf(bytes[width..]).value;
      assert ([c as char] + rest)[1..] == rest;
      assert bytes == bytes[..width] + bytes[width..];
    }
  }
}
