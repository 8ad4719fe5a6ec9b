// The hand-written UTF-8 encoder of the JavaScript runtime, over UTF-16 strings.
module TextEncoder {
  import opened Basics
  import Utf8

  type Unit = u: int | 0 <= u < 0x10000

  predicate High(u: Unit) {
    0xD800 <= u < 0xDC00
  }

  predicate Low(u: Unit) {
    0xDC00 <= u < 0xE000
  }

  /** `codePointAt`: a surrogate pair is one code point, a lone surrogate stands for itself. */
  function CodePointAt(s: seq<Unit>, i: nat): (c: int)
    requires i < |s|
    ensures 0 <= c < 0x110000
  {
    if High(s[i]) && i + 1 < |s| && Low(s[i + 1]) then 0x10000 + (s[i] as int - 0xD800) * 0x400 + (s[i + 1] as int - 0xDC00)
    else s[i]
  }

  function Width(s: seq<Unit>, i: nat): (w: nat)
    requires i < |s|
    ensures 1 <= w <= 2 && i + w <= |s|
  {
    if CodePointAt(s, i) > 0xFFFF then 2 else 1
  }

  /** The code points from unit `i` on. */
  function CodePoints(s: seq<Unit>, i: nat): (cs: seq<int>)
    requires i <= |s|
    ensures Utf8.CodePoints(cs)
    decreases |s| - i
  {
    if i == |s| then [] else [CodePointAt(s, i)] + CodePoints(s, i + Width(s, i))
  }

  /** Unit positions where a code point starts. */
  predicate Boundary(s: seq<Unit>, from: nat, i: nat)
    requires from <= |s|
    decreases |s| - from
  {
    from == i || (from < |s| && Boundary(s, from + Width(s, from), i))
  }

  /** Every surrogate belongs to a pair. */
  predicate WellFormed(s: seq<Unit>, i: nat)
    requires i <= |s|
    decreases |s| - i
  {
    i == |s| || (Utf8.Scalar(CodePointAt(s, i)) && WellFormed(s, i + Width(s, i)))
  }

  function EncodedFrom(s: seq<Unit>, i: nat): seq<Byte>
    requires i <= |s|
  {
    Utf8.Encode(CodePoints(s, i))
  }

  method Encode(s: seq<Unit>) returns (out: seq<Byte>)
    ensures out == EncodedFrom(s, 0)
  {
    hide CodePointAt, Utf8.Utf8Bytes;
    out := [];
    var i := 0;
    while i < |s|
      invariant 0 <= i <= |s|
      invariant out + EncodedFrom(s, i) == EncodedFrom(s, 0)
    {
      var c := CodePointAt(s, i);
      EncodeStep(s, i);
      assert out + (Utf8.Utf8Bytes(c) + EncodedFrom(s, i + Width(s, i))) == (out + Utf8.Utf8Bytes(c)) + EncodedFrom(s, i + Width(s, i));
      if c > 0xFFFF {
        i := i + 1;
      }
      out := out + Utf8.Utf8Bytes(c);
      i := i + 1;
    }
    assert out + [] == out;
  }

  lemma EncodeStep(s: seq<Unit>, i: nat)
    requires i < |s|
    ensures EncodedFrom(s, i) == Utf8.Utf8Bytes(CodePointAt(s, i)) + EncodedFrom(s, i + Width(s, i))
  {
    assert CodePoints(s, i)[1..] == CodePoints(s, i + Width(s, i));
  }

  lemma {:induction false} WellFormedIsScalar(s: seq<Unit>, i: nat)
    requires i <= |s| && WellFormed(s, i)
    ensures Utf8.Scalars(CodePoints(s, i))
    decreases |s| - i
  {
    if i < |s| {
      WellFormedIsScalar(s, i + Width(s, i));
    }
  }

  /** The UTF-16 units of a list of code points. */
  function Units(cs: seq<int>): seq<Unit>
    requires Utf8.CodePoints(cs)
  {
    if cs == [] then [] else UnitsOf(cs[0]) + Units(cs[1..])
  }

  function UnitsOf(c: int): seq<Unit>
    requires 0 <= c < 0x110000
  {
    if c > 0xFFFF then [0xD800 + (c - 0x10000) / 0x400, 0xDC00 + (c - 0x10000) % 0x400] else [c]
  }

  /** A code point's units are the ones it was read from. */
  lemma OwnUnits(s: seq<Unit>, i: nat)
    requires i < |s|
    ensures UnitsOf(CodePointAt(s, i)) == s[i..i + Width(s, i)]
  {
    if CodePointAt(s, i) > 0xFFFF {
      var high, low := s[i] as int - 0xD800, s[i + 1] as int - 0xDC00;
      assert CodePointAt(s, i) - 0x10000 == high * 0x400 + low;
      assert s[i..i + 2] == [s[i], s[i + 1]];
    } else {
      assert s[i..i + 1] == [s[i]];
    }
  }

  lemma {:induction false} UnitsOfCodePoints(s: seq<Unit>, i: nat)
    requires i <= |s|
    ensures Units(CodePoints(s, i)) == s[i..]
    decreases |s| - i
  {
    hide CodePointAt, UnitsOf;
    if i < |s| {
      UnitsOfCodePoints(s, i + Width(s, i));
      assert CodePoints(s, i)[1..] == CodePoints(s, i + Width(s, i));
      OwnUnits(s, i);
      assert s[i..] == s[i..i + Width(s, i)] + s[i + Width(s, i)..];
    }
  }

  /** Decoding the encoding of a well-formed string gives the string back. */
  lemma EncodingDecodes(s: seq<Unit>)
    requires WellFormed(s, 0)
    ensures Utf8.Decode(EncodedFrom(s, 0)).Some?
    ensures Units(Utf8.Decode(EncodedFrom(s, 0)).value) == s
  {
    WellFormedIsScalar(s, 0);
    Utf8.DecodeAfterEncode(CodePoints(s, 0));
    UnitsOfCodePoints(s, 0);
    assert s[0..] == s;
  }

  /** A lone surrogate is written as three bytes that no UTF-8 decoder accepts. */
  lemma LoneSurrogateIsNotUtf8(c: int, rest: seq<Byte>)
    requires 0 <= c < 0x110000 && !Utf8.Scalar(c)
    ensures Utf8.DecodeOne(Utf8.Utf8Bytes(c) + rest).None?
  {
    var bytes := Utf8.Utf8Bytes(c);
    assert bytes == [0xE0 + c / 4096, 0x80 + c / 64 % 64, 0x80 + c % 64];
    assert (bytes + rest)[0] == bytes[0] && (bytes + rest)[1] == bytes[1] && (bytes + rest)[2] == bytes[2];
    assert c / 4096 == 13;
    Utf8.DigitsSum(c);
  }

  /** The encoder's output is UTF-8 exactly when every surrogate of the input belongs to a pair. */
  lemma {:induction false} OutputIsUtf8(s: seq<Unit>, i: nat)
    requires i <= |s|
    ensures Utf8.Valid(EncodedFrom(s, i)) <==> WellFormed(s, i)
    decreases |s| - i
  {
    hide CodePointAt, Utf8.Utf8Bytes, Utf8.DecodeOne;
    if i < |s| {
      var c, next := CodePointAt(s, i), i + Width(s, i);
      EncodeStep(s, i);
      OutputIsUtf8(s, next);
      if Utf8.Scalar(c) {
        Utf8.DecodeOneAfterEncode(c, EncodedFrom(s, next));
        Utf8.DecodeFront(EncodedFrom(s, i), c, |Utf8.Utf8Bytes(c)|);
        assert EncodedFrom(s, i)[|Utf8.Utf8Bytes(c)|..] == EncodedFrom(s, next);
      } else {
        LoneSurrogateIsNotUtf8(c, EncodedFrom(s, next));
      }
    }
  }

  // --------------------------------------------------------------- encodeInto

  lemma {:induction false} BoundaryReach(s: seq<Unit>, from: nat, i: nat)
    requires from <= |s| && Boundary(s, from, i)
    ensures from <= i <= |s|
    ensures from < i ==> from + Width(s, from) <= i
    decreases |s| - from
  {
    if from != i {
      BoundaryReach(s, from + Width(s, from), i);
    }
  }

  lemma {:induction false} BoundaryNext(s: seq<Unit>, from: nat, i: nat)
    requires from <= |s| && Boundary(s, from, i) && i < |s|
    ensures Boundary(s, from, i + Width(s, i))
    decreases |s| - from
  {
    if from != i {
      BoundaryNext(s, from + Width(s, from), i);
    }
  }

  /** A position between code points never separates the halves of a surrogate pair. */
  lemma {:induction false} BoundaryKeepsPairs(s: seq<Unit>, from: nat, i: nat)
    requires from < i < |s| && Boundary(s, from, i)
    ensures !(High(s[i - 1]) && Low(s[i]))
    decreases |s| - from
  {
    var next := from + Width(s, from);
    BoundaryReach(s, from, i);
    if next < i {
      BoundaryKeepsPairs(s, next, i);
    }
  }

  lemma PrefixSameCodePoint(s: seq<Unit>, from: nat, i: nat)
    requires from < i <= |s| && from + Width(s, from) <= i
    ensures CodePointAt(s[..i], from) == CodePointAt(s, from) && Width(s[..i], from) == Width(s, from)
  {
  }

  lemma {:induction false} PrefixIsDone(s: seq<Unit>, i: nat, done: seq<int>)
    requires i <= |s| && Boundary(s, 0, i) && CodePoints(s, 0) == done + CodePoints(s, i)
    ensures CodePoints(s[..i], 0) == done
  {
    hide CodePoints, Boundary;
    PrefixCodePoints(s, 0, i);
    var rest := CodePoints(s, i);
    assert |done + rest| == |CodePoints(s[..i], 0) + rest|;
    assert (done + rest)[..|done|] == done;
    assert (CodePoints(s[..i], 0) + rest)[..|done|] == CodePoints(s[..i], 0);
  }

  /** Cutting a string between code points cuts its list of code points. */
  lemma {:induction false} PrefixCodePoints(s: seq<Unit>, from: nat, i: nat)
    requires from <= i <= |s| && Boundary(s, from, i)
    ensures CodePoints(s, from) == CodePoints(s[..i], from) + CodePoints(s, i)
    decreases |s| - from
  {
    hide CodePointAt, Width;
    if from < i {
      BoundaryReach(s, from, i);
      PrefixSameCodePoint(s, from, i);
      PrefixCodePoints(s, from + Width(s, from), i);
    }
  }

  /**
   * Writes as many whole code points as fit and reports units read and bytes written:
   * exactly the encoding of what was read, no pair split, nothing past the buffer
   * touched, and a stop only when the next code point does not fit.
   */
  method EncodeInto(src: seq<Unit>, dest: array<Byte>) returns (read: nat, written: nat)
    modifies dest
    ensures read <= |src| && written <= dest.Length
    ensures dest[..written] == EncodedFrom(src[..read], 0)
    ensures forall k :: written <= k < dest.Length ==> dest[k] == old(dest[k])
    ensures 0 < read < |src| ==> !(High(src[read - 1]) && Low(src[read]))
    ensures read < |src| ==> written + |Utf8.Utf8Bytes(CodePointAt(src, read))| > dest.Length
  {
    hide Utf8.Utf8Bytes, CodePointAt, CodePoints, Boundary, Width, Utf8.Encode;
    read, written := 0, 0;
    ghost var done: seq<int> := [];
    NothingEncoded(src);
    var i := 0;
    while i < |src|
      invariant 0 <= i <= |src| && read == i && written <= dest.Length && Boundary(src, 0, i)
      invariant Utf8.CodePoints(done) && CodePoints(src, 0) == done + CodePoints(src, i)
      invariant dest[..written] == Utf8.Encode(done)
      invariant forall k :: written <= k < dest.Length ==> dest[k] == old(dest[k])
      decreases |src| - i
    {
      var c := CodePointAt(src, i);
      var units := if c > 0xFFFF then 2 else 1;
      var bytes := Utf8.Utf8Bytes(c);
      if written + |bytes| > dest.Length {
        break;
      }
      ghost var before := dest[..written];
      SetBytes(dest, bytes, written);
      assert dest[..written + |bytes|] == before + bytes;
      written := written + |bytes|;
      BoundaryNext(src, 0, i);
      Utf8.EncodeConcat(done, [c]);
      assert Utf8.Encode([c]) == bytes by { OneEncoded(c); }
      CodePointsStep(src, i);
      assert done + ([c] + CodePoints(src, i + units)) == (done + [c]) + CodePoints(src, i + units);
      done := done + [c];
      i := i + units;
      read := i;
    }
    PrefixIsDone(src, read, done);
    if 0 < read < |src| {
      BoundaryKeepsPairs(src, 0, read);
    }
  }

  lemma NothingEncoded(s: seq<Unit>)
    ensures Boundary(s, 0, 0) && Utf8.Encode([]) == []
  {
  }

  lemma CodePointsStep(s: seq<Unit>, i: nat)
    requires i < |s|
    ensures CodePoints(s, i) == [CodePointAt(s, i)] + CodePoints(s, i + Width(s, i))
    ensures Width(s, i) == if CodePointAt(s, i) > 0xFFFF then 2 else 1
  {
  }

  lemma OneEncoded(c: int)
    requires 0 <= c < 0x110000
    ensures Utf8.CodePoints([c]) && Utf8.Encode([c]) == Utf8.Utf8Bytes(c)
  {
    assert [c][1..] == [];
    assert Utf8.Encode([c]) == Utf8.Utf8Bytes(c) + Utf8.Encode([]);
    assert Utf8.Utf8Bytes(c) + [] == Utf8.Utf8Bytes(c);
  }

  /** `TypedArray.set`. */
  method SetBytes(dest: array<Byte>, bytes: seq<Byte>, at: nat)
    requires at + |bytes| <= dest.Length
    modifies dest
    ensures dest[at..at + |bytes|] == bytes
    ensures dest[..at] == old(dest[..at])
    ensures forall k :: at + |bytes| <= k < dest.Length ==> dest[k] == old(dest[k])
  {
    for k := 0 to |bytes|
      invariant dest[at..at + k] == bytes[..k]
      invariant dest[..at] == old(dest[..at])
      invariant forall j :: at + k <= j < dest.Length ==> dest[j] == old(dest[j])
    {
      dest[at + k] := bytes[k];
    }
  }
}
