// JSON objects with a fixed set of members, and their canonical bytes.
module Records {
  import opened Basics
  import opened Json
  import opened CanonicalJson
  import opened JsonParser
  import Utf8

  predicate SortedKeys(keys: seq<string>) {
    forall i, j :: 0 <= i < j < |keys| ==> Before(keys[i], keys[j])
  }

  /** Two strings that first differ at `i`. */
  lemma {:induction false} BeforeAt(a: string, b: string, i: nat)
    requires i < |a| && i < |b| && a[..i] == b[..i] && a[i] < b[i]
    ensures Before(a, b)
    decreases i
  {
    if i > 0 {
      assert a[0] == a[..i][0] == b[..i][0] == b[0];
      assert a[1..][..i - 1] == a[..i][1..] == b[..i][1..] == b[1..][..i - 1];
      BeforeAt(a[1..], b[1..], i - 1);
    }
  }

  /** Sortedness needs only neighbours. */
  lemma {:induction false} NeighboursSorted(keys: seq<string>)
    requires forall i :: 0 <= i < |keys| - 1 ==> Before(keys[i], keys[i + 1])
    ensures SortedKeys(keys)
  {
    forall i, j | 0 <= i < j < |keys|
      ensures Before(keys[i], keys[j])
    {
      NeighboursReach(keys, i, j);
    }
  }

  lemma {:induction false} NeighboursReach(keys: seq<string>, i: nat, j: nat)
    requires i < j < |keys| && forall i :: 0 <= i < |keys| - 1 ==> Before(keys[i], keys[i + 1])
    ensures Before(keys[i], keys[j])
    decreases j
  {
    if i + 1 < j {
      NeighboursReach(keys, i, j - 1);
      BeforeTransitive(keys[i], keys[j - 1], keys[j]);
    }
  }

  function Fields(keys: seq<string>, values: seq<Value>): (r: seq<Field>)
    requires |keys| == |values|
    ensures |r| == |keys| && forall i :: 0 <= i < |r| ==> r[i] == Field(keys[i], values[i])
  {
    seq(|keys|, i requires 0 <= i < |keys| => Field(keys[i], values[i]))
  }

  /** An object with these members. Callers list keys in sorted order; printing would sort them anyway. */
  function ObjectOf(keys: seq<string>, values: seq<Value>): Value
    requires |keys| == |values|
  {
    Obj(Fields(keys, values))
  }

  /** The member values of an object that has exactly these keys in this order. */
  function Members(v: Value, keys: seq<string>): (r: seq<Value>)
    ensures |r| == |keys|
  {
    if v.Obj? && |v.fields| == |keys| && forall i :: 0 <= i < |keys| ==> v.fields[i].key == keys[i] then
      seq(|keys|, i requires 0 <= i < |keys| => v.fields[i].value)
    else seq(|keys|, i => Null)
  }

  lemma MembersOfRecord(keys: seq<string>, values: seq<Value>)
    requires |keys| == |values|
    ensures Members(ObjectOf(keys, values), keys) == values
  {
  }

  predicate Normal(v: Value) {
    Normalize(v) == v
  }

  function NormalizeValues(values: seq<Value>): (r: seq<Value>)
    ensures |r| == |values| && forall i :: 0 <= i < |r| ==> r[i] == Normalize(values[i])
  {
    seq(|values|, i requires 0 <= i < |values| => Normalize(values[i]))
  }

  lemma {:induction false} SortedFieldsNormalize(fields: seq<Field>)
    requires KeysIncrease(fields)
    ensures NormalizeFields(fields) == NormalizeEach(fields)
  {
    if fields != [] {
      SortedFieldsNormalize(fields[1..]);
      assert NormalizeEach(fields)[1..] == NormalizeEach(fields[1..]);
      var rest := NormalizeEach(fields[1..]);
      assert rest != [] ==> rest[0].key == fields[1].key && Before(fields[0].key, fields[1].key);
      if rest != [] {
        BeforeTrichotomy(fields[0].key, fields[1].key);
      }
    }
  }

  /** Normalizing a record normalizes its members in place. */
  lemma RecordNormalizes(keys: seq<string>, values: seq<Value>)
    requires |keys| == |values| && SortedKeys(keys)
    ensures Normalize(ObjectOf(keys, values)) == ObjectOf(keys, NormalizeValues(values))
  {
    SortedFieldsNormalize(Fields(keys, values));
    assert NormalizeEach(Fields(keys, values)) == Fields(keys, NormalizeValues(values));
  }

  lemma RecordIsNormal(keys: seq<string>, values: seq<Value>)
    requires |keys| == |values| && SortedKeys(keys)
    requires forall i :: 0 <= i < |values| ==> Normal(values[i])
    ensures Normal(ObjectOf(keys, values))
  {
    RecordNormalizes(keys, values);
    assert NormalizeValues(values) == values;
  }

  lemma RecordHasIntegers(keys: seq<string>, values: seq<Value>)
    requires |keys| == |values| && forall i :: 0 <= i < |values| ==> IntegersOnly(values[i])
    ensures IntegersOnly(ObjectOf(keys, values))
  {
  }

  // ----------------------------------------------------------------- bytes

  const MAX_BODY := 32768

  /** The canonical bytes, refused for floating-point members and oversized bodies. */
  function CanonicalBytes(v: Value): Result<seq<Byte>> {
    if !IntegersOnly(v) then Err(InvalidInput)
    else if Utf8.ByteLen(CanonicalText(v)) > MAX_BODY then Err(TooLarge)
    else Ok(Utf8.OfString(CanonicalText(v)))
  }

  function ParseBytes(bytes: seq<Byte>): Option<Value> {
    match Utf8.StringOf(bytes)
    case None => None
    case Some(text) => Parse(text)
  }

  /** Canonical bytes survive a parse: what comes back is the normal form. */
  lemma CanonicalBytesReadBack(v: Value)
    requires CanonicalBytes(v).Ok?
    ensures ParseBytes(CanonicalBytes(v).value) == Some(Normalize(v))
  {
    Utf8.StringOfBytes(CanonicalText(v));
    CanonicalReadsBack(v);
  }

  /** Equal canonical bytes come from equal values. */
  lemma CanonicalBytesIdentify(v: Value, w: Value)
    requires CanonicalBytes(v).Ok? && CanonicalBytes(v) == CanonicalBytes(w)
    ensures Normalize(v) == Normalize(w)
  {
    CanonicalBytesReadBack(v);
    CanonicalBytesReadBack(w);
  }

  /** The canonical bytes of a value and of its normal form are the same. */
  lemma CanonicalBytesOfNormal(v: Value)
    requires CanonicalBytes(v).Ok?
    ensures CanonicalBytes(Normalize(v)) == CanonicalBytes(v)
  {
    NormalizeIdempotent(v);
    NormalizeKeepsIntegers(v);
  }
}
