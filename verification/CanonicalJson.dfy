// The canonical printer of the decision audit: keys sorted, integers only.
module CanonicalJson {
  import opened Basics
  import opened Json
  import opened JsonParser

  // ------------------------------------------------------------ sorted keys

  /** Keys never decrease from left to right. */
  predicate Ordered(fields: seq<Field>) {
    forall i, j :: 0 <= i < j < |fields| ==> !Before(fields[j].key, fields[i].key)
  }

  function SortFields(fields: seq<Field>): (r: seq<Field>)
    ensures multiset(r) == multiset(fields)
  {
    if fields == [] then []
    else
      assert fields == [fields[0]] + fields[1..];
      Insert(fields[0], SortFields(fields[1..]))
  }

  lemma NotBeforeTransitive(a: string, b: string, c: string)
    requires !Before(b, a) && !Before(c, b)
    ensures !Before(c, a)
  {
    BeforeTrichotomy(a, b);
    BeforeTrichotomy(b, c);
    if Before(c, a) {
      BeforeTrichotomy(a, c);
      if a != b && b != c {
        BeforeTransitive(a, b, c);
      }
    }
  }

  lemma {:induction false} InsertKeepsOrder(field: Field, fields: seq<Field>)
    requires Ordered(fields)
    ensures Ordered(Insert(field, fields))
  {
    var r := Insert(field, fields);
    if fields == [] {
    } else if !Before(fields[0].key, field.key) {
      forall i, j | 0 <= i < j < |r|
        ensures !Before(r[j].key, r[i].key)
      {
        if i == 0 && j > 1 {
          NotBeforeTransitive(field.key, fields[0].key, fields[j - 1].key);
        }
      }
    } else {
      var rest := Insert(field, fields[1..]);
      InsertKeepsOrder(field, fields[1..]);
      BeforeTrichotomy(fields[0].key, field.key);
      forall j | 1 <= j < |r|
        ensures !Before(r[j].key, r[0].key)
      {
        assert r[j] in multiset(rest);
        assert r[j] == field || r[j] in fields[1..];
      }
    }
  }

  lemma {:induction false} SortedIsOrdered(fields: seq<Field>)
    ensures Ordered(SortFields(fields))
  {
    if fields != [] {
      SortedIsOrdered(fields[1..]);
      InsertKeepsOrder(fields[0], SortFields(fields[1..]));
    }
  }

  function NormalizeEach(fields: seq<Field>): (r: seq<Field>)
    ensures |r| == |fields|
    ensures forall i :: 0 <= i < |r| ==> r[i] == Field(fields[i].key, Normalize(fields[i].value))
  {
    if fields == [] then []
    else [Field(fields[0].key, Normalize(fields[0].value))] + NormalizeEach(fields[1..])
  }

  lemma {:induction false} NormalizeEachInsert(field: Field, fields: seq<Field>)
    ensures NormalizeEach(Insert(field, fields))
            == Insert(Field(field.key, Normalize(field.value)), NormalizeEach(fields))
  {
    if fields == [] || !Before(fields[0].key, field.key) {
      assert ([field] + fields)[1..] == fields;
    } else {
      NormalizeEachInsert(field, fields[1..]);
      assert ([fields[0]] + Insert(field, fields[1..]))[1..] == Insert(field, fields[1..]);
      assert NormalizeEach(fields)[1..] == NormalizeEach(fields[1..]);
    }
  }

  /** Sorting first and normalising the members afterwards gives the same fields. */
  lemma {:induction false} NormalizeFieldsSorts(fields: seq<Field>)
    ensures NormalizeFields(fields) == NormalizeEach(SortFields(fields))
  {
    if fields != [] {
      NormalizeFieldsSorts(fields[1..]);
      NormalizeEachInsert(fields[0], SortFields(fields[1..]));
    }
  }

  lemma NormalizedIsOrdered(fields: seq<Field>)
    ensures Ordered(NormalizeFields(fields))
  {
    NormalizeFieldsSorts(fields);
    SortedIsOrdered(fields);
  }

  // -------------------------------------------------- the normal form is one

  lemma {:induction false} NormalizeIdempotent(v: Value)
    ensures Normalize(Normalize(v)) == Normalize(v)
    decreases v
  {
    match v
    case Arr(items) => NormalizeItemsIdempotent(items);
    case Obj(fields) =>
      NormalizedIsOrdered(fields);
      NormalizeFieldsFixed(fields);
      OrderedFieldsStay(NormalizeFields(fields));
    case _ =>
  }

  lemma {:induction false} NormalizeItemsIdempotent(items: seq<Value>)
    ensures NormalizeItems(NormalizeItems(items)) == NormalizeItems(items)
    decreases items
  {
    if items != [] {
      NormalizeIdempotent(items[0]);
      NormalizeItemsIdempotent(items[1..]);
      assert NormalizeItems(items)[1..] == NormalizeItems(items[1..]);
    }
  }

  /** Every member of a normalised object is already normal. */
  predicate MembersNormal(fields: seq<Field>) {
    forall i :: 0 <= i < |fields| ==> Normalize(fields[i].value) == fields[i].value
  }

  lemma {:induction false} NormalizeFieldsFixed(fields: seq<Field>)
    ensures MembersNormal(NormalizeFields(fields))
    decreases fields
  {
    if fields != [] {
      var head := Field(fields[0].key, Normalize(fields[0].value));
      var rest := NormalizeFields(fields[1..]);
      NormalizeIdempotent(fields[0].value);
      NormalizeFieldsFixed(fields[1..]);
      var r := Insert(head, rest);
      forall i | 0 <= i < |r|
        ensures Normalize(r[i].value) == r[i].value
      {
        assert r[i] in multiset(r);
        assert r[i] == head || r[i] in rest;
      }
    }
  }

  lemma {:induction false} OrderedFieldsStay(fields: seq<Field>)
    requires Ordered(fields) && MembersNormal(fields)
    ensures NormalizeFields(fields) == fields
  {
    if fields != [] {
      OrderedFieldsStay(fields[1..]);
      assert fields == [fields[0]] + fields[1..];
      if |fields| > 1 {
        assert !Before(fields[1].key, fields[0].key);
      }
    }
  }

  lemma {:induction false} NormalizeKeepsIntegers(v: Value)
    requires IntegersOnly(v)
    ensures IntegersOnly(Normalize(v))
    decreases v
  {
    match v
    case Arr(items) =>
      NormalizeItemsAt(items);
      forall i | 0 <= i < |items|
        ensures IntegersOnly(NormalizeItems(items)[i])
      {
        NormalizeKeepsIntegers(items[i]);
      }
    case Obj(fields) => NormalizeFieldsKeepIntegers(fields);
    case _ =>
  }

  predicate MembersIntegers(fields: seq<Field>) {
    forall i :: 0 <= i < |fields| ==> IntegersOnly(fields[i].value)
  }

  lemma {:induction false} NormalizeFieldsKeepIntegers(fields: seq<Field>)
    requires MembersIntegers(fields)
    ensures MembersIntegers(NormalizeFields(fields))
    decreases fields
  {
    if fields != [] {
      var head := Field(fields[0].key, Normalize(fields[0].value));
      var rest := NormalizeFields(fields[1..]);
      NormalizeKeepsIntegers(fields[0].value);
      NormalizeFieldsKeepIntegers(fields[1..]);
      InsertMembers(head, rest);
      var r := Insert(head, rest);
      assert forall i :: 0 <= i < |r| ==> r[i] == head || r[i] in rest;
    }
  }

  lemma InsertMembers(field: Field, fields: seq<Field>)
    ensures forall f :: f in Insert(field, fields) <==> f == field || f in fields
  {
    var r := Insert(field, fields);
    assert forall f :: f in multiset(r) <==> f == field || f in multiset(fields);
    assert forall f :: f in r <==> f in multiset(r);
  }

  lemma {:induction false} NormalizeItemsAt(items: seq<Value>)
    ensures forall i :: 0 <= i < |items| ==> NormalizeItems(items)[i] == Normalize(items[i])
  {
    if items != [] {
      NormalizeItemsAt(items[1..]);
      forall i | 0 <= i < |items|
        ensures NormalizeItems(items)[i] == Normalize(items[i])
      {
        if i > 0 {
          assert items[i] == items[1..][i - 1];
        }
      }
    }
  }

  // --------------------------------------------------------- main theorems

  /** The printer is invertible: the reader gives back the value it printed. */
  lemma CanonicalReadsBack(v: Value)
    requires IntegersOnly(v)
    ensures Parse(CanonicalText(v)) == Some(Normalize(v))
  {
    NormalizeKeepsIntegers(v);
    ValueReadsBack(Normalize(v), "");
    assert Text(Normalize(v)) + "" == CanonicalText(v);
  }

  /** Canonical texts agree exactly when the values are equal up to key order. */
  lemma CanonicalTextIdentifies(v: Value, w: Value)
    requires IntegersOnly(v) && IntegersOnly(w)
    ensures CanonicalText(v) == CanonicalText(w) <==> Same(v, w)
  {
    CanonicalReadsBack(v);
    CanonicalReadsBack(w);
  }

  /** A canonical document reprints as itself after a parse. */
  lemma CanonicalTextSurvivesParse(v: Value)
    requires IntegersOnly(v)
    ensures Parse(CanonicalText(v)).Some?
    ensures CanonicalText(Parse(CanonicalText(v)).value) == CanonicalText(v)
  {
    CanonicalReadsBack(v);
    NormalizeIdempotent(v);
  }

  // ------------------------------------------- equality of objects as maps

  predicate SameOption(a: Option<Value>, b: Option<Value>) {
    match (a, b)
    case (Some(v), Some(w)) => Same(v, w)
    case (None, None) => true
    case _ => false
  }

  function NormalizeOption(a: Option<Value>): Option<Value> {
    match a
    case Some(v) => Some(Normalize(v))
    case None => None
  }

  lemma {:induction false} LookupInsert(field: Field, fields: seq<Field>, key: string)
    requires field.key !in Keys(fields)
    ensures Lookup(Insert(field, fields), key) == if key == field.key then Some(field.value) else Lookup(fields, key)
  {
    if fields == [] || !Before(fields[0].key, field.key) {
      assert ([field] + fields)[1..] == fields;
      if key == field.key {
        assert Lookup([field] + fields, key) == Some(field.value);
      }
    } else {
      assert forall i :: 0 <= i < |fields| - 1 ==> fields[1..][i] == fields[i + 1];
      LookupInsert(field, fields[1..], key);
      assert ([fields[0]] + Insert(field, fields[1..]))[1..] == Insert(field, fields[1..]);
      assert fields[0].key in Keys(fields);
    }
  }

  lemma {:induction false} LookupNormalized(fields: seq<Field>, key: string)
    requires KeysUnique(fields)
    ensures Lookup(NormalizeFields(fields), key) == NormalizeOption(Lookup(fields, key))
    ensures Keys(NormalizeFields(fields)) == Keys(fields)
  {
    if fields != [] {
      var rest := fields[1..];
      var head := Field(fields[0].key, Normalize(fields[0].value));
      LookupNormalized(rest, key);
      assert fields[0].key !in Keys(rest);
      LookupInsert(head, NormalizeFields(rest), key);
      KeysInsert(head, NormalizeFields(rest));
      assert Keys(fields) == {fields[0].key} + Keys(rest) by {
        assert fields == [fields[0]] + rest;
        KeysPrepend(fields[0], rest);
      }
    }
  }

  lemma KeysPrepend(field: Field, fields: seq<Field>)
    ensures Keys([field] + fields) == {field.key} + Keys(fields)
  {
    var all := [field] + fields;
    assert all[0] == field;
    assert forall i :: 0 <= i < |fields| ==> all[i + 1] == fields[i];
    assert forall i :: 1 <= i < |all| ==> all[i] == fields[i - 1];
  }

  lemma {:induction false} KeysInsert(field: Field, fields: seq<Field>)
    ensures Keys(Insert(field, fields)) == {field.key} + Keys(fields)
  {
    if fields == [] || !Before(fields[0].key, field.key) {
      KeysPrepend(field, fields);
    } else {
      KeysInsert(field, fields[1..]);
      KeysPrepend(fields[0], Insert(field, fields[1..]));
      assert fields == [fields[0]] + fields[1..];
      KeysPrepend(fields[0], fields[1..]);
    }
  }

  lemma LookupOfKey(fields: seq<Field>)
    ensures forall key :: key in Keys(fields) <==> Lookup(fields, key).Some?
    ensures Keys(fields) == {} ==> fields == []
  {
    if fields != [] {
      assert fields[0].key in Keys(fields);
    }
  }

  /** Ordered fields without repeated keys are determined by their lookups. */
  lemma {:induction false} OrderedDetermined(a: seq<Field>, b: seq<Field>)
    requires KeysIncrease(a) && KeysIncrease(b)
    requires forall key :: Lookup(a, key) == Lookup(b, key)
    ensures a == b
  {
    LookupOfKey(a);
    LookupOfKey(b);
    assert Keys(a) == Keys(b);
    if a != [] && b != [] {
      assert Lookup(b, a[0].key).Some? && Lookup(a, b[0].key).Some?;
      var i :| 0 <= i < |b| && b[i].key == a[0].key;
      var j :| 0 <= j < |a| && a[j].key == b[0].key;
      BeforeTrichotomy(a[0].key, b[0].key);
      assert a[0].key == b[0].key;
      assert Lookup(a, a[0].key) == Some(a[0].value) && Lookup(b, a[0].key) == Some(b[0].value);
      forall key
        ensures Lookup(a[1..], key) == Lookup(b[1..], key)
      {
        if key == a[0].key {
          NoLaterKey(a);
          NoLaterKey(b);
        } else {
          assert Lookup(a, key) == Lookup(b, key);
        }
      }
      OrderedDetermined(a[1..], b[1..]);
      assert a == [a[0]] + a[1..] && b == [b[0]] + b[1..];
    }
  }

  lemma NoLaterKey(fields: seq<Field>)
    requires fields != [] && KeysIncrease(fields)
    ensures Lookup(fields[1..], fields[0].key) == None
  {
    BeforeTrichotomy(fields[0].key, fields[0].key);
    assert forall i :: 0 <= i < |fields| - 1 ==> fields[1..][i] == fields[i + 1];
  }

  lemma UniqueOrderedIncreases(fields: seq<Field>)
    requires Ordered(fields) && KeysUnique(fields)
    ensures KeysIncrease(fields)
  {
    forall i, j | 0 <= i < j < |fields|
      ensures Before(fields[i].key, fields[j].key)
    {
      BeforeTrichotomy(fields[i].key, fields[j].key);
    }
  }

  lemma {:induction false} NormalizedKeysUnique(fields: seq<Field>)
    requires KeysUnique(fields)
    ensures KeysIncrease(NormalizeFields(fields))
    decreases fields
  {
    if fields != [] {
      var rest := fields[1..];
      NormalizedKeysUnique(rest);
      LookupNormalized(rest, "");
      NormalizedIsOrdered(fields);
      var head := Field(fields[0].key, Normalize(fields[0].value));
      assert head.key !in Keys(NormalizeFields(rest));
      InsertUnique(head, NormalizeFields(rest));
      UniqueOrderedIncreases(NormalizeFields(fields));
    }
  }

  lemma {:induction false} InsertUnique(field: Field, fields: seq<Field>)
    requires KeysIncrease(fields) && field.key !in Keys(fields)
    ensures KeysUnique(Insert(field, fields))
  {
    forall i, j | 0 <= i < j < |fields|
      ensures fields[i].key != fields[j].key
    {
      BeforeTrichotomy(fields[i].key, fields[j].key);
    }
    InsertUniqueKeys(field, fields);
  }

  lemma {:induction false} InsertUniqueKeys(field: Field, fields: seq<Field>)
    requires KeysUnique(fields) && field.key !in Keys(fields)
    ensures KeysUnique(Insert(field, fields))
  {
    if fields == [] || !Before(fields[0].key, field.key) {
      assert forall i :: 0 <= i < |fields| ==> fields[i].key in Keys(fields);
    } else {
      var rest := fields[1..];
      assert fields == [fields[0]] + rest;
      KeysPrepend(fields[0], rest);
      InsertUniqueKeys(field, rest);
      KeysInsert(field, rest);
      var r := Insert(field, rest);
      assert fields[0].key !in Keys(rest);
      assert fields[0].key != field.key by { assert fields[0].key in Keys(fields); }
      assert forall i :: 0 <= i < |r| ==> r[i].key in Keys(r);
    }
  }

  /** Both objects bind exactly the same keys, each to the same value. */
  ghost predicate SameBindings(a: seq<Field>, b: seq<Field>) {
    forall key :: SameOption(Lookup(a, key), Lookup(b, key))
  }

  lemma SameObjectsByLookup(a: seq<Field>, b: seq<Field>)
    requires KeysUnique(a) && KeysUnique(b)
    requires SameBindings(a, b)
    ensures Same(Obj(a), Obj(b))
  {
    NormalizedKeysUnique(a);
    NormalizedKeysUnique(b);
    forall key
      ensures Lookup(NormalizeFields(a), key) == Lookup(NormalizeFields(b), key)
    {
      LookupNormalized(a, key);
      LookupNormalized(b, key);
      assert SameOption(Lookup(a, key), Lookup(b, key));
    }
    OrderedDetermined(NormalizeFields(a), NormalizeFields(b));
  }

  /** Two objects are the same value exactly when every key is bound to the same value. */
  lemma SameObjects(a: seq<Field>, b: seq<Field>)
    requires KeysUnique(a) && KeysUnique(b)
    ensures Same(Obj(a), Obj(b)) <==> SameBindings(a, b)
  {
    if Same(Obj(a), Obj(b)) {
      forall key
        ensures SameOption(Lookup(a, key), Lookup(b, key))
      {
        LookupNormalized(a, key);
        LookupNormalized(b, key);
      }
    }
    if SameBindings(a, b) {
      SameObjectsByLookup(a, b);
    }
  }
}
