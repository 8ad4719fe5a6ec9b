// The two canonical printers as they run: appending to one output, giving up early.
module Printers {
  import opened Basics
  import opened Json
  import opened CanonicalJson
  import opened GoalTypes
  import opened GoalRecords
  import Utf8

  // -------------------------------------------------- growing a list of parts

  /** What a list of members looks like after its first `i`. */
  function Joined(texts: seq<string>): string {
    if texts == [] then ""
    else if |texts| == 1 then texts[0]
    else Joined(texts[..|texts| - 1]) + "," + texts[|texts| - 1]
  }

  function ItemTexts(items: seq<Value>): (r: seq<string>)
    ensures |r| == |items| && forall i :: 0 <= i < |r| ==> r[i] == CanonicalText(items[i])
  {
    seq(|items|, i requires 0 <= i < |items| => CanonicalText(items[i]))
  }

  function FieldTexts(fields: seq<Field>): (r: seq<string>)
    ensures |r| == |fields| && forall i :: 0 <= i < |r| ==> r[i] == Quoted(fields[i].key) + ":" + CanonicalText(fields[i].value)
  {
    seq(|fields|, i requires 0 <= i < |fields| => Quoted(fields[i].key) + ":" + CanonicalText(fields[i].value))
  }

  lemma JoinedSnoc(texts: seq<string>, text: string)
    ensures Joined(texts + [text]) == if texts == [] then text else Joined(texts) + "," + text
  {
    assert (texts + [text])[..|texts|] == texts;
  }

  lemma {:induction false} JoinedFront(text: string, texts: seq<string>)
    ensures Joined([text] + texts) == if texts == [] then text else text + "," + Joined(texts)
    decreases |texts|
  {
    hide Joined;
    if texts == [] {
      assert [text] + texts == [] + [text];
      JoinedSnoc([], text);
    } else {
      var front, last := texts[..|texts| - 1], texts[|texts| - 1];
      assert texts == front + [last];
      assert [text] + texts == ([text] + front) + [last];
      JoinedFront(text, front);
      JoinedSnoc([text] + front, last);
      JoinedSnoc(front, last);
      Shift(text, Joined(front), last);
    }
  }

  lemma Shift(a: string, b: string, c: string)
    ensures (a + "," + b) + "," + c == a + "," + (b + "," + c)
  {
  }

  lemma {:induction false} ItemsAreJoined(items: seq<Value>)
    ensures ItemsText(NormalizeItems(items)) == Joined(ItemTexts(items))
    decreases |items|
  {
    hide Text, Normalize, Joined;
    if items == [] {
      JoinedNothing();
    } else {
      ItemsAreJoined(items[1..]);
      assert ItemTexts(items) == [CanonicalText(items[0])] + ItemTexts(items[1..]);
      JoinedFront(CanonicalText(items[0]), ItemTexts(items[1..]));
      var norm := NormalizeItems(items);
      assert norm[1..] == NormalizeItems(items[1..]) && norm[0] == Normalize(items[0]);
    }
  }

  lemma TextOfNormal(field: Field)
    ensures FieldText(Field(field.key, Normalize(field.value))) == Quoted(field.key) + ":" + CanonicalText(field.value)
  {
  }

  lemma {:induction false} FieldsAreJoined(sorted: seq<Field>)
    ensures FieldsText(NormalizeEach(sorted)) == Joined(FieldTexts(sorted))
    decreases |sorted|
  {
    hide Text, Normalize, Quoted, Joined, FieldText;
    if sorted == [] {
      JoinedNothing();
    } else {
      FieldsAreJoined(sorted[1..]);
      var text := Quoted(sorted[0].key) + ":" + CanonicalText(sorted[0].value);
      assert FieldTexts(sorted) == [text] + FieldTexts(sorted[1..]);
      JoinedFront(text, FieldTexts(sorted[1..]));
      var norm := NormalizeEach(sorted);
      assert norm[1..] == NormalizeEach(sorted[1..]);
      TextOfNormal(sorted[0]);
    }
  }

  lemma ArrayText(items: seq<Value>)
    ensures CanonicalText(Arr(items)) == "[" + Joined(ItemTexts(items)) + "]"
  {
    ItemsAreJoined(items);
  }

  lemma ObjectText(fields: seq<Field>)
    ensures CanonicalText(Obj(fields)) == "{" + Joined(FieldTexts(SortFields(fields))) + "}"
  {
    NormalizeFieldsSorts(fields);
    FieldsAreJoined(SortFields(fields));
  }

  lemma JoinedNext(texts: seq<string>, i: nat)
    requires i < |texts|
    ensures Joined(texts[..i + 1]) == if i == 0 then texts[0] else Joined(texts[..i]) + "," + texts[i]
  {
    assert texts[..i + 1][..i] == texts[..i];
  }

  lemma SortedMembers(fields: seq<Field>)
    ensures forall f :: f in SortFields(fields) <==> f in fields
    ensures |SortFields(fields)| == |fields|
  {
    assert forall f :: f in multiset(fields) <==> f in fields;
    assert forall f :: f in multiset(SortFields(fields)) <==> f in SortFields(fields);
    assert |multiset(SortFields(fields))| == |multiset(fields)|;
  }

  lemma SortedIsSmaller(fields: seq<Field>, f: Field)
    requires f in SortFields(fields)
    ensures f.value < Obj(fields)
  {
    SortedMembers(fields);
    var i :| 0 <= i < |fields| && fields[i] == f;
    assert fields[i].value < fields[i] < Obj(fields);
  }

  lemma SortedIntegers(fields: seq<Field>)
    ensures (forall i :: 0 <= i < |SortFields(fields)| ==> IntegersOnly(SortFields(fields)[i].value)) <==> IntegersOnly(Obj(fields))
  {
    hide SortFields;
    SortedMembers(fields);
    var sorted := SortFields(fields);
    if forall i :: 0 <= i < |sorted| ==> IntegersOnly(sorted[i].value) {
      forall i | 0 <= i < |fields|
        ensures IntegersOnly(fields[i].value)
      {
        assert fields[i] in sorted;
      }
    }
    if IntegersOnly(Obj(fields)) {
      forall i | 0 <= i < |sorted|
        ensures IntegersOnly(sorted[i].value)
      {
        assert sorted[i] in fields;
      }
    }
  }

  // --------------------------------------------------- the unbounded printer

  /** Appends the canonical text; a floating-point number anywhere is refused. */
  method CanonicalValue(v: Value, output: string) returns (ok: bool, result: string)
    ensures ok <==> IntegersOnly(v)
    ensures ok ==> result == output + CanonicalText(v)
    decreases v, 1
  {
    hide CanonicalText;
    match v
    case Float(_) => return false, output;
    case Arr(_) => ok, result := CanonicalArray(v, output);
    case Obj(_) => ok, result := CanonicalObject(v, output);
    case _ =>
      ScalarText(v);
      ok, result := true, output + Text(v);
  }

  method CanonicalArray(v: Value, output: string) returns (ok: bool, result: string)
    requires v.Arr?
    ensures ok <==> IntegersOnly(v)
    ensures ok ==> result == output + CanonicalText(v)
    decreases v, 0
  {
    hide CanonicalText, Joined;
    var items := v.items;
    ghost var texts := ItemTexts(items);
    ArrayText(items);
    result := output + "[";
    assert texts[..0] == [] && Joined([]) == "" by { JoinedNothing(); }
    for i := 0 to |items|
      invariant result == output + "[" + Joined(texts[..i])
      invariant forall k :: 0 <= k < i ==> IntegersOnly(items[k])
    {
      JoinedNext(texts, i);
      if i > 0 {
        result := result + ",";
      }
      ok, result := CanonicalValue(items[i], result);
      if !ok {
        return;
      }
      Regroup(output + "[", Joined(texts[..i]), texts[i]);
    }
    assert texts[..|items|] == texts;
    Close(output, "[", Joined(texts), "]");
    ok, result := true, result + "]";
  }

  method CanonicalObject(v: Value, output: string) returns (ok: bool, result: string)
    requires v.Obj?
    ensures ok <==> IntegersOnly(v)
    ensures ok ==> result == output + CanonicalText(v)
    decreases v, 0
  {
    hide CanonicalText, Joined, SortFields, Quoted;
    var fields := v.fields;
    var ordered := SortFields(fields);
    ghost var texts := FieldTexts(ordered);
    ObjectText(fields);
    SortedIntegers(fields);
    result := output + "{";
    assert texts[..0] == [] && Joined([]) == "" by { JoinedNothing(); }
    for i := 0 to |ordered|
      invariant result == output + "{" + Joined(texts[..i])
      invariant forall k :: 0 <= k < i ==> IntegersOnly(ordered[k].value)
    {
      JoinedNext(texts, i);
      SortedIsSmaller(fields, ordered[i]);
      if i > 0 {
        result := result + ",";
      }
      ok, result := CanonicalMember(ordered[i], result);
      if !ok {
        return;
      }
      Regroup(output + "{", Joined(texts[..i]), texts[i]);
    }
    assert texts[..|ordered|] == texts;
    Close(output, "{", Joined(texts), "}");
    ok, result := true, result + "}";
  }

  method CanonicalMember(field: Field, output: string) returns (ok: bool, result: string)
    ensures ok <==> IntegersOnly(field.value)
    ensures ok ==> result == output + (Quoted(field.key) + ":" + CanonicalText(field.value))
    decreases field.value, 2
  {
    hide CanonicalText, Quoted;
    result := output + Quoted(field.key);
    result := result + ":";
    ok, result := CanonicalValue(field.value, result);
    Close(output, Quoted(field.key), ":", CanonicalText(field.value));
  }

  lemma JoinedNothing()
    ensures Joined([]) == ""
  {
  }

  lemma Regroup(front: string, joined: string, text: string)
    ensures (front + joined + ",") + text == front + (joined + "," + text)
    ensures (front + "") + text == front + text
  {
  }

  lemma Close(front: string, open: string, body: string, close: string)
    ensures ((front + open) + body) + close == front + (open + body + close)
  {
  }

  lemma ScalarText(v: Value)
    requires !v.Arr? && !v.Obj?
    ensures CanonicalText(v) == Text(v)
  {
  }

  // ----------------------------------------------------- the bounded printer

  const MAX_DESCRIPTOR_DEPTH := 32
  const MAX_DESCRIPTOR_NODES := 16384
  const MAX_DESCRIPTOR_BYTES := 1048576

  /** No container nests deeper than `d` levels below this value. */
  predicate DepthWithin(v: Value, d: int)
    decreases v
  {
    d >= 0 &&
    match v
    case Arr(items) => forall i :: 0 <= i < |items| ==> DepthWithin(items[i], d - 1)
    case Obj(fields) => forall i :: 0 <= i < |fields| ==> DepthWithin(fields[i].value, d - 1)
    case _ => true
  }

  function CanonicalLength(v: Value): nat {
    Utf8.ByteLen(CanonicalText(v))
  }

  /** The value fits in what is left of all three budgets. */
  predicate Fits(v: Value, depth: nat, nodes: nat, bytes: nat) {
    DepthWithin(v, MAX_DESCRIPTOR_DEPTH - depth)
    && nodes + Nodes(v) <= MAX_DESCRIPTOR_NODES
    && bytes + CanonicalLength(v) <= MAX_DESCRIPTOR_BYTES
  }

  function JoinedLength(texts: seq<string>): nat {
    Utf8.ByteLen(Joined(texts))
  }

  lemma {:induction false} PrefixShorter(texts: seq<string>, i: nat)
    requires i <= |texts|
    ensures JoinedLength(texts[..i]) <= JoinedLength(texts)
    decreases |texts| - i
  {
    if i < |texts| {
      PrefixShorter(texts, i + 1);
      NextLength(texts, i);
    } else {
      assert texts[..i] == texts;
    }
  }

  lemma NextLength(texts: seq<string>, i: nat)
    requires i < |texts|
    ensures JoinedLength(texts[..i + 1]) == JoinedLength(texts[..i]) + (if i == 0 then 0 else 1) + Utf8.ByteLen(texts[i])
  {
    JoinedNext(texts, i);
    if i > 0 {
      CommaJoin(Joined(texts[..i]), texts[i]);
    }
  }

  /** Appends bytes unless that would pass the limit. */
  method AppendBytes(out: seq<Byte>, text: string) returns (ok: bool, result: seq<Byte>)
    requires |out| <= MAX_DESCRIPTOR_BYTES
    ensures ok <==> |out| + Utf8.ByteLen(text) <= MAX_DESCRIPTOR_BYTES
    ensures ok ==> result == out + Utf8.OfString(text) && |result| == |out| + Utf8.ByteLen(text) <= MAX_DESCRIPTOR_BYTES
  {
    Utf8.ByteLenIsLength(text);
    var bytes := Utf8.OfString(text);
    if |bytes| > MAX_DESCRIPTOR_BYTES - |out| {
      return false, out;
    }
    return true, out + bytes;
  }

  lemma {:induction false} FieldNodesSorted(fields: seq<Field>)
    ensures FieldNodes(SortFields(fields)) == FieldNodes(fields)
  {
    hide Nodes;
    if fields != [] {
      FieldNodesSorted(fields[1..]);
      InsertNodes(fields[0], SortFields(fields[1..]));
    }
  }

  lemma SortedDepth(fields: seq<Field>, d: int)
    ensures (forall i :: 0 <= i < |SortFields(fields)| ==> DepthWithin(SortFields(fields)[i].value, d))
            <==> forall i :: 0 <= i < |fields| ==> DepthWithin(fields[i].value, d)
  {
    hide SortFields, DepthWithin;
    SortedMembers(fields);
    var sorted := SortFields(fields);
    if forall i :: 0 <= i < |sorted| ==> DepthWithin(sorted[i].value, d) {
      forall i | 0 <= i < |fields|
        ensures DepthWithin(fields[i].value, d)
      {
        assert fields[i] in sorted;
      }
    }
    if forall i :: 0 <= i < |fields| ==> DepthWithin(fields[i].value, d) {
      forall i | 0 <= i < |sorted|
        ensures DepthWithin(sorted[i].value, d)
      {
        assert sorted[i] in fields;
      }
    }
  }

  lemma ArrayMeasures(items: seq<Value>)
    ensures CanonicalLength(Arr(items)) == 2 + JoinedLength(ItemTexts(items))
  {
    ArrayText(items);
    Bracketed('[', Joined(ItemTexts(items)), ']');
  }

  lemma ObjectMeasures(fields: seq<Field>)
    ensures CanonicalLength(Obj(fields)) == 2 + JoinedLength(FieldTexts(SortFields(fields)))
  {
    ObjectText(fields);
    Bracketed('{', Joined(FieldTexts(SortFields(fields))), '}');
  }

  lemma BytesJoin(out: seq<Byte>, a: string, b: string)
    ensures out + Utf8.OfString(a) + Utf8.OfString(b) == out + Utf8.OfString(a + b)
    ensures Utf8.ByteLen(a + b) == Utf8.ByteLen(a) + Utf8.ByteLen(b)
  {
    Utf8.OfStringConcat(a, b);
  }

  /** The canonical bytes of a descriptor, or nothing as soon as one budget runs out. */
  method WriteBounded(v: Value, depth: nat, nodes: nat, out: seq<Byte>) returns (ok: bool, used: nat, result: seq<Byte>)
    requires |out| <= MAX_DESCRIPTOR_BYTES
    ensures ok <==> Fits(v, depth, nodes, |out|)
    ensures ok ==> used == nodes + Nodes(v) && result == out + Utf8.OfString(CanonicalText(v))
                   && |result| == |out| + CanonicalLength(v)
    decreases v, 1
  {
    hide CanonicalText;
    used, result := nodes, out;
    if depth > MAX_DESCRIPTOR_DEPTH || used >= MAX_DESCRIPTOR_NODES {
      return false, used, result;
    }
    used := used + 1;
    match v
    case Arr(_) => ok, used, result := WriteArray(v, depth, used, out);
    case Obj(_) => ok, used, result := WriteObject(v, depth, used, out);
    case _ =>
      ScalarText(v);
      ok, result := AppendBytes(out, Text(v));
  }

  lemma FitsParts(v: Value, depth: nat, nodes: nat, bytes: nat)
    ensures Fits(v, depth, nodes, bytes)
            <==> DepthWithin(v, MAX_DESCRIPTOR_DEPTH - depth) && nodes + Nodes(v) <= MAX_DESCRIPTOR_NODES
                 && bytes + CanonicalLength(v) <= MAX_DESCRIPTOR_BYTES
    ensures CanonicalLength(v) == Utf8.ByteLen(CanonicalText(v))
  {
  }

  /** What an array needs of the three budgets, item by item. */
  lemma ArrayFits(items: seq<Value>, depth: nat, nodes: nat, bytes: nat)
    requires depth <= MAX_DESCRIPTOR_DEPTH
    ensures Nodes(Arr(items)) == 1 + ItemNodes(items) && CanonicalLength(Arr(items)) == 2 + JoinedLength(ItemTexts(items))
    ensures Fits(Arr(items), depth, nodes, bytes)
            <==> (forall i :: 0 <= i < |items| ==> DepthWithin(items[i], MAX_DESCRIPTOR_DEPTH - depth - 1))
                 && nodes + 1 + ItemNodes(items) <= MAX_DESCRIPTOR_NODES
                 && bytes + 2 + JoinedLength(ItemTexts(items)) <= MAX_DESCRIPTOR_BYTES
  {
    hide CanonicalLength, JoinedLength, ItemNodes;
    ArrayMeasures(items);
  }

  /** What an object needs of the three budgets, member by member in key order. */
  lemma ObjectFits(fields: seq<Field>, depth: nat, nodes: nat, bytes: nat)
    requires depth <= MAX_DESCRIPTOR_DEPTH
    ensures var keys := SortFields(fields);
            && Nodes(Obj(fields)) == 1 + FieldNodes(keys) && CanonicalLength(Obj(fields)) == 2 + JoinedLength(FieldTexts(keys))
            && (Fits(Obj(fields), depth, nodes, bytes)
                <==> (forall i :: 0 <= i < |keys| ==> DepthWithin(keys[i].value, MAX_DESCRIPTOR_DEPTH - depth - 1))
                     && nodes + 1 + FieldNodes(keys) <= MAX_DESCRIPTOR_NODES
                     && bytes + 2 + JoinedLength(FieldTexts(keys)) <= MAX_DESCRIPTOR_BYTES)
  {
    hide CanonicalLength, JoinedLength, FieldNodes, SortFields;
    ObjectMeasures(fields);
    FieldNodesSorted(fields);
    SortedDepth(fields, MAX_DESCRIPTOR_DEPTH - depth - 1);
  }

  method WriteArray(v: Value, depth: nat, nodes: nat, out: seq<Byte>) returns (ok: bool, used: nat, result: seq<Byte>)
    requires v.Arr? && |out| <= MAX_DESCRIPTOR_BYTES && depth <= MAX_DESCRIPTOR_DEPTH && 1 <= nodes <= MAX_DESCRIPTOR_NODES
    ensures ok <==> Fits(v, depth, nodes - 1, |out|)
    ensures ok ==> used == nodes - 1 + Nodes(v) && result == out + Utf8.OfString(CanonicalText(v))
                   && |result| == |out| + CanonicalLength(v)
    decreases v, 0
  {
    hide CanonicalText, Joined, ItemNodes, Utf8.OfString, Utf8.ByteLen, Fits, DepthWithin, Nodes, CanonicalLength,
         JoinedLength;
    var items := v.items;
    ghost var texts := ItemTexts(items);
    ArrayText(items);
    ArrayFits(items, depth, nodes - 1, |out|);
    used := nodes;
    if |items| > MAX_DESCRIPTOR_NODES - used {
      return false, used, out;
    }
    AsciiLength('[');
    ok, result := AppendBytes(out, "[");
    if !ok {
      return;
    }
    NothingYet(items, texts);
    for i := 0 to |items|
      invariant used == nodes + ItemNodes(items[..i]) && used <= MAX_DESCRIPTOR_NODES
      invariant result == out + Utf8.OfString("[" + Joined(texts[..i]))
      invariant |result| == |out| + 1 + JoinedLength(texts[..i]) <= MAX_DESCRIPTOR_BYTES
      invariant forall k :: 0 <= k < i ==> DepthWithin(items[k], MAX_DESCRIPTOR_DEPTH - depth - 1)
    {
      PartFits(texts, i);
      ItemNodesSplit(items, i);
      ghost var done := "[" + Joined(texts[..i]);
      if i > 0 {
        AsciiLength(',');
        ok, result := AppendBytes(result, ",");
        if !ok {
          return;
        }
        BytesJoin(out, done, ",");
        done := done + ",";
      }
      FitsParts(items[i], depth + 1, used, |result|);
      ok, used, result := WriteBounded(items[i], depth + 1, used, result);
      if !ok {
        return;
      }
      BytesJoin(out, done, texts[i]);
      assert done + texts[i] == "[" + Joined(texts[..i + 1]);
    }
    assert texts[..|items|] == texts && items[..|items|] == items;
    AsciiLength(']');
    ok, result := AppendBytes(result, "]");
    BytesJoin(out, "[" + Joined(texts), "]");
  }

  method WriteObject(v: Value, depth: nat, nodes: nat, out: seq<Byte>) returns (ok: bool, used: nat, result: seq<Byte>)
    requires v.Obj? && |out| <= MAX_DESCRIPTOR_BYTES && depth <= MAX_DESCRIPTOR_DEPTH && 1 <= nodes <= MAX_DESCRIPTOR_NODES
    ensures ok <==> Fits(v, depth, nodes - 1, |out|)
    ensures ok ==> used == nodes - 1 + Nodes(v) && result == out + Utf8.OfString(CanonicalText(v))
                   && |result| == |out| + CanonicalLength(v)
    decreases v, 0
  {
    hide CanonicalText, Joined, FieldNodes, Utf8.OfString, Utf8.ByteLen, SortFields, Quoted, Fits, DepthWithin,
         Nodes, CanonicalLength, JoinedLength;
    var fields := v.fields;
    var keys := SortFields(fields);
    ghost var texts := FieldTexts(keys);
    ObjectText(fields);
    ObjectFits(fields, depth, nodes - 1, |out|);
    SortedMembers(fields);
    used := nodes;
    if |fields| > MAX_DESCRIPTOR_NODES - used {
      return false, used, out;
    }
    AsciiLength('{');
    ok, result := AppendBytes(out, "{");
    if !ok {
      return;
    }
    NoMembersYet(keys, texts);
    for i := 0 to |keys|
      invariant used == nodes + FieldNodes(keys[..i]) && used <= MAX_DESCRIPTOR_NODES
      invariant result == out + Utf8.OfString("{" + Joined(texts[..i]))
      invariant |result| == |out| + 1 + JoinedLength(texts[..i]) <= MAX_DESCRIPTOR_BYTES
      invariant forall k :: 0 <= k < i ==> DepthWithin(keys[k].value, MAX_DESCRIPTOR_DEPTH - depth - 1)
    {
      PartFits(texts, i);
      FieldNodesSplit(keys, i);
      SortedIsSmaller(fields, keys[i]);
      ghost var done := "{" + Joined(texts[..i]);
      if i > 0 {
        AsciiLength(',');
        ok, result := AppendBytes(result, ",");
        if !ok {
          return;
        }
        BytesJoin(out, done, ",");
        done := done + ",";
      }
      ok, used, result := WriteMember(keys[i], depth + 1, used, result);
      if !ok {
        return;
      }
      BytesJoin(out, done, texts[i]);
      assert done + texts[i] == "{" + Joined(texts[..i + 1]);
    }
    assert texts[..|keys|] == texts && keys[..|keys|] == keys;
    AsciiLength('}');
    ok, result := AppendBytes(result, "}");
    BytesJoin(out, "{" + Joined(texts), "}");
  }

  /** A key, a colon and the value, in that order. */
  method WriteMember(field: Field, depth: nat, nodes: nat, out: seq<Byte>) returns (ok: bool, used: nat, result: seq<Byte>)
    requires |out| <= MAX_DESCRIPTOR_BYTES
    ensures var text := Quoted(field.key) + ":" + CanonicalText(field.value);
            && (ok <==> DepthWithin(field.value, MAX_DESCRIPTOR_DEPTH - depth) && nodes + Nodes(field.value) <= MAX_DESCRIPTOR_NODES
                        && |out| + Utf8.ByteLen(text) <= MAX_DESCRIPTOR_BYTES)
            && (ok ==> used == nodes + Nodes(field.value) && result == out + Utf8.OfString(text)
                       && |result| == |out| + Utf8.ByteLen(text))
    decreases field.value, 2
  {
    hide CanonicalText, Utf8.OfString, Utf8.ByteLen, Quoted, DepthWithin;
    ghost var key, body := Quoted(field.key), CanonicalText(field.value);
    BytesJoin(out, key, ":");
    BytesJoin(out, key + ":", body);
    AsciiLength(':');
    used := nodes;
    ok, result := AppendBytes(out, Quoted(field.key));
    if !ok {
      return;
    }
    ok, result := AppendBytes(result, ":");
    if !ok {
      return;
    }
    ok, used, result := WriteBounded(field.value, depth, used, result);
  }

  lemma NoMembersYet(fields: seq<Field>, texts: seq<string>)
    ensures FieldNodes(fields[..0]) == 0 && "{" + Joined(texts[..0]) == "{" && JoinedLength(texts[..0]) == 0
  {
  }

  /**
   * The bounded printer is exact: it returns bytes precisely when the value is
   * within all three limits, and then they are the unbounded canonical form.
   */
  method CanonicalJsonBytes(v: Value) returns (r: Option<seq<Byte>>)
    ensures r == if DepthWithin(v, MAX_DESCRIPTOR_DEPTH) && Nodes(v) <= MAX_DESCRIPTOR_NODES
                    && CanonicalLength(v) <= MAX_DESCRIPTOR_BYTES
                 then Some(Utf8.OfString(CanonicalText(v))) else None
  {
    var ok, used, out := WriteBounded(v, 0, 0, []);
    if !ok {
      return None;
    }
    assert [] + Utf8.OfString(CanonicalText(v)) == Utf8.OfString(CanonicalText(v));
    return Some(out);
  }

  lemma NothingYet(items: seq<Value>, texts: seq<string>)
    ensures ItemNodes(items[..0]) == 0 && "[" + Joined(texts[..0]) == "[" && JoinedLength(texts[..0]) == 0
  {
  }

  /** The first parts and the next one are no longer than the whole. */
  lemma PartFits(texts: seq<string>, i: nat)
    requires i < |texts|
    ensures Joined(texts[..i + 1]) == if i == 0 then texts[0] else Joined(texts[..i]) + "," + texts[i]
    ensures JoinedLength(texts[..i + 1]) == JoinedLength(texts[..i]) + (if i == 0 then 0 else 1) + Utf8.ByteLen(texts[i])
    ensures JoinedLength(texts) >= JoinedLength(texts[..i + 1])
    ensures i == 0 ==> Joined(texts[..i]) == ""
  {
    JoinedNext(texts, i);
    NextLength(texts, i);
    PrefixShorter(texts, i + 1);
  }
}
