// A reader for the compact fragment of the grammar in sections 2 to 7 of
// RFC 8259: no insignificant whitespace, integers only. It is the partner of the
// canonical printer: what the printer writes, it reads back.
module JsonParser {
  import opened Basics
  import opened Json

  predicate Digit(c: char) {
    '0' <= c <= '9'
  }

  function HexValue(c: char): (r: Option<int>)
    ensures r.Some? ==> 0 <= r.value < 16
  {
    if '0' <= c <= '9' then Some(c as int - '0' as int)
    else if 'a' <= c <= 'f' then Some(c as int - 'a' as int + 10)
    else if 'A' <= c <= 'F' then Some(c as int - 'A' as int + 10)
    else None
  }

  /** The part of an escape sequence after its backslash. */
  function ParseEscape(s: string): (r: Option<(char, string)>)
    ensures r.Some? ==> |r.value.1| < |s|
  {
    if s == "" then None
    else if s[0] == '\"' || s[0] == '\\' || s[0] == '/' then Some((s[0], s[1..]))
    else if s[0] == 'n' then Some(('\n', s[1..]))
    else if s[0] == 'r' then Some(('\r', s[1..]))
    else if s[0] == 't' then Some(('\t', s[1..]))
    else if s[0] == 'b' then Some((8 as char, s[1..]))
    else if s[0] == 'f' then Some((12 as char, s[1..]))
    else if s[0] == 'u' && |s| >= 5 then
      match (HexValue(s[1]), HexValue(s[2]), HexValue(s[3]), HexValue(s[4]))
      case (Some(a), Some(b), Some(c), Some(d)) =>
        var n := a * 4096 + b * 256 + c * 16 + d;
        if 0xD800 <= n < 0xE000 then None else Some((n as char, s[5..]))
      case _ => None
    else None
  }

  /** A string literal after its opening quote. */
  function ParseString(s: string): (r: Option<(string, string)>)
    ensures r.Some? ==> |r.value.1| < |s|
    decreases |s|
  {
    if s == "" then None
    else if s[0] == '\"' then Some(("", s[1..]))
    else if s[0] == '\\' then
      match ParseEscape(s[1..])
      case None => None
      case Some((c, rest)) => Prepend(c, ParseString(rest))
    else if s[0] < ' ' then None
    else Prepend(s[0], ParseString(s[1..]))
  }

  function Prepend(c: char, r: Option<(string, string)>): Option<(string, string)> {
    match r
    case None => None
    case Some((text, rest)) => Some(([c] + text, rest))
  }

  function ParseDigits(s: string, acc: nat): (r: (nat, string))
    ensures |r.1| <= |s|
    decreases |s|
  {
    if s != "" && Digit(s[0]) then ParseDigits(s[1..], acc * 10 + (s[0] as int - '0' as int))
    else (acc, s)
  }

  /** Digits without a superfluous leading zero. */
  function ParseNat(s: string): (r: Option<(nat, string)>)
    ensures r.Some? ==> |r.value.1| < |s|
  {
    if s == "" || !Digit(s[0]) || (s[0] == '0' && |s| > 1 && Digit(s[1])) then None
    else Some(ParseDigits(s[1..], s[0] as int - '0' as int))
  }

  function ParseInt(s: string): (r: Option<(int, string)>)
    ensures r.Some? ==> |r.value.1| < |s|
  {
    if s != "" && s[0] == '-' then
      match ParseNat(s[1..])
      case Some((n, rest)) => if n == 0 then None else var negated: int := 0 - n; Some((negated, rest))
      case None => None
    else
      match ParseNat(s)
      case Some((n, rest)) => Some((n, rest))
      case None => None
  }

  function ParseValue(s: string): (r: Option<(Value, string)>)
    ensures r.Some? ==> |r.value.1| < |s|
    decreases |s|, 0
  {
    if s == "" then None
    else if s[0] == '\"' then
      match ParseString(s[1..])
      case Some((text, rest)) => Some((Str(text), rest))
      case None => None
    else if s[0] == '[' then
      if |s| > 1 && s[1] == ']' then Some((Arr([]), s[2..]))
      else
        match ParseItems(s[1..])
        case Some((items, rest)) => Some((Arr(items), rest))
        case None => None
    else if s[0] == '{' then
      if |s| > 1 && s[1] == '}' then Some((Obj([]), s[2..]))
      else
        match ParseFields(s[1..])
        case Some((fields, rest)) => Some((Obj(fields), rest))
        case None => None
    else if "null" <= s then Some((Null, s[4..]))
    else if "true" <= s then Some((Bool(true), s[4..]))
    else if "false" <= s then Some((Bool(false), s[5..]))
    else
      match ParseInt(s)
      case Some((n, rest)) => Some((Int(n), rest))
      case None => None
  }

  /** One or more values up to and including the closing bracket. */
  function ParseItems(s: string): (r: Option<(seq<Value>, string)>)
    ensures r.Some? ==> |r.value.1| < |s|
    decreases |s|, 1
  {
    match ParseValue(s)
    case None => None
    case Some((v, rest)) =>
      if rest == "" then None
      else if rest[0] == ']' then Some(([v], rest[1..]))
      else if rest[0] == ',' then
        match ParseItems(rest[1..])
        case Some((items, rest')) => Some(([v] + items, rest'))
        case None => None
      else None
  }

  /** One key, its colon and its value. */
  function ParseField(s: string): (r: Option<(Field, string)>)
    ensures r.Some? ==> |r.value.1| < |s|
    decreases |s|, 1
  {
    if s == "" || s[0] != '\"' then None
    else
      match ParseString(s[1..])
      case None => None
      case Some((key, rest)) =>
        if rest == "" || rest[0] != ':' then None
        else
          match ParseValue(rest[1..])
          case None => None
          case Some((v, rest')) => Some((Field(key, v), rest'))
  }

  function ParseFields(s: string): (r: Option<(seq<Field>, string)>)
    ensures r.Some? ==> |r.value.1| < |s|
    decreases |s|, 2
  {
    match ParseField(s)
    case None => None
    case Some((field, rest)) =>
      if rest == "" then None
      else if rest[0] == '}' then Some(([field], rest[1..]))
      else if rest[0] == ',' then
        match ParseFields(rest[1..])
        case Some((fields, rest')) => Some(([field] + fields, rest'))
        case None => None
      else None
  }

  /** A whole document. */
  function Parse(s: string): Option<Value> {
    match ParseValue(s)
    case Some((v, rest)) => if rest == "" then Some(v) else None
    case None => None
  }

  // ------------------------------------------------------------- strings

  lemma EscapeReadsBack(c: char, rest: string)
    ensures Escaped(c)[0] == '\\' ==> ParseEscape(Escaped(c)[1..] + rest) == Some((c, rest))
    ensures Escaped(c)[0] != '\\' ==> Escaped(c) == [c] && c != '\"' && !(c < ' ')
  {
    var e := Escaped(c);
    if e[0] == '\\' {
      var tail := e[1..] + rest;
      if |e| == 2 {
        assert tail[0] == e[1] && tail[1..] == rest;
      } else {
        assert tail[0] == 'u' && tail[1] == '0' && tail[2] == '0';
        assert tail[3] == HexDigit(c as int / 16) && tail[4] == HexDigit(c as int % 16);
        assert tail[5..] == rest;
      }
    }
  }

  lemma CharReadsBack(c: char, after: string)
    ensures ParseString(Escaped(c) + after) == Prepend(c, ParseString(after))
  {
    var e := Escaped(c);
    var s := e + after;
    EscapeReadsBack(c, after);
    assert s[0] == e[0] && s[1..] == e[1..] + after;
    if e[0] != '\\' {
      assert s[1..] == after;
    }
  }

  lemma {:induction false} StringReadsBack(t: string, rest: string)
    ensures ParseString(EscapedAll(t) + "\"" + rest) == Some((t, rest))
  {
    if t == "" {
      assert (EscapedAll(t) + "\"" + rest)[1..] == rest;
    } else {
      var after := EscapedAll(t[1..]) + "\"" + rest;
      assert EscapedAll(t) + "\"" + rest == Escaped(t[0]) + after;
      CharReadsBack(t[0], after);
      StringReadsBack(t[1..], rest);
      assert [t[0]] + t[1..] == t;
    }
  }

  // ------------------------------------------------------------ integers

  lemma {:induction false} DigitsReadBack(n: nat, rest: string)
    ensures ParseDigits(NatText(n) + rest, 0) == ParseDigits(rest, n)
    ensures Digit(NatText(n)[0])
    ensures NatText(n)[0] == '0' <==> n == 0
  {
    var d := HexDigit(n % 10);
    if n < 10 {
      assert (NatText(n) + rest)[1..] == rest;
    } else {
      DigitsReadBack(n / 10, [d] + rest);
      assert NatText(n) + rest == NatText(n / 10) + ([d] + rest);
      assert ([d] + rest)[1..] == rest;
    }
  }

  predicate EndsNumber(rest: string) {
    rest == "" || !Digit(rest[0])
  }

  lemma NatReadsBack(n: nat, rest: string)
    requires EndsNumber(rest)
    ensures ParseNat(NatText(n) + rest) == Some((n, rest))
  {
    var s := NatText(n) + rest;
    DigitsReadBack(n, rest);
    assert ParseDigits(s, 0) == ParseDigits(s[1..], s[0] as int - '0' as int);
    if n == 0 {
      assert s == "0" + rest;
    }
  }

  lemma IntReadsBack(n: int, rest: string)
    requires EndsNumber(rest)
    ensures ParseInt(IntText(n) + rest) == Some((n, rest))
    ensures IntText(n)[0] == '-' || Digit(IntText(n)[0])
  {
    if n < 0 {
      NatReadsBack(-n, rest);
      assert (IntText(n) + rest)[1..] == NatText(-n) + rest;
    } else {
      NatReadsBack(n, rest);
      DigitsReadBack(n, rest);
      assert (IntText(n) + rest)[0] == NatText(n)[0];
    }
  }

  // -------------------------------------------------------------- values

  lemma ScalarReadsBack(v: Value, rest: string)
    requires v.Null? || v.Bool? || v.Int? || v.Str?
    requires EndsNumber(rest)
    ensures ParseValue(Text(v) + rest) == Some((v, rest))
  {
    hide ParseItems, ParseFields, ParseField, ParseInt, ParseString, EscapedAll, IntText;
    var s := Text(v) + rest;
    match v
    case Null => assert s[4..] == rest;
    case Bool(flag) =>
      if flag {
        assert s[4..] == rest;
      } else {
        assert s[5..] == rest;
      }
    case Int(n) =>
      IntReadsBack(n, rest);
      assert s[0] == IntText(n)[0];
    case Str(t) =>
      assert s[1..] == EscapedAll(t) + "\"" + rest;
      StringReadsBack(t, rest);
  }

  lemma {:induction false} ArrReadsBack(items: seq<Value>, rest: string)
    requires items != [] && TextStart(ItemsText(items))
    requires ParseItems(ItemsText(items) + "]" + rest) == Some((items, rest))
    ensures ParseValue(Text(Arr(items)) + rest) == Some((Arr(items), rest))
  {
    hide ParseString, ParseInt, ParseFields;
    var s := Text(Arr(items)) + rest;
    assert s[0] == '[';
    assert s[1..] == ItemsText(items) + "]" + rest;
    assert s[1] == ItemsText(items)[0];
  }

  lemma {:induction false} ObjReadsBack(fields: seq<Field>, rest: string)
    requires fields != []
    requires ParseFields(FieldsText(fields) + "}" + rest) == Some((fields, rest))
    ensures ParseValue(Text(Obj(fields)) + rest) == Some((Obj(fields), rest))
  {
    hide ParseField, ParseString, ParseInt;
    var s := Text(Obj(fields)) + rest;
    assert s[0] == '{';
    assert s[1..] == FieldsText(fields) + "}" + rest;
    assert FieldsText(fields)[0] == '\"';
    assert s[1] == FieldsText(fields)[0];
  }

  lemma {:induction false} ValueReadsBack(v: Value, rest: string)
    requires IntegersOnly(v) && EndsNumber(rest)
    ensures ParseValue(Text(v) + rest) == Some((v, rest))
    decreases v, 0
  {
    hide ParseItems, ParseFields, ParseField, ParseString, ParseInt;
    if v.Arr? {
      if v.items == [] {
        assert (Text(v) + rest)[2..] == rest;
      } else {
        ItemsReadBack(v.items, rest);
        ItemsStart(v.items);
        ArrReadsBack(v.items, rest);
      }
    } else if v.Obj? {
      if v.fields == [] {
        assert (Text(v) + rest)[2..] == rest;
      } else {
        FieldsReadBack(v.fields, rest);
        ObjReadsBack(v.fields, rest);
      }
    } else {
      ScalarReadsBack(v, rest);
    }
  }

  predicate TextStart(s: string) {
    s != "" && s[0] != ']'
  }

  lemma {:induction false} ItemsStart(items: seq<Value>)
    requires items != [] && IntegersOnly(Arr(items))
    ensures TextStart(ItemsText(items))
  {
    if items[0].Int? {
      IntReadsBack(items[0].number, "");
    }
  }

  lemma LastItem(s: string, v: Value, rest: string)
    requires ParseValue(s) == Some((v, "]" + rest))
    ensures ParseItems(s) == Some(([v], rest))
  {
    assert ("]" + rest)[1..] == rest;
  }

  lemma NextItem(s: string, v: Value, after: string, items: seq<Value>, rest: string)
    requires ParseValue(s) == Some((v, "," + after)) && ParseItems(after) == Some((items, rest))
    ensures ParseItems(s) == Some(([v] + items, rest))
  {
    assert ("," + after)[1..] == after;
  }

  lemma {:induction false} ItemsReadBack(items: seq<Value>, rest: string)
    requires items != [] && IntegersOnly(Arr(items))
    ensures ParseItems(ItemsText(items) + "]" + rest) == Some((items, rest))
    decreases items, 1
  {
    hide ParseValue, ParseItems, ParseFields, ParseField, ParseString, ParseInt, Text;
    var s := ItemsText(items) + "]" + rest;
    var more := items[1..];
    assert items == [items[0]] + more;
    if more == [] {
      ValueReadsBack(items[0], "]" + rest);
      assert s == Text(items[0]) + ("]" + rest);
      LastItem(s, items[0], rest);
      assert items == [items[0]];
    } else {
      var after := ItemsText(more) + "]" + rest;
      ValueReadsBack(items[0], "," + after);
      assert s == Text(items[0]) + ("," + after);
      ItemsReadBack(more, rest);
      NextItem(s, items[0], after, more, rest);
    }
  }

  lemma FieldStep(s: string, key: string, after: string, v: Value, rest: string)
    requires s != "" && s[0] == '\"' && ParseString(s[1..]) == Some((key, ":" + after))
    requires ParseValue(after) == Some((v, rest))
    ensures ParseField(s) == Some((Field(key, v), rest))
  {
    assert (":" + after)[1..] == after;
  }

  lemma {:induction false} FieldReadsBack(field: Field, rest: string)
    requires IntegersOnly(field.value) && EndsNumber(rest)
    ensures ParseField(FieldText(field) + rest) == Some((field, rest))
    decreases field, 0
  {
    hide ParseValue, ParseItems, ParseFields, ParseField, ParseString, ParseInt, Text, EscapedAll;
    var s := FieldText(field) + rest;
    var after := Text(field.value) + rest;
    var key := EscapedAll(field.key);
    assert s == "\"" + (key + "\"" + (":" + after));
    assert s[0] == '\"' && s[1..] == key + "\"" + (":" + after);
    StringReadsBack(field.key, ":" + after);
    ValueReadsBack(field.value, rest);
    FieldStep(s, field.key, after, field.value, rest);
  }

  lemma LastField(s: string, field: Field, rest: string)
    requires ParseField(s) == Some((field, "}" + rest))
    ensures ParseFields(s) == Some(([field], rest))
  {
    assert ("}" + rest)[1..] == rest;
  }

  lemma NextField(s: string, field: Field, after: string, fields: seq<Field>, rest: string)
    requires ParseField(s) == Some((field, "," + after)) && ParseFields(after) == Some((fields, rest))
    ensures ParseFields(s) == Some(([field] + fields, rest))
  {
    assert ("," + after)[1..] == after;
  }

  lemma Regroup(a: string, b: string, close: string, rest: string)
    ensures a + "," + b + close + rest == a + ("," + (b + close + rest))
  {
  }

  lemma {:induction false} FieldsTextSplit(fields: seq<Field>, rest: string)
    requires fields != []
    ensures |fields| == 1 ==> FieldsText(fields) + "}" + rest == FieldText(fields[0]) + ("}" + rest)
    ensures |fields| > 1 ==>
              FieldsText(fields) + "}" + rest
              == FieldText(fields[0]) + ("," + (FieldsText(fields[1..]) + "}" + rest))
  {
    hide FieldText;
    var head := FieldText(fields[0]);
    if |fields| == 1 {
      assert FieldsText(fields) == head;
    } else {
      assert FieldsText(fields) == head + "," + FieldsText(fields[1..]);
      Regroup(head, FieldsText(fields[1..]), "}", rest);
    }
  }

  lemma {:induction false} FieldsReadBack(fields: seq<Field>, rest: string)
    requires fields != [] && IntegersOnly(Obj(fields))
    ensures ParseFields(FieldsText(fields) + "}" + rest) == Some((fields, rest))
    decreases fields, 1
  {
    hide ParseValue, ParseItems, ParseFields, ParseField, ParseString, ParseInt, FieldText, FieldsText;
    var s := FieldsText(fields) + "}" + rest;
    var more := fields[1..];
    assert fields == [fields[0]] + more;
    FieldsTextSplit(fields, rest);
    if more == [] {
      FieldReadsBack(fields[0], "}" + rest);
      LastField(s, fields[0], rest);
      assert fields == [fields[0]];
    } else {
      var after := FieldsText(more) + "}" + rest;
      FieldReadsBack(fields[0], "," + after);
      FieldsReadBack(more, rest);
      NextField(s, fields[0], after, more, rest);
    }
  }
}
