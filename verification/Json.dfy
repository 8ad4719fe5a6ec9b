// JSON values, their compact text, and the canonical form that the decision
// audit and the resume contracts hash. Objects keep insertion order, as the
// repository's JSON library does, so that sorting keys is a real step.
module Json {
  import opened Basics

  datatype Field = Field(key: string, value: Value)

  /** `Float` carries the library's rendering of a number that is not an integer. */
  datatype Value =
    | Null
    | Bool(flag: bool)
    | Int(number: int)
    | Float(rendering: string)
    | Str(text: string)
    | Arr(items: seq<Value>)
    | Obj(fields: seq<Field>)

  // ---------------------------------------------------------------- key order

  /** Byte order of UTF-8 strings, which is code point order. */
  predicate Before(a: string, b: string) {
    b != "" && (a == "" || a[0] < b[0] || (a[0] == b[0] && Before(a[1..], b[1..])))
  }

  lemma {:induction false} BeforeTrichotomy(a: string, b: string)
    ensures a == b || Before(a, b) || Before(b, a)
    ensures !(Before(a, b) && Before(b, a))
    ensures !Before(a, a)
  {
    if a != "" {
      BeforeTrichotomy(a[1..], a[1..]);
      if b != "" {
        BeforeTrichotomy(a[1..], b[1..]);
        if a[0] == b[0] && a[1..] == b[1..] {
          assert a == [a[0]] + a[1..] == b;
        }
      }
    }
  }

  lemma {:induction false} BeforeTransitive(a: string, b: string, c: string)
    requires Before(a, b) && Before(b, c)
    ensures Before(a, c)
  {
    if a != "" && a[0] == b[0] == c[0] {
      BeforeTransitive(a[1..], b[1..], c[1..]);
    }
  }

  function Keys(fields: seq<Field>): set<string> {
    set i | 0 <= i < |fields| :: fields[i].key
  }

  predicate KeysIncrease(fields: seq<Field>) {
    forall i, j :: 0 <= i < j < |fields| ==> Before(fields[i].key, fields[j].key)
  }

  predicate KeysUnique(fields: seq<Field>) {
    forall i, j :: 0 <= i < j < |fields| ==> fields[i].key != fields[j].key
  }

  function Lookup(fields: seq<Field>, key: string): (r: Option<Value>)
    ensures r.Some? <==> exists i :: 0 <= i < |fields| && fields[i].key == key
    ensures r.Some? ==> exists i :: 0 <= i < |fields| && fields[i] == Field(key, r.value)
  {
    if fields == [] then None
    else if fields[0].key == key then
      assert fields[0] == Field(key, fields[0].value);
      Some(fields[0].value)
    else
      var r := Lookup(fields[1..], key);
      assert forall i :: 0 <= i < |fields| - 1 ==> fields[1..][i] == fields[i + 1];
      assert (exists i :: 0 <= i < |fields| && fields[i].key == key)
        ==> exists i :: 0 <= i < |fields| - 1 && fields[1..][i].key == key by {
        if i :| 0 <= i < |fields| && fields[i].key == key {
          assert fields[1..][i - 1].key == key;
        }
      }
      r
  }

  function Insert(field: Field, fields: seq<Field>): (r: seq<Field>)
    ensures multiset(r) == multiset(fields) + multiset{field}
  {
    if fields == [] || !Before(fields[0].key, field.key) then [field] + fields
    else
      assert fields == [fields[0]] + fields[1..];
      [fields[0]] + Insert(field, fields[1..])
  }

  // ---------------------------------------------------------- normal form

  /** The same value with the keys of every object in increasing order. */
  function Normalize(v: Value): Value
    decreases v
  {
    match v
    case Arr(items) => Arr(NormalizeItems(items))
    case Obj(fields) => Obj(NormalizeFields(fields))
    case _ => v
  }

  function NormalizeItems(items: seq<Value>): (r: seq<Value>)
    ensures |r| == |items|
    decreases items
  {
    if items == [] then [] else [Normalize(items[0])] + NormalizeItems(items[1..])
  }

  function NormalizeFields(fields: seq<Field>): (r: seq<Field>)
    decreases fields
  {
    if fields == [] then []
    else Insert(Field(fields[0].key, Normalize(fields[0].value)), NormalizeFields(fields[1..]))
  }

  /** Value equality of the JSON library, which ignores the order of keys. */
  predicate Same(v: Value, w: Value) {
    Normalize(v) == Normalize(w)
  }

  // ------------------------------------------------------------ compact text

  function HexDigit(d: int): char
    requires 0 <= d < 16
  {
    if d < 10 then ('0' as int + d) as char else ('a' as int + d - 10) as char
  }

  /** One character inside a JSON string literal. */
  function Escaped(c: char): (r: string)
    ensures |r| >= 1
  {
    if c == '\"' then "\\\""
    else if c == '\\' then "\\\\"
    else if c == '\n' then "\\n"
    else if c == '\r' then "\\r"
    else if c == '\t' then "\\t"
    else if c as int == 8 then "\\b"
    else if c as int == 12 then "\\f"
    else if c < ' ' then "\\u00" + [HexDigit(c as int / 16), HexDigit(c as int % 16)]
    else [c]
  }

  function EscapedAll(s: string): string {
    if s == "" then "" else Escaped(s[0]) + EscapedAll(s[1..])
  }

  function Quoted(s: string): string {
    "\"" + EscapedAll(s) + "\""
  }

  function NatText(n: nat): (r: string)
    ensures |r| >= 1
  {
    if n < 10 then [HexDigit(n)] else NatText(n / 10) + [HexDigit(n % 10)]
  }

  function IntText(n: int): string {
    if n < 0 then "-" + NatText(-n) else NatText(n)
  }

  function Text(v: Value): string
    decreases v
  {
    match v
    case Null => "null"
    case Bool(flag) => if flag then "true" else "false"
    case Int(number) => IntText(number)
    case Float(rendering) => rendering
    case Str(text) => Quoted(text)
    case Arr(items) => "[" + ItemsText(items) + "]"
    case Obj(fields) => "{" + FieldsText(fields) + "}"
  }

  function ItemsText(items: seq<Value>): string
    decreases items
  {
    if items == [] then ""
    else if |items| == 1 then Text(items[0])
    else Text(items[0]) + "," + ItemsText(items[1..])
  }

  function FieldText(field: Field): string
    decreases field
  {
    Quoted(field.key) + ":" + Text(field.value)
  }

  function FieldsText(fields: seq<Field>): string
    decreases fields
  {
    if fields == [] then ""
    else if |fields| == 1 then FieldText(fields[0])
    else FieldText(fields[0]) + "," + FieldsText(fields[1..])
  }

  /** The text that is hashed: compact, with every object's keys sorted. */
  function CanonicalText(v: Value): string {
    Text(Normalize(v))
  }

  /** No number in the value needs a floating-point rendering. */
  predicate IntegersOnly(v: Value)
    decreases v
  {
    match v
    case Float(_) => false
    case Arr(items) => forall i :: 0 <= i < |items| ==> IntegersOnly(items[i])
    case Obj(fields) => forall i :: 0 <= i < |fields| ==> IntegersOnly(fields[i].value)
    case _ => true
  }
}
