// The stored JSON of a goal, and why a validated goal is still valid after its
// canonical snapshot has been parsed again.
module GoalRecords {
  import opened Basics
  import opened Json
  import opened CanonicalJson
  import opened Records
  import opened GoalTypes
  import Utf8

  const SCOPE_KEYS := ["environment", "organization", "project", "site"]
  const PLAYBOOK_KEYS := ["digest", "id"]
  const GOAL_KEYS := ["id", "objective", "parameters", "playbook", "revision", "scope"]

  lemma GoalKeysSorted()
    ensures SortedKeys(SCOPE_KEYS) && SortedKeys(PLAYBOOK_KEYS) && SortedKeys(GOAL_KEYS)
  {
    BeforeAt("environment", "organization", 0);
    BeforeAt("organization", "project", 0);
    BeforeAt("project", "site", 0);
    NeighboursSorted(SCOPE_KEYS);
    BeforeAt("digest", "id", 0);
    NeighboursSorted(PLAYBOOK_KEYS);
    BeforeAt("id", "objective", 0);
    BeforeAt("objective", "parameters", 0);
    BeforeAt("parameters", "playbook", 1);
    BeforeAt("playbook", "revision", 0);
    BeforeAt("revision", "scope", 0);
    NeighboursSorted(GOAL_KEYS);
  }

  function ScopeJson(s: GoalScope): Value {
    ObjectOf(SCOPE_KEYS, [Str(s.environment), Str(s.organization), Str(s.project), Str(s.site)])
  }

  function PlaybookJson(p: PlaybookIdentity): Value {
    ObjectOf(PLAYBOOK_KEYS, [Str(p.digest), Str(p.id)])
  }

  function GoalJson(g: Goal): Value {
    ObjectOf(GOAL_KEYS, [Str(g.id), Str(g.objective), Obj(g.parameters), PlaybookJson(g.playbook), Int(g.revision), ScopeJson(g.scope)])
  }

  // ------------------------------------------------------------------ decoding

  function TextOf(v: Value): string {
    if v.Str? then v.text else ""
  }

  function NumberOf(v: Value): int {
    if v.Int? then v.number else 0
  }

  function ScopeOf(v: Value): GoalScope {
    var m := Members(v, SCOPE_KEYS);
    GoalScope(TextOf(m[1]), TextOf(m[2]), TextOf(m[0]), TextOf(m[3]))
  }

  function PlaybookOf(v: Value): PlaybookIdentity {
    var m := Members(v, PLAYBOOK_KEYS);
    PlaybookIdentity(TextOf(m[1]), TextOf(m[0]))
  }

  function ParametersOf(v: Value): Parameters {
    if v.Obj? && KeysIncrease(v.fields) then v.fields else []
  }

  function GoalMembers(v: Value): Goal {
    var m := Members(v, GOAL_KEYS);
    Goal(TextOf(m[0]), ScopeOf(m[5]), NumberOf(m[4]), TextOf(m[1]), PlaybookOf(m[3]), ParametersOf(m[2]))
  }

  /**
   * Reads a goal. Key order is irrelevant; a missing, unknown or ill-typed
   * member is exactly a value that no goal prints as.
   */
  function GoalOf(v: Value): Option<Goal> {
    var goal := GoalMembers(Normalize(v));
    if GoalJson(goal) == Normalize(v) then Some(goal) else None
  }

  lemma GoalMembersOfJson(g: Goal)
    ensures GoalMembers(GoalJson(g)) == g
  {
    MembersOfRecord(GOAL_KEYS, [Str(g.id), Str(g.objective), Obj(g.parameters), PlaybookJson(g.playbook), Int(g.revision), ScopeJson(g.scope)]);
    MembersOfRecord(SCOPE_KEYS, [Str(g.scope.environment), Str(g.scope.organization), Str(g.scope.project), Str(g.scope.site)]);
    MembersOfRecord(PLAYBOOK_KEYS, [Str(g.playbook.digest), Str(g.playbook.id)]);
  }

  lemma ScopeIsNormal(s: GoalScope)
    ensures Normal(ScopeJson(s)) && IntegersOnly(ScopeJson(s)) && ScopeOf(ScopeJson(s)) == s
  {
    GoalKeysSorted();
    var values := [Str(s.environment), Str(s.organization), Str(s.project), Str(s.site)];
    RecordIsNormal(SCOPE_KEYS, values);
    RecordHasIntegers(SCOPE_KEYS, values);
    MembersOfRecord(SCOPE_KEYS, values);
  }

  // -------------------------------------------------------- normal parameters

  lemma IncreasingAreUnique(ps: seq<Field>)
    requires KeysIncrease(ps)
    ensures KeysUnique(ps)
  {
    forall i, j | 0 <= i < j < |ps|
      ensures ps[i].key != ps[j].key
    {
      BeforeTrichotomy(ps[i].key, ps[j].key);
    }
  }

  function NormalParameters(ps: Parameters): Parameters {
    IncreasingAreUnique(ps);
    NormalizedKeysUnique(ps);
    NormalizeFields(ps)
  }

  /** The goal as its canonical snapshot spells it. */
  function NormalGoal(g: Goal): Goal {
    g.(parameters := NormalParameters(g.parameters))
  }

  lemma GoalJsonNormalizes(g: Goal)
    ensures Normalize(GoalJson(g)) == GoalJson(NormalGoal(g))
  {
    GoalKeysSorted();
    ScopeIsNormal(g.scope);
    RecordIsNormal(PLAYBOOK_KEYS, [Str(g.playbook.digest), Str(g.playbook.id)]);
    var values := [Str(g.id), Str(g.objective), Obj(g.parameters), PlaybookJson(g.playbook), Int(g.revision), ScopeJson(g.scope)];
    RecordNormalizes(GOAL_KEYS, values);
    assert NormalizeValues(values)
        == [Str(g.id), Str(g.objective), Obj(NormalParameters(g.parameters)), PlaybookJson(g.playbook), Int(g.revision), ScopeJson(g.scope)];
  }

  // ------------------------------------------------------ counting nodes

  lemma {:induction false} FieldNodesConcat(a: seq<Field>, b: seq<Field>)
    ensures FieldNodes(a + b) == FieldNodes(a) + FieldNodes(b)
    decreases |a|
  {
    if a == [] {
      assert a + b == b;
    } else {
      assert (a + b)[1..] == a[1..] + b;
      FieldNodesConcat(a[1..], b);
    }
  }

  lemma NoNodes()
    ensures FieldNodes([]) == 0 && ItemNodes([]) == 0
  {
  }

  lemma FieldNodesOne(field: Field)
    ensures FieldNodes([field]) == Nodes(field.value)
  {
    assert [field][1..] == [];
  }

  lemma FieldNodesSplit(fields: seq<Field>, i: nat)
    requires i < |fields|
    ensures FieldNodes(fields[..i + 1]) == FieldNodes(fields[..i]) + Nodes(fields[i].value)
    ensures FieldNodes(fields) >= FieldNodes(fields[..i + 1])
  {
    hide FieldNodes;
    assert fields[..i + 1] == fields[..i] + [fields[i]];
    FieldNodesOne(fields[i]);
    FieldNodesConcat(fields[..i], [fields[i]]);
    assert fields == fields[..i + 1] + fields[i + 1..];
    FieldNodesConcat(fields[..i + 1], fields[i + 1..]);
  }

  lemma {:induction false} ItemNodesConcat(a: seq<Value>, b: seq<Value>)
    ensures ItemNodes(a + b) == ItemNodes(a) + ItemNodes(b)
    decreases |a|
  {
    if a == [] {
      assert a + b == b;
    } else {
      assert (a + b)[1..] == a[1..] + b;
      ItemNodesConcat(a[1..], b);
    }
  }

  lemma ItemNodesOne(item: Value)
    ensures ItemNodes([item]) == Nodes(item)
  {
    assert [item][1..] == [];
  }

  lemma ItemNodesSplit(items: seq<Value>, i: nat)
    requires i < |items|
    ensures ItemNodes(items[..i + 1]) == ItemNodes(items[..i]) + Nodes(items[i])
    ensures ItemNodes(items) >= ItemNodes(items[..i + 1])
  {
    hide ItemNodes;
    assert items[..i + 1] == items[..i] + [items[i]];
    ItemNodesOne(items[i]);
    ItemNodesConcat(items[..i], [items[i]]);
    assert items == items[..i + 1] + items[i + 1..];
    ItemNodesConcat(items[..i + 1], items[i + 1..]);
  }

  // ------------------------------------------ what normalizing does not change

  predicate FieldsValid(fields: seq<Field>, depth: nat) {
    forall f :: f in fields ==> ValidParameterKey(f.key) && ValidParameterValue(f.value, depth)
  }

  lemma {:induction false} NormalizeKeepsValidity(v: Value, depth: nat)
    requires ValidParameterValue(v, depth)
    ensures ValidParameterValue(Normalize(v), depth)
    decreases v
  {
    match v
    case Arr(items) =>
      NormalizeItemsAt(items);
      forall i | 0 <= i < |items|
        ensures ValidParameterValue(Normalize(items[i]), depth + 1)
      {
        NormalizeKeepsValidity(items[i], depth + 1);
      }
    case Obj(fields) =>
      assert FieldsValid(fields, depth + 1);
      NormalizeFieldsKeepValidity(fields, depth + 1);
      assert forall i :: 0 <= i < |NormalizeFields(fields)| ==> NormalizeFields(fields)[i] in NormalizeFields(fields);
    case _ =>
  }

  lemma {:induction false} NormalizeFieldsKeepValidity(fields: seq<Field>, depth: nat)
    requires FieldsValid(fields, depth)
    ensures FieldsValid(NormalizeFields(fields), depth)
    decreases fields
  {
    hide ValidParameterValue, ValidParameterKey;
    if fields != [] {
      assert forall f :: f in fields[1..] ==> f in fields;
      assert fields[0] in fields;
      NormalizeFieldsKeepValidity(fields[1..], depth);
      NormalizeKeepsValidity(fields[0].value, depth);
      InsertMembers(Field(fields[0].key, Normalize(fields[0].value)), NormalizeFields(fields[1..]));
    }
  }

  lemma {:induction false} InsertNodes(field: Field, fields: seq<Field>)
    ensures FieldNodes(Insert(field, fields)) == Nodes(field.value) + FieldNodes(fields)
  {
    hide Nodes;
    if fields == [] || !Before(fields[0].key, field.key) {
      assert ([field] + fields)[1..] == fields;
    } else {
      InsertNodes(field, fields[1..]);
      var rest := Insert(field, fields[1..]);
      assert ([fields[0]] + rest)[1..] == rest;
    }
  }

  lemma {:induction false} NormalizeKeepsNodes(v: Value)
    ensures Nodes(Normalize(v)) == Nodes(v)
    decreases v
  {
    match v
    case Arr(items) => NormalizeItemsKeepNodes(items);
    case Obj(fields) => NormalizeFieldsKeepNodes(fields);
    case _ =>
  }

  lemma {:induction false} NormalizeItemsKeepNodes(items: seq<Value>)
    ensures ItemNodes(NormalizeItems(items)) == ItemNodes(items)
    decreases items
  {
    if items != [] {
      NormalizeKeepsNodes(items[0]);
      NormalizeItemsKeepNodes(items[1..]);
      assert ([Normalize(items[0])] + NormalizeItems(items[1..]))[1..] == NormalizeItems(items[1..]);
    }
  }

  lemma {:induction false} NormalizeFieldsKeepNodes(fields: seq<Field>)
    ensures FieldNodes(NormalizeFields(fields)) == FieldNodes(fields)
    decreases fields
  {
    if fields != [] {
      NormalizeKeepsNodes(fields[0].value);
      NormalizeFieldsKeepNodes(fields[1..]);
      InsertNodes(Field(fields[0].key, Normalize(fields[0].value)), NormalizeFields(fields[1..]));
    }
  }

  // -------------------------------------------------------- printed lengths

  function TextLength(v: Value): nat {
    Utf8.ByteLen(Text(v))
  }

  /** The bytes of the members, without the commas between them. */
  function FieldsLength(fields: seq<Field>): nat {
    if fields == [] then 0 else Utf8.ByteLen(FieldText(fields[0])) + FieldsLength(fields[1..])
  }

  function ItemsLength(items: seq<Value>): nat {
    if items == [] then 0 else TextLength(items[0]) + ItemsLength(items[1..])
  }

  function Commas(n: nat): nat {
    if n == 0 then 0 else n - 1
  }

  lemma {:induction false} FieldsTextLength(fields: seq<Field>)
    ensures Utf8.ByteLen(FieldsText(fields)) == FieldsLength(fields) + Commas(|fields|)
  {
    hide FieldText, Utf8.Utf8Bytes;
    if fields != [] {
      if |fields| == 1 {
        assert fields[1..] == [];
      } else {
        FieldsTextLength(fields[1..]);
        CommaJoin(FieldText(fields[0]), FieldsText(fields[1..]));
      }
    }
  }

  lemma {:induction false} ItemsTextLength(items: seq<Value>)
    ensures Utf8.ByteLen(ItemsText(items)) == ItemsLength(items) + Commas(|items|)
  {
    hide Text, Utf8.Utf8Bytes;
    if items != [] {
      if |items| == 1 {
        assert items[1..] == [];
      } else {
        ItemsTextLength(items[1..]);
        CommaJoin(Text(items[0]), ItemsText(items[1..]));
      }
    }
  }

  lemma AsciiLength(c: char)
    requires c as int < 0x80
    ensures Utf8.ByteLen([c]) == 1
  {
    assert [c][1..] == "";
  }

  lemma CommaJoin(a: string, b: string)
    ensures Utf8.ByteLen(a + "," + b) == Utf8.ByteLen(a) + 1 + Utf8.ByteLen(b)
  {
    Utf8.OfStringConcat(a + ",", b);
    Utf8.OfStringConcat(a, ",");
    AsciiLength(',');
  }

  lemma Bracketed(open: char, body: string, close: char)
    requires open as int < 0x80 && close as int < 0x80
    ensures Utf8.ByteLen([open] + body + [close]) == Utf8.ByteLen(body) + 2
  {
    Utf8.OfStringConcat([open] + body, [close]);
    Utf8.OfStringConcat([open], body);
    AsciiLength(open);
    AsciiLength(close);
  }

  lemma FieldTextLength(field: Field)
    ensures Utf8.ByteLen(FieldText(field)) == Utf8.ByteLen(Quoted(field.key)) + 1 + TextLength(field.value)
  {
    hide Quoted, Text;
    Utf8.OfStringConcat(Quoted(field.key) + ":", Text(field.value));
    Utf8.OfStringConcat(Quoted(field.key), ":");
    AsciiLength(':');
  }

  lemma {:induction false} InsertLength(field: Field, fields: seq<Field>)
    ensures FieldsLength(Insert(field, fields)) == Utf8.ByteLen(FieldText(field)) + FieldsLength(fields)
    ensures |Insert(field, fields)| == |fields| + 1
  {
    hide FieldText;
    if fields == [] || !Before(fields[0].key, field.key) {
      assert ([field] + fields)[1..] == fields;
    } else {
      InsertLength(field, fields[1..]);
      var rest := Insert(field, fields[1..]);
      assert ([fields[0]] + rest)[1..] == rest;
    }
  }

  lemma {:induction false} NormalizeKeepsLength(v: Value)
    ensures TextLength(Normalize(v)) == TextLength(v)
    decreases v
  {
    match v
    case Arr(items) =>
      NormalizeItemsKeepLength(items);
      ItemsTextLength(items);
      ItemsTextLength(NormalizeItems(items));
      Bracketed('[', ItemsText(items), ']');
      Bracketed('[', ItemsText(NormalizeItems(items)), ']');
    case Obj(fields) =>
      NormalizeFieldsKeepLength(fields);
      FieldsTextLength(fields);
      FieldsTextLength(NormalizeFields(fields));
      Bracketed('{', FieldsText(fields), '}');
      Bracketed('{', FieldsText(NormalizeFields(fields)), '}');
    case _ =>
  }

  lemma {:induction false} NormalizeItemsKeepLength(items: seq<Value>)
    ensures ItemsLength(NormalizeItems(items)) == ItemsLength(items)
    decreases items
  {
    hide TextLength;
    if items != [] {
      NormalizeKeepsLength(items[0]);
      NormalizeItemsKeepLength(items[1..]);
      assert ([Normalize(items[0])] + NormalizeItems(items[1..]))[1..] == NormalizeItems(items[1..]);
    }
  }

  lemma {:induction false} NormalizeFieldsKeepLength(fields: seq<Field>)
    ensures FieldsLength(NormalizeFields(fields)) == FieldsLength(fields)
    ensures |NormalizeFields(fields)| == |fields|
    decreases fields
  {
    hide FieldText, TextLength;
    if fields != [] {
      var field := Field(fields[0].key, Normalize(fields[0].value));
      NormalizeKeepsLength(fields[0].value);
      FieldTextLength(fields[0]);
      FieldTextLength(field);
      NormalizeFieldsKeepLength(fields[1..]);
      InsertLength(field, NormalizeFields(fields[1..]));
    }
  }

  lemma SortedParametersNormalize(ps: Parameters)
    ensures NormalParameters(ps) == NormalizeEach(ps)
  {
    SortedFieldsNormalize(ps);
  }

  lemma ParameterStaysValid(field: Field)
    requires ValidParameter(field)
    ensures ValidParameter(Field(field.key, Normalize(field.value)))
  {
    hide ValidParameterValue, Text;
    NormalizeKeepsValidity(field.value, 0);
    NormalizeKeepsLength(field.value);
  }

  /** Validation does not see the order of keys, so a canonical snapshot of a valid goal is valid. */
  lemma NormalGoalIsValid(g: Goal)
    requires ValidGoal(g)
    ensures ValidGoal(NormalGoal(g))
  {
    hide ValidParameter, ValidScope, ValidPlaybook, ValidIdentifier, Text, FieldNodes, Normalize;
    var ps := g.parameters;
    SortedParametersNormalize(ps);
    NormalizeFieldsKeepNodes(ps);
    ParametersKeepLength(ps);
    forall i | 0 <= i < |ps|
      ensures ValidParameter(NormalParameters(ps)[i])
    {
      ParameterStaysValid(ps[i]);
    }
  }

  lemma ParametersKeepLength(ps: Parameters)
    ensures Utf8.ByteLen(Text(Obj(NormalParameters(ps)))) == Utf8.ByteLen(Text(Obj(ps)))
  {
    NormalizeKeepsLength(Obj(ps));
    assert Normalize(Obj(ps)) == Obj(NormalParameters(ps));
  }

  /**
   * A goal snapshot survives storage: its canonical bytes parse to a goal that is
   * valid, has the same identity, prints as the same bytes, and only differs from
   * the original in the order of keys inside parameter values.
   */
  lemma SnapshotReadsBack(g: Goal)
    requires CanonicalBytes(GoalJson(g)).Ok?
    ensures var bytes := CanonicalBytes(GoalJson(g)).value;
            && ParseBytes(bytes).Some?
            && GoalOf(ParseBytes(bytes).value) == Some(NormalGoal(g))
            && CanonicalBytes(GoalJson(NormalGoal(g))) == Ok(bytes)
            && (ValidGoal(g) ==> ValidGoal(NormalGoal(g)))
  {
    hide CanonicalBytes, ValidGoal, GoalJson;
    CanonicalBytesReadBack(GoalJson(g));
    CanonicalBytesOfNormal(GoalJson(g));
    GoalJsonNormalizes(g);
    NormalizeIdempotent(GoalJson(g));
    GoalMembersOfJson(NormalGoal(g));
    if ValidGoal(g) {
      NormalGoalIsValid(g);
    }
  }
}
