// The byte limits of the gate's queries never refuse what the journal itself wrote.
module SizeLimits {
  import opened Json
  import opened Records
  import opened GoalTypes
  import opened GoalRecords
  import opened Runs
  import Utf8

  const MAX_STORED_GOAL := 65536
  const MAX_STORED_BINDING := 4096

  predicate PlainChar(c: char) {
    ' ' <= c && c as int < 0x80 && c != '\"' && c != '\\'
  }

  /** Plain text is quoted as it is. */
  lemma {:induction false} PlainLength(s: string)
    requires forall i :: 0 <= i < |s| ==> PlainChar(s[i])
    ensures Utf8.ByteLen(EscapedAll(s)) == |s| == Utf8.ByteLen(s)
  {
    if s != "" {
      PlainLength(s[1..]);
      Utf8.OfStringConcat(Escaped(s[0]), EscapedAll(s[1..]));
      AsciiLength(s[0]);
    }
  }

  /** Escaping makes a text at most six times longer. */
  lemma {:induction false} EscapedLength(s: string)
    ensures Utf8.ByteLen(EscapedAll(s)) <= 6 * Utf8.ByteLen(s)
  {
    hide Escaped, Utf8.Utf8Bytes;
    if s != "" {
      EscapedLength(s[1..]);
      Utf8.OfStringConcat(Escaped(s[0]), EscapedAll(s[1..]));
      EscapedCharLength(s[0]);
    }
  }

  lemma EscapedCharLength(c: char)
    ensures Utf8.ByteLen(Escaped(c)) <= 6 * |Utf8.Utf8Bytes(c as int)|
  {
    var e := Escaped(c);
    if e == [c] {
      assert e[1..] == "";
    } else {
      assert |e| <= 6 && forall i :: 0 <= i < |e| ==> e[i] as int < 0x80;
      AsciiText(e);
    }
  }

  lemma {:induction false} AsciiText(s: string)
    requires forall i :: 0 <= i < |s| ==> s[i] as int < 0x80
    ensures Utf8.ByteLen(s) == |s|
  {
    if s != "" {
      AsciiText(s[1..]);
    }
  }

  lemma QuotedLength(s: string)
    ensures Utf8.ByteLen(Quoted(s)) == Utf8.ByteLen(EscapedAll(s)) + 2
  {
    Bracketed('\"', EscapedAll(s), '\"');
  }

  lemma IdentifierLength(s: string)
    requires ValidIdentifier(s)
    ensures TextLength(Str(s)) <= MAX_IDENTIFIER + 2
  {
    PlainLength(s);
    QuotedLength(s);
  }

  lemma DigestLength(s: string)
    requires LowerHex(s)
    ensures TextLength(Str(s)) == 66
  {
    PlainLength(s);
    QuotedLength(s);
  }

  function Power(k: nat): nat {
    if k == 0 then 1 else 10 * Power(k - 1)
  }

  lemma {:induction false} NatTextLength(n: nat, k: nat)
    requires k >= 1 && n < Power(k)
    ensures Utf8.ByteLen(NatText(n)) <= k
    decreases k
  {
    if n < 10 {
      AsciiLength(HexDigit(n));
    } else {
      NatTextLength(n / 10, k - 1);
      Utf8.OfStringConcat(NatText(n / 10), [HexDigit(n % 10)]);
      AsciiLength(HexDigit(n % 10));
    }
  }

  lemma RevisionLength(n: int)
    requires ValidRevision(n)
    ensures TextLength(Int(n)) <= 10
  {
    assert Power(10) == 10000000000 by {
      assert Power(2) == 100 && Power(4) == 10000 && Power(6) == 1000000 && Power(8) == 100000000;
    }
    NatTextLength(n, 10);
  }

  /** The bytes of one member: its quoted key, a colon and its value. */
  lemma MemberLength(key: string, v: Value)
    requires forall i :: 0 <= i < |key| ==> PlainChar(key[i])
    ensures Utf8.ByteLen(FieldText(Field(key, v))) == |key| + 3 + TextLength(v)
  {
    FieldTextLength(Field(key, v));
    PlainLength(key);
    QuotedLength(key);
  }

  predicate PlainKeys(fields: seq<Field>) {
    forall i :: 0 <= i < |fields| ==> |fields[i].key| <= 24 && forall k :: 0 <= k < |fields[i].key| ==> PlainChar(fields[i].key[k])
  }

  /** Total length of the member values. */
  function ValuesLength(fields: seq<Field>): nat {
    if fields == [] then 0 else TextLength(fields[0].value) + ValuesLength(fields[1..])
  }

  lemma {:induction false} FieldsLengthBound(fields: seq<Field>)
    requires PlainKeys(fields)
    ensures FieldsLength(fields) <= ValuesLength(fields) + 27 * |fields|
  {
    hide FieldText, TextLength;
    if fields != [] {
      FieldsLengthBound(fields[1..]);
      MemberLength(fields[0].key, fields[0].value);
    }
  }

  lemma ObjectLength(fields: seq<Field>)
    requires PlainKeys(fields)
    ensures TextLength(Obj(fields)) <= ValuesLength(fields) + 28 * |fields| + 2
  {
    FieldsLengthBound(fields);
    FieldsTextLength(fields);
    Bracketed('{', FieldsText(fields), '}');
  }

  lemma GoalKeysPlain(values: seq<Value>)
    ensures |values| == 4 ==> PlainKeys(Fields(SCOPE_KEYS, values))
    ensures |values| == 2 ==> PlainKeys(Fields(PLAYBOOK_KEYS, values))
    ensures |values| == 6 ==> PlainKeys(Fields(GOAL_KEYS, values))
  {
  }

  lemma OneValue(a: Field)
    ensures ValuesLength([a]) == TextLength(a.value)
  {
    assert [a][1..] == [];
  }

  lemma TwoValues(a: Field, b: Field)
    ensures ValuesLength([a, b]) == TextLength(a.value) + TextLength(b.value)
  {
    hide TextLength;
    OneValue(b);
    assert [a, b][1..] == [b];
  }

  lemma {:induction false} ValuesConcat(a: seq<Field>, b: seq<Field>)
    ensures ValuesLength(a + b) == ValuesLength(a) + ValuesLength(b)
  {
    hide TextLength;
    if a == [] {
      assert a + b == b;
    } else {
      assert (a + b)[1..] == a[1..] + b;
      ValuesConcat(a[1..], b);
    }
  }

  lemma ScopeLength(s: GoalScope)
    requires ValidScope(s)
    ensures TextLength(ScopeJson(s)) <= 4 * (MAX_IDENTIFIER + 2) + 114
  {
    hide TextLength, ValidIdentifier;
    var values := [Str(s.environment), Str(s.organization), Str(s.project), Str(s.site)];
    var fields := Fields(SCOPE_KEYS, values);
    GoalKeysPlain(values);
    ObjectLength(fields);
    assert fields == [fields[0], fields[1]] + [fields[2], fields[3]];
    ValuesConcat([fields[0], fields[1]], [fields[2], fields[3]]);
    TwoValues(fields[0], fields[1]);
    TwoValues(fields[2], fields[3]);
    IdentifierLength(s.environment);
    IdentifierLength(s.organization);
    IdentifierLength(s.project);
    IdentifierLength(s.site);
  }

  lemma PlaybookLength(p: PlaybookIdentity)
    requires ValidPlaybook(p)
    ensures TextLength(PlaybookJson(p)) <= MAX_IDENTIFIER + 126
  {
    hide TextLength, ValidIdentifier;
    var values := [Str(p.digest), Str(p.id)];
    var fields := Fields(PLAYBOOK_KEYS, values);
    GoalKeysPlain(values);
    ObjectLength(fields);
    assert fields == [fields[0], fields[1]];
    TwoValues(fields[0], fields[1]);
    IdentifierLength(p.id);
    DigestLength(p.digest);
  }

  lemma ObjectiveLength(s: string)
    requires ValidObjective(s)
    ensures TextLength(Str(s)) <= 6 * MAX_TEXT + 2
  {
    EscapedLength(s);
    QuotedLength(s);
  }

  /** A valid goal always fits the 65536 bytes the gate reads. */
  lemma StoredGoalFits(g: Goal)
    requires ValidGoal(g)
    ensures TextLength(GoalJson(g)) <= MAX_STORED_GOAL
  {
    hide TextLength, ValidIdentifier, ValidScope, ValidPlaybook, ValidObjective;
    var values := [Str(g.id), Str(g.objective), Obj(g.parameters), PlaybookJson(g.playbook), Int(g.revision), ScopeJson(g.scope)];
    var fields := Fields(GOAL_KEYS, values);
    GoalKeysPlain(values);
    ObjectLength(fields);
    assert fields == [fields[0], fields[1]] + ([fields[2], fields[3]] + [fields[4], fields[5]]);
    ValuesConcat([fields[0], fields[1]], [fields[2], fields[3]] + [fields[4], fields[5]]);
    ValuesConcat([fields[2], fields[3]], [fields[4], fields[5]]);
    TwoValues(fields[0], fields[1]);
    TwoValues(fields[2], fields[3]);
    TwoValues(fields[4], fields[5]);
    IdentifierLength(g.id);
    ObjectiveLength(g.objective);
    ParametersLength(g.parameters);
    PlaybookLength(g.playbook);
    RevisionLength(g.revision);
    ScopeLength(g.scope);
  }

  lemma ParametersLength(ps: Parameters)
    requires ValidParameters(ps)
    ensures TextLength(Obj(ps)) <= MAX_ALL_PARAMETER_JSON
  {
    hide FieldNodes;
  }

  const BINDING_KEYS := ["goal_id", "goal_revision", "run_id", "scope", "version"]

  function BindingJson(b: GoalRunBinding): Value {
    ObjectOf(BINDING_KEYS, [Str(b.goalId), Int(b.goalRevision), Str(b.runId), ScopeJson(b.scope), Int(b.version)])
  }

  lemma BindingKeysPlain(values: seq<Value>)
    ensures |values| == 5 ==> PlainKeys(Fields(BINDING_KEYS, values))
  {
  }

  /** A valid binding always fits the 4096 bytes the gate reads. */
  lemma StoredBindingFits(b: GoalRunBinding)
    requires ValidBinding(b)
    ensures TextLength(BindingJson(b)) <= MAX_STORED_BINDING
  {
    hide TextLength, ValidIdentifier, ValidScope;
    var values := [Str(b.goalId), Int(b.goalRevision), Str(b.runId), ScopeJson(b.scope), Int(b.version)];
    var fields := Fields(BINDING_KEYS, values);
    BindingKeysPlain(values);
    ObjectLength(fields);
    assert fields == [fields[0], fields[1]] + ([fields[2], fields[3]] + [fields[4]]);
    ValuesConcat([fields[0], fields[1]], [fields[2], fields[3]] + [fields[4]]);
    ValuesConcat([fields[2], fields[3]], [fields[4]]);
    TwoValues(fields[0], fields[1]);
    TwoValues(fields[2], fields[3]);
    OneValue(fields[4]);
    IdentifierLength(b.goalId);
    IdentifierLength(b.runId);
    RevisionLength(b.goalRevision);
    RevisionLength(b.version);
    ScopeLength(b.scope);
  }
}
