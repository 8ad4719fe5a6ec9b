// The records of the persistent goal store and the checks every request passes.
module GoalTypes {
  import opened Basics
  import opened Json
  import Utf8

  const MAX_IDENTIFIER := 128
  const MAX_TEXT := 4096
  const MAX_PARAMETERS := 32
  const MAX_PARAMETER_JSON := 8192
  const MAX_ALL_PARAMETER_JSON := 32768
  const MAX_PARAMETER_DEPTH := 16
  const MAX_PARAMETER_NODES := 1024
  const MAX_MILESTONES := 128
  const MAX_EVIDENCE := 32
  const MAX_REVISION := 1000000000

  /** An ordered map from names to values, as its entries in key order. */
  type Parameters = ps: seq<Field> | KeysIncrease(ps) witness []

  datatype GoalScope = GoalScope(organization: string, project: string, environment: string, site: string)

  datatype PlaybookIdentity = PlaybookIdentity(id: string, digest: string)

  datatype Goal = Goal(
    id: string,
    scope: GoalScope,
    revision: int,
    objective: string,
    playbook: PlaybookIdentity,
    parameters: Parameters)

  datatype GoalPatch = GoalPatch(
    objective: Option<string>,
    playbook: Option<PlaybookIdentity>,
    parameters: Option<Parameters>)

  datatype GoalMutation = GoalMutation(actor: string, requestId: string, operation: string)

  datatype Milestone = Milestone(
    id: string,
    preparation: string,
    evidence: seq<string>,
    dependencies: set<string>,
    requiresRefresh: bool)

  // ------------------------------------------------------------- identifiers

  predicate AsciiAlphanumeric(c: char) {
    'a' <= c <= 'z' || 'A' <= c <= 'Z' || '0' <= c <= '9'
  }

  predicate IdentifierChar(c: char) {
    AsciiAlphanumeric(c) || c == '-' || c == '_' || c == '.' || c == ':'
  }

  /** Every accepted character is one byte long, so characters count bytes. */
  predicate ValidIdentifier(s: string) {
    0 < |s| <= MAX_IDENTIFIER && forall i :: 0 <= i < |s| ==> IdentifierChar(s[i])
  }

  predicate LowerHex(s: string) {
    |s| == 64 && forall i :: 0 <= i < |s| ==> '0' <= s[i] <= '9' || 'a' <= s[i] <= 'f'
  }

  /** A digest is any function into 64 lower-case hexadecimal characters; nothing else is assumed of it. */
  type Digest = h: seq<Byte> -> string | (forall bytes :: LowerHex(h(bytes)))
    ghost witness (bytes: seq<Byte>) => seq(64, i => '0')

  predicate ValidScope(scope: GoalScope) {
    ValidIdentifier(scope.organization) && ValidIdentifier(scope.project)
    && ValidIdentifier(scope.environment) && ValidIdentifier(scope.site)
  }

  predicate ValidMutation(m: GoalMutation) {
    ValidIdentifier(m.actor) && ValidIdentifier(m.requestId) && ValidIdentifier(m.operation)
  }

  // -------------------------------------------------------------- parameters

  function Lower(c: char): char {
    if 'A' <= c <= 'Z' then (c as int + 32) as char else c
  }

  function LowerAll(s: string): string {
    if s == "" then "" else [Lower(s[0])] + LowerAll(s[1..])
  }

  /** Lower case, with everything but letters and digits dropped. */
  function Squashed(s: string): string {
    if s == "" then ""
    else (if AsciiAlphanumeric(s[0]) then [Lower(s[0])] else "") + Squashed(s[1..])
  }

  predicate Contains(s: string, word: string) {
    exists i :: 0 <= i <= |s| && word <= s[i..]
  }

  predicate CredentialLabel(s: string) {
    var t := Squashed(s);
    Contains(t, "token") || Contains(t, "secret") || Contains(t, "password") || Contains(t, "credential")
    || Contains(t, "apikey") || Contains(t, "authorization") || Contains(t, "accesskey") || Contains(t, "privatekey")
  }

  /** Unicode White_Space. */
  predicate Whitespace(c: char) {
    var n := c as int;
    9 <= n <= 13 || n == 0x20 || n == 0x85 || n == 0xA0 || n == 0x1680 || 0x2000 <= n <= 0x200A
    || n == 0x2028 || n == 0x2029 || n == 0x202F || n == 0x205F || n == 0x3000
  }

  function TrimStart(s: string): string {
    if s != "" && Whitespace(s[0]) then TrimStart(s[1..]) else s
  }

  predicate CredentialText(s: string) {
    var t := LowerAll(TrimStart(s));
    "bearer " <= t || "key=" <= t
  }

  predicate ValidParameterKey(key: string) {
    Utf8.ByteLen(key) <= MAX_IDENTIFIER && !CredentialLabel(key)
  }

  /** What the recursive check demands of one node, apart from the shared node budget. */
  predicate ValidParameterValue(v: Value, depth: nat)
    decreases v
  {
    depth <= MAX_PARAMETER_DEPTH &&
    match v
    case Obj(fields) =>
      forall i :: 0 <= i < |fields| ==>
        ValidParameterKey(fields[i].key) && ValidParameterValue(fields[i].value, depth + 1)
    case Arr(items) => forall i :: 0 <= i < |items| ==> ValidParameterValue(items[i], depth + 1)
    case Str(text) => Utf8.ByteLen(text) <= MAX_PARAMETER_JSON && !CredentialText(text)
    case _ => true
  }

  /** How many nodes of the shared budget a value uses. */
  function Nodes(v: Value): (n: nat)
    ensures n >= 1
    decreases v
  {
    match v
    case Obj(fields) => 1 + FieldNodes(fields)
    case Arr(items) => 1 + ItemNodes(items)
    case _ => 1
  }

  function ItemNodes(items: seq<Value>): (n: nat)
    ensures n >= |items|
    decreases items
  {
    if items == [] then 0 else Nodes(items[0]) + ItemNodes(items[1..])
  }

  function FieldNodes(fields: seq<Field>): (n: nat)
    ensures n >= |fields|
    decreases fields
  {
    if fields == [] then 0 else Nodes(fields[0].value) + FieldNodes(fields[1..])
  }

  predicate ValidParameter(field: Field) {
    ValidIdentifier(field.key) && !CredentialLabel(field.key)
    && ValidParameterValue(field.value, 0)
    && Utf8.ByteLen(Text(field.value)) <= MAX_PARAMETER_JSON
  }

  predicate ValidParameters(ps: Parameters) {
    |ps| <= MAX_PARAMETERS
    && (forall i :: 0 <= i < |ps| ==> ValidParameter(ps[i]))
    && FieldNodes(ps) <= MAX_PARAMETER_NODES
    && Utf8.ByteLen(Text(Obj(ps))) <= MAX_ALL_PARAMETER_JSON
  }

  // ------------------------------------------------------------ whole records

  predicate ValidObjective(s: string) {
    s != "" && Utf8.ByteLen(s) <= MAX_TEXT
  }

  predicate ValidPlaybook(p: PlaybookIdentity) {
    ValidIdentifier(p.id) && LowerHex(p.digest)
  }

  predicate ValidRevision(r: int) {
    1 <= r <= MAX_REVISION
  }

  predicate ValidGoal(g: Goal) {
    ValidScope(g.scope) && ValidIdentifier(g.id) && ValidObjective(g.objective)
    && ValidPlaybook(g.playbook) && ValidRevision(g.revision) && ValidParameters(g.parameters)
  }

  predicate ValidPatch(patch: GoalPatch) {
    (patch.objective.Some? ==> ValidObjective(patch.objective.value))
    && (patch.playbook.Some? ==> ValidPlaybook(patch.playbook.value))
    && (patch.parameters.Some? ==> ValidParameters(patch.parameters.value))
  }

  predicate ValidEvidence(s: string) {
    ValidIdentifier(s) && !CredentialLabel(s)
  }

  predicate ValidMilestone(m: Milestone) {
    ValidIdentifier(m.id)
    && (m.preparation == "planned" || m.preparation == "prepared" || m.preparation == "needs_refresh")
    && |m.evidence| <= MAX_EVIDENCE
    && (m.requiresRefresh <==> m.preparation == "needs_refresh")
    && |m.dependencies| <= MAX_PARAMETERS
    && (forall i :: 0 <= i < |m.evidence| ==> ValidEvidence(m.evidence[i]))
    && (forall d :: d in m.dependencies ==> ValidIdentifier(d))
  }
}
