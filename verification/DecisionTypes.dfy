// Decision packages and the audit events that carry them: validation, JSON and
// what their canonical bytes determine.
module DecisionTypes {
  import opened Basics
  import opened Json
  import opened CanonicalJson
  import opened Records
  import opened GoalTypes
  import opened GoalRecords
  import Utf8

  const DECISION_VERSION := 1
  const MAX_DECISION_TEXT := 4096
  const MAX_REFERENCE := 512
  const MAX_REFS := 64
  const MAX_OPTIONS := 32

  datatype Domain = Software | Supply | Payments | Operations

  datatype Reference = Reference(locator: string, revision: Option<string>)

  datatype Evidence = Evidence(reference: Reference, missing: bool)

  datatype GraphContext = GraphContext(reference: Reference, watermark: Option<string>)

  datatype Link = Link(decisionId: string, revision: int)

  /** The verification ceiling and the execution authority have one value each and are left implicit. */
  datatype Package = Package(
    version: int,
    decisionId: string,
    revision: int,
    domain: Domain,
    question: string,
    objectReferences: seq<Reference>,
    evidence: seq<Evidence>,
    graphContext: Option<GraphContext>,
    policyReferences: seq<Reference>,
    calculationReferences: seq<Reference>,
    modelReferences: seq<Reference>,
    producerReferences: seq<Reference>,
    options: seq<string>,
    constraints: seq<string>,
    rationale: string,
    reviews: seq<Reference>,
    authorizationObservations: seq<Reference>,
    effectAttempts: seq<Reference>,
    acknowledgements: seq<Reference>,
    outcomes: seq<Reference>,
    reconciliations: seq<Reference>,
    correctionOf: Option<Link>,
    successorTo: Option<Link>)

  datatype Event = Event(
    scope: GoalScope,
    runId: string,
    goalId: string,
    goalRevision: int,
    goalDigest: string,
    sequence: int,
    package: Package,
    requestId: string,
    requestDigest: string,
    packageDigest: string,
    eventDigest: string,
    predecessor: Option<string>,
    createdAt: int)

  // ----------------------------------------------------------------- validation

  predicate ReferenceChar(c: char) {
    IdentifierChar(c) || c == '/' || c == '@'
  }

  predicate ValidReferenceText(s: string) {
    0 < |s| <= MAX_REFERENCE && forall i :: 0 <= i < |s| ==> ReferenceChar(s[i])
  }

  predicate ValidReference(r: Reference) {
    ValidReferenceText(r.locator) && r.revision.Some? && ValidReferenceText(r.revision.value)
  }

  predicate ValidReferences(rs: seq<Reference>) {
    |rs| <= MAX_REFS && forall i :: 0 <= i < |rs| ==> ValidReference(rs[i])
  }

  /** Missing evidence may omit its revision; present evidence may not. */
  predicate ValidEvidence(e: Evidence) {
    if e.missing then
      ValidReferenceText(e.reference.locator)
      && (e.reference.revision.Some? ==> ValidReferenceText(e.reference.revision.value))
    else ValidReference(e.reference)
  }

  predicate ValidGraph(g: GraphContext) {
    ValidReference(g.reference) && g.watermark.Some? && ValidReferenceText(g.watermark.value)
  }

  predicate ValidDecisionText(s: string) {
    s != "" && Utf8.ByteLen(s) <= MAX_DECISION_TEXT
  }

  predicate ValidTexts(ts: seq<string>) {
    |ts| <= MAX_OPTIONS && forall i :: 0 <= i < |ts| ==> ValidDecisionText(ts[i])
  }

  predicate ValidLink(link: Option<Link>, p: Package) {
    link.Some? ==>
      ValidIdentifier(link.value.decisionId) && ValidRevision(link.value.revision)
      && (link.value.decisionId != p.decisionId || link.value.revision != p.revision)
  }

  predicate ValidPackage(p: Package) {
    p.version == DECISION_VERSION && ValidIdentifier(p.decisionId) && ValidRevision(p.revision)
    && ValidDecisionText(p.question) && ValidDecisionText(p.rationale)
    && ValidTexts(p.options) && ValidTexts(p.constraints)
    && ValidReferences(p.objectReferences)
    && |p.evidence| <= MAX_REFS && (forall i :: 0 <= i < |p.evidence| ==> ValidEvidence(p.evidence[i]))
    && (p.graphContext.Some? ==> ValidGraph(p.graphContext.value))
    && ValidReferences(p.policyReferences) && ValidReferences(p.calculationReferences)
    && ValidReferences(p.modelReferences) && ValidReferences(p.producerReferences)
    && ValidReferences(p.reviews) && ValidReferences(p.authorizationObservations)
    && ValidReferences(p.effectAttempts) && ValidReferences(p.acknowledgements)
    && ValidReferences(p.outcomes) && ValidReferences(p.reconciliations)
    && ValidLink(p.correctionOf, p) && ValidLink(p.successorTo, p)
    && CanonicalBytes(PackageJson(p)).Ok?
  }

  // ----------------------------------------------------------------------- JSON

  const REFERENCE_KEYS := ["locator", "revision"]
  const EVIDENCE_KEYS := ["missing", "reference"]
  const GRAPH_KEYS := ["reference", "watermark"]
  const TYPED_KEYS := ["reference"]
  const LINK_KEYS := ["decision_id", "revision"]

  function OptionJson(s: Option<string>): Value {
    if s.Some? then Str(s.value) else Null
  }

  function StrJson(s: string): Value {
    Str(s)
  }

  function ReferenceJson(r: Reference): Value {
    ObjectOf(REFERENCE_KEYS, [Str(r.locator), OptionJson(r.revision)])
  }

  function TypedJson(r: Reference): Value {
    ObjectOf(TYPED_KEYS, [ReferenceJson(r)])
  }

  function EvidenceJson(e: Evidence): Value {
    ObjectOf(EVIDENCE_KEYS, [Bool(e.missing), ReferenceJson(e.reference)])
  }

  function GraphJson(g: Option<GraphContext>): Value {
    if g.Some? then ObjectOf(GRAPH_KEYS, [ReferenceJson(g.value.reference), OptionJson(g.value.watermark)]) else Null
  }

  function LinkJson(link: Option<Link>): Value {
    if link.Some? then ObjectOf(LINK_KEYS, [Str(link.value.decisionId), Int(link.value.revision)]) else Null
  }

  function ListJson<T>(xs: seq<T>, f: T -> Value): Value {
    Arr(seq(|xs|, i requires 0 <= i < |xs| => f(xs[i])))
  }

  function DomainText(d: Domain): string {
    match d
    case Software => "software"
    case Supply => "supply"
    case Payments => "payments"
    case Operations => "operations"
  }

  const PACKAGE_KEYS := [
    "acknowledgements", "authorization_observations", "calculation_references", "constraints", "correction_of",
    "decision_id", "domain", "effect_attempts", "evidence", "execution_authority", "graph_context",
    "model_references", "object_references", "options", "outcomes", "policy_references", "producer_references",
    "question", "rationale", "reconciliations", "reviews", "revision", "successor_to", "verification_ceiling", "version"]

  function PackageValues(p: Package): (r: seq<Value>)
    ensures |r| == |PACKAGE_KEYS|
  {
    [ListJson(p.acknowledgements, TypedJson), ListJson(p.authorizationObservations, TypedJson),
     ListJson(p.calculationReferences, ReferenceJson), ListJson(p.constraints, StrJson), LinkJson(p.correctionOf),
     Str(p.decisionId), Str(DomainText(p.domain)), ListJson(p.effectAttempts, TypedJson), ListJson(p.evidence, EvidenceJson),
     Str("None"), GraphJson(p.graphContext),
     ListJson(p.modelReferences, ReferenceJson), ListJson(p.objectReferences, ReferenceJson), ListJson(p.options, StrJson),
     ListJson(p.outcomes, TypedJson), ListJson(p.policyReferences, ReferenceJson), ListJson(p.producerReferences, ReferenceJson),
     Str(p.question), Str(p.rationale), ListJson(p.reconciliations, TypedJson), ListJson(p.reviews, TypedJson),
     Int(p.revision), LinkJson(p.successorTo), Str("RecordedOnly"), Int(p.version)]
  }

  function PackageJson(p: Package): Value {
    ObjectOf(PACKAGE_KEYS, PackageValues(p))
  }

  // ------------------------------------------------------------------- decoding

  function OptionOf(v: Value): Option<string> {
    if v.Str? then Some(v.text) else None
  }

  function ReferenceOf(v: Value): Reference {
    var m := Members(v, REFERENCE_KEYS);
    Reference(TextOf(m[0]), OptionOf(m[1]))
  }

  function TypedOf(v: Value): Reference {
    ReferenceOf(Members(v, TYPED_KEYS)[0])
  }

  function EvidenceOf(v: Value): Evidence {
    var m := Members(v, EVIDENCE_KEYS);
    Evidence(ReferenceOf(m[1]), m[0].Bool? && m[0].flag)
  }

  function GraphOf(v: Value): Option<GraphContext> {
    if v.Obj? then
      var m := Members(v, GRAPH_KEYS);
      Some(GraphContext(ReferenceOf(m[0]), OptionOf(m[1])))
    else None
  }

  function LinkOf(v: Value): Option<Link> {
    if v.Obj? then
      var m := Members(v, LINK_KEYS);
      Some(Link(TextOf(m[0]), NumberOf(m[1])))
    else None
  }

  function ListOf<T>(v: Value, f: Value -> T): seq<T> {
    if v.Arr? then seq(|v.items|, i requires 0 <= i < |v.items| => f(v.items[i])) else []
  }

  function DomainOf(v: Value): Domain {
    if v == Str("software") then Software
    else if v == Str("supply") then Supply
    else if v == Str("payments") then Payments
    else Operations
  }

  function PackageMembers(v: Value): Package {
    var m := Members(v, PACKAGE_KEYS);
    Package(NumberOf(m[24]), TextOf(m[5]), NumberOf(m[21]), DomainOf(m[6]), TextOf(m[17]),
            ListOf(m[12], ReferenceOf), ListOf(m[8], EvidenceOf), GraphOf(m[10]),
            ListOf(m[15], ReferenceOf), ListOf(m[2], ReferenceOf), ListOf(m[11], ReferenceOf), ListOf(m[16], ReferenceOf),
            ListOf(m[13], TextOf), ListOf(m[3], TextOf), TextOf(m[18]),
            ListOf(m[20], TypedOf), ListOf(m[1], TypedOf), ListOf(m[7], TypedOf), ListOf(m[0], TypedOf),
            ListOf(m[14], TypedOf), ListOf(m[19], TypedOf), LinkOf(m[4]), LinkOf(m[22]))
  }

  /** Reads a package: anything a package does not print as, up to key order, is refused. */
  function PackageOf(v: Value): Option<Package> {
    var p := PackageMembers(Normalize(v));
    if PackageJson(p) == Normalize(v) then Some(p) else None
  }

  // ---------------------------------------------------------- what JSON keeps

  lemma ReferenceReadsBack(r: Reference)
    ensures ReferenceOf(ReferenceJson(r)) == r && TypedOf(TypedJson(r)) == r
  {
    MembersOfRecord(REFERENCE_KEYS, [Str(r.locator), OptionJson(r.revision)]);
    MembersOfRecord(TYPED_KEYS, [ReferenceJson(r)]);
  }

  lemma EvidenceReadsBack(e: Evidence)
    ensures EvidenceOf(EvidenceJson(e)) == e
  {
    ReferenceReadsBack(e.reference);
    MembersOfRecord(EVIDENCE_KEYS, [Bool(e.missing), ReferenceJson(e.reference)]);
  }

  lemma GraphReadsBack(g: Option<GraphContext>)
    ensures GraphOf(GraphJson(g)) == g
  {
    if g.Some? {
      ReferenceReadsBack(g.value.reference);
      MembersOfRecord(GRAPH_KEYS, [ReferenceJson(g.value.reference), OptionJson(g.value.watermark)]);
    }
  }

  lemma LinkReadsBack(link: Option<Link>)
    ensures LinkOf(LinkJson(link)) == link
  {
    if link.Some? {
      MembersOfRecord(LINK_KEYS, [Str(link.value.decisionId), Int(link.value.revision)]);
    }
  }

  lemma ReferencesReadBack(rs: seq<Reference>)
    ensures ListOf(ListJson(rs, ReferenceJson), ReferenceOf) == rs
    ensures ListOf(ListJson(rs, TypedJson), TypedOf) == rs
  {
    forall i | 0 <= i < |rs|
      ensures ReferenceOf(ReferenceJson(rs[i])) == rs[i] && TypedOf(TypedJson(rs[i])) == rs[i]
    {
      ReferenceReadsBack(rs[i]);
    }
  }

  lemma EvidencesReadBack(es: seq<Evidence>)
    ensures ListOf(ListJson(es, EvidenceJson), EvidenceOf) == es
  {
    forall i | 0 <= i < |es|
      ensures EvidenceOf(EvidenceJson(es[i])) == es[i]
    {
      EvidenceReadsBack(es[i]);
    }
  }

  lemma TextsReadBack(ts: seq<string>)
    ensures ListOf(ListJson(ts, StrJson), TextOf) == ts
  {
    assert forall i :: 0 <= i < |ts| ==> TextOf(StrJson(ts[i])) == ts[i];
  }

  lemma DomainReadsBack(d: Domain)
    ensures DomainOf(Str(DomainText(d))) == d
  {
  }

  /** A package's JSON determines the package. */
  lemma PackageReadsBack(p: Package)
    ensures PackageMembers(PackageJson(p)) == p
  {
    hide ListOf, ListJson, GraphOf, GraphJson, LinkOf, LinkJson, Members, Fields, DomainText;
    MembersOfRecord(PACKAGE_KEYS, PackageValues(p));
    ReferencesReadBack(p.objectReferences);
    ReferencesReadBack(p.policyReferences);
    ReferencesReadBack(p.calculationReferences);
    ReferencesReadBack(p.modelReferences);
    ReferencesReadBack(p.producerReferences);
    ReferencesReadBack(p.reviews);
    ReferencesReadBack(p.authorizationObservations);
    ReferencesReadBack(p.effectAttempts);
    ReferencesReadBack(p.acknowledgements);
    ReferencesReadBack(p.outcomes);
    ReferencesReadBack(p.reconciliations);
    EvidencesReadBack(p.evidence);
    GraphReadsBack(p.graphContext);
    LinkReadsBack(p.correctionOf);
    LinkReadsBack(p.successorTo);
    TextsReadBack(p.options);
    TextsReadBack(p.constraints);
    DomainReadsBack(p.domain);
  }

  // ------------------------------------------------------------ normal already

  /** Nothing to sort and no floating-point number anywhere inside. */
  predicate Plain(v: Value) {
    Normal(v) && IntegersOnly(v)
  }

  lemma RecordIsPlain(keys: seq<string>, values: seq<Value>)
    requires |keys| == |values| && SortedKeys(keys) && forall i :: 0 <= i < |values| ==> Plain(values[i])
    ensures Plain(ObjectOf(keys, values))
  {
    hide Normal;
    assert forall i :: 0 <= i < |values| ==> Plain(values[i]) ==> Normal(values[i]) && IntegersOnly(values[i]);
    RecordIsNormal(keys, values);
    RecordHasIntegers(keys, values);
  }

  lemma ListIsPlain<T>(xs: seq<T>, f: T -> Value)
    requires forall i :: 0 <= i < |xs| ==> Plain(f(xs[i]))
    ensures Plain(ListJson(xs, f))
  {
    var items := ListJson(xs, f).items;
    NormalizeItemsAt(items);
    assert forall i :: 0 <= i < |items| ==> items[i] == f(xs[i]) && Plain(f(xs[i]));
    assert NormalizeItems(items) == items;
  }

  lemma SmallKeysSorted()
    ensures SortedKeys(REFERENCE_KEYS) && SortedKeys(EVIDENCE_KEYS) && SortedKeys(GRAPH_KEYS)
    ensures SortedKeys(TYPED_KEYS) && SortedKeys(LINK_KEYS)
  {
    BeforeAt("locator", "revision", 0);
    BeforeAt("missing", "reference", 0);
    BeforeAt("reference", "watermark", 0);
    BeforeAt("decision_id", "revision", 0);
  }

  lemma PackageNeighbours1()
    ensures Before("acknowledgements", "authorization_observations")
    ensures Before("authorization_observations", "calculation_references")
    ensures Before("calculation_references", "constraints")
  {
    hide Before;
    BeforeAt("acknowledgements", "authorization_observations", 1);
    BeforeAt("authorization_observations", "calculation_references", 0);
    BeforeAt("calculation_references", "constraints", 1);
  }

  lemma PackageNeighbours2()
    ensures Before("constraints", "correction_of")
    ensures Before("correction_of", "decision_id")
    ensures Before("decision_id", "domain")
  {
    hide Before;
    BeforeAt("constraints", "correction_of", 2);
    BeforeAt("correction_of", "decision_id", 0);
    BeforeAt("decision_id", "domain", 1);
  }

  lemma PackageNeighbours3()
    ensures Before("domain", "effect_attempts")
    ensures Before("effect_attempts", "evidence")
    ensures Before("evidence", "execution_authority")
  {
    hide Before;
    BeforeAt("domain", "effect_attempts", 0);
    BeforeAt("effect_attempts", "evidence", 1);
    BeforeAt("evidence", "execution_authority", 1);
  }

  lemma PackageNeighbours4()
    ensures Before("execution_authority", "graph_context")
    ensures Before("graph_context", "model_references")
    ensures Before("model_references", "object_references")
  {
    hide Before;
    BeforeAt("execution_authority", "graph_context", 0);
    BeforeAt("graph_context", "model_references", 0);
    BeforeAt("model_references", "object_references", 0);
  }

  lemma PackageNeighbours5()
    ensures Before("object_references", "options")
    ensures Before("options", "outcomes")
    ensures Before("outcomes", "policy_references")
  {
    hide Before;
    BeforeAt("object_references", "options", 1);
    BeforeAt("options", "outcomes", 1);
    BeforeAt("outcomes", "policy_references", 0);
  }

  lemma PackageNeighbours6()
    ensures Before("policy_references", "producer_references")
    ensures Before("producer_references", "question")
    ensures Before("question", "rationale")
  {
    hide Before;
    BeforeAt("policy_references", "producer_references", 1);
    BeforeAt("producer_references", "question", 0);
    BeforeAt("question", "rationale", 0);
  }

  lemma PackageNeighbours7()
    ensures Before("rationale", "reconciliations")
    ensures Before("reconciliations", "reviews")
    ensures Before("reviews", "revision")
  {
    hide Before;
    BeforeAt("rationale", "reconciliations", 1);
    BeforeAt("reconciliations", "reviews", 2);
    BeforeAt("reviews", "revision", 4);
  }

  lemma PackageNeighbours8()
    ensures Before("revision", "successor_to")
    ensures Before("successor_to", "verification_ceiling")
    ensures Before("verification_ceiling", "version")
  {
    hide Before;
    BeforeAt("revision", "successor_to", 0);
    BeforeAt("successor_to", "verification_ceiling", 0);
    BeforeAt("verification_ceiling", "version", 3);
  }

  lemma PackageKeysSorted()
    ensures SortedKeys(PACKAGE_KEYS)
  {
    hide Before;
    PackageNeighbours1();
    PackageNeighbours2();
    PackageNeighbours3();
    PackageNeighbours4();
    PackageNeighbours5();
    PackageNeighbours6();
    PackageNeighbours7();
    PackageNeighbours8();
    NeighboursSorted(PACKAGE_KEYS);
  }

  lemma OptionIsPlain(s: Option<string>)
    ensures Plain(OptionJson(s))
  {
  }

  lemma ReferenceIsPlain(r: Reference)
    ensures Plain(ReferenceJson(r)) && Plain(TypedJson(r))
  {
    hide Plain;
    SmallKeysSorted();
    OptionIsPlain(r.revision);
    StrIsPlain(r.locator);
    RecordIsPlain(REFERENCE_KEYS, [Str(r.locator), OptionJson(r.revision)]);
    RecordIsPlain(TYPED_KEYS, [ReferenceJson(r)]);
  }

  lemma StrIsPlain(s: string)
    ensures Plain(Str(s))
  {
  }

  lemma IntIsPlain(n: int)
    ensures Plain(Int(n))
  {
  }

  lemma EvidenceIsPlain(e: Evidence)
    ensures Plain(EvidenceJson(e))
  {
    SmallKeysSorted();
    ReferenceIsPlain(e.reference);
    RecordIsPlain(EVIDENCE_KEYS, [Bool(e.missing), ReferenceJson(e.reference)]);
  }

  lemma GraphIsPlain(g: Option<GraphContext>)
    ensures Plain(GraphJson(g))
  {
    SmallKeysSorted();
    if g.Some? {
      ReferenceIsPlain(g.value.reference);
      OptionIsPlain(g.value.watermark);
      RecordIsPlain(GRAPH_KEYS, [ReferenceJson(g.value.reference), OptionJson(g.value.watermark)]);
    }
  }

  lemma LinkIsPlain(link: Option<Link>)
    ensures Plain(LinkJson(link))
  {
    SmallKeysSorted();
    if link.Some? {
      RecordIsPlain(LINK_KEYS, [Str(link.value.decisionId), Int(link.value.revision)]);
    }
  }

  lemma ReferencesArePlain(rs: seq<Reference>)
    ensures Plain(ListJson(rs, ReferenceJson)) && Plain(ListJson(rs, TypedJson))
  {
    forall i | 0 <= i < |rs|
      ensures Plain(ReferenceJson(rs[i])) && Plain(TypedJson(rs[i]))
    {
      ReferenceIsPlain(rs[i]);
    }
    ListIsPlain(rs, ReferenceJson);
    ListIsPlain(rs, TypedJson);
  }

  lemma EvidencesArePlain(es: seq<Evidence>)
    ensures Plain(ListJson(es, EvidenceJson))
  {
    forall i | 0 <= i < |es|
      ensures Plain(EvidenceJson(es[i]))
    {
      EvidenceIsPlain(es[i]);
    }
    ListIsPlain(es, EvidenceJson);
  }

  lemma TextsArePlain(ts: seq<string>)
    ensures Plain(ListJson(ts, StrJson))
  {
    ListIsPlain(ts, StrJson);
  }

  lemma PackageIsPlain(p: Package)
    ensures Plain(PackageJson(p))
  {
    hide Plain, ListJson, GraphJson, LinkJson;
    PackageKeysSorted();
    ReferencesArePlain(p.objectReferences);
    ReferencesArePlain(p.policyReferences);
    ReferencesArePlain(p.calculationReferences);
    ReferencesArePlain(p.modelReferences);
    ReferencesArePlain(p.producerReferences);
    ReferencesArePlain(p.reviews);
    ReferencesArePlain(p.authorizationObservations);
    ReferencesArePlain(p.effectAttempts);
    ReferencesArePlain(p.acknowledgements);
    ReferencesArePlain(p.outcomes);
    ReferencesArePlain(p.reconciliations);
    EvidencesArePlain(p.evidence);
    GraphIsPlain(p.graphContext);
    LinkIsPlain(p.correctionOf);
    LinkIsPlain(p.successorTo);
    TextsArePlain(p.options);
    TextsArePlain(p.constraints);
    StrIsPlain(p.decisionId);
    StrIsPlain(DomainText(p.domain));
    StrIsPlain("None");
    StrIsPlain("RecordedOnly");
    StrIsPlain(p.question);
    StrIsPlain(p.rationale);
    IntIsPlain(p.revision);
    IntIsPlain(p.version);
    RecordIsPlain(PACKAGE_KEYS, PackageValues(p));
  }

  /** Packages with the same canonical bytes are the same package. */
  lemma PackageIdentified(p: Package, q: Package)
    requires CanonicalBytes(PackageJson(p)).Ok? && CanonicalBytes(PackageJson(p)) == CanonicalBytes(PackageJson(q))
    ensures p == q
  {
    hide PackageJson, CanonicalBytes, PackageMembers;
    CanonicalBytesIdentify(PackageJson(p), PackageJson(q));
    PackageIsPlain(p);
    PackageIsPlain(q);
    PackageReadsBack(p);
    PackageReadsBack(q);
  }

  /** A stored package body parses back to the package that was stored. */
  lemma PackageSurvives(p: Package)
    requires CanonicalBytes(PackageJson(p)).Ok?
    ensures var bytes := CanonicalBytes(PackageJson(p)).value;
            ParseBytes(bytes).Some? && PackageOf(ParseBytes(bytes).value) == Some(p)
  {
    hide PackageJson, CanonicalBytes, PackageMembers;
    CanonicalBytesReadBack(PackageJson(p));
    PackageIsPlain(p);
    PackageReadsBack(p);
  }
}
