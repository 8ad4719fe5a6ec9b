// The append-only decision audit: one hash chain of events per decision, written
// and re-read in the same transaction.
module DecisionAudit {
  import opened Basics
  import opened Json
  import opened Records
  import opened GoalTypes
  import opened GoalJournal
  import opened GoalRecords
  import opened Runs
  import opened DecisionTypes

  const MAX_DECISIONS_PER_SCOPE := 10000
  const EVENT_DOMAIN := "TEMPERA_DECISION_AUDIT_EVENT_V1"

  datatype AuditKey = AuditKey(scope: GoalScope, decisionId: string)

  datatype AuditRow = AuditRow(
    runId: string, goalId: string, goalRevision: int, goalDigest: string, goalBody: seq<Byte>, currentRevision: int)

  datatype DecisionRow = DecisionRow(
    sequence: int, revision: int, requestId: string, requestDigest: string, packageBody: seq<Byte>,
    packageDigest: string, predecessor: Option<string>, eventDigest: string, createdAt: int)

  /** The two tables; the events of a decision are listed by sequence number. */
  datatype Audits = Audits(rows: map<AuditKey, AuditRow>, events: map<AuditKey, seq<DecisionRow>>)

  const NO_AUDITS := Audits(map[], map[])

  datatype Projection = Projection(
    scope: GoalScope, runId: string, goalId: string, goalRevision: int, goalDigest: string,
    decisionId: string, currentRevision: int, events: seq<Event>)

  datatype AppendRequest = AppendRequest(run: string, expected: int, requestId: string, package: Package)

  // ---------------------------------------------------------------- digests

  const EVENT_KEYS := [
    "created_at", "decision_id", "domain", "goal_digest", "goal_id", "goal_revision", "package_digest",
    "predecessor_event_digest", "request_digest", "request_id", "run_id", "scope", "sequence"]

  function EventValues(e: Event): (r: seq<Value>)
    ensures |r| == |EVENT_KEYS|
  {
    [Int(e.createdAt), Str(e.package.decisionId), Str(EVENT_DOMAIN), Str(e.goalDigest), Str(e.goalId), Int(e.goalRevision),
     Str(e.packageDigest), OptionJson(e.predecessor), Str(e.requestDigest), Str(e.requestId), Str(e.runId),
     ScopeJson(e.scope), Int(e.sequence)]
  }

  /** Everything the event digest covers. */
  function EventJson(e: Event): Value {
    ObjectOf(EVENT_KEYS, EventValues(e))
  }

  function RequestJson(run: string, expected: int, requestId: string, package: Package): Value {
    Arr([Str(run), Int(expected), Str(requestId), PackageJson(package)])
  }

  /** The digest of a value's canonical bytes, when it has any. */
  predicate DigestIs(h: Digest, v: Value, digest: string) {
    CanonicalBytes(v).Ok? && h(CanonicalBytes(v).value) == digest
  }

  /** The checks an event passes on its own, without its neighbours. */
  predicate VerifyEvent(h: Digest, e: Event) {
    ValidScope(e.scope) && ValidIdentifier(e.runId) && ValidIdentifier(e.goalId)
    && ValidRevision(e.goalRevision) && e.createdAt >= 0
    && ValidPackage(e.package)
    && ValidRevision(e.sequence) && e.package.revision == e.sequence
    && LowerHex(e.goalDigest) && LowerHex(e.requestDigest)
    && (match e.predecessor case None => e.sequence == 1 case Some(previous) => e.sequence > 1 && LowerHex(previous))
    && ValidIdentifier(e.requestId)
    && DigestIs(h, PackageJson(e.package), e.packageDigest)
    && DigestIs(h, RequestJson(e.runId, e.sequence - 1, e.requestId, e.package), e.requestDigest)
    && DigestIs(h, EventJson(e), e.eventDigest)
  }

  // ---------------------------------------------------------------- reading

  predicate HexDigits(s: string) {
    |s| == 64 && forall i :: 0 <= i < |s| ==> '0' <= s[i] <= '9' || 'a' <= s[i] <= 'f' || 'A' <= s[i] <= 'F'
  }

  function SnapshotOf(body: seq<Byte>): Option<Goal> {
    match ParseBytes(body)
    case None => None
    case Some(v) => GoalOf(v)
  }

  /** The recorded goal snapshot is canonical, valid and the one the row names. */
  predicate VerifyBinding(h: Digest, key: AuditKey, row: AuditRow) {
    ValidScope(key.scope) && ValidIdentifier(row.runId) && ValidIdentifier(row.goalId)
    && ValidRevision(row.goalRevision) && HexDigits(row.goalDigest)
    && SnapshotOf(row.goalBody).Some?
    && (var goal := SnapshotOf(row.goalBody).value;
        && ValidGoal(goal) && goal.scope == key.scope && goal.id == row.goalId && goal.revision == row.goalRevision
        && CanonicalBytes(GoalJson(goal)) == Ok(row.goalBody))
    && h(row.goalBody) == row.goalDigest
    && ValidIdentifier(key.decisionId)
  }

  function PackageIn(body: seq<Byte>): Option<Package> {
    match ParseBytes(body)
    case None => None
    case Some(v) => PackageOf(v)
  }

  function EventOf(key: AuditKey, row: AuditRow, r: DecisionRow, package: Package): Event {
    Event(key.scope, row.runId, row.goalId, row.goalRevision, row.goalDigest, r.sequence, package,
          r.requestId, r.requestDigest, r.packageDigest, r.eventDigest, r.predecessor, r.createdAt)
  }

  function Predecessor(rows: seq<DecisionRow>, i: nat): Option<string>
    requires i <= |rows|
  {
    if i == 0 then None else Some(rows[i - 1].eventDigest)
  }

  /** The checks one row passes, given the digest of the event before it. */
  predicate RowOk(h: Digest, key: AuditKey, row: AuditRow, r: DecisionRow, index: nat, predecessor: Option<string>) {
    r.sequence == index + 1 && r.revision == index + 1
    && r.predecessor == predecessor
    && h(r.packageBody) == r.packageDigest
    && PackageIn(r.packageBody).Some?
    && (var package := PackageIn(r.packageBody).value;
        && ValidPackage(package) && package.decisionId == key.decisionId && package.revision == r.revision
        && CanonicalBytes(PackageJson(package)) == Ok(r.packageBody)
        && VerifyEvent(h, EventOf(key, row, r, package)))
  }

  predicate RowOkAt(h: Digest, key: AuditKey, row: AuditRow, rows: seq<DecisionRow>, i: nat)
    requires i < |rows|
  {
    RowOk(h, key, row, rows[i], i, Predecessor(rows, i))
  }

  predicate RowsOk(h: Digest, key: AuditKey, row: AuditRow, rows: seq<DecisionRow>) {
    forall i :: 0 <= i < |rows| ==> RowOkAt(h, key, row, rows, i)
  }

  function EventAt(key: AuditKey, row: AuditRow, r: DecisionRow): Event {
    EventOf(key, row, r, if PackageIn(r.packageBody).Some? then PackageIn(r.packageBody).value else EMPTY_PACKAGE)
  }

  const EMPTY_PACKAGE :=
    Package(0, "", 0, Software, "", [], [], None, [], [], [], [], [], [], "", [], [], [], [], [], [], None, None)

  function EventList(key: AuditKey, row: AuditRow, rows: seq<DecisionRow>): (r: seq<Event>)
    ensures |r| == |rows| && forall i :: 0 <= i < |r| ==> r[i] == EventAt(key, row, rows[i])
  {
    seq(|rows|, i requires 0 <= i < |rows| => EventAt(key, row, rows[i]))
  }

  function RowsAt(audits: Audits, key: AuditKey): seq<DecisionRow> {
    if key in audits.events then audits.events[key] else []
  }

  /** Every check of a read, for arbitrary contents of the tables. */
  predicate Readable(h: Digest, audits: Audits, key: AuditKey) {
    key in audits.rows && VerifyBinding(h, key, audits.rows[key])
    && ValidRevision(audits.rows[key].currentRevision)
    && RowsOk(h, key, audits.rows[key], RowsAt(audits, key))
    && |RowsAt(audits, key)| == audits.rows[key].currentRevision
  }

  function ProjectionOf(h: Digest, audits: Audits, key: AuditKey): Result<Projection> {
    if key !in audits.rows then Err(NotFound)
    else if !Readable(h, audits, key) then Err(Corrupt)
    else
      var row := audits.rows[key];
      Ok(Projection(key.scope, row.runId, row.goalId, row.goalRevision, row.goalDigest, key.decisionId,
                    row.currentRevision, EventList(key, row, RowsAt(audits, key))))
  }

  /** One row: its place, its link, its body and the event it makes. */
  method ReadRow(h: Digest, key: AuditKey, row: AuditRow, r: DecisionRow, index: nat, predecessor: Option<string>)
    returns (event: Option<Event>)
    ensures event.Some? <==> RowOk(h, key, row, r, index, predecessor)
    ensures event.Some? ==> event.value == EventAt(key, row, r) && event.value.eventDigest == r.eventDigest
  {
    hide VerifyEvent, ValidPackage, PackageIn, CanonicalBytes, PackageJson;
    if r.sequence != index + 1 || r.revision != index + 1 || r.predecessor != predecessor || h(r.packageBody) != r.packageDigest {
      return None;
    }
    var parsed := PackageIn(r.packageBody);
    if parsed.None? {
      return None;
    }
    var package := parsed.value;
    if !ValidPackage(package) || package.decisionId != key.decisionId || package.revision != r.revision
       || CanonicalBytes(PackageJson(package)) != Ok(r.packageBody) {
      return None;
    }
    if !VerifyEvent(h, EventOf(key, row, r, package)) {
      return None;
    }
    return Some(EventOf(key, row, r, package));
  }

  /** Reads the rows in sequence, carrying the digest of the event before. */
  method ReadRows(h: Digest, key: AuditKey, row: AuditRow, rows: seq<DecisionRow>) returns (r: Option<seq<Event>>)
    ensures r.Some? <==> RowsOk(h, key, row, rows)
    ensures r.Some? ==> r.value == EventList(key, row, rows)
  {
    hide RowOk, EventAt;
    var events: seq<Event> := [];
    var predecessor: Option<string> := None;
    for i := 0 to |rows|
      invariant |events| == i && forall k :: 0 <= k < i ==> events[k] == EventAt(key, row, rows[k])
      invariant predecessor == Predecessor(rows, i)
      invariant forall k :: 0 <= k < i ==> RowOkAt(h, key, row, rows, k)
    {
      var event := ReadRow(h, key, row, rows[i], i, predecessor);
      if event.None? {
        assert !RowOkAt(h, key, row, rows, i);
        return None;
      }
      predecessor := Some(event.value.eventDigest);
      events := events + [event.value];
    }
    assert events == EventList(key, row, rows);
    return Some(events);
  }

  method ReadDecisionProjection(h: Digest, audits: Audits, key: AuditKey) returns (r: Result<Projection>)
    ensures r == ProjectionOf(h, audits, key)
  {
    hide VerifyBinding, RowsOk;
    if key !in audits.rows {
      return Err(NotFound);
    }
    var row := audits.rows[key];
    if !VerifyBinding(h, key, row) || !ValidRevision(row.currentRevision) {
      return Err(Corrupt);
    }
    var events := ReadRows(h, key, row, RowsAt(audits, key));
    if events.None? || |events.value| != row.currentRevision {
      return Err(Corrupt);
    }
    return Ok(Projection(key.scope, row.runId, row.goalId, row.goalRevision, row.goalDigest, key.decisionId,
                         row.currentRevision, events.value));
  }

  // --------------------------------------------------------------- appending

  /** The run's binding, proved current, with the canonical bytes of its goal. */
  function CurrentBinding(h: Digest, db: Db, run: string): Result<(GoalRunBinding, string, seq<Byte>)> {
    match GateGoalRun(db, run).1
    case Err(error) => Err(error)
    case Ok(Unbound) => Err(InvalidInput)
    case Ok(GateNeedsReview) => Err(NeedsReview)
    case Ok(Current(b)) =>
      var row := StoreOf(db.goals, BoundKey(b)).row;
      if row.None? then Err(NotFound)
      else
        var goal := row.value.body;
        if !ValidGoal(goal) || goal.scope != b.scope || goal.id != b.goalId || goal.revision != b.goalRevision then Err(Corrupt)
        else
          match CanonicalBytes(GoalJson(goal))
          case Err(error) => Err(error)
          case Ok(body) => Ok((b, h(body), body))
  }

  predicate ValidRequest(req: AppendRequest) {
    ValidIdentifier(req.run) && ValidIdentifier(req.requestId) && 0 <= req.expected <= MAX_REVISION
    && ValidPackage(req.package)
    && CanonicalBytes(RequestJson(req.run, req.expected, req.requestId, req.package)).Ok?
  }

  function RequestDigest(h: Digest, req: AppendRequest): string
    requires ValidRequest(req)
  {
    h(CanonicalBytes(RequestJson(req.run, req.expected, req.requestId, req.package)).value)
  }

  function Find(rows: seq<DecisionRow>, requestId: string): (r: Option<DecisionRow>)
    ensures r.Some? ==> r.value in rows && r.value.requestId == requestId
    ensures r.None? ==> forall i :: 0 <= i < |rows| ==> rows[i].requestId != requestId
  {
    if rows == [] then None
    else if rows[0].requestId == requestId then Some(rows[0])
    else Find(rows[1..], requestId)
  }

  function DecisionsIn(audits: Audits, scope: GoalScope): set<AuditKey> {
    set key | key in audits.rows && key.scope == scope
  }

  function NextSequence(rows: seq<DecisionRow>): int {
    if rows == [] then 1 else rows[|rows| - 1].sequence + 1
  }

  /** The event to be written, its digest still blank. */
  function NewEvent(h: Digest, key: AuditKey, row: AuditRow, rows: seq<DecisionRow>, req: AppendRequest, now: int): Event
    requires ValidRequest(req)
  {
    Event(key.scope, row.runId, row.goalId, row.goalRevision, row.goalDigest, NextSequence(rows), req.package,
          req.requestId, RequestDigest(h, req), h(CanonicalBytes(PackageJson(req.package)).value), "",
          Predecessor(rows, |rows|), now)
  }

  function RowOf(e: Event, body: seq<Byte>): DecisionRow {
    DecisionRow(e.sequence, e.package.revision, e.requestId, e.requestDigest, body, e.packageDigest, e.predecessor, e.eventDigest, e.createdAt)
  }

  /** Inserts the event, moves the decision's revision, and re-reads the result; any failure undoes everything. */
  function WriteEvent(h: Digest, audits: Audits, key: AuditKey, row: AuditRow, req: AppendRequest, now: int): (Audits, Result<Projection>)
    requires ValidRequest(req)
  {
    var rows := RowsAt(audits, key);
    var blank := NewEvent(h, key, row, rows, req, now);
    match CanonicalBytes(EventJson(blank))
    case Err(error) => (audits, Err(error))
    case Ok(bytes) =>
      var event := blank.(eventDigest := h(bytes));
      if exists i :: 0 <= i < |rows| && (rows[i].revision == req.package.revision || rows[i].requestId == req.requestId) then
        (audits, Err(ConstraintViolation))
      else
        var written := Audits(
          audits.rows[key := row.(currentRevision := req.package.revision)],
          audits.events[key := rows + [RowOf(event, CanonicalBytes(PackageJson(req.package)).value)]]);
        match ProjectionOf(h, written, key)
        case Err(error) => (audits, Err(error))
        case Ok(projection) => (written, Ok(projection))
  }

  function Append(h: Digest, db: Db, audits: Audits, req: AppendRequest, now: int): (Audits, Result<Projection>) {
    if !ValidRequest(req) then (audits, Err(InvalidInput))
    else
      match CurrentBinding(h, db, req.run)
      case Err(error) => (audits, Err(error))
      case Ok((b, goalDigest, goalBody)) =>
        var key := AuditKey(b.scope, req.package.decisionId);
        if key in audits.rows then
          var row := audits.rows[key];
          if row.runId != req.run || row.goalId != b.goalId || row.goalRevision != b.goalRevision || row.goalDigest != goalDigest then
            (audits, Err(RevisionConflict))
          else if !VerifyBinding(h, key, row) then (audits, Err(Corrupt))
          else
            match Find(RowsAt(audits, key), req.requestId)
            case Some(prior) =>
              if prior.requestDigest != RequestDigest(h, req) then (audits, Err(ReplayConflict))
              else (audits, ProjectionOf(h, audits, key))
            case None =>
              if req.expected != row.currentRevision || req.package.revision != row.currentRevision + 1 then
                (audits, Err(RevisionConflict))
              else WriteEvent(h, audits, key, row, req, now)
        else if req.expected != 0 || req.package.revision != 1 then (audits, Err(RevisionConflict))
        else if |DecisionsIn(audits, key.scope)| >= MAX_DECISIONS_PER_SCOPE then (audits, Err(LimitReached))
        else WriteEvent(h, audits, key, AuditRow(req.run, b.goalId, b.goalRevision, goalDigest, goalBody, 0), req, now)
  }

  // ------------------------------------------------------------------ traces

  datatype AuditState = AuditState(db: Db, audits: Audits)

  datatype AuditOp = Tx(op: JournalOp) | AppendTx(req: AppendRequest)

  datatype TimedAudit = TimedAudit(op: AuditOp, now: nat)

  function AuditStep(h: Digest, s: AuditState, op: AuditOp, now: int): AuditState {
    match op
    case Tx(op) => s.(db := Step(s.db, op, now))
    case AppendTx(req) => s.(audits := Append(h, s.db, s.audits, req, now).0)
  }

  function AuditRun(h: Digest, s: AuditState, ops: seq<TimedAudit>): AuditState
    decreases |ops|
  {
    if ops == [] then s else AuditRun(h, AuditStep(h, s, ops[0].op, ops[0].now), ops[1..])
  }
}
