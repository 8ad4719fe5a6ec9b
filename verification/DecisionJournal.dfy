// The decision tables as the journal object updates them.
module DecisionJournal {
  import opened Basics
  import opened Records
  import opened GoalTypes
  import opened Runs
  import opened DecisionTypes
  import opened DecisionAudit

  class DecisionJournal {
    var db: Db
    var audits: Audits

    constructor (db: Db)
      ensures this.db == db && audits == NO_AUDITS
    {
      this.db, audits := db, NO_AUDITS;
    }

    /** Inserts the event row, moves the decision's revision and re-reads, inside one transaction. */
    method InsertEvent(h: Digest, key: AuditKey, row: AuditRow, req: AppendRequest, now: nat) returns (r: Result<Projection>)
      requires ValidRequest(req)
      modifies this`audits
      ensures (audits, r) == WriteEvent(h, old(audits), key, row, req, now)
    {
      hide ValidRequest, ProjectionOf, PackageJson, EventJson, CanonicalBytes, RequestDigest;
      PackageBytesExist(req);
      var tx := audits;
      tx := tx.(rows := tx.rows[key := row]);
      var rows := RowsAt(tx, key);
      var blank := NewEvent(h, key, row, rows, req, now);
      var bytes := CanonicalBytes(EventJson(blank));
      if bytes.Err? {
        return Err(bytes.error);
      }
      var event := blank.(eventDigest := h(bytes.value));
      if exists i :: 0 <= i < |rows| && (rows[i].revision == req.package.revision || rows[i].requestId == req.requestId) {
        return Err(ConstraintViolation);
      }
      var body := CanonicalBytes(PackageJson(req.package)).value;
      tx := tx.(events := tx.events[key := rows + [RowOf(event, body)]]);
      tx := tx.(rows := tx.rows[key := row.(currentRevision := req.package.revision)]);
      assert tx.rows == audits.rows[key := row.(currentRevision := req.package.revision)];
      r := ReadDecisionProjection(h, tx, key);
      if r.Ok? {
        audits := tx;
      }
    }

    lemma PackageBytesExist(req: AppendRequest)
      requires ValidRequest(req)
      ensures CanonicalBytes(PackageJson(req.package)).Ok?
    {
    }

    /** Appends one package for a run whose binding is current; a known request id is answered again. */
    method AppendDecisionPackage(h: Digest, req: AppendRequest, now: nat) returns (r: Result<Projection>)
      modifies this`audits
      ensures (audits, r) == Append(h, old(db), old(audits), req, now)
    {
      hide ValidRequest, CurrentBinding, WriteEvent, VerifyBinding, ProjectionOf, RequestDigest;
      if !ValidRequest(req) {
        return Err(InvalidInput);
      }
      var current := CurrentBinding(h, db, req.run);
      if current.Err? {
        return Err(current.error);
      }
      var (binding, goalDigest, goalBody) := current.value;
      var key := AuditKey(binding.scope, req.package.decisionId);
      if key in audits.rows {
        var row := audits.rows[key];
        if row.runId != req.run || row.goalId != binding.goalId || row.goalRevision != binding.goalRevision
           || row.goalDigest != goalDigest {
          return Err(RevisionConflict);
        }
        if !VerifyBinding(h, key, row) {
          return Err(Corrupt);
        }
        var replay := Find(RowsAt(audits, key), req.requestId);
        if replay.Some? {
          if replay.value.requestDigest != RequestDigest(h, req) {
            return Err(ReplayConflict);
          }
          r := ReadDecisionProjection(h, audits, key);
          return;
        }
        if req.expected != row.currentRevision || req.package.revision != row.currentRevision + 1 {
          return Err(RevisionConflict);
        }
        r := InsertEvent(h, key, row, req, now);
      } else {
        if req.expected != 0 || req.package.revision != 1 {
          return Err(RevisionConflict);
        }
        if |DecisionsIn(audits, key.scope)| >= MAX_DECISIONS_PER_SCOPE {
          return Err(LimitReached);
        }
        r := InsertEvent(h, key, AuditRow(req.run, binding.goalId, binding.goalRevision, goalDigest, goalBody, 0), req, now);
      }
    }
  }
}
