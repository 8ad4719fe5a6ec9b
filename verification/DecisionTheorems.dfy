// Tamper evidence of the audit chain, and agreement of its writer and reader.
module DecisionTheorems {
  import opened Basics
  import opened Json
  import opened Records
  import opened GoalTypes
  import opened GoalJournal
  import opened GoalInvariants
  import opened GoalTheorems
  import opened GoalRecords
  import opened Runs
  import opened RunTheorems
  import opened DecisionTypes
  import opened DecisionAudit
  import ReadProjection

  // ------------------------------------------------------------ event identity

  lemma EventNeighbours1()
    ensures Json.Before("created_at", "decision_id")
    ensures Json.Before("decision_id", "domain")
    ensures Json.Before("domain", "goal_digest")
    ensures Json.Before("goal_digest", "goal_id")
  {
    hide Json.Before;
    BeforeAt("created_at", "decision_id", 0);
    BeforeAt("decision_id", "domain", 1);
    BeforeAt("domain", "goal_digest", 0);
    BeforeAt("goal_digest", "goal_id", 5);
  }

  lemma EventNeighbours2()
    ensures Json.Before("goal_id", "goal_revision")
    ensures Json.Before("goal_revision", "package_digest")
    ensures Json.Before("package_digest", "predecessor_event_digest")
    ensures Json.Before("predecessor_event_digest", "request_digest")
  {
    hide Json.Before;
    BeforeAt("goal_id", "goal_revision", 5);
    BeforeAt("goal_revision", "package_digest", 0);
    BeforeAt("package_digest", "predecessor_event_digest", 1);
    BeforeAt("predecessor_event_digest", "request_digest", 0);
  }

  lemma EventNeighbours3()
    ensures Json.Before("request_digest", "request_id")
    ensures Json.Before("request_id", "run_id")
    ensures Json.Before("run_id", "scope")
    ensures Json.Before("scope", "sequence")
  {
    hide Json.Before;
    BeforeAt("request_digest", "request_id", 8);
    BeforeAt("request_id", "run_id", 1);
    BeforeAt("run_id", "scope", 0);
    BeforeAt("scope", "sequence", 1);
  }

  lemma EventKeysSorted()
    ensures SortedKeys(EVENT_KEYS)
  {
    hide Json.Before;
    EventNeighbours1();
    EventNeighbours2();
    EventNeighbours3();
    NeighboursSorted(EVENT_KEYS);
  }

  lemma EventIsNormal(e: Event)
    ensures Normal(EventJson(e))
  {
    hide ScopeJson;
    EventKeysSorted();
    ScopeIsNormal(e.scope);
    OptionIsPlain(e.predecessor);
    RecordIsNormal(EVENT_KEYS, EventValues(e));
  }

  /** The members that the event digest covers directly. */
  predicate SameEnvelope(e: Event, f: Event) {
    e.createdAt == f.createdAt && e.goalDigest == f.goalDigest && e.goalId == f.goalId && e.goalRevision == f.goalRevision
    && e.packageDigest == f.packageDigest && e.predecessor == f.predecessor && e.requestDigest == f.requestDigest
    && e.requestId == f.requestId && e.runId == f.runId && e.scope == f.scope && e.sequence == f.sequence
  }

  lemma ValuesIdentify(e: Event, f: Event)
    requires EventValues(e) == EventValues(f)
    ensures SameEnvelope(e, f)
  {
    hide ScopeJson, ScopeOf;
    var a, b := EventValues(e), EventValues(f);
    assert a[0] == b[0] && a[3] == b[3] && a[4] == b[4] && a[5] == b[5] && a[6] == b[6] && a[7] == b[7] && a[8] == b[8];
    assert a[9] == b[9] && a[10] == b[10] && a[11] == b[11] && a[12] == b[12];
    ScopeIsNormal(e.scope);
    ScopeIsNormal(f.scope);
  }

  lemma EnvelopeIdentified(e: Event, f: Event)
    requires CanonicalBytes(EventJson(e)).Ok? && CanonicalBytes(EventJson(e)) == CanonicalBytes(EventJson(f))
    ensures SameEnvelope(e, f)
  {
    hide CanonicalBytes, EventValues, ObjectOf, SameEnvelope;
    CanonicalBytesIdentify(EventJson(e), EventJson(f));
    EventIsNormal(e);
    EventIsNormal(f);
    MembersOfRecord(EVENT_KEYS, EventValues(e));
    MembersOfRecord(EVENT_KEYS, EventValues(f));
    ValuesIdentify(e, f);
  }

  // ---------------------------------------------------------------- the chain

  /** Consecutive, individually verified and linked events. */
  predicate Chain(h: Digest, es: seq<Event>) {
    forall i :: 0 <= i < |es| ==> Linked(h, es, i)
  }

  predicate Linked(h: Digest, es: seq<Event>, i: nat)
    requires i < |es|
  {
    VerifyEvent(h, es[i]) && es[i].sequence == i + 1
    && es[i].predecessor == if i == 0 then None else Some(es[i - 1].eventDigest)
  }

  /** The byte strings whose digests a verified event relies on. */
  function Hashed(e: Event): (seq<Byte>, seq<Byte>) {
    (BytesOf(EventJson(e)), BytesOf(PackageJson(e.package)))
  }

  function BytesOf(v: Value): seq<Byte> {
    match CanonicalBytes(v)
    case Ok(bytes) => bytes
    case Err(_) => []
  }

  /** Two different byte strings with one digest, hashed at the same place of two chains. */
  predicate CollideAt(h: Digest, e: Event, f: Event) {
    (Hashed(e).0 != Hashed(f).0 && h(Hashed(e).0) == h(Hashed(f).0))
    || (Hashed(e).1 != Hashed(f).1 && h(Hashed(e).1) == h(Hashed(f).1))
  }

  /** Some event of one chain and some event of the other witness a collision of the digest. */
  predicate Collide(h: Digest, es: seq<Event>, fs: seq<Event>) {
    exists i, j :: 0 <= i < |es| && 0 <= j < |fs| && CollideAt(h, es[i], fs[j])
  }

  lemma ChainPrefix(h: Digest, es: seq<Event>, n: nat)
    requires Chain(h, es) && n <= |es|
    ensures Chain(h, es[..n])
  {
    hide VerifyEvent;
    forall i | 0 <= i < n
      ensures Linked(h, es[..n], i)
    {
      assert Linked(h, es, i);
    }
  }

  lemma SameDigestSameEvent(h: Digest, e: Event, f: Event)
    requires VerifyEvent(h, e) && VerifyEvent(h, f) && e.eventDigest == f.eventDigest
    ensures e == f || CollideAt(h, e, f)
  {
    hide ValidPackage, ValidScope, ValidIdentifier, CanonicalBytes, PackageJson, EventJson, RequestJson;
    if Hashed(e).0 == Hashed(f).0 {
      EnvelopeIdentified(e, f);
      if Hashed(e).1 == Hashed(f).1 {
        PackageIdentified(e.package, f.package);
      }
    }
  }

  /**
   * The chain binds its whole history: two verified chains that end in the same
   * digest have the same length and the same events, or they exhibit two different
   * byte strings with the same digest.
   */
  lemma {:induction false} ChainBinds(h: Digest, es: seq<Event>, fs: seq<Event>)
    requires Chain(h, es) && Chain(h, fs) && es != [] && fs != []
    requires es[|es| - 1].eventDigest == fs[|fs| - 1].eventDigest
    ensures es == fs || Collide(h, es, fs)
    decreases |es|
  {
    hide VerifyEvent, CollideAt;
    var m, n := |es| - 1, |fs| - 1;
    assert Linked(h, es, m) && Linked(h, fs, n);
    SameDigestSameEvent(h, es[m], fs[n]);
    if es[m] == fs[n] {
      assert m == n;
      var front, front' := es[..m], fs[..n];
      assert es == front + [es[m]] && fs == front' + [fs[n]];
      if m > 0 {
        ChainPrefix(h, es, m);
        ChainPrefix(h, fs, n);
        ChainBinds(h, front, front');
        if front != front' {
          var i, j :| 0 <= i < |front| && 0 <= j < |front'| && CollideAt(h, front[i], front'[j]);
          assert CollideAt(h, es[i], fs[j]);
        }
      }
    }
  }

  /** Whatever is in the tables, a projection that is returned is a complete verified chain. */
  lemma ProjectionIsChain(h: Digest, audits: Audits, key: AuditKey)
    requires ProjectionOf(h, audits, key).Ok?
    ensures var p := ProjectionOf(h, audits, key).value;
            && Chain(h, p.events) && |p.events| == p.currentRevision >= 1
            && forall i :: 0 <= i < |p.events| ==>
                 p.events[i].scope == key.scope && p.events[i].package.decisionId == key.decisionId && p.events[i].package.revision == i + 1
                 && p.events[i].runId == p.runId && p.events[i].goalDigest == p.goalDigest
                 && p.events[i].goalId == p.goalId && p.events[i].goalRevision == p.goalRevision
                 && p.scope == key.scope && p.decisionId == key.decisionId
  {
    hide VerifyEvent, VerifyBinding, ValidPackage, PackageIn, CanonicalBytes, PackageJson;
    var row, rows := audits.rows[key], RowsAt(audits, key);
    var events := ProjectionOf(h, audits, key).value.events;
    assert events == EventList(key, row, rows);
    forall i | 0 <= i < |events|
      ensures Linked(h, events, i)
              && events[i].scope == key.scope && events[i].package.decisionId == key.decisionId
              && events[i].package.revision == i + 1 && events[i].runId == row.runId && events[i].goalDigest == row.goalDigest
              && events[i].goalId == row.goalId && events[i].goalRevision == row.goalRevision
    {
      assert RowOkAt(h, key, row, rows, i);
      assert events[i] == EventAt(key, row, rows[i]);
      if i > 0 {
        assert events[i - 1] == EventAt(key, row, rows[i - 1]);
      }
    }
  }

  /** Two stores that agree on a decision's last event digest agree on its whole history, or show a collision. */
  lemma TamperingShows(h: Digest, audits: Audits, key: AuditKey, audits': Audits, key': AuditKey)
    requires ProjectionOf(h, audits, key).Ok? && ProjectionOf(h, audits', key').Ok?
    requires var es, fs := ProjectionOf(h, audits, key).value.events, ProjectionOf(h, audits', key').value.events;
             es != [] && fs != [] && es[|es| - 1].eventDigest == fs[|fs| - 1].eventDigest
    ensures var es, fs := ProjectionOf(h, audits, key).value.events, ProjectionOf(h, audits', key').value.events;
            (key == key' && es == fs) || Collide(h, es, fs)
  {
    hide ProjectionOf, Chain, Collide;
    ProjectionIsChain(h, audits, key);
    ProjectionIsChain(h, audits', key');
    ChainBinds(h, ProjectionOf(h, audits, key).value.events, ProjectionOf(h, audits', key').value.events);
  }

  // ------------------------------------------------------ writer and verifier

  /** Every recorded decision reads back, and no event lacks its decision. */
  ghost predicate AuditsOk(h: Digest, audits: Audits) {
    (forall key :: key in audits.rows ==> Readable(h, audits, key))
    && forall key :: key in audits.events ==> key in audits.rows
  }

  /** The binding a gate reports is valid, names its run and carries a valid goal. */
  lemma CurrentBindingFacts(h: Digest, db: Db, run: string)
    requires CurrentBinding(h, db, run).Ok?
    ensures var (b, digest, body) := CurrentBinding(h, db, run).value;
            && ValidBinding(b) && b.runId == run && b.scope == BoundKey(b).scope && digest == h(body)
            && var row := StoreOf(db.goals, BoundKey(b)).row;
               row.Some? && ValidGoal(row.value.body) && row.value.body.scope == b.scope && row.value.body.id == b.goalId
               && row.value.body.revision == b.goalRevision && CanonicalBytes(GoalJson(row.value.body)) == Ok(body)
  {
    hide ValidGoal, CanonicalBytes, GoalJson, ValidScope, ValidIdentifier;
  }

  lemma CurrentBindingNeverCorrupt(h: Digest, db: Db, run: string)
    ensures CurrentBinding(h, db, run) != Err(Corrupt) && CurrentBinding(h, db, run) != Err(ConstraintViolation)
  {
    hide ValidGoal, GoalJson, ValidScope, ValidIdentifier;
  }

  /** A freshly recorded binding passes the reader's check. */
  lemma NewBindingVerifies(h: Digest, key: AuditKey, row: AuditRow, goal: Goal)
    requires ValidScope(key.scope) && ValidIdentifier(key.decisionId) && ValidIdentifier(row.runId)
    requires ValidIdentifier(row.goalId) && ValidRevision(row.goalRevision)
    requires ValidGoal(goal) && goal.scope == key.scope && goal.id == row.goalId && goal.revision == row.goalRevision
    requires CanonicalBytes(GoalJson(goal)) == Ok(row.goalBody) && row.goalDigest == h(row.goalBody)
    ensures VerifyBinding(h, key, row)
  {
    hide ValidGoal, CanonicalBytes, GoalJson, ValidScope, ValidIdentifier, GoalOf, ParseBytes;
    SnapshotReadsBack(goal);
    assert LowerHex(h(row.goalBody));
  }

  lemma RowsDetermineSequence(h: Digest, key: AuditKey, row: AuditRow, rows: seq<DecisionRow>)
    requires RowsOk(h, key, row, rows)
    ensures NextSequence(rows) == |rows| + 1
    ensures rows != [] ==> LowerHex(rows[|rows| - 1].eventDigest)
    ensures forall i :: 0 <= i < |rows| ==> rows[i].revision == i + 1
  {
    hide ValidPackage, PackageIn, CanonicalBytes, PackageJson, EventJson, RequestJson, ValidScope, ValidIdentifier;
    if rows != [] {
      var last := |rows| - 1;
      assert RowOkAt(h, key, row, rows, last);
      LastDigestIsHex(h, EventOf(key, row, rows[last], PackageIn(rows[last].packageBody).value));
    }
    forall i | 0 <= i < |rows|
      ensures rows[i].revision == i + 1
    {
      assert RowOkAt(h, key, row, rows, i);
    }
  }

  lemma LastDigestIsHex(h: Digest, e: Event)
    requires VerifyEvent(h, e)
    ensures LowerHex(e.eventDigest)
  {
    hide ValidPackage, CanonicalBytes, PackageJson, EventJson, RequestJson, ValidScope, ValidIdentifier;
  }

  /** The request and event bytes of the writer are the ones the verifier recomputes. */
  lemma WrittenEventVerifies(h: Digest, key: AuditKey, row: AuditRow, rows: seq<DecisionRow>, req: AppendRequest, now: int, bytes: seq<Byte>)
    requires ValidRequest(req) && now >= 0 && VerifyBinding(h, key, row) && row.runId == req.run
    requires RowsOk(h, key, row, rows) && req.expected == |rows| && req.package.revision == |rows| + 1
    requires CanonicalBytes(EventJson(NewEvent(h, key, row, rows, req, now))) == Ok(bytes)
    ensures VerifyEvent(h, NewEvent(h, key, row, rows, req, now).(eventDigest := h(bytes)))
  {
    hide ValidPackage, CanonicalBytes, PackageJson, EventJson, RequestJson, ValidScope, ValidIdentifier, RowsOk,
         VerifyBinding;
    RowsDetermineSequence(h, key, row, rows);
    BindingIdentity(h, key, row);
    var blank := NewEvent(h, key, row, rows, req, now);
    var event := blank.(eventDigest := h(bytes));
    assert EventJson(event) == EventJson(blank) by { BlankDigestUnseen(blank, h(bytes)); }
    PackageChecks(req.package);
    assert LowerHex(event.requestDigest);
  }

  lemma BlankDigestUnseen(e: Event, digest: string)
    ensures EventJson(e.(eventDigest := digest)) == EventJson(e)
  {
  }

  lemma PackageChecks(p: Package)
    requires ValidPackage(p)
    ensures ValidRevision(p.revision) && CanonicalBytes(PackageJson(p)).Ok?
  {
  }

  lemma BindingIdentity(h: Digest, key: AuditKey, row: AuditRow)
    requires VerifyBinding(h, key, row)
    ensures ValidScope(key.scope) && ValidIdentifier(row.runId) && ValidIdentifier(row.goalId) && ValidRevision(row.goalRevision)
    ensures LowerHex(row.goalDigest)
  {
    hide ValidGoal, CanonicalBytes, GoalJson, GoalOf, ParseBytes;
  }

  lemma RowsOkIgnoresRevision(h: Digest, key: AuditKey, row: AuditRow, revision: int, rows: seq<DecisionRow>)
    requires RowsOk(h, key, row, rows)
    ensures RowsOk(h, key, row.(currentRevision := revision), rows)
    ensures EventList(key, row.(currentRevision := revision), rows) == EventList(key, row, rows)
  {
    hide VerifyEvent, ValidPackage, PackageIn, CanonicalBytes, PackageJson;
    forall i | 0 <= i < |rows|
      ensures RowOkAt(h, key, row.(currentRevision := revision), rows, i)
    {
      assert RowOkAt(h, key, row, rows, i);
    }
  }

  lemma BindingIgnoresRevision(h: Digest, key: AuditKey, row: AuditRow, revision: int)
    requires VerifyBinding(h, key, row)
    ensures VerifyBinding(h, key, row.(currentRevision := revision))
  {
    hide ValidGoal, CanonicalBytes, GoalJson, GoalOf, ParseBytes;
  }

  lemma NewRowOk(h: Digest, key: AuditKey, row: AuditRow, index: nat, predecessor: Option<string>, event: Event, body: seq<Byte>)
    requires VerifyEvent(h, event)
    requires CanonicalBytes(PackageJson(event.package)) == Ok(body) && event.packageDigest == h(body)
    requires event.sequence == index + 1 && event.package.decisionId == key.decisionId && event.predecessor == predecessor
    requires event == EventOf(key, row, RowOf(event, body), event.package)
    ensures RowOk(h, key, row, RowOf(event, body), index, predecessor)
    ensures EventAt(key, row, RowOf(event, body)) == event
  {
    hide CanonicalBytes, PackageJson, EventJson, RequestJson, PackageOf, ParseBytes, ValidScope, ValidIdentifier,
         ValidPackage, DigestIs;
    PackageSurvives(event.package);
  }

  lemma RowsOkAppend(h: Digest, key: AuditKey, row: AuditRow, rows: seq<DecisionRow>, r: DecisionRow)
    requires RowsOk(h, key, row, rows) && RowOk(h, key, row, r, |rows|, Predecessor(rows, |rows|))
    ensures RowsOk(h, key, row, rows + [r])
  {
    hide RowOk;
    var rows' := rows + [r];
    forall i | 0 <= i < |rows'|
      ensures RowOkAt(h, key, row, rows', i)
    {
      assert Predecessor(rows', i) == Predecessor(rows, i);
      if i < |rows| {
        assert RowOkAt(h, key, row, rows, i);
      }
    }
  }

  /** A write whose preconditions hold is read back: one event more, everything else as before. */
  ghost predicate WroteOne(h: Digest, audits: Audits, audits': Audits, key: AuditKey, req: AppendRequest) {
    && Readable(h, audits', key)
    && (forall other :: other != key ==>
          (other in audits'.rows <==> other in audits.rows)
          && (other in audits.rows ==> audits'.rows[other] == audits.rows[other])
          && RowsAt(audits', other) == RowsAt(audits, other))
    && |RowsAt(audits', key)| == |RowsAt(audits, key)| + 1
    && RowsAt(audits, key) == RowsAt(audits', key)[..|RowsAt(audits, key)|]
    && RowsAt(audits', key)[|RowsAt(audits, key)|].requestId == req.requestId
    && (var events := EventList(key, audits'.rows[key], RowsAt(audits', key));
        var last := events[|events| - 1];
        && events[..|events| - 1] == EventList(key, audits'.rows[key], RowsAt(audits, key))
        && last.package == req.package && last.requestId == req.requestId && last.sequence == req.expected + 1)
    && (key in audits.rows ==> audits'.rows[key] == audits.rows[key].(currentRevision := req.expected + 1))
    && audits'.rows[key].runId == req.run
  }

  /** The tables after a write, before the re-read. */
  function Written(audits: Audits, key: AuditKey, row: AuditRow, revision: int, rows: seq<DecisionRow>): Audits {
    Audits(audits.rows[key := row.(currentRevision := revision)], audits.events[key := rows])
  }

  lemma WrittenIsReadable(h: Digest, audits: Audits, key: AuditKey, row: AuditRow, req: AppendRequest, event: Event, body: seq<Byte>)
    requires VerifyBinding(h, key, row) && row.runId == req.run && (key in audits.rows ==> row == audits.rows[key])
    requires RowsOk(h, key, row, RowsAt(audits, key)) && |RowsAt(audits, key)| == row.currentRevision
    requires req.expected == row.currentRevision && req.package.revision == row.currentRevision + 1 && ValidRevision(req.package.revision)
    requires VerifyEvent(h, event) && CanonicalBytes(PackageJson(event.package)) == Ok(body) && event.packageDigest == h(body)
    requires event.sequence == req.expected + 1 && event.package == req.package && req.package.decisionId == key.decisionId
    requires event.requestId == req.requestId
    requires event.predecessor == Predecessor(RowsAt(audits, key), |RowsAt(audits, key)|)
    requires event == EventOf(key, row, RowOf(event, body), event.package)
    ensures WroteOne(h, audits, Written(audits, key, row, req.package.revision, RowsAt(audits, key) + [RowOf(event, body)]), key, req)
  {
    hide RowsOk, VerifyBinding, VerifyEvent, CanonicalBytes, PackageJson, EventAt, EventOf, RowOk, RowOf, WroteOne;
    var rows := RowsAt(audits, key);
    NewRowOk(h, key, row, |rows|, Predecessor(rows, |rows|), event, body);
    RowsOkAppend(h, key, row, rows, RowOf(event, body));
    RowKeepsRequest(event, body);
    AppendedOne(h, audits, key, row, req, RowOf(event, body));
  }

  lemma RowKeepsRequest(event: Event, body: seq<Byte>)
    ensures RowOf(event, body).requestId == event.requestId
  {
  }

  lemma EventListSnoc(key: AuditKey, row: AuditRow, rows: seq<DecisionRow>, last: DecisionRow)
    ensures EventList(key, row, rows + [last]) == EventList(key, row, rows) + [EventAt(key, row, last)]
  {
    hide EventAt;
  }

  /** Tables that differ by one readable row and the decision's revision. */
  lemma AppendedOne(h: Digest, audits: Audits, key: AuditKey, row: AuditRow, req: AppendRequest, last: DecisionRow)
    requires VerifyBinding(h, key, row) && row.runId == req.run && (key in audits.rows ==> row == audits.rows[key])
    requires |RowsAt(audits, key)| == row.currentRevision == req.expected
    requires req.package.revision == row.currentRevision + 1 && ValidRevision(req.package.revision)
    requires RowsOk(h, key, row, RowsAt(audits, key)) && RowsOk(h, key, row, RowsAt(audits, key) + [last])
    requires last.requestId == req.requestId
    requires var e := EventAt(key, row, last); e.package == req.package && e.requestId == req.requestId && e.sequence == req.expected + 1
    ensures WroteOne(h, audits, Written(audits, key, row, req.package.revision, RowsAt(audits, key) + [last]), key, req)
  {
    hide Readable, RowsOk, VerifyBinding, EventAt, EventList, RowsAt, Written;
    var rows := RowsAt(audits, key);
    var rows' := rows + [last];
    var audits' := Written(audits, key, row, req.package.revision, rows');
    WrittenTables(audits, key, row, req.package.revision, rows');
    WrittenReadable(h, audits, key, row, req.package.revision, rows');
    RowsOkIgnoresRevision(h, key, row, req.package.revision, rows');
    RowsOkIgnoresRevision(h, key, row, req.package.revision, rows);
    EventListSnoc(key, row, rows, last);
    assert rows == rows'[..|rows|];
  }

  lemma WrittenTables(audits: Audits, key: AuditKey, row: AuditRow, revision: int, rows: seq<DecisionRow>)
    ensures var audits' := Written(audits, key, row, revision, rows);
            && key in audits'.rows && audits'.rows[key] == row.(currentRevision := revision) && RowsAt(audits', key) == rows
            && forall other :: other != key ==>
                 (other in audits'.rows <==> other in audits.rows)
                 && (other in audits.rows ==> audits'.rows[other] == audits.rows[other])
                 && RowsAt(audits', other) == RowsAt(audits, other)
  {
  }

  lemma WrittenReadable(h: Digest, audits: Audits, key: AuditKey, row: AuditRow, revision: int, rows: seq<DecisionRow>)
    requires VerifyBinding(h, key, row) && RowsOk(h, key, row, rows) && |rows| == revision && ValidRevision(revision)
    ensures Readable(h, Written(audits, key, row, revision, rows), key)
  {
    hide RowsOk, VerifyBinding, EventList;
    RowsOkIgnoresRevision(h, key, row, revision, rows);
    BindingIgnoresRevision(h, key, row, revision);
  }

  lemma WriteIsRead(h: Digest, audits: Audits, key: AuditKey, row: AuditRow, req: AppendRequest, now: int)
    requires ValidRequest(req) && now >= 0 && key.decisionId == req.package.decisionId
    requires VerifyBinding(h, key, row) && row.runId == req.run
    requires key in audits.rows ==> row == audits.rows[key]
    requires RowsOk(h, key, row, RowsAt(audits, key)) && |RowsAt(audits, key)| == row.currentRevision
    requires req.expected == row.currentRevision && req.package.revision == row.currentRevision + 1
    requires forall i :: 0 <= i < |RowsAt(audits, key)| ==> RowsAt(audits, key)[i].requestId != req.requestId
    ensures var (audits', r) := WriteEvent(h, audits, key, row, req, now);
            if r.Ok? then WroteOne(h, audits, audits', key, req) && r == ProjectionOf(h, audits', key)
                          && audits'.rows.Keys == audits.rows.Keys + {key} && audits'.events.Keys == audits.events.Keys + {key}
            else audits' == audits && r == Err(TooLarge)
  {
    hide RowsOk, VerifyBinding, VerifyEvent, CanonicalBytes, PackageJson, EventJson, RequestJson, ValidPackage,
         EventAt, ValidRequest, RequestDigest, WroteOne;
    var rows := RowsAt(audits, key);
    RowsDetermineSequence(h, key, row, rows);
    var blank := NewEvent(h, key, row, rows, req, now);
    RequestFacts(req);
    PackageChecks(req.package);
    EventBytesFail(blank);
    if CanonicalBytes(EventJson(blank)).Ok? {
      var bytes := CanonicalBytes(EventJson(blank)).value;
      var event := blank.(eventDigest := h(bytes));
      var body := CanonicalBytes(PackageJson(req.package)).value;
      WrittenEventVerifies(h, key, row, rows, req, now, bytes);
      WrittenIsReadable(h, audits, key, row, req, event, body);
      WroteIsReadable(h, audits, Written(audits, key, row, req.package.revision, rows + [RowOf(event, body)]), key, req);
    }
  }

  lemma WroteIsReadable(h: Digest, audits: Audits, audits': Audits, key: AuditKey, req: AppendRequest)
    requires WroteOne(h, audits, audits', key, req)
    ensures ProjectionOf(h, audits', key).Ok?
  {
    hide RowsOk, VerifyBinding, EventList;
  }

  lemma EventBytesFail(e: Event)
    ensures CanonicalBytes(EventJson(e)).Err? ==> CanonicalBytes(EventJson(e)) == Err(TooLarge)
  {
    hide ScopeJson;
    ScopeIsNormal(e.scope);
    OptionIsPlain(e.predecessor);
    RecordHasIntegers(EVENT_KEYS, EventValues(e));
  }

  lemma OthersStayReadable(h: Digest, audits: Audits, audits': Audits, key: AuditKey)
    requires AuditsOk(h, audits) && Readable(h, audits', key)
    requires forall other :: other != key ==>
               (other in audits'.rows <==> other in audits.rows)
               && (other in audits.rows ==> audits'.rows[other] == audits.rows[other])
               && RowsAt(audits', other) == RowsAt(audits, other)
    requires audits'.events.Keys == audits.events.Keys + {key}
    ensures AuditsOk(h, audits')
  {
    hide RowsOk, VerifyBinding, RowsAt;
    forall other | other in audits'.rows
      ensures Readable(h, audits', other)
    {
      if other != key {
        assert Readable(h, audits, other);
      }
    }
  }

  /**
   * Writer and verifier agree. On any tables whose decisions all read back, an
   * append never fails a corruption check or a uniqueness constraint and never
   * breaks a decision; it either changes nothing or adds exactly one event, which
   * the reader accepts in the same transaction.
   */
  lemma WriterAgreesWithVerifier(h: Digest, db: Db, audits: Audits, req: AppendRequest, now: int)
    requires AuditsOk(h, audits) && now >= 0
    ensures var (audits', r) := Append(h, db, audits, req, now);
            && AuditsOk(h, audits')
            && r != Err(Corrupt) && r != Err(ConstraintViolation)
            && (r.Err? ==> audits' == audits)
            && (r.Ok? ==>
                  && CurrentBinding(h, db, req.run).Ok?
                  && var key := AuditKey(CurrentBinding(h, db, req.run).value.0.scope, req.package.decisionId);
                     && r == ProjectionOf(h, audits', key)
                     && Find(RowsAt(audits', key), req.requestId).Some?
                     && (audits' == audits || WroteOne(h, audits, audits', key, req)))
  {
    hide RowsOk, VerifyBinding, CurrentBinding, WriteEvent, ValidRequest, RequestJson, WroteOne, PackageJson;
    CurrentBindingNeverCorrupt(h, db, req.run);
    if ValidRequest(req) && CurrentBinding(h, db, req.run).Ok? {
      var (b, goalDigest, goalBody) := CurrentBinding(h, db, req.run).value;
      var key := AuditKey(b.scope, req.package.decisionId);
      CurrentBindingFacts(h, db, req.run);
      if key in audits.rows {
        assert Readable(h, audits, key);
        AppendToKnown(h, db, audits, req, now, key);
      } else {
        AppendFirst(h, db, audits, req, now, key);
      }
    }
  }

  lemma RequestFacts(req: AppendRequest)
    requires ValidRequest(req)
    ensures ValidIdentifier(req.run) && ValidIdentifier(req.package.decisionId) && ValidPackage(req.package)
  {
    hide CanonicalBytes, RequestJson, PackageJson;
  }

  lemma NoRowsYet(h: Digest, audits: Audits, key: AuditKey, row: AuditRow)
    requires AuditsOk(h, audits) && key !in audits.rows
    ensures RowsAt(audits, key) == [] && RowsOk(h, key, row, [])
  {
    hide Readable;
  }

  lemma WroteLast(h: Digest, audits: Audits, audits': Audits, key: AuditKey, req: AppendRequest)
    requires WroteOne(h, audits, audits', key, req)
    ensures Find(RowsAt(audits', key), req.requestId).Some? && Readable(h, audits', key)
    ensures forall other :: other != key ==>
              (other in audits'.rows <==> other in audits.rows)
              && (other in audits.rows ==> audits'.rows[other] == audits.rows[other])
              && RowsAt(audits', other) == RowsAt(audits, other)
  {
    hide Readable, EventList;
  }

  lemma AppendToKnown(h: Digest, db: Db, audits: Audits, req: AppendRequest, now: int, key: AuditKey)
    requires AuditsOk(h, audits) && now >= 0 && ValidRequest(req) && CurrentBinding(h, db, req.run).Ok?
    requires key == AuditKey(CurrentBinding(h, db, req.run).value.0.scope, req.package.decisionId)
    requires key in audits.rows && Readable(h, audits, key)
    ensures var (audits', r) := Append(h, db, audits, req, now);
            && AuditsOk(h, audits')
            && r != Err(Corrupt) && r != Err(ConstraintViolation)
            && (r.Err? ==> audits' == audits)
            && (r.Ok? ==>
                  && r == ProjectionOf(h, audits', key)
                  && Find(RowsAt(audits', key), req.requestId).Some?
                  && (audits' == audits || WroteOne(h, audits, audits', key, req)))
  {
    hide RowsOk, VerifyBinding, CurrentBinding, WriteEvent, ValidRequest, RequestJson, AuditsOk, RequestDigest,
         EventList;
    var row, rows := audits.rows[key], RowsAt(audits, key);
    var (b, goalDigest, goalBody) := CurrentBinding(h, db, req.run).value;
    if row.runId == req.run && Find(rows, req.requestId).None?
       && req.expected == row.currentRevision && req.package.revision == row.currentRevision + 1 {
      WriteIsRead(h, audits, key, row, req, now);
      var (audits', r) := WriteEvent(h, audits, key, row, req, now);
      if r.Ok? {
        WroteLast(h, audits, audits', key, req);
        OthersStayReadable(h, audits, audits', key);
      }
    }
  }

  lemma AppendFirst(h: Digest, db: Db, audits: Audits, req: AppendRequest, now: int, key: AuditKey)
    requires AuditsOk(h, audits) && now >= 0 && ValidRequest(req) && CurrentBinding(h, db, req.run).Ok?
    requires key == AuditKey(CurrentBinding(h, db, req.run).value.0.scope, req.package.decisionId)
    requires key !in audits.rows
    ensures var (audits', r) := Append(h, db, audits, req, now);
            && AuditsOk(h, audits')
            && r != Err(Corrupt) && r != Err(ConstraintViolation)
            && (r.Err? ==> audits' == audits)
            && (r.Ok? ==>
                  && r == ProjectionOf(h, audits', key)
                  && Find(RowsAt(audits', key), req.requestId).Some?
                  && WroteOne(h, audits, audits', key, req))
  {
    hide VerifyBinding, CurrentBinding, WriteEvent, ValidRequest, EventList, GoalJson, ValidGoal, CanonicalBytes,
         ValidIdentifier, ValidScope, ValidPackage, RowsOk, AuditsOk, WroteOne;
    var (b, goalDigest, goalBody) := CurrentBinding(h, db, req.run).value;
    var row := AuditRow(req.run, b.goalId, b.goalRevision, goalDigest, goalBody, 0);
    NoRowsYet(h, audits, key, row);
    if req.expected == 0 && req.package.revision == 1 {
      CurrentBindingFacts(h, db, req.run);
      RequestFacts(req);
      NewBindingVerifies(h, key, row, StoreOf(db.goals, BoundKey(b)).row.value.body);
      WriteIsRead(h, audits, key, row, req, now);
      var (audits', r) := WriteEvent(h, audits, key, row, req, now);
      if r.Ok? {
        WroteLast(h, audits, audits', key, req);
        OthersStayReadable(h, audits, audits', key);
      }
    }
  }

  lemma NoAuditsOk(h: Digest)
    ensures AuditsOk(h, NO_AUDITS)
  {
  }

  lemma {:induction false} ReachableAuditsOk(h: Digest, s: AuditState, ops: seq<TimedAudit>)
    requires AuditsOk(h, s.audits) && DbOk(s.db)
    ensures AuditsOk(h, AuditRun(h, s, ops).audits) && DbOk(AuditRun(h, s, ops).db)
    decreases |ops|
  {
    hide AuditsOk, DbOk, Append, Step;
    if ops != [] {
      match ops[0].op {
        case Tx(op) => StepKeepsDb(s.db, op, ops[0].now);
        case AppendTx(req) => WriterAgreesWithVerifier(h, s.db, s.audits, req, ops[0].now);
      }
      ReachableAuditsOk(h, AuditStep(h, s, ops[0].op, ops[0].now), ops[1..]);
    }
  }

  /** In every reachable journal every recorded decision reads back, whatever happened to its goal since. */
  lemma EveryDecisionReads(h: Digest, ops: seq<TimedAudit>, key: AuditKey)
    requires key in AuditRun(h, AuditState(EMPTY_DB, NO_AUDITS), ops).audits.rows
    ensures ProjectionOf(h, AuditRun(h, AuditState(EMPTY_DB, NO_AUDITS), ops).audits, key).Ok?
  {
    hide DbOk, Readable, AuditRun;
    EmptyDbOk();
    NoAuditsOk(h);
    ReachableAuditsOk(h, AuditState(EMPTY_DB, NO_AUDITS), ops);
  }

  // ------------------------------------------------------------------ repeats

  /** What a successful append leaves behind for its request id. */
  ghost predicate Remembers(h: Digest, audits: Audits, key: AuditKey, req: AppendRequest, b: GoalRunBinding, goalDigest: string) {
    ValidRequest(req) && key in audits.rows
    && (var row := audits.rows[key];
        row.runId == req.run && row.goalId == b.goalId && row.goalRevision == b.goalRevision && row.goalDigest == goalDigest)
    && Find(RowsAt(audits, key), req.requestId).Some?
    && Find(RowsAt(audits, key), req.requestId).value.requestDigest == RequestDigest(h, req)
  }

  lemma {:induction false} FindInLonger(rows: seq<DecisionRow>, more: seq<DecisionRow>, requestId: string)
    ensures Find(rows, requestId).Some? ==> Find(rows + more, requestId) == Find(rows, requestId)
    ensures Find(rows, requestId).None? ==> Find(rows + more, requestId) == Find(more, requestId)
  {
    if rows == [] {
      assert rows + more == more;
    } else {
      assert (rows + more)[1..] == rows[1..] + more;
      FindInLonger(rows[1..], more, requestId);
    }
  }

  lemma WriteRemembers(h: Digest, audits: Audits, key: AuditKey, row: AuditRow, req: AppendRequest, now: int)
    requires ValidRequest(req) && WriteEvent(h, audits, key, row, req, now).1.Ok? && Find(RowsAt(audits, key), req.requestId).None?
    ensures var audits' := WriteEvent(h, audits, key, row, req, now).0;
            && audits'.rows == audits.rows[key := row.(currentRevision := req.package.revision)]
            && Find(RowsAt(audits', key), req.requestId).Some?
            && Find(RowsAt(audits', key), req.requestId).value.requestDigest == RequestDigest(h, req)
  {
    hide ValidRequest, ProjectionOf, CanonicalBytes, PackageJson, EventJson, RequestDigest, Find, NextSequence,
         Predecessor, ValidPackage;
    RequestFacts(req);
    PackageChecks(req.package);
    var rows := RowsAt(audits, key);
    var blank := NewEvent(h, key, row, rows, req, now);
    var event := blank.(eventDigest := h(CanonicalBytes(EventJson(blank)).value));
    var last := RowOf(event, CanonicalBytes(PackageJson(req.package)).value);
    FindInLonger(rows, [last], req.requestId);
    assert [last][0].requestId == req.requestId;
  }

  lemma AppendRemembers(h: Digest, db: Db, audits: Audits, req: AppendRequest, now: int)
    requires AuditsOk(h, audits) && now >= 0 && Append(h, db, audits, req, now).1.Ok?
    ensures CurrentBinding(h, db, req.run).Ok?
    ensures var (b, goalDigest, _) := CurrentBinding(h, db, req.run).value;
            Remembers(h, Append(h, db, audits, req, now).0, AuditKey(b.scope, req.package.decisionId), req, b, goalDigest)
  {
    hide VerifyBinding, CurrentBinding, WriteEvent, ValidRequest, RequestDigest, AuditsOk, ProjectionOf;
    var (b, goalDigest, goalBody) := CurrentBinding(h, db, req.run).value;
    var key := AuditKey(b.scope, req.package.decisionId);
    if key in audits.rows {
      if Find(RowsAt(audits, key), req.requestId).None? {
        WriteRemembers(h, audits, key, audits.rows[key], req, now);
      }
    } else {
      var row := AuditRow(req.run, b.goalId, b.goalRevision, goalDigest, goalBody, 0);
      NoRowsYet(h, audits, key, row);
      WriteRemembers(h, audits, key, row, req, now);
    }
  }

  /** Later appends only add rows, and never change what a decision is bound to. */
  ghost predicate Grows(audits: Audits, audits': Audits) {
    forall key :: key in audits.rows ==>
      key in audits'.rows && audits'.rows[key].(currentRevision := 0) == audits.rows[key].(currentRevision := 0)
      && RowsAt(audits, key) <= RowsAt(audits', key)
  }

  lemma WroteGrows(h: Digest, audits: Audits, audits': Audits, key: AuditKey, req: AppendRequest)
    requires WroteOne(h, audits, audits', key, req)
    ensures Grows(audits, audits')
  {
    hide RowsOk, VerifyBinding, EventList, RowsAt;
    forall other | other in audits.rows
      ensures RowsAt(audits, other) <= RowsAt(audits', other)
    {
      if other != key {
        assert RowsAt(audits', other) == RowsAt(audits, other);
      }
    }
  }

  lemma AppendGrows(h: Digest, db: Db, audits: Audits, req: AppendRequest, now: int)
    requires AuditsOk(h, audits) && now >= 0
    ensures Grows(audits, Append(h, db, audits, req, now).0)
  {
    hide Append, AuditsOk, CurrentBinding, ProjectionOf, WroteOne, Grows;
    WriterAgreesWithVerifier(h, db, audits, req, now);
    var (audits', r) := Append(h, db, audits, req, now);
    if audits' != audits {
      var key := AuditKey(CurrentBinding(h, db, req.run).value.0.scope, req.package.decisionId);
      WroteGrows(h, audits, audits', key, req);
    } else {
      GrowsItself(audits);
    }
  }

  /** A run's binding never changes, and a goal's past revisions never change. */
  ghost predicate Settled(db: Db, db': Db) {
    (forall run :: run in db.runs ==> run in db'.runs && db'.runs[run].binding == db.runs[run].binding)
    && forall key ::
         ReadProjection.Preserves(StoreOf(db.goals, key), StoreOf(db'.goals, key), Revision(StoreOf(db.goals, key)))
         && Revision(StoreOf(db.goals, key)) <= Revision(StoreOf(db'.goals, key))
  }

  lemma PreservesItself(goals: Goals, key: GoalKey)
    requires GoalsOk(goals)
    ensures ReadProjection.Preserves(StoreOf(goals, key), StoreOf(goals, key), Revision(StoreOf(goals, key)))
  {
    hide GoalsOk, ReadProjection.WellRecorded;
    ReadProjection.RevisionsPresent(goals, key);
  }

  lemma StepSettles(db: Db, op: JournalOp, now: int)
    requires DbOk(db) && now >= 0
    ensures Settled(db, Step(db, op, now))
  {
    hide GoalsOk, BindingOk, GapFree, Apply, BindingIsCurrent, ReadProjection.Preserves;
    forall key
      ensures ReadProjection.Preserves(StoreOf(db.goals, key), StoreOf(Step(db, op, now).goals, key), Revision(StoreOf(db.goals, key)))
              && Revision(StoreOf(db.goals, key)) <= Revision(StoreOf(Step(db, op, now).goals, key))
    {
      if op.GoalTx? {
        ReadProjection.ApplyPreserves(db.goals, op.op, now, key);
        ApplyNeverFalls(db.goals, op.op, now, key);
      } else {
        PreservesItself(db.goals, key);
      }
    }
  }

  lemma SettledTransitive(a: Db, b: Db, c: Db)
    requires Settled(a, b) && Settled(b, c)
    ensures Settled(a, c)
  {
    forall key
      ensures ReadProjection.Preserves(StoreOf(a.goals, key), StoreOf(c.goals, key), Revision(StoreOf(a.goals, key)))
              && Revision(StoreOf(a.goals, key)) <= Revision(StoreOf(c.goals, key))
    {
      assert ReadProjection.Preserves(StoreOf(a.goals, key), StoreOf(b.goals, key), Revision(StoreOf(a.goals, key)));
      assert ReadProjection.Preserves(StoreOf(b.goals, key), StoreOf(c.goals, key), Revision(StoreOf(b.goals, key)));
    }
  }

  lemma {:induction false} RunSettles(h: Digest, s: AuditState, ops: seq<TimedAudit>)
    requires AuditsOk(h, s.audits) && DbOk(s.db)
    ensures Settled(s.db, AuditRun(h, s, ops).db) && Grows(s.audits, AuditRun(h, s, ops).audits)
    decreases |ops|
  {
    hide AuditsOk, DbOk, Append, Step, Settled, Grows;
    if ops == [] {
      SettledItself(s.db);
      GrowsItself(s.audits);
    } else {
      var next := AuditStep(h, s, ops[0].op, ops[0].now);
      StepKeepsOk(h, s, ops[0].op, ops[0].now);
      RunSettles(h, next, ops[1..]);
      match ops[0].op {
        case Tx(op) =>
          StepSettles(s.db, op, ops[0].now);
          GrowsItself(s.audits);
        case AppendTx(req) =>
          SettledItself(s.db);
          AppendGrows(h, s.db, s.audits, req, ops[0].now);
      }
      SettledTransitive(s.db, next.db, AuditRun(h, s, ops).db);
      GrowsTransitive(s.audits, next.audits, AuditRun(h, s, ops).audits);
    }
  }

  lemma StepKeepsOk(h: Digest, s: AuditState, op: AuditOp, now: int)
    requires AuditsOk(h, s.audits) && DbOk(s.db) && now >= 0
    ensures AuditsOk(h, AuditStep(h, s, op, now).audits) && DbOk(AuditStep(h, s, op, now).db)
  {
    hide AuditsOk, DbOk, Append, Step;
    match op
    case Tx(op) => StepKeepsDb(s.db, op, now);
    case AppendTx(req) => WriterAgreesWithVerifier(h, s.db, s.audits, req, now);
  }

  lemma SettledItself(db: Db)
    requires DbOk(db)
    ensures Settled(db, db)
  {
    hide GoalsOk, BindingOk, GapFree, ReadProjection.Preserves;
    forall key
      ensures ReadProjection.Preserves(StoreOf(db.goals, key), StoreOf(db.goals, key), Revision(StoreOf(db.goals, key)))
    {
      PreservesItself(db.goals, key);
    }
  }

  lemma GrowsItself(audits: Audits)
    ensures Grows(audits, audits)
  {
  }

  lemma GrowsTransitive(a: Audits, b: Audits, c: Audits)
    requires Grows(a, b) && Grows(b, c)
    ensures Grows(a, c)
  {
    hide RowsAt;
    forall key | key in a.rows
      ensures RowsAt(a, key) <= RowsAt(c, key)
    {
      assert RowsAt(a, key) <= RowsAt(b, key) && RowsAt(b, key) <= RowsAt(c, key);
    }
  }

  /** While a binding is current its goal has one body, so its digest never varies. */
  lemma CurrentBindingStable(h: Digest, db: Db, db': Db, run: string)
    requires DbOk(db) && DbOk(db') && Settled(db, db')
    requires CurrentBinding(h, db, run).Ok? && CurrentBinding(h, db', run).Ok?
    ensures CurrentBinding(h, db', run) == CurrentBinding(h, db, run)
  {
    hide ValidGoal, CanonicalBytes, GoalJson, ValidScope, ValidIdentifier, BindingOk, GapFree, GoalsOk,
         ReadProjection.WellRecorded, EventsAt;
    var b := CurrentBinding(h, db, run).value.0;
    assert CurrentBinding(h, db', run).value.0 == b;
    var key := BoundKey(b);
    CurrentFacts(db.goals, b);
    CurrentFacts(db'.goals, b);
    BodyIsRevision(db.goals, key);
    BodyIsRevision(db'.goals, key);
    assert ReadProjection.Preserves(StoreOf(db.goals, key), StoreOf(db'.goals, key), Revision(StoreOf(db.goals, key)));
  }

  lemma BodyIsRevision(goals: Goals, key: GoalKey)
    requires GoalsOk(goals) && StoreOf(goals, key).row.Some?
    ensures var st := StoreOf(goals, key);
            Revision(st) >= 1 && Revision(st) in st.revisions && st.row.value.body == st.revisions[Revision(st)].body
  {
    hide MilestonesOk, Fresh, ReplayOk;
    assert StoreOk(key, StoreOf(goals, key));
  }

  /**
   * Repeating a committed append, after any later history and while the run's
   * binding is still current, changes nothing and returns the decision as it now is.
   */
  lemma RepeatChangesNothing(h: Digest, ops: seq<TimedAudit>, req: AppendRequest, now: nat, later: seq<TimedAudit>, again: nat)
    requires var s := AuditRun(h, AuditState(EMPTY_DB, NO_AUDITS), ops);
             && Append(h, s.db, s.audits, req, now).1.Ok?
             && CurrentBinding(h, AuditRun(h, AuditStep(h, s, AppendTx(req), now), later).db, req.run).Ok?
    ensures var s := AuditRun(h, AuditState(EMPTY_DB, NO_AUDITS), ops);
            var s' := AuditRun(h, AuditStep(h, s, AppendTx(req), now), later);
            var key := AuditKey(CurrentBinding(h, s'.db, req.run).value.0.scope, req.package.decisionId);
            Append(h, s'.db, s'.audits, req, again) == (s'.audits, ProjectionOf(h, s'.audits, key))
            && ProjectionOf(h, s'.audits, key).Ok?
  {
    hide AuditsOk, DbOk, Append, AuditRun, Settled, Grows, CurrentBinding, ProjectionOf, Remembers;
    EmptyDbOk();
    NoAuditsOk(h);
    ReachableAuditsOk(h, AuditState(EMPTY_DB, NO_AUDITS), ops);
    var s := AuditRun(h, AuditState(EMPTY_DB, NO_AUDITS), ops);
    var mid := AuditStep(h, s, AppendTx(req), now);
    StepKeepsOk(h, s, AppendTx(req), now);
    AppendRemembers(h, s.db, s.audits, req, now);
    ReachableAuditsOk(h, mid, later);
    RunSettles(h, mid, later);
    var s' := AuditRun(h, mid, later);
    CurrentBindingStable(h, s.db, s'.db, req.run);
    var (b, goalDigest, _) := CurrentBinding(h, s'.db, req.run).value;
    RemembersLater(h, mid.audits, s'.audits, AuditKey(b.scope, req.package.decisionId), req, b, goalDigest);
    RememberedRepeats(h, s'.db, s'.audits, req, again);
  }

  lemma RemembersLater(h: Digest, audits: Audits, audits': Audits, key: AuditKey, req: AppendRequest, b: GoalRunBinding, goalDigest: string)
    requires Remembers(h, audits, key, req, b, goalDigest) && Grows(audits, audits')
    ensures Remembers(h, audits', key, req, b, goalDigest)
  {
    hide ValidRequest, RequestDigest, RowsAt;
    var rows, rows' := RowsAt(audits, key), RowsAt(audits', key);
    assert rows <= rows';
    assert rows' == rows + rows'[|rows|..];
    FindInLonger(rows, rows'[|rows|..], req.requestId);
    assert audits'.rows[key].(currentRevision := 0) == audits.rows[key].(currentRevision := 0);
  }

  lemma RememberedRepeats(h: Digest, db: Db, audits: Audits, req: AppendRequest, now: int)
    requires AuditsOk(h, audits) && CurrentBinding(h, db, req.run).Ok?
    requires var (b, goalDigest, _) := CurrentBinding(h, db, req.run).value;
             Remembers(h, audits, AuditKey(b.scope, req.package.decisionId), req, b, goalDigest)
    ensures var key := AuditKey(CurrentBinding(h, db, req.run).value.0.scope, req.package.decisionId);
            Append(h, db, audits, req, now) == (audits, ProjectionOf(h, audits, key)) && ProjectionOf(h, audits, key).Ok?
  {
    hide CurrentBinding, ValidRequest, RequestDigest, RowsOk, VerifyBinding, EventList;
    var key := AuditKey(CurrentBinding(h, db, req.run).value.0.scope, req.package.decisionId);
    assert Readable(h, audits, key);
  }
}
