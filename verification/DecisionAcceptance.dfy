// Which decision appends are accepted, and what an accepted one records.
module DecisionAcceptance {
  import opened Basics
  import opened Json
  import opened CanonicalJson
  import opened Records
  import opened GoalTypes
  import opened GoalJournal
  import opened GoalInvariants
  import opened GoalTheorems
  import opened GoalRecords
  import opened Runs
  import opened RunTheorems
  import opened DecisionTypes
  import opened DecisionAudit
  import opened DecisionTheorems
  import opened SizeLimits
  import Utf8

  const I64_MAX := 0x7FFF_FFFF_FFFF_FFFF

  // ------------------------------------------------------- an event always fits

  lemma Powers()
    ensures Power(19) == 10000000000000000000
  {
    assert Power(2) == 100 && Power(4) == 10000 && Power(6) == 1000000 && Power(8) == 100000000 && Power(10) == 10000000000;
    assert Power(12) == 1000000000000 && Power(14) == 100000000000000 && Power(16) == 10000000000000000;
    assert Power(18) == 1000000000000000000;
  }

  lemma TimeLength(now: int)
    requires 0 <= now <= I64_MAX
    ensures TextLength(Int(now)) <= 19
  {
    Powers();
    NatTextLength(now, 19);
  }

  lemma {:induction false} ValuesBound(fields: seq<Field>, bound: nat)
    requires forall i :: 0 <= i < |fields| ==> TextLength(fields[i].value) <= bound
    ensures ValuesLength(fields) <= bound * |fields|
  {
    hide TextLength;
    if fields != [] {
      ValuesBound(fields[1..], bound);
    }
  }

  predicate PlainKey(key: string) {
    |key| <= 24 && forall k :: 0 <= k < |key| ==> PlainChar(key[k])
  }

  lemma EventKeys1()
    ensures PlainKey("created_at") && PlainKey("decision_id") && PlainKey("domain") && PlainKey("goal_digest") && PlainKey("goal_id")
  {
  }

  lemma EventKeys2()
    ensures PlainKey("goal_revision") && PlainKey("package_digest") && PlainKey("predecessor_event_digest") && PlainKey("request_digest")
  {
  }

  lemma EventKeys3()
    ensures PlainKey("request_id") && PlainKey("run_id") && PlainKey("scope") && PlainKey("sequence")
  {
  }

  lemma EventKeysPlain(values: seq<Value>)
    requires |values| == |EVENT_KEYS|
    ensures PlainKeys(Fields(EVENT_KEYS, values))
  {
    hide PlainKey;
    EventKeys1();
    EventKeys2();
    EventKeys3();
    assert forall i :: 0 <= i < |EVENT_KEYS| ==> PlainKey(EVENT_KEYS[i]);
    PlainFields(EVENT_KEYS, values);
  }

  lemma PlainFields(keys: seq<string>, values: seq<Value>)
    requires |keys| == |values| && forall i :: 0 <= i < |keys| ==> PlainKey(keys[i])
    ensures PlainKeys(Fields(keys, values))
  {
  }

  lemma PlainTextLength(s: string)
    requires forall i :: 0 <= i < |s| ==> PlainChar(s[i])
    ensures TextLength(Str(s)) == |s| + 2
  {
    PlainLength(s);
    QuotedLength(s);
  }

  lemma AsciiLiteral(v: Value, s: string)
    requires Text(v) == s && forall i :: 0 <= i < |s| ==> s[i] as int < 0x80
    ensures TextLength(v) == |s|
  {
    AsciiText(s);
  }

  lemma FixedLengths()
    ensures TextLength(Str(EVENT_DOMAIN)) <= 700 && TextLength(Null) <= 700
  {
    hide TextLength;
    PlainTextLength(EVENT_DOMAIN);
    AsciiLiteral(Null, "null");
  }

  /** What an event needs in order to be printed within the body limit. */
  predicate Printable(e: Event) {
    ValidScope(e.scope) && ValidIdentifier(e.runId) && ValidIdentifier(e.goalId) && ValidIdentifier(e.requestId)
    && ValidIdentifier(e.package.decisionId) && ValidRevision(e.goalRevision) && ValidRevision(e.sequence)
    && LowerHex(e.goalDigest) && LowerHex(e.packageDigest) && LowerHex(e.requestDigest)
    && (e.predecessor.Some? ==> LowerHex(e.predecessor.value)) && 0 <= e.createdAt <= I64_MAX
  }

  lemma EventValueLengths(e: Event)
    requires Printable(e)
    ensures forall i :: 0 <= i < |EVENT_KEYS| ==> TextLength(EventValues(e)[i]) <= 700
  {
    hide TextLength, ValidIdentifier, LowerHex, ValidScope, ScopeJson;
    TimeLength(e.createdAt);
    FixedLengths();
    IdentifierLength(e.package.decisionId);
    DigestLength(e.goalDigest);
    IdentifierLength(e.goalId);
    RevisionLength(e.goalRevision);
    DigestLength(e.packageDigest);
    if e.predecessor.Some? {
      DigestLength(e.predecessor.value);
    }
    DigestLength(e.requestDigest);
    IdentifierLength(e.requestId);
    IdentifierLength(e.runId);
    ScopeLength(e.scope);
    RevisionLength(e.sequence);
  }

  lemma EventFits(e: Event)
    requires Printable(e)
    ensures CanonicalBytes(EventJson(e)).Ok?
  {
    hide TextLength, Printable, EventValues, ScopeJson, FieldsText;
    var values := EventValues(e);
    var fields := Fields(EVENT_KEYS, values);
    EventValueLengths(e);
    EventKeysPlain(values);
    ObjectLength(fields);
    ValuesBound(fields, 700);
    NormalizeKeepsLength(Obj(fields));
    EventBytesFail(e);
    assert TextLength(Normalize(EventJson(e))) <= MAX_BODY;
    TextIsCanonical(EventJson(e));
  }

  lemma TextIsCanonical(v: Value)
    ensures Utf8.ByteLen(CanonicalText(v)) == TextLength(Normalize(v))
  {
  }

  // -------------------------------------------------------- the current binding

  /**
   * A run may append exactly when it is bound to the current revision of its goal and
   * that goal's canonical bytes are within the body limit; the digest is theirs.
   */
  lemma CurrentBindingExactly(h: Digest, db: Db, run: string)
    requires DbOk(db)
    ensures CurrentBinding(h, db, run).Ok? <==>
              && run in db.runs && db.runs[run].binding.Bound?
              && var b := db.runs[run].binding.binding;
                 var st := StoreOf(db.goals, BoundKey(b));
                 && Revision(st) == b.goalRevision && st.row.Some?
                 && IntegersOnly(Obj(st.row.value.body.parameters))
                 && Utf8.ByteLen(CanonicalText(GoalJson(st.row.value.body))) <= MAX_BODY
    ensures CurrentBinding(h, db, run).Ok? ==>
              var b := db.runs[run].binding.binding;
              var body := Utf8.OfString(CanonicalText(GoalJson(StoreOf(db.goals, BoundKey(b)).row.value.body)));
              CurrentBinding(h, db, run).value == (b, h(body), body)
  {
    hide ValidGoal, ValidScope, ValidIdentifier, GapFree, GoalsOk, CanonicalText, IntegersOnly, GoalJson;
    if run in db.runs && db.runs[run].binding.Bound? {
      var b := db.runs[run].binding.binding;
      assert BindingOk(db, run);
      CurrentFacts(db.goals, b);
      if StoreOf(db.goals, BoundKey(b)).row.Some? {
        GoalIntegers(StoreOf(db.goals, BoundKey(b)).row.value.body);
      }
    }
  }

  lemma GoalIntegers(goal: Goal)
    ensures IntegersOnly(GoalJson(goal)) <==> IntegersOnly(Obj(goal.parameters))
  {
    hide ScopeJson, PlaybookJson;
    var fields := GoalJson(goal).fields;
    assert IntegersOnly(ScopeJson(goal.scope)) && IntegersOnly(PlaybookJson(goal.playbook)) by { PartsHaveIntegers(goal); }
    assert fields[2].value == Obj(goal.parameters);
  }

  lemma PartsHaveIntegers(goal: Goal)
    ensures IntegersOnly(ScopeJson(goal.scope)) && IntegersOnly(PlaybookJson(goal.playbook))
  {
  }

  // -------------------------------------------------------------- acceptance

  /** The request id has not been used for this decision. */
  predicate NewId(audits: Audits, key: AuditKey, requestId: string) {
    forall i :: 0 <= i < |RowsAt(audits, key)| ==> RowsAt(audits, key)[i].requestId != requestId
  }

  /** What an accepted append leaves behind: who, for which goal, what and when. */
  ghost predicate Entered(h: Digest, audits: Audits, key: AuditKey, req: AppendRequest, b: GoalRunBinding, goalDigest: string,
                          goalBody: seq<Byte>, now: int)
  {
    key in audits.rows && RowsAt(audits, key) != []
    && audits.rows[key] == AuditRow(req.run, b.goalId, b.goalRevision, goalDigest, goalBody, req.expected + 1)
    && var rows := RowsAt(audits, key);
       var e := EventAt(key, audits.rows[key], rows[|rows| - 1]);
       && e.scope == b.scope && e.runId == req.run && e.goalId == b.goalId && e.goalRevision == b.goalRevision
       && e.goalDigest == goalDigest && e.package == req.package && e.requestId == req.requestId
       && e.sequence == req.expected + 1 && e.createdAt == now
  }

  /**
   * A valid append with a new request id and a current binding is accepted exactly when it
   * opens a decision of a scope that has fewer than 10000, or continues a decision of the
   * same run and goal state at its current revision; then exactly its event is added. A
   * refusal changes nothing.
   */
  lemma AppendAccepted(h: Digest, db: Db, audits: Audits, req: AppendRequest, now: int)
    requires AuditsOk(h, audits) && 0 <= now <= I64_MAX && ValidRequest(req) && CurrentBinding(h, db, req.run).Ok?
    requires NewId(audits, AuditKey(CurrentBinding(h, db, req.run).value.0.scope, req.package.decisionId), req.requestId)
    ensures var (b, goalDigest, goalBody) := CurrentBinding(h, db, req.run).value;
            var key := AuditKey(b.scope, req.package.decisionId);
            var (audits', r) := Append(h, db, audits, req, now);
            && (r.Ok? <==>
                  if key in audits.rows then
                    && audits.rows[key].runId == req.run && audits.rows[key].goalId == b.goalId
                    && audits.rows[key].goalRevision == b.goalRevision && audits.rows[key].goalDigest == goalDigest
                    && audits.rows[key].currentRevision == req.expected && req.package.revision == req.expected + 1
                  else
                    && req.expected == 0 && req.package.revision == 1
                    && |set k | k in audits.rows && k.scope == b.scope| < 10000)
            && (r.Ok? ==>
                  && WroteOne(h, audits, audits', key, req)
                  && (key in audits.rows ==> Entered(h, audits', key, req, b, goalDigest, audits.rows[key].goalBody, now))
                  && (key !in audits.rows ==> Entered(h, audits', key, req, b, goalDigest, goalBody, now)))
            && (r.Err? ==> audits' == audits)
  {
    hide CurrentBinding, ValidRequest, WroteOne, AuditsOk, Entered, Append, RowsAt;
    var (b, goalDigest, goalBody) := CurrentBinding(h, db, req.run).value;
    var key := AuditKey(b.scope, req.package.decisionId);
    if key in audits.rows {
      KnownAccepted(h, db, audits, req, now);
    } else {
      FirstAccepted(h, db, audits, req, now);
    }
  }

  lemma LastEnters(h: Digest, audits: Audits, key: AuditKey, row: AuditRow, req: AppendRequest, b: GoalRunBinding, now: int)
    requires LastIs(audits, key, row.(currentRevision := req.expected + 1), req, now)
    requires row.runId == req.run && row.goalId == b.goalId && row.goalRevision == b.goalRevision && key.scope == b.scope
    ensures Entered(h, audits, key, req, b, row.goalDigest, row.goalBody, now)
  {
    hide EventAt, RowsAt;
  }

  lemma KnownAccepted(h: Digest, db: Db, audits: Audits, req: AppendRequest, now: int)
    requires AuditsOk(h, audits) && 0 <= now <= I64_MAX && ValidRequest(req) && CurrentBinding(h, db, req.run).Ok?
    requires var key := AuditKey(CurrentBinding(h, db, req.run).value.0.scope, req.package.decisionId);
             NewId(audits, key, req.requestId) && key in audits.rows
    ensures var (b, goalDigest, goalBody) := CurrentBinding(h, db, req.run).value;
            var key := AuditKey(b.scope, req.package.decisionId);
            var (audits', r) := Append(h, db, audits, req, now);
            var row := audits.rows[key];
            && (r.Ok? <==>
                  && row.runId == req.run && row.goalId == b.goalId && row.goalRevision == b.goalRevision && row.goalDigest == goalDigest
                  && row.currentRevision == req.expected && req.package.revision == req.expected + 1)
            && (r.Ok? ==> WroteOne(h, audits, audits', key, req) && Entered(h, audits', key, req, b, goalDigest, row.goalBody, now))
            && (r.Err? ==> audits' == audits)
  {
    hide RowsOk, VerifyBinding, CurrentBinding, WriteEvent, ValidRequest, WroteOne, AuditsOk, ProjectionOf, LastIs, Entered;
    var (b, goalDigest, goalBody) := CurrentBinding(h, db, req.run).value;
    var key := AuditKey(b.scope, req.package.decisionId);
    var row := audits.rows[key];
    ReadableParts(h, audits, key);
    if row.runId == req.run && req.expected == row.currentRevision && req.package.revision == row.currentRevision + 1 {
      WriteSucceeds(h, audits, key, row, req, now);
      if row.goalId == b.goalId && row.goalRevision == b.goalRevision && row.goalDigest == goalDigest {
        LastEnters(h, WriteEvent(h, audits, key, row, req, now).0, key, row, req, b, now);
      }
    }
  }

  lemma FirstAccepted(h: Digest, db: Db, audits: Audits, req: AppendRequest, now: int)
    requires AuditsOk(h, audits) && 0 <= now <= I64_MAX && ValidRequest(req) && CurrentBinding(h, db, req.run).Ok?
    requires AuditKey(CurrentBinding(h, db, req.run).value.0.scope, req.package.decisionId) !in audits.rows
    ensures var (b, goalDigest, goalBody) := CurrentBinding(h, db, req.run).value;
            var key := AuditKey(b.scope, req.package.decisionId);
            var (audits', r) := Append(h, db, audits, req, now);
            && (r.Ok? <==>
                  req.expected == 0 && req.package.revision == 1 && |set k | k in audits.rows && k.scope == b.scope| < 10000)
            && (r.Ok? ==> WroteOne(h, audits, audits', key, req) && Entered(h, audits', key, req, b, goalDigest, goalBody, now))
            && (r.Err? ==> audits' == audits)
  {
    hide RowsOk, VerifyBinding, CurrentBinding, WriteEvent, ValidRequest, WroteOne, AuditsOk, ProjectionOf, LastIs, Entered, DecisionsIn;
    var (b, goalDigest, goalBody) := CurrentBinding(h, db, req.run).value;
    var key := AuditKey(b.scope, req.package.decisionId);
    var row := AuditRow(req.run, b.goalId, b.goalRevision, goalDigest, goalBody, 0);
    CountIsSize(audits, b.scope);
    NoRowsYet(h, audits, key, row);
    if req.expected == 0 && req.package.revision == 1 {
      BindingVerifies(h, db, req, key);
      WriteSucceeds(h, audits, key, row, req, now);
      LastEnters(h, WriteEvent(h, audits, key, row, req, now).0, key, row, req, b, now);
    }
  }

  lemma CountIsSize(audits: Audits, scope: GoalScope)
    ensures |DecisionsIn(audits, scope)| == |set k | k in audits.rows && k.scope == scope|
  {
  }

  lemma ReadableParts(h: Digest, audits: Audits, key: AuditKey)
    requires AuditsOk(h, audits) && key in audits.rows
    ensures Readable(h, audits, key)
  {
    hide Readable;
  }

  lemma BindingVerifies(h: Digest, db: Db, req: AppendRequest, key: AuditKey)
    requires ValidRequest(req) && CurrentBinding(h, db, req.run).Ok?
    requires key == AuditKey(CurrentBinding(h, db, req.run).value.0.scope, req.package.decisionId)
    ensures var (b, goalDigest, goalBody) := CurrentBinding(h, db, req.run).value;
            VerifyBinding(h, key, AuditRow(req.run, b.goalId, b.goalRevision, goalDigest, goalBody, 0))
  {
    hide VerifyBinding, CurrentBinding, ValidRequest, GoalJson, ValidGoal, CanonicalBytes, ValidIdentifier, ValidScope, ValidPackage;
    CurrentBindingFacts(h, db, req.run);
    RequestFacts(req);
    var (b, goalDigest, goalBody) := CurrentBinding(h, db, req.run).value;
    NewBindingVerifies(h, key, AuditRow(req.run, b.goalId, b.goalRevision, goalDigest, goalBody, 0),
                       StoreOf(db.goals, BoundKey(b)).row.value.body);
  }

  /** Nothing but the body limit could refuse the write, and an event always fits. */
  lemma WriteSucceeds(h: Digest, audits: Audits, key: AuditKey, row: AuditRow, req: AppendRequest, now: int)
    requires ValidRequest(req) && 0 <= now <= I64_MAX && key.decisionId == req.package.decisionId
    requires VerifyBinding(h, key, row) && row.runId == req.run
    requires key in audits.rows ==> row == audits.rows[key]
    requires RowsOk(h, key, row, RowsAt(audits, key)) && |RowsAt(audits, key)| == row.currentRevision
    requires req.expected == row.currentRevision && req.package.revision == row.currentRevision + 1
    requires NewId(audits, key, req.requestId)
    ensures var (audits', r) := WriteEvent(h, audits, key, row, req, now);
            && r.Ok? && WroteOne(h, audits, audits', key, req)
            && LastIs(audits', key, row.(currentRevision := req.expected + 1), req, now)
  {
    hide RowsOk, VerifyBinding, VerifyEvent, CanonicalBytes, PackageJson, EventJson, ValidPackage, ValidRequest, RequestDigest,
         ProjectionOf, EventAt, WroteOne, LastIs, WriteEvent;
    WriteIsRead(h, audits, key, row, req, now);
    PrintableEvent(h, audits, key, row, req, now);
    EventFits(NewEvent(h, key, row, RowsAt(audits, key), req, now));
    if WriteEvent(h, audits, key, row, req, now).1 == Err(TooLarge) {
      OnlySizeIsTooLarge(h, audits, key, row, req, now);
    }
    WrittenLast(h, audits, key, row, req, now);
  }

  /** The decision's row, and the newest of its events. */
  ghost predicate LastIs(audits: Audits, key: AuditKey, row: AuditRow, req: AppendRequest, now: int) {
    key in audits.rows && RowsAt(audits, key) != [] && audits.rows[key] == row
    && var rows := RowsAt(audits, key);
       var e := EventAt(key, row, rows[|rows| - 1]);
       && e.scope == key.scope && e.runId == row.runId && e.goalId == row.goalId && e.goalRevision == row.goalRevision
       && e.goalDigest == row.goalDigest && e.package == req.package && e.requestId == req.requestId
       && e.sequence == req.expected + 1 && e.createdAt == now
  }

  lemma OnlySizeIsTooLarge(h: Digest, audits: Audits, key: AuditKey, row: AuditRow, req: AppendRequest, now: int)
    requires ValidRequest(req) && WriteEvent(h, audits, key, row, req, now).1 == Err(TooLarge)
    ensures CanonicalBytes(EventJson(NewEvent(h, key, row, RowsAt(audits, key), req, now))).Err?
  {
    hide ValidRequest, ProjectionOf, CanonicalBytes, EventJson, PackageJson, NewEvent;
    var rows := RowsAt(audits, key);
    var blank := NewEvent(h, key, row, rows, req, now);
    if CanonicalBytes(EventJson(blank)).Ok? {
      RequestFacts(req);
      PackageChecks(req.package);
      var event := blank.(eventDigest := h(CanonicalBytes(EventJson(blank)).value));
      NotTooLarge(h, Audits(
        audits.rows[key := row.(currentRevision := req.package.revision)],
        audits.events[key := rows + [RowOf(event, CanonicalBytes(PackageJson(req.package)).value)]]), key);
    }
  }

  lemma WrittenLast(h: Digest, audits: Audits, key: AuditKey, row: AuditRow, req: AppendRequest, now: int)
    requires ValidRequest(req) && WriteEvent(h, audits, key, row, req, now).1.Ok?
    requires WroteOne(h, audits, WriteEvent(h, audits, key, row, req, now).0, key, req)
    requires req.package.revision == req.expected + 1
    ensures LastIs(WriteEvent(h, audits, key, row, req, now).0, key, row.(currentRevision := req.expected + 1), req, now)
  {
    hide ValidRequest, ProjectionOf, CanonicalBytes, EventJson, PackageJson, Readable, PackageIn, EventList;
    RequestFacts(req);
    PackageChecks(req.package);
    var audits' := WriteEvent(h, audits, key, row, req, now).0;
    assert audits'.rows[key] == row.(currentRevision := req.expected + 1);
    var rows := RowsAt(audits', key);
    assert EventList(key, audits'.rows[key], rows)[|rows| - 1] == EventAt(key, audits'.rows[key], rows[|rows| - 1]);
  }

  lemma NotTooLarge(h: Digest, audits: Audits, key: AuditKey)
    ensures ProjectionOf(h, audits, key) != Err(TooLarge)
  {
  }

  lemma PrintableEvent(h: Digest, audits: Audits, key: AuditKey, row: AuditRow, req: AppendRequest, now: int)
    requires ValidRequest(req) && 0 <= now <= I64_MAX && key.decisionId == req.package.decisionId
    requires VerifyBinding(h, key, row)
    requires RowsOk(h, key, row, RowsAt(audits, key)) && |RowsAt(audits, key)| == row.currentRevision
    requires req.package.revision == row.currentRevision + 1
    ensures Printable(NewEvent(h, key, row, RowsAt(audits, key), req, now))
  {
    hide RowsOk, VerifyBinding, CanonicalBytes, PackageJson, RequestJson, ValidPackage, ValidScope, ValidIdentifier, LowerHex;
    RowsDetermineSequence(h, key, row, RowsAt(audits, key));
    BindingIdentity(h, key, row);
    RequestFacts(req);
    PackageChecks(req.package);
    assert LowerHex(RequestDigest(h, req));
  }

  // ------------------------------------------------------------- a known id

  /** The content of a request as its stored event repeats it. */
  predicate SameContent(req: AppendRequest, e: Event) {
    req.run == e.runId && req.expected == e.sequence - 1 && req.requestId == e.requestId && req.package == e.package
  }

  /** The two texts whose digests are compared when a request id is used again. */
  function RequestBytes(run: string, expected: int, requestId: string, package: Package): seq<Byte> {
    BytesOf(RequestJson(run, expected, requestId, package))
  }

  lemma RequestIdentified(req: AppendRequest, e: Event)
    requires CanonicalBytes(RequestJson(req.run, req.expected, req.requestId, req.package)).Ok?
    requires CanonicalBytes(RequestJson(req.run, req.expected, req.requestId, req.package))
             == CanonicalBytes(RequestJson(e.runId, e.sequence - 1, e.requestId, e.package))
    ensures SameContent(req, e)
  {
    hide CanonicalBytes, PackageJson;
    var v := RequestJson(req.run, req.expected, req.requestId, req.package);
    var w := RequestJson(e.runId, e.sequence - 1, e.requestId, e.package);
    CanonicalBytesIdentify(v, w);
    NormalizeItemsAt(v.items);
    NormalizeItemsAt(w.items);
    assert Normalize(v.items[0]) == Normalize(w.items[0]) && Normalize(v.items[1]) == Normalize(w.items[1]);
    assert Normalize(v.items[2]) == Normalize(w.items[2]) && Normalize(v.items[3]) == Normalize(w.items[3]);
    PackageIsPlain(req.package);
    PackageIsPlain(e.package);
    PackageReadsBack(req.package);
    PackageReadsBack(e.package);
  }

  /**
   * A used request id changes nothing. The same content is answered with the decision as
   * it is; other content is refused, unless it shares its digest with the stored one.
   */
  lemma UsedIdIsAnswered(h: Digest, db: Db, audits: Audits, req: AppendRequest, now: int)
    requires AuditsOk(h, audits) && ValidRequest(req) && CurrentBinding(h, db, req.run).Ok?
    requires var (b, goalDigest, _) := CurrentBinding(h, db, req.run).value;
             var key := AuditKey(b.scope, req.package.decisionId);
             && key in audits.rows && !NewId(audits, key, req.requestId)
             && audits.rows[key].runId == req.run && audits.rows[key].goalId == b.goalId
             && audits.rows[key].goalRevision == b.goalRevision && audits.rows[key].goalDigest == goalDigest
    ensures var key := AuditKey(CurrentBinding(h, db, req.run).value.0.scope, req.package.decisionId);
            var (audits', r) := Append(h, db, audits, req, now);
            && audits' == audits && Find(RowsAt(audits, key), req.requestId).Some?
            && var e := EventAt(key, audits.rows[key], Find(RowsAt(audits, key), req.requestId).value);
               && e.requestId == req.requestId
               && (SameContent(req, e) ==> r == ProjectionOf(h, audits, key) && r.Ok?)
               && (r.Ok? ==>
                     || SameContent(req, e)
                     || (RequestBytes(req.run, req.expected, req.requestId, req.package)
                           != RequestBytes(e.runId, e.sequence - 1, e.requestId, e.package)
                         && h(RequestBytes(req.run, req.expected, req.requestId, req.package))
                            == h(RequestBytes(e.runId, e.sequence - 1, e.requestId, e.package))))
  {
    hide RowsOk, VerifyBinding, CurrentBinding, ValidPackage, WriteEvent, AuditsOk, EventAt, CanonicalBytes, RequestJson, ValidIdentifier,
         SameContent;
    var key := AuditKey(CurrentBinding(h, db, req.run).value.0.scope, req.package.decisionId);
    var row, rows := audits.rows[key], RowsAt(audits, key);
    ReadableParts(h, audits, key);
    var prior := Find(rows, req.requestId).value;
    var i :| 0 <= i < |rows| && rows[i] == prior;
    StoredRequest(h, key, row, rows, i);
    var e := EventAt(key, row, prior);
    if RequestBytes(req.run, req.expected, req.requestId, req.package) == RequestBytes(e.runId, e.sequence - 1, e.requestId, e.package) {
      RequestIdentified(req, e);
    }
    if SameContent(req, e) {
      SameContentSameBytes(req, e);
    }
  }

  lemma SameContentSameBytes(req: AppendRequest, e: Event)
    requires SameContent(req, e)
    ensures RequestJson(req.run, req.expected, req.requestId, req.package) == RequestJson(e.runId, e.sequence - 1, e.requestId, e.package)
  {
  }

  /** A readable row repeats the request it came from. */
  lemma StoredRequest(h: Digest, key: AuditKey, row: AuditRow, rows: seq<DecisionRow>, i: nat)
    requires RowsOk(h, key, row, rows) && i < |rows|
    ensures var e := EventAt(key, row, rows[i]);
            && e.requestId == rows[i].requestId
            && CanonicalBytes(RequestJson(e.runId, e.sequence - 1, e.requestId, e.package)).Ok?
            && rows[i].requestDigest == h(RequestBytes(e.runId, e.sequence - 1, e.requestId, e.package))
  {
    hide CanonicalBytes, RequestJson, EventJson, PackageJson, PackageIn, ValidPackage, ValidScope, ValidIdentifier;
    assert RowOkAt(h, key, row, rows, i);
  }
}
