// Which goal requests are accepted, what exactly an accepted one writes, and
// which request every row of a goal's history goes back to.
module GoalLedger {
  import opened Basics
  import opened Json
  import opened GoalTypes
  import opened GoalJournal
  import opened GoalInvariants
  import opened GoalTheorems

  // -------------------------------------------------------------- acceptance

  /** A request whose replay key has not been used before. */
  predicate New(db: Goals, op: GoalOp) {
    ReplayKeyFor(op) !in db.replays
  }

  /** The goal an accepted request leaves as current. */
  ghost predicate Current(db: Goals, key: GoalKey, goal: Goal) {
    StoreOf(db, key).row == Some(GoalRow(goal.revision, goal))
  }

  ghost predicate OthersUntouched(db: Goals, db': Goals, key: GoalKey) {
    forall other :: other != key ==> StoreOf(db', other) == StoreOf(db, other)
  }

  /** A new create request is accepted exactly when it is well formed and the goal does not exist. */
  lemma CreateAccepted(ops: seq<Timed>, m: GoalMutation, goal: Goal, now: nat)
    requires New(Run(NO_GOALS, ops), Create(m, goal))
    ensures var db := Run(NO_GOALS, ops);
            var key := GoalKey(goal.scope, goal.id);
            var (db', r) := Apply(db, Create(m, goal), now);
            && (r.Ok? <==> ValidMutation(m) && ValidGoal(goal) && goal.revision == 1 && Revision(StoreOf(db, key)) == 0)
            && (r.Ok? ==> r.value == goal && Current(db', key, goal) && OthersUntouched(db, db', key))
            && (r.Err? ==> db' == db)
  {
    hide ValidGoal, ValidMutation, MilestonesOk, Fresh, ReplayOk, Run;
    Reachable(ops, GoalKey(goal.scope, goal.id));
  }

  lemma Reachable(ops: seq<Timed>, key: GoalKey)
    ensures var db := Run(NO_GOALS, ops);
            && GoalsOk(db) && StoreOk(key, StoreOf(db, key))
            && (StoreOf(db, key).row.Some? ==>
                  var goal := StoreOf(db, key).row.value.body;
                  && goal.revision == Revision(StoreOf(db, key)) >= 1 && ValidGoal(goal)
                  && goal.scope == key.scope && goal.id == key.id)
            && (forall r :: r in StoreOf(db, key).revisions <==> 1 <= r <= Revision(StoreOf(db, key)))
  {
    hide ValidGoal, MilestonesOk, Fresh, ReplayOk, Run, OneEvent;
    EmptyGoalsOk();
    RunKeepsGoals(NO_GOALS, ops);
    var st := StoreOf(Run(NO_GOALS, ops), key);
    assert StoreOk(key, st);
    if st.row.Some? {
      LinearFacts(key, st);
    }
  }

  /**
   * A new revise request is accepted exactly when it is well formed and expects the goal's
   * current revision, which is not the last one possible; the patched goal is always valid.
   */
  lemma ReviseAccepted(ops: seq<Timed>, m: GoalMutation, scope: GoalScope, id: string, expected: int, patch: GoalPatch, now: nat)
    requires New(Run(NO_GOALS, ops), Revise(m, scope, id, expected, patch))
    ensures var db := Run(NO_GOALS, ops);
            var key := GoalKey(scope, id);
            var (db', r) := Apply(db, Revise(m, scope, id, expected, patch), now);
            && (r.Ok? <==>
                  && ValidMutation(m) && ValidScope(scope) && ValidIdentifier(id) && ValidPatch(patch)
                  && 1 <= expected < MAX_REVISION && Revision(StoreOf(db, key)) == expected)
            && (r.Ok? ==>
                  && r.value.revision == expected + 1 && Current(db', key, r.value) && OthersUntouched(db, db', key))
            && (r.Err? ==> db' == db)
  {
    hide ValidIdentifier, ValidScope, ValidMutation, ValidObjective, ValidPlaybook, ValidParameters, Fresh, ReplayOk, Run, Touched,
         StaleBodies, StaleRows, WellShaped, AllMatch, Linear;
    Reachable(ops, GoalKey(scope, id));
  }

  /**
   * A new recording is accepted exactly when it is well formed, expects the goal's current
   * revision, depends only on parameters the goal has, and is for a known milestone or one
   * of at most 128.
   */
  lemma RecordAccepted(ops: seq<Timed>, m: GoalMutation, scope: GoalScope, id: string, expected: int, milestone: Milestone, now: nat)
    requires New(Run(NO_GOALS, ops), Record(m, scope, id, expected, milestone))
    ensures var db := Run(NO_GOALS, ops);
            var key := GoalKey(scope, id);
            var st := StoreOf(db, key);
            var (db', r) := Apply(db, Record(m, scope, id, expected, milestone), now);
            && (r.Ok? <==>
                  && ValidMutation(m) && ValidScope(scope) && ValidIdentifier(id) && ValidMilestone(milestone)
                  && 1 <= expected < MAX_REVISION && Revision(st) == expected
                  && milestone.dependencies <= Keys(st.row.value.body.parameters)
                  && (milestone.id in st.milestones || |st.milestones| < MAX_MILESTONES))
            && (r.Ok? ==>
                  && r.value == st.row.value.body.(revision := expected + 1)
                  && Current(db', key, r.value) && OthersUntouched(db, db', key))
            && (r.Err? ==> db' == db)
  {
    hide ValidIdentifier, ValidScope, ValidMutation, ValidGoal, ValidMilestone, Fresh, ReplayOk, Run, WellShaped, AllMatch, Linear;
    Reachable(ops, GoalKey(scope, id));
  }

  // ------------------------------------------------------------- what is written

  function EventName(op: GoalOp): string {
    match op
    case Create(_, _) => "created"
    case Revise(_, _, _, _, _) => "revised"
    case Record(_, _, _, _, _) => "milestone_recorded"
  }

  /** The milestones this request writes a history row for. */
  ghost predicate Rewrites(op: GoalOp, st: GoalStore, goal: Goal, id: string) {
    match op
    case Create(_, _) => false
    case Revise(_, _, _, _, _) =>
      st.row.Some? && id in st.milestones && InputsDiffer(st.row.value.body, goal, st.milestones[id].dependencies)
    case Record(_, _, _, _, milestone) => id == milestone.id
  }

  /** One revision, one event, and one history row for each rewritten milestone, all naming their request. */
  ghost predicate Wrote(st: GoalStore, st': GoalStore, op: GoalOp, now: int, goal: Goal) {
    var m := MutationOf(op);
    && goal.revision == Revision(st) + 1
    && st'.row == Some(GoalRow(goal.revision, goal))
    && st'.revisions == st.revisions[goal.revision := RevisionRow(goal, m.actor, m.requestId, m.operation, now)]
    && st'.events == st.events + [EventRow(goal.revision, EventName(op), now)]
    && (forall id, r :: (id, r) in st.history ==> (id, r) in st'.history && st'.history[(id, r)] == st.history[(id, r)])
    && (forall id, r :: (id, r) in st'.history && (id, r) !in st.history ==> r == goal.revision && Rewrites(op, st, goal, id))
    && (forall id :: Rewrites(op, st, goal, id) ==>
          && (id, goal.revision) in st'.history && id in st'.milestones
          && st'.history[(id, goal.revision)]
             == MilestoneRevisionRow(st'.milestones[id], m.actor, m.requestId, m.operation,
                                     if op.Record? then "recorded" else "invalidated", now))
  }

  /** Every transaction that changes anything writes exactly this. */
  lemma ApplyWrites(db: Goals, op: GoalOp, now: int)
    requires GoalsOk(db) && now >= 0 && Apply(db, op, now).0 != db
    ensures var (db', r) := Apply(db, op, now);
            r.Ok? && Wrote(StoreOf(db, KeyOf(op)), StoreOf(db', KeyOf(op)), op, now, r.value)
                  && OthersUntouched(db, db', KeyOf(op))
                  && db'.replays == db.replays[ReplayKeyFor(op) := ReplayRow(RequestOf(op), r.value)]
  {
    hide ValidGoal, ValidMilestone, ValidPatch, ValidMutation, ValidScope, ValidIdentifier, MilestonesOk, Fresh, ReplayOk, Linear,
         Wrote, Touched, WithInvalidated, WithGoalRevision, WithMilestone, Recorded, Patched;
    var key := KeyOf(op);
    var st := StoreOf(db, key);
    assert StoreOk(key, st);
    if st.row.Some? {
      LinearFacts(key, st);
    }
    match op
    case Create(m, goal) => CreateWrites(st, m, goal, now);
    case Revise(m, scope, id, expected, patch) =>
      RevisionOfPatched(st.row.value.body, patch);
      ReviseWrites(st, m, scope, id, expected, patch, Patched(st.row.value.body, patch), now);
    case Record(m, scope, id, expected, milestone) =>
      var next := st.row.value.body.(revision := st.row.value.body.revision + 1);
      RecordWrites(st, m, scope, id, expected, milestone, next, now);
  }

  lemma RevisionOfPatched(prior: Goal, patch: GoalPatch)
    ensures Patched(prior, patch).revision == prior.revision + 1
  {
  }

  lemma CreateWrites(st: GoalStore, m: GoalMutation, goal: Goal, now: int)
    requires goal.revision == Revision(st) + 1
    ensures Wrote(st, WithGoalRevision(st, goal, m, "created", now), Create(m, goal), now, goal)
  {
  }

  lemma ReviseWrites(st: GoalStore, m: GoalMutation, scope: GoalScope, id: string, expected: int, patch: GoalPatch, next: Goal, now: int)
    requires st.row.Some? && next.revision == Revision(st) + 1
    requires !exists k :: k in Touched(st, st.row.value.body, next) && (k, next.revision) in st.history
    ensures var st' := WithGoalRevision(WithInvalidated(st, Touched(st, st.row.value.body, next), next.revision, m, now), next, m, "revised", now);
            Wrote(st, st', Revise(m, scope, id, expected, patch), now, next)
  {
    hide Affected, InputsDiffer, Touched, WithInvalidated;
    var prior, touched := st.row.value.body, Touched(st, st.row.value.body, next);
    TouchedByInputs(st, prior, next);
    InvalidationWrites(st, touched, next.revision, m, now);
  }

  lemma TouchedByInputs(st: GoalStore, prior: Goal, next: Goal)
    ensures Touched(st, prior, next) <= st.milestones.Keys
    ensures forall k :: k in Touched(st, prior, next) <==> k in st.milestones && InputsDiffer(prior, next, st.milestones[k].dependencies)
  {
    hide Affected, InputsDiffer;
    forall k | k in st.milestones
      ensures Affected(st.milestones[k], prior, next) <==> InputsDiffer(prior, next, st.milestones[k].dependencies)
    {
      AffectedByInputs(st.milestones[k], prior, next);
    }
  }

  /** Marking milestones adds one signed history row for each of them, and touches no other table. */
  lemma InvalidationWrites(st: GoalStore, touched: set<string>, revision: int, m: GoalMutation, now: int)
    requires touched <= st.milestones.Keys && !exists k :: k in touched && (k, revision) in st.history
    ensures var st' := WithInvalidated(st, touched, revision, m, now);
            && st'.row == st.row && st'.revisions == st.revisions && st'.events == st.events
            && (forall id, r :: (id, r) in st.history ==> (id, r) in st'.history && st'.history[(id, r)] == st.history[(id, r)])
            && (forall id, r :: (id, r) in st'.history && (id, r) !in st.history ==> r == revision && id in touched)
            && (forall id :: id in touched ==>
                  && (id, revision) in st'.history && id in st'.milestones
                  && st'.history[(id, revision)]
                     == MilestoneRevisionRow(st'.milestones[id], m.actor, m.requestId, m.operation, "invalidated", now))
  {
  }

  lemma RecordWrites(st: GoalStore, m: GoalMutation, scope: GoalScope, id: string, expected: int, milestone: Milestone, next: Goal, now: int)
    requires st.row.Some? && next.revision == Revision(st) + 1
    requires (milestone.id, next.revision) !in st.history
    ensures var mid := WithMilestone(st, milestone.id, next.revision, Recorded(st, milestone), m, "recorded", now);
            Wrote(st, WithGoalRevision(mid, next, m, "milestone_recorded", now), Record(m, scope, id, expected, milestone), now, next)
  {
  }

  /** Requests share a replay key exactly when scope, goal, actor, operation and request id are the same. */
  predicate SameRequestId(a: GoalOp, b: GoalOp) {
    KeyOf(a) == KeyOf(b) && MutationOf(a).actor == MutationOf(b).actor
    && MutationOf(a).operation == MutationOf(b).operation && MutationOf(a).requestId == MutationOf(b).requestId
  }

  /** A request uses up its own replay key and no other. */
  lemma OtherRequestsStayNew(db: Goals, op: GoalOp, now: int, other: GoalOp)
    requires GoalsOk(db) && now >= 0 && New(db, other)
    ensures New(Apply(db, op, now).0, other) <==> Apply(db, op, now).0 == db || !SameRequestId(op, other)
  {
    hide Apply, GoalsOk, Wrote, MutationOf;
    if Apply(db, op, now).0 != db {
      ApplyWrites(db, op, now);
    }
  }

  // ------------------------------------------------------------------- ledger

  /** The j-th request of a history took the goal from revision r - 1 to r. */
  ghost predicate TookTo(ops: seq<Timed>, j: nat, key: GoalKey, r: int)
    requires j < |ops|
  {
    KeyOf(ops[j].op) == key
    && Revision(StoreOf(Run(NO_GOALS, ops[..j]), key)) == r - 1
    && Revision(StoreOf(Run(NO_GOALS, ops[..j + 1]), key)) == r
  }

  /** Revision r and its only event carry the name, author and time of this request. */
  ghost predicate Signed(st: GoalStore, r: int, t: Timed) {
    var m := MutationOf(t.op);
    && r in st.revisions
    && st.revisions[r].actor == m.actor && st.revisions[r].requestId == m.requestId && st.revisions[r].operation == m.operation
    && st.revisions[r].createdAt == t.now
    && EventsAt(st.events, r) == [EventRow(r, EventName(t.op), t.now)]
  }

  lemma {:induction false} RunSnoc(db: Goals, ops: seq<Timed>, t: Timed)
    ensures Run(db, ops + [t]) == Apply(Run(db, ops), t.op, t.now).0
    decreases |ops|
  {
    hide Apply;
    if ops == [] {
      assert ([] + [t])[1..] == [];
    } else {
      assert (ops + [t])[1..] == ops[1..] + [t];
      RunSnoc(Apply(db, ops[0].op, ops[0].now).0, ops[1..], t);
    }
  }

  /** Every revision of every reachable journal goes back to the one request that took the goal to it, and says so. */
  lemma {:induction false} RevisionsNameTheirRequest(ops: seq<Timed>, key: GoalKey, r: int) returns (j: nat)
    requires 1 <= r <= Revision(StoreOf(Run(NO_GOALS, ops), key))
    ensures j < |ops| && TookTo(ops, j, key, r) && Signed(StoreOf(Run(NO_GOALS, ops), key), r, ops[j])
    decreases |ops|
  {
    hide Apply, GoalsOk, StoreOk, Wrote, Signed, Run;
    assert ops != [] by { NothingYet(key); }
    var last := |ops| - 1;
    var front, t := ops[..last], ops[last];
    var db := Run(NO_GOALS, front);
    assert ops == front + [t];
    RunSnoc(NO_GOALS, front, t);
    Reachable(front, key);
    ApplyNeverFalls(db, t.op, t.now, key);
    assert ops[..last + 1] == ops;
    if Apply(db, t.op, t.now).0 != db {
      ApplyWrites(db, t.op, t.now);
    }
    if r <= Revision(StoreOf(db, key)) {
      j := RevisionsNameTheirRequest(front, key, r);
      assert ops[..j] == front[..j] && ops[..j + 1] == front[..j + 1];
      if Apply(db, t.op, t.now).0 != db && key == KeyOf(t.op) {
        StaysSigned(StoreOf(db, key), StoreOf(Run(NO_GOALS, ops), key), t.op, t.now, Apply(db, t.op, t.now).1.value, r, front[j]);
      }
    } else {
      j := last;
      NewlySigned(key, StoreOf(db, key), StoreOf(Run(NO_GOALS, ops), key), t, Apply(db, t.op, t.now).1.value);
    }
  }

  lemma NothingYet(key: GoalKey)
    ensures Revision(StoreOf(Run(NO_GOALS, []), key)) == 0
  {
  }

  lemma StaysSigned(st: GoalStore, st': GoalStore, op: GoalOp, now: int, goal: Goal, r: int, t: Timed)
    requires Wrote(st, st', op, now, goal) && r <= Revision(st) && Signed(st, r, t)
    ensures Signed(st', r, t)
  {
    EventsAtAppend(st.events, EventRow(goal.revision, EventName(op), now), r);
  }

  lemma NewlySigned(key: GoalKey, st: GoalStore, st': GoalStore, t: Timed, goal: Goal)
    requires StoreOk(key, st) && Wrote(st, st', t.op, t.now, goal)
    ensures Signed(st', Revision(st) + 1, t)
  {
    hide MilestonesOk, Fresh, OneEvent, RevisionOk, EventsAt;
    EventsAtAppend(st.events, EventRow(goal.revision, EventName(t.op), t.now), goal.revision);
    NoEvents(goal.revision);
  }
}
