// Theorems about every run of goal transactions.
module GoalTheorems {
  import opened Basics
  import opened Json
  import opened CanonicalJson
  import opened GoalTypes
  import opened GoalJournal
  import opened GoalInvariants

  /** A stored answer is the body of the revision it announced. */
  ghost predicate ReplayOk(db: Goals, rk: ReplayKey)
    requires rk in db.replays
  {
    var st := StoreOf(db, GoalKey(rk.scope, rk.target));
    var response := db.replays[rk].response;
    response.revision in st.revisions && st.revisions[response.revision].body == response
  }

  ghost predicate GoalsOk(db: Goals) {
    (forall key :: StoreOk(key, StoreOf(db, key)))
    && (forall rk :: rk in db.replays ==> ReplayOk(db, rk))
  }

  ghost predicate Extends(a: Revisions, b: Revisions) {
    forall r :: r in a ==> r in b && b[r] == a[r]
  }

  lemma CommitKeepsGoals(db: Goals, key: GoalKey, st: GoalStore, rk: ReplayKey, request: Request, response: Goal)
    requires GoalsOk(db) && StoreOk(key, st)
    requires rk.scope == key.scope && rk.target == key.id
    requires Extends(StoreOf(db, key).revisions, st.revisions)
    requires response.revision in st.revisions && st.revisions[response.revision].body == response
    ensures GoalsOk(Commit(db, key, st, rk, request, response))
  {
    hide StoreOk;
    var db' := Commit(db, key, st, rk, request, response);
    forall k
      ensures StoreOk(k, StoreOf(db', k))
    {
      if k != key {
        assert StoreOf(db', k) == StoreOf(db, k);
      }
    }
    forall k | k in db'.replays
      ensures ReplayOk(db', k)
    {
      if k != rk {
        assert ReplayOk(db, k);
      }
    }
  }

  lemma LinearFacts(key: GoalKey, st: GoalStore)
    requires Linear(key, st) && st.row.Some?
    ensures Revision(st) == st.row.value.body.revision >= 1
    ensures Revision(st) in st.revisions && st.revisions[Revision(st)].body == st.row.value.body
    ensures forall r :: r in st.revisions <==> 1 <= r <= Revision(st)
    ensures st.row.value.body.scope == key.scope && st.row.value.body.id == key.id
    ensures ValidGoal(st.row.value.body)
  {
    assert RevisionOk(key, st.revisions[Revision(st)], Revision(st));
  }

  lemma CreatedStoreOk(key: GoalKey, st: GoalStore, goal: Goal, m: GoalMutation, now: int)
    requires StoreOk(key, st) && st.row.None? && now >= 0
    requires ValidGoal(goal) && goal.revision == 1 && key == GoalKey(goal.scope, goal.id)
    ensures StoreOk(key, WithGoalRevision(st, goal, m, "created", now))
    ensures goal.revision !in st.revisions && st.revisions == map[]
  {
    CommitKeepsLinear(key, st, goal, m, "created", now);
    hide ValidGoal, OneEvent, RevisionOk;
  }

  lemma CreateKeepsGoals(db: Goals, m: GoalMutation, goal: Goal, now: int)
    requires GoalsOk(db) && now >= 0
    ensures GoalsOk(CreateGoal(db, m, goal, now).0)
    ensures CreateGoal(db, m, goal, now).1 != Err(ConstraintViolation)
  {
    hide ValidGoal, Linear, MilestonesOk, Fresh, ReplayOk;
    var key := GoalKey(goal.scope, goal.id);
    var rk := ReplayKeyOf(goal.scope, m, goal.id);
    var st := StoreOf(db, key);
    assert StoreOk(key, st);
    if ValidGoal(goal) && goal.revision == 1 && st.row.None? {
      CreatedStoreOk(key, st, goal, m, now);
      hide StoreOk;
      var st' := WithGoalRevision(st, goal, m, "created", now);
      CommitKeepsGoals(db, key, st', rk, CreateRequest(goal), goal);
    }
  }

  lemma LinearIgnoresMilestones(key: GoalKey, st: GoalStore, mid: GoalStore)
    requires Linear(key, st)
    requires mid.row == st.row && mid.revisions == st.revisions && mid.events == st.events
    ensures Linear(key, mid)
  {
    hide ValidGoal;
    forall r | r in mid.revisions
      ensures OneEvent(mid, r)
    {
      assert OneEvent(st, r);
    }
  }

  lemma InvalidatedStoreOk(key: GoalKey, st: GoalStore, next: Goal, m: GoalMutation, now: int)
    requires StoreOk(key, st) && st.row.Some? && next.revision == Revision(st) + 1 && now >= 0
    requires ValidGoal(next) && next.scope == key.scope && next.id == key.id
    ensures var touched := Touched(st, st.row.value.body, next);
            StoreOk(key, WithGoalRevision(WithInvalidated(st, touched, next.revision, m, now), next, m, "revised", now))
    ensures next.revision !in st.revisions && forall id, r :: (id, r) in st.history ==> r < next.revision
  {
    hide ValidGoal, Affected, Linear, MilestonesOk, Fresh, Stale;
    LinearFacts(key, st);
    var current := Revision(st);
    var touched := Touched(st, st.row.value.body, next);
    var mid := WithInvalidated(st, touched, next.revision, m, now);
    LinearIgnoresMilestones(key, st, mid);
    CommitKeepsLinear(key, mid, next, m, "revised", now);
    InvalidationKeepsMilestones(st.milestones, st.history, current, touched, m, now);
    InvalidationKeepsFresh(st.milestones, st.history, st.revisions, current,
                           RevisionRow(next, m.actor, m.requestId, m.operation, now), touched, m, now);
  }

  lemma ReviseKeepsGoals(db: Goals, m: GoalMutation, scope: GoalScope, id: string, expected: int, patch: GoalPatch, now: int)
    requires GoalsOk(db) && now >= 0
    ensures GoalsOk(ReviseGoal(db, m, scope, id, expected, patch, now).0)
    ensures ReviseGoal(db, m, scope, id, expected, patch, now).1 != Err(ConstraintViolation)
  {
    hide ValidGoal, ValidPatch, Affected, Linear, MilestonesOk, Fresh, ReplayOk;
    var key := GoalKey(scope, id);
    var st := StoreOf(db, key);
    assert StoreOk(key, st);
    if st.row.Some? {
      LinearFacts(key, st);
      hide StoreOk;
      var next := Patched(st.row.value.body, patch);
      if ValidGoal(next) {
        InvalidatedStoreOk(key, st, next, m, now);
        var touched := Touched(st, st.row.value.body, next);
        var st' := WithGoalRevision(WithInvalidated(st, touched, next.revision, m, now), next, m, "revised", now);
        CommitKeepsGoals(db, key, st', ReplayKeyOf(scope, m, id), ReviseRequest(expected, patch), next);
      }
    }
  }

  lemma RecordedIsValid(st: GoalStore, milestone: Milestone)
    requires ValidMilestone(milestone)
    ensures ValidMilestone(Recorded(st, milestone))
    ensures Recorded(st, milestone).id == milestone.id && Recorded(st, milestone).dependencies == milestone.dependencies
  {
  }

  lemma NextRevisionIsValid(goal: Goal, revision: int)
    requires ValidGoal(goal) && ValidRevision(revision)
    ensures ValidGoal(goal.(revision := revision))
  {
    hide ValidParameters, ValidScope, ValidIdentifier, ValidObjective, ValidPlaybook;
  }

  lemma RecordedStoreOk(key: GoalKey, st: GoalStore, milestone: Milestone, next: Goal, m: GoalMutation, now: int)
    requires StoreOk(key, st) && st.row.Some? && now >= 0
    requires next == st.row.value.body.(revision := Revision(st) + 1) && next.revision <= MAX_REVISION
    requires ValidMilestone(milestone) && milestone.dependencies <= Keys(next.parameters)
    requires milestone.id in st.milestones || |st.milestones| < MAX_MILESTONES
    ensures StoreOk(key, WithGoalRevision(
              WithMilestone(st, milestone.id, next.revision, Recorded(st, milestone), m, "recorded", now),
              next, m, "milestone_recorded", now))
    ensures next.revision !in st.revisions && (milestone.id, next.revision) !in st.history
  {
    hide ValidGoal, ValidMilestone, Linear, MilestonesOk, Fresh, Recorded;
    LinearFacts(key, st);
    RecordedIsValid(st, milestone);
    var current := Revision(st);
    var body := Recorded(st, milestone);
    var row := MilestoneRow(body, m, "recorded", now);
    var mid := WithMilestone(st, milestone.id, next.revision, body, m, "recorded", now);
    LinearIgnoresMilestones(key, st, mid);
    NextRevisionIsValid(st.row.value.body, next.revision);
    CommitKeepsLinear(key, mid, next, m, "milestone_recorded", now);
    RecordKeepsMilestones(st.milestones, st.history, current, body, row);
    RecordKeepsFresh(st.milestones, st.history, st.revisions, current, body, row,
                     RevisionRow(next, m.actor, m.requestId, m.operation, now));
  }

  lemma RecordKeepsGoals(db: Goals, m: GoalMutation, scope: GoalScope, id: string, expected: int, milestone: Milestone, now: int)
    requires GoalsOk(db) && now >= 0
    ensures GoalsOk(RecordMilestone(db, m, scope, id, expected, milestone, now).0)
    ensures RecordMilestone(db, m, scope, id, expected, milestone, now).1 != Err(ConstraintViolation)
  {
    hide ValidGoal, ValidMilestone, Linear, MilestonesOk, Fresh, ReplayOk;
    var key := GoalKey(scope, id);
    var st := StoreOf(db, key);
    assert StoreOk(key, st);
    var (db', result) := RecordMilestone(db, m, scope, id, expected, milestone, now);
    if st.row.Some? && (db' != db || result == Err(ConstraintViolation)) {
      LinearFacts(key, st);
      var next := st.row.value.body.(revision := Revision(st) + 1);
      RecordedStoreOk(key, st, milestone, next, m, now);
      var st' := WithGoalRevision(
        WithMilestone(st, milestone.id, next.revision, Recorded(st, milestone), m, "recorded", now),
        next, m, "milestone_recorded", now);
      CommitKeepsGoals(db, key, st', ReplayKeyOf(scope, m, id), RecordRequest(expected, milestone), next);
    }
  }

  lemma ApplyKeepsGoals(db: Goals, op: GoalOp, now: int)
    requires GoalsOk(db) && now >= 0
    ensures GoalsOk(Apply(db, op, now).0)
    ensures Apply(db, op, now).1 != Err(ConstraintViolation)
  {
    match op
    case Create(m, goal) => CreateKeepsGoals(db, m, goal, now);
    case Revise(m, scope, id, expected, patch) => ReviseKeepsGoals(db, m, scope, id, expected, patch, now);
    case Record(m, scope, id, expected, milestone) => RecordKeepsGoals(db, m, scope, id, expected, milestone, now);
  }

  lemma {:induction false} RunKeepsGoals(db: Goals, ops: seq<Timed>)
    requires GoalsOk(db)
    ensures GoalsOk(Run(db, ops))
    decreases |ops|
  {
    if ops != [] {
      ApplyKeepsGoals(db, ops[0].op, ops[0].now);
      RunKeepsGoals(Apply(db, ops[0].op, ops[0].now).0, ops[1..]);
    }
  }

  lemma EmptyGoalsOk()
    ensures GoalsOk(NO_GOALS)
  {
    assert forall key :: StoreOf(NO_GOALS, key) == EMPTY_STORE;
  }

  // ------------------------------------------------------------ main theorems

  /** Every reachable goal has revisions 1..n with one event each, and its row is the last. */
  lemma HistoriesAreLinear(ops: seq<Timed>, key: GoalKey)
    ensures var st := StoreOf(Run(NO_GOALS, ops), key); Linear(key, st)
    ensures var st := StoreOf(Run(NO_GOALS, ops), key); MilestonesOk(st.milestones, st.history, Revision(st))
  {
    EmptyGoalsOk();
    RunKeepsGoals(NO_GOALS, ops);
    assert StoreOk(key, StoreOf(Run(NO_GOALS, ops), key));
  }

  /**
   * Freshness is sound: a milestone that is not marked for refresh, whose latest
   * history row is at revision r, saw the same objective, playbook and dependency
   * values at every revision from r to the current one.
   */
  lemma FreshnessIsSound(ops: seq<Timed>, key: GoalKey, id: string, r: int, s: int)
    requires var st := StoreOf(Run(NO_GOALS, ops), key);
             id in st.milestones && !st.milestones[id].requiresRefresh
             && Latest(st.history, id, r) && r <= s <= Revision(st)
    ensures var st := StoreOf(Run(NO_GOALS, ops), key);
            r in st.revisions && s in st.revisions
            && SameInputs(st.revisions[r].body, st.revisions[s].body, st.milestones[id].dependencies)
            && st.milestones[id].dependencies <= Keys(st.revisions[r].body.parameters)
  {
    EmptyGoalsOk();
    RunKeepsGoals(NO_GOALS, ops);
    var st := StoreOf(Run(NO_GOALS, ops), key);
    assert StoreOk(key, st);
    assert UnchangedSince(st.revisions, st.milestones[id].dependencies, r);
    assert st.row.Some?;
  }

  /** No transaction removes a milestone or clears its refresh mark. */
  lemma RefreshIsSticky(db: Goals, op: GoalOp, now: int, key: GoalKey, id: string)
    requires id in StoreOf(db, key).milestones
    ensures id in StoreOf(Apply(db, op, now).0, key).milestones
    ensures StoreOf(db, key).milestones[id].requiresRefresh ==>
              StoreOf(Apply(db, op, now).0, key).milestones[id].requiresRefresh
  {
    hide ValidGoal, ValidMilestone, ValidPatch, ValidMutation, ValidScope, ValidIdentifier, Touched, StaleRows;
  }

  lemma {:induction false} RefreshStaysForever(db: Goals, ops: seq<Timed>, key: GoalKey, id: string)
    requires id in StoreOf(db, key).milestones && StoreOf(db, key).milestones[id].requiresRefresh
    ensures id in StoreOf(Run(db, ops), key).milestones
    ensures StoreOf(Run(db, ops), key).milestones[id].requiresRefresh
    decreases |ops|
  {
    if ops != [] {
      RefreshIsSticky(db, ops[0].op, ops[0].now, key, id);
      RefreshStaysForever(Apply(db, ops[0].op, ops[0].now).0, ops[1..], key, id);
    }
  }

  // ------------------------------------------------------------------ replays

  function MutationOf(op: GoalOp): GoalMutation {
    match op
    case Create(m, _) => m
    case Revise(m, _, _, _, _) => m
    case Record(m, _, _, _, _) => m
  }

  function RequestOf(op: GoalOp): Request {
    match op
    case Create(_, goal) => CreateRequest(goal)
    case Revise(_, _, _, expected, patch) => ReviseRequest(expected, patch)
    case Record(_, _, _, expected, milestone) => RecordRequest(expected, milestone)
  }

  function ReplayKeyFor(op: GoalOp): ReplayKey {
    var key := KeyOf(op);
    ReplayKeyOf(key.scope, MutationOf(op), key.id)
  }

  lemma {:induction false} ReplaysPersist(db: Goals, ops: seq<Timed>, rk: ReplayKey)
    requires rk in db.replays
    ensures rk in Run(db, ops).replays && Run(db, ops).replays[rk] == db.replays[rk]
    decreases |ops|
  {
    hide ValidGoal, ValidMilestone, ValidPatch, ValidMutation, ValidScope, ValidIdentifier, Touched, StaleBodies,
         StaleRows;
    if ops != [] {
      ReplaysPersist(Apply(db, ops[0].op, ops[0].now).0, ops[1..], rk);
    }
  }

  /** Repeating a committed request after any later history returns its answer and changes nothing. */
  lemma RepeatReturnsOriginal(db: Goals, op: GoalOp, now: int, later: seq<Timed>, again: int)
    requires Apply(db, op, now).1.Ok?
    ensures var db' := Run(Apply(db, op, now).0, later);
            Apply(db', op, again) == (db', Apply(db, op, now).1)
  {
    hide ValidGoal, ValidMilestone, ValidPatch, ValidMutation, ValidScope, ValidIdentifier, Touched, StaleBodies,
         StaleRows;
    var db1 := Apply(db, op, now).0;
    var rk := ReplayKeyFor(op);
    assert rk in db1.replays;
    ReplaysPersist(db1, later, rk);
  }

  /** The same key with different content is refused and changes nothing. */
  lemma ChangedContentConflicts(db: Goals, op: GoalOp, now: int, later: seq<Timed>, other: GoalOp, again: int)
    requires Apply(db, op, now).1.Ok?
    requires ReplayKeyFor(other) == ReplayKeyFor(op) && RequestOf(other) != RequestOf(op)
    ensures var db' := Run(Apply(db, op, now).0, later);
            Apply(db', other, again).0 == db' && Apply(db', other, again).1.Err?
  {
    hide ValidGoal, ValidMilestone, ValidPatch, ValidMutation, ValidScope, ValidIdentifier, Touched, StaleBodies,
         StaleRows;
    var db1 := Apply(db, op, now).0;
    var rk := ReplayKeyFor(op);
    assert rk in db1.replays && db1.replays[rk].request == RequestOf(op);
    ReplaysPersist(db1, later, rk);
  }

  /** The goal revision an operation was written against, when it names one. */
  function ExpectedOf(op: GoalOp): Option<int> {
    match op
    case Create(_, _) => None
    case Revise(_, _, _, expected, _) => Some(expected)
    case Record(_, _, _, expected, _) => Some(expected)
  }

  lemma {:induction false} RevisionNeverFalls(db: Goals, ops: seq<Timed>, key: GoalKey)
    requires GoalsOk(db)
    ensures Revision(StoreOf(Run(db, ops), key)) >= Revision(StoreOf(db, key))
    decreases |ops|
  {
    if ops != [] {
      var db' := Apply(db, ops[0].op, ops[0].now).0;
      ApplyKeepsGoals(db, ops[0].op, ops[0].now);
      ApplyNeverFalls(db, ops[0].op, ops[0].now, key);
      RevisionNeverFalls(db', ops[1..], key);
    }
  }

  /** One transaction raises the revision of its own goal by one or leaves every goal alone. */
  lemma ApplyNeverFalls(db: Goals, op: GoalOp, now: int, key: GoalKey)
    requires GoalsOk(db)
    ensures var db' := Apply(db, op, now).0;
            Revision(StoreOf(db', key)) == Revision(StoreOf(db, key))
              + if db' != db && key == KeyOf(op) then 1 else 0
  {
    hide ValidGoal, ValidMilestone, ValidPatch, ValidMutation, ValidScope, ValidIdentifier, Touched, StaleBodies,
         StaleRows, MilestonesOk, Fresh, ReplayOk, Linear;
    var st := StoreOf(db, KeyOf(op));
    assert StoreOk(KeyOf(op), st);
    if st.row.Some? {
      LinearFacts(KeyOf(op), st);
    }
  }

  /** Of two writers holding the same expected revision, only the first changes the goal. */
  lemma OneWriterWins(db: Goals, first: GoalOp, now: int, later: seq<Timed>, second: GoalOp, again: int)
    requires GoalsOk(db) && now >= 0
    requires Apply(db, first, now).0 != db
    requires ExpectedOf(first).Some? && ExpectedOf(second) == ExpectedOf(first) && KeyOf(second) == KeyOf(first)
    ensures var db' := Run(Apply(db, first, now).0, later);
            Apply(db', second, again).0 == db'
  {
    hide ValidGoal, ValidMilestone, ValidPatch, Affected, Linear, MilestonesOk, Fresh, ReplayOk, ValidMutation,
         ValidScope, ValidIdentifier, Touched, StaleBodies, StaleRows;
    var key := KeyOf(first);
    var db1 := Apply(db, first, now).0;
    assert StoreOk(key, StoreOf(db, key));
    LinearFacts(key, StoreOf(db, key));
    ApplyKeepsGoals(db, first, now);
    ApplyNeverFalls(db, first, now, key);
    RunKeepsGoals(db1, later);
    RevisionNeverFalls(db1, later, key);
    var st' := StoreOf(Run(db1, later), key);
    assert StoreOk(key, st');
    if st'.row.Some? {
      LinearFacts(key, st');
    }
  }

  // ------------------------------------------------------- what a change does

  /** The inputs of a milestone differ between two goal bodies. */
  ghost predicate InputsDiffer(a: Goal, b: Goal, dependencies: set<string>) {
    !SameHead(a, b) || exists d :: d in dependencies && !SameParameter(a, b, d)
  }

  lemma AffectedByInputs(body: Milestone, prior: Goal, next: Goal)
    ensures Affected(body, prior, next) <==> InputsDiffer(prior, next, body.dependencies)
  {
    hide Same;
    LookupOfKey(prior.parameters);
    LookupOfKey(next.parameters);
    var changed := ChangedParameters(prior, next);
    forall d | d in body.dependencies && !SameParameter(prior, next, d)
      ensures d in changed
    {
    }
    if !(body.dependencies !! changed) {
      var d :| d in body.dependencies && d in changed;
      assert !SameParameter(prior, next, d);
    }
  }

  /**
   * A revision takes each patched member from the patch and every other from the
   * previous body, and marks a milestone exactly when one of its inputs differs;
   * all other milestones keep their bodies.
   */
  lemma RevisionInvalidatesExactly(db: Goals, m: GoalMutation, scope: GoalScope, id: string, expected: int, patch: GoalPatch, now: int)
    requires GoalsOk(db) && now >= 0 && ReviseGoal(db, m, scope, id, expected, patch, now).0 != db
    ensures var st := StoreOf(db, GoalKey(scope, id));
            var st' := StoreOf(ReviseGoal(db, m, scope, id, expected, patch, now).0, GoalKey(scope, id));
            && st.row.Some? && st'.row.Some? && st.row.value.revision == expected && st'.row.value.revision == expected + 1
            && var prior, next := st.row.value.body, st'.row.value.body;
               && next.id == prior.id && next.scope == prior.scope
               && (patch.objective.Some? ==> next.objective == patch.objective.value)
               && (patch.objective.None? ==> next.objective == prior.objective)
               && (patch.playbook.Some? ==> next.playbook == patch.playbook.value)
               && (patch.playbook.None? ==> next.playbook == prior.playbook)
               && (patch.parameters.Some? ==> next.parameters == patch.parameters.value)
               && (patch.parameters.None? ==> next.parameters == prior.parameters)
               && st'.milestones.Keys == st.milestones.Keys
               && forall k :: k in st.milestones ==>
                    if InputsDiffer(prior, next, st.milestones[k].dependencies)
                    then st'.milestones[k].requiresRefresh && st'.milestones[k].preparation == "needs_refresh"
                         && st'.milestones[k].dependencies == st.milestones[k].dependencies
                         && st'.milestones[k].evidence == st.milestones[k].evidence
                    else st'.milestones[k] == st.milestones[k]
  {
    hide ValidGoal, ValidPatch, ValidMutation, ValidScope, ValidIdentifier, Affected, InputsDiffer, Linear,
         MilestonesOk, Fresh, ReplayOk;
    var key := GoalKey(scope, id);
    var st := StoreOf(db, key);
    assert StoreOk(key, st);
    LinearFacts(key, st);
    forall k | k in st.milestones
      ensures Affected(st.milestones[k], st.row.value.body, Patched(st.row.value.body, patch))
              <==> InputsDiffer(st.row.value.body, Patched(st.row.value.body, patch), st.milestones[k].dependencies)
    {
      AffectedByInputs(st.milestones[k], st.row.value.body, Patched(st.row.value.body, patch));
    }
  }

  /** A recording moves the goal by one revision with no other change, and rewrites one milestone, which keeps an earlier refresh mark. */
  lemma RecordingChangesOne(db: Goals, m: GoalMutation, scope: GoalScope, id: string, expected: int, milestone: Milestone, now: int)
    requires GoalsOk(db) && now >= 0 && RecordMilestone(db, m, scope, id, expected, milestone, now).0 != db
    ensures var st := StoreOf(db, GoalKey(scope, id));
            var st' := StoreOf(RecordMilestone(db, m, scope, id, expected, milestone, now).0, GoalKey(scope, id));
            && st.row.Some? && st'.row.Some?
            && st'.row.value.body == st.row.value.body.(revision := expected + 1)
            && st'.milestones.Keys == st.milestones.Keys + {milestone.id}
            && (forall k :: k in st.milestones && k != milestone.id ==> st'.milestones[k] == st.milestones[k])
            && var stored := st'.milestones[milestone.id];
               && stored.dependencies == milestone.dependencies && stored.evidence == milestone.evidence
               && stored.dependencies <= Keys(st'.row.value.body.parameters)
               && (stored.requiresRefresh <==>
                     milestone.requiresRefresh || (milestone.id in st.milestones && st.milestones[milestone.id].requiresRefresh))
               && (stored.requiresRefresh <==> stored.preparation == "needs_refresh")
  {
    hide ValidGoal, ValidMutation, ValidScope, ValidIdentifier, Linear, MilestonesOk, Fresh, ReplayOk, ValidEvidence;
    var key := GoalKey(scope, id);
    assert StoreOk(key, StoreOf(db, key));
    LinearFacts(key, StoreOf(db, key));
  }
}
