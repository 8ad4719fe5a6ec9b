// The goal tables of the journal and the three transactions that change them.
// Rows are grouped by the scope and goal id that start every primary key.
module GoalJournal {
  import opened Basics
  import opened Json
  import opened GoalTypes

  datatype GoalKey = GoalKey(scope: GoalScope, id: string)

  datatype GoalRow = GoalRow(revision: int, body: Goal)

  datatype RevisionRow = RevisionRow(
    body: Goal, actor: string, requestId: string, operation: string, createdAt: int)

  datatype EventRow = EventRow(revision: int, event: string, createdAt: int)

  datatype MilestoneRevisionRow = MilestoneRevisionRow(
    body: Milestone, actor: string, requestId: string, operation: string, event: string, createdAt: int)

  /** All rows of one goal; `events` has no primary key, so it may hold duplicates. */
  datatype GoalStore = GoalStore(
    row: Option<GoalRow>,
    revisions: map<int, RevisionRow>,
    events: seq<EventRow>,
    milestones: map<string, Milestone>,
    history: map<(string, int), MilestoneRevisionRow>)

  const EMPTY_STORE := GoalStore(None, map[], [], map[], map[])

  datatype ReplayKey = ReplayKey(scope: GoalScope, actor: string, operation: string, target: string, requestId: string)

  /** The request body whose text is compared on a replay. */
  datatype Request =
    | CreateRequest(goal: Goal)
    | ReviseRequest(expected: int, patch: GoalPatch)
    | RecordRequest(expected: int, milestone: Milestone)

  datatype ReplayRow = ReplayRow(request: Request, response: Goal)

  datatype Goals = Goals(stores: map<GoalKey, GoalStore>, replays: map<ReplayKey, ReplayRow>)

  const NO_GOALS := Goals(map[], map[])

  function StoreOf(db: Goals, key: GoalKey): GoalStore {
    if key in db.stores then db.stores[key] else EMPTY_STORE
  }

  function ReplayKeyOf(scope: GoalScope, m: GoalMutation, target: string): ReplayKey {
    ReplayKey(scope, m.actor, m.operation, target, m.requestId)
  }

  /** A stored answer, a conflict, or nothing when the request is new. */
  function Replay(db: Goals, key: ReplayKey, request: Request): Option<Result<Goal>> {
    if key !in db.replays then None
    else if db.replays[key].request != request then Some(Err(ReplayConflict))
    else Some(Ok(db.replays[key].response))
  }

  // ------------------------------------------------------------- row updates

  function WithGoalRevision(st: GoalStore, goal: Goal, m: GoalMutation, event: string, now: int): GoalStore {
    st.(row := Some(GoalRow(goal.revision, goal)),
        revisions := st.revisions[goal.revision := RevisionRow(goal, m.actor, m.requestId, m.operation, now)],
        events := st.events + [EventRow(goal.revision, event, now)])
  }

  function MilestoneRow(body: Milestone, m: GoalMutation, event: string, now: int): MilestoneRevisionRow {
    MilestoneRevisionRow(body, m.actor, m.requestId, m.operation, event, now)
  }

  function WithMilestone(st: GoalStore, id: string, revision: int, body: Milestone, m: GoalMutation, event: string, now: int): GoalStore {
    st.(milestones := st.milestones[id := body],
        history := st.history[(id, revision) := MilestoneRow(body, m, event, now)])
  }

  function Stale(body: Milestone): Milestone {
    body.(requiresRefresh := true, preparation := "needs_refresh")
  }

  function StaleBodies(milestones: map<string, Milestone>, touched: set<string>): map<string, Milestone> {
    map id | id in milestones :: if id in touched then Stale(milestones[id]) else milestones[id]
  }

  function StaleRows(milestones: map<string, Milestone>, touched: set<string>, revision: int, m: GoalMutation, now: int)
    : map<(string, int), MilestoneRevisionRow>
    requires touched <= milestones.Keys
  {
    map id | id in touched :: (id, revision) := MilestoneRow(Stale(milestones[id]), m, "invalidated", now)
  }

  /** Every milestone in `touched` marked stale, with one history row each. */
  function WithInvalidated(st: GoalStore, touched: set<string>, revision: int, m: GoalMutation, now: int): GoalStore
    requires touched <= st.milestones.Keys
  {
    st.(milestones := StaleBodies(st.milestones, touched),
        history := st.history + StaleRows(st.milestones, touched, revision, m, now))
  }

  /** One transaction's commit: the goal's rows and the replay receipt together. */
  function Commit(db: Goals, key: GoalKey, st: GoalStore, replay: ReplayKey, request: Request, response: Goal): Goals {
    Goals(db.stores[key := st], db.replays[replay := ReplayRow(request, response)])
  }

  // -------------------------------------------------------------- create_goal

  function CreateGoal(db: Goals, m: GoalMutation, goal: Goal, now: int): (Goals, Result<Goal>) {
    var key := GoalKey(goal.scope, goal.id);
    var replayKey := ReplayKeyOf(goal.scope, m, goal.id);
    if !ValidMutation(m) || !ValidGoal(goal) || goal.revision != 1 then (db, Err(InvalidInput))
    else
      match Replay(db, replayKey, CreateRequest(goal))
      case Some(answer) => (db, answer)
      case None =>
        var st := StoreOf(db, key);
        if st.row.Some? then (db, Err(AlreadyExists))
        else if goal.revision in st.revisions then (db, Err(ConstraintViolation))
        else
          (Commit(db, key, WithGoalRevision(st, goal, m, "created", now), replayKey, CreateRequest(goal), goal), Ok(goal))
  }

  // -------------------------------------------------------------- revise_goal

  function Patched(prior: Goal, patch: GoalPatch): Goal {
    Goal(
      prior.id, prior.scope, prior.revision + 1,
      if patch.objective.Some? then patch.objective.value else prior.objective,
      if patch.playbook.Some? then patch.playbook.value else prior.playbook,
      if patch.parameters.Some? then patch.parameters.value else prior.parameters)
  }

  predicate SameParameter(a: Goal, b: Goal, name: string) {
    match (Lookup(a.parameters, name), Lookup(b.parameters, name))
    case (Some(v), Some(w)) => Same(v, w)
    case (None, None) => true
    case _ => false
  }

  predicate SameHead(a: Goal, b: Goal) {
    a.objective == b.objective && a.playbook == b.playbook
  }

  function ChangedParameters(prior: Goal, next: Goal): set<string> {
    set k | k in Keys(prior.parameters) + Keys(next.parameters) && !SameParameter(prior, next, k)
  }

  predicate Affected(body: Milestone, prior: Goal, next: Goal) {
    !SameHead(prior, next) || !(body.dependencies !! ChangedParameters(prior, next))
  }

  function Touched(st: GoalStore, prior: Goal, next: Goal): set<string> {
    set id | id in st.milestones && Affected(st.milestones[id], prior, next)
  }

  function ReviseGoal(db: Goals, m: GoalMutation, scope: GoalScope, id: string, expected: int, patch: GoalPatch, now: int)
    : (Goals, Result<Goal>)
  {
    var key := GoalKey(scope, id);
    var replayKey := ReplayKeyOf(scope, m, id);
    var request := ReviseRequest(expected, patch);
    if !ValidMutation(m) || !ValidScope(scope) || !ValidIdentifier(id) || !ValidRevision(expected) || !ValidPatch(patch) then
      (db, Err(InvalidInput))
    else
      match Replay(db, replayKey, request)
      case Some(answer) => (db, answer)
      case None =>
        var st := StoreOf(db, key);
        if st.row.None? then (db, Err(NotFound))
        else
          var prior := st.row.value.body;
          if prior.revision != expected then (db, Err(RevisionConflict))
          else
            var next := Patched(prior, patch);
            if next.revision > MAX_REVISION then (db, Err(LimitReached))
            else if !ValidGoal(next) then (db, Err(InvalidInput))
            else
              var touched := Touched(st, prior, next);
              if next.revision in st.revisions || exists id :: id in touched && (id, next.revision) in st.history then
                (db, Err(ConstraintViolation))
              else
                var st' := WithGoalRevision(WithInvalidated(st, touched, next.revision, m, now), next, m, "revised", now);
                (Commit(db, key, st', replayKey, request, next), Ok(next))
  }

  // ---------------------------------------------------------- record_milestone

  /** A milestone that once needed a refresh keeps needing it. */
  function Recorded(st: GoalStore, milestone: Milestone): Milestone {
    if milestone.id in st.milestones && st.milestones[milestone.id].requiresRefresh then Stale(milestone) else milestone
  }

  function RecordMilestone(db: Goals, m: GoalMutation, scope: GoalScope, id: string, expected: int, milestone: Milestone, now: int)
    : (Goals, Result<Goal>)
  {
    var key := GoalKey(scope, id);
    var replayKey := ReplayKeyOf(scope, m, id);
    var request := RecordRequest(expected, milestone);
    if !ValidMutation(m) || !ValidScope(scope) || !ValidIdentifier(id) || !ValidRevision(expected) || !ValidMilestone(milestone) then
      (db, Err(InvalidInput))
    else
      match Replay(db, replayKey, request)
      case Some(answer) => (db, answer)
      case None =>
        var st := StoreOf(db, key);
        if st.row.None? then (db, Err(NotFound))
        else
          var prior := st.row.value.body;
          if prior.revision != expected then (db, Err(RevisionConflict))
          else if !(milestone.dependencies <= Keys(prior.parameters)) then (db, Err(MissingDependency))
          else if milestone.id !in st.milestones && |st.milestones| >= MAX_MILESTONES then (db, Err(TooManyMilestones))
          else
            var next := prior.(revision := prior.revision + 1);
            if next.revision > MAX_REVISION then (db, Err(LimitReached))
            else if next.revision in st.revisions || (milestone.id, next.revision) in st.history then
              (db, Err(ConstraintViolation))
            else
              var body := Recorded(st, milestone);
              var st' := WithGoalRevision(
                WithMilestone(st, milestone.id, next.revision, body, m, "recorded", now), next, m, "milestone_recorded", now);
              (Commit(db, key, st', replayKey, request, next), Ok(next))
  }

  // ------------------------------------------------------------------- traces

  datatype GoalOp =
    | Create(m: GoalMutation, goal: Goal)
    | Revise(m: GoalMutation, scope: GoalScope, id: string, expected: int, patch: GoalPatch)
    | Record(m: GoalMutation, scope: GoalScope, id: string, expected: int, milestone: Milestone)

  function KeyOf(op: GoalOp): GoalKey {
    match op
    case Create(_, goal) => GoalKey(goal.scope, goal.id)
    case Revise(_, scope, id, _, _) => GoalKey(scope, id)
    case Record(_, scope, id, _, _) => GoalKey(scope, id)
  }

  function Apply(db: Goals, op: GoalOp, now: int): (Goals, Result<Goal>) {
    match op
    case Create(m, goal) => CreateGoal(db, m, goal, now)
    case Revise(m, scope, id, expected, patch) => ReviseGoal(db, m, scope, id, expected, patch, now)
    case Record(m, scope, id, expected, milestone) => RecordMilestone(db, m, scope, id, expected, milestone, now)
  }

  /** One committed or refused request, with the clock reading of its transaction. */
  datatype Timed = Timed(op: GoalOp, now: nat)

  function Run(db: Goals, ops: seq<Timed>): Goals
    decreases |ops|
  {
    if ops == [] then db else Run(Apply(db, ops[0].op, ops[0].now).0, ops[1..])
  }
}
