// The journal as the object its callers hold: every public method is one
// transaction that commits a new table state or leaves the old one in place.
module Journal {
  import opened Basics
  import opened Json
  import opened GoalTypes
  import opened GoalJournal
  import opened GoalRecords
  import opened StepTypes
  import opened Runs
  import Utf8

  /** The recursive check of one parameter value, drawing on a node budget shared by all parameters. */
  method ValidateParameterValue(v: Value, depth: nat, budget: nat) returns (ok: bool, remaining: nat)
    ensures ok <==> ValidParameterValue(v, depth) && Nodes(v) <= budget
    ensures ok ==> remaining == budget - Nodes(v)
    decreases v
  {
    hide FieldNodes, ItemNodes, ValidParameterKey, CredentialText;
    NoNodes();
    remaining := budget;
    if depth > MAX_PARAMETER_DEPTH || remaining == 0 {
      return false, remaining;
    }
    remaining := remaining - 1;
    match v
    case Obj(fields) =>
      assert fields[..0] == [];
      for i := 0 to |fields|
        invariant forall k :: 0 <= k < i ==> ValidParameterKey(fields[k].key) && ValidParameterValue(fields[k].value, depth + 1)
        invariant remaining >= 0 && budget == 1 + FieldNodes(fields[..i]) + remaining
      {
        FieldNodesSplit(fields, i);
        var field := fields[i];
        if !ValidParameterKey(field.key) {
          return false, remaining;
        }
        ok, remaining := ValidateParameterValue(field.value, depth + 1, remaining);
        if !ok {
          return;
        }
      }
      assert fields[..|fields|] == fields;
      ok := true;
    case Arr(items) =>
      assert items[..0] == [];
      for i := 0 to |items|
        invariant forall k :: 0 <= k < i ==> ValidParameterValue(items[k], depth + 1)
        invariant remaining >= 0 && budget == 1 + ItemNodes(items[..i]) + remaining
      {
        ItemNodesSplit(items, i);
        ok, remaining := ValidateParameterValue(items[i], depth + 1, remaining);
        if !ok {
          return;
        }
      }
      assert items[..|items|] == items;
      ok := true;
    case Str(text) =>
      ok := Utf8.ByteLen(text) <= MAX_PARAMETER_JSON && !CredentialText(text);
    case _ =>
      ok := true;
  }

  /** All parameters of a goal, checked one by one against one budget. */
  method ValidateParameters(parameters: Parameters) returns (ok: bool)
    ensures ok <==> ValidParameters(parameters)
  {
    if |parameters| > MAX_PARAMETERS {
      return false;
    }
    var remaining := MAX_PARAMETER_NODES;
    for i := 0 to |parameters|
      invariant remaining >= 0
      invariant forall k :: 0 <= k < i ==> ValidParameter(parameters[k])
      invariant MAX_PARAMETER_NODES == FieldNodes(parameters[..i]) + remaining
    {
      FieldNodesSplit(parameters, i);
      var field := parameters[i];
      if !ValidIdentifier(field.key) || CredentialLabel(field.key) {
        return false;
      }
      ok, remaining := ValidateParameterValue(field.value, 0, remaining);
      if !ok || Utf8.ByteLen(Text(field.value)) > MAX_PARAMETER_JSON {
        return false;
      }
    }
    assert parameters[..|parameters|] == parameters;
    return Utf8.ByteLen(Text(Obj(parameters))) <= MAX_ALL_PARAMETER_JSON;
  }

  class Journal {
    var db: Db

    constructor ()
      ensures db == EMPTY_DB
    {
      db := EMPTY_DB;
    }

    method CreateGoal(m: GoalMutation, goal: Goal, now: nat) returns (r: Result<Goal>)
      modifies this
      ensures (db.goals, r) == GoalJournal.CreateGoal(old(db.goals), m, goal, now)
      ensures db.runs == old(db.runs) && db.steps == old(db.steps)
    {
      var validParameters := ValidateParameters(goal.parameters);
      if !ValidMutation(m) || !ValidScope(goal.scope) || !ValidIdentifier(goal.id) || !ValidObjective(goal.objective)
         || !ValidPlaybook(goal.playbook) || !ValidRevision(goal.revision) || !validParameters || goal.revision != 1 {
        return Err(InvalidInput);
      }
      var replayKey := ReplayKeyOf(goal.scope, m, goal.id);
      var replay := Replay(db.goals, replayKey, CreateRequest(goal));
      if replay.Some? {
        return replay.value;
      }
      var tx := StoreOf(db.goals, GoalKey(goal.scope, goal.id));
      if tx.row.Some? {
        return Err(AlreadyExists);
      }
      if goal.revision in tx.revisions {
        return Err(ConstraintViolation);
      }
      tx := WithGoalRevision(tx, goal, m, "created", now);
      db := db.(goals := Commit(db.goals, GoalKey(goal.scope, goal.id), tx, replayKey, CreateRequest(goal), goal));
      return Ok(goal);
    }

    /** Goes through the goal's milestones one at a time and rewrites those that the change affects. */
    method ReviseGoal(m: GoalMutation, scope: GoalScope, id: string, expected: int, patch: GoalPatch, now: nat)
      returns (r: Result<Goal>)
      modifies this
      ensures (db.goals, r) == GoalJournal.ReviseGoal(old(db.goals), m, scope, id, expected, patch, now)
      ensures db.runs == old(db.runs) && db.steps == old(db.steps)
    {
      hide ValidGoal, ValidPatch, Same, ValidMutation, ValidScope;
      if !ValidMutation(m) || !ValidScope(scope) || !ValidIdentifier(id) || !ValidRevision(expected) || !ValidPatch(patch) {
        return Err(InvalidInput);
      }
      var replayKey, request := ReplayKeyOf(scope, m, id), ReviseRequest(expected, patch);
      var replay := Replay(db.goals, replayKey, request);
      if replay.Some? {
        return replay.value;
      }
      var key := GoalKey(scope, id);
      var st := StoreOf(db.goals, key);
      if st.row.None? {
        return Err(NotFound);
      }
      var prior := st.row.value.body;
      if prior.revision != expected {
        return Err(RevisionConflict);
      }
      var next := Patched(prior, patch);
      if next.revision > MAX_REVISION {
        return Err(LimitReached);
      }
      if !ValidGoal(next) {
        return Err(InvalidInput);
      }
      var invalidated, tx := Invalidate(st, prior, next, m, now);
      if !invalidated || next.revision in st.revisions {
        return Err(ConstraintViolation);
      }
      tx := WithGoalRevision(tx, next, m, "revised", now);
      db := db.(goals := Commit(db.goals, key, tx, replayKey, request, next));
      return Ok(next);
    }

    /** The loop over a goal's milestones; a history row that already exists aborts the transaction. */
    static method Invalidate(st: GoalStore, prior: Goal, next: Goal, m: GoalMutation, now: nat) returns (ok: bool, tx: GoalStore)
      ensures ok <==> forall id :: id in Touched(st, prior, next) ==> (id, next.revision) !in st.history
      ensures ok ==> tx == WithInvalidated(st, Touched(st, prior, next), next.revision, m, now)
    {
      hide SameHead, ChangedParameters;
      tx := st;
      var milestones := st.milestones.Keys;
      ghost var done := {};
      ghost var touched := Touched(st, prior, next);
      assert tx == WithInvalidated(st, {}, next.revision, m, now) by {
        assert st.milestones == StaleBodies(st.milestones, {});
        assert st.history == st.history + StaleRows(st.milestones, {}, next.revision, m, now);
      }
      while milestones != {}
        invariant done !! milestones && done + milestones == st.milestones.Keys
        invariant done * touched <= st.milestones.Keys
        invariant tx == WithInvalidated(st, done * touched, next.revision, m, now)
        invariant forall id :: id in done * touched ==> (id, next.revision) !in st.history
      {
        var id :| id in milestones;
        var milestone := tx.milestones[id];
        assert milestone == st.milestones[id];
        if Affected(milestone, prior, next) {
          if (id, next.revision) in tx.history {
            assert id in touched;
            return false, tx;
          }
          tx := WithMilestone(tx, id, next.revision, Stale(milestone), m, "invalidated", now);
          assert (done + {id}) * touched == done * touched + {id};
          InvalidateOne(st, done * touched, id, next.revision, m, now);
        } else {
          assert (done + {id}) * touched == done * touched;
        }
        milestones, done := milestones - {id}, done + {id};
      }
      assert done * touched == touched;
      ok := true;
    }

    method RecordMilestone(m: GoalMutation, scope: GoalScope, id: string, expected: int, milestone: Milestone, now: nat)
      returns (r: Result<Goal>)
      modifies this
      ensures (db.goals, r) == GoalJournal.RecordMilestone(old(db.goals), m, scope, id, expected, milestone, now)
      ensures db.runs == old(db.runs) && db.steps == old(db.steps)
    {
      hide ValidMutation, ValidScope, ValidMilestone, ValidIdentifier;
      if !ValidMutation(m) || !ValidScope(scope) || !ValidIdentifier(id) || !ValidRevision(expected) || !ValidMilestone(milestone) {
        return Err(InvalidInput);
      }
      var replayKey, request := ReplayKeyOf(scope, m, id), RecordRequest(expected, milestone);
      var replay := Replay(db.goals, replayKey, request);
      if replay.Some? {
        return replay.value;
      }
      var key := GoalKey(scope, id);
      var tx := StoreOf(db.goals, key);
      if tx.row.None? {
        return Err(NotFound);
      }
      var goal := tx.row.value.body;
      if goal.revision != expected {
        return Err(RevisionConflict);
      }
      if !(milestone.dependencies <= Keys(goal.parameters)) {
        return Err(MissingDependency);
      }
      if milestone.id !in tx.milestones && |tx.milestones| >= MAX_MILESTONES {
        return Err(TooManyMilestones);
      }
      var body := milestone;
      if milestone.id in tx.milestones && tx.milestones[milestone.id].requiresRefresh {
        body := Stale(milestone);
      }
      goal := goal.(revision := goal.revision + 1);
      if goal.revision > MAX_REVISION {
        return Err(LimitReached);
      }
      if (milestone.id, goal.revision) in tx.history || goal.revision in tx.revisions {
        return Err(ConstraintViolation);
      }
      tx := WithMilestone(tx, milestone.id, goal.revision, body, m, "recorded", now);
      tx := WithGoalRevision(tx, goal, m, "milestone_recorded", now);
      db := db.(goals := Commit(db.goals, key, tx, replayKey, request, goal));
      return Ok(goal);
    }

    /** A run without a goal. */
    method CreateRun(id: string, agent: string, input: string) returns (r: Result<()>)
      modifies this
      ensures (db, r) == Runs.CreateRun(old(db), id, agent, input)
      ensures r.Ok? <==> id !in old(db).runs
      ensures r.Ok? ==> OnlyNewRun(old(db), db, id, agent, input, NoBinding)
      ensures r.Err? ==> db == old(db)
    {
      if id in db.runs {
        return Err(ConstraintViolation);
      }
      db := db.(runs := db.runs[id := RunRow(agent, "running", input, NoBinding)]);
      return Ok(());
    }

    method CreateGoalBoundRun(scope: GoalScope, goalId: string, expected: int, id: string, agent: string, input: string)
      returns (r: Result<GoalRunBinding>)
      modifies this
      ensures (db, r) == Runs.CreateGoalBoundRun(old(db), scope, goalId, expected, id, agent, input)
      ensures r.Ok? <==>
                && ValidScope(scope) && ValidIdentifier(goalId) && ValidRevision(expected) && ValidNewRun(id, agent, input)
                && BindingIsCurrent(old(db).goals, GoalRunBinding(BINDING_VERSION, id, scope, goalId, expected))
                && id !in old(db).runs
      ensures r.Ok? ==>
                && r.value == GoalRunBinding(BINDING_VERSION, id, scope, goalId, expected)
                && OnlyNewRun(old(db), db, id, agent, input, Bound(r.value))
      ensures r.Err? ==> db == old(db)
    {
      if !ValidScope(scope) || !ValidIdentifier(goalId) || !ValidRevision(expected) || !ValidNewRun(id, agent, input) {
        return Err(InvalidInput);
      }
      var binding := GoalRunBinding(BINDING_VERSION, id, scope, goalId, expected);
      if !BindingIsCurrent(db.goals, binding) {
        return Err(RevisionConflict);
      }
      if id in db.runs {
        return Err(ConstraintViolation);
      }
      db := db.(runs := db.runs[id := RunRow(agent, "running", input, Bound(binding))]);
      return Ok(binding);
    }

    /** The gate, read inside a transaction; a run it stops is parked for review. */
    method Gate(run: string) returns (r: Result<Gate>)
      modifies this
      ensures (db, r) == GateGoalRun(old(db), run)
      ensures r.Ok? && !r.value.GateNeedsReview? <==> GateOpen(old(db), run)
      ensures r.Ok? && !r.value.GateNeedsReview? ==> db == old(db)
      ensures r.Ok? && r.value.GateNeedsReview? ==> OnlyStatus(old(db), db, run, "needs_review")
      ensures r.Err? <==> run !in old(db).runs
      ensures r.Err? ==> db == old(db) && r.error == NotFound
    {
      if run !in db.runs {
        return Err(NotFound);
      }
      var cell := db.runs[run].binding;
      if cell.NoBinding? {
        return Ok(Unbound);
      }
      if cell.Bound? && cell.binding.runId == run && BindingIsCurrent(db.goals, cell.binding) {
        return Ok(Current(cell.binding));
      }
      db := WithStatus(db, run, "needs_review");
      return Ok(GateNeedsReview);
    }

    /** Only `running` and `completed` are gated; a refusal still commits the review mark. */
    method SetRunStatus(run: string, status: string) returns (r: Result<()>)
      modifies this
      ensures (db, r) == Runs.SetRunStatus(old(db), run, status)
      ensures r.Ok? <==> (status != "running" && status != "completed") || GateOpen(old(db), run)
      ensures r.Ok? ==> OnlyStatus(old(db), db, run, status)
      ensures r.Err? ==> OnlyStatus(old(db), db, run, "needs_review") && r.error == if run in old(db).runs then NeedsReview else NotFound
    {
      if status == "running" || status == "completed" {
        var gate := Gate(run);
        if gate.Err? {
          return Err(gate.error);
        }
        if gate.value.GateNeedsReview? {
          return Err(NeedsReview);
        }
      }
      db := WithStatus(db, run, status);
      return Ok(());
    }

    method StartStep(run: string, request: StepRequest, attempt: int) returns (r: Result<int>)
      modifies this
      ensures (db, r) == Runs.StartStep(old(db), run, request, attempt)
      ensures r.Ok? <==> GateOpen(old(db), run)
      ensures r.Ok? ==>
                && db == old(db).(steps := db.steps)
                && db.steps == old(db).steps + [StepRow(run, r.value, Started, request, None, attempt)]
                && (GapFree(RowsOf(old(db).steps, run)) ==> r.value == |RowsOf(old(db).steps, run)| + 1)
      ensures r.Err? ==> OnlyStatus(old(db), db, run, "needs_review") && r.error == if run in old(db).runs then NeedsReview else NotFound
    {
      var gate := Gate(run);
      if gate.Err? {
        return Err(gate.error);
      }
      if gate.value.GateNeedsReview? {
        return Err(NeedsReview);
      }
      var next := MaxSeq(RowsOf(db.steps, run)) + 1;
      if GapFree(RowsOf(db.steps, run)) {
        GapFreeMax(RowsOf(db.steps, run));
      }
      db := db.(steps := db.steps + [StepRow(run, next, Started, request, None, attempt)]);
      return Ok(next);
    }

    method CompleteStep(run: string, n: int, result: StepResult)
      modifies this
      ensures db == old(db).(steps := db.steps)
      ensures GapFree(RowsOf(old(db).steps, run)) ==>
                OnlyFinished(old(db).steps, db.steps, run, n, Completed, result) && GapFree(RowsOf(db.steps, run))
      ensures db == Runs.CompleteStep(old(db), run, n, result)
    {
      if GapFree(RowsOf(db.steps, run)) {
        FinishRewrites(db.steps, run, n, Completed, result);
      }
      db := db.(steps := WithResult(db.steps, run, n, Completed, result));
    }

    method FailStep(run: string, n: int, error: string)
      modifies this
      ensures db == old(db).(steps := db.steps)
      ensures GapFree(RowsOf(old(db).steps, run)) ==>
                OnlyFinished(old(db).steps, db.steps, run, n, Failed, Failure(error)) && GapFree(RowsOf(db.steps, run))
      ensures db == Runs.FailStep(old(db), run, n, error)
    {
      if GapFree(RowsOf(db.steps, run)) {
        FinishRewrites(db.steps, run, n, Failed, Failure(error));
      }
      db := db.(steps := WithResult(db.steps, run, n, Failed, Failure(error)));
    }
  }

  /** One more invalidated milestone is one more row in each table. */
  lemma InvalidateOne(st: GoalStore, done: set<string>, id: string, revision: int, m: GoalMutation, now: int)
    requires done <= st.milestones.Keys && id in st.milestones && id !in done
    ensures WithMilestone(WithInvalidated(st, done, revision, m, now), id, revision, Stale(st.milestones[id]), m, "invalidated", now)
            == WithInvalidated(st, done + {id}, revision, m, now)
  {
    StaleBodiesOne(st.milestones, done, id);
    StaleRowsOne(st.milestones, done, id, revision, m, now);
    var row := MilestoneRow(Stale(st.milestones[id]), m, "invalidated", now);
    assert (st.history + StaleRows(st.milestones, done, revision, m, now))[(id, revision) := row]
        == st.history + StaleRows(st.milestones, done, revision, m, now)[(id, revision) := row];
  }

  lemma StaleBodiesOne(milestones: map<string, Milestone>, done: set<string>, id: string)
    requires id in milestones && id !in done
    ensures StaleBodies(milestones, done)[id := Stale(milestones[id])] == StaleBodies(milestones, done + {id})
  {
  }

  lemma StaleRowsOne(milestones: map<string, Milestone>, done: set<string>, id: string, revision: int, m: GoalMutation, now: int)
    requires done <= milestones.Keys && id in milestones && id !in done
    ensures StaleRows(milestones, done, revision, m, now)[(id, revision) := MilestoneRow(Stale(milestones[id]), m, "invalidated", now)]
            == StaleRows(milestones, done + {id}, revision, m, now)
  {
    hide Stale, MilestoneRow;
  }
}
