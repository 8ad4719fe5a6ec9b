// Runs, their steps, and the gate that ties a run to one goal revision.
module Runs {
  import opened Basics
  import opened GoalTypes
  import opened GoalJournal
  import opened StepTypes

  const BINDING_VERSION := 1

  datatype GoalRunBinding = GoalRunBinding(version: int, runId: string, scope: GoalScope, goalId: string, goalRevision: int)

  /** The nullable binding column; `Malformed` is any non-null value that does not parse. */
  datatype BindingCell = NoBinding | Malformed | Bound(binding: GoalRunBinding)

  datatype RunRow = RunRow(agent: string, status: string, input: string, binding: BindingCell)

  datatype Gate = Unbound | Current(binding: GoalRunBinding) | GateNeedsReview

  datatype Db = Db(goals: Goals, runs: map<string, RunRow>, steps: seq<StepRow>)

  const EMPTY_DB := Db(NO_GOALS, map[], [])

  predicate ValidBinding(b: GoalRunBinding) {
    b.version == BINDING_VERSION && ValidIdentifier(b.runId) && ValidScope(b.scope)
    && ValidIdentifier(b.goalId) && ValidRevision(b.goalRevision)
  }

  function BoundKey(b: GoalRunBinding): GoalKey {
    GoalKey(b.scope, b.goalId)
  }

  predicate BindingIsCurrent(goals: Goals, b: GoalRunBinding) {
    var st := StoreOf(goals, BoundKey(b));
    ValidBinding(b) && st.row.Some? &&
    var row := st.row.value;
    ValidGoal(row.body) && row.body.scope == b.scope && row.body.id == b.goalId
    && row.body.revision == row.revision && row.revision == b.goalRevision
  }

  function WithStatus(db: Db, run: string, status: string): Db {
    if run in db.runs then db.(runs := db.runs[run := db.runs[run].(status := status)]) else db
  }

  function CreateRun(db: Db, id: string, agent: string, input: string): (Db, Result<()>) {
    if id in db.runs then (db, Err(ConstraintViolation))
    else (db.(runs := db.runs[id := RunRow(agent, "running", input, NoBinding)]), Ok(()))
  }

  predicate ValidNewRun(id: string, agent: string, input: string) {
    ValidIdentifier(id) && ValidIdentifier(agent) && ValidObjective(input)
  }

  function CreateGoalBoundRun(db: Db, scope: GoalScope, goalId: string, expected: int, id: string, agent: string, input: string)
    : (Db, Result<GoalRunBinding>)
  {
    var b := GoalRunBinding(BINDING_VERSION, id, scope, goalId, expected);
    if !ValidScope(scope) || !ValidIdentifier(goalId) || !ValidRevision(expected) || !ValidNewRun(id, agent, input) then
      (db, Err(InvalidInput))
    else if !BindingIsCurrent(db.goals, b) then (db, Err(RevisionConflict))
    else if id in db.runs then (db, Err(ConstraintViolation))
    else (db.(runs := db.runs[id := RunRow(agent, "running", input, Bound(b))]), Ok(b))
  }

  /** Reads the binding; anything that is not provably current parks the run. */
  function GateGoalRun(db: Db, run: string): (Db, Result<Gate>) {
    if run !in db.runs then (db, Err(NotFound))
    else
      match db.runs[run].binding
      case NoBinding => (db, Ok(Unbound))
      case Malformed => (WithStatus(db, run, "needs_review"), Ok(GateNeedsReview))
      case Bound(b) =>
        if b.runId == run && BindingIsCurrent(db.goals, b) then (db, Ok(Current(b)))
        else (WithStatus(db, run, "needs_review"), Ok(GateNeedsReview))
  }

  /** The gate of a transaction that must not proceed for a stale run. */
  predicate GateOpen(db: Db, run: string) {
    var gate := GateGoalRun(db, run).1;
    gate.Ok? && !gate.value.GateNeedsReview?
  }

  function GateError(db: Db, run: string): Error {
    if run in db.runs then NeedsReview else NotFound
  }

  function SetRunStatus(db: Db, run: string, status: string): (Db, Result<()>) {
    if status != "running" && status != "completed" then (WithStatus(db, run, status), Ok(()))
    else if !GateOpen(db, run) then (GateGoalRun(db, run).0, Err(GateError(db, run)))
    else (WithStatus(db, run, status), Ok(()))
  }

  // ---------------------------------------------------- what may have changed

  /** One run is new, with these columns, and nothing else is different. */
  ghost predicate OnlyNewRun(before: Db, after: Db, id: string, agent: string, input: string, binding: BindingCell) {
    id !in before.runs && id in after.runs
    && after.runs[id].agent == agent && after.runs[id].input == input
    && after.runs[id].status == "running" && after.runs[id].binding == binding
    && (forall other :: other != id ==>
          (other in after.runs <==> other in before.runs) && (other in before.runs ==> after.runs[other] == before.runs[other]))
    && after.goals == before.goals && after.steps == before.steps
  }

  /** One run, if there is such a run, has this status, and nothing else is different. */
  ghost predicate OnlyStatus(before: Db, after: Db, run: string, status: string) {
    after.runs.Keys == before.runs.Keys
    && (run in before.runs ==>
          && after.runs[run].status == status && after.runs[run].agent == before.runs[run].agent
          && after.runs[run].input == before.runs[run].input && after.runs[run].binding == before.runs[run].binding)
    && (forall other :: other in before.runs && other != run ==> after.runs[other] == before.runs[other])
    && after.goals == before.goals && after.steps == before.steps
  }

  lemma WithStatusChangesOne(db: Db, run: string, status: string)
    ensures OnlyStatus(db, WithStatus(db, run, status), run, status)
  {
  }

  // -------------------------------------------------------------------- steps

  function RowsOf(steps: seq<StepRow>, run: string): seq<StepRow> {
    if steps == [] then []
    else if steps[0].run == run then [steps[0]] + RowsOf(steps[1..], run)
    else RowsOf(steps[1..], run)
  }

  /** `COALESCE(MAX(seq), 0)` over one run. */
  function MaxSeq(rows: seq<StepRow>): (r: int)
    ensures r >= 0 && forall i :: 0 <= i < |rows| ==> rows[i].seqNo <= r
  {
    if rows == [] then 0
    else
      var rest := MaxSeq(rows[1..]);
      assert forall i :: 1 <= i < |rows| ==> rows[i] == rows[1..][i - 1];
      if rows[0].seqNo > rest then rows[0].seqNo else rest
  }

  function StartStep(db: Db, run: string, request: StepRequest, attempt: int): (Db, Result<int>) {
    if !GateOpen(db, run) then (GateGoalRun(db, run).0, Err(GateError(db, run)))
    else
      var n := MaxSeq(RowsOf(db.steps, run)) + 1;
      (db.(steps := db.steps + [StepRow(run, n, Started, request, None, attempt)]), Ok(n))
  }

  function Finished(row: StepRow, status: StepStatus, result: StepResult): StepRow {
    row.(status := status, result := Some(result))
  }

  /** An UPDATE of the rows with this run and sequence number. */
  function WithResult(steps: seq<StepRow>, run: string, n: int, status: StepStatus, result: StepResult): (r: seq<StepRow>)
    ensures |r| == |steps|
  {
    seq(|steps|, i requires 0 <= i < |steps| =>
      if steps[i].run == run && steps[i].seqNo == n then Finished(steps[i], status, result) else steps[i])
  }

  function CompleteStep(db: Db, run: string, n: int, result: StepResult): Db {
    db.(steps := WithResult(db.steps, run, n, Completed, result))
  }

  function FailStep(db: Db, run: string, n: int, error: string): Db {
    db.(steps := WithResult(db.steps, run, n, Failed, Failure(error)))
  }

  // ------------------------------------------------------------------- traces

  datatype JournalOp =
    | GoalTx(op: GoalOp)
    | NewRun(id: string, agent: string, input: string)
    | NewBoundRun(scope: GoalScope, goalId: string, expected: int, id: string, agent: string, input: string)
    | ReadGate(run: string)
    | SetStatus(run: string, status: string)
    | Start(run: string, request: StepRequest, attempt: int)
    | Complete(run: string, n: int, result: StepResult)
    | Fail(run: string, n: int, error: string)

  function Step(db: Db, op: JournalOp, now: int): Db {
    match op
    case GoalTx(op) => db.(goals := Apply(db.goals, op, now).0)
    case NewRun(id, agent, input) => CreateRun(db, id, agent, input).0
    case NewBoundRun(scope, goalId, expected, id, agent, input) =>
      CreateGoalBoundRun(db, scope, goalId, expected, id, agent, input).0
    case ReadGate(run) => GateGoalRun(db, run).0
    case SetStatus(run, status) => SetRunStatus(db, run, status).0
    case Start(run, request, attempt) => StartStep(db, run, request, attempt).0
    case Complete(run, n, result) => CompleteStep(db, run, n, result)
    case Fail(run, n, error) => FailStep(db, run, n, error)
  }

  datatype TimedOp = TimedOp(op: JournalOp, now: nat)

  function After(db: Db, ops: seq<TimedOp>): Db {
    if ops == [] then db
    else
      var last := |ops| - 1;
      Step(After(db, ops[..last]), ops[last].op, ops[last].now)
  }

  // -------------------------------------------------------------- row algebra

  lemma {:induction false} RowsOfAppend(steps: seq<StepRow>, row: StepRow, run: string)
    ensures RowsOf(steps + [row], run) == RowsOf(steps, run) + if row.run == run then [row] else []
  {
    if steps != [] {
      assert (steps + [row])[1..] == steps[1..] + [row];
      RowsOfAppend(steps[1..], row, run);
    }
  }

  lemma RowsOfCons(row: StepRow, rest: seq<StepRow>, run: string)
    ensures RowsOf([row] + rest, run) == if row.run == run then [row] + RowsOf(rest, run) else RowsOf(rest, run)
  {
    assert ([row] + rest)[1..] == rest;
  }

  lemma WithResultCons(row: StepRow, rest: seq<StepRow>, target: string, n: int, status: StepStatus, result: StepResult)
    ensures WithResult([row] + rest, target, n, status, result)
            == [if row.run == target && row.seqNo == n then Finished(row, status, result) else row]
               + WithResult(rest, target, n, status, result)
  {
  }

  lemma {:induction false} RowsOfWithResult(steps: seq<StepRow>, target: string, n: int, status: StepStatus, result: StepResult, run: string)
    ensures RowsOf(WithResult(steps, target, n, status, result), run)
            == WithResult(RowsOf(steps, run), target, n, status, result)
  {
    hide RowsOf, WithResult;
    if steps == [] {
      NoResult(target, n, status, result, run);
    } else {
      var head, rest := steps[0], steps[1..];
      assert steps == [head] + rest;
      RowsOfWithResult(rest, target, n, status, result, run);
      WithResultCons(head, rest, target, n, status, result);
      RowsOfCons(head, rest, run);
      RowsOfCons(WithResult(steps, target, n, status, result)[0], WithResult(rest, target, n, status, result), run);
      if head.run == run {
        WithResultCons(head, RowsOf(rest, run), target, n, status, result);
      }
    }
  }

  lemma NoResult(target: string, n: int, status: StepStatus, result: StepResult, run: string)
    ensures WithResult([], target, n, status, result) == [] && RowsOf([], run) == []
  {
  }

  lemma {:induction false} RowsOfBelong(steps: seq<StepRow>, run: string)
    ensures forall i :: 0 <= i < |RowsOf(steps, run)| ==> RowsOf(steps, run)[i].run == run
  {
    if steps != [] {
      RowsOfBelong(steps[1..], run);
    }
  }

  /** The steps of a run are numbered 1, 2, 3 ... in the order they were inserted. */
  ghost predicate GapFree(rows: seq<StepRow>) {
    forall i :: 0 <= i < |rows| ==> rows[i].seqNo == i + 1
  }

  lemma GapFreeMax(rows: seq<StepRow>)
    requires GapFree(rows)
    ensures MaxSeq(rows) == |rows|
  {
    MaxSeqAttained(rows);
    if rows != [] {
      assert rows[|rows| - 1].seqNo == |rows|;
    }
  }

  lemma {:induction false} MaxSeqAttained(rows: seq<StepRow>)
    ensures MaxSeq(rows) == 0 || exists i :: 0 <= i < |rows| && rows[i].seqNo == MaxSeq(rows)
  {
    if rows != [] && rows[0].seqNo <= MaxSeq(rows[1..]) {
      MaxSeqAttained(rows[1..]);
      if MaxSeq(rows) != 0 {
        var i :| 0 <= i < |rows| - 1 && rows[1..][i].seqNo == MaxSeq(rows[1..]);
        assert rows[i + 1].seqNo == MaxSeq(rows);
      }
    }
  }

  /** Starting a step appends exactly one numbered row to its own run. */
  lemma StartAppends(db: Db, run: string, request: StepRequest, attempt: int)
    requires GapFree(RowsOf(db.steps, run)) && GateOpen(db, run)
    ensures var (db', r) := StartStep(db, run, request, attempt);
            var rows := RowsOf(db.steps, run);
            && r == Ok(|rows| + 1)
            && RowsOf(db'.steps, run) == rows + [StepRow(run, |rows| + 1, Started, request, None, attempt)]
            && GapFree(RowsOf(db'.steps, run))
  {
    var rows := RowsOf(db.steps, run);
    GapFreeMax(rows);
    RowsOfAppend(db.steps, StepRow(run, |rows| + 1, Started, request, None, attempt), run);
  }

  lemma {:induction false} RowsOfHolds(steps: seq<StepRow>, run: string)
    ensures forall i :: 0 <= i < |steps| && steps[i].run == run ==> steps[i] in RowsOf(steps, run)
  {
    if steps != [] {
      RowsOfHolds(steps[1..], run);
      forall i | 0 <= i < |steps| && steps[i].run == run
        ensures steps[i] in RowsOf(steps, run)
      {
        if i > 0 {
          assert steps[1..][i - 1] in RowsOf(steps[1..], run);
        }
      }
    }
  }

  /** `after` is `before` with step n of the run finished, and with every other row of every run as it was. */
  ghost predicate OnlyFinished(before: seq<StepRow>, after: seq<StepRow>, run: string, n: int, status: StepStatus, result: StepResult) {
    var rows := RowsOf(before, run);
    && (forall other :: other != run ==> RowsOf(after, other) == RowsOf(before, other))
    && (1 <= n <= |rows| ==> RowsOf(after, run) == rows[n - 1 := rows[n - 1].(status := status, result := Some(result))])
    && (!(1 <= n <= |rows|) ==> after == before)
  }

  /** Finishing step n of a run rewrites that row and no other row of any run. */
  lemma FinishRewrites(steps: seq<StepRow>, run: string, n: int, status: StepStatus, result: StepResult)
    requires GapFree(RowsOf(steps, run))
    ensures var after := WithResult(steps, run, n, status, result);
            OnlyFinished(steps, after, run, n, status, result) && GapFree(RowsOf(after, run))
  {
    hide RowsOf, WithResult;
    forall other | other != run
      ensures RowsOf(WithResult(steps, run, n, status, result), other) == RowsOf(steps, other)
    {
      ForeignFinish(steps, run, n, status, result, other);
    }
    OwnFinish(steps, run, n, status, result);
    if !(1 <= n <= |RowsOf(steps, run)|) {
      NothingToFinish(steps, run, n, status, result);
    }
  }

  lemma OwnFinish(steps: seq<StepRow>, run: string, n: int, status: StepStatus, result: StepResult)
    requires GapFree(RowsOf(steps, run))
    ensures var rows := RowsOf(steps, run);
            var rows' := RowsOf(WithResult(steps, run, n, status, result), run);
            && (1 <= n <= |rows| ==> rows' == rows[n - 1 := Finished(rows[n - 1], status, result)])
            && GapFree(rows')
  {
    hide RowsOf;
    RowsOfWithResult(steps, run, n, status, result, run);
    RowsOfBelong(steps, run);
  }

  lemma NothingToFinish(steps: seq<StepRow>, run: string, n: int, status: StepStatus, result: StepResult)
    requires GapFree(RowsOf(steps, run)) && !(1 <= n <= |RowsOf(steps, run)|)
    ensures WithResult(steps, run, n, status, result) == steps
  {
    hide RowsOf;
    RowsOfHolds(steps, run);
  }

  lemma ForeignFinish(steps: seq<StepRow>, target: string, n: int, status: StepStatus, result: StepResult, run: string)
    requires target != run
    ensures RowsOf(WithResult(steps, target, n, status, result), run) == RowsOf(steps, run)
  {
    hide RowsOf;
    RowsOfWithResult(steps, target, n, status, result, run);
    RowsOfBelong(steps, run);
  }
}
