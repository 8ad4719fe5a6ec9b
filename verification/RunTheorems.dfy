// Theorems about every interleaving of goal, run and step transactions.
module RunTheorems {
  import opened Basics
  import opened GoalTypes
  import opened GoalJournal
  import opened GoalInvariants
  import opened GoalTheorems
  import opened StepTypes
  import opened Runs

  /** A bound run names an existing revision of its goal, and itself. */
  ghost predicate BindingOk(db: Db, run: string)
    requires run in db.runs
  {
    match db.runs[run].binding
    case NoBinding => true
    case Malformed => false
    case Bound(b) =>
      ValidBinding(b) && b.runId == run && b.goalRevision <= Revision(StoreOf(db.goals, BoundKey(b)))
  }

  ghost predicate DbOk(db: Db) {
    GoalsOk(db.goals)
    && (forall run :: run in db.runs ==> BindingOk(db, run))
    && (forall run :: GapFree(RowsOf(db.steps, run)))
  }

  lemma GapFreeAfterStep(db: Db, op: JournalOp, now: int)
    requires forall run :: GapFree(RowsOf(db.steps, run))
    ensures forall run :: GapFree(RowsOf(Step(db, op, now).steps, run))
  {
    forall run
      ensures GapFree(RowsOf(Step(db, op, now).steps, run))
    {
      assert GapFree(RowsOf(db.steps, run));
      match op
      case Start(target, request, attempt) =>
        if GateOpen(db, target) {
          assert GapFree(RowsOf(db.steps, target));
          StartAppends(db, target, request, attempt);
          RowsOfAppend(db.steps, StepRow(target, |RowsOf(db.steps, target)| + 1, Started, request, None, attempt), run);
        }
      case Complete(target, n, result) => RowsOfWithResult(db.steps, target, n, Completed, result, run);
      case Fail(target, n, error) => RowsOfWithResult(db.steps, target, n, Failed, Failure(error), run);
      case _ =>
    }
  }

  lemma CurrentFacts(goals: Goals, b: GoalRunBinding)
    requires GoalsOk(goals) && ValidBinding(b)
    ensures BindingIsCurrent(goals, b) <==> Revision(StoreOf(goals, BoundKey(b))) == b.goalRevision
  {
    hide MilestonesOk, Fresh, ReplayOk, ValidGoal;
    var st := StoreOf(goals, BoundKey(b));
    assert StoreOk(BoundKey(b), st);
    if st.row.Some? {
      LinearFacts(BoundKey(b), st);
    }
  }

  lemma BindingsAfterStep(db: Db, op: JournalOp, now: int)
    requires DbOk(db) && now >= 0
    ensures forall run :: run in Step(db, op, now).runs ==> BindingOk(Step(db, op, now), run)
  {
    hide StoreOk, ReplayOk;
    var db' := Step(db, op, now);
    forall run | run in db'.runs
      ensures BindingOk(db', run)
    {
      if run in db.runs {
        assert BindingOk(db, run);
        assert db'.runs[run].binding == db.runs[run].binding;
        if op.GoalTx? && db.runs[run].binding.Bound? {
          ApplyNeverFalls(db.goals, op.op, now, BoundKey(db.runs[run].binding.binding));
        }
      } else if op.NewBoundRun? {
        CurrentFacts(db.goals, db'.runs[run].binding.binding);
      }
    }
  }

  lemma StepKeepsDb(db: Db, op: JournalOp, now: int)
    requires DbOk(db) && now >= 0
    ensures DbOk(Step(db, op, now))
  {
    hide GapFree, BindingOk, StoreOk, ReplayOk;
    BindingsAfterStep(db, op, now);
    GapFreeAfterStep(db, op, now);
    if op.GoalTx? {
      ApplyKeepsGoals(db.goals, op.op, now);
    }
  }

  lemma EmptyDbOk()
    ensures DbOk(EMPTY_DB)
  {
    EmptyGoalsOk();
  }

  lemma {:induction false} HistoryKeepsDb(db: Db, ops: seq<TimedOp>)
    requires DbOk(db)
    ensures DbOk(After(db, ops))
  {
    if ops != [] {
      var last := |ops| - 1;
      HistoryKeepsDb(db, ops[..last]);
      StepKeepsDb(After(db, ops[..last]), ops[last].op, ops[last].now);
    }
  }

  /** In every reachable journal the steps of every run are numbered without gaps. */
  lemma StepsAreGapFree(ops: seq<TimedOp>, run: string)
    ensures GapFree(RowsOf(After(EMPTY_DB, ops).steps, run))
  {
    EmptyDbOk();
    HistoryKeepsDb(EMPTY_DB, ops);
  }

  // ---------------------------------------------------------------- staleness

  /** The run is bound to a revision its goal has moved past. */
  ghost predicate Moved(db: Db, run: string) {
    run in db.runs && db.runs[run].binding.Bound? &&
    var b := db.runs[run].binding.binding;
    ValidBinding(b) && b.goalRevision < Revision(StoreOf(db.goals, BoundKey(b)))
  }

  /** Neither `running` nor `completed` can newly appear. */
  predicate NotRevived(before: string, after: string) {
    after == before || (after != "running" && after != "completed")
  }

  /** The request side of a row, which no transaction rewrites. */
  function RequestsOf(rows: seq<StepRow>): (r: seq<(StepRequest, int)>)
    ensures |r| == |rows|
  {
    seq(|rows|, i requires 0 <= i < |rows| => (rows[i].request, rows[i].attempt))
  }

  lemma MovedGateShut(db: Db, run: string)
    requires DbOk(db) && Moved(db, run)
    ensures !GateOpen(db, run)
    ensures !BindingIsCurrent(db.goals, db.runs[run].binding.binding)
  {
    hide GapFree, StoreOk, ReplayOk;
    CurrentFacts(db.goals, db.runs[run].binding.binding);
  }

  lemma MovedStepKeepsRequests(db: Db, op: JournalOp, now: int, run: string)
    requires DbOk(db) && Moved(db, run)
    ensures RequestsOf(RowsOf(Step(db, op, now).steps, run)) == RequestsOf(RowsOf(db.steps, run))
  {
    hide DbOk, Moved, Apply, BindingIsCurrent, MaxSeq, RequestsOf, WithResult, RowsOf;
    MovedGateShut(db, run);
    match op
    case Start(target, request, attempt) =>
      if GateOpen(db, target) {
        RowsOfAppend(db.steps, StepRow(target, MaxSeq(RowsOf(db.steps, target)) + 1, Started, request, None, attempt), run);
        assert RowsOf(db.steps, run) + [] == RowsOf(db.steps, run);
      }
    case Complete(target, n, result) =>
      RowsOfWithResult(db.steps, target, n, Completed, result, run);
      FinishKeepsRequests(RowsOf(db.steps, run), target, n, Completed, result);
    case Fail(target, n, error) =>
      RowsOfWithResult(db.steps, target, n, Failed, Failure(error), run);
      FinishKeepsRequests(RowsOf(db.steps, run), target, n, Failed, Failure(error));
    case _ =>
  }

  lemma FinishKeepsRequests(rows: seq<StepRow>, target: string, n: int, status: StepStatus, result: StepResult)
    ensures RequestsOf(WithResult(rows, target, n, status, result)) == RequestsOf(rows)
  {
  }

  lemma MovedStep(db: Db, op: JournalOp, now: int, run: string)
    requires DbOk(db) && Moved(db, run) && now >= 0
    ensures var db' := Step(db, op, now);
            && Moved(db', run)
            && db'.runs[run].binding == db.runs[run].binding
            && NotRevived(db.runs[run].status, db'.runs[run].status)
  {
    hide GapFree, StoreOk, ReplayOk, BindingOk, Apply, RowsOf, MaxSeq, WithResult, BindingIsCurrent;
    MovedGateShut(db, run);
    if op.GoalTx? {
      ApplyNeverFalls(db.goals, op.op, now, BoundKey(db.runs[run].binding.binding));
    }
  }

  /**
   * Staleness is permanent and blocking: after a bound run's goal has moved, no
   * later history makes the binding current, starts a step of the run, or sets
   * its status to running or completed.
   */
  lemma {:induction false} StaleForever(db: Db, ops: seq<TimedOp>, run: string)
    requires DbOk(db) && Moved(db, run)
    ensures var db' := After(db, ops);
            && Moved(db', run)
            && db'.runs[run].binding == db.runs[run].binding
            && !BindingIsCurrent(db'.goals, db.runs[run].binding.binding)
            && NotRevived(db.runs[run].status, db'.runs[run].status)
            && RequestsOf(RowsOf(db'.steps, run)) == RequestsOf(RowsOf(db.steps, run))
  {
    if ops == [] {
      MovedGateShut(db, run);
    } else {
      var last := |ops| - 1;
      var mid := After(db, ops[..last]);
      StaleForever(db, ops[..last], run);
      HistoryKeepsDb(db, ops[..last]);
      MovedStep(mid, ops[last].op, ops[last].now, run);
      MovedStepKeepsRequests(mid, ops[last].op, ops[last].now, run);
      StepKeepsDb(mid, ops[last].op, ops[last].now);
      MovedGateShut(After(db, ops), run);
    }
  }

  /** Recording a milestone moves the goal, so it makes a current bound run stale. */
  lemma MilestoneMakesStale(db: Db, run: string, m: GoalMutation, milestone: Milestone, now: int)
    requires DbOk(db) && run in db.runs && db.runs[run].binding.Bound? && now >= 0
    requires var b := db.runs[run].binding.binding;
             BindingIsCurrent(db.goals, b)
             && RecordMilestone(db.goals, m, b.scope, b.goalId, b.goalRevision, milestone, now).0 != db.goals
    ensures var b := db.runs[run].binding.binding;
            Moved(Step(db, GoalTx(Record(m, b.scope, b.goalId, b.goalRevision, milestone)), now), run)
  {
    hide GapFree, StoreOk, ReplayOk;
    var b := db.runs[run].binding.binding;
    CurrentFacts(db.goals, b);
    ApplyNeverFalls(db.goals, Record(m, b.scope, b.goalId, b.goalRevision, milestone), now, BoundKey(b));
  }

  // -------------------------------------------------------------- completion

  /** Some transaction of the history completed the run while its binding was current. */
  ghost predicate CompletedWhileCurrent(ops: seq<TimedOp>, run: string, b: GoalRunBinding) {
    exists i :: 0 <= i < |ops| && ops[i].op == SetStatus(run, "completed")
                && BindingIsCurrent(After(EMPTY_DB, ops[..i]).goals, b)
  }

  /** A bound run is only ever completed in a transaction where its binding is current. */
  lemma {:induction false} CompletionWasCurrent(ops: seq<TimedOp>, run: string, b: GoalRunBinding)
    requires var db := After(EMPTY_DB, ops);
             run in db.runs && db.runs[run].binding == Bound(b) && db.runs[run].status == "completed"
    ensures CompletedWhileCurrent(ops, run, b)
  {
    hide Apply, RowsOf, MaxSeq, WithResult, BindingIsCurrent;
    if ops != [] {
      var last := |ops| - 1;
      var mid := After(EMPTY_DB, ops[..last]);
      if run in mid.runs && mid.runs[run].status == "completed" {
        CompletionWasCurrent(ops[..last], run, b);
        var i :| 0 <= i < last && ops[..last][i].op == SetStatus(run, "completed")
                 && BindingIsCurrent(After(EMPTY_DB, ops[..last][..i]).goals, b);
        assert ops[..last][..i] == ops[..i];
        assert ops[i].op == SetStatus(run, "completed");
      } else {
        assert ops[last].op == SetStatus(run, "completed");
        assert GateOpen(mid, run);
      }
    }
  }

  // ------------------------------------------------------- the gate fails closed

  /** For any table contents: the gate lets a run through exactly when it is unbound or exactly current. */
  lemma GateFailsClosed(db: Db, run: string)
    requires run in db.runs
    ensures var (db', gate) := GateGoalRun(db, run);
            && gate.Ok?
            && (gate.value.Unbound? <==> db.runs[run].binding.NoBinding?)
            && (gate.value.Current? <==>
                  db.runs[run].binding.Bound? && db.runs[run].binding.binding.runId == run
                  && BindingIsCurrent(db.goals, db.runs[run].binding.binding))
            && (gate.value.GateNeedsReview? ==> db'.runs[run].status == "needs_review")
            && (!gate.value.GateNeedsReview? ==> db' == db)
            && db'.goals == db.goals && db'.steps == db.steps
  {
  }

  // ------------------------------------------------------------------ creation

  /**
   * In every reachable journal a bound run is created exactly when its arguments are
   * valid, the goal is at the expected revision and the id is free; then exactly that
   * run is new, with the caller's agent and input, and a refusal changes nothing.
   */
  lemma BoundRunIsCreated(ops: seq<TimedOp>, scope: GoalScope, goalId: string, expected: int, id: string, agent: string, input: string)
    ensures var db := After(EMPTY_DB, ops);
            var (db', r) := CreateGoalBoundRun(db, scope, goalId, expected, id, agent, input);
            var binding := GoalRunBinding(BINDING_VERSION, id, scope, goalId, expected);
            && (r.Ok? <==>
                  && ValidScope(scope) && ValidIdentifier(goalId) && ValidRevision(expected) && ValidNewRun(id, agent, input)
                  && Revision(StoreOf(db.goals, GoalKey(scope, goalId))) == expected && id !in db.runs)
            && (r.Ok? ==> r.value == binding && OnlyNewRun(db, db', id, agent, input, Bound(binding)))
            && (r.Err? ==> db' == db)
  {
    hide After, BindingIsCurrent, ValidScope, ValidIdentifier, GoalsOk, GapFree, BindingOk;
    EmptyDbOk();
    HistoryKeepsDb(EMPTY_DB, ops);
    if ValidScope(scope) && ValidIdentifier(goalId) && ValidRevision(expected) && ValidNewRun(id, agent, input) {
      CurrentFacts(After(EMPTY_DB, ops).goals, GoalRunBinding(BINDING_VERSION, id, scope, goalId, expected));
    }
  }

  /** A run without a goal is created exactly when its id is free. */
  lemma RunIsCreated(db: Db, id: string, agent: string, input: string)
    ensures var (db', r) := CreateRun(db, id, agent, input);
            && (r.Ok? <==> id !in db.runs)
            && (r.Ok? ==> OnlyNewRun(db, db', id, agent, input, NoBinding))
            && (r.Err? ==> db' == db)
  {
  }
}
