// Safety of whole agent runs: effects, conversations and staleness, over any
// number of crashes, resumes, configuration changes and foreign transactions.
module AgentTheorems {
  import opened Basics
  import opened Json
  import opened GoalJournal
  import opened StepTypes
  import opened Runs
  import opened RunTheorems
  import opened Agent
  import opened AgentInvariants
  import opened AgentSteps

  lemma ReachableOk(start: AgentState, events: seq<Event>)
    requires Initial(start) && AdmissibleAll(start, events)
    ensures AgentOk(ActAll(start, events))
  {
    hide AgentOk, Initial;
    InitialOk(start);
    ActAllKeeps(start, events);
  }

  // ----------------------------------------------------------------- effects

  /** Every effect was announced by its own row, in order. */
  lemma EffectsAreAnnounced(start: AgentState, events: seq<Event>)
    requires Initial(start) && AdmissibleAll(start, events)
    ensures var s := ActAll(start, events);
            && (forall i :: 0 <= i < |s.log| ==>
                  1 <= s.log[i].n <= |Rows(s)| && Announced(Rows(s)[s.log[i].n - 1], s.log[i]))
            && (forall i, j :: 0 <= i < j < |s.log| ==> s.log[i].n < s.log[j].n)
  {
    hide Initial, ActAll, AdmissibleAll, GapFree, ChainOk, PairsOk, ToolRowsOk, LlmIdsDistinct, PcOk;
    ReachableOk(start, events);
  }

  /** At the moment of an effect its row is the newest of the run and still `started`. */
  lemma EffectFollowsItsRow(s: AgentState, e: Event)
    requires AgentOk(s) && Act(s, e).log != s.log
    ensures e.Effect? && |Act(s, e).log| == |s.log| + 1 && Act(s, e).db == s.db && s.proc.Some?
    ensures var d := Act(s, e).log[|s.log|];
            && Act(s, e).log == s.log + [d]
            && d.n == |Rows(s)| && d.n >= 1 && Rows(s)[d.n - 1].status == Started && Announced(Rows(s)[d.n - 1], d)
            && forall i :: 0 <= i < |s.log| ==> s.log[i].n < d.n
  {
    hide AgentOk, RowsOk, PcOk, TurnOk, PairsOk, TickProcess, StartResume, Step;
    AgentParts(s);
    if e.Effect? {
      var pc := s.proc.value.pc;
      PendingOfPc(s, pc.turn, pc.n);
      EffectLogged(Rows(s), s.run, s.db.runs[s.run].input, s.log, pc.turn, pc.n, e.outcome);
      AnnouncedNow(Rows(s), s.run, s.db.runs[s.run].input, Act(s, e).log);
    } else {
      LogGrowsOnlyByEffects(s, e);
    }
  }

  lemma AnnouncedNow(rows: seq<StepRow>, run: string, input: string, log: seq<Dispatch>)
    requires RowsOk(rows, run, input, log) && log != []
    ensures var d := log[|log| - 1];
            1 <= d.n <= |rows| && Announced(rows[d.n - 1], d) && forall i :: 0 <= i < |log| - 1 ==> log[i].n < d.n
  {
    hide GapFree, ChainOk, PairsOk, ToolRowsOk, LlmIdsDistinct;
  }

  lemma LogGrowsOnlyByEffects(s: AgentState, e: Event)
    requires !e.Effect?
    ensures Act(s, e).log == s.log
  {
    hide GateGoalRun, SetRunStatus, StartStep, ReplayAllowed, CompletedRows, MaxAttempt, CompleteStep, FailStep,
         ResumePc, Step;
  }

  /**
   * A second effect for an id happens only when every earlier row for it, the
   * row of the first effect included, carries the same valid idempotent contract,
   * name, input and key, never completed, and has a smaller attempt number.
   */
  lemma EffectsRepeatOnlyWithPermission(start: AgentState, events: seq<Event>, i: nat, j: nat)
    requires Initial(start) && AdmissibleAll(start, events)
    requires i < j < |ActAll(start, events).log|
    requires ActAll(start, events).log[i].id == ActAll(start, events).log[j].id
    ensures var s := ActAll(start, events);
            var rows := Rows(s);
            var id := s.log[i].id;
            && 1 <= s.log[i].n < s.log[j].n <= |rows|
            && ToolRow(rows[s.log[i].n - 1], id) && ToolRow(rows[s.log[j].n - 1], id)
            && forall k :: 0 <= k < s.log[j].n - 1 && ToolRow(rows[k], id) ==> Repeatable(rows[k], rows[s.log[j].n - 1])
  {
    hide Initial, ActAll, AdmissibleAll, GapFree, ChainOk, ToolRowsOk, LlmIdsDistinct, PcOk, Repeatable;
    ReachableOk(start, events);
    var s := ActAll(start, events);
    assert Announced(Rows(s)[s.log[i].n - 1], s.log[i]) && Announced(Rows(s)[s.log[j].n - 1], s.log[j]);
  }

  /** The recorded contract promises that repeating the call is harmless. */
  predicate PromisesIdempotence(row: StepRow) {
    row.request.ToolCall? && row.request.contract.Some?
    && ValidContract(row.request.contract.value) && row.request.contract.value.idempotent
  }

  /** An id with one row that lacks the promise takes effect at most once, whenever that row was written. */
  lemma AtMostOnce(start: AgentState, events: seq<Event>, k: nat, i: nat, j: nat)
    requires Initial(start) && AdmissibleAll(start, events)
    requires var s := ActAll(start, events);
             && k < |Rows(s)| && Rows(s)[k].request.ToolCall? && !PromisesIdempotence(Rows(s)[k])
             && i < |s.log| && j < |s.log| && s.log[i].id == s.log[j].id == Rows(s)[k].request.toolUseId
    ensures i == j
  {
    hide Initial, ActAll, AdmissibleAll, GapFree, ChainOk, ToolRowsOk, LlmIdsDistinct, PcOk, PairsOk, Same;
    if i != j {
      var first, second := if i < j then i else j, if i < j then j else i;
      EffectsRepeatOnlyWithPermission(start, events, first, second);
      var s := ActAll(start, events);
      var b := s.log[second].n - 1;
      if k > b {
        ReachableOk(start, events);
        PairRepeatable(Rows(s), b, k);
      }
    }
  }

  lemma PairRepeatable(rows: seq<StepRow>, i: nat, j: nat)
    requires PairsOk(rows) && i < j < |rows| && rows[j].request.ToolCall? && ToolRow(rows[i], rows[j].request.toolUseId)
    ensures Repeatable(rows[i], rows[j])
  {
  }

  /** No effect follows a completed row for its id. */
  lemma CompletedToolsStayDone(start: AgentState, events: seq<Event>, k: nat, i: nat)
    requires Initial(start) && AdmissibleAll(start, events)
    requires var s := ActAll(start, events);
             && k < |Rows(s)| && Rows(s)[k].status == Completed && i < |s.log| && ToolRow(Rows(s)[k], s.log[i].id)
    ensures ActAll(start, events).log[i].n <= k + 1
  {
    hide Initial, ActAll, AdmissibleAll, GapFree, ChainOk, ToolRowsOk, LlmIdsDistinct, PcOk;
    ReachableOk(start, events);
  }

  /** Attempts of one id strictly increase and never leave the 64-bit range. */
  lemma AttemptsIncrease(start: AgentState, events: seq<Event>, i: nat, j: nat)
    requires Initial(start) && AdmissibleAll(start, events)
    requires var rows := Rows(ActAll(start, events));
             i < j < |rows| && rows[j].request.ToolCall? && ToolRow(rows[i], rows[j].request.toolUseId)
    ensures var rows := Rows(ActAll(start, events));
            1 <= rows[i].attempt < rows[j].attempt <= I64_MAX
  {
    hide Initial, ActAll, AdmissibleAll, GapFree, ChainOk, LlmIdsDistinct, PcOk, LogOk;
    ReachableOk(start, events);
  }

  // ------------------------------------------------------------ conversations

  /** The newest model request is at or after any given one. */
  lemma {:induction false} LastLlmAfter(rows: seq<StepRow>, i: nat) returns (last: nat)
    requires i < |rows| && rows[i].request.LlmCall?
    ensures i <= last < |rows| && LastLlm(rows) == Some(rows[last]) && rows[last].request.LlmCall?
  {
    if rows[|rows| - 1].request.LlmCall? {
      last := |rows| - 1;
    } else {
      last := LastLlmAfter(rows[..|rows| - 1], i);
    }
  }

  lemma FollowsExtends(rows: seq<StepRow>, input: string, messages: seq<Message>, attempt: int)
    requires Follows(rows, input, messages, attempt) && LastLlm(rows).Some?
    ensures LastLlm(rows).value.request.messages <= messages
  {
  }

  lemma {:induction false} PrefixChain(rows: seq<StepRow>, input: string, i: nat, j: nat)
    requires ChainOk(rows, input) && i < j < |rows| && rows[i].request.LlmCall? && rows[j].request.LlmCall?
    ensures rows[i].request.messages <= rows[j].request.messages
    decreases j
  {
    hide Follows, LastLlm;
    assert Follows(rows[..j], input, rows[j].request.messages, rows[j].attempt);
    var last := LastLlmAfter(rows[..j], i);
    FollowsExtends(rows[..j], input, rows[j].request.messages, rows[j].attempt);
    if i < last {
      PrefixChain(rows, input, i, last);
    }
  }

  /** Over any run the journaled model requests extend one another. */
  lemma RequestsFormPrefixChain(start: AgentState, events: seq<Event>, i: nat, j: nat)
    requires Initial(start) && AdmissibleAll(start, events)
    requires var rows := Rows(ActAll(start, events));
             i < j < |rows| && rows[i].request.LlmCall? && rows[j].request.LlmCall?
    ensures var rows := Rows(ActAll(start, events));
            rows[i].request.messages <= rows[j].request.messages
  {
    hide Initial, ActAll, AdmissibleAll, GapFree, PairsOk, ToolRowsOk, LlmIdsDistinct, PcOk, LogOk, Follows;
    ReachableOk(start, events);
    var s := ActAll(start, events);
    PrefixChain(Rows(s), s.db.runs[s.run].input, i, j);
  }

  /** The prompt of every tool turn is continued by its answers: all of them, in order, and no others. */
  lemma ToolTurnsAreAnswered(start: AgentState, events: seq<Event>, i: nat, j: nat)
    requires Initial(start) && AdmissibleAll(start, events)
    requires var rows := Rows(ActAll(start, events));
             && i < j < |rows| && rows[i].request.LlmCall? && rows[j].request.LlmCall?
             && (forall k :: i < k < j ==> !rows[k].request.LlmCall?)
             && rows[i].status == Completed && ReplyOf(rows[i]).stopReason == "tool_use"
    ensures var rows := Rows(ActAll(start, events));
            var uses := ToolUses(ReplyOf(rows[i]).content);
            exists results: seq<ToolResult> ::
              && rows[j].request.messages
                 == rows[i].request.messages + [Assistant(ReplyOf(rows[i]).content), ToolResults(results)]
              && |results| == |uses| && (forall k :: 0 <= k < |uses| ==> results[k].toolUseId == uses[k].id)
              && ResultsAgree(rows[..j], uses, results)
  {
    hide Initial, ActAll, AdmissibleAll, GapFree, PairsOk, ToolRowsOk, LlmIdsDistinct, PcOk, LogOk, LastLlm,
         ResultsAgree;
    ReachableOk(start, events);
    var s := ActAll(start, events);
    var rows := Rows(s);
    assert Follows(rows[..j], s.db.runs[s.run].input, rows[j].request.messages, rows[j].attempt);
    LastLlmIs(rows, i, j);
    var last := rows[j].request.messages[|rows[j].request.messages| - 1];
    assert rows[j].request.messages
        == rows[i].request.messages + [Assistant(ReplyOf(rows[i]).content), ToolResults(last.results)];
  }

  lemma {:induction false} LastLlmIs(rows: seq<StepRow>, i: nat, j: nat)
    requires i < j <= |rows| && rows[i].request.LlmCall? && forall k :: i < k < j ==> !rows[k].request.LlmCall?
    ensures LastLlm(rows[..j]) == Some(rows[i])
    decreases j
  {
    if j > i + 1 {
      assert rows[..j][..j - 1] == rows[..j - 1];
      LastLlmIs(rows, i, j - 1);
    }
  }

  // -------------------------------------------------------------- completion

  /** A completed run has no process, and its newest model response ended its turn. */
  ghost predicate CompletionOk(s: AgentState) {
    s.run in s.db.runs && (s.db.runs[s.run].status == "completed" ==> s.proc.None? && EndsTurn(Rows(s)))
  }

  lemma ForeignKeepsStatus(db: Db, op: JournalOp, now: int, run: string)
    requires run in db.runs && Foreign(op, run)
    ensures run in Step(db, op, now).runs
    ensures Step(db, op, now).runs[run].status == "completed" ==> db.runs[run].status == "completed"
  {
    hide Apply, RowsOf, MaxSeq, WithResult, BindingIsCurrent;
  }

  lemma StatusAfter(db: Db, run: string, status: string)
    requires run in db.runs && db.runs[run].status != "completed"
    ensures var db' := SetRunStatus(db, run, status).0;
            run in db'.runs && db'.steps == db.steps && (db'.runs[run].status == "completed" ==> status == "completed")
  {
    hide BindingIsCurrent;
  }

  lemma StartKeepsStatus(db: Db, run: string, request: StepRequest, attempt: int)
    requires run in db.runs && db.runs[run].status != "completed"
    ensures var db' := StartStep(db, run, request, attempt).0;
            run in db'.runs && db'.runs[run].status != "completed"
  {
    hide BindingIsCurrent, RowsOf, MaxSeq;
  }

  lemma ToolTickKeepsStatus(s: AgentState, turn: Turn)
    requires s.proc.Some? && s.run in s.db.runs && s.db.runs[s.run].status != "completed"
    ensures var s' := TickTools(s, turn);
            s'.run == s.run && s.run in s'.db.runs && s'.db.runs[s.run].status != "completed"
  {
    hide ReplayAllowed, CompletedRows, MaxAttempt, StartStep;
    if TurnShape(turn) && |turn.results| < |turn.uses| {
      var use := turn.uses[|turn.results|];
      var request := ToolCall(use.name, use.input, use.id, ToolKey(s.run, use.id), ContractOf(s.proc.value.cfg, use.name));
      StartKeepsStatus(s.db, s.run, request, 1);
      if turn.snapshot.Some? {
        StartKeepsStatus(s.db, s.run, request, MaxAttempt(turn.snapshot.value, use.id) + 1);
      }
    }
  }

  lemma TickKeepsCompletion(s: AgentState)
    requires AgentOk(s) && CompletionOk(s) && s.proc.Some?
    ensures CompletionOk(TickProcess(s))
  {
    hide AgentOk, RowsOk, SetRunStatus, StartStep, TickTools, Follows, TurnOk, Pending, EndsTurn;
    AgentParts(s);
    match s.proc.value.pc
    case LoopTop(messages, attempt, left) => StartKeepsStatus(s.db, s.run, LlmCall(messages), attempt);
    case Tools(turn) => ToolTickKeepsStatus(s, turn);
    case Restarting(messages, attempt) => StatusAfter(s.db, s.run, "running");
    case Stopping(status) => StatusAfter(s.db, s.run, status);
    case _ =>
  }

  lemma ActKeepsCompletion(s: AgentState, e: Event)
    requires AgentOk(s) && CompletionOk(s) && Admissible(s, e)
    ensures CompletionOk(Act(s, e))
  {
    hide AgentOk, PcOk, RowsOk, TickProcess, ResumePc, Step, FreshIds, AfterReply, EndsTurn, ReplayAllowed,
         CompletedRows, BindingIsCurrent;
    match e
    case Other(op, now) =>
      ForeignKeepsStatus(s.db, op, now, s.run);
      ForeignKeepsRun(s.db, op, now, s.run);
    case Tick =>
      if s.proc.Some? {
        TickKeepsCompletion(s);
      }
    case _ =>
  }

  lemma {:induction false} RunKeepsCompletion(s: AgentState, events: seq<Event>)
    requires AgentOk(s) && CompletionOk(s) && AdmissibleAll(s, events)
    ensures CompletionOk(ActAll(s, events))
    decreases |events|
  {
    hide AgentOk, CompletionOk, Act, Admissible;
    if events != [] {
      ActKeeps(s, events[0]);
      ActKeepsCompletion(s, events[0]);
      RunKeepsCompletion(Act(s, events[0]), events[1..]);
    }
  }

  /** However often it crashes and resumes, a run is completed only after a model response that ended its turn. */
  lemma CompletedOnlyAfterEndTurn(start: AgentState, events: seq<Event>)
    requires Initial(start) && start.db.runs[start.run].status != "completed" && AdmissibleAll(start, events)
    requires start.run in ActAll(start, events).db.runs && ActAll(start, events).db.runs[start.run].status == "completed"
    ensures EndsTurn(Rows(ActAll(start, events)))
  {
    hide AgentOk, EndsTurn, ActAll, AdmissibleAll;
    InitialOk(start);
    RunKeepsCompletion(start, events);
    RunIsJournalHistory(start, events);
  }

  // ------------------------------------------------------------------ resume

  function Ticks(s: AgentState, n: nat): AgentState
    decreases n
  {
    if n == 0 then s else Ticks(Act(s, Tick), n - 1)
  }

  lemma {:induction false} TicksAdd(s: AgentState, m: nat, n: nat)
    ensures Ticks(s, m + n) == Ticks(Ticks(s, m), n)
    decreases m
  {
    if m > 0 {
      TicksAdd(Act(s, Tick), m - 1, n);
    }
  }

  /** The one completed row for this tool may stand in for running it again. */
  predicate Reusable(rows: seq<StepRow>, run: string, use: Block, cfg: Config)
    requires use.ToolUse?
  {
    var done := CompletedRows(rows, use.id);
    |done| == 1 && ReplayAllowed(done, run, use.name, use.id, use.input, ContractOf(cfg, use.name))
  }

  /** The journal alone determines the next model request: no tool has to run. */
  predicate NothingToRun(rows: seq<StepRow>, run: string, cfg: Config) {
    match LastLlm(rows)
    case None => true
    case Some(row) =>
      row.status == Completed && ReplyOf(row).stopReason == "tool_use" ==>
        forall k :: 0 <= k < |ToolUses(ReplyOf(row).content)| ==>
          Reusable(rows, run, ToolUses(ReplyOf(row).content)[k], cfg)
  }

  /** The gate and the status that a resume checks first. */
  predicate ResumeAllowed(db: Db, run: string) {
    GateOpen(db, run) && db.runs[run].status != "completed"
  }

  function ReusedResult(rows: seq<StepRow>, use: Block): ToolResult
    requires use.ToolUse?
  {
    var done := CompletedRows(rows, use.id);
    ToolResult(use.id, if done == [] then "" else ContentOf(done[0]), false)
  }

  function ReusedResults(rows: seq<StepRow>, uses: seq<Block>): (r: seq<ToolResult>)
    requires forall k :: 0 <= k < |uses| ==> uses[k].ToolUse?
    ensures |r| == |uses|
  {
    seq(|uses|, k requires 0 <= k < |uses| => ReusedResult(rows, uses[k]))
  }

  lemma {:induction false} TurnReplays(s: AgentState, turn: Turn)
    requires s.proc.Some? && s.proc.value.pc == Tools(turn) && TurnShape(turn) && turn.snapshot.Some?
    requires forall k :: |turn.results| <= k < |turn.uses| ==>
               Reusable(turn.snapshot.value, s.run, turn.uses[k], s.proc.value.cfg)
    requires forall k :: 0 <= k < |turn.results| ==> turn.results[k] == ReusedResult(turn.snapshot.value, turn.uses[k])
    ensures var results := ReusedResults(turn.snapshot.value, turn.uses);
            Ticks(s, |turn.uses| - |turn.results| + 1) == Goto(s, s.db, Restarting(turn.messages + [ToolResults(results)], 1))
    decreases |turn.uses| - |turn.results|
  {
    hide ReplayAllowed, CompletedRows, StartTool, TickProcess;
    var results := ReusedResults(turn.snapshot.value, turn.uses);
    var next := Act(s, Tick);
    TicksAdd(s, 1, |turn.uses| - |turn.results|);
    assert Ticks(s, 1) == next by {
      assert Ticks(next, 0) == next;
    }
    if |turn.results| == |turn.uses| {
      assert turn.results == results;
      EndOfTurn(s, turn);
    } else {
      var use := turn.uses[|turn.results|];
      assert Reusable(turn.snapshot.value, s.run, use, s.proc.value.cfg);
      var answered := Answer(turn, ContentOf(CompletedRows(turn.snapshot.value, use.id)[0]), false);
      ReusedTick(s, turn);
      assert TurnShape(answered) by { AnswerShape(turn, ContentOf(CompletedRows(turn.snapshot.value, use.id)[0])); }
      TurnReplays(next, answered);
    }
  }

  lemma AnswerShape(turn: Turn, content: string)
    requires TurnShape(turn) && |turn.results| < |turn.uses|
    ensures TurnShape(Answer(turn, content, false))
  {
  }

  lemma EndOfTurn(s: AgentState, turn: Turn)
    requires s.proc.Some? && s.proc.value.pc == Tools(turn) && TurnShape(turn) && turn.snapshot.Some?
    requires |turn.results| == |turn.uses|
    ensures Act(s, Tick) == Goto(s, s.db, Restarting(turn.messages + [ToolResults(turn.results)], 1))
  {
  }

  lemma ReusedTick(s: AgentState, turn: Turn)
    requires s.proc.Some? && s.proc.value.pc == Tools(turn) && TurnShape(turn) && turn.snapshot.Some?
    requires |turn.results| < |turn.uses|
    requires Reusable(turn.snapshot.value, s.run, turn.uses[|turn.results|], s.proc.value.cfg)
    ensures var done := CompletedRows(turn.snapshot.value, turn.uses[|turn.results|].id);
            |done| == 1 && Act(s, Tick) == Goto(s, s.db, Tools(Answer(turn, ContentOf(done[0]), false)))
  {
    hide ReplayAllowed, CompletedRows, StartTool;
  }

  /** What a resume computes from the rows of a turn is what the live loop had sent. */
  lemma ReusedResultsAgree(rows: seq<StepRow>, run: string, cfg: Config, uses: seq<Block>, results: seq<ToolResult>)
    requires (forall i :: 0 <= i < |uses| ==> uses[i].ToolUse?) && |results| == |uses|
    requires ResultsAgree(rows, uses, results)
    requires forall k :: 0 <= k < |uses| ==> Reusable(rows, run, uses[k], cfg)
    ensures results == ReusedResults(rows, uses)
  {
    hide ReplayAllowed;
    forall k | 0 <= k < |uses|
      ensures results[k] == ReusedResult(rows, uses[k])
    {
      assert Reusable(rows, run, uses[k], cfg);
      var done := CompletedRows(rows, uses[k].id);
      assert done[0] in done;
      var i :| 0 <= i < |rows| && rows[i] == done[0];
      assert ToolRow(rows[i], uses[k].id) && rows[i].status == Completed;
    }
  }

  /** How many steps a resume takes before it would send the next model request. */
  function TicksToRestart(rows: seq<StepRow>): nat {
    match LastLlm(rows)
    case None => 0
    case Some(row) =>
      if row.status == Completed && ReplyOf(row).stopReason == "tool_use" then |ToolUses(ReplyOf(row).content)| + 1 else 0
  }

  function Resumed(s: AgentState, cfg: Config): AgentState {
    Ticks(Act(Act(s, Crash), Resume(cfg)), TicksToRestart(Rows(s)))
  }

  lemma ResumeStarts(s: AgentState, cfg: Config)
    requires ResumeAllowed(s.db, s.run)
    ensures Act(Act(s, Crash), Resume(cfg)) == s.(proc := Some(Live(cfg, ResumePc(Rows(s), s.db.runs[s.run].input))))
  {
    hide BindingIsCurrent, ResumePc;
  }

  /** Resuming from rows that call for exactly one next request reaches that request. */
  lemma ResumeReaches(s: AgentState, cfg: Config, messages: seq<Message>, attempt: int)
    requires ResumeAllowed(s.db, s.run) && Follows(Rows(s), s.db.runs[s.run].input, messages, attempt)
    requires NothingToRun(Rows(s), s.run, cfg)
    ensures Resumed(s, cfg) == s.(proc := Some(Live(cfg, Restarting(messages, attempt))))
  {
    hide GateOpen, Reusable, ResultsAgree, CompletedRows, TickProcess, ReplyOf, ToolUses, ReusedResults;
    var rows := Rows(s);
    ResumeStarts(s, cfg);
    if LastLlm(rows).None? {
      assert TicksToRestart(rows) == 0;
    } else {
      var row := LastLlm(rows).value;
      if row.status != Completed || ReplyOf(row).stopReason == "pause_turn" {
        assert TicksToRestart(rows) == 0;
        assert ResumePc(rows, s.db.runs[s.run].input) == Restarting(messages, attempt);
      } else {
        ToolTurnReaches(s, cfg, row, messages, attempt);
      }
    }
  }

  lemma ToolTurnReaches(s: AgentState, cfg: Config, row: StepRow, messages: seq<Message>, attempt: int)
    requires ResumeAllowed(s.db, s.run) && Follows(Rows(s), s.db.runs[s.run].input, messages, attempt)
    requires NothingToRun(Rows(s), s.run, cfg)
    requires LastLlm(Rows(s)) == Some(row) && row.status == Completed && ReplyOf(row).stopReason != "pause_turn"
    ensures Resumed(s, cfg) == s.(proc := Some(Live(cfg, Restarting(messages, attempt))))
  {
    hide ResumeAllowed, LastLlm, Reusable, ResultsAgree, CompletedRows, TickProcess, ReplyOf, ToolUses, ReusedResults, GateOpen;
    var rows := Rows(s);
    ResumeStarts(s, cfg);
    var uses := ToolUses(ReplyOf(row).content);
    var answered := row.request.messages + [Assistant(ReplyOf(row).content)];
    var turn := Turn(answered, uses, [], Some(rows), 0);
    var last := messages[|messages| - 1];
    ReusedResultsAgree(rows, s.run, cfg, uses, last.results);
    assert last == ToolResults(ReusedResults(rows, uses));
    assert ResumePc(rows, s.db.runs[s.run].input) == Tools(turn);
    TurnReplays(s.(proc := Some(Live(cfg, Tools(turn)))), turn);
  }

  /**
   * Resume rebuilds the live conversation: a process about to send `messages` may
   * crash there, and a resume, under whatever configuration, that has nothing to
   * run comes back to exactly the same request without running anything.
   */
  lemma ResumeRebuildsConversation(start: AgentState, events: seq<Event>, cfg: Config)
    requires Initial(start) && AdmissibleAll(start, events)
    requires var s := ActAll(start, events);
             && s.proc.Some? && s.proc.value.pc.LoopTop?
             && ResumeAllowed(s.db, s.run) && NothingToRun(Rows(s), s.run, cfg)
    ensures var s := ActAll(start, events);
            var pc := s.proc.value.pc;
            Resumed(s, cfg) == s.(proc := Some(Live(cfg, Restarting(pc.messages, pc.attempt))))
  {
    hide Initial, ActAll, AdmissibleAll, RowsOk, Follows, ResumeAllowed, NothingToRun, Resumed;
    ReachableOk(start, events);
    var s := ActAll(start, events);
    ResumeReaches(s, cfg, s.proc.value.pc.messages, s.proc.value.pc.attempt);
  }

  /** A crash during a model call resends the dangling request as its next attempt. */
  lemma DanglingCallIsResent(start: AgentState, events: seq<Event>, cfg: Config)
    requires Initial(start) && AdmissibleAll(start, events)
    requires var s := ActAll(start, events);
             s.proc.Some? && s.proc.value.pc.Calling? && ResumeAllowed(s.db, s.run)
    ensures var s := ActAll(start, events);
            var pc := s.proc.value.pc;
            && 1 <= pc.n <= |Rows(s)|
            && Resumed(s, cfg) == s.(proc := Some(Live(cfg, Restarting(pc.messages, Rows(s)[pc.n - 1].attempt + 1))))
  {
    hide Initial, ActAll, AdmissibleAll, RowsOk, ResumeAllowed, TickProcess;
    ReachableOk(start, events);
    ResumeStarts(ActAll(start, events), cfg);
  }

  // --------------------------------------------------------------- staleness

  /** The journal transaction an agent step commits, if any. */
  function OpOf(s: AgentState, e: Event): Option<TimedOp> {
    match e
    case Other(op, now) => Some(TimedOp(op, now))
    case Crash => None
    case Resume(_) => if s.proc.None? && s.run in s.db.runs then Some(TimedOp(ReadGate(s.run), 0)) else None
    case Tick => if s.proc.Some? then TickOp(s) else None
    case ProviderReply(response) =>
      if s.proc.Some? && s.proc.value.pc.Calling? then
        Some(TimedOp(Complete(s.run, s.proc.value.pc.n, Reply(response)), 0))
      else None
    case ProviderError(error) =>
      if s.proc.Some? && s.proc.value.pc.Calling? then Some(TimedOp(Fail(s.run, s.proc.value.pc.n, error), 0)) else None
    case RejectPrivate(_) => None
    case Effect(_) => None
  }

  function TickOp(s: AgentState): Option<TimedOp>
    requires s.proc.Some?
  {
    match s.proc.value.pc
    case LoopTop(messages, attempt, left) =>
      if left == 0 then None else Some(TimedOp(Start(s.run, LlmCall(messages), attempt), 0))
    case Tools(turn) => if TickProcess(s).db == s.db then None else ToolOp(s, turn)
    case Settling(turn, n, outcome) =>
      if !TurnShape(turn) || |turn.results| == |turn.uses| then None
      else Some(TimedOp(if outcome.Success? then Complete(s.run, n, Content(outcome.content)) else Fail(s.run, n, outcome.error), 0))
    case Restarting(_, _) => Some(TimedOp(SetStatus(s.run, "running"), 0))
    case Stopping(status) => Some(TimedOp(SetStatus(s.run, status), 0))
    case _ => None
  }

  function ToolOp(s: AgentState, turn: Turn): Option<TimedOp>
    requires s.proc.Some?
  {
    if !TurnShape(turn) || |turn.results| == |turn.uses| then None
    else
      var use := turn.uses[|turn.results|];
      var attempt := if turn.snapshot.None? then 1 else MaxAttempt(turn.snapshot.value, use.id) + 1;
      Some(TimedOp(Start(s.run, ToolCall(use.name, use.input, use.id, ToolKey(s.run, use.id),
                                         ContractOf(s.proc.value.cfg, use.name)), attempt), 0))
  }

  lemma ToolTickIsJournal(s: AgentState, turn: Turn)
    requires s.proc.Some? && s.proc.value.pc == Tools(turn)
    ensures var db := TickTools(s, turn).db;
            db == s.db || (ToolOp(s, turn).Some? && db == Step(s.db, ToolOp(s, turn).value.op, ToolOp(s, turn).value.now))
  {
    hide ReplayAllowed, CompletedRows, MaxAttempt, GateGoalRun, GateOpen, RowsOf;
  }

  /** Every agent step is at most one journal transaction. */
  lemma ActIsJournal(s: AgentState, e: Event)
    ensures Act(s, e).run == s.run
    ensures Act(s, e).db == match OpOf(s, e) case None => s.db case Some(t) => Step(s.db, t.op, t.now)
  {
    hide ReplayAllowed, CompletedRows, MaxAttempt, GateOpen, RowsOf, TickTools, BindingIsCurrent;
    if e.Tick? && s.proc.Some? && s.proc.value.pc.Tools? {
      ToolTickIsJournal(s, s.proc.value.pc.turn);
      ToolTickSameRun(s, s.proc.value.pc.turn);
    }
  }

  lemma ToolTickSameRun(s: AgentState, turn: Turn)
    requires s.proc.Some? && s.proc.value.pc == Tools(turn)
    ensures TickTools(s, turn).run == s.run
  {
    hide ReplayAllowed, CompletedRows, MaxAttempt, GateOpen, RowsOf;
  }

  /** The journal history of a whole agent run. */
  function TraceOf(s: AgentState, events: seq<Event>): seq<TimedOp>
    decreases |events|
  {
    if events == [] then []
    else
      (match OpOf(s, events[0]) case None => [] case Some(t) => [t]) + TraceOf(Act(s, events[0]), events[1..])
  }

  lemma {:induction false} AfterSplits(db: Db, first: seq<TimedOp>, rest: seq<TimedOp>)
    ensures After(db, first + rest) == After(After(db, first), rest)
    decreases |rest|
  {
    hide Step;
    if rest == [] {
      assert first + rest == first;
    } else {
      var last := |rest| - 1;
      assert (first + rest)[..|first + rest| - 1] == first + rest[..last];
      AfterSplits(db, first, rest[..last]);
    }
  }

  /** An agent run, crashes and resumes included, is one history of the journal. */
  lemma {:induction false} RunIsJournalHistory(s: AgentState, events: seq<Event>)
    ensures ActAll(s, events).run == s.run
    ensures ActAll(s, events).db == After(s.db, TraceOf(s, events))
    decreases |events|
  {
    hide Act, Step, OpOf;
    if events != [] {
      var first := match OpOf(s, events[0]) case None => [] case Some(t) => [t];
      ActIsJournal(s, events[0]);
      RunIsJournalHistory(Act(s, events[0]), events[1..]);
      assert After(s.db, first) == Act(s, events[0]).db by {
        if first != [] {
          assert first[..0] == [];
        }
      }
      AfterSplits(s.db, first, TraceOf(Act(s, events[0]), events[1..]));
    }
  }

  /**
   * The agent stops when its goal moves: from then on it journals no new request,
   * its status never becomes running or completed, and nothing takes effect except
   * the one call that was already announced and not yet handed over.
   */
  lemma {:induction false} StaleRunStops(s: AgentState, events: seq<Event>)
    requires AgentOk(s) && DbOk(s.db) && Moved(s.db, s.run) && AdmissibleAll(s, events)
    ensures var s' := ActAll(s, events);
            && Moved(s'.db, s.run)
            && RequestsOf(Rows(s')) == RequestsOf(Rows(s))
            && NotRevived(s.db.runs[s.run].status, s'.db.runs[s.run].status)
            && s.log <= s'.log && |s'.log| <= |s.log| + (if InFlight(s) then 1 else 0)
  {
    hide AgentOk, DbOk, Moved, Act, After, NotRevived;
    RunIsJournalHistory(s, events);
    StaleForever(s.db, TraceOf(s, events), s.run);
    StaleEffects(s, events);
  }

  /** An effect has been announced and is about to happen. */
  predicate InFlight(s: AgentState) {
    s.proc.Some? && s.proc.value.pc.Dispatching?
  }

  lemma MovedStaysOut(s: AgentState, e: Event)
    requires DbOk(s.db) && Moved(s.db, s.run)
    ensures InFlight(Act(s, e)) ==> InFlight(s) && Act(s, e).log == s.log
    ensures s.log <= Act(s, e).log && |Act(s, e).log| <= |s.log| + (if InFlight(s) then 1 else 0)
  {
    hide DbOk, Moved, ReplayAllowed, CompletedRows, MaxAttempt, GateOpen, BindingIsCurrent, Step, SetRunStatus;
    MovedGateShut(s.db, s.run);
  }

  lemma {:induction false} StaleEffects(s: AgentState, events: seq<Event>)
    requires DbOk(s.db) && Moved(s.db, s.run)
    ensures s.log <= ActAll(s, events).log
    ensures |ActAll(s, events).log| <= |s.log| + if InFlight(s) then 1 else 0
    decreases |events|
  {
    hide DbOk, Moved, Act;
    if events != [] {
      MovedStaysOut(s, events[0]);
      ActIsJournal(s, events[0]);
      MovedAct(s, events[0]);
      StaleEffects(Act(s, events[0]), events[1..]);
    }
  }

  lemma MovedAct(s: AgentState, e: Event)
    requires DbOk(s.db) && Moved(s.db, s.run)
    ensures Act(s, e).run == s.run && DbOk(Act(s, e).db) && Moved(Act(s, e).db, s.run)
  {
    hide DbOk, Moved, Act, Step, OpOf;
    ActIsJournal(s, e);
    if OpOf(s, e).Some? {
      var t := OpOf(s, e).value;
      StepKeepsDb(s.db, t.op, t.now);
      MovedStep(s.db, t.op, t.now, s.run);
    }
  }
}
