// Where every step of the agent leads: how a run ends, what it asks next, and
// what a tool is answered, for the live loop and for a resume.
module AgentOutcomes {
  import opened Basics
  import opened Json
  import opened GoalTypes
  import opened GoalJournal
  import opened StepTypes
  import opened Runs
  import opened RunTheorems
  import opened Agent
  import opened AgentInvariants
  import opened AgentSteps
  import opened AgentTheorems

  /** No process works on the run any more, and this is its status. */
  ghost predicate Ended(s: AgentState, status: string) {
    s.proc.None? && s.run in s.db.runs && s.db.runs[s.run].status == status
  }

  /** The model asks for tools that it names. */
  predicate WantsTools(r: Response) {
    r.stopReason == "tool_use" && ToolUses(r.content) != []
  }

  /** The journal's newest row is this request, just started. */
  ghost predicate Asked(before: Db, after: Db, run: string, request: StepRequest, attempt: int) {
    exists n :: after.steps == before.steps + [StepRow(run, n, Started, request, None, attempt)]
  }

  /** Nobody else's tables and no other run are different. */
  lemma FinishKeepsGate(db: Db, run: string, n: int, status: StepStatus, result: StepResult)
    ensures GateOpen(db.(steps := WithResult(db.steps, run, n, status, result)), run) <==> GateOpen(db, run)
  {
    hide BindingIsCurrent, WithResult;
  }

  // ---------------------------------------------------------- model responses

  /**
   * With an open gate, a response ends the run: as completed exactly when the model
   * ended its turn, and as failed exactly when it neither ended nor paused it nor
   * asked for a tool. A refusal and an unknown reason fail.
   */
  lemma ReplyDecides(s: AgentState, r: Response)
    requires s.proc.Some? && s.proc.value.pc.Calling? && s.run in s.db.runs && GateOpen(s.db, s.run)
    ensures var told := Act(s, ProviderReply(r));
            var after := Act(told, Tick);
            && (Ended(after, "completed") <==> r.stopReason == "end_turn")
            && (Ended(after, "failed") <==> r.stopReason != "end_turn" && r.stopReason != "pause_turn" && !WantsTools(r))
            && after.log == s.log
            && (GapFree(Rows(s)) ==> OnlyFinished(s.db.steps, told.db.steps, s.run, s.proc.value.pc.n, Completed, Reply(r)))
            && (after.proc.None? ==> after.db.steps == told.db.steps)
  {
    hide GateOpen, WithResult, RowsOf, StartTool, TickTools, OnlyFinished;
    var n := s.proc.value.pc.n;
    FinishKeepsGate(s.db, s.run, n, Completed, Reply(r));
    if GapFree(Rows(s)) {
      FinishRewrites(s.db.steps, s.run, n, Completed, Reply(r));
    }
    var told := Act(s, ProviderReply(r));
    match told.proc.value.pc {
      case Tools(turn) => ToolTurnGoesOn(told, turn);
      case LoopTop(messages, attempt, left) => StartWithOpenGate(told.db, told.run, LlmCall(messages), attempt);
      case Stopping(status) => StopsWith(told, status);
      case _ =>
    }
  }

  /** A process that stops leaves its status, unless a gate it needs is shut. */
  lemma StopsWith(s: AgentState, status: string)
    requires s.proc.Some? && s.proc.value.pc == Stopping(status) && s.run in s.db.runs
    ensures var after := Act(s, Tick);
            && Ended(after, if GateOpen(s.db, s.run) || (status != "running" && status != "completed") then status else "needs_review")
            && after.db.steps == s.db.steps && after.log == s.log && after.run == s.run
  {
    hide BindingIsCurrent;
  }

  lemma StartWithOpenGate(db: Db, run: string, request: StepRequest, attempt: int)
    requires GateOpen(db, run)
    ensures StartStep(db, run, request, attempt).1.Ok?
    ensures var (db', r) := StartStep(db, run, request, attempt);
            db' == db.(steps := db.steps + [StepRow(run, r.value, Started, request, None, attempt)])
  {
    hide GateOpen, RowsOf, MaxSeq;
  }

  lemma ToolTurnGoesOn(s: AgentState, turn: Turn)
    requires s.proc.Some? && s.proc.value.pc == Tools(turn) && TurnShape(turn) && |turn.results| < |turn.uses|
    ensures Act(s, Tick).proc.Some? && Act(s, Tick).log == s.log && Act(s, Tick).run == s.run
  {
    hide StartStep, ReplayAllowed, CompletedRows, MaxAttempt;
  }

  /** A response that arrives after the goal has moved cannot complete the run. */
  lemma ReplyAfterMove(s: AgentState, r: Response)
    requires s.proc.Some? && s.proc.value.pc.Calling? && s.run in s.db.runs && !GateOpen(s.db, s.run)
    ensures var after := Act(Act(s, ProviderReply(r)), Tick);
            && (Ended(after, "needs_review") <== r.stopReason == "end_turn")
            && !Ended(after, "completed")
  {
    hide GateOpen, WithResult, RowsOf, TickTools;
    FinishKeepsGate(s.db, s.run, s.proc.value.pc.n, Completed, Reply(r));
    var told := Act(s, ProviderReply(r));
    match told.proc.value.pc {
      case Tools(turn) => ToolTurnGoesOn(told, turn);
      case Stopping(status) => StopsWith(told, status);
      case LoopTop(messages, attempt, left) => ShutGateParks(told.db, told.run, LlmCall(messages), attempt);
      case _ =>
    }
  }

  lemma ShutGateParks(db: Db, run: string, request: StepRequest, attempt: int)
    requires run in db.runs && !GateOpen(db, run)
    ensures var (db', r) := StartStep(db, run, request, attempt);
            r.Err? && run in db'.runs && db'.runs[run].status == "needs_review" && db'.steps == db.steps
  {
    hide BindingIsCurrent, RowsOf;
  }

  /** A paused turn is continued with the assistant's words appended and nothing else. */
  lemma PauseContinues(s: AgentState, r: Response)
    requires s.proc.Some? && s.proc.value.pc.Calling? && s.run in s.db.runs && GateOpen(s.db, s.run)
    requires r.stopReason == "pause_turn" && s.proc.value.pc.left > 0
    ensures var told := Act(s, ProviderReply(r));
            var after := Act(told, Tick);
            && after.proc.Some? && after.proc.value.pc.Calling?
            && Asked(told.db, after.db, s.run, LlmCall(s.proc.value.pc.messages + [Assistant(r.content)]), 1)
  {
    hide GateOpen, WithResult, RowsOf;
    FinishKeepsGate(s.db, s.run, s.proc.value.pc.n, Completed, Reply(r));
    var told := Act(s, ProviderReply(r));
    StartWithOpenGate(told.db, told.run, LlmCall(told.proc.value.pc.messages), 1);
  }

  /** A response that asks for tools gets the first of them announced, with its own name, input and id. */
  lemma FirstToolIsAnnounced(s: AgentState, r: Response)
    requires s.proc.Some? && s.proc.value.pc.Calling? && s.run in s.db.runs && GateOpen(s.db, s.run) && WantsTools(r)
    ensures var told := Act(s, ProviderReply(r));
            var after := Act(told, Tick);
            var use := ToolUses(r.content)[0];
            var contract := ContractOf(s.proc.value.cfg, use.name);
            && after.proc.Some? && after.log == s.log
            && (contract.Some? && !ValidContract(contract.value) ==> after.db == told.db)
            && (contract.None? || ValidContract(contract.value) ==>
                  after.proc.value.pc.Dispatching?
                  && Asked(told.db, after.db, s.run, ToolCall(use.name, use.input, use.id, ToolKey(s.run, use.id), contract), 1))
  {
    hide GateOpen, WithResult, RowsOf, ValidContract;
    FinishKeepsGate(s.db, s.run, s.proc.value.pc.n, Completed, Reply(r));
    var told := Act(s, ProviderReply(r));
    AnnouncesNext(told, told.proc.value.pc.turn, 1);
  }

  lemma AnnouncesNext(s: AgentState, turn: Turn, attempt: int)
    requires s.proc.Some? && |turn.results| < |turn.uses| && turn.uses[|turn.results|].ToolUse? && GateOpen(s.db, s.run)
    ensures var after := StartTool(s, turn, attempt);
            var use := turn.uses[|turn.results|];
            var contract := ContractOf(s.proc.value.cfg, use.name);
            && after.proc.Some? && after.log == s.log && after.run == s.run
            && (contract.Some? && !ValidContract(contract.value) ==>
                  after.db == s.db
                  && after.proc.value.pc
                     == Tools(turn.(results := turn.results + [ToolResult(use.id, "Error: invalid tool resume contract", true)])))
            && (contract.None? || ValidContract(contract.value) ==>
                  after.proc.value.pc.Dispatching? && after.proc.value.pc.turn == turn
                  && Asked(s.db, after.db, s.run, ToolCall(use.name, use.input, use.id, ToolKey(s.run, use.id), contract), attempt))
  {
    hide GateOpen, RowsOf, ValidContract;
    var use := turn.uses[|turn.results|];
    var contract := ContractOf(s.proc.value.cfg, use.name);
    var request := ToolCall(use.name, use.input, use.id, ToolKey(s.run, use.id), contract);
    StartWithOpenGate(s.db, s.run, request, attempt);
  }

  /** A model call that fails is journaled as failed, and so is the run. */
  lemma ProviderFailureFails(s: AgentState, error: string)
    requires s.proc.Some? && s.proc.value.pc.Calling? && s.run in s.db.runs && GapFree(Rows(s))
    ensures var told := Act(s, ProviderError(error));
            && OnlyFinished(s.db.steps, told.db.steps, s.run, s.proc.value.pc.n, Failed, Failure(error))
            && Ended(Act(told, Tick), "failed") && Act(told, Tick).db.steps == told.db.steps
  {
    hide WithResult, RowsOf, OnlyFinished;
    FinishRewrites(s.db.steps, s.run, s.proc.value.pc.n, Failed, Failure(error));
    StopsWith(Act(s, ProviderError(error)), "failed");
  }

  // ------------------------------------------------------------- tool outcomes

  /** The turn with one more answer. */
  function Answered(turn: Turn, result: ToolResult): Turn {
    turn.(results := turn.results + [result])
  }

  /**
   * An outcome is journaled and answered: a success with its content, a failure as an
   * error with its text; an outcome that cannot be known parks the run for review.
   */
  lemma OutcomeIsAnswered(s: AgentState, turn: Turn, n: int, outcome: Outcome)
    requires s.proc.Some? && s.proc.value.pc == Settling(turn, n, outcome) && s.run in s.db.runs && GapFree(Rows(s))
    requires TurnShape(turn) && |turn.results| < |turn.uses|
    ensures var after := Act(s, Tick);
            var id := turn.uses[|turn.results|].id;
            && match outcome
               case Success(content) =>
                 && OnlyFinished(s.db.steps, after.db.steps, s.run, n, Completed, Content(content))
                 && after.proc.Some? && after.proc.value.pc == Tools(Answered(turn, ToolResult(id, content, false)))
               case Errored(error) =>
                 && OnlyFinished(s.db.steps, after.db.steps, s.run, n, Failed, Failure(error))
                 && after.proc.Some? && after.proc.value.pc == Tools(Answered(turn, ToolResult(id, "Error: " + error, true)))
               case Ambiguous(error) =>
                 && OnlyFinished(s.db.steps, after.db.steps, s.run, n, Failed, Failure(error))
                 && Ended(Act(after, Tick), "needs_review") && Act(after, Tick).db.steps == after.db.steps
  {
    hide WithResult, RowsOf, OnlyFinished;
    match outcome
    case Success(content) => FinishRewrites(s.db.steps, s.run, n, Completed, Content(content));
    case Errored(error) => FinishRewrites(s.db.steps, s.run, n, Failed, Failure(error));
    case Ambiguous(error) =>
      FinishRewrites(s.db.steps, s.run, n, Failed, Failure(error));
      StopsWith(Act(s, Tick), "needs_review");
  }

  /** A private tool of the live loop whose input is refused is answered as an error, and no row is written. */
  lemma RefusalIsAnswered(s: AgentState, turn: Turn, error: string)
    requires s.proc.Some? && s.proc.value.pc == Tools(turn) && turn.snapshot.None?
    requires TurnShape(turn) && |turn.results| < |turn.uses|
    ensures var use := turn.uses[|turn.results|];
            var after := Act(s, RejectPrivate(error));
            && after.db == s.db && after.log == s.log
            && (use.name == "decision_audit_append" || use.name == "decision_audit_read" ==>
                  after.proc.Some? && after.proc.value.pc == Tools(Answered(turn, ToolResult(use.id, "Error: " + error, true))))
            && (use.name != "decision_audit_append" && use.name != "decision_audit_read" ==> after == s)
  {
    hide ReplayAllowed, CompletedRows;
  }

  /** When every tool of a live turn is answered, the answers go to the model in one message. */
  lemma AnswersAreSent(s: AgentState, turn: Turn)
    requires s.proc.Some? && s.proc.value.pc == Tools(turn) && TurnShape(turn) && |turn.results| == |turn.uses|
    requires s.run in s.db.runs && GateOpen(s.db, s.run) && turn.snapshot.None? && turn.left > 0
    ensures var after := Act(Act(s, Tick), Tick);
            && after.proc.Some? && after.proc.value.pc.Calling?
            && Asked(s.db, after.db, s.run, LlmCall(turn.messages + [ToolResults(turn.results)]), 1)
  {
    hide GateOpen, RowsOf;
    StartWithOpenGate(s.db, s.run, LlmCall(turn.messages + [ToolResults(turn.results)]), 1);
  }

  /** The tools of a response are all its tool-use blocks, in order. */
  lemma {:induction false} ToolUsesInOrder(before: seq<Block>, block: Block, rest: seq<Block>)
    ensures ToolUses(before + [block] + rest)
            == ToolUses(before) + (if block.ToolUse? then [block] else []) + ToolUses(rest)
    decreases |before|
  {
    var content := before + [block] + rest;
    if before == [] {
      assert content[1..] == rest;
    } else {
      assert content[1..] == before[1..] + [block] + rest;
      ToolUsesInOrder(before[1..], block, rest);
    }
  }

  /** In every run, exactly the tools without a completed row are answered as errors. */
  lemma FailedToolsAreErrors(start: AgentState, events: seq<Event>, i: nat, j: nat)
    requires Initial(start) && AdmissibleAll(start, events)
    requires var rows := Rows(ActAll(start, events));
             && i < j < |rows| && rows[i].request.LlmCall? && rows[j].request.LlmCall?
             && (forall k :: i < k < j ==> !rows[k].request.LlmCall?)
             && rows[i].status == Completed && ReplyOf(rows[i]).stopReason == "tool_use"
    ensures var rows := Rows(ActAll(start, events));
            var uses := ToolUses(ReplyOf(rows[i]).content);
            exists results: seq<ToolResult> ::
              && rows[j].request.messages
                 == rows[i].request.messages + [Assistant(ReplyOf(rows[i]).content), ToolResults(results)]
              && |results| == |uses|
              && forall k :: 0 <= k < |uses| ==>
                   results[k].toolUseId == uses[k].id
                   && (results[k].isError <==>
                         forall m :: 0 <= m < j && ToolRow(rows[m], uses[k].id) ==> rows[m].status != Completed)
                   && (results[k].isError ==> "Error: " <= results[k].content)
  {
    hide Initial, ActAll, AdmissibleAll, ReplyOf, ToolUses;
    ToolTurnsAreAnswered(start, events, i, j);
    var rows := Rows(ActAll(start, events));
    var uses := ToolUses(ReplyOf(rows[i]).content);
    var results: seq<ToolResult> :|
      && rows[j].request.messages == rows[i].request.messages + [Assistant(ReplyOf(rows[i]).content), ToolResults(results)]
      && |results| == |uses| && (forall k :: 0 <= k < |uses| ==> results[k].toolUseId == uses[k].id)
      && ResultsAgree(rows[..j], uses, results);
    forall k | 0 <= k < |uses|
      ensures results[k].isError <==> forall m :: 0 <= m < j && ToolRow(rows[m], uses[k].id) ==> rows[m].status != Completed
      ensures results[k].isError ==> "Error: " <= results[k].content
    {
      ErrorExactly(rows, j, uses, results, k);
    }
  }

  lemma ErrorExactly(rows: seq<StepRow>, j: nat, uses: seq<Block>, results: seq<ToolResult>, k: nat)
    requires (forall i :: 0 <= i < |uses| ==> uses[i].ToolUse?) && |results| == |uses| && k < |uses| && j <= |rows|
    requires ResultsAgree(rows[..j], uses, results)
    ensures results[k].isError <==> forall m :: 0 <= m < j && ToolRow(rows[m], uses[k].id) ==> rows[m].status != Completed
    ensures results[k].isError ==> "Error: " <= results[k].content
  {
    if m: nat :| m < j && ToolRow(rows[m], uses[k].id) && rows[m].status == Completed {
      assert rows[..j][m] == rows[m];
    } else {
      assert !Done(rows[..j], uses[k].id);
    }
  }

  // ------------------------------------------------------------------- resume

  /** A resume goes on only with an open gate and an unfinished run; otherwise it parks the run or leaves it alone. */
  lemma ResumeDecides(s: AgentState, cfg: Config)
    requires s.proc.None? && s.run in s.db.runs
    ensures var on := Act(s, Resume(cfg));
            && on.db.steps == s.db.steps && on.log == s.log && on.run == s.run
            && (!GateOpen(s.db, s.run) ==> Ended(on, "needs_review"))
            && (GateOpen(s.db, s.run) && s.db.runs[s.run].status == "completed" ==> on == s)
            && (GateOpen(s.db, s.run) && s.db.runs[s.run].status != "completed" ==>
                  on.db == s.db && on.proc.Some? && on.proc.value.cfg == cfg)
  {
    hide BindingIsCurrent, ResumePc;
  }

  /** What an unfinished run with an open gate resumes to. */
  ghost predicate Resumable(s: AgentState) {
    s.proc.None? && s.run in s.db.runs && GateOpen(s.db, s.run) && s.db.runs[s.run].status != "completed"
  }

  /** With no model request in the journal, the run's own input is asked. */
  lemma ResumeFromNothing(s: AgentState, cfg: Config)
    requires Resumable(s) && forall i :: 0 <= i < |Rows(s)| ==> !Rows(s)[i].request.LlmCall?
    ensures var after := Ticks(Act(s, Resume(cfg)), 2);
            && after.proc.Some? && after.proc.value.pc.Calling? && after.db.runs[s.run].status == "running"
            && Asked(s.db, after.db, s.run, LlmCall([UserPrompt(s.db.runs[s.run].input)]), 1)
  {
    hide GateOpen, RowsOf, LastLlm;
    NoLastLlm(Rows(s));
    RestartAsks(s, cfg, [UserPrompt(s.db.runs[s.run].input)], 1);
  }

  lemma {:induction false} NoLastLlm(rows: seq<StepRow>)
    requires forall i :: 0 <= i < |rows| ==> !rows[i].request.LlmCall?
    ensures LastLlm(rows) == None
    decreases |rows|
  {
    if rows != [] {
      NoLastLlm(rows[..|rows| - 1]);
    }
  }

  lemma ResumeOpens(s: AgentState, cfg: Config)
    requires Resumable(s)
    ensures Act(s, Resume(cfg)) == s.(proc := Some(Live(cfg, ResumePc(Rows(s), s.db.runs[s.run].input))))
  {
    hide BindingIsCurrent, ResumePc;
  }

  lemma RestartAsks(s: AgentState, cfg: Config, messages: seq<Message>, attempt: int)
    requires Resumable(s) && ResumePc(Rows(s), s.db.runs[s.run].input) == Restarting(messages, attempt)
    ensures var after := Ticks(Act(s, Resume(cfg)), 2);
            && after.proc.Some? && after.proc.value.pc.Calling? && s.run in after.db.runs
            && after.db.runs[s.run].status == "running"
            && Asked(s.db, after.db, s.run, LlmCall(messages), attempt)
  {
    hide RowsOf, ResumePc, BindingIsCurrent, LastLlm;
    ResumeOpens(s, cfg);
    var on := Act(s, Resume(cfg));
    var running := Act(on, Tick);
    RunningAgain(s.db, s.run);
    assert running.proc.value.pc == LoopTop(messages, attempt, MAX_LOOP_STEPS);
    StartWithOpenGate(running.db, s.run, LlmCall(messages), attempt);
    assert Ticks(on, 2) == Ticks(running, 1) == Ticks(Act(running, Tick), 0) == Act(running, Tick);
  }

  lemma RunningAgain(db: Db, run: string)
    requires GateOpen(db, run) && run in db.runs
    ensures var (db', r) := SetRunStatus(db, run, "running");
            r.Ok? && GateOpen(db', run) && OnlyStatus(db, db', run, "running")
  {
    hide BindingIsCurrent;
  }

  /** An interrupted or failed model request is asked again, unchanged, as its next attempt. */
  lemma ResumeAsksAgain(s: AgentState, cfg: Config, i: nat)
    requires Resumable(s) && i < |Rows(s)| && Rows(s)[i].request.LlmCall? && Rows(s)[i].status != Completed
    requires forall k :: i < k < |Rows(s)| ==> !Rows(s)[k].request.LlmCall?
    ensures var after := Ticks(Act(s, Resume(cfg)), 2);
            && after.proc.Some? && after.proc.value.pc.Calling? && s.run in after.db.runs && after.db.runs[s.run].status == "running"
            && Asked(s.db, after.db, s.run, Rows(s)[i].request, Rows(s)[i].attempt + 1)
  {
    hide GateOpen, RowsOf, LastLlm;
    LastLlmIs(Rows(s), i, |Rows(s)|);
    assert Rows(s)[..|Rows(s)|] == Rows(s);
    RestartAsks(s, cfg, Rows(s)[i].request.messages, Rows(s)[i].attempt + 1);
  }

  /**
   * A resume that finds the newest model request answered does what the live loop does
   * with that answer: it completes the run exactly when the turn had ended, fails it
   * exactly when the answer neither ended nor paused nor asked for a tool, and
   * continues a pause with the assistant's words appended.
   */
  lemma ResumedReplyDecides(s: AgentState, cfg: Config, i: nat, r: Response)
    requires Resumable(s) && i < |Rows(s)| && Rows(s)[i].request.LlmCall? && Rows(s)[i].status == Completed
    requires Rows(s)[i].result == Some(Reply(r))
    requires forall k :: i < k < |Rows(s)| ==> !Rows(s)[k].request.LlmCall?
    ensures var on := Act(s, Resume(cfg));
            var after := Act(on, Tick);
            && (Ended(after, "completed") <==> r.stopReason == "end_turn")
            && (Ended(after, "failed") <==> r.stopReason != "end_turn" && r.stopReason != "pause_turn" && !WantsTools(r))
            && after.log == s.log && (after.proc.None? ==> after.db.steps == s.db.steps)
            && (r.stopReason == "pause_turn" ==>
                  var next := Ticks(on, 2);
                  && next.proc.Some? && next.proc.value.pc.Calling?
                  && Asked(s.db, next.db, s.run, LlmCall(Rows(s)[i].request.messages + [Assistant(r.content)]), 1))
  {
    hide GateOpen, RowsOf, LastLlm, TickTools, Ticks;
    LastLlmIs(Rows(s), i, |Rows(s)|);
    assert Rows(s)[..|Rows(s)|] == Rows(s);
    ResumeOpens(s, cfg);
    var on := Act(s, Resume(cfg));
    match on.proc.value.pc {
      case Tools(turn) => ToolTurnGoesOn(on, turn);
      case Stopping(status) => StopsWith(on, status);
      case Restarting(messages, attempt) =>
        RunningAgain(s.db, s.run);
        RestartAsks(s, cfg, messages, attempt);
      case _ =>
    }
  }

  /** A resumed response that asked for tools has them answered in order, from what the journal said at the resume. */
  lemma ResumedToolsAreTaken(s: AgentState, cfg: Config, i: nat, r: Response)
    requires Resumable(s) && i < |Rows(s)| && Rows(s)[i].request.LlmCall? && Rows(s)[i].status == Completed
    requires Rows(s)[i].result == Some(Reply(r)) && WantsTools(r)
    requires forall k :: i < k < |Rows(s)| ==> !Rows(s)[k].request.LlmCall?
    ensures var turn := Turn(Rows(s)[i].request.messages + [Assistant(r.content)], ToolUses(r.content), [], Some(Rows(s)), 0);
            Act(s, Resume(cfg)) == s.(proc := Some(Live(cfg, Tools(turn))))
  {
    hide GateOpen, RowsOf, LastLlm;
    LastLlmIs(Rows(s), i, |Rows(s)|);
    assert Rows(s)[..|Rows(s)|] == Rows(s);
    ResumeOpens(s, cfg);
  }

  /** This row was made by the same call under the same valid idempotent contract, and can be counted on. */
  predicate SameCall(row: StepRow, run: string, use: Block, contract: Contract)
    requires use.ToolUse? && row.request.ToolCall?
  {
    row.request.name == use.name && Same(row.request.input, use.input)
    && row.request.key == Some("beater:" + run + ":tool:" + use.id)
    && 0 < row.attempt < 0x7FFF_FFFF_FFFF_FFFF && row.request.contract == Some(contract)
  }

  /** The tool is declared idempotent today, and every given row for the id was the same call. */
  ghost predicate MayStandIn(rows: seq<StepRow>, run: string, use: Block, cfg: Config)
    requires use.ToolUse?
  {
    use.id != "" && use.name in cfg.contracts
    && var contract := cfg.contracts[use.name];
       && ValidContract(contract) && contract.idempotent && contract.name == use.name
       && (exists i :: 0 <= i < |rows| && ToolRow(rows[i], use.id))
       && forall i :: 0 <= i < |rows| && ToolRow(rows[i], use.id) ==> SameCall(rows[i], run, use, contract)
  }

  lemma StandInIsReplay(rows: seq<StepRow>, run: string, use: Block, cfg: Config)
    requires use.ToolUse?
    ensures MayStandIn(rows, run, use, cfg) <==> ReplayAllowed(rows, run, use.name, use.id, use.input, ContractOf(cfg, use.name))
  {
    if use.name in cfg.contracts && use.id != "" {
      forall i | 0 <= i < |rows| && ToolRow(rows[i], use.id)
        ensures SameCall(rows[i], run, use, cfg.contracts[use.name])
                <==> RowAllowsReplay(rows[i], run, use.name, use.id, use.input, cfg.contracts[use.name])
      {
      }
    }
  }

  /**
   * What a resume does with the next tool of an interrupted turn. The one completed row
   * answers for it if it was the same call; with no completed row the call is repeated,
   * as the next attempt, if every earlier row was the same call; anything else parks the
   * run for review without a write or an effect.
   */
  lemma ResumedToolDecides(s: AgentState, turn: Turn, rows: seq<StepRow>)
    requires s.proc.Some? && s.proc.value.pc == Tools(turn) && turn.snapshot == Some(rows)
    requires TurnShape(turn) && |turn.results| < |turn.uses| && s.run in s.db.runs && GateOpen(s.db, s.run)
    ensures var use := turn.uses[|turn.results|];
            var cfg := s.proc.value.cfg;
            var done := CompletedRows(rows, use.id);
            var after := Act(s, Tick);
            && after.log == s.log
            && if |done| == 1 && MayStandIn(done, s.run, use, cfg) then
                 after.db == s.db && after.proc.Some?
                 && after.proc.value.pc == Tools(Answered(turn, ToolResult(use.id, ContentOf(done[0]), false)))
               else if !Done(rows, use.id) && MayStandIn(rows, s.run, use, cfg) then
                 after.proc.Some? && after.proc.value.pc.Dispatching? && after.proc.value.pc.turn == turn
                 && exists attempt ::
                      && (forall i :: 0 <= i < |rows| && ToolRow(rows[i], use.id) ==> rows[i].attempt < attempt)
                      && (exists i :: 0 <= i < |rows| && ToolRow(rows[i], use.id) && rows[i].attempt == attempt - 1)
                      && Asked(s.db, after.db, s.run,
                               ToolCall(use.name, use.input, use.id, ToolKey(s.run, use.id), Some(cfg.contracts[use.name])), attempt)
               else Ended(Act(after, Tick), "needs_review") && Act(after, Tick).db.steps == s.db.steps && Act(after, Tick).log == s.log
  {
    hide GateOpen, RowsOf, StartTool, ReplayAllowed, CompletedRows, MaxAttempt, Asked, MayStandIn, ValidContract;
    var use := turn.uses[|turn.results|];
    var cfg := s.proc.value.cfg;
    var done := CompletedRows(rows, use.id);
    NoneDone(rows, use.id);
    StandInIsReplay(done, s.run, use, cfg);
    StandInIsReplay(rows, s.run, use, cfg);
    if |done| == 1 && MayStandIn(done, s.run, use, cfg) {
    } else if done == [] && MayStandIn(rows, s.run, use, cfg) {
      var attempt := MaxAttempt(rows, use.id) + 1;
      AnnouncesNext(s, turn, attempt);
      NextAttempt(rows, s.run, use, cfg);
    } else {
      StopsWith(Act(s, Tick), "needs_review");
    }
  }

  lemma NoneDone(rows: seq<StepRow>, id: string)
    ensures CompletedRows(rows, id) == [] <==> !Done(rows, id)
  {
    var done := CompletedRows(rows, id);
    if Done(rows, id) {
      var i :| 0 <= i < |rows| && ToolRow(rows[i], id) && rows[i].status == Completed;
      assert rows[i] in done;
    }
  }

  lemma NextAttempt(rows: seq<StepRow>, run: string, use: Block, cfg: Config)
    requires use.ToolUse? && MayStandIn(rows, run, use, cfg)
    ensures var attempt := MaxAttempt(rows, use.id) + 1;
            && (forall i :: 0 <= i < |rows| && ToolRow(rows[i], use.id) ==> rows[i].attempt < attempt)
            && (exists i :: 0 <= i < |rows| && ToolRow(rows[i], use.id) && rows[i].attempt == attempt - 1)
            && ContractOf(cfg, use.name) == Some(cfg.contracts[use.name]) && ValidContract(cfg.contracts[use.name])
  {
    hide MaxAttempt, ValidContract;
  }

  // ------------------------------------------------------------------- budget

  /** How many model requests the rows hold. */
  function Calls(rows: seq<StepRow>): nat {
    if rows == [] then 0 else Calls(rows[..|rows| - 1]) + if rows[|rows| - 1].request.LlmCall? then 1 else 0
  }

  lemma CallsAppend(rows: seq<StepRow>, row: StepRow)
    ensures Calls(rows + [row]) == Calls(rows) + if row.request.LlmCall? then 1 else 0
  {
    assert (rows + [row])[..|rows|] == rows;
  }

  lemma {:induction false} CallsOfRequests(a: seq<StepRow>, b: seq<StepRow>)
    requires RequestsOf(a) == RequestsOf(b)
    ensures Calls(a) == Calls(b)
    decreases |a|
  {
    assert |RequestsOf(a)| == |a| && |RequestsOf(b)| == |b|;
    if a != [] {
      var last := |a| - 1;
      assert RequestsOf(a)[last] == RequestsOf(b)[last];
      forall i | 0 <= i < last
        ensures RequestsOf(a[..last])[i] == RequestsOf(b[..last])[i]
      {
        assert RequestsOf(a)[i] == RequestsOf(b)[i];
      }
      assert RequestsOf(a[..last]) == RequestsOf(b[..last]);
      CallsOfRequests(a[..last], b[..last]);
    }
  }

  /** Between two resumes, the calls made and the calls left add up to the total. */
  ghost predicate Within(s: AgentState, total: nat) {
    var made := Calls(Rows(s));
    && s.run in s.db.runs && made <= total
    && (s.proc.Some? ==>
          match s.proc.value.pc
          case LoopTop(_, _, left) => made + left == total
          case Calling(_, _, left) => made + left == total
          case Tools(turn) => turn.snapshot.None? && made + turn.left == total
          case Dispatching(turn, _) => turn.snapshot.None? && made + turn.left == total
          case Settling(turn, _, _) => turn.snapshot.None? && made + turn.left == total
          case Restarting(_, _) => false
          case Stopping(_) => true)
  }

  lemma FinishKeepsCalls(db: Db, run: string, target: string, n: int, status: StepStatus, result: StepResult)
    ensures Calls(RowsOf(WithResult(db.steps, target, n, status, result), run)) == Calls(RowsOf(db.steps, run))
  {
    hide RowsOf, WithResult, RequestsOf, Calls;
    RowsOfWithResult(db.steps, target, n, status, result, run);
    FinishKeepsRequests(RowsOf(db.steps, run), target, n, status, result);
    CallsOfRequests(WithResult(RowsOf(db.steps, run), target, n, status, result), RowsOf(db.steps, run));
  }

  lemma StartCounts(db: Db, run: string, request: StepRequest, attempt: int)
    requires run in db.runs
    ensures var (db', r) := StartStep(db, run, request, attempt);
            && run in db'.runs
            && Calls(RowsOf(db'.steps, run)) == Calls(RowsOf(db.steps, run)) + if r.Ok? && request.LlmCall? then 1 else 0
  {
    hide GateOpen, RowsOf, MaxSeq, Calls;
    if GateOpen(db, run) {
      var (db', r) := StartStep(db, run, request, attempt);
      StartWithOpenGate(db, run, request, attempt);
      var row := StepRow(run, r.value, Started, request, None, attempt);
      RowsOfAppend(db.steps, row, run);
      CallsAppend(RowsOf(db.steps, run), row);
    } else {
      ShutGateParks(db, run, request, attempt);
    }
  }

  lemma ActStaysWithin(s: AgentState, e: Event, total: nat)
    requires Within(s, total) && Admissible(s, e) && !e.Resume?
    ensures Within(Act(s, e), total)
  {
    hide RowsOf, Calls, WithResult, StartStep, SetRunStatus, Step, ReplayAllowed, CompletedRows, MaxAttempt, FreshIds, ToolUses, Foreign,
         GateGoalRun, TickTools;
    match e
    case Other(op, now) => ForeignKeepsRun(s.db, op, now, s.run);
    case ProviderReply(response) =>
      if s.proc.Some? && s.proc.value.pc.Calling? {
        FinishKeepsCalls(s.db, s.run, s.run, s.proc.value.pc.n, Completed, Reply(response));
      }
    case ProviderError(error) =>
      if s.proc.Some? && s.proc.value.pc.Calling? {
        FinishKeepsCalls(s.db, s.run, s.run, s.proc.value.pc.n, Failed, Failure(error));
      }
    case Tick =>
      if s.proc.Some? {
        match s.proc.value.pc {
          case LoopTop(messages, attempt, left) => StartCounts(s.db, s.run, LlmCall(messages), attempt);
          case Tools(turn) => ToolsStayWithin(s, turn, total);
          case Settling(turn, n, outcome) =>
            FinishKeepsCalls(s.db, s.run, s.run, n, if outcome.Success? then Completed else Failed,
                             if outcome.Success? then Content(outcome.content) else Failure(outcome.error));
          case Stopping(status) => StatusKeepsRows(s.db, s.run, status);
          case _ =>
        }
      }
    case _ =>
  }

  lemma ToolsStayWithin(s: AgentState, turn: Turn, total: nat)
    requires Within(s, total) && s.proc.Some? && s.proc.value.pc == Tools(turn)
    ensures Within(TickTools(s, turn), total)
  {
    hide RowsOf, Calls, StartStep, ValidContract;
    if TurnShape(turn) && |turn.results| < |turn.uses| {
      var use := turn.uses[|turn.results|];
      StartCounts(s.db, s.run, ToolCall(use.name, use.input, use.id, ToolKey(s.run, use.id), ContractOf(s.proc.value.cfg, use.name)), 1);
    }
  }

  lemma {:induction false} RunStaysWithin(s: AgentState, events: seq<Event>, total: nat)
    requires Within(s, total) && AdmissibleAll(s, events) && forall i :: 0 <= i < |events| ==> !events[i].Resume?
    ensures Within(ActAll(s, events), total) && ActAll(s, events).run == s.run
    decreases |events|
  {
    hide Within, Act, Admissible;
    if events != [] {
      ActStaysWithin(s, events[0], total);
      ActIsJournal(s, events[0]);
      RunStaysWithin(Act(s, events[0]), events[1..], total);
    }
  }

  /**
   * A process that enters its loop makes at most 50 model calls, whatever happens
   * around it, and one that comes back after the 50th fails the run.
   */
  lemma FiftyCallsAtMost(s: AgentState, events: seq<Event>, messages: seq<Message>, attempt: int)
    requires s.proc.Some? && s.run in s.db.runs && s.proc.value.pc == LoopTop(messages, attempt, MAX_LOOP_STEPS)
    requires AdmissibleAll(s, events) && forall i :: 0 <= i < |events| ==> !events[i].Resume?
    ensures var s' := ActAll(s, events);
            && Calls(Rows(s')) <= Calls(Rows(s)) + 50
            && (s'.proc.Some? && s'.proc.value.pc.LoopTop? && Calls(Rows(s')) == Calls(Rows(s)) + 50 ==>
                  Ended(Act(Act(s', Tick), Tick), "failed") && Act(Act(s', Tick), Tick).db.steps == s'.db.steps)
            && (s'.proc.Some? && s'.proc.value.pc.LoopTop? && Calls(Rows(s')) < Calls(Rows(s)) + 50 && GateOpen(s'.db, s'.run) ==>
                  Act(s', Tick).proc.Some? && Act(s', Tick).proc.value.pc.Calling?)
  {
    hide RowsOf, Calls, ActAll, AdmissibleAll, SetRunStatus, GateOpen;
    RunStaysWithin(s, events, Calls(Rows(s)) + 50);
    var s' := ActAll(s, events);
    if s'.proc.Some? && s'.proc.value.pc.LoopTop? {
      var pc := s'.proc.value.pc;
      if pc.left == 0 {
        StopsWith(Act(s', Tick), "failed");
      } else if GateOpen(s'.db, s'.run) {
        StartWithOpenGate(s'.db, s'.run, LlmCall(pc.messages), pc.attempt);
      }
    }
  }

  // ------------------------------------------------------------ from the caller

  /** No transaction changes what a run was created with, or removes it. */
  lemma StepKeepsInput(db: Db, op: JournalOp, now: int, run: string)
    requires run in db.runs
    ensures var db' := Step(db, op, now);
            run in db'.runs && db'.runs[run].input == db.runs[run].input && db'.runs[run].agent == db.runs[run].agent
  {
    hide Apply, BindingIsCurrent, RowsOf, MaxSeq, WithResult;
  }

  lemma {:induction false} HistoryKeepsInput(db: Db, ops: seq<TimedOp>, run: string)
    requires run in db.runs
    ensures var db' := After(db, ops);
            run in db'.runs && db'.runs[run].input == db.runs[run].input && db'.runs[run].agent == db.runs[run].agent
  {
    hide Step;
    if ops != [] {
      var last := |ops| - 1;
      HistoryKeepsInput(db, ops[..last], run);
      StepKeepsInput(After(db, ops[..last]), ops[last].op, ops[last].now, run);
    }
  }

  /** Every step row belongs to a run. */
  ghost predicate StepsOwned(db: Db) {
    forall i :: 0 <= i < |db.steps| ==> db.steps[i].run in db.runs
  }

  lemma StepKeepsOwned(db: Db, op: JournalOp, now: int)
    requires StepsOwned(db)
    ensures StepsOwned(Step(db, op, now))
  {
    hide Apply, BindingIsCurrent, RowsOf, MaxSeq;
  }

  lemma {:induction false} HistoryOwnsSteps(ops: seq<TimedOp>)
    ensures StepsOwned(After(EMPTY_DB, ops))
  {
    hide Step, StepsOwned;
    if ops == [] {
      assert StepsOwned(EMPTY_DB) by { NoSteps(); }
    } else {
      var last := |ops| - 1;
      HistoryOwnsSteps(ops[..last]);
      StepKeepsOwned(After(EMPTY_DB, ops[..last]), ops[last].op, ops[last].now);
    }
  }

  lemma NoSteps()
    ensures StepsOwned(EMPTY_DB)
  {
  }

  lemma {:induction false} NoRowsOfUnknown(steps: seq<StepRow>, run: string)
    requires forall i :: 0 <= i < |steps| ==> steps[i].run != run
    ensures RowsOf(steps, run) == []
  {
    if steps != [] {
      NoRowsOfUnknown(steps[1..], run);
    }
  }

  /**
   * From the caller to the model: a bound run created in any reachable journal is, however
   * often it crashes and is resumed, first asked about exactly the caller's input.
   */
  lemma CallerInputIsAsked(ops: seq<TimedOp>, scope: GoalScope, goalId: string, expected: int, id: string, agent: string, input: string,
                           events: seq<Event>, i: nat)
    requires CreateGoalBoundRun(After(EMPTY_DB, ops), scope, goalId, expected, id, agent, input).1.Ok?
    requires var db := CreateGoalBoundRun(After(EMPTY_DB, ops), scope, goalId, expected, id, agent, input).0;
             var start := AgentState(db, id, None, []);
             && AdmissibleAll(start, events)
             && var rows := Rows(ActAll(start, events));
                i < |rows| && rows[i].request.LlmCall? && forall k :: 0 <= k < i ==> !rows[k].request.LlmCall?
    ensures var db := CreateGoalBoundRun(After(EMPTY_DB, ops), scope, goalId, expected, id, agent, input).0;
            var s := ActAll(AgentState(db, id, None, []), events);
            && Rows(s)[i].request == LlmCall([UserPrompt(input)]) && Rows(s)[i].attempt == 1
            && id in s.db.runs && s.db.runs[id].agent == agent && s.db.runs[id].input == input
  {
    hide After, AgentOk, ActAll, AdmissibleAll, BindingIsCurrent, ValidNewRun, ValidScope, ValidIdentifier, RowsOf, CreateGoalBoundRun,
         TraceOf;
    var before := After(EMPTY_DB, ops);
    BoundRunIsCreated(ops, scope, goalId, expected, id, agent, input);
    var db := CreateGoalBoundRun(before, scope, goalId, expected, id, agent, input).0;
    HistoryOwnsSteps(ops);
    NoRowsOfUnknown(before.steps, id);
    var start := AgentState(db, id, None, []);
    assert Initial(start);
    FirstCallIsInput(start, events, i);
    RunIsJournalHistory(start, events);
    HistoryKeepsInput(db, TraceOf(start, events), id);
  }

  lemma FirstCallIsInput(start: AgentState, events: seq<Event>, i: nat)
    requires Initial(start) && AdmissibleAll(start, events)
    requires var rows := Rows(ActAll(start, events));
             i < |rows| && rows[i].request.LlmCall? && forall k :: 0 <= k < i ==> !rows[k].request.LlmCall?
    ensures var s := ActAll(start, events);
            && s.run in s.db.runs
            && Rows(s)[i].request == LlmCall([UserPrompt(s.db.runs[s.run].input)]) && Rows(s)[i].attempt == 1
  {
    hide Initial, ActAll, AdmissibleAll, GapFree, PairsOk, ToolRowsOk, LlmIdsDistinct, PcOk, LogOk, LastLlm;
    ReachableOk(start, events);
    var s := ActAll(start, events);
    var rows := Rows(s);
    assert Follows(rows[..i], s.db.runs[s.run].input, rows[i].request.messages, rows[i].attempt);
    NoLastLlm(rows[..i]);
  }
}
