// Each step of the agent keeps the invariant.
module AgentSteps {
  import opened Basics
  import opened GoalJournal
  import opened StepTypes
  import opened Runs
  import opened Agent
  import opened AgentInvariants

  // ----------------------------------------------------- steps on rows alone

  lemma AnswerKeepsTurn(rows: seq<StepRow>, turn: Turn, content: string, isError: bool)
    requires TurnOk(rows, turn) && |turn.results| < |turn.uses|
    requires forall i :: 0 <= i < |rows| && ToolRow(rows[i], turn.uses[|turn.results|].id) && rows[i].status == Completed ==>
               !isError && content == ContentOf(rows[i])
    requires Done(rows, turn.uses[|turn.results|].id) || (isError && "Error: " <= content)
    ensures TurnOk(rows, Answer(turn, content, isError))
  {
  }

  lemma TurnEnds(rows: seq<StepRow>, input: string, turn: Turn)
    requires TurnOk(rows, turn) && |turn.results| == |turn.uses|
    ensures Follows(rows, input, turn.messages + [ToolResults(turn.results)], 1)
  {
    var messages := turn.messages + [ToolResults(turn.results)];
    assert messages[|messages| - 1] == ToolResults(turn.results);
  }

  /** Rows for an unanswered tool are exactly those its turn began with. */
  lemma RowsOfCurrent(rows: seq<StepRow>, turn: Turn, i: int)
    requires TurnOk(rows, turn) && |turn.results| < |turn.uses| && 0 <= i < |rows|
    requires ToolRow(rows[i], turn.uses[|turn.results|].id)
    ensures i < |Base(turn)| && Base(turn)[i] == rows[i]
  {
  }

  lemma BaseIsPrefix(rows: seq<StepRow>, turn: Turn)
    requires TurnOk(rows, turn)
    ensures Base(turn) <= rows && forall i :: 0 <= i < |Base(turn)| ==> rows[i] == Base(turn)[i]
  {
  }

  lemma StartKeeps(rows: seq<StepRow>, run: string, input: string, log: seq<Dispatch>, turn: Turn, row: StepRow)
    requires RowsOk(rows, run, input, log) && TurnOk(rows, turn) && |turn.results| < |turn.uses|
    requires var use := turn.uses[|turn.results|];
             && row.request.ToolCall? && row.request.name == use.name && row.request.input == use.input
             && row.request.toolUseId == use.id && row.request.key == ToolKey(run, use.id)
    requires row.status == Started && row.seqNo == |rows| + 1 && 1 <= row.attempt <= I64_MAX
    requires forall i :: 0 <= i < |rows| && ToolRow(rows[i], row.request.toolUseId) ==> Repeatable(rows[i], row)
    ensures RowsOk(rows + [row], run, input, log)
    ensures PcOk(rows + [row], input, log, Dispatching(turn, |rows| + 1))
  {
    hide TurnOk;
    AppendTool(rows, run, input, log, row);
    assert (rows + [row])[..|rows|] == rows;
  }

  lemma ReplayIsRepeatable(rows: seq<StepRow>, snapshot: seq<StepRow>, run: string, use: Block, current: Option<Contract>, row: StepRow)
    requires use.ToolUse? && ReplayAllowed(snapshot, run, use.name, use.id, use.input, current)
    requires CompletedRows(snapshot, use.id) == []
    requires row.request == ToolCall(use.name, use.input, use.id, ToolKey(run, use.id), current)
    requires row.attempt == MaxAttempt(snapshot, use.id) + 1
    requires forall i :: 0 <= i < |rows| && ToolRow(rows[i], use.id) ==> i < |snapshot| && snapshot[i] == rows[i]
    ensures forall i :: 0 <= i < |rows| && ToolRow(rows[i], use.id) ==> Repeatable(rows[i], row)
    ensures 1 <= row.attempt <= I64_MAX
  {
    forall i | 0 <= i < |rows| && ToolRow(rows[i], use.id)
      ensures Repeatable(rows[i], row)
    {
      assert RowAllowsReplay(snapshot[i], run, use.name, use.id, use.input, current.value);
    }
  }

  lemma SettledResultsAgree(before: seq<StepRow>, row: StepRow, turn: Turn, content: string, isError: bool)
    requires TurnShape(turn) && |turn.results| < |turn.uses| && DistinctIds(turn.uses)
    requires ResultsAgree(before, turn.uses, turn.results)
    requires row.request.ToolCall? && row.request.toolUseId == turn.uses[|turn.results|].id
    requires if row.status == Completed then !isError && row.result == Some(Content(content)) else isError && "Error: " <= content
    requires forall i :: 0 <= i < |before| && ToolRow(before[i], row.request.toolUseId) ==> before[i].status != Completed
    ensures ResultsAgree(before + [row], turn.uses, Answer(turn, content, isError).results)
  {
    var rows := before + [row];
    assert row.status == Completed ==> rows[|before|] == row;
    forall k | 0 <= k < |turn.results|
      ensures Done(before, turn.uses[k].id) ==> Done(rows, turn.uses[k].id)
    {
      if Done(before, turn.uses[k].id) {
        var i :| 0 <= i < |before| && ToolRow(before[i], turn.uses[k].id) && before[i].status == Completed;
        assert rows[i] == before[i];
      }
    }
  }

  lemma SettledUntouched(before: seq<StepRow>, row: StepRow, turn: Turn, content: string, isError: bool)
    requires TurnShape(turn) && |turn.results| < |turn.uses| && DistinctIds(turn.uses) && Untouched(before, turn)
    requires row.request.ToolCall? && row.request.toolUseId == turn.uses[|turn.results|].id
    ensures Untouched(before + [row], Answer(turn, content, isError))
  {
  }

  /** The tool row is finished and its result joins the conversation. */
  lemma SettleKeepsTurn(rows: seq<StepRow>, turn: Turn, n: int, status: StepStatus, result: StepResult, content: string, isError: bool)
    requires Pending(rows, turn, n) && PairsOk(rows)
    requires (status == Completed && !isError && result == Content(content)) || (status == Failed && isError && "Error: " <= content)
    ensures TurnOk(rows[n - 1 := Finished(rows[n - 1], status, result)], Answer(turn, content, isError))
  {
    hide ResultsAgree, Untouched, DistinctIds;
    var before := rows[..n - 1];
    var row := Finished(rows[n - 1], status, result);
    assert rows[n - 1 := row] == before + [row];
    LastLlmAppend(before, row);
    forall i | 0 <= i < |before| && ToolRow(before[i], row.request.toolUseId)
      ensures before[i].status != Completed
    {
      assert Repeatable(rows[i], rows[n - 1]);
    }
    SettledResultsAgree(before, row, turn, content, isError);
    SettledUntouched(before, row, turn, content, isError);
  }

  lemma ReplyKeeps(rows: seq<StepRow>, input: string, log: seq<Dispatch>, messages: seq<Message>, response: Response, left: nat)
    requires rows != [] && rows[|rows| - 1].request == LlmCall(messages)
    requires FreshIds(rows, ToolUses(response.content))
    ensures var rows' := rows[|rows| - 1 := Finished(rows[|rows| - 1], Completed, Reply(response))];
            PcOk(rows', input, log, AfterReply(messages, response, None, left))
  {
    var last := |rows| - 1;
    var row := Finished(rows[last], Completed, Reply(response));
    var rows' := rows[last := row];
    assert rows' == rows[..last] + [row];
    LastLlmAppend(rows[..last], row);
    var pc := AfterReply(messages, response, None, left);
    if pc.Tools? {
      forall k, i | 0 <= k < |pc.turn.uses| && 0 <= i < |rows'|
        ensures !ToolRow(rows'[i], pc.turn.uses[k].id)
      {
        assert i < last ==> rows'[i] == rows[i];
      }
    }
  }

  /** A resume that finds a completed response picks up exactly where the live loop stood. */
  lemma ResumedReply(rows: seq<StepRow>, input: string, log: seq<Dispatch>, row: StepRow)
    requires LastLlm(rows) == Some(row) && row.status == Completed && DistinctIds(ToolUses(ReplyOf(row).content))
    ensures PcOk(rows, input, log, AfterReply(row.request.messages, ReplyOf(row), Some(rows), 0))
  {
    hide DistinctIds;
    var pc := AfterReply(row.request.messages, ReplyOf(row), Some(rows), 0);
    if pc.Tools? {
      assert Untouched(rows, pc.turn) && ResultsAgree(rows, pc.turn.uses, []);
    }
  }

  lemma ResumeKeeps(rows: seq<StepRow>, run: string, input: string, log: seq<Dispatch>)
    requires RowsOk(rows, run, input, log)
    ensures PcOk(rows, input, log, ResumePc(rows, input))
  {
    hide PcOk, ChainOk, PairsOk, GapFree, LogOk, ToolRowsOk, DistinctIds, AfterReply;
    match LastLlm(rows)
    case None => LoopPc(rows, input, log, [UserPrompt(input)], 1, 0);
    case Some(row) =>
      if row.status != Completed {
        LoopPc(rows, input, log, row.request.messages, row.attempt + 1, 0);
      } else {
        ResumedReply(rows, input, log, row);
      }
  }

  // --------------------------------------------------------- steps of the state

  lemma ForeignKeepsRun(db: Db, op: JournalOp, now: int, run: string)
    requires run in db.runs && Foreign(op, run)
    ensures var db' := Step(db, op, now);
            && run in db'.runs && db'.runs[run].input == db.runs[run].input
            && RowsOf(db'.steps, run) == RowsOf(db.steps, run)
  {
    hide Apply, BindingIsCurrent, MaxSeq, WithResult, RowsOf;
    match op
    case Start(target, request, attempt) =>
      if GateOpen(db, target) {
        RowsOfAppend(db.steps, StepRow(target, MaxSeq(RowsOf(db.steps, target)) + 1, Started, request, None, attempt), run);
      }
    case Complete(target, n, result) => ForeignFinish(db.steps, target, n, Completed, result, run);
    case Fail(target, n, error) => ForeignFinish(db.steps, target, n, Failed, Failure(error), run);
    case _ =>
  }

  /** A refused start changes only run statuses. */
  lemma RefusedStart(db: Db, run: string, request: StepRequest, attempt: int)
    requires run in db.runs && StartStep(db, run, request, attempt).1.Err?
    ensures var db' := StartStep(db, run, request, attempt).0;
            run in db'.runs && db'.runs[run].input == db.runs[run].input && db'.steps == db.steps
  {
  }

  lemma StatusKeepsRows(db: Db, run: string, status: string)
    requires run in db.runs
    ensures var db' := SetRunStatus(db, run, status).0;
            run in db'.runs && db'.runs[run].input == db.runs[run].input && db'.steps == db.steps
  {
  }

  lemma StartToolKeeps(s: AgentState, turn: Turn, attempt: int)
    requires AgentOk(s) && s.proc.Some? && s.proc.value.pc == Tools(turn) && |turn.results| < |turn.uses|
    requires var use := turn.uses[|turn.results|];
             var request := ToolCall(use.name, use.input, use.id, ToolKey(s.run, use.id), ContractOf(s.proc.value.cfg, use.name));
             && 1 <= attempt <= I64_MAX
             && (forall i :: 0 <= i < |Rows(s)| && ToolRow(Rows(s)[i], use.id) ==>
                   Repeatable(Rows(s)[i], StepRow(s.run, |Rows(s)| + 1, Started, request, None, attempt)))
    ensures AgentOk(StartTool(s, turn, attempt))
  {
    hide TurnOk, RowsOk, PcOk;
    TurnOfPc(s, turn);
    var use := turn.uses[|turn.results|];
    var contract := ContractOf(s.proc.value.cfg, use.name);
    var request := ToolCall(use.name, use.input, use.id, ToolKey(s.run, use.id), contract);
    var rows := Rows(s);
    if contract.Some? && !ValidContract(contract.value) {
      AnswerKeepsTurn(rows, turn, "Error: invalid tool resume contract", true);
      ToolsPc(rows, s.db.runs[s.run].input, s.log, Answer(turn, "Error: invalid tool resume contract", true));
    } else if GateOpen(s.db, s.run) {
      StartAppends(s.db, s.run, request, attempt);
      StartKeeps(rows, s.run, s.db.runs[s.run].input, s.log, turn, StepRow(s.run, |rows| + 1, Started, request, None, attempt));
    } else {
      RefusedStart(s.db, s.run, request, attempt);
      StoppingPc(rows, s.db.runs[s.run].input, s.log, "needs_review");
    }
  }

  lemma TurnOfPc(s: AgentState, turn: Turn)
    requires AgentOk(s) && s.proc.Some? && s.proc.value.pc == Tools(turn)
    ensures TurnOk(Rows(s), turn) && TurnShape(turn) && GapFree(Rows(s))
  {
  }

  lemma ToolsPc(rows: seq<StepRow>, input: string, log: seq<Dispatch>, turn: Turn)
    requires TurnOk(rows, turn)
    ensures PcOk(rows, input, log, Tools(turn))
  {
  }

  lemma StoppingPc(rows: seq<StepRow>, input: string, log: seq<Dispatch>, status: string)
    requires status != "completed"
    ensures PcOk(rows, input, log, Stopping(status))
  {
  }

  lemma LoopPc(rows: seq<StepRow>, input: string, log: seq<Dispatch>, messages: seq<Message>, attempt: int, left: nat)
    requires Follows(rows, input, messages, attempt)
    ensures PcOk(rows, input, log, LoopTop(messages, attempt, left))
    ensures PcOk(rows, input, log, Restarting(messages, attempt))
  {
  }

  lemma FreshToolStarts(s: AgentState, turn: Turn)
    requires AgentOk(s) && s.proc.Some? && s.proc.value.pc == Tools(turn)
    requires |turn.results| < |turn.uses| && turn.snapshot.None?
    ensures AgentOk(StartTool(s, turn, 1))
  {
    TurnOfPc(s, turn);
    StartToolKeeps(s, turn, 1);
  }

  lemma ReplayStarts(s: AgentState, turn: Turn)
    requires AgentOk(s) && s.proc.Some? && s.proc.value.pc == Tools(turn)
    requires |turn.results| < |turn.uses| && turn.snapshot.Some? && TurnShape(turn)
    requires var use := turn.uses[|turn.results|];
             CompletedRows(turn.snapshot.value, use.id) == []
             && ReplayAllowed(turn.snapshot.value, s.run, use.name, use.id, use.input, ContractOf(s.proc.value.cfg, use.name))
    ensures AgentOk(StartTool(s, turn, MaxAttempt(turn.snapshot.value, turn.uses[|turn.results|].id) + 1))
  {
    hide AgentOk, RowsOk, PcOk, TurnOk, ReplayAllowed, Repeatable, StartTool, CompletedRows, MaxAttempt;
    TurnOfPc(s, turn);
    var use := turn.uses[|turn.results|];
    var current := ContractOf(s.proc.value.cfg, use.name);
    var rows := Rows(s);
    var attempt := MaxAttempt(turn.snapshot.value, use.id) + 1;
    var row := StepRow(s.run, |rows| + 1, Started, ToolCall(use.name, use.input, use.id, ToolKey(s.run, use.id), current), None, attempt);
    forall i | 0 <= i < |rows| && ToolRow(rows[i], use.id)
      ensures i < |turn.snapshot.value| && turn.snapshot.value[i] == rows[i]
    {
      RowsOfCurrent(rows, turn, i);
    }
    ReplayIsRepeatable(rows, turn.snapshot.value, s.run, use, current, row);
    StartToolKeeps(s, turn, attempt);
  }

  /** An answer taken from the journal, or an error answer, for a tool with no other completed row. */
  lemma AnswerFromRows(s: AgentState, turn: Turn, content: string, isError: bool)
    requires AgentOk(s) && s.proc.Some? && s.proc.value.pc == Tools(turn) && |turn.results| < |turn.uses|
    requires turn.snapshot.Some? ==>
               var done := CompletedRows(turn.snapshot.value, turn.uses[|turn.results|].id);
               if isError then done == [] else |done| == 1 && content == ContentOf(done[0])
    requires isError ==> "Error: " <= content
    requires turn.snapshot.None? ==> isError
    ensures AgentOk(Goto(s, s.db, Tools(Answer(turn, content, isError))))
  {
    hide AgentOk, RowsOk, PcOk, TurnOk, CompletedRows;
    AgentParts(s);
    TurnOfPc(s, turn);
    var rows := Rows(s);
    var id := turn.uses[|turn.results|].id;
    forall i | 0 <= i < |rows| && ToolRow(rows[i], id) && rows[i].status == Completed
      ensures !isError && content == ContentOf(rows[i])
    {
      RowsOfCurrent(rows, turn, i);
      assert turn.snapshot.Some?;
      assert rows[i] in CompletedRows(turn.snapshot.value, id);
    }
    if !isError {
      var done := CompletedRows(turn.snapshot.value, id)[0];
      var i :| 0 <= i < |turn.snapshot.value| && turn.snapshot.value[i] == done;
      assert rows[i] == done by { BaseIsPrefix(rows, turn); }
    }
    AnswerKeepsTurn(rows, turn, content, isError);
    ToolsPc(rows, s.db.runs[s.run].input, s.log, Answer(turn, content, isError));
    AgentFromParts(Goto(s, s.db, Tools(Answer(turn, content, isError))));
  }

  lemma TickToolsKeeps(s: AgentState, turn: Turn)
    requires AgentOk(s) && s.proc.Some? && s.proc.value.pc == Tools(turn)
    ensures AgentOk(TickTools(s, turn))
  {
    hide AgentOk, RowsOk, PcOk, TurnOk, ReplayAllowed, StartTool, CompletedRows, MaxAttempt, Follows;
    AgentParts(s);
    TurnOfPc(s, turn);
    var rows, input := Rows(s), s.db.runs[s.run].input;
    if |turn.results| == |turn.uses| {
      TurnEnds(rows, input, turn);
      LoopPc(rows, input, s.log, turn.messages + [ToolResults(turn.results)], 1, turn.left);
      AgentFromParts(TickTools(s, turn));
    } else if turn.snapshot.None? {
      FreshToolStarts(s, turn);
    } else {
      SnapshotToolKeeps(s, turn);
    }
  }

  lemma SnapshotToolKeeps(s: AgentState, turn: Turn)
    requires AgentOk(s) && s.proc.Some? && s.proc.value.pc == Tools(turn)
    requires TurnShape(turn) && |turn.results| < |turn.uses| && turn.snapshot.Some?
    ensures AgentOk(TickTools(s, turn))
  {
    hide AgentOk, RowsOk, PcOk, TurnOk, ReplayAllowed, StartTool, CompletedRows, MaxAttempt;
    AgentParts(s);
    var use := turn.uses[|turn.results|];
    var current := ContractOf(s.proc.value.cfg, use.name);
    var done := CompletedRows(turn.snapshot.value, use.id);
    if |done| == 1 && ReplayAllowed(done, s.run, use.name, use.id, use.input, current) {
      AnswerFromRows(s, turn, ContentOf(done[0]), false);
    } else if done == [] && ReplayAllowed(turn.snapshot.value, s.run, use.name, use.id, use.input, current) {
      ReplayStarts(s, turn);
    } else {
      StoppingPc(Rows(s), s.db.runs[s.run].input, s.log, "needs_review");
      AgentFromParts(TickTools(s, turn));
    }
  }

  /** The announcing row is finished in place and the run's other rows are as before. */
  lemma FinishesLast(s: AgentState, n: int, status: StepStatus, result: StepResult)
    requires s.run in s.db.runs && RowsOk(Rows(s), s.run, s.db.runs[s.run].input, s.log)
    requires n == |Rows(s)| && n >= 1
    requires Rows(s)[n - 1].request.LlmCall? && status == Completed ==>
               result.Reply? && DistinctIds(ToolUses(result.response.content))
    ensures var rows' := Rows(s)[n - 1 := Finished(Rows(s)[n - 1], status, result)];
            RowsOf(WithResult(s.db.steps, s.run, n, status, result), s.run) == rows'
            && RowsOk(rows', s.run, s.db.runs[s.run].input, s.log)
  {
    hide PairsOk, ChainOk, ToolRowsOk, LogOk, LlmIdsDistinct, WithResult, DistinctIds;
    FinishRewrites(s.db.steps, s.run, n, status, result);
    FinishLast(Rows(s), s.run, s.db.runs[s.run].input, s.log, status, result);
  }

  lemma PendingOfPc(s: AgentState, turn: Turn, n: int)
    requires AgentOk(s) && s.proc.Some?
    requires (s.proc.value.pc.Settling? && s.proc.value.pc.turn == turn && s.proc.value.pc.n == n)
             || s.proc.value.pc == Dispatching(turn, n)
    ensures Pending(Rows(s), turn, n) && PairsOk(Rows(s)) && TurnShape(turn) && |turn.results| < |turn.uses|
    ensures n == |Rows(s)| && n >= 1 && Rows(s)[n - 1].request.ToolCall?
    ensures s.proc.value.pc.Dispatching? ==> forall i :: 0 <= i < |s.log| ==> s.log[i].n < n
  {
    hide PairsOk, ChainOk, ToolRowsOk, LogOk, LlmIdsDistinct, GapFree;
  }

  lemma SettleKeeps(s: AgentState, turn: Turn, n: int, outcome: Outcome)
    requires AgentOk(s) && s.proc.Some? && s.proc.value.pc == Settling(turn, n, outcome)
    ensures AgentOk(Settle(s, turn, n, outcome))
  {
    hide AgentOk, RowsOk, PcOk, PairsOk, GapFree, TurnOk, Pending, WithResult;
    AgentParts(s);
    PendingOfPc(s, turn, n);
    var rows, input := Rows(s), s.db.runs[s.run].input;
    var status := if outcome.Success? then Completed else Failed;
    var result := if outcome.Success? then Content(outcome.content) else Failure(outcome.error);
    FinishesLast(s, n, status, result);
    var rows' := rows[n - 1 := Finished(rows[n - 1], status, result)];
    match outcome {
      case Success(content) =>
        SettleKeepsTurn(rows, turn, n, status, result, content, false);
        ToolsPc(rows', input, s.log, Answer(turn, content, false));
      case Errored(error) =>
        SettleKeepsTurn(rows, turn, n, status, result, "Error: " + error, true);
        ToolsPc(rows', input, s.log, Answer(turn, "Error: " + error, true));
      case Ambiguous(error) =>
        StoppingPc(rows', input, s.log, "needs_review");
    }
    AgentFromParts(Settle(s, turn, n, outcome));
  }

  lemma AgentParts(s: AgentState)
    requires AgentOk(s)
    ensures s.run in s.db.runs
    ensures RowsOk(Rows(s), s.run, s.db.runs[s.run].input, s.log)
    ensures GapFree(Rows(s))
    ensures s.proc.Some? ==> PcOk(Rows(s), s.db.runs[s.run].input, s.log, s.proc.value.pc)
  {
  }

  lemma AgentFromParts(s: AgentState)
    requires s.run in s.db.runs
    requires RowsOk(Rows(s), s.run, s.db.runs[s.run].input, s.log)
    requires s.proc.Some? ==> PcOk(Rows(s), s.db.runs[s.run].input, s.log, s.proc.value.pc)
    ensures AgentOk(s)
  {
  }

  lemma LoopKeeps(s: AgentState, messages: seq<Message>, attempt: int, left: nat)
    requires AgentOk(s) && s.proc.Some? && s.proc.value.pc == LoopTop(messages, attempt, left)
    ensures AgentOk(TickProcess(s))
  {
    hide AgentOk, RowsOk, Follows, GapFree, GateOpen, StartStep;
    AgentParts(s);
    var rows, input := Rows(s), s.db.runs[s.run].input;
    if left == 0 {
      StoppingPc(rows, input, s.log, "failed");
    } else if StartStep(s.db, s.run, LlmCall(messages), attempt).1.Ok? {
      CallStarts(s, messages, attempt, left - 1);
    } else {
      RefusedStart(s.db, s.run, LlmCall(messages), attempt);
    }
    AgentFromParts(TickProcess(s));
  }

  lemma StartedOpen(db: Db, run: string, request: StepRequest, attempt: int)
    requires StartStep(db, run, request, attempt).1.Ok?
    ensures GateOpen(db, run)
    ensures StartStep(db, run, request, attempt).0.runs == db.runs
  {
  }

  lemma CallStarts(s: AgentState, messages: seq<Message>, attempt: int, left: nat)
    requires s.run in s.db.runs && RowsOk(Rows(s), s.run, s.db.runs[s.run].input, s.log)
    requires Follows(Rows(s), s.db.runs[s.run].input, messages, attempt)
    requires StartStep(s.db, s.run, LlmCall(messages), attempt).1.Ok?
    ensures var (db', r) := StartStep(s.db, s.run, LlmCall(messages), attempt);
            var rows' := RowsOf(db'.steps, s.run);
            && db'.runs == s.db.runs
            && RowsOk(rows', s.run, s.db.runs[s.run].input, s.log)
            && PcOk(rows', s.db.runs[s.run].input, s.log, Calling(messages, r.value, left))
  {
    hide ChainOk, PairsOk, ToolRowsOk, LogOk, LlmIdsDistinct, Follows, GateOpen, StartStep, GapFree;
    StartedOpen(s.db, s.run, LlmCall(messages), attempt);
    assert GapFree(Rows(s));
    StartAppends(s.db, s.run, LlmCall(messages), attempt);
    AppendLlm(Rows(s), s.run, s.db.runs[s.run].input, s.log,
              StepRow(s.run, |Rows(s)| + 1, Started, LlmCall(messages), None, attempt));
  }

  lemma TickKeeps(s: AgentState)
    requires AgentOk(s) && s.proc.Some?
    ensures AgentOk(TickProcess(s))
  {
    hide AgentOk, RowsOk, GapFree, Follows, SetRunStatus, TickTools, Settle, StartStep, Pending, TurnOk;
    AgentParts(s);
    match s.proc.value.pc
    case LoopTop(messages, attempt, left) => LoopKeeps(s, messages, attempt, left);
    case Tools(turn) => TickToolsKeeps(s, turn);
    case Settling(turn, n, outcome) => SettleKeeps(s, turn, n, outcome);
    case Restarting(messages, attempt) =>
      StatusKeepsRows(s.db, s.run, "running");
      AgentFromParts(TickProcess(s));
    case Stopping(status) =>
      StatusKeepsRows(s.db, s.run, status);
      AgentFromParts(TickProcess(s));
    case _ =>
  }

  lemma ProviderKeeps(s: AgentState, e: Event)
    requires AgentOk(s) && Admissible(s, e)
    requires e.ProviderReply? || e.ProviderError?
    ensures AgentOk(Act(s, e))
  {
    hide AgentOk, RowsOk, PcOk, FreshIds, AfterReply, WithResult, DistinctIds;
    if s.proc.Some? && s.proc.value.pc.Calling? {
      AgentParts(s);
      CallOfPc(s);
      var rows, input := Rows(s), s.db.runs[s.run].input;
      var pc := s.proc.value.pc;
      match e
      case ProviderReply(response) =>
        FreshAreDistinct(rows, ToolUses(response.content));
        FinishesLast(s, pc.n, Completed, Reply(response));
        ReplyKeeps(rows, input, s.log, pc.messages, response, pc.left);
        AgentFromParts(Act(s, e));
      case ProviderError(error) =>
        FinishesLast(s, pc.n, Failed, Failure(error));
        StoppingPc(rows[pc.n - 1 := Finished(rows[pc.n - 1], Failed, Failure(error))], input, s.log, "failed");
        AgentFromParts(Act(s, e));
    }
  }

  lemma CallOfPc(s: AgentState)
    requires AgentOk(s) && s.proc.Some? && s.proc.value.pc.Calling?
    ensures var pc := s.proc.value.pc;
            pc.n == |Rows(s)| && pc.n >= 1 && Rows(s)[pc.n - 1].status == Started
            && Rows(s)[pc.n - 1].request == LlmCall(pc.messages)
  {
    hide RowsOk;
  }

  lemma FreshAreDistinct(rows: seq<StepRow>, uses: seq<Block>)
    requires (forall i :: 0 <= i < |uses| ==> uses[i].ToolUse?) && FreshIds(rows, uses)
    ensures DistinctIds(uses)
  {
  }

  /** The effect is logged after every earlier one and matches the row that announced it. */
  lemma EffectLogged(rows: seq<StepRow>, run: string, input: string, log: seq<Dispatch>, turn: Turn, n: int, outcome: Outcome)
    requires RowsOk(rows, run, input, log) && Pending(rows, turn, n) && |turn.results| < |turn.uses| && TurnShape(turn)
    requires forall i :: 0 <= i < |log| ==> log[i].n < n
    ensures var use := turn.uses[|turn.results|];
            var log' := log + [Dispatch(n, use.id, use.name, use.input, ToolKey(run, use.id))];
            RowsOk(rows, run, input, log') && PcOk(rows, input, log', Settling(turn, n, outcome))
  {
    hide GapFree, ChainOk, PairsOk, TurnOk, LlmIdsDistinct;
  }

  lemma EffectKeeps(s: AgentState, outcome: Outcome)
    requires AgentOk(s)
    ensures AgentOk(Act(s, Effect(outcome)))
  {
    hide AgentOk, RowsOk, PcOk, Pending, PairsOk;
    if s.proc.Some? && s.proc.value.pc.Dispatching? {
      AgentParts(s);
      var pc := s.proc.value.pc;
      PendingOfPc(s, pc.turn, pc.n);
      EffectLogged(Rows(s), s.run, s.db.runs[s.run].input, s.log, pc.turn, pc.n, outcome);
      AgentFromParts(Act(s, Effect(outcome)));
    }
  }

  lemma ResumedState(s: AgentState, cfg: Config)
    requires AgentOk(s) && s.proc.None?
    ensures AgentOk(StartResume(s, cfg))
  {
    hide AgentOk, RowsOk, PcOk, ResumePc, BindingIsCurrent;
    AgentParts(s);
    ResumeKeeps(Rows(s), s.run, s.db.runs[s.run].input, s.log);
    AgentFromParts(StartResume(s, cfg));
  }

  lemma RejectKeeps(s: AgentState, error: string)
    requires AgentOk(s)
    ensures AgentOk(RejectNext(s, error))
  {
    hide AgentOk, RowsOk, PcOk, TurnOk, ReplayAllowed, CompletedRows;
    if RejectNext(s, error) != s {
      AnswerFromRows(s, s.proc.value.pc.turn, "Error: " + error, true);
    }
  }

  lemma OtherKeeps(s: AgentState, op: JournalOp, now: nat)
    requires AgentOk(s) && Foreign(op, s.run)
    ensures AgentOk(Act(s, Other(op, now)))
  {
    hide AgentOk, RowsOk, PcOk, Step, Foreign;
    AgentParts(s);
    ForeignKeepsRun(s.db, op, now, s.run);
    AgentFromParts(Act(s, Other(op, now)));
  }

  lemma ActKeeps(s: AgentState, e: Event)
    requires AgentOk(s) && Admissible(s, e)
    ensures AgentOk(Act(s, e))
  {
    hide AgentOk, RowsOk, PcOk, Step, StartResume, TickProcess, RejectNext, Foreign, FreshIds, ResumePc;
    match e
    case Other(op, now) => OtherKeeps(s, op, now);
    case Crash =>
      AgentParts(s);
      AgentFromParts(s.(proc := None));
    case Resume(cfg) =>
      if s.proc.None? {
        ResumedState(s, cfg);
      }
    case Tick =>
      if s.proc.Some? {
        TickKeeps(s);
      }
    case RejectPrivate(error) => RejectKeeps(s, error);
    case Effect(outcome) => EffectKeeps(s, outcome);
    case _ => ProviderKeeps(s, e);
  }

  lemma InitialOk(s: AgentState)
    requires Initial(s)
    ensures AgentOk(s)
  {
  }

  lemma {:induction false} ActAllKeeps(s: AgentState, events: seq<Event>)
    requires AgentOk(s) && AdmissibleAll(s, events)
    ensures AgentOk(ActAll(s, events))
    decreases |events|
  {
    if events != [] {
      ActKeeps(s, events[0]);
      ActAllKeeps(Act(s, events[0]), events[1..]);
    }
  }
}
